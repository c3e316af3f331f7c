/** The life of a key: the user who creates and frees it, and any number of tables that hold it, as
    a state machine with one step for each atomic operation on its reference count. */
module KeyLife {
  import opened Counting

  type Tid = nat

  /** The user: has the key; has stored `freed`; has decremented and found the count at one, or not. */
  datatype User = HasKey | Freeing | Releasing | Gone

  /** A table: does not hold the key yet; holds it; has decremented and found the count at one; is done. */
  datatype TablePc = Without | Holds | CheckFreed | ReleaseKey | Done

  /** `released` records how often the memory has been released, `lost` whether a table that found the
      count at one did not find the key freed. */
  datatype State = State(user: User, freed: bool, refcount: int, tables: seq<TablePc>, released: nat, lost: bool)

  datatype Act =
    | SetIn(t: Tid) | FreeTable(t: Tid) | Check(t: Tid) | ReleaseBy(t: Tid)
    | MarkFreed | UserDrop | UserRelease

  ghost predicate Init(s: State)
  {
    s == State(HasKey, false, 1, s.tables, 0, false) && forall t :: 0 <= t < |s.tables| ==> s.tables[t] == Without
  }

  predicate Can(s: State, a: Act)
  {
    match a
    case SetIn(t) => t < |s.tables| && s.tables[t] == Without && s.user == HasKey
    case FreeTable(t) => t < |s.tables| && s.tables[t] == Holds
    case Check(t) => t < |s.tables| && s.tables[t] == CheckFreed
    case ReleaseBy(t) => t < |s.tables| && s.tables[t] == ReleaseKey
    case MarkFreed => s.user == HasKey
    case UserDrop => s.user == Freeing
    case UserRelease => s.user == Releasing
  }

  function Go(s: State, t: Tid, p: TablePc): State
    requires t < |s.tables|
  {
    s.(tables := s.tables[t := p])
  }

  function Next(s: State, a: Act): State
    requires Can(s, a)
  {
    match a
    case SetIn(t) => Go(s, t, Holds).(refcount := s.refcount + 1)
    case FreeTable(t) => Go(s, t, if s.refcount == 1 then CheckFreed else Done).(refcount := s.refcount - 1)
    case Check(t) => Go(s, t, if s.freed then ReleaseKey else Done).(lost := s.lost || !s.freed)
    case ReleaseBy(t) => Go(s, t, Done).(released := s.released + 1)
    case MarkFreed => s.(user := Freeing, freed := true)
    case UserDrop => s.(user := if s.refcount == 1 then Releasing else Gone, refcount := s.refcount - 1)
    case UserRelease => s.(user := Gone, released := s.released + 1)
  }

  ghost predicate Run(tr: seq<State>)
  {
    && tr != [] && Init(tr[0])
    && forall i :: 0 <= i < |tr| - 1 ==> Steps(tr[i], tr[i + 1])
  }

  ghost predicate Steps(s: State, s': State)
  {
    exists a :: Can(s, a) && s' == Next(s, a)
  }

  function Holders(tables: seq<TablePc>): seq<bool>
  {
    seq(|tables|, t requires 0 <= t < |tables| => tables[t] == Holds)
  }

  /** Tables that are about to release the key. */
  function Last(tables: seq<TablePc>): seq<bool>
  {
    seq(|tables|, t requires 0 <= t < |tables| => tables[t] == CheckFreed || tables[t] == ReleaseKey)
  }

  predicate UserCounts(u: User)
  {
    u == HasKey || u == Freeing
  }

  ghost predicate Inv(s: State)
  {
    && s.refcount == One(UserCounts(s.user)) + Count(Holders(s.tables))
    && One(s.user == Releasing) + Count(Last(s.tables)) + s.released == One(s.refcount == 0)
    && (s.freed <==> s.user != HasKey) && !s.lost
  }

  lemma TableUpdate(tables: seq<TablePc>, t: Tid, p: TablePc)
    requires t < |tables|
    ensures Count(Holders(tables[t := p])) == Count(Holders(tables)) - One(tables[t] == Holds) + One(p == Holds)
    ensures Count(Last(tables[t := p]))
            == Count(Last(tables)) - One(tables[t] == CheckFreed || tables[t] == ReleaseKey)
               + One(p == CheckFreed || p == ReleaseKey)
    ensures tables[t] == Holds ==> Count(Holders(tables)) >= 1
    ensures tables[t] == CheckFreed || tables[t] == ReleaseKey ==> Count(Last(tables)) >= 1
  {
    assert Holders(tables[t := p]) == Holders(tables)[t := p == Holds];
    CountUpdate(Holders(tables), t, p == Holds);
    assert Last(tables[t := p]) == Last(tables)[t := p == CheckFreed || p == ReleaseKey];
    CountUpdate(Last(tables), t, p == CheckFreed || p == ReleaseKey);
    CountNone(Holders(tables));
    CountNone(Last(tables));
  }

  lemma InitKeeps(s: State)
    requires Init(s)
    ensures Inv(s)
  {
    CountNone(Holders(s.tables));
    CountNone(Last(s.tables));
  }

  lemma StepKeeps(s: State, a: Act)
    requires Inv(s) && Can(s, a)
    ensures Inv(Next(s, a))
  {
    hide Holders, Last, Count;
    var s' := Next(s, a);
    if a.SetIn? || a.FreeTable? || a.Check? || a.ReleaseBy? { TableUpdate(s.tables, a.t, s'.tables[a.t]); }
  }

  lemma {:induction false} RunKeeps(tr: seq<State>, i: nat)
    requires Run(tr) && i < |tr|
    ensures Inv(tr[i])
  {
    hide Inv, Next, Can;
    if i == 0 {
      InitKeeps(tr[0]);
    } else {
      RunKeeps(tr, i - 1);
      assert Steps(tr[i - 1], tr[i - 1 + 1]);
      var a :| Can(tr[i - 1], a) && tr[i] == Next(tr[i - 1], a);
      StepKeeps(tr[i - 1], a);
    }
  }

  /** The reference count is one for the user, until he has dropped the key, and one for each table that
      holds it. */
  lemma TheCountIsRight(tr: seq<State>, i: nat)
    requires Run(tr) && i < |tr|
    ensures tr[i].refcount == One(UserCounts(tr[i].user)) + Count(Holders(tr[i].tables))
  {
    RunKeeps(tr, i);
  }

  /** The memory is released at most once, by the one that takes the count to zero and only when the user
      has dropped the key and no table holds it; the table that takes the count to zero always finds the
      key freed. */
  lemma ReleasedOnceByTheLast(tr: seq<State>, i: nat)
    requires Run(tr) && i < |tr|
    ensures tr[i].released <= 1 && !tr[i].lost
    ensures tr[i].released == 1 ==> tr[i].freed && !UserCounts(tr[i].user) && forall t :: 0 <= t < |tr[i].tables| ==>
              tr[i].tables[t] == Without || tr[i].tables[t] == Done
    ensures tr[i].refcount == 0 && (forall a :: !Can(tr[i], a)) ==> tr[i].released == 1
  {
    RunKeeps(tr, i);
    var s := tr[i];
    CountNone(Holders(s.tables));
    CountNone(Last(s.tables));
    if s.released == 1 {
      forall t | 0 <= t < |s.tables| ensures s.tables[t] == Without || s.tables[t] == Done {
        assert !Holders(s.tables)[t] && !Last(s.tables)[t];
      }
    }
    if s.released == 0 && s.refcount == 0 && s.user != Releasing {
      var t :| 0 <= t < |s.tables| && Last(s.tables)[t];
      assert Can(s, Check(t)) || Can(s, ReleaseBy(t));
    }
    if s.user == Releasing { assert Can(s, UserRelease); }
  }

  /** How far the user, and the tables that hold the key or are about to release it, are from their end. */
  function Left(p: TablePc): int
  {
    match p case Without => 0 case Holds => 3 case CheckFreed => 2 case ReleaseKey => 1 case Done => 0
  }

  function Lefts(tables: seq<TablePc>): seq<int>
  {
    seq(|tables|, t requires 0 <= t < |tables| => Left(tables[t]))
  }

  function Remaining(s: State): int
  {
    (match s.user case HasKey => 3 case Freeing => 2 case Releasing => 1 case Gone => 0) + Sum(Lefts(s.tables))
  }

  lemma LeftUpdate(tables: seq<TablePc>, t: Tid, p: TablePc)
    requires t < |tables|
    ensures Sum(Lefts(tables[t := p])) == Sum(Lefts(tables)) - Left(tables[t]) + Left(p)
  {
    assert Lefts(tables[t := p]) == Lefts(tables)[t := Left(p)];
    SumUpdate(Lefts(tables), t, Left(p));
  }

  /** A new key, and any number of tables. */
  lemma Starts(tables: nat)
    ensures Init(State(HasKey, false, 1, seq(tables, i => Without), 0, false))
  {
  }

  /** Any table may be given a key that the user has; it then holds a reference. */
  lemma AnyTableMayHold(s: State, t: Tid)
    requires s.user == HasKey && t < |s.tables| && s.tables[t] == Without
    ensures Can(s, SetIn(t)) && Next(s, SetIn(t)) == s.(tables := s.tables[t := Holds], refcount := s.refcount + 1)
  {
  }

  /** Nobody holds the release up: until the memory has been released somebody can take a step towards
      it, and all steps but the use of the key in another table are such steps; none is left exactly when
      the memory has been released. */
  lemma ReleaseComes(tr: seq<State>, i: nat)
    requires Run(tr) && i < |tr|
    ensures Remaining(tr[i]) >= 0 && (Remaining(tr[i]) == 0 <==> tr[i].released == 1)
    ensures tr[i].released != 1 ==> exists a :: Can(tr[i], a) && !a.SetIn?
    ensures forall a :: Can(tr[i], a) && !a.SetIn? ==> Remaining(Next(tr[i], a)) < Remaining(tr[i])
  {
    hide Sum, Count;
    RunKeeps(tr, i);
    var s := tr[i];
    SumZero(Lefts(s.tables));
    CountNone(Holders(s.tables));
    CountNone(Last(s.tables));
    if Remaining(s) == 0 {
      forall t | 0 <= t < |s.tables| ensures !Holders(s.tables)[t] && !Last(s.tables)[t] {
        assert Lefts(s.tables)[t] == 0;
      }
    }
    if s.released != 1 {
      SomebodySteps(s);
    } else {
      ReleasedOnceByTheLast(tr, i);
    }
    forall a | Can(s, a) && !a.SetIn? ensures Remaining(Next(s, a)) < Remaining(s) {
      if a.FreeTable? || a.Check? || a.ReleaseBy? { LeftUpdate(s.tables, a.t, Next(s, a).tables[a.t]); }
    }
  }

  lemma SomebodySteps(s: State)
    requires Inv(s) && s.released != 1
    ensures exists a :: Can(s, a) && !a.SetIn?
  {
    hide Count;
    CountNone(Holders(s.tables));
    CountNone(Last(s.tables));
    if s.user != Gone {
      assert Can(s, MarkFreed) || Can(s, UserDrop) || Can(s, UserRelease);
    } else if t :| 0 <= t < |s.tables| && Holders(s.tables)[t] {
      assert Can(s, FreeTable(t));
    } else {
      var t :| 0 <= t < |s.tables| && Last(s.tables)[t];
      assert Can(s, Check(t)) || Can(s, ReleaseBy(t));
    }
  }
}
