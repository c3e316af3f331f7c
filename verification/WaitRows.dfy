/** The list discipline of the waiter table: per-row FIFO queues, and the list of the rows that
    are linked (`h_list` or `l_list`), written as the sequence of row indices from its head. */
module WaitRows {
  import opened Basics

  /** A row is linked at the end of the list, unless it is linked already. */
  function Linked(list: seq<nat>, row: nat): seq<nat>
  {
    if row in list then list else list + [row]
  }

  /** After a pop from the head row: an empty row leaves the list, another one moves to its end. */
  function AfterPop<T>(list: seq<nat>, queue: seq<T>): seq<nat>
    requires list != []
  {
    if |queue| == 0 then list[1..] else list[1..] + [list[0]]
  }

  /** The number of queued elements in all rows. */
  function Total<T>(rows: seq<seq<T>>): nat
  {
    if rows == [] then 0 else |rows[0]| + Total(rows[1..])
  }

  lemma {:induction false} TotalUpdate<T>(rows: seq<seq<T>>, r: nat, q: seq<T>)
    requires r < |rows|
    ensures Total(rows[r := q]) == Total(rows) - |rows[r]| + |q|
  {
    if r == 0 {
      assert rows[r := q][1..] == rows[1..];
    } else {
      assert rows[r := q][1..] == rows[1..][r - 1 := q];
      TotalUpdate(rows[1..], r - 1, q);
    }
  }

  lemma {:induction false} TotalZero<T>(rows: seq<seq<T>>)
    ensures Total(rows) == 0 <==> forall r :: 0 <= r < |rows| ==> rows[r] == []
  {
    if rows != [] {
      TotalZero(rows[1..]);
      assert forall r :: 1 <= r < |rows| ==> rows[r] == rows[1..][r - 1];
      assert forall r :: 0 <= r < |rows[1..]| ==> rows[1..][r] == rows[r + 1];
    }
  }

  /** A list names distinct rows, and every row that has waiters. */
  ghost predicate ListInv<T>(list: seq<nat>, rows: seq<seq<T>>)
  {
    && Distinct(list)
    && (forall i :: 0 <= i < |list| ==> list[i] < |rows|)
    && (forall r :: 0 <= r < |rows| && rows[r] != [] ==> r in list)
  }

  lemma LinkedInv<T>(list: seq<nat>, rows: seq<seq<T>>, row: nat)
    requires ListInv(list, rows) && row < |rows|
    ensures ListInv(Linked(list, row), rows) && row in Linked(list, row)
  {
    if row !in list {
      assert forall r :: r in list ==> r in list + [row];
    }
  }

  lemma AfterPopInv<T>(list: seq<nat>, rows: seq<seq<T>>)
    requires ListInv(list, rows) && list != []
    ensures ListInv(AfterPop(list, rows[list[0]]), rows)
    ensures rows[list[0]] == [] ==> list[0] !in AfterPop(list, rows[list[0]])
  {
    var rest := AfterPop(list, rows[list[0]]);
    forall r | 0 <= r < |rows| && rows[r] != [] ensures r in rest {
      var i :| 0 <= i < |list| && list[i] == r;
      assert i > 0 ==> rest[i - 1] == r;
      assert i == 0 ==> rest[|rest| - 1] == r;
    }
  }

  /** Rows only lose elements: the list still names every row that has waiters. */
  lemma ShrunkInv<T>(list: seq<nat>, rows: seq<seq<T>>, row: nat, q: seq<T>)
    requires ListInv(list, rows) && row < |rows| && (q != [] ==> rows[row] != [] || row in list)
    ensures ListInv(list, rows[row := q])
  {
  }

  // ---- one wake-up on one side of the table ----

  /** The list behind its leading empty rows. */
  function Skipped<T>(list: seq<nat>, rows: seq<seq<T>>): (rest: seq<nat>)
    requires forall i :: 0 <= i < |list| ==> list[i] < |rows|
    ensures |rest| <= |list| && rest == list[|list| - |rest|..]
  {
    if list == [] || |rows[list[0]]| > 0 then list else Skipped(list[1..], rows)
  }

  lemma {:induction false} SkippedInv<T>(list: seq<nat>, rows: seq<seq<T>>)
    requires ListInv(list, rows)
    ensures ListInv(Skipped(list, rows), rows)
    ensures Skipped(list, rows) == [] <==> Total(rows) == 0
    ensures Skipped(list, rows) != [] ==> rows[Skipped(list, rows)[0]] != []
  {
    TotalZero(rows);
    if list != [] && rows[list[0]] == [] {
      AfterPopInv(list, rows);
      SkippedInv(list[1..], rows);
    } else if list != [] {
      assert rows[list[0]] != [];
    }
  }

  datatype Side<T> = Side(rows: seq<seq<T>>, list: seq<nat>)

  ghost predicate SideInv<T>(s: Side<T>)
  {
    ListInv(s.list, s.rows)
  }

  /** A waiter arrives in `row`. */
  function Arrive<T>(s: Side<T>, row: nat, x: T): Side<T>
    requires row < |s.rows|
  {
    Side(s.rows[row := s.rows[row] + [x]], Linked(s.list, row))
  }

  /** The row that the next wake-up serves. */
  function NextRow<T>(s: Side<T>): nat
    requires SideInv(s) && Skipped(s.list, s.rows) != []
  {
    Skipped(s.list, s.rows)[0]
  }

  /** The side after one wake-up; nothing happens but unlinking when nobody waits. */
  function Wake<T>(s: Side<T>): Side<T>
    requires SideInv(s)
  {
    var rest := Skipped(s.list, s.rows);
    if rest == [] then Side(s.rows, [])
    else
      SkippedInv(s.list, s.rows);
      var q := s.rows[rest[0]][1..];
      Side(s.rows[rest[0] := q], AfterPop(rest, q))
  }

  lemma WakeInv<T>(s: Side<T>)
    requires SideInv(s)
    ensures SideInv(Wake(s))
    ensures Total(s.rows) > 0 ==> Total(Wake(s).rows) == Total(s.rows) - 1
    ensures Total(s.rows) == 0 ==> Wake(s).rows == s.rows
  {
    SkippedInv(s.list, s.rows);
    var rest := Skipped(s.list, s.rows);
    if rest != [] {
      var q := s.rows[rest[0]][1..];
      TotalUpdate(s.rows, rest[0], q);
      ShrunkInv(rest, s.rows, rest[0], q);
      AfterPopInv(rest, s.rows[rest[0] := q]);
    }
  }

  /** The ULT that the next wake-up takes. */
  function NextOne<T>(s: Side<T>): T
    requires SideInv(s) && Total(s.rows) > 0
  {
    SkippedInv(s.list, s.rows);
    s.rows[NextRow(s)][0]
  }

  /** What a scan that stops at the first row with a waiter does is one wake-up. */
  lemma ScanIsWake<T>(s: Side<T>)
    requires SideInv(s)
    ensures var rest := Skipped(s.list, s.rows);
            if rest == [] then Total(s.rows) == 0 && Wake(s) == Side(s.rows, [])
            else
              && Total(s.rows) > 0 && rest[0] < |s.rows| && |s.rows[rest[0]]| > 0
              && NextOne(s) == s.rows[rest[0]][0]
              && Wake(s) == Side(s.rows[rest[0] := s.rows[rest[0]][1..]], AfterPop(rest, s.rows[rest[0]][1..]))
    ensures Total(Wake(s).rows) == if Total(s.rows) == 0 then 0 else Total(s.rows) - 1
  {
    SkippedInv(s.list, s.rows);
    WakeInv(s);
  }

  /** The low side after one iteration of wake_de, which scans it when nobody waits on the high one. */
  function LowAfter<T>(h: Side<T>, l: Side<T>): Side<T>
    requires SideInv(l)
  {
    if Total(h.rows) > 0 then l else Wake(l)
  }

  lemma IterationInv<T>(h: Side<T>, l: Side<T>)
    requires SideInv(h) && SideInv(l) && Total(h.rows) + Total(l.rows) > 0
    ensures SideInv(Wake(h)) && SideInv(LowAfter(h, l))
    ensures Total(Wake(h).rows) == if Total(h.rows) > 0 then Total(h.rows) - 1 else 0
    ensures Total(Wake(h).rows) + Total(LowAfter(h, l).rows) == Total(h.rows) + Total(l.rows) - 1
  {
    WakeInv(h);
    WakeInv(l);
  }

  datatype Pass<T> = Pass(h: Side<T>, l: Side<T>, woken: seq<T>)

  /** wake_de with `n` wake-ups: both sides afterwards, and the ULTs woken, in order. */
  function WakePass<T>(h: Side<T>, l: Side<T>, n: nat): Pass<T>
    requires SideInv(h) && SideInv(l)
    decreases n
  {
    if n == 0 || Total(h.rows) + Total(l.rows) == 0 then Pass(h, l, [])
    else
      IterationInv(h, l);
      var x := if Total(h.rows) > 0 then NextOne(h) else NextOne(l);
      var rest := WakePass(Wake(h), LowAfter(h, l), n - 1);
      Pass(rest.h, rest.l, [x] + rest.woken)
  }

  lemma NothingLeft<T>(h: Side<T>, l: Side<T>, n: nat)
    requires SideInv(h) && SideInv(l) && (n == 0 || Total(h.rows) + Total(l.rows) == 0)
    ensures WakePass(h, l, n) == Pass(h, l, [])
  {
  }

  lemma PassStep<T>(h: Side<T>, l: Side<T>, h1: Side<T>, l1: Side<T>, x: T, n: nat)
    requires SideInv(h) && SideInv(l) && SideInv(h1) && SideInv(l1) && n > 0 && Total(h.rows) + Total(l.rows) > 0
    requires h1 == Wake(h) && l1 == LowAfter(h, l)
    requires x == if Total(h.rows) > 0 then NextOne(h) else NextOne(l)
    ensures var rest := WakePass(h1, l1, n - 1);
            WakePass(h, l, n) == Pass(rest.h, rest.l, [x] + rest.woken)
  {
  }

  /** A pass wakes a ULT per wake-up for as long as one waits, each out of its queue, and turns to
      the low side only when the high side has nobody left. */
  lemma {:induction false} WakePassSpec<T>(h: Side<T>, l: Side<T>, n: nat, a: nat, b: nat)
    requires SideInv(h) && SideInv(l) && a == Total(h.rows) && b == Total(l.rows)
    ensures var p := WakePass(h, l, n);
            && SideInv(p.h) && SideInv(p.l)
            && |p.woken| == (if n <= a + b then n else a + b)
            && Total(p.h.rows) == (if n <= a then a - n else 0)
            && Total(p.h.rows) + Total(p.l.rows) == a + b - |p.woken|
    decreases n
  {
    hide SideInv, Total, Wake, LowAfter, NextOne;
    if n != 0 && a + b != 0 {
      IterationInv(h, l);
      var h1, l1 := Wake(h), LowAfter(h, l);
      var a1, b1 := Total(h1.rows), Total(l1.rows);
      WakePassSpec(h1, l1, n - 1, a1, b1);
    }
  }

  // ---- round robin ----

  /** unlock_se pops a row for a hand-over, and leaves the list alone. */
  function Handed<T>(s: Side<T>, row: nat): Side<T>
    requires row < |s.rows|
  {
    if s.rows[row] == [] then s else s.(rows := s.rows[row := s.rows[row][1..]])
  }

  /** switch_low: the caller takes the place at the tail of a non-empty row whose head it resumes. */
  function Switched<T>(s: Side<T>, row: nat, x: T): Side<T>
    requires row < |s.rows|
  {
    if s.rows[row] == [] then s else s.(rows := s.rows[row := s.rows[row][1..] + [x]])
  }

  datatype Event<T> = Arrival(row: nat, x: T) | HandOver(row: nat) | LowSwitch(row: nat, x: T) | WakeUp

  ghost predicate EventsOk<T>(s: Side<T>, es: seq<Event<T>>)
  {
    forall i :: 0 <= i < |es| ==> EventOk(s, es[i])
  }

  predicate EventOk<T>(s: Side<T>, e: Event<T>)
  {
    e.WakeUp? || e.row < |s.rows|
  }

  function WakeUps<T>(es: seq<Event<T>>): nat
  {
    if es == [] then 0 else (if es[0].WakeUp? then 1 else 0) + WakeUps(es[1..])
  }

  function After<T>(s: Side<T>, e: Event<T>): Side<T>
    requires SideInv(s) && EventOk(s, e)
  {
    match e
    case Arrival(r, x) => Arrive(s, r, x)
    case HandOver(r) => Handed(s, r)
    case LowSwitch(r, x) => Switched(s, r, x)
    case WakeUp => Wake(s)
  }

  lemma AfterInv<T>(s: Side<T>, e: Event<T>)
    requires SideInv(s) && EventOk(s, e)
    ensures SideInv(After(s, e)) && |After(s, e).rows| == |s.rows|
  {
    hide Skipped, Total, Distinct;
    match e
    case Arrival(r, x) => LinkedInv(s.list, s.rows, r);
    case HandOver(r) =>
    case LowSwitch(r, x) =>
    case WakeUp => WakeInv(s);
  }

  /** A wake-up takes a waiter of `row`, or a hand-over its last one. */
  predicate Serves<T>(s: Side<T>, e: Event<T>, row: nat)
    requires SideInv(s) && EventOk(s, e)
  {
    match e
    case HandOver(r) => r == row && |s.rows[r]| == 1
    case WakeUp => Skipped(s.list, s.rows) != [] && NextRow(s) == row
    case _ => false
  }

  /** Whether `row` is served while the events take place. */
  ghost predicate Served<T>(s: Side<T>, es: seq<Event<T>>, row: nat)
    requires SideInv(s) && EventsOk(s, es)
    decreases |es|
  {
    es != [] &&
    (Serves(s, es[0], row) ||
     (AfterInv(s, es[0]);
      Served(After(s, es[0]), es[1..], row)))
  }

  /** A wake-up that serves another row brings a waiting row at least one place forward. */
  lemma WakeMovesUp<T>(s: Side<T>, k: nat) returns (k': nat)
    requires SideInv(s) && k < |s.list| && s.rows[s.list[k]] != []
    requires Skipped(s.list, s.rows) == [] || NextRow(s) != s.list[k]
    ensures SideInv(Wake(s)) && k' < k && k' < |Wake(s).list| && Wake(s).list[k'] == s.list[k]
    ensures Wake(s).rows[s.list[k]] == s.rows[s.list[k]] && |Wake(s).rows| == |s.rows|
  {
    hide Distinct, Total, Skipped;
    WakeInv(s);
    SkippedInv(s.list, s.rows);
    SkippedKeeps(s.list, s.rows, k);
    var rest := Skipped(s.list, s.rows);
    var d := |s.list| - |rest|;
    assert rest[k - d] == s.list[k];
    k' := k - d - 1;
  }

  /** Nothing but a wake-up that serves it, or a hand-over that empties it, moves a row in the list. */
  lemma EventKeeps<T>(s: Side<T>, e: Event<T>, k: nat)
    requires SideInv(s) && EventOk(s, e) && !e.WakeUp? && k < |s.list| && s.rows[s.list[k]] != []
    requires !Serves(s, e, s.list[k])
    ensures SideInv(After(s, e)) && k < |After(s, e).list| && After(s, e).list[k] == s.list[k]
    ensures |After(s, e).rows| == |s.rows| && After(s, e).rows[s.list[k]] != []
  {
    AfterInv(s, e);
  }

  /** Round robin: a linked row with a waiter, `k` places behind the head of the list, is served
      within k + 1 wake-ups, or emptied by hand-overs, whatever arrivals, hand-overs and switches of
      low-priority callers come in between. */
  lemma {:induction false} RoundRobin<T>(s: Side<T>, es: seq<Event<T>>, k: nat)
    requires SideInv(s) && EventsOk(s, es) && k < |s.list| && s.rows[s.list[k]] != []
    requires WakeUps(es) >= k + 1
    ensures Served(s, es, s.list[k])
    decreases |es|
  {
    hide Distinct, Skipped, Total, After;
    if !Serves(s, es[0], s.list[k]) {
      AfterInv(s, es[0]);
      if es[0].WakeUp? {
        var k' := MovesUp(s, k);
        RoundRobin(After(s, es[0]), es[1..], k');
      } else {
        EventKeeps(s, es[0], k);
        RoundRobin(After(s, es[0]), es[1..], k);
      }
    }
  }

  lemma MovesUp<T>(s: Side<T>, k: nat) returns (k': nat)
    requires SideInv(s) && k < |s.list| && s.list[k] < |s.rows| && s.rows[s.list[k]] != []
    requires !Serves(s, WakeUp, s.list[k])
    ensures k' < k && k' < |After(s, WakeUp).list| && After(s, WakeUp).list[k'] == s.list[k]
    ensures s.list[k] < |After(s, WakeUp).rows| && After(s, WakeUp).rows[s.list[k]] != []
  {
    k' := WakeMovesUp(s, k);
  }

  lemma {:induction false} SkippedKeeps<T>(list: seq<nat>, rows: seq<seq<T>>, k: nat)
    requires forall i :: 0 <= i < |list| ==> list[i] < |rows|
    requires k < |list| && rows[list[k]] != []
    ensures |list| - |Skipped(list, rows)| <= k
  {
    if rows[list[0]] == [] { SkippedKeeps(list[1..], rows, k - 1); }
  }
}
