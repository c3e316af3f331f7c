/** A wake pass of the mutex that no other ULT disturbs: it is the wake pass on values. */
module MutexWakeAlone {
  import opened Basics
  import opened WaitRows
  import opened MutexProtocol
  import opened MutexInvariant
  import opened MutexTheorems
  import opened MutexAlone

  function HighSide(s: State): Side<Tid> { Side(s.h, s.hList) }
  function LowSide(s: State): Side<Tid> { Side(s.l, s.lList) }
  function OneSide(s: State, high: bool): Side<Tid> { Side(Rows(s, high), List(s, high)) }

  /** The table is in order, and whoever waits has been switched out. */
  ghost predicate Calm(s: State, t: Tid, r: nat)
  {
    && Shaped(s, t, r) && SideInv(HighSide(s)) && SideInv(LowSide(s)) && QueuedInv(s)
    && s.numElems == Total(s.h) + Total(s.l) && !s.pc[t].Waiting?
    && forall x :: x in s.pc && s.pc[x].Waiting? ==> s.pc[x].stage == Suspended
  }

  /** `t` is at `p`, with the table lock or without it. */
  function GoTo(s: State, t: Tid, p: Pc, table: Option<Tid>): State
  {
    s.(pc := s.pc[t := p], table := table)
  }

  /** One list has given the ULT `x`, which `t` holds, or nobody. */
  predicate Scanned(s: State, s': State, t: Tid, high: bool, got: Option<Tid>)
    requires SideInv(OneSide(s, high))
  {
    && t in s.pc && t in s'.pc
    && OneSide(s', high) == Wake(OneSide(s, high)) && OneSide(s', !high) == OneSide(s, !high)
    && (got.Some? <==> Total(Rows(s, high)) > 0)
    && (got.Some? ==>
          && got.value == NextOne(OneSide(s, high)) && IsSuspended(s, got.value) && got.value != t
          && s'.pc == s.pc[got.value := s.pc[got.value].(place := Held(t))][t := s'.pc[t]]
          && s'.numElems == s.numElems - 1)
    && (got == None ==> s'.pc == s.pc[t := s'.pc[t]] && s'.numElems == s.numElems)
    && s' == s.(pc := s'.pc, numElems := s'.numElems, h := s'.h, l := s'.l, hList := s'.hList, lList := s'.lList)
  }

  /** Where the scan of a list ends. */
  function ScanEnd(n: nat, reset: Option<nat>, high: bool, got: Option<Tid>): Pc
  {
    if got.Some? then Waking(n, reset, high, ExitTable(got))
    else Waking(n, reset, false, if high then Start else ExitTable(None))
  }

  lemma QueuedAt(s: State, high: bool, row: nat)
    requires QueuedInv(s) && |s.h| == |s.l| && row < |s.h| && Rows(s, high)[row] != []
    requires forall x :: x in s.pc && s.pc[x].Waiting? ==> s.pc[x].stage == Suspended
    ensures IsSuspended(s, Rows(s, high)[row][0])
  {
    if high { assert At(s, s.h[row][0], High(row)); } else { assert At(s, s.l[row][0], Low(row)); }
  }

  function WithRows(s: State, high: bool, rows: seq<seq<Tid>>): State
  {
    if high then s.(h := rows) else s.(l := rows)
  }

  function WithList(s: State, high: bool, list: seq<nat>): State
  {
    if high then s.(hList := list) else s.(lList := list)
  }

  predicate AtHead(s: State, t: Tid, r: nat, high: bool)
  {
    Shaped(s, t, r) && List(s, high) != [] && List(s, high)[0] < |s.h|
  }

  /** The step that pops the first ULT of the head row. */
  lemma PopStep(s: State, s': State, t: Tid, r: nat, n: nat, reset: Option<nat>, high: bool, start: nat, x: Tid)
    requires AtHead(s, t, r, high) && s.pc[t] == Waking(n, reset, high, Pop(start))
    requires Rows(s, high)[List(s, high)[0]] != [] && x == Rows(s, high)[List(s, high)[0]][0] && IsSuspended(s, x)
    requires x != t
    requires s' == WithRows(s, high, Rows(s, high)[List(s, high)[0] := Rows(s, high)[List(s, high)[0]][1..]])
                   .(pc := s.pc[x := s.pc[x].(place := Held(t))][t := Waking(n, reset, high, Fix(start, Some(x)))],
                     numElems := s.numElems - 1)
    ensures Step(s, s', t, r)
  {
    hide LockNext, QueueNext, WaitNext, ReturnNext, ReceiveNext, ReleaseNext, GiveNext;
  }

  /** The step that finds the head row empty. */
  lemma PopNoneStep(s: State, t: Tid, r: nat, n: nat, reset: Option<nat>, high: bool, start: nat)
    requires AtHead(s, t, r, high) && s.pc[t] == Waking(n, reset, high, Pop(start))
    requires Rows(s, high)[List(s, high)[0]] == []
    ensures Step(s, s.(pc := s.pc[t := Waking(n, reset, high, Fix(start, None))]), t, r)
  {
    hide LockNext, QueueNext, WaitNext, ReturnNext, ReceiveNext, ReleaseNext, GiveNext;
  }

  /** The step that moves the head row to the end of the list, or unlinks it. */
  lemma FixStep(s: State, s': State, t: Tid, r: nat, n: nat, reset: Option<nat>, high: bool, start: nat,
                got: Option<Tid>, rest: seq<nat>)
    requires AtHead(s, t, r, high) && s.pc[t] == Waking(n, reset, high, Fix(start, got))
    requires rest == AfterPop(List(s, high), Rows(s, high)[List(s, high)[0]])
    requires got == None && rest != [] ==> rest[0] != start
    requires s' == WithList(s, high, rest)
                   .(pc := s.pc[t := if got.Some? || rest == [] then ScanEnd(n, reset, high, got)
                                     else Waking(n, reset, high, Pop(start))])
    ensures Step(s, s', t, r)
  {
    hide LockNext, QueueNext, WaitNext, ReturnNext, ReceiveNext, ReleaseNext, GiveNext;
  }

  lemma HeadFirst(side: Side<Tid>)
    requires SideInv(side) && side.list != []
    ensures side.list[0] < |side.rows|
    ensures var row := side.list[0]; var q := side.rows[row];
            if q == [] then
              && SideInv(Side(side.rows, side.list[1..])) && Wake(side) == Wake(Side(side.rows, side.list[1..]))
              && (Total(side.rows) > 0 ==> NextOne(side) == NextOne(Side(side.rows, side.list[1..])))
            else
              && Total(side.rows) > 0 && NextOne(side) == q[0]
              && Wake(side) == Side(side.rows[row := q[1..]], AfterPop(side.list, q[1..]))
  {
    ScanIsWake(side);
    if side.rows[side.list[0]] == [] {
      AfterPopInv(side.list, side.rows);
      ScanIsWake(Side(side.rows, side.list[1..]));
    }
  }

  /** The head row has a waiter: two steps take it and move or unlink the row. */
  lemma TakesHead(s: State, t: Tid, r: nat, n: nat, reset: Option<nat>, high: bool, start: nat)
    returns (s': State, got: Option<Tid>)
    requires Calm(s, t, r) && s.table == Some(t) && s.pc[t] == Waking(n, reset, high, Pop(start))
    requires AtHead(s, t, r, high) && Rows(s, high)[List(s, high)[0]] != []
    ensures Scanned(s, s', t, high, got) && s'.pc[t] == ScanEnd(n, reset, high, got) && Solo(s, s', t, r)
  {
    hide Solo, Step, SideInv, Total, Wake, NextOne, QueuedInv, AfterPop, ScanEnd;
    var row := List(s, high)[0];
    var q := Rows(s, high)[row];
    var x := q[0];
    QueuedAt(s, high, row);
    HeadFirst(OneSide(s, high));
    Stays(s, t, r);
    var rows := Rows(s, high)[row := q[1..]];
    var s1 := WithRows(s, high, rows)
              .(pc := s.pc[x := s.pc[x].(place := Held(t))][t := Waking(n, reset, high, Fix(start, Some(x)))],
                numElems := s.numElems - 1);
    PopStep(s, s1, t, r, n, reset, high, start, x);
    Then(s, s, s1, t, r);
    got := Some(x);
    var rest := AfterPop(List(s, high), q[1..]);
    s' := WithList(s1, high, rest).(pc := s1.pc[t := ScanEnd(n, reset, high, got)]);
    FixStep(s1, s', t, r, n, reset, high, start, got, rest);
    Then(s, s1, s', t, r);
  }

  /** The head row is empty: two steps unlink it. */
  lemma SkipsHead(s: State, t: Tid, r: nat, n: nat, reset: Option<nat>, high: bool, start: nat) returns (s': State)
    requires Calm(s, t, r) && s.table == Some(t) && s.pc[t] == Waking(n, reset, high, Pop(start))
    requires AtHead(s, t, r, high) && Rows(s, high)[List(s, high)[0]] == []
    requires List(s, high)[0] == start || start !in List(s, high)
    ensures s' == WithList(s, high, List(s, high)[1..]).(pc := s'.pc) && s'.pc.Keys == s.pc.Keys
    ensures s'.pc == s.pc[t := if List(s', high) == [] then ScanEnd(n, reset, high, None)
                               else Waking(n, reset, high, Pop(start))]
    ensures Calm(s', t, r) && start !in List(s', high) && Solo(s, s', t, r)
  {
    hide Solo, Step, Total, Wake, NextOne;
    var list := List(s, high);
    AfterPopInv(list, Rows(s, high));
    Stays(s, t, r);
    var s1 := s.(pc := s.pc[t := Waking(n, reset, high, Fix(start, None))]);
    PopNoneStep(s, t, r, n, reset, high, start);
    Then(s, s, s1, t, r);
    s' := WithList(s, high, list[1..])
          .(pc := s.pc[t := if list[1..] == [] then ScanEnd(n, reset, high, None)
                            else Waking(n, reset, high, Pop(start))]);
    FixStep(s1, s', t, r, n, reset, high, start, None, list[1..]);
    Then(s, s1, s', t, r);
  }

  /** A list that has been begun is scanned to its end. */
  lemma {:induction false} Scans(s: State, t: Tid, r: nat, n: nat, reset: Option<nat>, high: bool, start: nat)
    returns (s': State, got: Option<Tid>)
    requires Calm(s, t, r) && s.table == Some(t) && s.pc[t] == Waking(n, reset, high, Pop(start))
    requires AtHead(s, t, r, high) && (List(s, high)[0] == start || start !in List(s, high))
    ensures Scanned(s, s', t, high, got) && s'.pc[t] == ScanEnd(n, reset, high, got) && Solo(s, s', t, r)
    decreases |List(s, high)|
  {
    hide Solo, Step, Total, Wake, NextOne, QueuedInv, AfterPop, ScanEnd;
    if Rows(s, high)[List(s, high)[0]] != [] {
      s', got := TakesHead(s, t, r, n, reset, high, start);
    } else {
      HeadFirst(OneSide(s, high));
      var m := SkipsHead(s, t, r, n, reset, high, start);
      if List(m, high) == [] {
        NothingThere(OneSide(m, high));
        s', got := m, None;
      } else {
        s', got := Scans(m, t, r, n, reset, high, start);
        Both(s, m, s', t, r);
      }
    }
  }

  lemma NothingThere(side: Side<Tid>)
    requires SideInv(side) && side.list == []
    ensures Total(side.rows) == 0 && Wake(side) == side
  {
    ScanIsWake(side);
  }

  /** Both the scan of a list that has no row, and that of one that has. */
  lemma ScansAll(s: State, t: Tid, r: nat, n: nat, reset: Option<nat>, high: bool)
    returns (s': State, got: Option<Tid>)
    requires Calm(s, t, r) && s.table == Some(t) && s.pc[t] == Waking(n, reset, high, Start)
    ensures Scanned(s, s', t, high, got) && s'.pc[t] == ScanEnd(n, reset, high, got) && Solo(s, s', t, r)
  {
    hide Solo, Total, Wake, NextOne, LockNext, QueueNext, WaitNext, ReturnNext, ReceiveNext, ReleaseNext,
         GiveNext;
    Stays(s, t, r);
    if List(s, high) == [] {
      NothingThere(OneSide(s, high));
      got := None;
      s' := s.(pc := s.pc[t := ScanEnd(n, reset, high, None)]);
      Then(s, s, s', t, r);
    } else {
      var start := List(s, high)[0];
      var s1 := s.(pc := s.pc[t := Waking(n, reset, high, Pop(start))]);
      Then(s, s, s1, t, r);
      s', got := Scans(s1, t, r, n, reset, high, start);
      Both(s, s1, s', t, r);
    }
  }

  /** What a scan leaves is in order again. */
  lemma ScannedCalm(s: State, s': State, t: Tid, r: nat, high: bool, got: Option<Tid>)
    requires Calm(s, t, r) && Scanned(s, s', t, high, got) && !s'.pc[t].Waiting?
    ensures Calm(s', t, r)
  {
    hide SideInv, Total, NextOne, Distinct;
    var side := OneSide(s, high);
    WakeInv(side);
    ScannedQueued(s, s', t, r, high, got);
  }

  lemma ScannedQueued(s: State, s': State, t: Tid, r: nat, high: bool, got: Option<Tid>)
    requires Calm(s, t, r) && Scanned(s, s', t, high, got)
    ensures QueuedInv(s') && |s'.h| == |s.h| && |s'.l| == |s.l|
  {
    hide Total, Wake, NextOne, Skipped, AfterPop, QueuedInv;
    ScanIsWake(OneSide(s, high));
    if got.Some? {
      var rest := Skipped(List(s, high), Rows(s, high));
      assert s'.h == if high then s.h[rest[0] := s.h[rest[0]][1..]] else s.h;
      assert s'.l == if high then s.l else s.l[rest[0] := s.l[rest[0]][1..]];
      PoppedQueued(s, s', t, high, rest[0], got.value);
    } else {
      StillQueued(s, s', t);
    }
  }

  lemma StillQueued(s: State, s': State, t: Tid)
    requires QueuedInv(s) && t in s.pc && !s.pc[t].Waiting? && t in s'.pc && s'.pc == s.pc[t := s'.pc[t]]
    requires s'.h == s.h && s'.l == s.l
    ensures QueuedInv(s')
  {
    forall k, i | 0 <= k < |s.h| && 0 <= i < |s.h[k]| ensures At(s', s.h[k][i], High(k)) {
      assert At(s, s.h[k][i], High(k));
    }
    forall k, i | 0 <= k < |s.l| && 0 <= i < |s.l[k]| ensures At(s', s.l[k][i], Low(k)) {
      assert At(s, s.l[k][i], Low(k));
    }
  }

  lemma PoppedQueued(s: State, s': State, t: Tid, high: bool, row: nat, x: Tid)
    requires QueuedInv(s) && |s.h| == |s.l| && row < |s.h| && t in s.pc && !s.pc[t].Waiting? && t in s'.pc
    requires Rows(s, high)[row] != [] && x == Rows(s, high)[row][0] && x in s.pc && s.pc[x].Waiting?
    requires s'.h == (if high then s.h[row := s.h[row][1..]] else s.h)
    requires s'.l == (if high then s.l else s.l[row := s.l[row][1..]])
    requires s'.pc == s.pc[x := s.pc[x].(place := Held(t))][t := s'.pc[t]]
    ensures QueuedInv(s')
  {
    var was := if high then High(row) else Low(row);
    assert At(s, x, was);
    forall k, i | 0 <= k < |s'.h| && 0 <= i < |s'.h[k]| ensures At(s', s'.h[k][i], High(k)) {
      var j := if high && k == row then i + 1 else i;
      assert s'.h[k][i] == s.h[k][j] && At(s, s.h[k][j], High(k));
      assert s.h[k][j] != x;
    }
    forall k, i | 0 <= k < |s'.l| && 0 <= i < |s'.l[k]| ensures At(s', s'.l[k][i], Low(k)) {
      var j := if !high && k == row then i + 1 else i;
      assert s'.l[k][i] == s.l[k][j] && At(s, s.l[k][j], Low(k));
      assert s.l[k][j] != x;
    }
  }

  // ---- one wake-up, and the whole pass ----

  /** The ULTs in `woken`, and only they, have been woken; `t` has gone on. */
  ghost predicate Woke(s: State, s': State, t: Tid, woken: seq<Tid>)
  {
    && t in s.pc && s'.pc.Keys == s.pc.Keys
    && (forall x :: x in s.pc && x != t && x !in woken ==> s'.pc[x] == s.pc[x])
    && (forall x :: x in woken ==>
          x in s.pc && x != t && s.pc[x].Waiting? && s'.pc[x] == Returned(s.pc[x].low, false))
    && s'.numElems == s.numElems - |woken| && s'.val == s.val && s'.handover == s.handover && s'.giver == s.giver
    && s'.numHandovers == s.numHandovers && s'.maxHandovers == s.maxHandovers && s'.maxWakeups == s.maxWakeups
  }

  /** The end of a wake-up: `x`, which `t` has popped, is made ready behind the table lock. */
  lemma Wakes(s: State, t: Tid, r: nat, n: nat, reset: Option<nat>, high: bool, x: Tid) returns (s': State)
    requires Shaped(s, t, r) && s.pc[t] == Waking(n, reset, high, ExitTable(Some(x))) && s.table == Some(t)
    requires IsSuspended(s, x) && x != t
    ensures s' == s.(pc := s'.pc, table := None) && Solo(s, s', t, r)
    ensures s'.pc == s.pc[x := Returned(s.pc[x].low, false)]
                         [t := if n + 1 < s.maxWakeups then Waking(n + 1, reset, true, EnterTable)
                               else if reset.Some? then Resetting(reset.value) else Idle]
  {
    hide Solo, LockNext, QueueNext, WaitNext, ReturnNext, ReceiveNext, ReleaseNext, GiveNext;
    Stays(s, t, r);
    var s1 := s.(pc := s.pc[t := Waking(n, reset, high, SetReady(x))], table := None);
    Then(s, s, s1, t, r);
    s' := s1.(pc := s1.pc[x := Returned(s.pc[x].low, false)]
                         [t := if n + 1 < s.maxWakeups then Waking(n + 1, reset, true, EnterTable)
                               else if reset.Some? then Resetting(reset.value) else Idle]);
    Then(s, s1, s', t, r);
  }

  /** Both scans of one iteration. */
  lemma Searches(s: State, t: Tid, r: nat, n: nat, reset: Option<nat>) returns (s': State, high: bool, x: Tid)
    requires Calm(s, t, r) && s.table == Some(t) && s.pc[t] == Waking(n, reset, true, Start)
    requires Total(s.h) + Total(s.l) > 0
    ensures HighSide(s') == Wake(HighSide(s)) && LowSide(s') == LowAfter(HighSide(s), LowSide(s))
    ensures x == if Total(s.h) > 0 then NextOne(HighSide(s)) else NextOne(LowSide(s))
    ensures IsSuspended(s, x) && x != t && Calm(s', t, r) && Solo(s, s', t, r)
    ensures s'.pc == s.pc[x := s.pc[x].(place := Held(t))][t := Waking(n, reset, high, ExitTable(Some(x)))]
    ensures s' == s.(pc := s'.pc, numElems := s.numElems - 1, h := s'.h, l := s'.l, hList := s'.hList,
                     lList := s'.lList)
  {
    hide Solo, Total, Wake, NextOne, QueuedInv, SideInv, Step;
    var got;
    s', got := ScansAll(s, t, r, n, reset, true);
    ScannedCalm(s, s', t, r, true, got);
    high := true;
    if got == None {
      var m := s';
      s', got := ScansAll(m, t, r, n, reset, false);
      ScannedCalm(m, s', t, r, false, got);
      Both(s, m, s', t, r);
      high := false;
    }
    x := got.value;
  }

  /** One iteration of the pass wakes the next ULT. */
  lemma WakesOne(s: State, t: Tid, r: nat, n: nat, reset: Option<nat>) returns (s': State, x: Tid)
    requires Calm(s, t, r) && s.table == None && s.pc[t] == Waking(n, reset, true, EnterTable)
    requires Total(s.h) + Total(s.l) > 0
    ensures HighSide(s') == Wake(HighSide(s)) && LowSide(s') == LowAfter(HighSide(s), LowSide(s))
    ensures x == if Total(s.h) > 0 then NextOne(HighSide(s)) else NextOne(LowSide(s))
    ensures Woke(s, s', t, [x]) && s'.table == None && Calm(s', t, r) && Solo(s, s', t, r)
    ensures s'.pc[t] == if n + 1 < s.maxWakeups then Waking(n + 1, reset, true, EnterTable)
                        else if reset.Some? then Resetting(reset.value) else Idle
  {
    hide Solo, Total, Wake, NextOne, QueuedInv, SideInv, LowAfter, LockNext, QueueNext, WaitNext, ReturnNext,
         ReceiveNext, ReleaseNext, GiveNext;
    Stays(s, t, r);
    var s1 := s.(pc := s.pc[t := Waking(n, reset, true, ReadElems)], table := Some(t));
    Then(s, s, s1, t, r);
    var s2 := s.(pc := s.pc[t := Waking(n, reset, true, Start)], table := Some(t));
    Then(s, s1, s2, t, r);
    assert Calm(s2, t, r) by { GoneOn(s, s2, t, r, None); }
    var s3, high, y := Searches(s2, t, r, n, reset);
    x := y;
    Both(s, s2, s3, t, r);
    s' := Wakes(s3, t, r, n, reset, high, x);
    Both(s, s3, s', t, r);
    assert Calm(s', t, r) by { GoneOn(s3, s', t, r, Some(x)); }
  }

  /** Program counters of ULTs that are in no queue do not matter to the order of the table. */
  lemma GoneOn(s: State, s': State, t: Tid, r: nat, x: Option<Tid>)
    requires Calm(s, t, r) && t in s'.pc && !s'.pc[t].Waiting?
    requires s' == s.(pc := s'.pc, table := s'.table)
    requires x == None ==> s'.pc == s.pc[t := s'.pc[t]]
    requires x.Some? ==> x.value in s.pc && s.pc[x.value].Waiting? && s.pc[x.value].place == Held(t)
                         && s'.pc == s.pc[x.value := Returned(s.pc[x.value].low, false)][t := s'.pc[t]]
    ensures Calm(s', t, r)
  {
    hide SideInv, Total;
    forall k, i | 0 <= k < |s.h| && 0 <= i < |s.h[k]| ensures At(s', s.h[k][i], High(k)) {
      assert At(s, s.h[k][i], High(k));
    }
    forall k, i | 0 <= k < |s.l| && 0 <= i < |s.l[k]| ensures At(s', s.l[k][i], Low(k)) {
      assert At(s, s.l[k][i], Low(k));
    }
  }

  /** A pass that finds nobody is over. */
  lemma FindsNobody(s: State, t: Tid, r: nat, n: nat, reset: Option<nat>) returns (s': State)
    requires Calm(s, t, r) && s.table == None && s.pc[t] == Waking(n, reset, true, EnterTable)
    requires Total(s.h) + Total(s.l) == 0
    ensures s' == s.(pc := s.pc[t := if reset.Some? then Resetting(reset.value) else Idle])
    ensures Calm(s', t, r) && Solo(s, s', t, r)
  {
    hide Solo, Total, QueuedInv, SideInv, LockNext, QueueNext, WaitNext, ReturnNext, ReceiveNext, ReleaseNext,
         GiveNext;
    Stays(s, t, r);
    var s1 := s.(pc := s.pc[t := Waking(n, reset, true, ReadElems)], table := Some(t));
    Then(s, s, s1, t, r);
    var s2 := s.(pc := s.pc[t := Waking(n, reset, true, ExitTable(None))], table := Some(t));
    Then(s, s1, s2, t, r);
    s' := s.(pc := s.pc[t := if reset.Some? then Resetting(reset.value) else Idle]);
    Then(s, s2, s', t, r);
    assert Calm(s', t, r) by { GoneOn(s, s', t, r, None); }
  }

  lemma WokeMore(s: State, m: State, s': State, t: Tid, x: Tid, more: seq<Tid>)
    requires Woke(s, m, t, [x]) && Woke(m, s', t, more)
    ensures Woke(s, s', t, [x] + more)
  {
    assert x in [x];
  }

  /** The iterations of the pass from the n-th. */
  lemma {:induction false} PassGoesOn(s: State, t: Tid, r: nat, n: nat, reset: Option<nat>) returns (s': State)
    requires Calm(s, t, r) && s.table == None && s.pc[t] == Waking(n, reset, true, EnterTable) && n < s.maxWakeups
    ensures var p := WakePass(HighSide(s), LowSide(s), s.maxWakeups - n);
            HighSide(s') == p.h && LowSide(s') == p.l && Woke(s, s', t, p.woken)
    ensures Calm(s', t, r) && Shaped(s', t, r) && s'.table == None && Solo(s, s', t, r)
    ensures s'.pc[t] == if reset.Some? then Resetting(reset.value) else Idle
    decreases s.maxWakeups - n
  {
    hide Solo, Total, Wake, NextOne, QueuedInv, SideInv, LowAfter, WakePass, Step;
    var k := s.maxWakeups - n;
    if Total(s.h) + Total(s.l) == 0 {
      WaitRows.NothingLeft(HighSide(s), LowSide(s), k);
      s' := FindsNobody(s, t, r, n, reset);
    } else {
      var m, x := WakesOne(s, t, r, n, reset);
      PassStep(HighSide(s), LowSide(s), HighSide(m), LowSide(m), x, k);
      if n + 1 < s.maxWakeups {
        s' := PassGoesOn(m, t, r, n + 1, reset);
        Both(s, m, s', t, r);
        WokeMore(s, m, s', t, x, WakePass(HighSide(m), LowSide(m), k - 1).woken);
      } else {
        WaitRows.NothingLeft(HighSide(m), LowSide(m), 0);
        s' := m;
      }
    }
  }

  /** In every run: a wake pass that no other ULT disturbs, and that finds all waiters switched out, ends
      with the mutex's queues and lists as the pass on values leaves them.  It has woken the ULTs that
      that one wakes, so as many as there may be or as there were, high-priority ones first; and
      unlock_se that had no hand-over left has set the count of its row back to 0. */
  lemma WakePassAlone(tr: seq<State>, i: nat, t: Tid, r: nat, reset: Option<nat>) returns (s': State)
    requires Run(tr) && i < |tr| && t in tr[i].pc && tr[i].pc[t] == Waking(0, reset, true, EnterTable)
    requires tr[i].table == None && r < |tr[i].h|
    requires forall x :: x in tr[i].pc && tr[i].pc[x].Waiting? ==> tr[i].pc[x].stage == Suspended
    ensures SideInv(HighSide(tr[i])) && SideInv(LowSide(tr[i])) && Solo(tr[i], s', t, r)
    ensures var s := tr[i]; var p := WakePass(HighSide(s), LowSide(s), s.maxWakeups);
            && HighSide(s') == p.h && LowSide(s') == p.l && s'.table == None
            && Woke(s, s'.(numHandovers := s.numHandovers), t, p.woken) && s'.pc[t] == Idle
            && |p.woken| == (if s.numElems <= s.maxWakeups then s.numElems else s.maxWakeups)
            && (reset == None ==> s'.numHandovers == s.numHandovers)
            && (reset.Some? ==> reset.value < |s.numHandovers|
                                && s'.numHandovers == s.numHandovers[reset.value := 0])
  {
    hide Solo, Total, WakePass, Step, Run, Calm, SideInv;
    var s := tr[i];
    RunKeeps(tr, i);
    IsCalm(s, t, r);
    WakePassSpec(HighSide(s), LowSide(s), s.maxWakeups, Total(s.h), Total(s.l));
    var m := PassGoesOn(s, t, r, 0, reset);
    s' := m;
    if reset.Some? {
      s' := m.(pc := m.pc[t := Idle], numHandovers := m.numHandovers[reset.value := 0]);
      Resets(m, s', t, r, reset.value);
      Then(s, m, s', t, r);
      StillWoke(s, m, s', t, WakePass(HighSide(s), LowSide(s), s.maxWakeups).woken);
    }
  }

  lemma IsCalm(s: State, t: Tid, r: nat)
    requires Inv(s) && t in s.pc && s.pc[t].Waking? && s.table == None && r < |s.h|
    requires forall x :: x in s.pc && s.pc[x].Waiting? ==> s.pc[x].stage == Suspended
    ensures Calm(s, t, r) && s.maxWakeups >= 1 && Shaped(s, t, r) && SideInv(HighSide(s)) && SideInv(LowSide(s))
    ensures s.numElems == Total(s.h) + Total(s.l)
    ensures s.pc[t].reset.Some? ==> s.pc[t].reset.value < |s.numHandovers|
  {
    hide OwnerInv, HandoverInv, LimitInv, TableInv, NoLostWakeup, ListInv, Total;
    assert PcRow(s, s.pc[t]);
  }

  lemma Resets(m: State, s': State, t: Tid, r: nat, row: nat)
    requires Shaped(m, t, r) && m.pc[t] == Resetting(row) && row < |m.h|
    requires s' == m.(pc := m.pc[t := Idle], numHandovers := m.numHandovers[row := 0])
    ensures Step(m, s', t, r)
  {
  }

  lemma StillWoke(s: State, m: State, s': State, t: Tid, woken: seq<Tid>)
    requires Woke(s, m, t, woken) && t in m.pc
    requires s' == m.(pc := m.pc[t := Idle], numHandovers := s'.numHandovers)
    ensures Woke(s, s'.(numHandovers := s.numHandovers), t, woken)
  {
  }
}
