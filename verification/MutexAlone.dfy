/** What each operation of the mutex does from its call to its end when no other ULT steps in between. */
module MutexAlone {
  import opened Basics
  import opened WaitRows
  import opened MutexProtocol
  import opened MutexInvariant

  ghost predicate SoloSteps(tr: seq<State>, t: Tid, r: nat)
  {
    tr != [] && forall i :: 0 <= i < |tr| - 1 ==> Step(tr[i], tr[i + 1], t, r)
  }

  /** Steps of `t`, on the ES with rank `r`, and of nobody else lead from `s` to `s'`. */
  ghost predicate Solo(s: State, s': State, t: Tid, r: nat)
  {
    exists tr :: SoloSteps(tr, t, r) && tr[0] == s && tr[|tr| - 1] == s'
  }

  lemma Stays(s: State, t: Tid, r: nat)
    ensures Solo(s, s, t, r)
  {
    assert SoloSteps([s], t, r);
  }

  lemma Then(s: State, m: State, s': State, t: Tid, r: nat)
    requires Solo(s, m, t, r) && Step(m, s', t, r)
    ensures Solo(s, s', t, r)
  {
    hide Step;
    var tr :| SoloSteps(tr, t, r) && tr[0] == s && tr[|tr| - 1] == m;
    var more := tr + [s'];
    forall i | 0 <= i < |more| - 1 ensures Step(more[i], more[i + 1], t, r) {
      if i < |tr| - 1 { assert Step(tr[i], tr[i + 1], t, r); }
    }
    assert SoloSteps(more, t, r);
  }

  lemma Both(s: State, m: State, s': State, t: Tid, r: nat)
    requires Solo(s, m, t, r) && Solo(m, s', t, r)
    ensures Solo(s, s', t, r)
  {
    hide Step;
    var tr :| SoloSteps(tr, t, r) && tr[0] == s && tr[|tr| - 1] == m;
    var tr' :| SoloSteps(tr', t, r) && tr'[0] == m && tr'[|tr'| - 1] == s';
    var all := tr + tr'[1..];
    forall i | 0 <= i < |all| - 1 ensures Step(all[i], all[i + 1], t, r) {
      if i < |tr| - 1 { assert Step(tr[i], tr[i + 1], t, r); }
      else { assert Step(tr'[i - |tr| + 1], tr'[i - |tr| + 1 + 1], t, r); }
    }
    assert SoloSteps(all, t, r);
  }

  /** Outside Idle and Holding, where it chooses what to call, a ULT has one next step. */
  lemma OneWay(s: State, s1: State, s2: State, t: Tid, r: nat)
    requires Step(s, s1, t, r) && Step(s, s2, t, r) && !s.pc[t].Idle? && !s.pc[t].Holding?
    ensures s1 == s2
  {
  }

  predicate Shaped(s: State, t: Tid, r: nat)
  {
    t in s.pc && |s.h| == |s.l| == |s.numHandovers| && r < |s.h|
  }

  /** A new mutex, for any ULTs, rows and limits. */
  lemma Starts(ults: set<Tid>, rows: nat, maxHandovers: nat, maxWakeups: nat)
    requires maxWakeups >= 1
    ensures Init(State(map t | t in ults :: Idle, 0, None, None, None, 0, seq(rows, i => []), seq(rows, i => []),
                       [], [], seq(rows, i => 0), maxHandovers, maxWakeups))
  {
  }

  // ---- lock ----

  /** The calls: lock, lock_low; a trylock or spinlock that finds the mutex free takes it at once. */
  lemma Calls(s: State, t: Tid, r: nat)
    requires Shaped(s, t, r) && s.pc[t] == Idle
    ensures Solo(s, s.(pc := s.pc[t := Locking(false, CasFree)]), t, r)
    ensures Solo(s, s.(pc := s.pc[t := Locking(true, ReadLow(r))]), t, r)
    ensures s.val == 0 ==> Solo(s, s.(pc := s.pc[t := Holding], val := 1), t, r)
  {
    Stays(s, t, r);
    Then(s, s, s.(pc := s.pc[t := Locking(false, CasFree)]), t, r);
    Then(s, s, s.(pc := s.pc[t := Locking(true, ReadLow(r))]), t, r);
    if s.val == 0 { Then(s, s, s.(pc := s.pc[t := Holding], val := 1), t, r); }
  }

  /** A free mutex is taken. */
  lemma LockFree(s: State, t: Tid, r: nat, low: bool)
    requires Shaped(s, t, r) && s.pc[t] == Locking(low, CasFree) && s.val == 0
    ensures Solo(s, s.(pc := s.pc[t := Holding], val := 1), t, r)
  {
    Stays(s, t, r);
    Then(s, s, s.(pc := s.pc[t := Holding], val := 1), t, r);
  }

  /** The ULT `t` has queued itself in row `r` of its list and has been switched out. */
  function Waits(s: State, t: Tid, r: nat, low: bool): State
    requires Shaped(s, t, r)
  {
    if low then
      s.(pc := s.pc[t := Waiting(true, Suspended, Low(r))], val := 2, numElems := s.numElems + 1,
         l := s.l[r := s.l[r] + [t]], lList := if r in s.lList then s.lList else s.lList + [r])
    else
      s.(pc := s.pc[t := Waiting(false, Suspended, High(r))], val := 2, numElems := s.numElems + 1,
         h := s.h[r := s.h[r] + [t]], hList := if r in s.hList then s.hList else s.hList + [r])
  }

  /** The two halves of that: under the table lock, and behind it. */
  lemma Pushes(s: State, t: Tid, r: nat, low: bool)
    requires Shaped(s, t, r) && s.pc[t] == Locking(low, AcquireTable) && s.val == 2 && s.table == None
    ensures Solo(s, Waits(s, t, r, low).(pc := s.pc[t := Waiting(low, Counting, if low then Low(r) else High(r))],
                                         table := Some(t), numElems := s.numElems), t, r)
  {
    hide Solo, WaitNext, ReturnNext, ReceiveNext, ReleaseNext, GiveNext, WakeNext;
    Stays(s, t, r);
    var s1 := s.(pc := s.pc[t := Queueing(low, Recheck)], table := Some(t));
    Then(s, s, s1, t, r);
    var s2 := s1.(pc := s.pc[t := Queueing(low, LinkRow)]);
    Then(s, s1, s2, t, r);
    var s3 := Waits(s, t, r, low).(pc := s.pc[t := Queueing(low, PushSelf(r))], table := Some(t), h := s.h, l := s.l,
                                   numElems := s.numElems);
    Then(s, s2, s3, t, r);
    var s4 := Waits(s, t, r, low).(pc := s.pc[t := Waiting(low, Counting, if low then Low(r) else High(r))],
                                   table := Some(t), numElems := s.numElems);
    Then(s, s3, s4, t, r);
  }

  lemma Settles(s: State, t: Tid, r: nat, low: bool, at: Place)
    requires Shaped(s, t, r) && s.pc[t] == Waiting(low, Counting, at) && s.table == Some(t)
    ensures Solo(s, s.(pc := s.pc[t := Waiting(low, Suspended, at)], table := None, numElems := s.numElems + 1), t, r)
  {
    hide Solo, LockNext, QueueNext, ReturnNext, ReceiveNext, ReleaseNext, GiveNext, WakeNext;
    Stays(s, t, r);
    var s5 := s.(pc := s.pc[t := Waiting(low, Unlocking, at)], numElems := s.numElems + 1);
    Then(s, s, s5, t, r);
    var s6 := s5.(pc := s.pc[t := Waiting(low, Suspending, at)], table := None);
    Then(s, s5, s6, t, r);
    Then(s, s6, s6.(pc := s.pc[t := Waiting(low, Suspended, at)]), t, r);
  }

  lemma QueueUp(s: State, t: Tid, r: nat, low: bool)
    requires Shaped(s, t, r) && s.pc[t] == Locking(low, AcquireTable) && s.val == 2 && s.table == None
    ensures Solo(s, Waits(s, t, r, low), t, r)
  {
    hide Solo, Step;
    Pushes(s, t, r, low);
    var at := if low then Low(r) else High(r);
    var m := Waits(s, t, r, low).(pc := s.pc[t := Waiting(low, Counting, at)], table := Some(t),
                                  numElems := s.numElems);
    Settles(m, t, r, low, at);
    var s' := m.(pc := m.pc[t := Waiting(low, Suspended, at)], table := None, numElems := m.numElems + 1);
    assert s' == Waits(s, t, r, low);
    Both(s, m, s', t, r);
  }

  /** Queueing does not depend on where the caller was. */
  lemma QueueFrom(s: State, s1: State, t: Tid, r: nat, low: bool)
    requires Shaped(s, t, r) && s.table == None && Solo(s, s1, t, r)
    requires s1 == s.(pc := s.pc[t := Locking(low, AcquireTable)], val := 2)
    ensures Solo(s, Waits(s, t, r, low), t, r)
  {
    hide Solo, Step;
    QueueUp(s1, t, r, low);
    assert Waits(s1, t, r, low) == Waits(s, t, r, low);
    Both(s, s1, Waits(s, t, r, low), t, r);
  }

  /** A mutex that somebody has: the caller marks it as contended, and waits at the end of the row of its
      ES, which is linked at the end of the list of its priority unless it is linked already. */
  lemma LockHeld(s: State, t: Tid, r: nat, low: bool)
    requires Shaped(s, t, r) && s.pc[t] == Locking(low, CasFree) && 1 <= s.val <= 2 && s.table == None
    ensures Solo(s, Waits(s, t, r, low), t, r)
  {
    hide Solo, Waits, QueueNext, WaitNext, ReturnNext, ReceiveNext, ReleaseNext, GiveNext, WakeNext;
    Stays(s, t, r);
    var s1 := s.(pc := s.pc[t := Locking(low, AcquireTable)], val := 2);
    if s.val == 1 {
      var s0 := s.(pc := s.pc[t := Locking(low, FirstExchange)]);
      Then(s, s, s0, t, r);
      Then(s, s0, s1, t, r);
    } else {
      Then(s, s, s1, t, r);
    }
    QueueFrom(s, s1, t, r, low);
  }

  /** If the mutex has been freed in between, the caller that wanted to mark it takes it, and the one that
      was about to queue itself does not, but gives the table lock back and tries again. */
  lemma FreedInBetween(s: State, t: Tid, r: nat, low: bool)
    requires Shaped(s, t, r)
    ensures s.pc[t] == Locking(low, FirstExchange) && s.val == 0 ==>
              Solo(s, s.(pc := s.pc[t := Holding], val := 2), t, r)
    ensures s.pc[t] == Queueing(low, Recheck) && s.val != 2 ==>
              Solo(s, s.(pc := s.pc[t := Returned(low, false)], table := None), t, r)
  {
    hide Solo, WaitNext, ReturnNext, ReceiveNext, ReleaseNext, GiveNext, WakeNext;
    Stays(s, t, r);
    if s.pc[t] == Locking(low, FirstExchange) && s.val == 0 {
      Then(s, s, s.(pc := s.pc[t := Holding], val := 2), t, r);
    } else if s.pc[t] == Queueing(low, Recheck) && s.val != 2 {
      var s1 := s.(pc := s.pc[t := Queueing(low, Leave)]);
      Then(s, s, s1, t, r);
      Then(s, s1, s.(pc := s.pc[t := Returned(low, false)], table := None), t, r);
    }
  }

  /** lock_low on a row with low-priority waiters lets the first of them go on and waits in its stead, at
      the end; on a row without any it goes the way of lock. */
  lemma LockLow(s: State, t: Tid, r: nat)
    requires Shaped(s, t, r) && s.pc[t] == Locking(true, ReadLow(r))
    ensures s.l[r] == [] ==> Solo(s, s.(pc := s.pc[t := Locking(true, CasFree)]), t, r)
    ensures s.l[r] != [] && IsSuspended(s, s.l[r][0]) ==>
              var x := s.l[r][0];
              Solo(s, s.(pc := s.pc[x := Returned(s.pc[x].low, false)][t := Waiting(true, Suspended, Low(r))],
                         l := s.l[r := s.l[r][1..] + [t]]), t, r)
  {
    Stays(s, t, r);
    if s.l[r] == [] {
      Then(s, s, s.(pc := s.pc[t := Locking(true, CasFree)]), t, r);
    } else if IsSuspended(s, s.l[r][0]) {
      var x := s.l[r][0];
      var s1 := s.(pc := s.pc[t := Locking(true, SwitchLow(r))]);
      Then(s, s, s1, t, r);
      var s2 := s.(pc := s.pc[x := Returned(s.pc[x].low, false)][t := Waiting(true, Suspended, Low(r))],
                   l := s.l[r := s.l[r][1..] + [t]]);
      assert s2.pc == s1.pc[x := Returned(s.pc[x].low, false)][t := Waiting(true, Suspended, Low(r))];
      Then(s, s1, s2, t, r);
    }
  }

  /** Woken up without a hand-over: the ULT takes the mutex if it is free, and waits again if it is not;
      `val` is 2 in either case, so that its unlock will wake others. */
  lemma TryAgain(s: State, t: Tid, r: nat, low: bool)
    requires Shaped(s, t, r) && s.pc[t] == Returned(low, false) && s.handover != Some(t) && s.val <= 2
    ensures s.val == 0 ==> Solo(s, s.(pc := s.pc[t := Holding], val := 2), t, r)
    ensures s.val != 0 && s.table == None ==> Solo(s, Waits(s, t, r, low), t, r)
  {
    hide Solo, Waits, LockNext, QueueNext, WaitNext, ReceiveNext, ReleaseNext, GiveNext, WakeNext;
    Stays(s, t, r);
    var s1 := s.(pc := s.pc[t := Returned(low, true)]);
    Then(s, s, s1, t, r);
    if s.val == 0 {
      Then(s, s1, s.(pc := s.pc[t := Holding], val := 2), t, r);
    } else if s.table == None {
      var s2 := s.(pc := s.pc[t := Locking(low, AcquireTable)], val := 2);
      Then(s, s1, s2, t, r);
      QueueFrom(s, s2, t, r, low);
    }
  }

  /** The receiver of a hand-over has the mutex, and its giver is back in its pool. */
  lemma Receive(s: State, t: Tid, r: nat, low: bool, u: Tid)
    requires Shaped(s, t, r) && s.pc[t] == Returned(low, false) && s.handover == Some(t) && s.giver == Some(u)
    requires u in s.pc && u != t
    ensures Solo(s, s.(pc := s.pc[u := Idle][t := Holding], val := 2, handover := None), t, r)
  {
    Stays(s, t, r);
    var s1 := s.(pc := s.pc[t := Receiving(TakeOver)]);
    Then(s, s, s1, t, r);
    var s2 := s.(pc := s.pc[t := Receiving(SetVal)], handover := None);
    Then(s, s1, s2, t, r);
    var s3 := s.(pc := s.pc[t := Receiving(PushGiver)], handover := None, val := 2);
    Then(s, s2, s3, t, r);
    var s4 := s.(pc := s.pc[u := Idle][t := Holding], val := 2, handover := None);
    assert s4.pc == s3.pc[u := Idle][t := Holding];
    Then(s, s3, s4, t, r);
  }

  // ---- unlock and unlock_se ----

  /** Nobody waits: the mutex is free, and that is all. */
  lemma UnlockQuiet(s: State, t: Tid, r: nat)
    requires Shaped(s, t, r) && s.pc[t] == Holding && s.val == 1
    ensures Solo(s, s.(pc := s.pc[t := Idle], val := 0), t, r)
    ensures forall s' :: Step(s, s', t, r) ==> s' == s.(pc := s.pc[t := Idle], val := 0)
  {
    Stays(s, t, r);
    Then(s, s, s.(pc := s.pc[t := Idle], val := 0), t, r);
  }

  /** Somebody waits: unlock frees the mutex and begins a wake pass; unlock_se looks at its row first. */
  lemma UnlockContended(s: State, t: Tid, r: nat)
    requires Shaped(s, t, r) && s.pc[t] == Holding && s.val == 2
    ensures Solo(s, s.(pc := s.pc[t := Waking(0, None, true, EnterTable)], val := 0), t, r)
    ensures Solo(s, s.(pc := s.pc[t := Releasing(Check(r))], val := 1), t, r)
  {
    Stays(s, t, r);
    var s1 := s.(pc := s.pc[t := Releasing(StoreZero(None))], val := 1);
    Then(s, s, s1, t, r);
    Then(s, s1, s.(pc := s.pc[t := Waking(0, None, true, EnterTable)], val := 0), t, r);
    Then(s, s, s.(pc := s.pc[t := Releasing(Check(r))], val := 1), t, r);
  }

  /** `t` has handed the mutex to `x`, which it has popped, and is switched out. */
  function HandedOver(s: State, t: Tid, row: nat, x: Tid): State
    requires row < |s.numHandovers| && x in s.pc && s.pc[x].Waiting?
  {
    s.(pc := s.pc[x := Returned(s.pc[x].low, false)][t := Given], handover := Some(x), giver := Some(t),
       numElems := s.numElems - 1, numHandovers := s.numHandovers[row := s.numHandovers[row] + 1])
  }

  /** From the pop of `x`, whose place is the popper, to the switch. */
  lemma Give(s: State, t: Tid, r: nat, row: nat, x: Tid)
    requires Shaped(s, t, r) && s.pc[t] == Giving(x, CountHandover(row)) && IsSuspended(s, x) && x != t && row < |s.h|
    ensures Solo(s, s.(pc := s.pc[x := Returned(s.pc[x].low, false)][t := Given], handover := Some(x),
                       giver := Some(t), numHandovers := s.numHandovers[row := s.numHandovers[row] + 1]), t, r)
  {
    hide Solo, LockNext, QueueNext, WaitNext, ReturnNext, ReceiveNext, ReleaseNext, WakeNext;
    Stays(s, t, r);
    var s1 := s.(pc := s.pc[t := Giving(x, SetHandover)],
                 numHandovers := s.numHandovers[row := s.numHandovers[row] + 1]);
    Then(s, s, s1, t, r);
    var s2 := s1.(pc := s.pc[t := Giving(x, SetGiver)], handover := Some(x));
    Then(s, s1, s2, t, r);
    var s3 := s2.(pc := s.pc[t := Giving(x, Switch)], giver := Some(t));
    Then(s, s2, s3, t, r);
    var s4 := s3.(pc := s.pc[x := Returned(s.pc[x].low, false)][t := Given]);
    assert s4.pc == s3.pc[x := Returned(s.pc[x].low, false)][t := Given];
    Then(s, s3, s4, t, r);
  }

  /** With a hand-over left for its row and two high-priority waiters in it, unlock_se hands the mutex to
      the first of them: `val` stays as it is and is not 0. */
  lemma HandsToHigh(s: State, t: Tid, r: nat, row: nat)
    requires Shaped(s, t, r) && s.pc[t] == Releasing(Check(row)) && row < |s.h|
    requires s.numHandovers[row] < s.maxHandovers && |s.h[row]| >= 2
    requires IsSuspended(s, s.h[row][0]) && s.h[row][0] != t
    ensures Solo(s, HandedOver(s, t, row, s.h[row][0]).(h := s.h[row := s.h[row][1..]]), t, r)
  {
    hide Solo, LockNext, QueueNext, WaitNext, ReturnNext, ReceiveNext, GiveNext, WakeNext;
    var x := s.h[row][0];
    Stays(s, t, r);
    var s1 := s.(pc := s.pc[t := Releasing(ReadHigh(row))]);
    Then(s, s, s1, t, r);
    var s2 := s.(pc := s.pc[t := Releasing(PopHigh(row))]);
    Then(s, s1, s2, t, r);
    var s3 := s.(pc := s.pc[x := s.pc[x].(place := Held(t))][t := Giving(x, CountHandover(row))],
                 numElems := s.numElems - 1, h := s.h[row := s.h[row][1..]]);
    assert s3.pc == s2.pc[x := s.pc[x].(place := Held(t))][t := Giving(x, CountHandover(row))];
    Then(s, s2, s3, t, r);
    GiveAll(s, s3, t, r, row, x);
  }

  lemma GiveAll(s: State, m: State, t: Tid, r: nat, row: nat, x: Tid)
    requires Shaped(s, t, r) && IsSuspended(s, x) && x != t && row < |s.h| && |m.h| == |s.h| && |m.l| == |s.l|
    requires Solo(s, m, t, r)
    requires m == s.(pc := s.pc[x := s.pc[x].(place := Held(t))][t := Giving(x, CountHandover(row))],
                     numElems := s.numElems - 1, h := m.h, l := m.l)
    ensures Solo(s, HandedOver(s, t, row, x).(h := m.h, l := m.l), t, r)
  {
    Give(m, t, r, row, x);
    var s' := HandedOver(s, t, row, x).(h := m.h, l := m.l);
    assert s'.pc == m.pc[x := Returned(s.pc[x].low, false)][t := Given];
    Both(s, m, s', t, r);
  }

  lemma LooksAtList(s: State, t: Tid, r: nat, row: nat)
    requires Shaped(s, t, r) && s.pc[t] == Releasing(Check(row)) && row < |s.h|
    requires s.numHandovers[row] < s.maxHandovers && |s.h[row]| <= 1
    ensures Solo(s, s.(pc := s.pc[t := Releasing(ReadList(row))]), t, r)
  {
    hide Solo, LockNext, QueueNext, WaitNext, ReturnNext, ReceiveNext, GiveNext, WakeNext;
    Stays(s, t, r);
    var s1 := s.(pc := s.pc[t := Releasing(ReadHigh(row))]);
    Then(s, s, s1, t, r);
    Then(s, s1, s.(pc := s.pc[t := Releasing(ReadList(row))]), t, r);
  }

  lemma LooksAtLow(s: State, t: Tid, r: nat, row: nat)
    requires Shaped(s, t, r) && s.pc[t] == Releasing(Check(row)) && row < |s.h|
    requires s.numHandovers[row] < s.maxHandovers && |s.h[row]| <= 1 && s.hList == []
    ensures Solo(s, s.(pc := s.pc[t := Releasing(ReadLowCount(row))]), t, r)
  {
    hide Solo, LockNext, QueueNext, WaitNext, ReturnNext, ReceiveNext, GiveNext, WakeNext;
    LooksAtList(s, t, r, row);
    Then(s, s.(pc := s.pc[t := Releasing(ReadList(row))]), s.(pc := s.pc[t := Releasing(ReadLowCount(row))]), t, r);
  }

  /** With a hand-over left, at most one high-priority waiter in its row, no row linked for high-priority
      waiters and two low-priority ones in its row, it hands the mutex to the first low-priority one. */
  lemma HandsToLow(s: State, t: Tid, r: nat, row: nat)
    requires Shaped(s, t, r) && s.pc[t] == Releasing(Check(row)) && row < |s.h|
    requires s.numHandovers[row] < s.maxHandovers && |s.h[row]| <= 1 && s.hList == [] && |s.l[row]| >= 2
    requires IsSuspended(s, s.l[row][0]) && s.l[row][0] != t
    ensures Solo(s, HandedOver(s, t, row, s.l[row][0]).(l := s.l[row := s.l[row][1..]]), t, r)
  {
    hide Solo, LockNext, QueueNext, WaitNext, ReturnNext, ReceiveNext, GiveNext, WakeNext;
    var x := s.l[row][0];
    LooksAtLow(s, t, r, row);
    var s3 := s.(pc := s.pc[t := Releasing(ReadLowCount(row))]);
    var s4 := s.(pc := s.pc[t := Releasing(PopLow(row))]);
    Then(s, s3, s4, t, r);
    var s5 := s.(pc := s.pc[x := s.pc[x].(place := Held(t))][t := Giving(x, CountHandover(row))],
                 numElems := s.numElems - 1, l := s.l[row := s.l[row][1..]]);
    assert s5.pc == s4.pc[x := s.pc[x].(place := Held(t))][t := Giving(x, CountHandover(row))];
    Then(s, s4, s5, t, r);
    GiveAll(s, s5, t, r, row, x);
  }

  /** If a wake pass has emptied the row in between, unlock_se looks at it anew; so does lock_low that finds
      nobody to switch to. */
  lemma EmptiedInBetween(s: State, t: Tid, r: nat, row: nat, low: bool)
    requires Shaped(s, t, r) && row < |s.h|
    ensures s.pc[t] == Releasing(PopHigh(row)) && s.h[row] == [] ==>
              Solo(s, s.(pc := s.pc[t := Releasing(Check(row))]), t, r)
    ensures s.pc[t] == Releasing(PopLow(row)) && s.l[row] == [] ==>
              Solo(s, s.(pc := s.pc[t := Releasing(Check(row))]), t, r)
    ensures s.pc[t] == Locking(low, SwitchLow(row)) && s.l[row] == [] ==>
              Solo(s, s.(pc := s.pc[t := Locking(low, CasFree)]), t, r)
  {
    hide Solo, QueueNext, WaitNext, ReturnNext, ReceiveNext, GiveNext, WakeNext;
    Stays(s, t, r);
    if s.pc[t].Locking? && s.pc[t] == Locking(low, SwitchLow(row)) && s.l[row] == [] {
      Then(s, s, s.(pc := s.pc[t := Locking(low, CasFree)]), t, r);
    } else if (s.pc[t] == Releasing(PopHigh(row)) && s.h[row] == [])
              || (s.pc[t] == Releasing(PopLow(row)) && s.l[row] == []) {
      Then(s, s, s.(pc := s.pc[t := Releasing(Check(row))]), t, r);
    }
  }

  /** In every other case it frees the mutex and begins a wake pass; the hand-overs of the row are to be
      counted anew exactly when there was none left. */
  lemma NoHandover(s: State, t: Tid, r: nat, row: nat)
    requires Shaped(s, t, r) && s.pc[t] == Releasing(Check(row)) && row < |s.h|
    requires s.numHandovers[row] >= s.maxHandovers
             || (|s.h[row]| <= 1 && (s.hList != [] || |s.l[row]| <= 1))
    ensures var reset := if s.numHandovers[row] >= s.maxHandovers then Some(row) else None;
            Solo(s, s.(pc := s.pc[t := Waking(0, reset, true, EnterTable)], val := 0), t, r)
  {
    hide Solo, LockNext, QueueNext, WaitNext, ReturnNext, ReceiveNext, GiveNext, WakeNext;
    Stays(s, t, r);
    var reset := if s.numHandovers[row] >= s.maxHandovers then Some(row) else None;
    var s0 := s.(pc := s.pc[t := Releasing(StoreZero(reset))]);
    if s.numHandovers[row] >= s.maxHandovers {
      Then(s, s, s0, t, r);
    } else {
      LooksAtList(s, t, r, row);
      if s.hList != [] {
        Then(s, s.(pc := s.pc[t := Releasing(ReadList(row))]), s0, t, r);
      } else {
        LooksAtLow(s, t, r, row);
        Then(s, s.(pc := s.pc[t := Releasing(ReadLowCount(row))]), s0, t, r);
      }
    }
    Then(s, s0, s.(pc := s.pc[t := Waking(0, reset, true, EnterTable)], val := 0), t, r);
  }
}
