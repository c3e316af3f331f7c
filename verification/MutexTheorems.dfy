/** The promises of the mutex, over every run of every set of ULTs. */
module MutexTheorems {
  import opened Basics
  import opened WaitRows
  import opened MutexProtocol
  import opened MutexInvariant

  ghost predicate Inv(s: State)
  {
    exists o :: InvO(s, o)
  }

  lemma InitKeeps(s: State)
    requires Init(s)
    ensures Inv(s)
  {
    TotalZero(s.h);
    TotalZero(s.l);
    assert InvO(s, None);
  }

  lemma LockKeeps(s: State, s': State, t: Tid, o: Option<Tid>)
    requires InvO(s, o) && Ready(s, t) && s.pc[t].Locking? && s' == LockNext(s, t)
    ensures Inv(s')
  {
    if s.pc[t].lockAt.SwitchLow? && s.l[s.pc[t].lockAt.row] != [] {
      SwitchLowKeeps(s, s', t, 0, o);
    } else {
      HereFromInv(s, t, o);
      LockSimple(s, s', t, o);
      SimpleKeeps(s, s', t, o);
    }
  }

  lemma QueueKeeps(s: State, s': State, t: Tid, r: nat, o: Option<Tid>)
    requires InvO(s, o) && Ready(s, t) && r < |s.h| && s.pc[t].Queueing? && s' == QueueNext(s, t, r)
    ensures Inv(s')
  {
    if s.pc[t].tableAt.PushSelf? {
      PushKeeps(s, s', t, r, o);
    } else {
      HereFromInv(s, t, o);
      LinkedInv(s.hList, s.h, r);
      LinkedInv(s.lList, s.l, r);
      QueueSimple(s, s', t, r, o);
      SimpleKeeps(s, s', t, o);
    }
  }

  lemma CallKeeps(s: State, s': State, t: Tid, r: nat, o: Option<Tid>)
    requires InvO(s, o) && Step(s, s', t, r) && (s.pc[t].Idle? || s.pc[t].Holding? || s.pc[t].Resetting?)
    ensures Inv(s')
  {
    HereFromInv(s, t, o);
    if s.pc[t].Resetting? {
      ResetKeeps(s, s', t, r, o);
    } else {
      if s.pc[t].Idle? { IdleSimple(s, s', t, r, o); } else { HoldingSimple(s, s', t, r, o); }
      SimpleKeeps(s, s', t, o);
    }
  }

  lemma WaitKeeps(s: State, s': State, t: Tid, o: Option<Tid>)
    requires InvO(s, o) && Ready(s, t)
    requires (s.pc[t].Waiting? && s' == WaitNext(s, t)) || (s.pc[t].Returned? && s' == ReturnNext(s, t))
    ensures Inv(s')
  {
    HereFromInv(s, t, o);
    if s.pc[t].Returned? && s.handover == Some(t) {
      TakeKeeps(s, s', t, o);
    } else {
      if s.pc[t].Waiting? { WaitSimple(s, s', t, o); } else { ReturnSimple(s, s', t, o); }
      SimpleKeeps(s, s', t, o);
    }
  }

  lemma HandoverKeeps(s: State, s': State, t: Tid, o: Option<Tid>)
    requires InvO(s, o) && Ready(s, t)
    requires (s.pc[t].Giving? && s' == GiveNext(s, t)) || (s.pc[t].Receiving? && s' == ReceiveNext(s, t))
    ensures Inv(s')
  {
    if s.pc[t] == Receiving(PushGiver) { GiverKeeps(s, s', t, o); }
    else if s.pc[t].Receiving? { ReceiveKeeps(s, s', t, o); }
    else if s.pc[t].giveAt.Switch? { SwitchKeeps(s, s', t, o); }
    else { GiveKeeps(s, s', t, o); }
  }

  lemma ReleaseKeeps(s: State, s': State, t: Tid, o: Option<Tid>)
    requires InvO(s, o) && Ready(s, t) && s.pc[t].Releasing? && s' == ReleaseNext(s, t)
    ensures Inv(s')
  {
    hide InvO, Here, Simple;
    var at := s.pc[t].releaseAt;
    if WillPop(s, at) {
      PopKeeps(s, s', t, at.PopHigh?, at.row, o);
    } else {
      HereFromInv(s, t, o);
      if at.StoreZero? { StoreSimple(s, s', t, o); } else { ReleaseSimple(s, s', t, o); }
      SimpleKeeps(s, s', t, o);
    }
  }

  lemma WakeKeeps(s: State, s': State, t: Tid, o: Option<Tid>)
    requires InvO(s, o) && Ready(s, t) && s.pc[t].Waking? && s' == WakeNext(s, t)
    ensures Inv(s')
  {
    var high, at := s.pc[t].high, s.pc[t].wakeAt;
    if at.SetReady? {
      ReadyKeeps(s, s', t, o);
    } else if at.Pop? && Rows(s, high)[List(s, high)[0]] != [] {
      PopKeeps(s, s', t, high, List(s, high)[0], o);
    } else {
      HereFromInv(s, t, o);
      if at.Pop? { PopNoneSimple(s, s', t, o); }
      else if at.Start? { StartSimple(s, s', t, o); }
      else if at.Fix? { FixSimple(s, s', t, o); }
      else { WakeSimple(s, s', t, o); }
      SimpleKeeps(s, s', t, o);
    }
  }

  lemma StepKeeps(s: State, s': State, t: Tid, r: nat)
    requires Inv(s) && Step(s, s', t, r)
    ensures Inv(s')
  {
    var o :| InvO(s, o);
    match s.pc[t]
    case Locking(_, _) => LockKeeps(s, s', t, o);
    case Queueing(_, _) => QueueKeeps(s, s', t, r, o);
    case Waiting(_, _, _) => WaitKeeps(s, s', t, o);
    case Returned(_, _) => WaitKeeps(s, s', t, o);
    case Receiving(_) => HandoverKeeps(s, s', t, o);
    case Giving(_, _) => HandoverKeeps(s, s', t, o);
    case Releasing(_) => ReleaseKeeps(s, s', t, o);
    case Waking(_, _, _, _) => WakeKeeps(s, s', t, o);
    case _ => CallKeeps(s, s', t, r, o);
  }

  // ---- every run ----

  ghost predicate Run(tr: seq<State>)
  {
    && tr != [] && Init(tr[0])
    && forall i :: 0 <= i < |tr| - 1 ==> Next(tr[i], tr[i + 1])
  }

  lemma {:induction false} RunKeeps(tr: seq<State>, i: nat)
    requires Run(tr) && i < |tr|
    ensures Inv(tr[i])
  {
    if i == 0 {
      InitKeeps(tr[0]);
    } else {
      RunKeeps(tr, i - 1);
      assert Next(tr[i - 1], tr[i - 1 + 1]);
      var t, r :| Step(tr[i - 1], tr[i], t, r);
      StepKeeps(tr[i - 1], tr[i], t, r);
    }
  }

  /** At every moment of every run the mutex has at most one owner, and `val` is not 0 exactly when
      it has one; a row never hands over more than max_handovers times in a row. */
  lemma MutualExclusion(tr: seq<State>, i: nat)
    requires Run(tr) && i < |tr|
    ensures forall t, u :: Owner(tr[i], t) && Owner(tr[i], u) ==> t == u
    ensures tr[i].val != 0 <==> exists t :: Owner(tr[i], t)
    ensures tr[i].val <= 2
    ensures forall r :: 0 <= r < |tr[i].numHandovers| ==> tr[i].numHandovers[r] <= tr[i].maxHandovers
  {
    RunKeeps(tr, i);
    var o :| InvO(tr[i], o);
    if o.Some? { assert Owner(tr[i], o.value); }
  }

  /** From the hand-over switch to the receiver's push of the giver: the receiver owns the mutex,
      `val` is never 0, the giver stays switched out, and the push makes exactly the giver ready. */
  lemma HandoverIsSafe(tr: seq<State>, i: nat, t: Tid, u: Tid)
    requires Run(tr) && i < |tr| && Receives(tr[i], t) && u in tr[i].pc && tr[i].pc[u].Given?
    ensures tr[i].val != 0 && Owner(tr[i], t) && tr[i].giver == Some(u)
    ensures forall w :: w in tr[i].pc && tr[i].pc[w].Given? ==> w == u
    ensures forall s', r, w :: Step(tr[i], s', w, r) && w in s'.pc && u in s'.pc && s'.pc[u] != Given ==>
              w == t && tr[i].pc[t] == Receiving(PushGiver) && s'.pc[u] == Idle && s'.pc[t] == Holding
  {
    RunKeeps(tr, i);
    var s := tr[i];
    var o :| InvO(s, o);
    assert Owner(s, t);
    forall s', r, w | Step(s, s', w, r) && w in s'.pc && u in s'.pc && s'.pc[u] != Given
      ensures w == t && s.pc[t] == Receiving(PushGiver) && s'.pc[u] == Idle && s'.pc[t] == Holding
    {
      OnlyTheReceiverFreesTheGiver(s, s', w, r, o, u);
    }
  }

  lemma GivenStaysRelease(s: State, w: Tid, u: Tid)
    requires Ready(s, w) && u in s.pc && s.pc[u].Given? && s.pc[w].Releasing?
    ensures u in ReleaseNext(s, w).pc && ReleaseNext(s, w).pc[u].Given?
  {
  }

  lemma GivenStaysWake(s: State, w: Tid, u: Tid)
    requires Ready(s, w) && u in s.pc && s.pc[u].Given? && s.pc[w].Waking?
    ensures u in WakeNext(s, w).pc && WakeNext(s, w).pc[u].Given?
  {
  }

  lemma GivenStays(s: State, s': State, w: Tid, r: nat, u: Tid)
    requires Step(s, s', w, r) && u in s.pc && s.pc[u].Given? && s.pc[w] != Receiving(PushGiver)
    ensures w != u && u in s'.pc && s'.pc[u].Given?
  {
    if s.pc[w].Releasing? { GivenStaysRelease(s, w, u); }
    else if s.pc[w].Waking? { GivenStaysWake(s, w, u); }
  }

  lemma OnlyTheReceiverFreesTheGiver(s: State, s': State, w: Tid, r: nat, o: Option<Tid>, u: Tid)
    requires InvO(s, o) && Step(s, s', w, r) && u in s.pc && s.pc[u].Given? && u in s'.pc && s'.pc[u] != Given
    ensures o == Some(w) && s.pc[w] == Receiving(PushGiver) && s'.pc[u] == Idle && s'.pc[w] == Holding
  {
    if s.pc[w] != Receiving(PushGiver) { GivenStays(s, s', w, r, u); }
    assert Owner(s, w);
  }

  /** No lost wake-up: whenever a ULT is queued or about to be, `val` is 2 or some ULT is on its way
      to wake it, to hand over, or to exchange `val` with 2. */
  lemma NoWakeupIsLost(tr: seq<State>, i: nat, t: Tid)
    requires Run(tr) && i < |tr| && Stranded(tr[i], t)
    ensures tr[i].val == 2 || exists u :: Rescuer(tr[i], u)
  {
    RunKeeps(tr, i);
  }

  /** A mutex whose callers are all outside it or waiting has no waiter at all. */
  lemma NobodyIsStranded(tr: seq<State>, i: nat)
    requires Run(tr) && i < |tr|
    requires forall t :: t in tr[i].pc ==> tr[i].pc[t].Idle? || tr[i].pc[t].Waiting?
    ensures tr[i].val == 0
    ensures forall t :: t in tr[i].pc ==> tr[i].pc[t].Idle?
  {
    RunKeeps(tr, i);
    var s := tr[i];
    var o :| InvO(s, o);
    forall t | t in s.pc ensures s.pc[t].Idle? {
      if s.pc[t].Waiting? { WaiterIsCovered(s, o, t); }
    }
  }

  lemma WaiterIsCovered(s: State, o: Option<Tid>, t: Tid)
    requires InvO(s, o) && t in s.pc && s.pc[t].Waiting?
    ensures s.val == 2 || exists u :: u in s.pc && !s.pc[u].Idle? && !s.pc[u].Waiting?
  {
    assert Placed(s, t, s.pc[t].place);
    if !s.pc[t].place.Held? && s.val != 2 {
      assert Stranded(s, t);
      var u :| Rescuer(s, u);
    }
  }

  // ---- no deadlock ----

  predicate Stepping(s: State, t: Tid)
  {
    t in s.pc && Ready(s, t) && !s.pc[t].Idle? && !s.pc[t].Holding?
  }

  lemma PopperSteps(s: State, o: Option<Tid>, u: Tid) returns (w: Tid)
    requires InvO(s, o) && s.table == None && u in s.pc && Target(s.pc[u]).Some?
    ensures Stepping(s, w)
  {
    var x := Target(s.pc[u]).value;
    assert At(s, x, Held(u));
    assert PcRow(s, s.pc[u]);
    w := if Ready(s, u) then u else x;
  }

  lemma OwnerSteps(s: State, o: Option<Tid>, u: Tid) returns (w: Tid)
    requires InvO(s, o) && s.table == None && Owner(s, u) && !s.pc[u].Holding?
    ensures Stepping(s, w)
  {
    assert PcRow(s, s.pc[u]);
    if s.pc[u].Giving? { w := PopperSteps(s, o, u); } else { w := u; }
  }

  lemma RescuerSteps(s: State, o: Option<Tid>, u: Tid) returns (w: Tid)
    requires InvO(s, o) && s.table == None && Rescuer(s, u)
    ensures Stepping(s, w)
  {
    assert PcRow(s, s.pc[u]);
    if Owner(s, u) { w := OwnerSteps(s, o, u); }
    else if Target(s.pc[u]).Some? { w := PopperSteps(s, o, u); }
    else { w := u; }
  }

  /** While nobody holds the mutex, a ULT that is inside one of its operations never finds all ULTs
      stuck: some step other than a new call is enabled. */
  lemma NoDeadlock(tr: seq<State>, i: nat, t: Tid) returns (w: Tid)
    requires Run(tr) && i < |tr| && t in tr[i].pc && !tr[i].pc[t].Idle?
    requires forall u :: u in tr[i].pc ==> !tr[i].pc[u].Holding?
    ensures Stepping(tr[i], w)
  {
    RunKeeps(tr, i);
    var s := tr[i];
    var o :| InvO(s, o);
    w := SomebodySteps(s, o, t);
  }

  lemma SomebodySteps(s: State, o: Option<Tid>, t: Tid) returns (w: Tid)
    requires InvO(s, o) && t in s.pc && !s.pc[t].Idle?
    requires forall u :: u in s.pc ==> !s.pc[u].Holding?
    ensures Stepping(s, w)
  {
    assert PcRow(s, s.pc[t]);
    if s.table.Some? {
      w := s.table.value;
      assert PcRow(s, s.pc[w]);
    } else if Ready(s, t) {
      w := t;
    } else if Owner(s, t) {
      w := OwnerSteps(s, o, t);
    } else if Target(s.pc[t]).Some? {
      w := PopperSteps(s, o, t);
    } else if s.pc[t].Given? {
      w := OwnerSteps(s, o, o.value);
    } else if s.pc[t].Waiting? {
      assert Placed(s, t, s.pc[t].place);
      if s.pc[t].place.Held? {
        w := PopperSteps(s, o, s.pc[t].place.holder);
      } else {
        assert Stranded(s, t);
        if s.val == 2 { assert Owner(s, o.value); w := OwnerSteps(s, o, o.value); }
        else { var u :| Rescuer(s, u); w := RescuerSteps(s, o, u); }
      }
    } else {
      var row := s.pc[t].lockAt.row;
      w := s.l[row][0];
      assert At(s, w, Low(row));
    }
  }
}
