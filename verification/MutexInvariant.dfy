/** What every step of the mutex keeps. */
module MutexInvariant {
  import opened Basics
  import opened WaitRows
  import opened MutexProtocol

  // ---- the shape of the table ----

  predicate RowOk(s: State, row: Option<nat>)
  {
    row.Some? ==> row.value < |s.h|
  }

  predicate PcRow(s: State, p: Pc)
  {
    match p
    case Locking(_, at) => (at.ReadLow? || at.SwitchLow?) ==> at.row < |s.h|
    case Queueing(_, at) => at.PushSelf? ==> at.row < |s.h|
    case Releasing(at) => if at.StoreZero? then RowOk(s, at.reset) else at.row < |s.h|
    case Giving(_, at) => at.CountHandover? ==> at.row < |s.h|
    case Waking(_, reset, _, _) => RowOk(s, reset)
    case Resetting(row) => row < |s.h|
    case _ => true
  }

  ghost predicate Shape(s: State)
  {
    && |s.h| == |s.l| == |s.numHandovers|
    && s.val <= 2
    && s.maxWakeups >= 1
    && (forall t :: t in s.pc ==> PcRow(s, s.pc[t]))
  }

  // ---- the table lock ----

  predicate HoldsTable(p: Pc)
  {
    || p.Queueing?
    || (p.Waiting? && (p.stage == Counting || p.stage == Unlocking))
    || (p.Waking? && !p.wakeAt.EnterTable? && !p.wakeAt.SetReady?)
  }

  ghost predicate LockInv(s: State)
  {
    && (s.table.Some? ==> s.table.value in s.pc && HoldsTable(s.pc[s.table.value]))
    && (forall t :: t in s.pc && HoldsTable(s.pc[t]) ==> s.table == Some(t))
  }

  // ---- where waiting ULTs are ----

  /** The ULT that a giver or a waker has popped and not yet resumed. */
  function Target(p: Pc): Option<Tid>
  {
    if p.Giving? then Some(p.target)
    else if !p.Waking? then None
    else match p.wakeAt
      case Fix(_, got) => got
      case ExitTable(got) => got
      case SetReady(x) => Some(x)
      case _ => None
  }

  predicate At(s: State, t: Tid, place: Place)
  {
    t in s.pc && s.pc[t].Waiting? && s.pc[t].place == place
  }

  predicate Placed(s: State, t: Tid, place: Place)
  {
    match place
    case High(r) => r < |s.h| && t in s.h[r]
    case Low(r) => r < |s.l| && t in s.l[r]
    case Held(u) => u in s.pc && Target(s.pc[u]) == Some(t)
  }

  /** Each queued ULT waits in its row, and is there once. */
  ghost predicate QueuedInv(s: State)
  {
    && (forall r :: 0 <= r < |s.h| ==> Distinct(s.h[r]))
    && (forall r :: 0 <= r < |s.l| ==> Distinct(s.l[r]))
    && (forall r, i :: 0 <= r < |s.h| && 0 <= i < |s.h[r]| ==> At(s, s.h[r][i], High(r)))
    && (forall r, i :: 0 <= r < |s.l| && 0 <= i < |s.l[r]| ==> At(s, s.l[r][i], Low(r)))
  }

  /** A popped ULT is held by the one that popped it. */
  ghost predicate HeldInv(s: State)
  {
    forall t :: t in s.pc && Target(s.pc[t]).Some? ==> At(s, Target(s.pc[t]).value, Held(t))
  }

  ghost predicate WaitingInv(s: State)
  {
    forall t :: t in s.pc && s.pc[t].Waiting? ==> Placed(s, t, s.pc[t].place)
  }

  /** Each waiting ULT is queued once in one row, or held by the one ULT that popped it. */
  ghost predicate PlaceInv(s: State)
  {
    QueuedInv(s) && HeldInv(s) && WaitingInv(s)
  }

  function Uncounted(s: State): nat
  {
    if s.table.None? || s.table.value !in s.pc then 0
    else
      var p := s.pc[s.table.value];
      if p.Waiting? && p.stage == Counting then 1 else 0
  }

  ghost predicate CountInv(s: State)
  {
    s.numElems == Total(s.h) + Total(s.l) - Uncounted(s)
  }

  // ---- ownership and hand-over ----

  /** A holder, an unlocker that has not stored 0 yet, or the receiver of a hand-over. */
  predicate Owner(s: State, t: Tid)
  {
    && t in s.pc
    && var p := s.pc[t];
       p.Holding? || p.Receiving? || p.Releasing? || p.Giving? || (p.Returned? && s.handover == Some(t))
  }

  /** `val` is 0 exactly when nobody owns the mutex, and `o` is its only owner otherwise. */
  ghost predicate OwnerInv(s: State, o: Option<Tid>)
  {
    && (o == None <==> s.val == 0)
    && (forall t: Tid :: Owner(s, t) <==> o == Some(t))
  }

  /** `p_handover` names a ULT that has not taken over yet. */
  predicate InFlight(s: State, t: Tid)
  {
    && t in s.pc && s.handover.Some?
    && var p := s.pc[t];
       || (((p.Returned? && !p.checked) || p == Receiving(TakeOver)) && s.handover.value == t)
       || (p.Giving? && (p.giveAt.SetGiver? || p.giveAt.Switch?) && s.handover.value == p.target)
  }

  /** Between the switch from the giver and the push of the giver to its pool. */
  predicate Receives(s: State, t: Tid)
  {
    t in s.pc && (s.pc[t].Receiving? || (s.pc[t].Returned? && s.handover == Some(t)))
  }

  predicate GiverGiven(s: State)
  {
    s.giver.Some? && s.giver.value in s.pc && s.pc[s.giver.value].Given?
  }

  ghost predicate HandoverInv(s: State, o: Option<Tid>)
  {
    && (s.handover.Some? ==> o.Some? && InFlight(s, o.value))
    && (o.Some? && o.value in s.pc ==>
          var p := s.pc[o.value];
          && (p == Receiving(TakeOver) || (p.Giving? && (p.giveAt.SetGiver? || p.giveAt.Switch?)) ==>
                InFlight(s, o.value))
          && (p.Giving? && p.giveAt.Switch? ==> s.giver == o)
          && (Receives(s, o.value) ==> GiverGiven(s)))
    && (forall u :: u in s.pc && s.pc[u].Given? ==> s.giver == Some(u) && o.Some? && Receives(s, o.value))
  }

  /** The row whose hand-over count the owner has found below the limit. */
  function Checked(p: Pc): Option<nat>
  {
    if p.Releasing? && !p.releaseAt.StoreZero? && !p.releaseAt.Check? then Some(p.releaseAt.row)
    else if p.Giving? && p.giveAt.CountHandover? then Some(p.giveAt.row)
    else None
  }

  ghost predicate LimitInv(s: State, o: Option<Tid>)
  {
    && (forall r :: 0 <= r < |s.numHandovers| ==> s.numHandovers[r] <= s.maxHandovers)
    && (o.Some? && o.value in s.pc && Checked(s.pc[o.value]).Some? ==>
          var r := Checked(s.pc[o.value]).value;
          r < |s.numHandovers| && s.numHandovers[r] < s.maxHandovers)
  }

  // ---- the wake pass ----

  /** What the holder of the table lock knows. */
  ghost predicate UnderTable(s: State, p: Pc)
  {
    && (p.Queueing? && p.tableAt.PushSelf? ==> p.tableAt.row in List(s, !p.low))
    && (p.Waking? ==>
          var list, rows := List(s, p.high), Rows(s, p.high);
          && (!p.high && (p.wakeAt.Start? || p.wakeAt.Pop? || (p.wakeAt.Fix? && p.wakeAt.got == None)) ==>
                s.hList == [])
          && match p.wakeAt
             case Pop(start) => list != [] && (list[0] == start || start !in list)
             case Fix(start, got) =>
               && list != []
               && (got == None ==>
                     (list[0] < |rows| ==> rows[list[0]] == []) && (list[0] == start || start !in list))
             case ExitTable(got) => got == None ==> Total(s.h) + Total(s.l) == 0
             case _ => true)
  }

  ghost predicate TableInv(s: State)
  {
    s.table.Some? && s.table.value in s.pc ==> UnderTable(s, s.pc[s.table.value])
  }

  // ---- no lost wake-up ----

  /** Queued, or past the re-check of `val` and about to be. */
  predicate Stranded(s: State, t: Tid)
  {
    && t in s.pc
    && var p := s.pc[t];
       (p.Queueing? && (p.tableAt.LinkRow? || p.tableAt.PushSelf?)) || (p.Waiting? && !p.place.Held?)
  }

  /** An unlocker between its fetch_sub and the end of its wake pass, a hand-over in flight, or a
      ULT back from its wait that has yet to exchange `val` with 2. */
  predicate Rescuer(s: State, t: Tid)
  {
    && t in s.pc
    && var p := s.pc[t];
       p.Releasing? || p.Giving? || (p.Receiving? && !p.receiveAt.PushGiver?) || p.Waking? || p.Returned?
       || (p.Queueing? && p.tableAt.Leave?)
  }

  ghost predicate Covered(s: State)
  {
    s.val == 2 || exists u :: Rescuer(s, u)
  }

  ghost predicate NoLostWakeup(s: State)
  {
    forall t :: Stranded(s, t) ==> Covered(s)
  }

  ghost predicate InvO(s: State, o: Option<Tid>)
  {
    && Shape(s) && ListInv(s.hList, s.h) && ListInv(s.lList, s.l)
    && LockInv(s) && PlaceInv(s) && CountInv(s)
    && OwnerInv(s, o) && HandoverInv(s, o) && LimitInv(s, o)
    && TableInv(s) && NoLostWakeup(s)
  }

  // ---- steps that change the program counter of one ULT only, and no queue ----

  ghost predicate Alone(s: State, s': State, t: Tid)
  {
    && t in s.pc && t in s'.pc && s'.pc == s.pc[t := s'.pc[t]]
    && s'.h == s.h && s'.l == s.l && |s'.numHandovers| == |s.numHandovers|
    && s'.maxHandovers == s.maxHandovers && s'.maxWakeups == s.maxWakeups
    && Target(s'.pc[t]) == Target(s.pc[t])
    && (s'.pc[t].Waiting? <==> s.pc[t].Waiting?)
    && (s.pc[t].Waiting? ==> s'.pc[t].place == s.pc[t].place)
  }

  lemma AloneShape(s: State, s': State, t: Tid)
    requires Alone(s, s', t) && Shape(s) && s'.val <= 2 && PcRow(s, s'.pc[t])
    ensures Shape(s')
  {
    forall u | u in s'.pc ensures PcRow(s', s'.pc[u]) { assert PcRow(s, s.pc[u]); }
  }

  lemma AloneLock(s: State, s': State, t: Tid)
    requires Alone(s, s', t) && LockInv(s)
    requires HoldsTable(s'.pc[t]) <==> s'.table == Some(t)
    requires s'.table == s.table || s.table == None || s.table == Some(t)
    requires s'.table == s.table || s'.table == None || s'.table == Some(t)
    ensures LockInv(s')
  {
  }

  lemma AlonePlaces(s: State, s': State, t: Tid)
    requires Alone(s, s', t) && PlaceInv(s)
    ensures PlaceInv(s')
  {
  }

  lemma AloneOwner(s: State, s': State, t: Tid, o: Option<Tid>) returns (o': Option<Tid>)
    requires Alone(s, s', t) && OwnerInv(s, o)
    requires s'.handover == s.handover || s'.handover == None || (s.handover == None && Owner(s, t))
    requires Owner(s', t) && !Owner(s, t) ==> s.val == 0
    requires s'.val == 0 <==> !Owner(s', t) && (s.val == 0 || Owner(s, t))
    requires forall u :: u in s.pc && u != t && s.pc[u].Returned? ==>
              (s'.handover == Some(u) <==> s.handover == Some(u))
    ensures OwnerInv(s', o')
    ensures o' == if Owner(s', t) then Some(t) else if Owner(s, t) then None else o
  {
    o' := if Owner(s', t) then Some(t) else if Owner(s, t) then None else o;
    forall u: Tid ensures Owner(s', u) <==> o' == Some(u) {
      assert Owner(s, u) <==> o == Some(u);
      assert Owner(s, t) <==> o == Some(t);
    }
  }

  /** `t` holds the table lock and found every queue empty. */
  predicate Drained(s: State, t: Tid)
  {
    t in s.pc && s.pc[t].Waking? && s.table == Some(t) && Total(s.h) + Total(s.l) == 0
  }

  lemma DrainedStrandsNobody(s: State, t: Tid, u: Tid)
    requires LockInv(s) && PlaceInv(s) && Drained(s, t)
    ensures !Stranded(s, u)
  {
    TotalZero(s.h);
    TotalZero(s.l);
  }

  lemma AloneWakeup(s: State, s': State, t: Tid)
    requires Alone(s, s', t) && LockInv(s) && PlaceInv(s) && NoLostWakeup(s)
    requires Stranded(s', t) ==> Stranded(s, t) || s'.val == 2
    requires s.val == 2 ==> s'.val == 2 || Rescuer(s', t)
    requires Rescuer(s, t) ==> s'.val == 2 || Rescuer(s', t) || Drained(s, t)
    ensures NoLostWakeup(s')
  {
    forall u | Stranded(s', u) ensures Covered(s') {
      if s'.val != 2 {
        assert Stranded(s, u);
        if Drained(s, t) { DrainedStrandsNobody(s, t, u); }
        if s.val != 2 {
          var w :| Rescuer(s, w);
          assert Rescuer(s', w);
        }
      }
    }
  }

  /** Neither side of the step is in the middle of a hand-over. */
  predicate Plain(s: State, t: Tid)
  {
    && t in s.pc && !s.pc[t].Given? && !s.pc[t].Giving? && !s.pc[t].Receiving?
    && !(s.pc[t].Returned? && s.handover == Some(t))
  }

  lemma AloneHandover(s: State, s': State, t: Tid, o: Option<Tid>, o': Option<Tid>)
    requires Alone(s, s', t) && OwnerInv(s, o) && HandoverInv(s, o)
    requires Plain(s, t) && Plain(s', t) && s'.handover == s.handover && s'.giver == s.giver
    requires o' == if Owner(s', t) then Some(t) else if Owner(s, t) then None else o
    requires Owner(s', t) && !Owner(s, t) ==> o == None
    ensures HandoverInv(s', o')
  {
    assert Owner(s, t) <==> o == Some(t);
  }

  /** What a simple step does, seen from `t` alone. */
  ghost predicate Simple(s: State, s': State, t: Tid)
  {
    && Alone(s, s', t)
    && Plain(s, t) && Plain(s', t) && s'.handover == s.handover && s'.giver == s.giver
    && s'.val <= 2 && PcRow(s, s'.pc[t])
    && (HoldsTable(s'.pc[t]) <==> s'.table == Some(t))
    && (s'.table == s.table || (s.table == None && s'.table == Some(t)) || (s.table == Some(t) && s'.table == None))
    && (Owner(s', t) && !Owner(s, t) ==> s.val == 0)
    && (s'.val == 0 <==> !Owner(s', t) && (s.val == 0 || Owner(s, t)))
    && (Stranded(s', t) ==> Stranded(s, t) || s'.val == 2)
    && (s.val == 2 ==> s'.val == 2 || Rescuer(s', t))
    && (Rescuer(s, t) ==> s'.val == 2 || Rescuer(s', t) || Drained(s, t))
    && (s'.table == Some(t) ==> UnderTable(s', s'.pc[t]))
    && s'.numElems + Uncounted(s') == s.numElems + Uncounted(s)
    && (s'.table == s.table && s.table != Some(t) ==> s'.hList == s.hList && s'.lList == s.lList)
  }

  function NextOwner(s: State, s': State, t: Tid, o: Option<Tid>): Option<Tid>
  {
    if Owner(s', t) then Some(t) else if Owner(s, t) then None else o
  }

  predicate LimitAt(s: State, p: Pc)
  {
    Checked(p).Some? ==> Checked(p).value < |s.numHandovers| && s.numHandovers[Checked(p).value] < s.maxHandovers
  }

  /** What the invariant says about `t` itself. */
  ghost predicate Here(s: State, t: Tid, o: Option<Tid>)
  {
    && t in s.pc && |s.h| == |s.l| == |s.numHandovers| && s.val <= 2 && PcRow(s, s.pc[t])
    && (HoldsTable(s.pc[t]) <==> s.table == Some(t))
    && (Owner(s, t) <==> o == Some(t)) && (o == None <==> s.val == 0)
    && (s.table == Some(t) ==> UnderTable(s, s.pc[t]))
    && LimitAt(s, s.pc[t])
    && (s.pc[t].Releasing? || s.pc[t].Holding? ==> s.handover == None)
    && (s.pc[t].Queueing? ==> s.handover != Some(t))
  }

  /** A simple step that leaves the lists and the hand-over counts alone. */
  ghost predicate SimplySame(s: State, s': State, t: Tid)
  {
    && Simple(s, s', t) && s'.hList == s.hList && s'.lList == s.lList
    && s'.numHandovers == s.numHandovers && LimitAt(s', s'.pc[t])
  }

  lemma HereFromInv(s: State, t: Tid, o: Option<Tid>)
    requires InvO(s, o) && t in s.pc
    ensures Here(s, t, o)
  {
    assert Checked(s.pc[t]).Some? ==> Owner(s, t);
  }

  lemma SimpleKeeps(s: State, s': State, t: Tid, o: Option<Tid>)
    requires InvO(s, o) && Simple(s, s', t)
    requires (s'.hList == s.hList && s'.lList == s.lList) || (ListInv(s'.hList, s'.h) && ListInv(s'.lList, s'.l))
    requires (s'.numHandovers == s.numHandovers && LimitAt(s', s'.pc[t])) || LimitInv(s', NextOwner(s, s', t, o))
    ensures InvO(s', NextOwner(s, s', t, o))
  {
    hide PlaceInv, ListInv, LockInv, HandoverInv, Shape, NoLostWakeup;
    AloneShape(s, s', t);
    AloneLock(s, s', t);
    AlonePlaces(s, s', t);
    var o' := AloneOwner(s, s', t, o);
    AloneHandover(s, s', t, o, o');
    AloneWakeup(s, s', t);
  }

  lemma IdleSimple(s: State, s': State, t: Tid, r: nat, o: Option<Tid>)
    requires Here(s, t, o) && r < |s.h| && Step(s, s', t, r) && s.pc[t].Idle?
    ensures SimplySame(s, s', t)
  {
  }

  lemma HoldingSimple(s: State, s': State, t: Tid, r: nat, o: Option<Tid>)
    requires Here(s, t, o) && r < |s.h| && Step(s, s', t, r) && s.pc[t].Holding?
    ensures SimplySame(s, s', t)
  {
  }

  lemma LowSimple(s: State, s': State, t: Tid, o: Option<Tid>)
    requires Here(s, t, o) && s.pc[t].Locking? && Ready(s, t) && s' == LockNext(s, t)
    requires s.pc[t].lockAt.ReadLow? || (s.pc[t].lockAt.SwitchLow? && s.l[s.pc[t].lockAt.row] == [])
    ensures SimplySame(s, s', t)
  {
    hide UnderTable, Total;
  }

  lemma TrySimple(s: State, s': State, t: Tid, o: Option<Tid>)
    requires Here(s, t, o) && s.pc[t].Locking? && Ready(s, t) && s' == LockNext(s, t)
    requires !s.pc[t].lockAt.ReadLow? && !s.pc[t].lockAt.SwitchLow?
    ensures SimplySame(s, s', t)
  {
    hide Total;
  }

  lemma LockSimple(s: State, s': State, t: Tid, o: Option<Tid>)
    requires Here(s, t, o) && s.pc[t].Locking? && Ready(s, t) && s' == LockNext(s, t)
    requires s.pc[t].lockAt.SwitchLow? ==> s.l[s.pc[t].lockAt.row] == []
    ensures SimplySame(s, s', t)
  {
    hide Here, SimplySame, LockNext;
    if s.pc[t].lockAt.ReadLow? || s.pc[t].lockAt.SwitchLow? {
      LowSimple(s, s', t, o);
    } else {
      TrySimple(s, s', t, o);
    }
  }

  lemma QueueSimple(s: State, s': State, t: Tid, r: nat, o: Option<Tid>)
    requires Here(s, t, o) && r < |s.h| && s.pc[t].Queueing? && Ready(s, t) && s' == QueueNext(s, t, r)
    requires !s.pc[t].tableAt.PushSelf?
    ensures Simple(s, s', t) && s'.numHandovers == s.numHandovers && LimitAt(s', s'.pc[t])
  {
  }

  lemma WaitSimple(s: State, s': State, t: Tid, o: Option<Tid>)
    requires Here(s, t, o) && s.pc[t].Waiting? && Ready(s, t) && s' == WaitNext(s, t)
    ensures SimplySame(s, s', t)
  {
  }

  lemma ReturnSimple(s: State, s': State, t: Tid, o: Option<Tid>)
    requires Here(s, t, o) && s.pc[t].Returned? && s.handover != Some(t) && Ready(s, t) && s' == ReturnNext(s, t)
    ensures SimplySame(s, s', t)
  {
  }

  /** unlock_se is about to pop a ULT that is there. */
  predicate WillPop(s: State, at: ReleaseAt)
  {
    || (at.PopHigh? && at.row < |s.h| && s.h[at.row] != [])
    || (at.PopLow? && at.row < |s.l| && s.l[at.row] != [])
  }

  /** The steps of unlock_se that neither pop nor store 0 only read, and stay with their row. */
  lemma ReleaseReads(s: State, s': State, t: Tid)
    requires t in s.pc && s.pc[t].Releasing? && Ready(s, t) && s' == ReleaseNext(s, t)
    requires !s.pc[t].releaseAt.StoreZero? && !WillPop(s, s.pc[t].releaseAt)
    ensures var at := s.pc[t].releaseAt;
            && s'.pc[t].Releasing? && s' == Go(s, t, s'.pc[t])
            && (s'.pc[t].releaseAt.StoreZero? ==> s'.pc[t].releaseAt.reset in {None, Some(at.row)})
            && (!s'.pc[t].releaseAt.StoreZero? ==> s'.pc[t].releaseAt.row == at.row)
            && (at.Check? && !s'.pc[t].releaseAt.StoreZero? ==> s.numHandovers[at.row] < s.maxHandovers)
  {
    hide Popped;
  }

  lemma ReleaseSimple(s: State, s': State, t: Tid, o: Option<Tid>)
    requires Here(s, t, o) && s.pc[t].Releasing? && Ready(s, t) && s' == ReleaseNext(s, t)
    requires !s.pc[t].releaseAt.StoreZero? && !WillPop(s, s.pc[t].releaseAt)
    ensures SimplySame(s, s', t)
  {
    hide ReleaseNext, Ready, WillPop;
    ReleaseReads(s, s', t);
  }

  lemma StoreSimple(s: State, s': State, t: Tid, o: Option<Tid>)
    requires Here(s, t, o) && s.pc[t].Releasing? && s.pc[t].releaseAt.StoreZero?
    requires Ready(s, t) && s' == ReleaseNext(s, t)
    ensures SimplySame(s, s', t)
  {
  }

  lemma WakeSimple(s: State, s': State, t: Tid, o: Option<Tid>)
    requires Here(s, t, o) && ListInv(s.hList, s.h) && ListInv(s.lList, s.l) && CountInv(s)
    requires s.pc[t].Waking? && Ready(s, t) && s' == WakeNext(s, t)
    requires s.pc[t].wakeAt.EnterTable? || s.pc[t].wakeAt.ReadElems? || s.pc[t].wakeAt.ExitTable?
    ensures SimplySame(s, s', t)
  {
  }

  lemma NothingLeft(s: State)
    requires ListInv(s.hList, s.h) && ListInv(s.lList, s.l) && s.hList == [] && s.lList == []
    ensures Total(s.h) + Total(s.l) == 0
  {
    TotalZero(s.h);
    TotalZero(s.l);
  }

  lemma StartSimple(s: State, s': State, t: Tid, o: Option<Tid>)
    requires Here(s, t, o) && ListInv(s.hList, s.h) && ListInv(s.lList, s.l)
    requires s.pc[t].Waking? && Ready(s, t) && s' == WakeNext(s, t) && s.pc[t].wakeAt.Start?
    ensures SimplySame(s, s', t)
  {
    if s.hList == [] && s.lList == [] { NothingLeft(s); }
  }

  lemma PopNoneSimple(s: State, s': State, t: Tid, o: Option<Tid>)
    requires Here(s, t, o) && s.pc[t].Waking? && Ready(s, t) && s' == WakeNext(s, t) && s.pc[t].wakeAt.Pop?
    requires Rows(s, s.pc[t].high)[List(s, s.pc[t].high)[0]] == []
    ensures SimplySame(s, s', t)
  {
  }

  lemma FixFound(s: State, s': State, t: Tid, o: Option<Tid>)
    requires Here(s, t, o) && s.pc[t].Waking? && s.pc[t].wakeAt.Fix? && s.pc[t].wakeAt.got.Some?
    requires Ready(s, t) && s' == WakeNext(s, t)
    ensures Simple(s, s', t) && s'.numHandovers == s.numHandovers && LimitAt(s', s'.pc[t])
  {
    hide Total;
  }

  lemma FixFruitless(s: State, s': State, t: Tid, o: Option<Tid>)
    requires Here(s, t, o) && s.pc[t].Waking? && s.pc[t].wakeAt.Fix? && s.pc[t].wakeAt.got == None
    requires Ready(s, t) && s' == WakeNext(s, t)
    requires s'.hList == [] && s'.lList == [] ==> Total(s'.h) + Total(s'.l) == 0
    requires Distinct(List(s, s.pc[t].high))
    ensures Simple(s, s', t) && s'.numHandovers == s.numHandovers && LimitAt(s', s'.pc[t])
  {
    hide Total;
  }

  lemma FixLists(s: State, s': State, t: Tid)
    requires t in s.pc && s.pc[t].Waking? && s.pc[t].wakeAt.Fix? && Ready(s, t) && s' == WakeNext(s, t)
    requires ListInv(s.hList, s.h) && ListInv(s.lList, s.l)
    ensures s'.h == s.h && s'.l == s.l && ListInv(s'.hList, s'.h) && ListInv(s'.lList, s'.l)
    ensures Distinct(List(s, s.pc[t].high))
  {
    hide Total;
    AfterPopInv(List(s, s.pc[t].high), Rows(s, s.pc[t].high));
  }

  lemma FixSimple(s: State, s': State, t: Tid, o: Option<Tid>)
    requires Here(s, t, o) && ListInv(s.hList, s.h) && ListInv(s.lList, s.l)
    requires s.pc[t].Waking? && s.pc[t].wakeAt.Fix? && Ready(s, t) && s' == WakeNext(s, t)
    ensures Simple(s, s', t) && s'.numHandovers == s.numHandovers && LimitAt(s', s'.pc[t])
    ensures ListInv(s'.hList, s'.h) && ListInv(s'.lList, s'.l)
  {
    hide ListInv, Total, WakeNext, Simple, LimitAt;
    FixLists(s, s', t);
    if s'.hList == [] && s'.lList == [] { NothingLeft(s'); }
    if s.pc[t].wakeAt.got.Some? { FixFound(s, s', t, o); } else { FixFruitless(s, s', t, o); }
  }

  lemma ResetKeeps(s: State, s': State, t: Tid, r: nat, o: Option<Tid>)
    requires InvO(s, o) && t in s.pc && r < |s.h| && s.pc[t].Resetting? && Step(s, s', t, r)
    ensures InvO(s', NextOwner(s, s', t, o))
  {
    hide Shape, OwnerInv, PlaceInv, CountInv, HandoverInv, NoLostWakeup, ListInv, TableInv, LockInv;
    HereFromInv(s, t, o);
    SimpleKeeps(s, s', t, o);
  }

  // ---- the steps of a hand-over ----

  lemma HandFrame(s: State, s': State, t: Tid, o: Option<Tid>)
    requires InvO(s, o) && Alone(s, s', t) && Owner(s, t) && Owner(s', t)
    requires s'.val <= 2 && s'.val > 0 && PcRow(s, s'.pc[t]) && !HoldsTable(s.pc[t]) && !HoldsTable(s'.pc[t])
    requires s'.table == s.table && s'.hList == s.hList && s'.lList == s.lList && s'.numElems == s.numElems
    requires || s'.handover == s.handover || s'.handover == None
             || (s.handover == None && s'.handover.value in s.pc && s.pc[s'.handover.value].Waiting?)
    requires !Stranded(s', t) && (s.val == 2 || Rescuer(s, t) ==> s'.val == 2 || Rescuer(s', t))
    ensures Shape(s') && LockInv(s') && PlaceInv(s') && OwnerInv(s', o) && CountInv(s') && TableInv(s')
    ensures NoLostWakeup(s')
  {
    AloneShape(s, s', t);
    AloneLock(s, s', t);
    AlonePlaces(s, s', t);
    assert o == Some(t);
    assert OwnerInv(s', o) by { var o' := AloneOwner(s, s', t, o); }
    AloneWakeup(s, s', t);
  }

  lemma GiveHandover(s: State, s': State, t: Tid, o: Option<Tid>)
    requires t in s.pc && s.pc[t].Giving? && !s.pc[t].giveAt.Switch? && LimitAt(s, s.pc[t])
    requires o == Some(t) && HandoverInv(s, o) && LimitInv(s, o) && Ready(s, t) && s' == GiveNext(s, t)
    ensures HandoverInv(s', o) && LimitInv(s', o)
    ensures s'.handover == s.handover || (s.handover == None && s'.handover == Some(s.pc[t].target))
  {
  }

  lemma GiveKeeps(s: State, s': State, t: Tid, o: Option<Tid>)
    requires InvO(s, o) && t in s.pc && s.pc[t].Giving? && !s.pc[t].giveAt.Switch?
    requires Ready(s, t) && s' == GiveNext(s, t)
    ensures InvO(s', o)
  {
    hide LockInv, CountInv, HandoverInv, LimitInv, TableInv, NoLostWakeup, ListInv, Distinct, Total, Placed;
    assert Owner(s, t);
    HereFromInv(s, t, o);
    assert At(s, s.pc[t].target, Held(t));
    GiveHandover(s, s', t, o);
    HandFrame(s, s', t, o);
  }

  lemma TakeKeeps(s: State, s': State, t: Tid, o: Option<Tid>)
    requires InvO(s, o) && Ready(s, t) && s.pc[t].Returned? && s.handover == Some(t) && s' == ReturnNext(s, t)
    ensures InvO(s', o)
  {
    hide PlaceInv, CountInv, ListInv, LockInv, TableInv, NoLostWakeup;
    assert Owner(s, t);
    HandFrame(s, s', t, o);
  }

  lemma ReceiveKeeps(s: State, s': State, t: Tid, o: Option<Tid>)
    requires InvO(s, o) && Ready(s, t) && s.pc[t].Receiving? && !s.pc[t].receiveAt.PushGiver? && s' == ReceiveNext(s, t)
    ensures InvO(s', o)
  {
    hide PlaceInv, ListInv, LockInv, NoLostWakeup, TableInv, CountInv;
    assert Owner(s, t);
    HandFrame(s, s', t, o);
  }

  lemma GiverFrame(s: State, s': State, t: Tid)
    requires Ready(s, t) && s.pc[t] == Receiving(PushGiver) && GiverGiven(s) && s' == ReceiveNext(s, t)
    requires Shape(s) && LockInv(s) && PlaceInv(s) && NoLostWakeup(s)
    ensures Shape(s') && LockInv(s') && PlaceInv(s') && NoLostWakeup(s')
  {
    var g := s.giver.value;
    var m := Go(s, g, Idle);
    AloneShape(s, m, g);
    AloneShape(m, s', t);
    AloneLock(s, m, g);
    AloneLock(m, s', t);
    AlonePlaces(s, m, g);
    AlonePlaces(m, s', t);
    AloneWakeup(s, m, g);
    AloneWakeup(m, s', t);
  }

  lemma GiverKeeps(s: State, s': State, t: Tid, o: Option<Tid>)
    requires InvO(s, o) && t in s.pc && s.pc[t] == Receiving(PushGiver) && Ready(s, t) && s' == ReceiveNext(s, t)
    ensures InvO(s', o)
    ensures GiverGiven(s) && s'.pc[s.giver.value] == Idle
  {
    hide Shape, LockInv, PlaceInv, NoLostWakeup, ListInv, Distinct, Total;
    assert Owner(s, t);
    GiverFrame(s, s', t);
  }

  // ---- steps that move two ULTs ----

  /** As far as ownership goes, `u` is where it was, and not in a hand-over on either side of the step. */
  predicate SameRole(s: State, s': State, u: Tid)
    requires u in s.pc && u in s'.pc
  {
    var p, p' := s.pc[u], s'.pc[u];
    && (HoldsTable(p') <==> HoldsTable(p))
    && (Owner(s', u) <==> Owner(s, u))
    && !p.Receiving? && !p'.Receiving? && !p.Given? && !p'.Given?
    && (Owner(s, u) ==>
          && !p.Returned? && !p'.Returned? && !InFlight(s, u) && Checked(p') == Checked(p)
          && (p'.Giving? ==> p'.giveAt.CountHandover?))
  }

  /** Only `t` and `x` move; nobody gains or loses the mutex; the lists and the lock stay. */
  ghost predicate QueueChange(s: State, s': State, t: Tid, x: Tid)
  {
    && t in s.pc && x in s.pc && t in s'.pc && x in s'.pc && s'.pc == s.pc[x := s'.pc[x]][t := s'.pc[t]]
    && |s'.h| == |s.h| && |s'.l| == |s.l|
    && s' == s.(pc := s'.pc, h := s'.h, l := s'.l, numElems := s'.numElems)
    && PcRow(s, s'.pc[t]) && PcRow(s, s'.pc[x]) && SameRole(s, s', t) && SameRole(s, s', x)
  }

  lemma QueueChangeFrame(s: State, s': State, t: Tid, x: Tid)
    requires QueueChange(s, s', t, x) && Shape(s) && LockInv(s)
    ensures Shape(s') && LockInv(s')
  {
    forall u | u in s'.pc ensures PcRow(s', s'.pc[u]) { assert PcRow(s, s.pc[u]); }
  }

  lemma QueueChangeOwner(s: State, s': State, t: Tid, x: Tid, o: Option<Tid>)
    requires QueueChange(s, s', t, x) && OwnerInv(s, o)
    ensures OwnerInv(s', o)
  {
    forall u: Tid ensures Owner(s', u) <==> o == Some(u) { assert Owner(s, u) <==> o == Some(u); }
  }

  lemma QueueChangeHandover(s: State, s': State, t: Tid, x: Tid, o: Option<Tid>)
    requires QueueChange(s, s', t, x) && OwnerInv(s, o) && HandoverInv(s, o) && LimitInv(s, o)
    ensures HandoverInv(s', o) && LimitInv(s', o)
  {
    assert Owner(s, t) <==> o == Some(t);
    assert Owner(s, x) <==> o == Some(x);
  }

  lemma QueueChangeKeeps(s: State, s': State, t: Tid, x: Tid, o: Option<Tid>)
    requires QueueChange(s, s', t, x) && Shape(s) && LockInv(s) && OwnerInv(s, o) && HandoverInv(s, o) && LimitInv(s, o)
    ensures Shape(s') && LockInv(s') && OwnerInv(s', o) && HandoverInv(s', o) && LimitInv(s', o)
  {
    hide QueueChange, Shape, LockInv, OwnerInv, HandoverInv, LimitInv;
    QueueChangeFrame(s, s', t, x);
    QueueChangeOwner(s, s', t, x, o);
    QueueChangeHandover(s, s', t, x, o);
  }

  lemma QueueChangeWakeup(s: State, s': State, t: Tid, x: Tid)
    requires QueueChange(s, s', t, x) && NoLostWakeup(s)
    requires forall u :: u == t || u == x ==> (Rescuer(s, u) ==> Rescuer(s', u)) && (Stranded(s', u) ==> Stranded(s, u))
    ensures NoLostWakeup(s')
  {
    forall u | Stranded(s', u) ensures Covered(s') {
      assert Stranded(s, u);
      if s.val != 2 {
        var w :| Rescuer(s, w);
        assert Rescuer(s', w);
      }
    }
  }

  /** `t` lets go of `x`, which it had popped; `x` goes on behind its wait. */
  ghost predicate Resumes(s: State, s': State, t: Tid, x: Tid)
  {
    && t in s.pc && t in s'.pc && x != t && IsSuspended(s, x) && Target(s.pc[t]) == Some(x)
    && s'.pc == s.pc[x := Returned(s.pc[x].low, false)][t := s'.pc[t]]
    && !s.pc[t].Waiting? && !s'.pc[t].Waiting? && Target(s'.pc[t]) == None
    && !HoldsTable(s.pc[t]) && !HoldsTable(s'.pc[t]) && PcRow(s, s'.pc[t])
    && s' == s.(pc := s'.pc)
  }

  lemma ResumePlaces(s: State, s': State, t: Tid, x: Tid)
    requires Resumes(s, s', t, x) && PlaceInv(s)
    ensures PlaceInv(s')
  {
    assert At(s, x, Held(t));
  }

  lemma ResumeFrame(s: State, s': State, t: Tid, x: Tid, o: Option<Tid>)
    requires Resumes(s, s', t, x) && Shape(s) && LockInv(s) && CountInv(s) && TableInv(s)
    ensures Shape(s') && LockInv(s') && CountInv(s') && TableInv(s') && NoLostWakeup(s')
  {
    assert Rescuer(s', x);
    forall u | u in s'.pc ensures PcRow(s', s'.pc[u]) { assert PcRow(s, s.pc[u]); }
  }

  lemma ReadyChange(s: State, s': State, t: Tid, o: Option<Tid>)
    requires Here(s, t, o) && s.pc[t].Waking? && s.pc[t].wakeAt.SetReady?
    requires Ready(s, t) && s' == WakeNext(s, t) && s.handover != Some(s.pc[t].wakeAt.target)
    ensures QueueChange(s, s', t, s.pc[t].wakeAt.target) && Resumes(s, s', t, s.pc[t].wakeAt.target)
  {
  }

  lemma ReadyKeeps(s: State, s': State, t: Tid, o: Option<Tid>)
    requires InvO(s, o) && t in s.pc && s.pc[t].Waking? && s.pc[t].wakeAt.SetReady?
    requires Ready(s, t) && s' == WakeNext(s, t)
    ensures InvO(s', o)
  {
    hide Shape, LockInv, LimitInv, CountInv, TableInv, NoLostWakeup, ListInv, Placed, WakeNext, QueueChange;
    var x := s.pc[t].wakeAt.target;
    assert At(s, x, Held(t));
    HereFromInv(s, t, o);
    assert s.handover != Some(x);
    ReadyChange(s, s', t, o);
    ResumePlaces(s, s', t, x);
    ResumeFrame(s, s', t, x, o);
    QueueChangeKeeps(s, s', t, x, o);
  }

  lemma SwitchKeeps(s: State, s': State, t: Tid, o: Option<Tid>)
    requires InvO(s, o) && t in s.pc && s.pc[t].Giving? && s.pc[t].giveAt.Switch?
    requires Ready(s, t) && s' == GiveNext(s, t)
    ensures InvO(s', Some(s.pc[t].target))
    ensures s'.val != 0
  {
    hide ListInv, NoLostWakeup, Shape, TableInv, LockInv, CountInv, Placed, Distinct;
    var x := s.pc[t].target;
    assert Owner(s, t);
    assert At(s, x, Held(t));
    HereFromInv(s, t, o);
    ResumePlaces(s, s', t, x);
    ResumeFrame(s, s', t, x, o);
    forall u: Tid ensures Owner(s', u) <==> u == x {
      assert Owner(s, u) <==> u == t;
    }
  }

  // ---- steps that change a queue ----

  lemma SwitchLowStays(s: State, s': State, t: Tid, row: nat, u: Tid)
    requires t in s.pc && s.pc[t].Locking? && s.pc[t].lockAt == SwitchLow(row) && Ready(s, t)
    requires s' == LockNext(s, t) && s.l[row] != []
    requires At(s, s.l[row][0], Low(row)) && u in s.pc && u != t && s'.pc[u].Waiting? && Placed(s, u, s.pc[u].place)
    ensures Placed(s', u, s'.pc[u].place)
  {
    var q, q' := s.l[row], s'.l[row];
    assert q' == q[1..] + [t];
    if s.pc[u].place == Low(row) {
      var i :| 0 <= i < |q| && q[i] == u;
      assert i > 0 ==> q'[i - 1] == u;
    }
  }

  lemma SwitchLowQueued(s: State, s': State, t: Tid)
    requires QueuedInv(s) && t in s.pc && s.pc[t].Locking? && s.pc[t].lockAt.SwitchLow?
    requires Ready(s, t) && s' == LockNext(s, t) && s.l[s.pc[t].lockAt.row] != []
    ensures QueuedInv(s')
  {
    var row := s.pc[t].lockAt.row;
    assert At(s, s.l[row][0], Low(row));
    assert t !in s.l[row];
    assert s'.l[row] == s.l[row][1..] + [t];
  }

  lemma SwitchLowPlaces(s: State, s': State, t: Tid, r: nat)
    requires PlaceInv(s) && t in s.pc && s.pc[t].Locking? && s.pc[t].lockAt.SwitchLow?
    requires Ready(s, t) && s' == LockNext(s, t)
    requires s.pc[t].lockAt.row < |s.l| && s.l[s.pc[t].lockAt.row] != []
    ensures PlaceInv(s')
  {
    hide Placed, Distinct;
    SwitchLowQueued(s, s', t);
    var row := s.pc[t].lockAt.row;
    assert At(s, s.l[row][0], Low(row));
    assert s'.l[row] == s.l[row][1..] + [t];
    assert Placed(s', t, Low(row)) by { LastIn(s', t, row); }
    forall u | u in s'.pc && s'.pc[u].Waiting? ensures Placed(s', u, s'.pc[u].place) {
      if u != t { SwitchLowStays(s, s', t, row, u); }
    }
  }

  lemma LastIn(s: State, t: Tid, row: nat)
    requires row < |s.l| && s.l[row] != [] && s.l[row][|s.l[row]| - 1] == t
    ensures Placed(s, t, Low(row))
  {
  }

  lemma PushStays(s: State, s': State, t: Tid, r: nat, u: Tid)
    requires t in s.pc && s.pc[t].Queueing? && s.pc[t].tableAt.PushSelf? && Ready(s, t) && s' == QueueNext(s, t, r)
    requires u in s.pc && u != t && s'.pc[u].Waiting? && Placed(s, u, s.pc[u].place)
    ensures Placed(s', u, s'.pc[u].place)
  {
    var row := s.pc[t].tableAt.row;
    var q := if s.pc[t].low then s.l[row] else s.h[row];
    assert u in q ==> u in q + [t];
  }

  lemma PushPlaces(s: State, s': State, t: Tid, r: nat)
    requires PlaceInv(s) && t in s.pc && s.pc[t].Queueing? && s.pc[t].tableAt.PushSelf?
    requires Ready(s, t) && s' == QueueNext(s, t, r)
    ensures PlaceInv(s')
  {
    hide Placed;
    var row := s.pc[t].tableAt.row;
    assert t !in s.l[row] && t !in s.h[row];
    assert Placed(s', t, s'.pc[t].place) by { PushedLast(s, s', t, r); }
    forall u | u in s'.pc && s'.pc[u].Waiting? ensures Placed(s', u, s'.pc[u].place) {
      if u != t { PushStays(s, s', t, r, u); }
    }
  }

  lemma PushedLast(s: State, s': State, t: Tid, r: nat)
    requires t in s.pc && s.pc[t].Queueing? && s.pc[t].tableAt.PushSelf? && Ready(s, t) && s' == QueueNext(s, t, r)
    ensures s'.pc[t].Waiting? && Placed(s', t, s'.pc[t].place)
  {
    var row := s.pc[t].tableAt.row;
    var q := if s.pc[t].low then s'.l[row] else s'.h[row];
    assert q[|q| - 1] == t;
  }

  /** `t` takes the head out of row `row` and holds it. */
  ghost predicate Takes(s: State, s': State, t: Tid, high: bool, row: nat)
  {
    && |s.h| == |s.l| && t in s.pc && t in s'.pc && row < |s.h| && Rows(s, high)[row] != []
    && !s.pc[t].Waiting? && Target(s.pc[t]) == None
    && !s'.pc[t].Waiting? && Target(s'.pc[t]) == Some(Rows(s, high)[row][0])
    && s' == Go(Popped(s, t, high, row), t, s'.pc[t])
  }

  lemma PoppedStays(s: State, s': State, t: Tid, high: bool, row: nat, u: Tid)
    requires Takes(s, s', t, high, row) && At(s, Rows(s, high)[row][0], if high then High(row) else Low(row))
    requires u in s.pc && s'.pc[u].Waiting? && Placed(s, u, s.pc[u].place)
    ensures Placed(s', u, s'.pc[u].place)
  {
    var q, q' := Rows(s, high)[row], Rows(s', high)[row];
    assert q' == q[1..];
    if u in q {
      var i :| 0 <= i < |q| && q[i] == u;
      assert i > 0 ==> q'[i - 1] == u;
    }
  }

  lemma PoppedQueued(s: State, s': State, t: Tid, high: bool, row: nat)
    requires QueuedInv(s) && Takes(s, s', t, high, row)
    ensures QueuedInv(s') && At(s, Rows(s, high)[row][0], if high then High(row) else Low(row))
  {
    var q := Rows(s, high)[row];
    assert At(s, q[0], if high then High(row) else Low(row));
    assert Rows(s', high)[row] == q[1..];
  }

  lemma PoppedHeld(s: State, s': State, t: Tid, high: bool, row: nat)
    requires HeldInv(s) && Takes(s, s', t, high, row)
    requires At(s, Rows(s, high)[row][0], if high then High(row) else Low(row))
    ensures HeldInv(s')
  {
  }

  lemma PoppedPlaces(s: State, s': State, t: Tid, high: bool, row: nat)
    requires PlaceInv(s) && Takes(s, s', t, high, row)
    ensures PlaceInv(s') && At(s, Rows(s, high)[row][0], if high then High(row) else Low(row))
  {
    hide QueuedInv, HeldInv, Placed;
    PoppedQueued(s, s', t, high, row);
    PoppedHeld(s, s', t, high, row);
    forall u | u in s'.pc && s'.pc[u].Waiting? ensures Placed(s', u, s'.pc[u].place) {
      PoppedStays(s, s', t, high, row, u);
    }
  }

  lemma PoppedCount(s: State, high: bool, row: nat, m: State)
    requires |s.h| == |s.l| && row < |s.h| && Rows(s, high)[row] != []
    requires m.h == if high then s.h[row := s.h[row][1..]] else s.h
    requires m.l == if high then s.l else s.l[row := s.l[row][1..]]
    ensures Total(m.h) + Total(m.l) == Total(s.h) + Total(s.l) - 1
    ensures Total(s.h) + Total(s.l) > 0
  {
    if high { TotalUpdate(s.h, row, s.h[row][1..]); } else { TotalUpdate(s.l, row, s.l[row][1..]); }
  }

  lemma SwitchLowTable(s: State, s': State, t: Tid)
    requires t in s.pc && s.pc[t].Locking? && s.pc[t].lockAt.SwitchLow? && Ready(s, t) && s' == LockNext(s, t)
    requires s.l[s.pc[t].lockAt.row] != [] && LockInv(s) && CountInv(s) && TableInv(s)
    requires ListInv(s.hList, s.h) && ListInv(s.lList, s.l)
    ensures CountInv(s') && TableInv(s') && ListInv(s'.hList, s'.h) && ListInv(s'.lList, s'.l)
  {
    var row := s.pc[t].lockAt.row;
    TotalUpdate(s.l, row, s.l[row][1..] + [t]);
  }

  lemma SwitchLowKeeps(s: State, s': State, t: Tid, r: nat, o: Option<Tid>)
    requires InvO(s, o) && t in s.pc && s.pc[t].Locking? && s.pc[t].lockAt.SwitchLow?
    requires Ready(s, t) && s' == LockNext(s, t)
    requires s.pc[t].lockAt.row < |s.l| && s.l[s.pc[t].lockAt.row] != []
    ensures InvO(s', o)
  {
    hide CountInv, Total, LockInv, Placed, ListInv, OwnerInv, Shape, LimitInv, TableInv, Distinct;
    var row := s.pc[t].lockAt.row;
    var x := s.l[row][0];
    assert At(s, x, Low(row));
    HereFromInv(s, t, o);
    assert s.handover != Some(x);
    QueueChangeKeeps(s, s', t, x, o);
    SwitchLowPlaces(s, s', t, r);
    SwitchLowTable(s, s', t);
    assert Rescuer(s', x);
  }

  lemma PushTable(s: State, s': State, t: Tid, r: nat)
    requires t in s.pc && s.pc[t].Queueing? && s.pc[t].tableAt.PushSelf? && Ready(s, t) && s' == QueueNext(s, t, r)
    requires LockInv(s) && CountInv(s) && TableInv(s) && ListInv(s.hList, s.h) && ListInv(s.lList, s.l)
    ensures CountInv(s') && TableInv(s') && ListInv(s'.hList, s'.h) && ListInv(s'.lList, s'.l)
  {
    var row := s.pc[t].tableAt.row;
    TotalUpdate(s.l, row, s.l[row] + [t]);
    TotalUpdate(s.h, row, s.h[row] + [t]);
  }

  lemma PushKeeps(s: State, s': State, t: Tid, r: nat, o: Option<Tid>)
    requires InvO(s, o) && t in s.pc && s.pc[t].Queueing? && s.pc[t].tableAt.PushSelf?
    requires Ready(s, t) && s' == QueueNext(s, t, r)
    ensures InvO(s', o)
  {
    hide CountInv, OwnerInv, LimitInv, PlaceInv, Shape, HandoverInv, ListInv, NoLostWakeup, TableInv, LockInv;
    var row := s.pc[t].tableAt.row;
    HereFromInv(s, t, o);
    QueueChangeKeeps(s, s', t, t, o);
    PushPlaces(s, s', t, r);
    PushTable(s, s', t, r);
    QueueChangeWakeup(s, s', t, t);
  }

  /** `t` pops the head of a row and holds it. */
  ghost predicate Pops(s: State, s': State, t: Tid, high: bool, row: nat)
  {
    && t in s.pc && t in s'.pc && row < |s.h| && |s.h| == |s.l| && Rows(s, high)[row] != []
    && s' == Go(Popped(s, t, high, row), t, s'.pc[t])
    && !s.pc[t].Waiting? && Target(s.pc[t]) == None
    && Target(s'.pc[t]) == Some(Rows(s, high)[row][0])
  }

  lemma PopsChange(s: State, s': State, t: Tid, high: bool, row: nat, o: Option<Tid>)
    requires Pops(s, s', t, high, row) && Shape(s) && PlaceInv(s) && Here(s, t, o)
    requires || (s.pc[t].Releasing? && s'.pc[t] == Giving(Rows(s, high)[row][0], CountHandover(row))
                   && s.pc[t].releaseAt == if high then PopHigh(row) else PopLow(row))
             || (s.pc[t].Waking? && s'.pc[t].Waking? && s'.pc[t] == s.pc[t].(wakeAt := s'.pc[t].wakeAt)
                   && s.pc[t].wakeAt.Pop? && s'.pc[t].wakeAt.Fix?)
    ensures var x := Rows(s, high)[row][0];
            && QueueChange(s, s', t, x) && Stranded(s', x) == Stranded(s', t) == false
            && (Rescuer(s, x) ==> Rescuer(s', x)) && (Rescuer(s, t) ==> Rescuer(s', t))
  {
    assert At(s, Rows(s, high)[row][0], if high then High(row) else Low(row));
  }

  lemma PopsTable(s: State, s': State, t: Tid, high: bool, row: nat)
    requires Pops(s, s', t, high, row) && LockInv(s) && CountInv(s) && TableInv(s) && |s.numHandovers| == |s.h|
    requires At(s, Rows(s, high)[row][0], if high then High(row) else Low(row))
    requires ListInv(s.hList, s.h) && ListInv(s.lList, s.l)
    requires s.table == Some(t) ==> UnderTable(s', s'.pc[t])
    ensures CountInv(s') && TableInv(s') && ListInv(s'.hList, s'.h) && ListInv(s'.lList, s'.l)
  {
    PoppedCount(s, high, row, s');
  }

  /** Both places at which a ULT is popped: for a hand-over, and in a wake pass. */
  predicate PopStep(s: State, s': State, t: Tid, high: bool, row: nat)
  {
    && t in s.pc && Ready(s, t) && row < |s.h| && |s.h| == |s.l| && Rows(s, high)[row] != []
    && (|| (s.pc[t].Releasing? && s' == ReleaseNext(s, t)
            && s.pc[t].releaseAt == if high then PopHigh(row) else PopLow(row))
        || (s.pc[t].Waking? && s' == WakeNext(s, t) && s.pc[t].wakeAt.Pop?
            && s.pc[t].high == high && List(s, high) != [] && row == List(s, high)[0]))
  }

  lemma PopStepPops(s: State, s': State, t: Tid, high: bool, row: nat)
    requires PopStep(s, s', t, high, row)
    ensures Pops(s, s', t, high, row) && Takes(s, s', t, high, row)
    ensures || (s.pc[t].Releasing? && s'.pc[t] == Giving(Rows(s, high)[row][0], CountHandover(row))
                && s.pc[t].releaseAt == if high then PopHigh(row) else PopLow(row))
            || (s.pc[t].Waking? && s'.pc[t].Waking? && s'.pc[t] == s.pc[t].(wakeAt := s'.pc[t].wakeAt)
                && s.pc[t].wakeAt.Pop? && s'.pc[t].wakeAt.Fix?)
  {
  }

  lemma PopUnderTable(s: State, s': State, t: Tid, high: bool, row: nat)
    requires PopStep(s, s', t, high, row) && (s.table == Some(t) ==> UnderTable(s, s.pc[t]))
    ensures s.table == Some(t) ==> UnderTable(s', s'.pc[t])
  {
    hide Total;
  }

  lemma PopKeeps(s: State, s': State, t: Tid, high: bool, row: nat, o: Option<Tid>)
    requires InvO(s, o) && PopStep(s, s', t, high, row)
    ensures InvO(s', o)
  {
    hide Shape, LockInv, PlaceInv, CountInv, OwnerInv, HandoverInv, LimitInv, TableInv, NoLostWakeup, ListInv;
    hide QueueChange, PopStep;
    PopStepPops(s, s', t, high, row);
    var x := Rows(s, high)[row][0];
    HereFromInv(s, t, o);
    PopUnderTable(s, s', t, high, row);
    PoppedPlaces(s, s', t, high, row);
    PopsChange(s, s', t, high, row, o);
    QueueChangeKeeps(s, s', t, x, o);
    QueueChangeWakeup(s, s', t, x);
    PopsTable(s, s', t, high, row);
  }
}
