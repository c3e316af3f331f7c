/** The mutex on ESs: each ES runs one ULT at a time, and the rank that selects a row of the waiter
    table is that of the caller's own ES.  htable_switch_low resumes the head of a low-priority queue
    without a look at whether it has been switched out; here it is shown that it always has been. */
module MutexStreams {
  import opened Basics
  import opened MutexProtocol
  import opened MutexInvariant
  import opened MutexTheorems

  type Es = nat

  /** A ULT that has read its rank and goes on to use it, or that is queued and not switched out yet.
      None of these sections has a point at which the ULT could leave its ES. */
  predicate Bound(p: Pc)
  {
    || (p.Locking? && (p.lockAt.ReadLow? || p.lockAt.SwitchLow?))
    || (p.Queueing? && p.tableAt.PushSelf?)
    || (p.Waiting? && p.stage != Suspended)
  }

  /** `on` says which ULT is on which ES. */
  predicate OneEach(on: map<Tid, Es>)
  {
    forall t, u :: t in on && u in on && t != u ==> on[t] != on[u]
  }

  ghost predicate StepOn(s: State, s': State, t: Tid, on: map<Tid, Es>, on': map<Tid, Es>)
  {
    && t in on && Step(s, s', t, on[t])
    && forall u :: u in s'.pc && u in on && Bound(s'.pc[u]) ==> u in on' && on'[u] == on[u]
  }

  /** A run on ESs.  Between two steps a scheduler may move any ULT that is not bound to its ES. */
  ghost predicate RunOn(tr: seq<State>, ts: seq<Tid>, on: seq<map<Tid, Es>>)
  {
    && |tr| == |on| == |ts| + 1 && Init(tr[0])
    && (forall i :: 0 <= i < |on| ==> OneEach(on[i]))
    && (forall i :: 0 <= i < |ts| ==> StepOn(tr[i], tr[i + 1], ts[i], on[i], on[i + 1]))
  }

  /** The row that a bound ULT works on, or is queued in. */
  function RowOf(p: Pc): Option<nat>
  {
    match p
    case Locking(_, ReadLow(row)) => Some(row)
    case Locking(_, SwitchLow(row)) => Some(row)
    case Queueing(_, PushSelf(row)) => Some(row)
    case Waiting(_, stage, High(row)) => if stage == Suspended then None else Some(row)
    case Waiting(_, stage, Low(row)) => if stage == Suspended then None else Some(row)
    case _ => None
  }

  /** Each bound ULT is on the ES whose row it works on. */
  ghost predicate AtHome(s: State, on: map<Tid, Es>)
  {
    forall t :: t in s.pc && RowOf(s.pc[t]).Some? ==> t in on && on[t] == RowOf(s.pc[t]).value
  }

  /** A step gives a row to nobody but its own ULT, and to that only the one of its ES. */
  predicate RowKept(s: State, s': State, t: Tid, r: nat, u: Tid)
  {
    u in s'.pc && RowOf(s'.pc[u]).Some? ==>
      u in s.pc && (RowOf(s'.pc[u]) == RowOf(s.pc[u]) || (u == t && RowOf(s'.pc[u]) == Some(r)))
  }

  lemma LockRows(s: State, t: Tid, r: nat, u: Tid)
    requires Ready(s, t) && s.pc[t].Locking?
    ensures RowKept(s, LockNext(s, t), t, r, u)
  {
  }

  lemma QueueRows(s: State, t: Tid, r: nat, u: Tid)
    requires Ready(s, t)
    ensures s.pc[t].Queueing? ==> RowKept(s, QueueNext(s, t, r), t, r, u)
    ensures s.pc[t].Waiting? ==> RowKept(s, WaitNext(s, t), t, r, u)
    ensures s.pc[t].Returned? ==> RowKept(s, ReturnNext(s, t), t, r, u)
  {
  }

  lemma HandRows(s: State, t: Tid, r: nat, u: Tid)
    requires Ready(s, t)
    ensures s.pc[t].Giving? ==> RowKept(s, GiveNext(s, t), t, r, u)
    ensures s.pc[t].Receiving? ==> RowKept(s, ReceiveNext(s, t), t, r, u)
  {
  }

  lemma ReleaseRows(s: State, t: Tid, r: nat, u: Tid)
    requires Ready(s, t) && s.pc[t].Releasing?
    ensures RowKept(s, ReleaseNext(s, t), t, r, u)
  {
  }

  lemma WakeRows(s: State, t: Tid, r: nat, u: Tid)
    requires Ready(s, t) && s.pc[t].Waking?
    ensures RowKept(s, WakeNext(s, t), t, r, u)
  {
  }

  lemma StepRows(s: State, s': State, t: Tid, r: nat, u: Tid)
    requires Step(s, s', t, r)
    ensures RowKept(s, s', t, r, u)
  {
    hide LockNext, QueueNext, WaitNext, ReturnNext, ReceiveNext, ReleaseNext, GiveNext, WakeNext;
    match s.pc[t]
    case Locking(_, _) => LockRows(s, t, r, u);
    case Queueing(_, _) => QueueRows(s, t, r, u);
    case Waiting(_, _, _) => QueueRows(s, t, r, u);
    case Returned(_, _) => QueueRows(s, t, r, u);
    case Giving(_, _) => HandRows(s, t, r, u);
    case Receiving(_) => HandRows(s, t, r, u);
    case Releasing(_) => ReleaseRows(s, t, r, u);
    case Waking(_, _, _, _) => WakeRows(s, t, r, u);
    case _ =>
  }

  lemma StepAtHome(s: State, s': State, t: Tid, on: map<Tid, Es>, on': map<Tid, Es>)
    requires AtHome(s, on) && StepOn(s, s', t, on, on')
    ensures AtHome(s', on')
  {
    hide Step, RowKept;
    forall u | u in s'.pc && RowOf(s'.pc[u]).Some? ensures u in on' && on'[u] == RowOf(s'.pc[u]).value {
      StepRows(s, s', t, on[t], u);
      KeptAtHome(s, s', t, u, on);
    }
  }

  lemma KeptAtHome(s: State, s': State, t: Tid, u: Tid, on: map<Tid, Es>)
    requires AtHome(s, on) && t in on && RowKept(s, s', t, on[t], u) && u in s'.pc && RowOf(s'.pc[u]).Some?
    ensures Bound(s'.pc[u]) && u in on && on[u] == RowOf(s'.pc[u]).value
  {
  }

  lemma {:induction false} RunAtHome(tr: seq<State>, ts: seq<Tid>, on: seq<map<Tid, Es>>, i: nat)
    requires RunOn(tr, ts, on) && i < |tr|
    ensures AtHome(tr[i], on[i])
  {
    hide Step;
    if i > 0 {
      RunAtHome(tr, ts, on, i - 1);
      StepAtHome(tr[i - 1], tr[i - 1 + 1], ts[i - 1], on[i - 1], on[i - 1 + 1]);
    }
  }

  lemma IsRun(tr: seq<State>, ts: seq<Tid>, on: seq<map<Tid, Es>>)
    requires RunOn(tr, ts, on)
    ensures Run(tr)
  {
    hide Step, Init;
    forall i | 0 <= i < |tr| - 1 ensures Next(tr[i], tr[i + 1]) {
      assert StepOn(tr[i], tr[i + 1], ts[i], on[i], on[i + 1]);
    }
  }

  /** The head of a low-priority queue. */
  lemma HeadWaits(s: State, row: nat)
    requires Inv(s) && row < |s.l| && s.l[row] != []
    ensures At(s, s.l[row][0], Low(row))
  {
  }

  /** When lock_low switches to the head of its ES's low-priority queue, that ULT has been switched out:
      the model's condition on this step excludes nothing. */
  lemma SwitchLowNeverWaits(tr: seq<State>, ts: seq<Tid>, on: seq<map<Tid, Es>>, i: nat, t: Tid)
    requires RunOn(tr, ts, on) && i < |tr| && t in tr[i].pc && tr[i].pc[t].Locking? && tr[i].pc[t].lockAt.SwitchLow?
    ensures var row := tr[i].pc[t].lockAt.row;
            && row < |tr[i].l| && (tr[i].l[row] != [] ==> IsSuspended(tr[i], tr[i].l[row][0]))
            && Ready(tr[i], t) && t in on[i] && on[i][t] == row
  {
    hide Inv, RunOn, Next;
    IsRun(tr, ts, on);
    RunKeeps(tr, i);
    RunAtHome(tr, ts, on, i);
    OnIsOneEach(tr, ts, on, i);
    HomeIsReady(tr[i], on[i], t);
  }

  lemma OnIsOneEach(tr: seq<State>, ts: seq<Tid>, on: seq<map<Tid, Es>>, i: nat)
    requires RunOn(tr, ts, on) && i < |tr|
    ensures i < |on| && OneEach(on[i])
  {
  }

  lemma HomeIsReady(s: State, on: map<Tid, Es>, t: Tid)
    requires Inv(s) && AtHome(s, on) && OneEach(on)
    requires t in s.pc && s.pc[t].Locking? && s.pc[t].lockAt.SwitchLow?
    ensures var row := s.pc[t].lockAt.row;
            && row < |s.l| && (s.l[row] != [] ==> IsSuspended(s, s.l[row][0]))
            && Ready(s, t) && t in on && on[t] == row
  {
    hide Inv;
    RowsExist(s, t);
    var row := s.pc[t].lockAt.row;
    assert RowOf(s.pc[t]) == Some(row);
    if s.l[row] != [] {
      HeadWaits(s, row);
    }
  }

  lemma RowsExist(s: State, t: Tid)
    requires Inv(s) && t in s.pc
    ensures PcRow(s, s.pc[t]) && |s.h| == |s.l| == |s.numHandovers|
  {
  }
}
