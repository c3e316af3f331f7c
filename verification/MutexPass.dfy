/** A wake pass of the mutex among the steps of all other ULTs: it comes to its end. */
module MutexPass {
  import opened Basics
  import opened WaitRows
  import opened MutexProtocol
  import opened MutexInvariant
  import opened MutexTheorems

  /** `t` is in a wake pass and holds the table lock. */
  predicate Passing(s: State, t: Tid)
  {
    t in s.pc && s.pc[t].Waking? && HoldsTable(s.pc[t])
  }

  /** The rows that are left to scan: those of the list in hand, and the low ones behind the high ones. */
  function RowsLeft(s: State, t: Tid): nat
    requires Passing(s, t)
  {
    |s.lList| + if s.pc[t].high then |s.hList| else 0
  }

  /** The steps that `t` has to take, at most, until it gives the lock back. */
  function StepsLeft(s: State, t: Tid): nat
    requires Passing(s, t)
  {
    var low := if s.pc[t].high then 1 else 0;
    match s.pc[t].wakeAt
    case ReadElems => 2 * (|s.hList| + |s.lList|) + 4
    case Start => 2 * RowsLeft(s, t) + 2 + low
    case Pop(_) => 2 * RowsLeft(s, t) + 1 + low
    case Fix(_, _) => 2 * RowsLeft(s, t) + low
    case ExitTable(_) => 1
  }

  /** What a step of another leaves to `t`: the lists, and its program counter. */
  predicate Leaves(s: State, s': State, t: Tid)
  {
    s'.hList == s.hList && s'.lList == s.lList && t in s.pc && t in s'.pc && s'.pc[t] == s.pc[t]
  }

  lemma ReleaseLeaves(s: State, t: Tid, u: Tid)
    requires Passing(s, t) && u != t && Ready(s, u) && s.pc[u].Releasing?
    ensures Leaves(s, ReleaseNext(s, u), t)
  {
  }

  lemma WakeLeaves(s: State, t: Tid, u: Tid)
    requires Passing(s, t) && u != t && Ready(s, u) && s.pc[u].Waking? && !HoldsTable(s.pc[u])
    ensures Leaves(s, WakeNext(s, u), t)
  {
  }

  lemma LockLeaves(s: State, t: Tid, u: Tid)
    requires Passing(s, t) && u != t && Ready(s, u) && s.pc[u].Locking?
    ensures Leaves(s, LockNext(s, u), t)
  {
  }

  lemma HandLeaves(s: State, t: Tid, u: Tid)
    requires Passing(s, t) && u != t && Ready(s, u)
    requires s.pc[u] == Receiving(PushGiver) ==> GiverGiven(s)
    ensures s.pc[u].Giving? ==> Leaves(s, GiveNext(s, u), t)
    ensures s.pc[u].Receiving? ==> Leaves(s, ReceiveNext(s, u), t)
  {
  }

  lemma WaitLeaves(s: State, t: Tid, u: Tid)
    requires Passing(s, t) && u != t && Ready(s, u)
    ensures s.pc[u].Waiting? ==> Leaves(s, WaitNext(s, u), t)
    ensures s.pc[u].Returned? ==> Leaves(s, ReturnNext(s, u), t)
  {
  }

  lemma OthersDoNotHold(s: State, t: Tid, u: Tid)
    requires Inv(s) && Passing(s, t) && u in s.pc && u != t
    ensures !HoldsTable(s.pc[u]) && (s.pc[u] == Receiving(PushGiver) ==> GiverGiven(s))
  {
    hide Shape, PlaceInv, CountInv, LimitInv, TableInv, NoLostWakeup, ListInv;
    var o :| InvO(s, o);
    assert s.pc[u].Receiving? ==> Owner(s, u);
  }

  /** Whatever another ULT does, it neither links nor unlinks a row, nor moves `t`. */
  lemma OthersLeaveTheLists(s: State, s': State, t: Tid, u: Tid, r: nat)
    requires Inv(s) && Passing(s, t) && Step(s, s', u, r) && u != t
    ensures Leaves(s, s', t)
  {
    hide Inv, LockNext, QueueNext, WaitNext, ReturnNext, ReceiveNext, ReleaseNext, GiveNext, WakeNext;
    OthersDoNotHold(s, t, u);
    match s.pc[u]
    case Locking(_, _) => LockLeaves(s, t, u);
    case Releasing(_) => ReleaseLeaves(s, t, u);
    case Waking(_, _, _, _) => WakeLeaves(s, t, u);
    case Giving(_, _) => HandLeaves(s, t, u);
    case Receiving(_) => HandLeaves(s, t, u);
    case Waiting(_, _, _) => WaitLeaves(s, t, u);
    case Returned(_, _) => WaitLeaves(s, t, u);
    case _ =>
  }

  /** The holder of the lock never has to wait. */
  lemma PassIsReady(s: State, t: Tid)
    requires Inv(s) && Passing(s, t)
    ensures Ready(s, t)
  {
  }

  /** An iteration that has popped nobody unlinks the empty row it looked at, and only that. */
  lemma FruitlessFixUnlinks(s: State, s': State, t: Tid, r: nat)
    requires Inv(s) && Step(s, s', t, r) && Passing(s, t) && s.pc[t].wakeAt.Fix? && s.pc[t].wakeAt.got == None
    ensures var high := s.pc[t].high;
            && List(s, high) != [] && List(s, high)[0] < |Rows(s, high)| && Rows(s, high)[List(s, high)[0]] == []
            && List(s', high) == List(s, high)[1..] && List(s', !high) == List(s, !high)
  {
  }

  lemma FixCounts(s: State, s': State, t: Tid, r: nat)
    requires Inv(s) && Passing(s, t) && Step(s, s', t, r) && s.pc[t].wakeAt.Fix? && Passing(s', t)
    ensures StepsLeft(s', t) < StepsLeft(s, t)
  {
    hide Inv;
    if s.pc[t].wakeAt.got == None { FruitlessFixUnlinks(s, s', t, r); }
  }

  /** Every step of its own brings `t` nearer to the end of its pass. */
  lemma OwnStepCounts(s: State, s': State, t: Tid, r: nat)
    requires Inv(s) && Passing(s, t) && Step(s, s', t, r) && Passing(s', t)
    ensures StepsLeft(s', t) < StepsLeft(s, t)
  {
    hide Inv;
    if s.pc[t].wakeAt.Fix? { FixCounts(s, s', t, r); }
  }

  // ---- every run ----

  /** A run, with the ULT that takes each step. */
  ghost predicate RunBy(tr: seq<State>, ts: seq<Tid>)
  {
    && tr != [] && Init(tr[0]) && |ts| == |tr| - 1
    && forall i :: 0 <= i < |ts| ==> StepBy(tr[i], tr[i + 1], ts[i])
  }

  ghost predicate StepBy(s: State, s': State, t: Tid)
  {
    exists r :: Step(s, s', t, r)
  }

  lemma IsRun(tr: seq<State>, ts: seq<Tid>)
    requires RunBy(tr, ts)
    ensures Run(tr)
  {
    forall i | 0 <= i < |tr| - 1 ensures Next(tr[i], tr[i + 1]) {
      assert StepBy(tr[i], tr[i + 1], ts[i]);
      var r :| Step(tr[i], tr[i + 1], ts[i], r);
    }
  }

  /** A pass that has the table lock is ready for its next step at any moment, and takes as many steps
      as there are linked rows, twice, and four more at most: whatever other ULTs do meanwhile, no row
      is scanned in vain again and again. */
  lemma {:induction false} PassEnds(tr: seq<State>, ts: seq<Tid>, i: nat, k: nat, t: Tid)
    requires RunBy(tr, ts) && i <= k < |tr| && forall j :: i <= j <= k ==> Passing(tr[j], t)
    ensures Ready(tr[k], t)
    ensures multiset(ts[i..k])[t] + StepsLeft(tr[k], t) <= StepsLeft(tr[i], t)
    ensures StepsLeft(tr[i], t) <= 2 * (|tr[i].hList| + |tr[i].lList|) + 4
    decreases k
  {
    hide Inv, Ready, StepBy, Passing, StepsLeft, Run;
    IsRun(tr, ts);
    RunKeeps(tr, k);
    PassIsReady(tr[k], t);
    StepsAtMost(tr[i], t);
    if k > i {
      PassEnds(tr, ts, i, k - 1, t);
      RunKeeps(tr, k - 1);
      assert StepBy(tr[k - 1], tr[k - 1 + 1], ts[k - 1]);
      StepCounts(tr[k - 1], tr[k], t, ts[k - 1]);
      assert ts[i..k] == ts[i..k - 1] + [ts[k - 1]];
    }
  }

  lemma StepCounts(s: State, s': State, t: Tid, u: Tid)
    requires Inv(s) && Passing(s, t) && StepBy(s, s', u) && Passing(s', t)
    ensures StepsLeft(s', t) + (if u == t then 1 else 0) <= StepsLeft(s, t)
  {
    hide Inv, Step, Passing, StepsLeft;
    var r :| Step(s, s', u, r);
    if u == t { OwnStepCounts(s, s', t, r); } else { OtherStepCounts(s, s', t, u, r); }
  }

  lemma OtherStepCounts(s: State, s': State, t: Tid, u: Tid, r: nat)
    requires Inv(s) && Passing(s, t) && Step(s, s', u, r) && u != t && Passing(s', t)
    ensures StepsLeft(s', t) == StepsLeft(s, t)
  {
    hide Inv, Step;
    OthersLeaveTheLists(s, s', t, u, r);
  }

  lemma StepsAtMost(s: State, t: Tid)
    requires Passing(s, t)
    ensures StepsLeft(s, t) <= 2 * (|s.hList| + |s.lList|) + 4
  {
  }
}
