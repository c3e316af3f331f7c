/** What the life cycle of ULTs promises in every run. */
module UltTheorems {
  import opened Basics
  import opened Counting
  import opened UltProtocol
  import opened UltInvariant

  lemma {:induction false} RunKeeps(tr: seq<State>, i: nat)
    requires Run(tr) && i < |tr|
    ensures Inv(tr[i])
  {
    hide Inv, Next, Can;
    if i == 0 {
      InitKeeps(tr[0]);
    } else {
      RunKeeps(tr, i - 1);
      assert Steps(tr[i - 1], tr[i - 1 + 1]);
      var a :| Can(tr[i - 1], a) && tr[i] == Next(tr[i - 1], a);
      StepKeeps(tr[i - 1], a);
    }
  }

  predicate InPools(s: State, u: Uid)
  {
    exists p :: 0 <= p < |s.pools| && s.pools[p][u] > 0
  }

  lemma InItsPool(s: State, u: Uid)
    requires PoolInv(s) && u < |s.ults| && UltInv(s, u) && s.ults[u].at.InPool?
    ensures InPools(s, u)
  {
    assert Times(s, s.ults[u].pool, u) == 1;
    assert s.pools[s.ults[u].pool][u] > 0;
  }

  /** A ULT is never on two ESs, in two pools, twice in one pool, or in a pool and on an ES. */
  lemma NeverInTwoPlaces(tr: seq<State>, i: nat, u: Uid)
    requires Run(tr) && i < |tr|
    ensures forall d, e :: OnCpu(tr[i], u, d) && OnCpu(tr[i], u, e) ==> d == e
    ensures forall p, q ::
              0 <= p < |tr[i].pools| && 0 <= q < |tr[i].pools| && tr[i].pools[p][u] > 0 && tr[i].pools[q][u] > 0 ==>
              p == q && tr[i].pools[p][u] == 1
    ensures forall e :: OnCpu(tr[i], u, e) ==> !InPools(tr[i], u)
  {
    RunKeeps(tr, i);
    var s := tr[i];
    forall p, q | 0 <= p < |s.pools| && 0 <= q < |s.pools| && s.pools[p][u] > 0 && s.pools[q][u] > 0
      ensures p == q && s.pools[p][u] == 1
    {
      assert Times(s, p, u) > 0 && Times(s, q, u) > 0;
    }
    forall e | OnCpu(s, u, e) ensures !InPools(s, u) {
      forall p | 0 <= p < |s.pools| ensures s.pools[p][u] == 0 { assert Times(s, p, u) == 0; }
    }
  }

  /** A ULT that has been created is never lost: it is on an ES, or in its pool, or terminated, or it
      sleeps with its context saved and its BLOCK request reset, and then exactly one will wake it: it
      is still published, or one waker has it. */
  lemma NeverLost(tr: seq<State>, i: nat, u: Uid)
    requires Run(tr) && i < |tr| && u < |tr[i].ults|
    requires !InPools(tr[i], u) && (forall e :: !OnCpu(tr[i], u, e)) && tr[i].ults[u].life != Terminated
    ensures tr[i].ults[u].pc == Suspended && tr[i].ults[u].saved && !tr[i].ults[u].block
    ensures u in tr[i].published <==> !exists w :: 0 <= w < |tr[i].wakers| && Wakes(tr[i].wakers[w], u)
    ensures forall v, w ::
              0 <= v < |tr[i].wakers| && 0 <= w < |tr[i].wakers|
              && Wakes(tr[i].wakers[v], u) && Wakes(tr[i].wakers[w], u) ==>
                v == w
  {
    RunKeeps(tr, i);
    var s := tr[i];
    assert UltInv(s, u);
    if s.ults[u].at.InPool? { InItsPool(s, u); }
    assert s.ults[u].at == Off;
    assert Attended(s, u);
    if w :| 0 <= w < |s.wakers| && Wakes(s.wakers[w], u) { assert WakerOk(s, s.wakers[w]); }
  }

  /** Only a ULT whose context is saved is in a pool, is taken up by a scheduler, or is pushed back by
      a waker; the waker finds it BLOCKED and its scheduler done with it. */
  lemma OnlySavedContexts(tr: seq<State>, i: nat, u: Uid)
    requires Run(tr) && i < |tr| && u < |tr[i].ults|
    ensures InPools(tr[i], u) ==> tr[i].ults[u].saved && !tr[i].ults[u].block && tr[i].ults[u].life == Ready
    ensures forall e: Es :: OnCpu(tr[i], u, e) && !tr[i].cpus[e].Runs? ==> tr[i].ults[u].saved
    ensures forall w :: 0 <= w < |tr[i].wakers| && Wakes(tr[i].wakers[w], u) ==>
              && (tr[i].wakers[w].SpinBlock? ==> tr[i].ults[u].life == Blocked)
              && (tr[i].wakers[w].PushBack? ==>
                    tr[i].ults[u].saved && !tr[i].ults[u].block && forall e :: !OnCpu(tr[i], u, e))
  {
    RunKeeps(tr, i);
    var s := tr[i];
    assert UltInv(s, u);
    if InPools(s, u) {
      var p :| 0 <= p < |s.pools| && s.pools[p][u] > 0;
      assert Times(s, p, u) > 0;
    }
    forall w | 0 <= w < |s.wakers| && Wakes(s.wakers[w], u)
      ensures (s.wakers[w].SpinBlock? ==> s.ults[u].life == Blocked)
              && (s.wakers[w].PushBack? ==> s.ults[u].saved && !s.ults[u].block && forall e :: !OnCpu(s, u, e))
    {
      assert WakerOk(s, s.wakers[w]);
    }
  }

  // ---- num_blocked ----

  /** Counted as blocked: behind the increment, and not pushed back yet. */
  predicate Counted(x: Ult, p: Pid)
  {
    (x.pc == Publish || x.pc == Suspend || x.pc == Suspended) && x.pool == p
  }

  /** A waker between its push to pool `p` and its decrement. */
  predicate Decrementing(w: Waker, p: Pid)
  {
    w.DecBlocked? && w.home == p
  }

  function BlockedIn(ults: seq<Ult>, p: Pid): seq<bool>
  {
    seq(|ults|, i requires 0 <= i < |ults| => Counted(ults[i], p))
  }

  function DecrementsTo(wakers: seq<Waker>, p: Pid): seq<bool>
  {
    seq(|wakers|, i requires 0 <= i < |wakers| => Decrementing(wakers[i], p))
  }

  lemma BlockedUpdate(ults: seq<Ult>, u: Uid, x: Ult, p: Pid)
    requires u < |ults|
    ensures Count(BlockedIn(ults[u := x], p))
            == Count(BlockedIn(ults, p)) - One(Counted(ults[u], p)) + One(Counted(x, p))
  {
    assert BlockedIn(ults[u := x], p) == BlockedIn(ults, p)[u := Counted(x, p)];
    CountUpdate(BlockedIn(ults, p), u, Counted(x, p));
  }

  lemma BlockedAppend(ults: seq<Ult>, x: Ult, p: Pid)
    ensures Count(BlockedIn(ults + [x], p)) == Count(BlockedIn(ults, p)) + One(Counted(x, p))
  {
    assert BlockedIn(ults + [x], p) == BlockedIn(ults, p) + [Counted(x, p)];
    CountAppend(BlockedIn(ults, p), Counted(x, p));
  }

  lemma DecrementsUpdate(wakers: seq<Waker>, w: Wid, x: Waker, p: Pid)
    requires w < |wakers|
    ensures Count(DecrementsTo(wakers[w := x], p))
            == Count(DecrementsTo(wakers, p)) - One(Decrementing(wakers[w], p)) + One(Decrementing(x, p))
  {
    assert DecrementsTo(wakers[w := x], p) == DecrementsTo(wakers, p)[w := Decrementing(x, p)];
    CountUpdate(DecrementsTo(wakers, p), w, Decrementing(x, p));
  }

  /** num_blocked of pool `p` over what it should be. */
  function Surplus(s: State, p: Pid): int
    requires p < |s.numBlocked|
  {
    s.numBlocked[p] - Count(BlockedIn(s.ults, p)) - Count(DecrementsTo(s.wakers, p))
  }

  /** The decrement goes to the pool the ULT belongs to by now, not to the one it was pushed to. */
  predicate Misdirected(s: State, a: Act)
    requires Can(s, a)
  {
    a.Wake? && s.wakers[a.w].DecBlocked? && s.ults[s.wakers[a.w].ult].pool != s.wakers[a.w].home
  }

  /** What a step adds to the surplus of pool `p`. */
  function Shift(s: State, a: Act, p: Pid): int
    requires Can(s, a)
  {
    if !Misdirected(s, a) then 0
    else One(s.wakers[a.w].home == p) - One(s.ults[s.wakers[a.w].ult].pool == p)
  }

  /** What the numbers of pool `p` gain by a step, seen from the ULT and the waker that it moves. */
  predicate Gains(s: State, a: Act, p: Pid)
    requires Can(s, a) && !a.Create? && |s.pools| == |s.numBlocked| && p < |s.pools|
  {
    var s', u := Next(s, a), Subject(s, a);
    && |s'.numBlocked| == |s.numBlocked|
    && u < |s.ults| && s'.ults == s.ults[u := s'.ults[u]]
    && var blocked := One(Counted(s'.ults[u], p)) - One(Counted(s.ults[u], p));
       if a.Take? || a.Wake? then
         && a.w < |s.wakers| && s'.wakers == s.wakers[a.w := s'.wakers[a.w]]
         && var pending := One(Decrementing(s'.wakers[a.w], p)) - One(Decrementing(s.wakers[a.w], p));
            s'.numBlocked[p] - s.numBlocked[p] == blocked + pending + Shift(s, a, p)
       else s'.wakers == s.wakers && s'.numBlocked[p] - s.numBlocked[p] == blocked
  }

  lemma WakerGains(s: State, a: Act, p: Pid)
    requires Can(s, a) && Here(s, a) && |s.pools| == |s.numBlocked| && p < |s.pools| && (a.Take? || a.Wake?)
    ensures Gains(s, a, p)
  {
    hide UltInv;
  }

  lemma GoGains(s: State, a: Act, p: Pid)
    requires Can(s, a) && Here(s, a) && |s.pools| == |s.numBlocked| && p < |s.pools| && (a.Go? || a.Handle?)
    ensures Gains(s, a, p)
  {
  }

  lemma OtherGains(s: State, a: Act, p: Pid)
    requires Can(s, a) && !a.Create? && Here(s, a) && |s.pools| == |s.numBlocked| && p < |s.pools|
    requires !a.Take? && !a.Wake? && !a.Go? && !a.Handle?
    ensures Gains(s, a, p)
  {
  }

  lemma StepGains(s: State, a: Act, p: Pid)
    requires Can(s, a) && !a.Create? && Here(s, a) && |s.pools| == |s.numBlocked| && p < |s.pools|
    ensures Gains(s, a, p)
  {
    hide Can, Here, Gains;
    if a.Take? || a.Wake? {
      WakerGains(s, a, p);
    } else if a.Go? || a.Handle? {
      GoGains(s, a, p);
    } else {
      OtherGains(s, a, p);
    }
  }

  lemma StepSurplus(s: State, a: Act, p: Pid)
    requires Can(s, a) && Here(s, a) && |s.pools| == |s.numBlocked| && p < |s.pools|
    ensures |Next(s, a).numBlocked| == |s.numBlocked|
    ensures Surplus(Next(s, a), p) == Surplus(s, p) + Shift(s, a, p)
  {
    var s' := Next(s, a);
    if a.Create? {
      CreateSurplus(s, a, p);
    } else {
      MoveSurplus(s, a, p);
    }
  }

  lemma CreateSurplus(s: State, a: Act, p: Pid)
    requires Can(s, a) && a.Create? && |s.pools| == |s.numBlocked| && p < |s.pools|
    ensures |Next(s, a).numBlocked| == |s.numBlocked| && Surplus(Next(s, a), p) == Surplus(s, p)
  {
    hide BlockedIn, DecrementsTo, Count;
    BlockedAppend(s.ults, Next(s, a).ults[|s.ults|], p);
  }

  lemma MoveSurplus(s: State, a: Act, p: Pid)
    requires Can(s, a) && !a.Create? && Here(s, a) && |s.pools| == |s.numBlocked| && p < |s.pools|
    ensures |Next(s, a).numBlocked| == |s.numBlocked|
    ensures Surplus(Next(s, a), p) == Surplus(s, p) + Shift(s, a, p)
  {
    hide BlockedIn, DecrementsTo, Count, Next, Can, Here, Counted, Decrementing;
    var s', u := Next(s, a), Subject(s, a);
    StepGains(s, a, p);
    BlockedUpdate(s.ults, u, s'.ults[u], p);
    if a.Take? || a.Wake? { DecrementsUpdate(s.wakers, a.w, s'.wakers[a.w], p); }
  }

  /** A step keeps every pool's num_blocked right exactly when it is not a decrement after the ULT
      has been migrated from the pool it was pushed to. */
  lemma KeptExactlyWhen(s: State, a: Act)
    requires Inv(s) && Can(s, a)
    ensures |Next(s, a).numBlocked| == |s.numBlocked|
    ensures (forall p: Pid :: p < |s.numBlocked| ==> Surplus(Next(s, a), p) == Surplus(s, p)) <==> !Misdirected(s, a)
  {
    IsHere(s, a);
    hide Surplus, Inv, Next, Can, Here;
    assert |s.pools| == |s.numBlocked| by { InvPools(s); }
    forall p: Pid | p < |s.pools|
      ensures |Next(s, a).numBlocked| == |s.numBlocked|
      ensures Surplus(Next(s, a), p) == Surplus(s, p) + Shift(s, a, p)
    {
      StepSurplus(s, a, p);
    }
    if Misdirected(s, a) {
      assert WakerOk(s, s.wakers[a.w]) by { InvWaker(s, a.w); }
      assert Surplus(Next(s, a), s.wakers[a.w].home) == Surplus(s, s.wakers[a.w].home) + 1;
    }
  }

  lemma InvPools(s: State)
    requires Inv(s)
    ensures |s.pools| == |s.numBlocked|
  {
  }

  lemma InvWaker(s: State, w: Wid)
    requires Inv(s) && w < |s.wakers|
    ensures WakerOk(s, s.wakers[w])
  {
  }

  // ---- runs without migration ----

  ghost predicate NoRequests(s: State)
  {
    forall u :: 0 <= u < |s.ults| ==> s.ults[u].dest == None
  }

  /** Each pending decrement will go to the pool the ULT was pushed to. */
  ghost predicate AtHome(s: State)
  {
    forall w :: 0 <= w < |s.wakers| && s.wakers[w].DecBlocked? ==>
      s.wakers[w].ult < |s.ults| && s.ults[s.wakers[w].ult].pool == s.wakers[w].home
  }

  ghost predicate Settled(s: State)
  {
    && |s.pools| == |s.numBlocked| && AtHome(s)
    && (forall p: Pid :: p < |s.numBlocked| ==> Surplus(s, p) == 0)
  }

  lemma StepSettled(s: State, a: Act)
    requires Inv(s) && Can(s, a) && NoRequests(s) && Settled(s)
    ensures Settled(Next(s, a))
  {
    hide Surplus, Inv, Here, AtHome, NoRequests, Next;
    IsHere(s, a);
    StepAtHome(s, a);
    KeptExactlyWhen(s, a);
    assert !Misdirected(s, a) by { Directed(s, a); }
    SameNumber(s, a);
  }

  lemma StepAtHome(s: State, a: Act)
    requires Can(s, a) && Here(s, a) && NoRequests(s) && AtHome(s)
    ensures AtHome(Next(s, a))
  {
    hide UltInv;
  }

  lemma Directed(s: State, a: Act)
    requires Can(s, a) && AtHome(s)
    ensures !Misdirected(s, a)
  {
  }

  lemma SameNumber(s: State, a: Act)
    requires Can(s, a)
    ensures |Next(s, a).pools| == |s.pools|
  {
  }

  lemma InitSettled(s: State)
    requires Init(s)
    ensures Settled(s)
  {
    forall p: Pid | p < |s.numBlocked| ensures Surplus(s, p) == 0 {
      CountNone(BlockedIn(s.ults, p));
      CountNone(DecrementsTo(s.wakers, p));
    }
  }

  lemma {:induction false} RunSettled(tr: seq<State>, i: nat)
    requires Run(tr) && i < |tr| && forall k :: 0 <= k < i ==> NoRequests(tr[k])
    ensures Settled(tr[i])
  {
    hide Settled, Inv, Next, Can, NoRequests;
    if i == 0 {
      InitSettled(tr[0]);
    } else {
      RunSettled(tr, i - 1);
      RunKeeps(tr, i - 1);
      assert Steps(tr[i - 1], tr[i - 1 + 1]);
      var a :| Can(tr[i - 1], a) && tr[i] == Next(tr[i - 1], a);
      StepSettled(tr[i - 1], a);
    }
  }

  /** Without migration, num_blocked counts the pool's blocked ULTs and the wakers that have pushed
      one of them back but not decremented yet. */
  lemma NumBlockedIsExact(tr: seq<State>, i: nat, p: Pid)
    requires Run(tr) && i < |tr| && p < |tr[i].pools| && forall k :: 0 <= k < i ==> NoRequests(tr[k])
    ensures |tr[i].numBlocked| == |tr[i].pools|
    ensures tr[i].numBlocked[p] == Count(BlockedIn(tr[i].ults, p)) + Count(DecrementsTo(tr[i].wakers, p))
  {
    RunSettled(tr, i);
    assert Surplus(tr[i], p) == 0;
  }

  // ---- with migration ----

  function Start(): State
  {
    State([], [Scheduling], [multiset{}, multiset{}], [0, 0], [Idle], {})
  }

  /** One ULT that was created in pool 0 runs. */
  function OneRuns(): State
  {
    State([Ult(Active, Running, false, false, None, 0, false, OnEs(0))], [Runs(0)], [multiset{}, multiset{}],
          [0, 0], [Idle], {})
  }

  /** It has blocked and told where it waits, and still has to switch to its scheduler. */
  function Published(): State
  {
    State([Ult(Suspend, Blocked, true, false, None, 0, false, OnEs(0))], [Runs(0)], [multiset{}, multiset{}],
          [1, 0], [Idle], {0})
  }

  /** It has switched, and sleeps. */
  function Sleeping(): State
  {
    State([Ult(Suspended, Blocked, false, false, None, 0, true, Off)], [Scheduling], [multiset{}, multiset{}],
          [1, 0], [Idle], {0})
  }

  /** Its waker has pushed it back, and has yet to decrement. */
  function Pushed(): State
  {
    State([Ult(Active, Ready, false, false, None, 0, true, InPool(0))], [Scheduling], [multiset{0}, multiset{}],
          [1, 0], [DecBlocked(0, 0)], {})
  }

  /** A scheduler has popped it meanwhile, and is about to push it to pool 1. */
  function OnTheMove(): State
  {
    State([Ult(Active, Ready, false, false, None, 1, true, OnEs(0))], [Pushing(0)], [multiset{}, multiset{}],
          [1, 0], [DecBlocked(0, 0)], {})
  }

  /** It is there, and the waker has decremented. */
  function Miscounted(): State
  {
    State([Ult(Active, Ready, false, false, None, 1, true, InPool(1))], [Scheduling], [multiset{}, multiset{0}],
          [1, -1], [Idle], {})
  }

  function Last(tr: seq<State>): State
    requires tr != []
  {
    tr[|tr| - 1]
  }

  lemma Extend(tr: seq<State>, a: Act) returns (more: seq<State>)
    requires Run(tr) && Can(Last(tr), a)
    ensures Run(more) && more != [] && Last(more) == Next(Last(tr), a)
  {
    more := tr + [Next(Last(tr), a)];
    assert Steps(Last(tr), Last(more));
    forall i | 0 <= i < |more| - 1 ensures Steps(more[i], more[i + 1]) {
      if i < |tr| - 1 { assert Steps(tr[i], tr[i + 1]); }
    }
  }

  lemma ToRunning() returns (tr: seq<State>)
    ensures Run(tr) && tr != [] && Last(tr) == OneRuns()
  {
    hide Run;
    tr := [Start()];
    assert Run(tr) by { StartsRun(); }
    tr := Extend(tr, Create(0));
    tr := Extend(tr, Pop(0, 0, 0));
    tr := Extend(tr, Decide(0));
    OneInPool(multiset{});
    assert Last(tr).pools == OneRuns().pools;
  }

  lemma ToSleep(tr: seq<State>) returns (more: seq<State>)
    requires Run(tr) && tr != [] && Last(tr) == OneRuns()
    ensures Run(more) && more != [] && Last(more) == Sleeping()
  {
    hide Run;
    more := ToPublished(tr);
    more := Extend(more, Go(0));
    more := Extend(more, Handle(0));
    assert Last(more) == Sleeping();
  }

  lemma ToPublished(tr: seq<State>) returns (more: seq<State>)
    requires Run(tr) && tr != [] && Last(tr) == OneRuns()
    ensures Run(more) && more != [] && Last(more) == Published()
  {
    hide Run;
    more := Extend(tr, Block(0));
    more := Extend(more, Go(0));
    more := Extend(more, Go(0));
    more := Extend(more, Go(0));
    assert Last(more) == Published();
  }

  lemma OneInPool(none: multiset<Uid>)
    requires none == multiset{}
    ensures none + multiset{0} == multiset{0} && multiset{0} - multiset{0} == none
  {
  }

  lemma StartsRun()
    ensures Run([Start()])
  {
  }

  lemma ToPushed(tr: seq<State>) returns (more: seq<State>)
    requires Run(tr) && tr != [] && Last(tr) == Sleeping()
    ensures Run(more) && more != [] && Last(more) == Pushed()
  {
    hide Run;
    more := Extend(tr, Take(0, 0));
    more := Extend(more, Wake(0));
    more := Extend(more, Wake(0));
    more := Extend(more, Wake(0));
    OneInPool(multiset{});
    assert Last(more).pools == Pushed().pools;
    assert Last(more) == Pushed();
  }

  lemma ToMigrated(tr: seq<State>) returns (more: seq<State>)
    requires Run(tr) && tr != [] && Last(tr) == Pushed()
    ensures Run(more) && more != [] && Last(more) == OnTheMove()
  {
    hide Run;
    more := Extend(tr, Ask(0, 1));
    more := Extend(more, Pop(0, 0, 0));
    more := Extend(more, Decide(0));
    OneInPool(multiset{});
    assert Last(more).pools == OnTheMove().pools;
  }

  lemma ToMiscounted(tr: seq<State>) returns (more: seq<State>)
    requires Run(tr) && tr != [] && Last(tr) == Pushed()
    ensures Run(more) && more != [] && Last(more) == Miscounted()
  {
    hide Run;
    more := ToMigrated(tr);
    more := Extend(more, Push(0));
    more := Extend(more, Wake(0));
    OneInPool(multiset{});
    assert Last(more).pools == Miscounted().pools;
  }

  /** With migration the counters can go wrong for good: here is a run that ends with every ULT ready
      and every waker idle, while num_blocked is 1 for one pool and -1 for another. */
  lemma MigrationMiscounts() returns (tr: seq<State>)
    ensures Run(tr) && tr != []
    ensures var s := Last(tr);
            && |s.ults| == 1 && s.ults[0].life == Ready && s.wakers == [Idle] && s.numBlocked == [1, -1]
  {
    tr := ToRunning();
    tr := ToSleep(tr);
    tr := ToPushed(tr);
    tr := ToMiscounted(tr);
  }
}
