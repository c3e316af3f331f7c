/** What the operations on a ULT amount to when nothing else happens in between, and that a ULT which has
    asked to terminate does so, in every run. */
module UltAlone {
  import opened Basics
  import opened UltProtocol
  import opened UltInvariant
  import opened UltTheorems

  /** The actions, one after the other, lead from `s` to `s'`. */
  ghost predicate Leads(s: State, acts: seq<Act>, s': State)
    decreases |acts|
  {
    if acts == [] then s' == s
    else
      var n := |acts| - 1;
      exists m :: Leads(s, acts[..n], m) && Can(m, acts[n]) && s' == Next(m, acts[n])
  }

  lemma First(s: State, a: Act, s': State)
    requires Can(s, a) && s' == Next(s, a)
    ensures Leads(s, [a], s')
  {
    hide Can, Next;
    assert Leads(s, [a][..0], s);
  }

  lemma More(s: State, acts: seq<Act>, m: State, a: Act, s': State)
    requires Leads(s, acts, m) && Can(m, a) && s' == Next(m, a)
    ensures Leads(s, acts + [a], s')
  {
    assert (acts + [a])[..|acts|] == acts;
  }

  /** The start, for any number of ESs, pools and wakers. */
  lemma Starts(ess: nat, pools: nat, wakers: nat)
    ensures Init(State([], seq(ess, i => Scheduling), seq(pools, i => multiset{}), seq(pools, i => 0),
                       seq(wakers, i => Idle), {}))
  {
  }

  predicate Sized(s: State, u: Uid)
  {
    u < |s.ults| && s.ults[u].pool < |s.pools| == |s.numBlocked|
  }

  /** ULT `u` runs on `e`. */
  predicate RunsOn(s: State, e: Es, u: Uid)
  {
    Sized(s, u) && e < |s.cpus| && s.cpus[e] == Runs(u) && s.ults[u].pc == Active
  }

  /** ULT `u`, now `x`, is in the pool it belongs to, ready to be run, and `e` looks for work. */
  function Back(s: State, e: Es, u: Uid, x: Ult): State
    requires u < |s.ults| && e < |s.cpus| && x.pool < |s.pools|
  {
    s.(ults := s.ults[u := x.(at := InPool(x.pool))], cpus := s.cpus[e := Scheduling],
       pools := s.pools[x.pool := s.pools[x.pool] + multiset{u}])
  }

  /** A new ULT is ready in the pool it was created for. */
  lemma Creates(s: State, p: Pid)
    requires p < |s.pools|
    ensures Leads(s, [Create(p)], s.(ults := s.ults + [Ult(Active, Ready, false, false, None, p, true, InPool(p))],
                                     pools := s.pools[p := s.pools[p] + multiset{|s.ults|}]))
  {
    First(s, Create(p), Next(s, Create(p)));
  }

  /** A ULT that a scheduler takes out of its pool runs, if nobody has asked for its migration; else it
      goes to the pool that was asked for, without running, and the request is spent. */
  lemma Schedules(s: State, e: Es, p: Pid, u: Uid)
    requires Sized(s, u) && e < |s.cpus| && s.cpus[e] == Scheduling && p < |s.pools| && s.pools[p][u] > 0
    requires s.ults[u].dest.Some? ==> s.ults[u].dest.value < |s.pools|
    ensures var x, out := s.ults[u], s.(pools := s.pools[p := s.pools[p] - multiset{u}]);
            if x.dest == None then
              Leads(s, [Pop(e, p, u), Decide(e)],
                    out.(ults := s.ults[u := x.(life := Running, saved := false, at := OnEs(e))],
                         cpus := s.cpus[e := Runs(u)]))
            else
              Leads(s, [Pop(e, p, u), Decide(e), Push(e)], Back(out, e, u, x.(pool := x.dest.value, dest := None)))
  {
    hide Leads, GoNext, HandleNext, WakeNext;
    var x, out := s.ults[u], s.(pools := s.pools[p := s.pools[p] - multiset{u}]);
    var s1 := out.(ults := s.ults[u := x.(at := OnEs(e))], cpus := s.cpus[e := Holding(u)]);
    First(s, Pop(e, p, u), s1);
    if x.dest == None {
      var s2 := out.(ults := s.ults[u := x.(life := Running, saved := false, at := OnEs(e))],
                     cpus := s.cpus[e := Runs(u)]);
      More(s, [Pop(e, p, u)], s1, Decide(e), s2);
      assert [Pop(e, p, u)] + [Decide(e)] == [Pop(e, p, u), Decide(e)];
    } else {
      var y := x.(pool := x.dest.value, dest := None);
      var s2 := out.(ults := s.ults[u := y.(at := OnEs(e))], cpus := s.cpus[e := Pushing(u)]);
      More(s, [Pop(e, p, u)], s1, Decide(e), s2);
      More(s, [Pop(e, p, u)] + [Decide(e)], s2, Push(e), Back(out, e, u, y));
      assert [Pop(e, p, u)] + [Decide(e)] + [Push(e)] == [Pop(e, p, u), Decide(e), Push(e)];
    }
  }

  lemma Leaves(s: State, e: Es, u: Uid)
    requires RunsOn(s, e, u)
    ensures Leads(s, [Yield(e), Go(e)],
                  s.(ults := s.ults[u := s.ults[u].(life := Ready, saved := true)], cpus := s.cpus[e := Stopped(u)]))
  {
    hide Leads, DecideNext, HandleNext, WakeNext;
    var s1 := s.(ults := s.ults[u := s.ults[u].(pc := Leaving, life := Ready)]);
    First(s, Yield(e), s1);
    var s2 := s.(ults := s.ults[u := s.ults[u].(life := Ready, saved := true)], cpus := s.cpus[e := Stopped(u)]);
    More(s, [Yield(e)], s1, Go(e), s2);
    assert [Yield(e)] + [Go(e)] == [Yield(e), Go(e)];
  }

  /** A ULT that yields is back in its pool, or in the pool that its migration was asked for. */
  lemma Yields(s: State, e: Es, u: Uid)
    requires RunsOn(s, e, u) && !s.ults[u].exits && !s.ults[u].block
    requires s.ults[u].dest.Some? ==> s.ults[u].dest.value < |s.pools|
    ensures var x := s.ults[u];
            var y := if x.dest == None then x else x.(pool := x.dest.value, dest := None);
            Leads(s, [Yield(e), Go(e), Handle(e), Push(e)], Back(s, e, u, y.(life := Ready, saved := true)))
  {
    hide Leads, DecideNext, GoNext, WakeNext;
    var x := s.ults[u].(life := Ready, saved := true);
    var y := if x.dest == None then x else x.(pool := x.dest.value, dest := None);
    Leaves(s, e, u);
    var s2 := s.(ults := s.ults[u := x], cpus := s.cpus[e := Stopped(u)]);
    var s3 := s.(ults := s.ults[u := y], cpus := s.cpus[e := Pushing(u)]);
    More(s, [Yield(e), Go(e)], s2, Handle(e), s3);
    More(s, [Yield(e), Go(e)] + [Handle(e)], s3, Push(e), Back(s, e, u, y));
    assert [Yield(e), Go(e)] + [Handle(e)] + [Push(e)] == [Yield(e), Go(e), Handle(e), Push(e)];
  }

  /** A ULT that returns from its function is TERMINATED when its scheduler has looked at it, whatever
      other request it has. */
  lemma Exits(s: State, e: Es, u: Uid)
    requires RunsOn(s, e, u)
    ensures Leads(s, [Exit(e), Go(e), Handle(e)],
                  s.(ults := s.ults[u := s.ults[u].(life := Terminated, exits := true, saved := true, at := Dead)],
                     cpus := s.cpus[e := Scheduling]))
  {
    hide Leads, DecideNext, WakeNext;
    var x := s.ults[u].(exits := true);
    var s1 := s.(ults := s.ults[u := x.(pc := Leaving)]);
    First(s, Exit(e), s1);
    var s2 := s.(ults := s.ults[u := x.(saved := true)], cpus := s.cpus[e := Stopped(u)]);
    More(s, [Exit(e)], s1, Go(e), s2);
    var s3 := s.(ults := s.ults[u := x.(life := Terminated, saved := true, at := Dead)],
                 cpus := s.cpus[e := Scheduling]);
    More(s, [Exit(e)] + [Go(e)], s2, Handle(e), s3);
    assert [Exit(e)] + [Go(e)] + [Handle(e)] == [Exit(e), Go(e), Handle(e)];
  }

  lemma SetsBlocked(s: State, e: Es, u: Uid)
    requires RunsOn(s, e, u)
    ensures Leads(s, [Block(e), Go(e)],
                  s.(ults := s.ults[u := s.ults[u].(pc := CountBlocked, life := Blocked, block := true)]))
  {
    hide Leads, DecideNext, HandleNext, WakeNext;
    var x := s.ults[u].(block := true);
    var s1 := s.(ults := s.ults[u := x.(pc := SetState)]);
    First(s, Block(e), s1);
    var s2 := s.(ults := s.ults[u := x.(pc := CountBlocked, life := Blocked)]);
    More(s, [Block(e)], s1, Go(e), s2);
    assert [Block(e)] + [Go(e)] == [Block(e), Go(e)];
  }

  lemma Publishes(s: State, m: State, e: Es, u: Uid, acts: seq<Act>)
    requires Leads(s, acts, m) && Sized(m, u) && e < |m.cpus| && m.cpus[e] == Runs(u) && m.ults[u].pc == CountBlocked
    ensures var p := m.ults[u].pool;
            Leads(s, acts + [Go(e)] + [Go(e)],
                  m.(ults := m.ults[u := m.ults[u].(pc := Suspend)], published := m.published + {u},
                     numBlocked := m.numBlocked[p := m.numBlocked[p] + 1]))
  {
    hide Leads, DecideNext, WakeNext;
    var x, p := m.ults[u], m.ults[u].pool;
    var s3 := m.(ults := m.ults[u := x.(pc := Publish)], numBlocked := m.numBlocked[p := m.numBlocked[p] + 1]);
    More(s, acts, m, Go(e), s3);
    var s4 := s3.(ults := m.ults[u := x.(pc := Suspend)], published := m.published + {u});
    More(s, acts + [Go(e)], s3, Go(e), s4);
  }

  lemma FallsAsleep(s: State, m: State, e: Es, u: Uid, acts: seq<Act>)
    requires Leads(s, acts, m) && Sized(m, u) && e < |m.cpus| && m.cpus[e] == Runs(u)
    requires m.ults[u].pc == Suspend && m.ults[u].block && !m.ults[u].exits
    ensures Leads(s, acts + [Go(e)] + [Handle(e)],
                  m.(ults := m.ults[u := m.ults[u].(pc := Suspended, block := false, saved := true, at := Off)],
                     cpus := m.cpus[e := Scheduling]))
  {
    hide Leads, DecideNext, WakeNext;
    var x := m.ults[u].(pc := Suspended, saved := true);
    var s5 := m.(ults := m.ults[u := x], cpus := m.cpus[e := Stopped(u)]);
    More(s, acts, m, Go(e), s5);
    More(s, acts + [Go(e)], s5, Handle(e), m.(ults := m.ults[u := x.(block := false, at := Off)],
                                             cpus := m.cpus[e := Scheduling]));
  }

  /** A ULT that blocks is counted by its pool, can be found by its waker, and is nowhere else; a
      migration request has to wait until it runs again. */
  lemma Blocks(s: State, e: Es, u: Uid)
    requires RunsOn(s, e, u) && !s.ults[u].exits
    ensures var x, p := s.ults[u], s.ults[u].pool;
            Leads(s, [Block(e), Go(e), Go(e), Go(e), Go(e), Handle(e)],
                  s.(ults := s.ults[u := x.(pc := Suspended, life := Blocked, block := false, saved := true,
                                            at := Off)],
                     cpus := s.cpus[e := Scheduling], numBlocked := s.numBlocked[p := s.numBlocked[p] + 1],
                     published := s.published + {u}))
  {
    hide Leads, Can, Next;
    var x, p := s.ults[u], s.ults[u].pool;
    SetsBlocked(s, e, u);
    var m1 := s.(ults := s.ults[u := x.(pc := CountBlocked, life := Blocked, block := true)]);
    Publishes(s, m1, e, u, [Block(e), Go(e)]);
    var m := s.(ults := s.ults[u := x.(pc := Suspend, life := Blocked, block := true)],
                numBlocked := s.numBlocked[p := s.numBlocked[p] + 1], published := s.published + {u});
    assert m == m1.(ults := m1.ults[u := m1.ults[u].(pc := Suspend)], published := m.published,
                    numBlocked := m.numBlocked);
    FallsAsleep(s, m, e, u, [Block(e), Go(e)] + [Go(e)] + [Go(e)]);
    assert s.(ults := s.ults[u := x.(pc := Suspended, life := Blocked, block := false, saved := true, at := Off)],
              cpus := s.cpus[e := Scheduling], numBlocked := m.numBlocked, published := m.published)
           == m.(ults := m.ults[u := m.ults[u].(pc := Suspended, block := false, saved := true, at := Off)],
                 cpus := m.cpus[e := Scheduling]);
    assert [Block(e), Go(e)] + [Go(e)] + [Go(e)] + [Go(e)] + [Handle(e)]
           == [Block(e), Go(e), Go(e), Go(e), Go(e), Handle(e)];
  }

  /** A waker brings a ULT that sleeps back to the pool it belongs to, ready to be run, and the pool counts
      one blocked ULT less. */
  lemma WakesUp(s: State, w: Wid, u: Uid)
    requires Sized(s, u) && w < |s.wakers| && s.wakers[w] == Idle && u in s.published && !s.ults[u].block
    ensures var x, p := s.ults[u], s.ults[u].pool;
            Leads(s, [Take(w, u), Wake(w), Wake(w), Wake(w), Wake(w)],
                  s.(ults := s.ults[u := x.(pc := Active, life := Ready, at := InPool(p))],
                     pools := s.pools[p := s.pools[p] + multiset{u}],
                     numBlocked := s.numBlocked[p := s.numBlocked[p] - 1], published := s.published - {u}))
  {
    hide Leads, DecideNext, GoNext, HandleNext;
    var x, p := s.ults[u].(life := Ready), s.ults[u].pool;
    var s1 := s.(wakers := s.wakers[w := SpinBlock(u)], published := s.published - {u});
    First(s, Take(w, u), s1);
    var s2 := s1.(wakers := s.wakers[w := SetReady(u)]);
    More(s, [Take(w, u)], s1, Wake(w), s2);
    var s3 := s1.(wakers := s.wakers[w := PushBack(u)], ults := s.ults[u := x]);
    More(s, [Take(w, u)] + [Wake(w)], s2, Wake(w), s3);
    var s4 := s1.(wakers := s.wakers[w := DecBlocked(u, p)], ults := s.ults[u := x.(pc := Active, at := InPool(p))],
                  pools := s.pools[p := s.pools[p] + multiset{u}]);
    More(s, [Take(w, u)] + [Wake(w)] + [Wake(w)], s3, Wake(w), s4);
    var s5 := s4.(wakers := s.wakers, numBlocked := s.numBlocked[p := s.numBlocked[p] - 1]);
    More(s, [Take(w, u)] + [Wake(w)] + [Wake(w)] + [Wake(w)], s4, Wake(w), s5);
    assert [Take(w, u)] + [Wake(w)] + [Wake(w)] + [Wake(w)] + [Wake(w)]
           == [Take(w, u), Wake(w), Wake(w), Wake(w), Wake(w)];
  }

  // ---- termination, in every run ----

  /** ULT `u` has asked to terminate: it is about to leave its ES, or is looked at by the scheduler there,
      or is TERMINATED. */
  ghost predicate Ending(s: State, u: Uid)
  {
    && u < |s.ults| && s.ults[u].exits && !InPools(s, u)
    && (forall w :: 0 <= w < |s.wakers| ==> !Wakes(s.wakers[w], u)) && u !in s.published
    && (forall e: Es :: OnCpu(s, u, e) ==> (s.cpus[e].Runs? && s.ults[u].pc == Leaving) || s.cpus[e].Stopped?)
    && (s.ults[u].life == Terminated <==> forall e: Es :: !OnCpu(s, u, e))
  }

  lemma AskedIsEnding(s: State, u: Uid)
    requires Inv(s) && u < |s.ults| && s.ults[u].exits
    ensures Ending(s, u)
  {
    assert UltInv(s, u);
    forall p | 0 <= p < |s.pools| ensures s.pools[p][u] == 0 { assert Times(s, p, u) == 0; }
    forall w | 0 <= w < |s.wakers| ensures !Wakes(s.wakers[w], u) { assert WakerOk(s, s.wakers[w]); }
  }

  /** No step takes the request back, or brings a TERMINATED ULT back to life. */
  lemma StepEnds(s: State, a: Act, u: Uid)
    requires Inv(s) && Can(s, a) && u < |s.ults| && s.ults[u].exits
    ensures u < |Next(s, a).ults| && Next(s, a).ults[u].exits
    ensures s.ults[u].life == Terminated ==> Next(s, a).ults[u].life == Terminated
  {
    hide PoolInv, CpuInv, PublishedInv, WakerInv, OneWaker, SleepInv;
    IsHere(s, a);
    assert UltInv(s, u);
  }

  /** In every run: a ULT that has asked to terminate never takes that back, is in no pool from then on,
      is not woken by anybody, runs no further than to its scheduler, and is TERMINATED once it is on no
      ES; and then it is TERMINATED for good. */
  lemma {:induction false} TerminationIsFinal(tr: seq<State>, i: nat, k: nat, u: Uid)
    requires Run(tr) && i <= k < |tr| && u < |tr[i].ults| && tr[i].ults[u].exits
    ensures Ending(tr[k], u)
    ensures tr[i].ults[u].life == Terminated ==> tr[k].ults[u].life == Terminated
    decreases k
  {
    hide Inv, Next, Can, Ending, Run;
    if k > i {
      TerminationIsFinal(tr, i, k - 1, u);
      assert Ending(tr[k - 1], u);
      OneStep(tr, k - 1, u);
    }
    RunKeeps(tr, k);
    AskedIsEnding(tr[k], u);
  }

  lemma OneStep(tr: seq<State>, k: nat, u: Uid)
    requires Run(tr) && k + 1 < |tr| && Ending(tr[k], u)
    ensures u < |tr[k].ults| && u < |tr[k + 1].ults| && tr[k + 1].ults[u].exits
    ensures tr[k].ults[u].life == Terminated ==> tr[k + 1].ults[u].life == Terminated
  {
    hide Inv, Next, Can;
    RunKeeps(tr, k);
    assert Steps(tr[k], tr[k + 1]);
    var a :| Can(tr[k], a) && tr[k + 1] == Next(tr[k], a);
    StepEnds(tr[k], a, u);
  }

  /** The ES that a terminating ULT is on needs at most two more steps of its own, which are always
      possible, to make it TERMINATED. */
  lemma AlmostThere(tr: seq<State>, i: nat, u: Uid, e: Es)
    requires Run(tr) && i < |tr| && u < |tr[i].ults| && tr[i].ults[u].exits && OnCpu(tr[i], u, e)
    ensures var s := tr[i];
            if s.cpus[e].Runs? then
              Can(s, Go(e)) && e < |Next(s, Go(e)).cpus| && Next(s, Go(e)).cpus[e] == Stopped(u)
            else
              && Can(s, Handle(e)) && Next(s, Handle(e)).cpus == s.cpus[e := Scheduling]
              && u < |Next(s, Handle(e)).ults| && Next(s, Handle(e)).ults[u].life == Terminated
  {
    RunKeeps(tr, i);
    AskedIsEnding(tr[i], u);
    assert UltInv(tr[i], u);
  }
}
