/** What every step of the ULT life cycle keeps. */
module UltInvariant {
  import opened UltProtocol

  /** How often ULT `u` is in pool `p`. */
  function Times(s: State, p: Pid, u: Uid): nat
    requires p < |s.pools|
  {
    s.pools[p][u]
  }

  predicate Belongs(s: State, p: Pid, u: Uid)
  {
    u < |s.ults| && s.ults[u].at == InPool(p)
  }

  ghost predicate PoolInv(s: State)
  {
    && |s.pools| == |s.numBlocked|
    && (forall p: Pid, u: Uid :: p < |s.pools| ==> Times(s, p, u) == if Belongs(s, p, u) then 1 else 0)
  }

  ghost predicate CpuInv(s: State)
  {
    forall e :: 0 <= e < |s.cpus| && s.cpus[e] != Scheduling ==>
      s.cpus[e].ult < |s.ults| && s.ults[s.cpus[e].ult].at == OnEs(e)
  }

  /** Asleep: somebody has to wake the ULT, and nobody has made it ready yet. */
  predicate Asleep(x: Ult)
  {
    x.pc == Suspend || x.pc == Suspended
  }

  predicate Wakes(w: Waker, u: Uid)
  {
    w != Idle && !w.DecBlocked? && w.ult == u
  }

  /** A published ULT is asleep and nobody wakes it yet. */
  ghost predicate PublishedInv(s: State)
  {
    forall u :: u in s.published ==> u < |s.ults| && Asleep(s.ults[u]) && s.ults[u].life == Blocked
  }

  /** The ULT that a waker has is asleep and is not published. */
  predicate WakerOk(s: State, w: Waker)
  {
    w != Idle ==>
      && w.ult < |s.ults|
      && (w.DecBlocked? ==> w.home < |s.pools|)
      && (!w.DecBlocked? ==>
            var x := s.ults[w.ult];
            && w.ult !in s.published && Asleep(x)
            && (!w.SpinBlock? ==> x.at == Off)
            && (x.life == if w.PushBack? then Ready else Blocked))
  }

  ghost predicate WakerInv(s: State)
  {
    forall w :: 0 <= w < |s.wakers| ==> WakerOk(s, s.wakers[w])
  }

  /** No ULT has two wakers. */
  ghost predicate OneWaker(s: State)
  {
    forall v, w, u ::
      0 <= v < |s.wakers| && 0 <= w < |s.wakers| && Wakes(s.wakers[v], u) && Wakes(s.wakers[w], u) ==> v == w
  }

  predicate OnCpu(s: State, u: Uid, e: Es)
  {
    e < |s.cpus| && s.cpus[e] != Scheduling && s.cpus[e].ult == u
  }

  /** What holds of ULT `u` by itself. */
  predicate UltInv(s: State, u: Uid)
    requires u < |s.ults|
  {
    var x := s.ults[u];
    && x.pool < |s.pools|
    && (x.dest.Some? ==> x.dest.value < |s.pools|)
    && (x.life == Terminated <==> x.at == Dead)
    && (x.at.InPool? ==> x.at.pool == x.pool)
    && (x.at.OnEs? ==> OnCpu(s, u, x.at.es))
    && (x.saved <==> !(x.at.OnEs? && s.cpus[x.at.es].Runs?))
    && (x.block <==> x.pc == SetState || x.pc == CountBlocked || x.pc == Publish || x.pc == Suspend
                     || (x.pc == Suspended && x.at.OnEs?))
    && (x.exits ==> (x.pc == Leaving && x.at.OnEs?)
                    || (x.pc == Active && (x.at == Dead || (x.at.OnEs? && s.cpus[x.at.es].Stopped?))))
    && (x.pc == CountBlocked || x.pc == Publish ==> x.life == Blocked)
    && (x.pc == Leaving && !x.exits ==> x.life == Ready)
    && (x.pc == Active && x.at.OnEs? && s.cpus[x.at.es].Runs? ==> x.life == Running)
    && (x.pc == Active && !(x.at.OnEs? && s.cpus[x.at.es].Runs?) && !x.exits ==> x.life == Ready)
    && match x.pc
       case Active => x.at != Off
       case Suspended => x.at == Off || (x.at.OnEs? && s.cpus[x.at.es].Stopped?)
       case _ => x.at.OnEs? && s.cpus[x.at.es].Runs?
  }

  /** Who will wake an ULT that is asleep. */
  ghost predicate Attended(s: State, u: Uid)
  {
    u in s.published || exists w :: 0 <= w < |s.wakers| && Wakes(s.wakers[w], u)
  }

  ghost predicate SleepInv(s: State)
  {
    forall u :: 0 <= u < |s.ults| && Asleep(s.ults[u]) ==> Attended(s, u)
  }

  ghost predicate Inv(s: State)
  {
    && PoolInv(s) && CpuInv(s) && PublishedInv(s) && WakerInv(s) && OneWaker(s) && SleepInv(s)
    && (forall u :: 0 <= u < |s.ults| ==> UltInv(s, u))
  }

  lemma InitKeeps(s: State)
    requires Init(s)
    ensures Inv(s)
  {
  }

  /** Only ULT `u` and the ES `e` move. */
  ghost predicate Apart(s: State, s': State, u: Uid, e: Es)
  {
    && u < |s.ults| == |s'.ults| && s'.ults == s.ults[u := s'.ults[u]]
    && |s'.pools| == |s.pools| && |s'.cpus| == |s.cpus|
    && (s'.cpus == s.cpus || (e < |s.cpus| && s'.cpus == s.cpus[e := s'.cpus[e]]
                              && (s.cpus[e] == Scheduling || s.cpus[e].ult == u)
                              && (s'.cpus[e] == Scheduling || s'.cpus[e].ult == u)))
  }

  lemma ApartKeeps(s: State, s': State, u: Uid, e: Es)
    requires Apart(s, s', u, e) && (forall v :: 0 <= v < |s.ults| ==> UltInv(s, v)) && UltInv(s', u)
    requires CpuInv(s)
    ensures forall v :: 0 <= v < |s'.ults| ==> UltInv(s', v)
  {
    forall v | 0 <= v < |s'.ults| ensures UltInv(s', v) {
      if v != u { assert UltInv(s, v); }
    }
  }

  /** The ULT that the action is about. */
  function Subject(s: State, a: Act): Uid
    requires Can(s, a) && !a.Create?
  {
    match a
    case Ask(u, p) => u
    case Pop(e, p, u) => u
    case Take(w, u) => u
    case Wake(w) => s.wakers[w].ult
    case Decide(e) => s.cpus[e].ult
    case Yield(e) => s.cpus[e].ult
    case Exit(e) => s.cpus[e].ult
    case Block(e) => s.cpus[e].ult
    case Go(e) => s.cpus[e].ult
    case Handle(e) => s.cpus[e].ult
    case Push(e) => s.cpus[e].ult
  }

  function EsOf(a: Act): Es
  {
    match a
    case Pop(e, _, _) => e
    case Decide(e) => e
    case Yield(e) => e
    case Exit(e) => e
    case Block(e) => e
    case Go(e) => e
    case Handle(e) => e
    case Push(e) => e
    case _ => 0
  }

  /** What is known at the start of a step about the ULT that it moves. */
  ghost predicate Here(s: State, a: Act)
    requires Can(s, a)
  {
    a.Create? ||
    var u := Subject(s, a);
    && u < |s.ults| && UltInv(s, u)
    && (a.Pop? ==> s.ults[u].at == InPool(a.p))
    && (EsAct(a) ==> s.ults[u].at == OnEs(EsOf(a)))
    && (a.Wake? && Wakes(s.wakers[a.w], u) ==>
          && Asleep(s.ults[u])
          && (!s.wakers[a.w].SpinBlock? ==> s.ults[u].at == Off)
          && s.ults[u].life == if s.wakers[a.w].PushBack? then Ready else Blocked)
  }

  predicate EsAct(a: Act)
  {
    a.Decide? || a.Yield? || a.Exit? || a.Block? || a.Go? || a.Handle? || a.Push?
  }

  lemma IsHere(s: State, a: Act)
    requires Inv(s) && Can(s, a)
    ensures Here(s, a)
  {
    if a.Pop? { assert Times(s, a.p, a.u) > 0; }
    if !a.Create? { assert UltInv(s, Subject(s, a)); }
  }

  /** A step that puts a ULT into a pool or takes one out. */
  predicate MovesPools(a: Act)
  {
    a.Create? || a.Pop? || a.Push? || a.Wake?
  }

  lemma PoolTakes(s: State, a: Act, p: Pid, u: Uid)
    requires PoolInv(s) && Can(s, a) && Here(s, a) && p < |s.pools| && (a.Create? || a.Pop?)
    ensures |Next(s, a).pools| == |s.pools| && Times(Next(s, a), p, u) == if Belongs(Next(s, a), p, u) then 1 else 0
  {
    hide UltInv;
    assert Times(s, p, u) == if Belongs(s, p, u) then 1 else 0;
  }

  lemma PoolGains(s: State, a: Act, p: Pid, u: Uid)
    requires PoolInv(s) && Can(s, a) && Here(s, a) && p < |s.pools| && (a.Push? || a.Wake?)
    ensures |Next(s, a).pools| == |s.pools| && Times(Next(s, a), p, u) == if Belongs(Next(s, a), p, u) then 1 else 0
  {
    hide UltInv;
    assert Times(s, p, u) == if Belongs(s, p, u) then 1 else 0;
  }

  lemma PoolStays(s: State, a: Act, p: Pid, u: Uid)
    requires Can(s, a) && Here(s, a) && p < |s.pools| && !MovesPools(a)
    ensures Next(s, a).pools == s.pools && (Belongs(Next(s, a), p, u) <==> Belongs(s, p, u))
  {
    hide UltInv;
  }

  lemma StepPool(s: State, a: Act, p: Pid, u: Uid)
    requires PoolInv(s) && Can(s, a) && Here(s, a) && p < |s.pools|
    ensures |Next(s, a).pools| == |s.pools| && Times(Next(s, a), p, u) == if Belongs(Next(s, a), p, u) then 1 else 0
  {
    hide Here, Can, Next, Belongs;
    if a.Create? || a.Pop? {
      PoolTakes(s, a, p, u);
    } else if a.Push? || a.Wake? {
      PoolGains(s, a, p, u);
    } else {
      PoolStays(s, a, p, u);
      assert Times(s, p, u) == if Belongs(s, p, u) then 1 else 0;
    }
  }

  lemma StepPools(s: State, a: Act)
    requires PoolInv(s) && Can(s, a) && Here(s, a)
    ensures PoolInv(Next(s, a))
  {
    forall p: Pid, u: Uid | p < |Next(s, a).pools|
      ensures Times(Next(s, a), p, u) == if Belongs(Next(s, a), p, u) then 1 else 0
    {
      StepPool(s, a, p, u);
    }
  }

  /** The ULT of the ES stays there, or the ES goes back to its scheduler's search. */
  lemma EsMoves(s: State, a: Act)
    requires Can(s, a) && Here(s, a) && EsAct(a)
    ensures var s', u, e := Next(s, a), Subject(s, a), EsOf(a);
            && u < |s.ults| && s'.ults == s.ults[u := s'.ults[u]]
            && e < |s.cpus| && s'.cpus == s.cpus[e := s'.cpus[e]] && s.ults[u].at == OnEs(e)
            && (s'.cpus[e] != Scheduling ==> s'.cpus[e].ult == u && s'.ults[u].at == OnEs(e))
  {
    hide UltInv;
  }

  lemma EsCpus(s: State, a: Act)
    requires CpuInv(s) && Can(s, a) && Here(s, a) && EsAct(a)
    ensures CpuInv(Next(s, a))
  {
    hide Here, Can, Next, Subject, EsOf, EsAct;
    EsMoves(s, a);
  }

  lemma OtherCpus(s: State, a: Act)
    requires CpuInv(s) && Can(s, a) && Here(s, a) && !EsAct(a)
    ensures CpuInv(Next(s, a))
  {
  }

  lemma StepCpus(s: State, a: Act)
    requires CpuInv(s) && Can(s, a) && Here(s, a)
    ensures CpuInv(Next(s, a))
  {
    hide CpuInv, Can, Here, Next;
    if EsAct(a) { EsCpus(s, a); } else { OtherCpus(s, a); }
  }

  lemma WakePublished(s: State, a: Act)
    requires PublishedInv(s) && WakerInv(s) && Can(s, a) && a.Wake?
    ensures PublishedInv(Next(s, a))
  {
    assert WakerOk(s, s.wakers[a.w]);
  }

  lemma OtherPublished(s: State, a: Act)
    requires PublishedInv(s) && Can(s, a) && Here(s, a) && !a.Wake?
    ensures PublishedInv(Next(s, a))
  {
  }

  lemma StepPublished(s: State, a: Act)
    requires PublishedInv(s) && WakerInv(s) && Can(s, a) && Here(s, a)
    ensures PublishedInv(Next(s, a))
  {
    hide PublishedInv, WakerInv, Can, Here, Next;
    if a.Wake? { WakePublished(s, a); } else { OtherPublished(s, a); }
  }

  /** A step of another waker. */
  lemma OtherWakerStep(s: State, a: Act, w: Wid)
    requires w < |s.wakers| && WakerOk(s, s.wakers[w]) && OneWaker(s) && |s.pools| == |s.numBlocked|
    requires Can(s, a) && Here(s, a) && a.Wake? && a.w != w
    ensures |Next(s, a).wakers| == |s.wakers| && WakerOk(Next(s, a), Next(s, a).wakers[w])
  {
    hide UltInv;
    if s.wakers[w] != Idle && s.wakers[w].ult == s.wakers[a.w].ult {
      assert !Wakes(s.wakers[w], s.wakers[w].ult) || !Wakes(s.wakers[a.w], s.wakers[w].ult);
    }
  }

  lemma OwnWakerStep(s: State, a: Act, w: Wid)
    requires w < |s.wakers| && WakerOk(s, s.wakers[w]) && |s.pools| == |s.numBlocked|
    requires Can(s, a) && Here(s, a) && a.Wake? && a.w == w
    ensures |Next(s, a).wakers| == |s.wakers| && WakerOk(Next(s, a), Next(s, a).wakers[w])
  {
  }

  lemma TakeStep(s: State, a: Act, w: Wid)
    requires w < |s.wakers| && WakerOk(s, s.wakers[w]) && PublishedInv(s) && Can(s, a) && a.Take?
    ensures |Next(s, a).wakers| == |s.wakers| && WakerOk(Next(s, a), Next(s, a).wakers[w])
  {
  }

  lemma GoStep(s: State, a: Act, w: Wid)
    requires w < |s.wakers| && WakerOk(s, s.wakers[w]) && Can(s, a) && Here(s, a) && (a.Go? || a.Handle?)
    ensures |Next(s, a).wakers| == |s.wakers| && WakerOk(Next(s, a), Next(s, a).wakers[w])
  {
  }

  lemma EsStep(s: State, a: Act, w: Wid)
    requires w < |s.wakers| && WakerOk(s, s.wakers[w]) && Can(s, a) && Here(s, a)
    requires !a.Wake? && !a.Take? && !a.Go? && !a.Handle?
    ensures |Next(s, a).wakers| == |s.wakers| && WakerOk(Next(s, a), Next(s, a).wakers[w])
  {
  }

  lemma StepWaker(s: State, a: Act, w: Wid)
    requires PublishedInv(s) && WakerInv(s) && OneWaker(s) && Can(s, a) && Here(s, a)
    requires |s.pools| == |s.numBlocked| && w < |s.wakers|
    ensures |Next(s, a).wakers| == |s.wakers| && WakerOk(Next(s, a), Next(s, a).wakers[w])
  {
    hide PublishedInv, OneWaker, Can, Here, Next, WakerOk;
    assert WakerOk(s, s.wakers[w]);
    if a.Take? {
      TakeStep(s, a, w);
    } else if a.Go? || a.Handle? {
      GoStep(s, a, w);
    } else if !a.Wake? {
      EsStep(s, a, w);
    } else if a.w == w {
      OwnWakerStep(s, a, w);
    } else {
      OtherWakerStep(s, a, w);
    }
  }

  lemma StepWakers(s: State, a: Act)
    requires PublishedInv(s) && WakerInv(s) && OneWaker(s) && Can(s, a) && Here(s, a) && |s.pools| == |s.numBlocked|
    ensures WakerInv(Next(s, a))
  {
    hide WakerOk, Here;
    forall w | 0 <= w < |Next(s, a).wakers| ensures WakerOk(Next(s, a), Next(s, a).wakers[w]) {
      assert |Next(s, a).wakers| == |s.wakers|;
      StepWaker(s, a, w);
    }
  }

  lemma StepOneWaker(s: State, a: Act)
    requires WakerInv(s) && OneWaker(s) && Can(s, a) && Here(s, a)
    ensures OneWaker(Next(s, a))
  {
    if a.Take? {
      forall v | 0 <= v < |s.wakers| ensures !Wakes(s.wakers[v], a.u) { assert WakerOk(s, s.wakers[v]); }
    }
  }

  lemma SleeperStays(s: State, a: Act, v: Uid)
    requires Can(s, a) && Here(s, a) && v < |Next(s, a).ults| && Asleep(Next(s, a).ults[v])
    ensures v in Next(s, a).published || (v < |s.ults| && Asleep(s.ults[v]))
    ensures v in s.published && v !in Next(s, a).published ==> a == Take(if a.Take? then a.w else 0, v)
  {
  }

  lemma WakersStay(s: State, a: Act, v: Uid, w: Wid)
    requires Can(s, a) && Here(s, a) && w < |s.wakers| && Wakes(s.wakers[w], v)
    requires v < |Next(s, a).ults| && Asleep(Next(s, a).ults[v])
    ensures w < |Next(s, a).wakers| && Wakes(Next(s, a).wakers[w], v)
  {
    hide UltInv;
  }

  lemma StepSleep(s: State, a: Act)
    requires SleepInv(s) && Can(s, a) && Here(s, a)
    ensures SleepInv(Next(s, a))
  {
    hide Here, Asleep;
    var s' := Next(s, a);
    forall v | 0 <= v < |s'.ults| && Asleep(s'.ults[v]) ensures Attended(s', v) {
      SleeperStays(s, a, v);
      if a.Take? && a.u == v {
        assert Wakes(s'.wakers[a.w], v);
      } else if v !in s'.published {
        assert Attended(s, v);
        var w :| 0 <= w < |s.wakers| && Wakes(s.wakers[w], v);
        WakersStay(s, a, v, w);
      }
    }
  }

  lemma CallSubject(s: State, a: Act)
    requires Can(s, a) && Here(s, a) && |s.pools| == |s.numBlocked|
    requires a.Ask? || a.Pop? || a.Yield? || a.Exit? || a.Block? || a.Push? || a.Take?
    ensures Subject(s, a) < |Next(s, a).ults| && UltInv(Next(s, a), Subject(s, a))
  {
  }

  lemma GoSubject(s: State, a: Act)
    requires Can(s, a) && Here(s, a) && |s.pools| == |s.numBlocked| && a.Go?
    ensures Subject(s, a) < |Next(s, a).ults| && UltInv(Next(s, a), Subject(s, a))
  {
  }

  lemma SchedulerSubject(s: State, a: Act)
    requires Can(s, a) && Here(s, a) && |s.pools| == |s.numBlocked| && (a.Decide? || a.Handle?)
    ensures Subject(s, a) < |Next(s, a).ults| && UltInv(Next(s, a), Subject(s, a))
  {
  }

  lemma WakeSubject(s: State, a: Act)
    requires Can(s, a) && Here(s, a) && |s.pools| == |s.numBlocked| && a.Wake?
    ensures Subject(s, a) < |Next(s, a).ults| && UltInv(Next(s, a), Subject(s, a))
  {
  }

  lemma StepSubject(s: State, a: Act)
    requires Can(s, a) && !a.Create? && Here(s, a) && |s.pools| == |s.numBlocked|
    ensures Subject(s, a) < |Next(s, a).ults| && UltInv(Next(s, a), Subject(s, a))
  {
    hide Can, Here, Next, Subject, UltInv;
    if a.Go? {
      GoSubject(s, a);
    } else if a.Decide? || a.Handle? {
      SchedulerSubject(s, a);
    } else if a.Wake? {
      WakeSubject(s, a);
    } else {
      CallSubject(s, a);
    }
  }

  lemma StepOthers(s: State, a: Act)
    requires Can(s, a) && Here(s, a) && CpuInv(s) && |s.pools| == |s.numBlocked|
    requires forall v :: 0 <= v < |s.ults| ==> UltInv(s, v)
    ensures forall v :: 0 <= v < |Next(s, a).ults| ==> UltInv(Next(s, a), v)
  {
    if a.Create? {
      var s' := Next(s, a);
      forall v | 0 <= v < |s'.ults| ensures UltInv(s', v) {
        if v < |s.ults| { assert UltInv(s, v); }
      }
    } else {
      StepSubject(s, a);
      StepApart(s, a);
      ApartKeeps(s, Next(s, a), Subject(s, a), EsOf(a));
    }
  }

  lemma StepApart(s: State, a: Act)
    requires Can(s, a) && !a.Create? && Here(s, a) && |s.pools| == |s.numBlocked|
    ensures Apart(s, Next(s, a), Subject(s, a), EsOf(a))
  {
  }

  lemma StepKeeps(s: State, a: Act)
    requires Inv(s) && Can(s, a)
    ensures Inv(Next(s, a))
  {
    hide PoolInv, CpuInv, PublishedInv, WakerOk, OneWaker, SleepInv, UltInv, Can, Here;
    IsHere(s, a);
    assert |s.pools| == |s.numBlocked| by { PoolsMatch(s); }
    StepPools(s, a);
    StepCpus(s, a);
    StepPublished(s, a);
    StepWakers(s, a);
    StepOneWaker(s, a);
    StepSleep(s, a);
    StepOthers(s, a);
  }

  lemma PoolsMatch(s: State)
    requires PoolInv(s)
    ensures |s.pools| == |s.numBlocked|
  {
  }
}
