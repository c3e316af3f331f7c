/** The life of a ULT, as a state machine: creation, scheduling, yielding, the BLOCK-request
    handshake with its scheduler and its waker, migration, termination.  Any number of ULTs, ESs,
    pools and wakers.  One step is one access to a word that others read, one operation of a pool,
    or one context switch. */
module UltProtocol {
  import opened Basics

  type Uid = nat
  type Es = nat
  type Pid = nat
  type Wid = nat

  datatype Life = Ready | Running | Blocked | Terminated

  /** What an ES is doing: looking for work, holding a popped ULT, running one, looking at the
      requests of one that has switched to it, or about to push it to its pool. */
  datatype Cpu = Scheduling | Holding(ult: Uid) | Runs(ult: Uid) | Stopped(ult: Uid) | Pushing(ult: Uid)

  datatype Pc =
    | Active
    | Leaving          // has stored READY or its TERMINATE request, switches next
    | SetState         // ABTI_thread_set_blocked, behind the BLOCK request
    | CountBlocked
    | Publish          // names itself where its waker will look
    | Suspend
    | Suspended

  /** Where a ULT is; recorded for the statements below, the program does not read it. */
  datatype Place = OnEs(es: Es) | InPool(pool: Pid) | Off | Dead

  datatype Ult = Ult(
    pc: Pc,
    life: Life,
    block: bool,           // the BLOCK request
    exits: bool,           // the TERMINATE request
    dest: Option<Pid>,     // the MIGRATE request with its argument
    pool: Pid,
    saved: bool,           // its registers are in its context
    at: Place)

  /** ABTI_thread_set_ready. `home` records the pool that the ULT was pushed to. */
  datatype Waker =
    | Idle | SpinBlock(ult: Uid) | SetReady(ult: Uid) | PushBack(ult: Uid) | DecBlocked(ult: Uid, home: Pid)

  datatype State = State(
    ults: seq<Ult>,
    cpus: seq<Cpu>,
    pools: seq<multiset<Uid>>,
    numBlocked: seq<int>,
    wakers: seq<Waker>,
    published: set<Uid>)

  datatype Act =
    | Create(p: Pid)
    | Ask(u: Uid, p: Pid)                  // a migration request
    | Pop(e: Es, p: Pid, u: Uid)
    | Decide(e: Es)                        // run the popped ULT, or migrate it
    | Yield(e: Es) | Exit(e: Es) | Block(e: Es)
    | Go(e: Es)                            // the ULT of `e` goes on
    | Handle(e: Es)                        // the scheduler looks at the requests
    | Push(e: Es)
    | Take(w: Wid, u: Uid)                 // a waker takes a published ULT
    | Wake(w: Wid)

  ghost predicate Init(s: State)
  {
    && s.ults == [] && s.published == {} && |s.numBlocked| == |s.pools|
    && (forall e :: 0 <= e < |s.cpus| ==> s.cpus[e] == Scheduling)
    && (forall p :: 0 <= p < |s.pools| ==> s.pools[p] == multiset{} && s.numBlocked[p] == 0)
    && (forall w :: 0 <= w < |s.wakers| ==> s.wakers[w] == Idle)
  }

  predicate UltOn(s: State, e: Es)
  {
    && e < |s.cpus| && s.cpus[e] != Scheduling && s.cpus[e].ult < |s.ults|
    && s.ults[s.cpus[e].ult].pool < |s.pools| == |s.numBlocked|
  }

  function UltAt(s: State, e: Es): Ult
    requires UltOn(s, e)
  {
    s.ults[s.cpus[e].ult]
  }

  predicate WakesUlt(s: State, w: Wid)
  {
    && w < |s.wakers| && s.wakers[w] != Idle && s.wakers[w].ult < |s.ults|
    && s.ults[s.wakers[w].ult].pool < |s.pools| == |s.numBlocked|
  }

  predicate Can(s: State, a: Act)
  {
    match a
    case Create(p) => p < |s.pools|
    case Ask(u, p) => u < |s.ults| && p < |s.pools| && s.ults[u].pool != p && s.ults[u].life != Terminated
    case Pop(e, p, u) => e < |s.cpus| && s.cpus[e] == Scheduling && p < |s.pools| && s.pools[p][u] > 0 && u < |s.ults|
    case Decide(e) => UltOn(s, e) && s.cpus[e].Holding?
    case Yield(e) => UltOn(s, e) && s.cpus[e].Runs? && UltAt(s, e).pc == Active
    case Exit(e) => UltOn(s, e) && s.cpus[e].Runs? && UltAt(s, e).pc == Active
    case Block(e) => UltOn(s, e) && s.cpus[e].Runs? && UltAt(s, e).pc == Active
    case Go(e) => UltOn(s, e) && s.cpus[e].Runs? && UltAt(s, e).pc != Active && UltAt(s, e).pc != Suspended
    case Handle(e) => UltOn(s, e) && s.cpus[e].Stopped?
    case Push(e) => UltOn(s, e) && s.cpus[e].Pushing?
    case Take(w, u) => w < |s.wakers| && s.wakers[w] == Idle && u in s.published
    case Wake(w) => WakesUlt(s, w) && (s.wakers[w].SpinBlock? ==> !s.ults[s.wakers[w].ult].block)
  }

  function Put(s: State, u: Uid, x: Ult): State
    requires u < |s.ults|
  {
    s.(ults := s.ults[u := x])
  }

  function Cpu1(s: State, e: Es, c: Cpu): State
    requires e < |s.cpus|
  {
    s.(cpus := s.cpus[e := c])
  }

  /** ULT `u` goes into the pool it belongs to. */
  function Into(s: State, u: Uid, x: Ult): State
    requires u < |s.ults| && x.pool < |s.pools|
  {
    Put(s, u, x.(at := InPool(x.pool))).(pools := s.pools[x.pool := s.pools[x.pool] + multiset{u}])
  }

  /** ABTI_xstream_migrate_thread up to its push: the ULT belongs to the new pool. */
  function Migrated(x: Ult): Ult
    requires x.dest.Some?
  {
    x.(pool := x.dest.value, dest := None)
  }

  function Next(s: State, a: Act): State
    requires Can(s, a)
  {
    match a
    case Create(p) =>
      s.(ults := s.ults + [Ult(Active, Ready, false, false, None, p, true, InPool(p))],
         pools := s.pools[p := s.pools[p] + multiset{|s.ults|}])
    case Ask(u, p) => Put(s, u, s.ults[u].(dest := Some(p)))
    case Pop(e, p, u) =>
      Put(Cpu1(s, e, Holding(u)), u, s.ults[u].(at := OnEs(e))).(pools := s.pools[p := s.pools[p] - multiset{u}])
    case Decide(e) => DecideNext(s, e)
    case Yield(e) => Put(s, s.cpus[e].ult, UltAt(s, e).(pc := Leaving, life := Ready))
    case Exit(e) => Put(s, s.cpus[e].ult, UltAt(s, e).(pc := Leaving, exits := true))
    case Block(e) => Put(s, s.cpus[e].ult, UltAt(s, e).(pc := SetState, block := true))
    case Go(e) => GoNext(s, e)
    case Handle(e) => HandleNext(s, e)
    case Push(e) => Into(Cpu1(s, e, Scheduling), s.cpus[e].ult, UltAt(s, e))
    case Take(w, u) => s.(wakers := s.wakers[w := SpinBlock(u)], published := s.published - {u})
    case Wake(w) => WakeNext(s, w)
  }

  /** ABTI_xstream_schedule_thread up to the context switch. */
  function DecideNext(s: State, e: Es): State
    requires Can(s, Decide(e))
  {
    var u, x := s.cpus[e].ult, UltAt(s, e);
    if x.dest.Some? then Put(Cpu1(s, e, Pushing(u)), u, Migrated(x))
    else Put(Cpu1(s, e, Runs(u)), u, x.(life := Running, saved := false))
  }

  function GoNext(s: State, e: Es): State
    requires Can(s, Go(e))
  {
    var u, x := s.cpus[e].ult, UltAt(s, e);
    match x.pc
    case Leaving => Put(Cpu1(s, e, Stopped(u)), u, x.(pc := Active, saved := true))
    case SetState => Put(s, u, x.(pc := CountBlocked, life := Blocked))
    case CountBlocked => Put(s, u, x.(pc := Publish)).(numBlocked := s.numBlocked[x.pool := s.numBlocked[x.pool] + 1])
    case Publish => Put(s, u, x.(pc := Suspend)).(published := s.published + {u})
    case Suspend => Put(Cpu1(s, e, Stopped(u)), u, x.(pc := Suspended, saved := true))
  }

  /** ABTI_xstream_schedule_thread behind the context switch back. */
  function HandleNext(s: State, e: Es): State
    requires Can(s, Handle(e))
  {
    var u, x := s.cpus[e].ult, UltAt(s, e);
    if x.exits then Put(Cpu1(s, e, Scheduling), u, x.(life := Terminated, at := Dead))
    else if !x.block && x.dest == None then Put(Cpu1(s, e, Pushing(u)), u, x.(life := Ready))
    else if x.block then Put(Cpu1(s, e, Scheduling), u, x.(block := false, at := Off))
    else Put(Cpu1(s, e, Pushing(u)), u, Migrated(x))
  }

  function WakeNext(s: State, w: Wid): State
    requires Can(s, Wake(w))
  {
    var u := s.wakers[w].ult;
    var x := s.ults[u];
    match s.wakers[w]
    case SpinBlock(_) => s.(wakers := s.wakers[w := SetReady(u)])
    case SetReady(_) => Put(s, u, x.(life := Ready)).(wakers := s.wakers[w := PushBack(u)])
    case PushBack(_) => Into(s, u, x.(pc := Active)).(wakers := s.wakers[w := DecBlocked(u, x.pool)])
    case DecBlocked(_, _) =>
      s.(wakers := s.wakers[w := Idle], numBlocked := s.numBlocked[x.pool := s.numBlocked[x.pool] - 1])
  }

  ghost predicate Steps(s: State, s': State)
  {
    exists a :: Can(s, a) && s' == Next(s, a)
  }

  ghost predicate Run(tr: seq<State>)
  {
    && tr != [] && Init(tr[0])
    && forall i :: 0 <= i < |tr| - 1 ==> Steps(tr[i], tr[i + 1])
  }
}
