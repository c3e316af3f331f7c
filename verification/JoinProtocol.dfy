/** ABT_thread_join against the termination of the joined ULT, as a state machine: one target, any
    number of joiners, any number of ESs.  An ES runs its scheduler or one ULT, so a step belongs to
    an ES.  One step is one access to a shared word, or one context switch; `request |= TERMINATE`
    is a read and a write.  The joined ULT is named, so its end stores TERMINATED. */
module JoinProtocol {
  import opened Basics

  type Es = nat

  datatype Ult = Target | Joiner(id: nat)
  datatype Life = Ready | Running | Blocked | Terminated
  datatype Bit = JoinBit | TerminateBit

  /** What an ES is doing: its scheduler looks for work, a ULT runs, or the scheduler has the ULT
      that switched to it and is to look at its requests. */
  datatype Cpu = Scheduling | Runs(ult: Ult) | Stopped(ult: Ult)

  datatype JoinPc =
    | Outside
    | FetchOr             // sets the JOIN bit of the target
    | SetBlockBit         // ABTI_thread_set_blocked: the BLOCK request, then the state
    | SetBlocked
    | SetLink             // the target's p_link
    | Suspend             // switches to the scheduler
    | Suspended
    | Resumed             // back: BLOCKED means that the target jumped here
    | Polling             // yields until the target is TERMINATED
    | Done

  datatype EndPc =
    | Working
    | ReadLink
    | CompareEs
    | SetTerminated       // same ES: TERMINATED, then a jump to the joiner
    | Jump
    | FetchOrBoth         // no link: sets JOIN and TERMINATE at once
    | SpinLink            // waits for the link
    | CheckBlocked(plain: bool)     // ABTI_thread_set_ready on the joiner
    | SpinBlock(plain: bool)        // waits for its BLOCK request to be reset
    | PushJoiner(plain: bool)
    | OrRead              // request |= TERMINATE
    | OrWrite(seen: set<Bit>)
    | SwitchOut
    | Gone

  datatype JoinerUlt = JoinerUlt(pc: JoinPc, life: Life, block: bool, last: Es)
  datatype TargetUlt = TargetUlt(pc: EndPc, life: Life, last: Es)

  /** `claim` records which ULT set the JOIN bit first, `resumed` which joiners the target has
      resumed, by a jump or by a push to the pool; the program reads neither. */
  datatype State = State(
    cpus: seq<Cpu>,
    pool: multiset<Ult>,
    joiners: seq<JoinerUlt>,
    target: TargetUlt,
    request: set<Bit>,
    link: Option<nat>,
    claim: Option<Ult>,
    resumed: seq<nat>)

  /** What a scheduler takes out of a pool, or what a ULT does next of its own. */
  datatype Choice = Pick(ult: Ult) | Yield | CallFlag | CallPoll | Finish | Continue

  ghost predicate Init(s: State)
  {
    && (forall e :: 0 <= e < |s.cpus| ==> s.cpus[e] == Scheduling)
    && (forall j :: 0 <= j < |s.joiners| ==>
          s.joiners[j].pc == Outside && s.joiners[j].life == Ready && !s.joiners[j].block)
    && (forall j: nat :: s.pool[Joiner(j)] == if j < |s.joiners| then 1 else 0)
    && s.pool[Target] == 1
    && s.target.pc == Working && s.target.life == Ready
    && s.request == {} && s.link == None && s.claim == None && s.resumed == []
  }

  predicate Exists(s: State, u: Ult)
  {
    u.Joiner? ==> u.id < |s.joiners|
  }

  function At(s: State, e: Es, c: Cpu): State
    requires e < |s.cpus|
  {
    s.(cpus := s.cpus[e := c])
  }

  function SetJ(s: State, j: nat, x: JoinerUlt): State
    requires j < |s.joiners|
  {
    s.(joiners := s.joiners[j := x])
  }

  /** The scheduler of `e` runs a ULT out of the pool. */
  function Dispatch(s: State, e: Es, u: Ult): State
    requires e < |s.cpus| && Exists(s, u)
  {
    var s1 := At(s, e, Runs(u)).(pool := s.pool - multiset{u});
    match u
    case Target => s1.(target := s.target.(life := Running, last := e))
    case Joiner(j) =>
      var x := s.joiners[j];
      SetJ(s1, j, x.(life := Running, last := e, pc := if x.pc == Suspended then Resumed else x.pc))
  }

  /** The scheduler of `e` looks at the requests of the ULT that has switched to it. */
  function Handle(s: State, e: Es, u: Ult): State
    requires e < |s.cpus| && Exists(s, u)
  {
    var s1 := At(s, e, Scheduling);
    match u
    case Target =>
      if TerminateBit in s.request then s1.(target := s.target.(life := Terminated))
      else s1.(target := s.target.(life := Ready), pool := s.pool + multiset{u})
    case Joiner(j) =>
      if s.joiners[j].block then SetJ(s1, j, s.joiners[j].(block := false))
      else SetJ(s1, j, s.joiners[j].(life := Ready)).(pool := s.pool + multiset{u})
  }

  predicate JoinReady(s: State, j: nat, c: Choice)
  {
    j < |s.joiners| &&
    match s.joiners[j].pc
    case Outside => c.Yield? || c.CallFlag? || c.CallPoll?
    case Done => c.Yield?
    case Suspended => false
    case _ => true
  }

  function JoinNext(s: State, e: Es, j: nat, c: Choice): State
    requires e < |s.cpus| && JoinReady(s, j, c)
  {
    var x := s.joiners[j];
    var away := At(SetJ(s, j, x.(life := Ready)), e, Stopped(Joiner(j)));
    match x.pc
    case Outside =>
      if c.Yield? then away
      else SetJ(s, j, x.(pc := if s.target.life == Terminated then Done else if c.CallFlag? then FetchOr else Polling))
    case FetchOr =>
      if JoinBit in s.request then SetJ(s, j, x.(pc := Polling))
      else SetJ(s, j, x.(pc := SetBlockBit)).(request := s.request + {JoinBit}, claim := Some(Joiner(j)))
    case SetBlockBit => SetJ(s, j, x.(pc := SetBlocked, block := true))
    case SetBlocked => SetJ(s, j, x.(pc := SetLink, life := Blocked))
    case SetLink => SetJ(s, j, x.(pc := Suspend)).(link := Some(j))
    case Suspend => At(SetJ(s, j, x.(pc := Suspended)), e, Stopped(Joiner(j)))
    case Resumed =>
      if x.life == Blocked then SetJ(s, j, x.(pc := Done, life := Running)) else SetJ(s, j, x.(pc := Polling))
    case Polling => if s.target.life == Terminated then SetJ(s, j, x.(pc := Done)) else away
    case Done => away
  }

  predicate EndReady(s: State, c: Choice)
  {
    match s.target.pc
    case Working => c.Yield? || c.Finish?
    case SpinLink => s.link.Some?
    case CompareEs => s.link.Some? && s.link.value < |s.joiners|
    case Jump => s.link.Some? && s.link.value < |s.joiners|
    case CheckBlocked(_) => s.link.Some? && s.link.value < |s.joiners|
    case SpinBlock(_) => s.link.Some? && s.link.value < |s.joiners| && !s.joiners[s.link.value].block
    case PushJoiner(_) => s.link.Some? && s.link.value < |s.joiners|
    case Gone => false
    case _ => true
  }

  function GoT(s: State, p: EndPc): State
  {
    s.(target := s.target.(pc := p))
  }

  function EndNext(s: State, e: Es, c: Choice): State
    requires e < |s.cpus| && EndReady(s, c)
  {
    match s.target.pc
    case Working =>
      if c.Yield? then At(s, e, Stopped(Target)).(target := s.target.(life := Ready)) else GoT(s, ReadLink)
    case ReadLink => GoT(s, if s.link.Some? then CompareEs else FetchOrBoth)
    case CompareEs =>
      GoT(s, if s.target.last == s.joiners[s.link.value].last then SetTerminated else CheckBlocked(true))
    case SetTerminated => s.(target := s.target.(pc := Jump, life := Terminated))
    case Jump =>
      var j := s.link.value;
      At(SetJ(GoT(s, Gone), j, s.joiners[j].(pc := Resumed)), e, Runs(Joiner(j))).(resumed := s.resumed + [j])
    case FetchOrBoth =>
      var s1 := s.(request := s.request + {JoinBit, TerminateBit});
      if JoinBit in s.request then GoT(s1, SpinLink) else GoT(s1, SwitchOut).(claim := Some(Target))
    case SpinLink => GoT(s, CheckBlocked(false))
    case CheckBlocked(plain) =>
      GoT(s, if s.joiners[s.link.value].life == Blocked then SpinBlock(plain) else if plain then OrRead else SwitchOut)
    case SpinBlock(plain) => GoT(s, PushJoiner(plain))
    case PushJoiner(plain) =>
      var j := s.link.value;
      SetJ(GoT(s, if plain then OrRead else SwitchOut), j, s.joiners[j].(life := Ready))
        .(pool := s.pool + multiset{Joiner(j)}, resumed := s.resumed + [j])
    case OrRead => GoT(s, OrWrite(s.request))
    case OrWrite(seen) => GoT(s, SwitchOut).(request := seen + {TerminateBit})
    case SwitchOut => At(GoT(s, Gone), e, Stopped(Target))
  }

  /** One step of the ES `e`. */
  predicate CanStep(s: State, e: Es, c: Choice)
  {
    e < |s.cpus| &&
    match s.cpus[e]
    case Scheduling => c.Pick? && s.pool[c.ult] > 0 && Exists(s, c.ult)
    case Stopped(u) => Exists(s, u)
    case Runs(u) => if u.Joiner? then JoinReady(s, u.id, c) else EndReady(s, c)
  }

  function Next(s: State, e: Es, c: Choice): State
    requires CanStep(s, e, c)
  {
    match s.cpus[e]
    case Scheduling => Dispatch(s, e, c.ult)
    case Stopped(u) => Handle(s, e, u)
    case Runs(u) => if u.Joiner? then JoinNext(s, e, u.id, c) else EndNext(s, e, c)
  }

  ghost predicate Run(tr: seq<State>)
  {
    && tr != [] && Init(tr[0])
    && forall i :: 0 <= i < |tr| - 1 ==> Steps(tr[i], tr[i + 1])
  }

  ghost predicate Steps(s: State, s': State)
  {
    exists e, c :: CanStep(s, e, c) && s' == Next(s, e, c)
  }
}
