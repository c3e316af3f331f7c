/** What the join handshake keeps, and what follows for every run. */
module JoinTheorems {
  import opened Basics
  import opened JoinProtocol

  // ---- where the ULTs are ----

  predicate On(s: State, e: Es, u: Ult)
  {
    e < |s.cpus| && (s.cpus[e] == Runs(u) || s.cpus[e] == Stopped(u))
  }

  function Last(s: State, u: Ult): Es
    requires Exists(s, u)
  {
    if u.Target? then s.target.last else s.joiners[u.id].last
  }

  /** No ULT is on two ESs, or on one and in the pool, or in the pool twice. */
  ghost predicate PlaceInv(s: State)
  {
    && (forall e :: 0 <= e < |s.cpus| && s.cpus[e] != Scheduling ==>
          var u := s.cpus[e].ult; Exists(s, u) && Last(s, u) == e && s.pool[u] == 0)
    && (forall u :: s.pool[u] > 0 ==> Exists(s, u) && s.pool[u] == 1)
  }

  predicate Somewhere(s: State, u: Ult)
    requires Exists(s, u)
  {
    s.pool[u] > 0 || On(s, Last(s, u), u)
  }

  predicate RunsNow(s: State, u: Ult)
    requires Exists(s, u)
  {
    Last(s, u) < |s.cpus| && s.cpus[Last(s, u)] == Runs(u)
  }

  // ---- the handshake ----

  /** The target has not resumed a joiner yet. */
  predicate Pending(p: EndPc)
  {
    !p.OrRead? && !p.OrWrite? && !p.SwitchOut? && !p.Gone?
  }

  ghost predicate ClaimInv(s: State)
  {
    && (s.claim == None <==> JoinBit !in s.request)
    && (s.link.Some? ==> s.claim == Some(Joiner(s.link.value)))
    && match s.claim
       case None => s.resumed == [] && (s.target.pc.Working? || s.target.pc.ReadLink? || s.target.pc.FetchOrBoth?)
       case Some(Target) => s.resumed == [] && (s.target.pc.SwitchOut? || s.target.pc.Gone?)
       case Some(Joiner(j)) =>
         && j < |s.joiners|
         && s.resumed == (if Pending(s.target.pc) then [] else [j])
         && (!Pending(s.target.pc) ==> s.link.Some?)
         && var p := s.joiners[j].pc;
            if s.link == None then p.SetBlockBit? || p.SetBlocked? || p.SetLink?
            else if Pending(s.target.pc) then p.Suspend? || p.Suspended?
            else p.Suspended? || p.Resumed? || p.Polling? || p.Done?
  }

  function Plain(p: EndPc): Option<bool>
  {
    match p
    case CheckBlocked(plain) => Some(plain)
    case SpinBlock(plain) => Some(plain)
    case PushJoiner(plain) => Some(plain)
    case _ => None
  }

  predicate NeedsLink(p: EndPc)
  {
    p.CompareEs? || p.SetTerminated? || p.Jump? || Plain(p).Some? || p.OrRead? || p.OrWrite?
  }

  ghost predicate TargetInv(s: State)
  {
    var p := s.target.pc;
    && (p.Working? || p.ReadLink? || p.FetchOrBoth? ==> TerminateBit !in s.request)
    && (p.SwitchOut? || p.SpinLink? || Plain(p) == Some(false) ==> TerminateBit in s.request)
    && (NeedsLink(p) ==> s.link.Some?)
    && (p.SpinLink? ==> s.claim != None && s.claim.value.Joiner?)
    && (p.OrWrite? ==> JoinBit in p.seen)
    && (s.target.life == Terminated <==> p.Jump? || (p.Gone? && !On(s, s.target.last, Target)))
    && (if p.Working? then Somewhere(s, Target)
        else if p.Gone? then
          && s.pool[Target] == 0 && !RunsNow(s, Target)
          && (On(s, s.target.last, Target) ==> TerminateBit in s.request)
        else RunsNow(s, Target))
  }

  ghost predicate JoinerInv(s: State, j: nat)
    requires j < |s.joiners|
  {
    var x := s.joiners[j];
    match x.pc
    case Outside => Somewhere(s, Joiner(j)) && !x.block && x.life != Blocked
    case Polling => Somewhere(s, Joiner(j)) && !x.block && x.life != Blocked
    case Done => Somewhere(s, Joiner(j)) && !x.block && x.life != Blocked && s.target.life == Terminated
    case FetchOr => RunsNow(s, Joiner(j)) && !x.block && x.life != Blocked
    case Suspended =>
      && s.claim == Some(Joiner(j)) && s.link == Some(j)
      && (x.block ==> On(s, x.last, Joiner(j)) && x.life == Blocked)
      && (On(s, x.last, Joiner(j)) ==> x.block && s.cpus[x.last] == Stopped(Joiner(j)))
      && (s.pool[Joiner(j)] > 0 <==> s.resumed == [j])
      && (x.life == Blocked <==> s.resumed == [])
    case Resumed =>
      && RunsNow(s, Joiner(j)) && !x.block && s.claim == Some(Joiner(j)) && s.resumed == [j]
      && (x.life == Blocked ==> s.target.life == Terminated)
    case _ =>
      && RunsNow(s, Joiner(j)) && s.claim == Some(Joiner(j)) && s.resumed == []
      && (x.block <==> x.pc != SetBlockBit)
      && (x.life == Blocked <==> x.pc == SetLink || x.pc == Suspend)
      && (s.link.Some? <==> x.pc == Suspend)
  }

  /** A direct jump goes to a joiner that was last on the target's own ES and has left it. */
  predicate JumpInv(s: State)
  {
    (s.target.pc.SetTerminated? || s.target.pc.Jump?) && s.link.Some? && s.link.value < |s.joiners| ==>
      s.joiners[s.link.value].last == s.target.last
  }

  /** The joiner is blocked once the target goes to make it ready. */
  predicate ReadyInv(s: State)
  {
    (s.target.pc.SpinBlock? || s.target.pc.PushJoiner?) && s.link.Some? && s.link.value < |s.joiners| ==>
      && s.joiners[s.link.value].life == Blocked
      && (s.target.pc.PushJoiner? ==> s.joiners[s.link.value].pc == Suspended && !s.joiners[s.link.value].block)
  }

  ghost predicate Inv(s: State)
  {
    && PlaceInv(s) && ClaimInv(s) && TargetInv(s) && JumpInv(s) && ReadyInv(s)
    && (forall j :: 0 <= j < |s.joiners| ==> JoinerInv(s, j))
  }

  lemma InitKeeps(s: State)
    requires Init(s)
    ensures Inv(s)
  {
    forall u | s.pool[u] > 0 ensures Exists(s, u) && s.pool[u] == 1 {
      match u
      case Target =>
      case Joiner(j) =>
    }
  }

  // ---- what a step leaves alone ----

  /** The ES `e` moves on, and joiner `k` has nothing to do with it. */
  ghost predicate Apart(s: State, s': State, e: Es, k: nat)
  {
    && e < |s.cpus| == |s'.cpus| && s'.cpus == s.cpus[e := s'.cpus[e]]
    && k < |s.joiners| == |s'.joiners| && s'.joiners[k] == s.joiners[k]
    && s'.pool[Joiner(k)] == s.pool[Joiner(k)]
    && !On(s, e, Joiner(k)) && !On(s', e, Joiner(k))
    && (s.claim == Some(Joiner(k)) ==> s'.claim == s.claim && s'.link == s.link && s'.resumed == s.resumed)
    && (s.target.life == Terminated ==> s'.target.life == Terminated)
  }

  lemma ApartKeeps(s: State, s': State, e: Es, k: nat)
    requires Apart(s, s', e, k) && JoinerInv(s, k)
    ensures JoinerInv(s', k)
  {
  }

  /** The invariant of the claimer, if a joiner claimed. */
  ghost predicate Claimer(s: State)
  {
    s.claim != None && s.claim.value.Joiner? && s.claim.value.id < |s.joiners| ==> JoinerInv(s, s.claim.value.id)
  }

  // ---- the four kinds of steps ----

  /** The scheduler of `e` runs `u`. */
  predicate Dispatches(s: State, s': State, e: Es, u: Ult)
  {
    e < |s.cpus| && s.cpus[e] == Scheduling && s.pool[u] > 0 && Exists(s, u) && s' == Dispatch(s, e, u)
  }

  /** The scheduler of `e` looks at the requests of `u`. */
  predicate Handles(s: State, s': State, e: Es, u: Ult)
  {
    e < |s.cpus| && s.cpus[e] == Stopped(u) && Exists(s, u) && s' == Handle(s, e, u)
  }

  predicate Joins(s: State, s': State, e: Es, j: nat, c: Choice)
  {
    e < |s.cpus| && s.cpus[e] == Runs(Joiner(j)) && JoinReady(s, j, c) && s' == JoinNext(s, e, j, c)
  }

  predicate Ends(s: State, s': State, e: Es, c: Choice)
  {
    e < |s.cpus| && s.cpus[e] == Runs(Target) && EndReady(s, c) && s' == EndNext(s, e, c)
  }

  // ---- every step, part by part ----

  /** What the invariant says about the ULT `u`, and about the handshake. */
  ghost predicate Local(s: State, u: Ult)
  {
    && Exists(s, u) && s.pool[u] <= 1
    && (s.pool[u] > 0 ==> !On(s, Last(s, u), u))
    && ClaimInv(s) && TargetInv(s) && JumpInv(s) && ReadyInv(s) && Claimer(s)
    && (u.Joiner? ==> JoinerInv(s, u.id))
  }

  lemma InvLocal(s: State, u: Ult)
    requires Inv(s) && Exists(s, u)
    ensures Local(s, u)
  {
    hide ClaimInv, TargetInv, JumpInv, ReadyInv, JoinerInv;
  }

  /** A ULT that is on an ES is on the one it was put on last, and in no pool. */
  lemma InvAt(s: State, e: Es)
    requires PlaceInv(s) && e < |s.cpus| && s.cpus[e] != Scheduling
    ensures Exists(s, s.cpus[e].ult) && Last(s, s.cpus[e].ult) == e && s.pool[s.cpus[e].ult] == 0
  {
  }

  lemma InvPlace(s: State)
    requires Inv(s)
    ensures PlaceInv(s)
  {
  }

  lemma DispatchPlace(s: State, s': State, e: Es, u: Ult)
    requires PlaceInv(s) && Dispatches(s, s', e, u)
    ensures PlaceInv(s')
  {
  }

  lemma DispatchClaim(s: State, s': State, e: Es, u: Ult)
    requires Local(s, u) && Dispatches(s, s', e, u)
    ensures ClaimInv(s')
  {
    hide TargetInv, JumpInv, ReadyInv;
  }

  lemma DispatchTarget(s: State, s': State, e: Es, u: Ult)
    requires Local(s, u) && Dispatches(s, s', e, u)
    ensures TargetInv(s')
  {
    hide JumpInv, ReadyInv;
  }

  lemma DispatchResume(s: State, s': State, e: Es, u: Ult)
    requires Local(s, u) && Dispatches(s, s', e, u)
    ensures JumpInv(s') && ReadyInv(s')
  {
  }

  lemma DispatchOwn(s: State, s': State, e: Es, u: Ult)
    requires Local(s, u) && Dispatches(s, s', e, u) && u.Joiner?
    ensures JoinerInv(s', u.id)
  {
    hide JumpInv, ReadyInv;
  }

  lemma DispatchApart(s: State, s': State, e: Es, u: Ult, k: nat)
    requires Local(s, u) && Dispatches(s, s', e, u) && k < |s.joiners| && u != Joiner(k)
    ensures Apart(s, s', e, k)
  {
    hide JumpInv, ReadyInv, ClaimInv, JoinerInv;
  }

  lemma DispatchKeeps(s: State, s': State, e: Es, u: Ult)
    requires Inv(s) && Dispatches(s, s', e, u)
    ensures Inv(s')
  {
    hide JoinerInv, PlaceInv, ClaimInv, TargetInv, JumpInv, ReadyInv, Local, Apart;
    InvLocal(s, u);
    DispatchPlace(s, s', e, u);
    DispatchClaim(s, s', e, u);
    DispatchTarget(s, s', e, u);
    DispatchResume(s, s', e, u);
    forall k | 0 <= k < |s'.joiners| ensures JoinerInv(s', k) {
      if u == Joiner(k) {
        DispatchOwn(s, s', e, u);
      } else {
        DispatchApart(s, s', e, u, k);
        ApartKeeps(s, s', e, k);
      }
    }
  }

  lemma HandlePlace(s: State, s': State, e: Es, u: Ult)
    requires PlaceInv(s) && Handles(s, s', e, u)
    ensures PlaceInv(s')
  {
    InvAt(s, e);
  }

  lemma HandleClaim(s: State, s': State, e: Es, u: Ult)
    requires Local(s, u) && Handles(s, s', e, u)
    ensures ClaimInv(s')
  {
    hide TargetInv, JumpInv, ReadyInv;
  }

  lemma HandleTarget(s: State, s': State, e: Es, u: Ult)
    requires Local(s, u) && Handles(s, s', e, u) && Last(s, u) == e && s.pool[u] == 0
    ensures TargetInv(s')
  {
    hide JumpInv, ReadyInv, Claimer;
  }

  lemma HandleResume(s: State, s': State, e: Es, u: Ult)
    requires Local(s, u) && Handles(s, s', e, u) && Last(s, u) == e && s.pool[u] == 0
    ensures JumpInv(s') && ReadyInv(s')
  {
  }

  lemma HandleOwn(s: State, s': State, e: Es, u: Ult)
    requires Local(s, u) && Handles(s, s', e, u) && Last(s, u) == e && s.pool[u] == 0 && u.Joiner?
    ensures JoinerInv(s', u.id)
  {
    hide JumpInv, ReadyInv;
  }

  lemma HandleApart(s: State, s': State, e: Es, u: Ult, k: nat)
    requires TargetInv(s) && Handles(s, s', e, u) && Last(s, u) == e && k < |s.joiners| && u != Joiner(k)
    ensures Apart(s, s', e, k)
  {
  }

  lemma HandleKeeps(s: State, s': State, e: Es, u: Ult)
    requires Inv(s) && Handles(s, s', e, u)
    ensures Inv(s')
  {
    hide JoinerInv, PlaceInv, ClaimInv, TargetInv, JumpInv, ReadyInv, Local, Apart;
    InvLocal(s, u);
    InvAt(s, e);
    HandlePlace(s, s', e, u);
    HandleClaim(s, s', e, u);
    HandleTarget(s, s', e, u);
    HandleResume(s, s', e, u);
    forall k | 0 <= k < |s'.joiners| ensures JoinerInv(s', k) {
      if u == Joiner(k) {
        HandleOwn(s, s', e, u);
      } else {
        HandleApart(s, s', e, u, k);
        ApartKeeps(s, s', e, k);
      }
    }
  }

  /** What a step of joiner `j` may change. */
  predicate JoinShape(s: State, s': State, e: Es, j: nat)
  {
    && e < |s.cpus| && j < |s.joiners|
    && (s'.cpus == s.cpus || s'.cpus == s.cpus[e := Stopped(Joiner(j))])
    && |s'.joiners| == |s.joiners| && s'.joiners == s.joiners[j := s'.joiners[j]]
    && s'.joiners[j].last == s.joiners[j].last
    && (s.joiners[j].pc.Suspend? ==> s'.joiners[j].life == s.joiners[j].life)
    && s' == s.(cpus := s'.cpus, joiners := s'.joiners, request := s'.request, link := s'.link, claim := s'.claim)
    && (s'.request == s.request || s'.request == s.request + {JoinBit})
    && (s'.claim == s.claim
        || (s.joiners[j].pc.FetchOr? && JoinBit !in s.request && s'.claim == Some(Joiner(j))))
    && (s'.link == s.link || (s.joiners[j].pc.SetLink? && s'.link == Some(j)))
  }

  lemma JoinHasShape(s: State, s': State, e: Es, j: nat, c: Choice)
    requires Joins(s, s', e, j, c)
    ensures JoinShape(s, s', e, j)
  {
  }

  lemma JoinPlace(s: State, s': State, e: Es, j: nat)
    requires PlaceInv(s) && e < |s.cpus| && s.cpus[e] == Runs(Joiner(j)) && JoinShape(s, s', e, j)
    ensures PlaceInv(s')
  {
    InvAt(s, e);
  }

  /** From the fetch_or that it won to its switch to the scheduler. */
  predicate Blocking(p: JoinPc)
  {
    p.SetBlockBit? || p.SetBlocked? || p.SetLink? || p.Suspend?
  }

  lemma BlockingClaim(s: State, s': State, e: Es, j: nat, c: Choice)
    requires Local(s, Joiner(j)) && Joins(s, s', e, j, c) && Blocking(s.joiners[j].pc)
    ensures ClaimInv(s')
  {
    hide TargetInv, JumpInv, ReadyInv, Claimer;
  }

  lemma OtherClaim(s: State, s': State, e: Es, j: nat, c: Choice)
    requires Local(s, Joiner(j)) && Joins(s, s', e, j, c) && !Blocking(s.joiners[j].pc)
    ensures ClaimInv(s')
  {
    hide TargetInv, JumpInv, ReadyInv, Claimer, Somewhere;
  }

  lemma JoinTarget(s: State, s': State, e: Es, j: nat, c: Choice)
    requires Local(s, Joiner(j)) && Joins(s, s', e, j, c) && Last(s, Joiner(j)) == e && JoinShape(s, s', e, j)
    ensures TargetInv(s')
  {
    hide JumpInv, ReadyInv, JoinNext, JoinReady;
  }

  lemma JoinResume(s: State, s': State, e: Es, j: nat, c: Choice)
    requires Local(s, Joiner(j)) && Joins(s, s', e, j, c) && JoinShape(s, s', e, j)
    ensures JumpInv(s') && ReadyInv(s')
  {
    hide JoinNext;
  }

  lemma BlockingOwn(s: State, s': State, e: Es, j: nat, c: Choice)
    requires Local(s, Joiner(j)) && Joins(s, s', e, j, c) && Blocking(s.joiners[j].pc)
    requires Last(s, Joiner(j)) == e && s.pool[Joiner(j)] == 0
    ensures JoinerInv(s', j)
  {
    hide JumpInv, ReadyInv, TargetInv, Claimer;
  }

  lemma OtherOwn(s: State, s': State, e: Es, j: nat, c: Choice)
    requires Local(s, Joiner(j)) && Joins(s, s', e, j, c) && !Blocking(s.joiners[j].pc)
    requires Last(s, Joiner(j)) == e && s.pool[Joiner(j)] == 0
    ensures JoinerInv(s', j)
  {
    hide JumpInv, ReadyInv, TargetInv, Claimer;
  }

  lemma JoinOwn(s: State, s': State, e: Es, j: nat, c: Choice)
    requires Local(s, Joiner(j)) && Joins(s, s', e, j, c)
    requires Last(s, Joiner(j)) == e && s.pool[Joiner(j)] == 0
    ensures ClaimInv(s') && JoinerInv(s', j)
  {
    hide JoinerInv, ClaimInv, TargetInv, JumpInv, ReadyInv, Claimer, JoinNext;
    if Blocking(s.joiners[j].pc) {
      BlockingClaim(s, s', e, j, c);
      BlockingOwn(s, s', e, j, c);
    } else {
      OtherClaim(s, s', e, j, c);
      OtherOwn(s, s', e, j, c);
    }
  }

  lemma JoinApart(s: State, s': State, e: Es, j: nat, c: Choice, k: nat)
    requires Local(s, Joiner(j)) && Joins(s, s', e, j, c) && k < |s.joiners| && j != k && JoinerInv(s, k)
    ensures Apart(s, s', e, k)
  {
    hide TargetInv, JumpInv, ReadyInv;
  }

  lemma JoinKeeps(s: State, s': State, e: Es, j: nat, c: Choice)
    requires Inv(s) && Joins(s, s', e, j, c)
    ensures Inv(s')
  {
    hide JoinerInv, PlaceInv, ClaimInv, TargetInv, JumpInv, ReadyInv, Local, Apart, JoinNext, JoinReady;
    InvAt(s, e);
    InvLocal(s, Joiner(j));
    JoinHasShape(s, s', e, j, c);
    JoinPlace(s, s', e, j);
    JoinOwn(s, s', e, j, c);
    JoinTarget(s, s', e, j, c);
    JoinResume(s, s', e, j, c);
    forall k | 0 <= k < |s'.joiners| ensures JoinerInv(s', k) {
      if k != j {
        JoinApart(s, s', e, j, c, k);
        ApartKeeps(s, s', e, k);
      }
    }
  }

  /** The resumption of joiner `k`, by a jump or by a push. */
  predicate Resumes(s: State, s': State, e: Es, c: Choice, k: nat)
  {
    Ends(s, s', e, c) && (s.target.pc.Jump? || s.target.pc.PushJoiner?) && s.link == Some(k)
  }

  lemma ResumePlace(s: State, s': State, e: Es, c: Choice, k: nat)
    requires PlaceInv(s) && Local(s, Target) && Resumes(s, s', e, c, k)
    ensures PlaceInv(s')
  {
    hide TargetInv;
    InvAt(s, e);
  }

  lemma PassPlace(s: State, s': State, e: Es, c: Choice)
    requires PlaceInv(s) && Ends(s, s', e, c) && !s.target.pc.Jump? && !s.target.pc.PushJoiner?
    ensures PlaceInv(s')
  {
    InvAt(s, e);
  }

  lemma ResumeClaim(s: State, s': State, e: Es, c: Choice, k: nat)
    requires Local(s, Target) && Resumes(s, s', e, c, k)
    ensures ClaimInv(s')
  {
    hide TargetInv;
  }

  /** The target has yet to find the link, or to give up on it. */
  predicate Early(p: EndPc)
  {
    p.Working? || p.ReadLink? || p.CompareEs? || p.FetchOrBoth? || p.SpinLink?
  }

  lemma EarlyClaim(s: State, s': State, e: Es, c: Choice)
    requires Local(s, Target) && Ends(s, s', e, c) && Early(s.target.pc)
    ensures ClaimInv(s')
  {
    hide JumpInv, ReadyInv, JoinerInv, Claimer;
  }

  lemma LateClaim(s: State, s': State, e: Es, c: Choice)
    requires Local(s, Target) && Ends(s, s', e, c) && !s.target.pc.Jump? && !s.target.pc.PushJoiner?
    requires !Early(s.target.pc)
    ensures ClaimInv(s')
  {
    hide JumpInv, ReadyInv;
  }

  lemma ResumeTarget(s: State, s': State, e: Es, c: Choice, k: nat)
    requires Local(s, Target) && Resumes(s, s', e, c, k) && s.target.last == e && s.pool[Target] == 0
    ensures TargetInv(s') && JumpInv(s') && ReadyInv(s')
  {
    hide JoinerInv;
  }

  lemma EarlyTarget(s: State, s': State, e: Es, c: Choice)
    requires Local(s, Target) && Ends(s, s', e, c) && Early(s.target.pc)
    requires s.target.last == e && s.pool[Target] == 0
    ensures TargetInv(s')
  {
    hide JoinerInv, JumpInv, ReadyInv, Claimer;
  }

  lemma LateTarget(s: State, s': State, e: Es, c: Choice)
    requires Local(s, Target) && Ends(s, s', e, c) && !s.target.pc.Jump? && !s.target.pc.PushJoiner?
    requires !Early(s.target.pc) && s.target.last == e && s.pool[Target] == 0
    ensures TargetInv(s')
  {
    hide JoinerInv, JumpInv, ReadyInv, Claimer;
  }

  lemma PassReady(s: State, s': State, e: Es, c: Choice)
    requires Local(s, Target) && Ends(s, s', e, c) && !s.target.pc.Jump? && !s.target.pc.PushJoiner?
    ensures JumpInv(s') && ReadyInv(s')
  {
  }

  lemma ResumeOwn(s: State, s': State, e: Es, c: Choice, k: nat)
    requires Local(s, Target) && Resumes(s, s', e, c, k) && s.target.last == e
    ensures JoinerInv(s', k)
  {
  }

  lemma PassOwn(s: State, s': State, e: Es, c: Choice, k: nat)
    requires Local(s, Target) && Ends(s, s', e, c) && !s.target.pc.Jump? && !s.target.pc.PushJoiner?
    requires s.link == Some(k)
    ensures JoinerInv(s', k)
  {
    hide JumpInv, ReadyInv;
  }

  lemma ResumeApart(s: State, s': State, e: Es, c: Choice, j: nat, k: nat)
    requires Local(s, Target) && Resumes(s, s', e, c, j) && k < |s.joiners| && j != k
    ensures Apart(s, s', e, k)
  {
    hide JumpInv, ReadyInv, JoinerInv, Claimer, Somewhere;
  }

  lemma PassApart(s: State, s': State, e: Es, c: Choice, k: nat)
    requires Local(s, Target) && Ends(s, s', e, c) && !s.target.pc.Jump? && !s.target.pc.PushJoiner?
    requires k < |s.joiners| && s.link != Some(k)
    ensures Apart(s, s', e, k)
  {
    hide JumpInv, ReadyInv, JoinerInv, Claimer, Somewhere;
  }

  lemma ResumeKeeps(s: State, s': State, e: Es, c: Choice, k: nat)
    requires Inv(s) && Resumes(s, s', e, c, k)
    ensures PlaceInv(s') && ClaimInv(s') && TargetInv(s') && JumpInv(s') && ReadyInv(s') && JoinerInv(s', k)
  {
    hide JoinerInv, PlaceInv, ClaimInv, TargetInv, JumpInv, ReadyInv, Local, EndNext, EndReady;
    InvAt(s, e);
    InvLocal(s, Target);
    ResumePlace(s, s', e, c, k);
    ResumeClaim(s, s', e, c, k);
    ResumeTarget(s, s', e, c, k);
    ResumeOwn(s, s', e, c, k);
  }

  lemma PassKeeps(s: State, s': State, e: Es, c: Choice)
    requires Inv(s) && Ends(s, s', e, c) && !s.target.pc.Jump? && !s.target.pc.PushJoiner?
    ensures PlaceInv(s') && ClaimInv(s') && TargetInv(s') && JumpInv(s') && ReadyInv(s')
    ensures s.link.Some? ==> JoinerInv(s', s.link.value)
  {
    hide JoinerInv, PlaceInv, ClaimInv, TargetInv, JumpInv, ReadyInv, Local, EndNext, EndReady;
    InvAt(s, e);
    InvLocal(s, Target);
    PassPlace(s, s', e, c);
    if Early(s.target.pc) {
      EarlyClaim(s, s', e, c);
      EarlyTarget(s, s', e, c);
    } else {
      LateClaim(s, s', e, c);
      LateTarget(s, s', e, c);
    }
    PassReady(s, s', e, c);
    if s.link.Some? { PassOwn(s, s', e, c, s.link.value); }
  }

  lemma EndKeeps(s: State, s': State, e: Es, c: Choice)
    requires Inv(s) && Ends(s, s', e, c)
    ensures Inv(s')
  {
    hide JoinerInv, PlaceInv, ClaimInv, TargetInv, JumpInv, ReadyInv, Local, Apart, EndNext;
    InvLocal(s, Target);
    EndKeepsNumber(s, s', e, c);
    if s.target.pc.Jump? || s.target.pc.PushJoiner? {
      ResumeKeeps(s, s', e, c, s.link.value);
    } else {
      PassKeeps(s, s', e, c);
    }
    forall k | 0 <= k < |s'.joiners| ensures JoinerInv(s', k) {
      if s.link != Some(k) {
        if s.target.pc.Jump? || s.target.pc.PushJoiner? {
          ResumeApart(s, s', e, c, s.link.value, k);
        } else {
          PassApart(s, s', e, c, k);
        }
        ApartKeeps(s, s', e, k);
      }
    }
  }

  lemma EndKeepsNumber(s: State, s': State, e: Es, c: Choice)
    requires Ends(s, s', e, c)
    ensures |s'.joiners| == |s.joiners|
  {
  }

  lemma StepKeeps(s: State, e: Es, c: Choice)
    requires Inv(s) && CanStep(s, e, c)
    ensures Inv(Next(s, e, c))
  {
    hide Inv, Dispatch, Handle, JoinNext, EndNext, JoinReady, EndReady;
    var s' := Next(s, e, c);
    match s.cpus[e]
    case Scheduling => DispatchKeeps(s, s', e, c.ult);
    case Stopped(u) => HandleKeeps(s, s', e, u);
    case Runs(u) => if u.Joiner? { JoinKeeps(s, s', e, u.id, c); } else { EndKeeps(s, s', e, c); }
  }

  lemma {:induction false} RunKeeps(tr: seq<State>, i: nat)
    requires Run(tr) && i < |tr|
    ensures Inv(tr[i])
  {
    hide Inv, Next;
    if i == 0 {
      InitKeeps(tr[0]);
    } else {
      RunKeeps(tr, i - 1);
      assert Steps(tr[i - 1], tr[i - 1 + 1]);
      var e, c :| CanStep(tr[i - 1], e, c) && tr[i] == Next(tr[i - 1], e, c);
      StepKeeps(tr[i - 1], e, c);
    }
  }

  // ---- who blocks, and who is resumed ----

  /** On the blocking path of join, from the fetch_or that it won to its resumption. */
  predicate Blocks(s: State, j: nat)
  {
    j < |s.joiners| && var p := s.joiners[j].pc; !p.Outside? && !p.FetchOr? && !p.Polling? && !p.Done?
  }

  /** At most one joiner blocks: the one that set the JOIN bit first; the target resumes nobody else,
      and nobody twice; join returns only when the target is TERMINATED; and a joiner that is done
      with the blocking path was resumed. */
  lemma AtMostOneBlocks(tr: seq<State>, i: nat)
    requires Run(tr) && i < |tr|
    ensures forall j :: Blocks(tr[i], j) ==> tr[i].claim == Some(Joiner(j))
    ensures forall j, k :: Blocks(tr[i], j) && Blocks(tr[i], k) ==> j == k
    ensures || tr[i].resumed == []
            || (tr[i].claim != None && tr[i].claim.value.Joiner? && tr[i].resumed == [tr[i].claim.value.id])
    ensures forall j :: 0 <= j < |tr[i].joiners| && tr[i].joiners[j].pc.Done? ==> tr[i].target.life == Terminated
  {
    RunKeeps(tr, i);
    forall j | Blocks(tr[i], j) ensures tr[i].claim == Some(Joiner(j)) { assert JoinerInv(tr[i], j); }
    forall j | 0 <= j < |tr[i].joiners| && tr[i].joiners[j].pc.Done? ensures tr[i].target.life == Terminated {
      assert JoinerInv(tr[i], j);
    }
  }

  /** The claim, what has been resumed, and the end of the target are never taken back. */
  predicate Later(s: State, s': State)
  {
    s'.claim == s.claim && s.resumed <= s'.resumed && (s.target.life == Terminated ==> s'.target.life == Terminated)
  }

  lemma JoinStays(s: State, e: Es, j: nat, c: Choice)
    requires ClaimInv(s) && e < |s.cpus| && JoinReady(s, j, c) && s.claim != None
    ensures Later(s, JoinNext(s, e, j, c))
  {
  }

  lemma EndStays(s: State, e: Es, c: Choice)
    requires ClaimInv(s) && TargetInv(s) && On(s, s.target.last, Target) && e < |s.cpus| && EndReady(s, c)
    requires s.claim != None
    ensures Later(s, EndNext(s, e, c))
  {
  }

  lemma ClaimStays(s: State, e: Es, c: Choice)
    requires Inv(s) && CanStep(s, e, c) && s.claim != None
    ensures Later(s, Next(s, e, c))
  {
    hide JoinerInv, JoinNext, EndNext;
    match s.cpus[e]
    case Scheduling => assert c.ult == Target ==> s.pool[Target] > 0;
    case Stopped(u) => assert u == Target ==> On(s, e, Target);
    case Runs(u) => if u.Joiner? { JoinStays(s, e, u.id, c); } else { assert On(s, e, Target); EndStays(s, e, c); }
  }

  lemma {:induction false} ClaimIsFinal(tr: seq<State>, i: nat, k: nat)
    requires Run(tr) && i <= k < |tr| && tr[i].claim != None
    ensures tr[k].claim == tr[i].claim && tr[i].resumed <= tr[k].resumed
  {
    hide Inv, Next, CanStep;
    if i < k {
      ClaimIsFinal(tr, i, k - 1);
      RunKeeps(tr, k - 1);
      assert Steps(tr[k - 1], tr[k - 1 + 1]);
      var e, c :| CanStep(tr[k - 1], e, c) && tr[k] == Next(tr[k - 1], e, c);
      ClaimStays(tr[k - 1], e, c);
    }
  }

  /** Once the terminating target has claimed the JOIN bit, no joiner blocks, then or ever after. */
  lemma NobodyBlocksAfterTheTargetClaims(tr: seq<State>, i: nat, k: nat, j: nat)
    requires Run(tr) && i <= k < |tr| && tr[i].claim == Some(Target)
    ensures !Blocks(tr[k], j)
  {
    ClaimIsFinal(tr, i, k);
    AtMostOneBlocks(tr, k);
  }

  /** Whenever the target resumes a joiner, by a push or by a jump, that joiner is switched out with
      its context saved, in no pool and on no ES, BLOCKED with its BLOCK request reset, and has not
      been resumed before; a jump stays on the joiner's own ES. */
  lemma ResumptionIsSafe(tr: seq<State>, i: nat, e: Es, c: Choice)
    requires Run(tr) && i < |tr| && CanStep(tr[i], e, c) && Next(tr[i], e, c).resumed != tr[i].resumed
    ensures var s := tr[i];
            && s.resumed == [] && s.link.Some? && s.link.value < |s.joiners|
            && Next(s, e, c).resumed == [s.link.value]
            && var x := s.joiners[s.link.value];
               && x.pc == Suspended && x.life == Blocked && !x.block && s.claim == Some(Joiner(s.link.value))
               && s.pool[Joiner(s.link.value)] == 0 && (forall d: Es :: !On(s, d, Joiner(s.link.value)))
               && (s.target.pc.Jump? ==> x.last == e)
  {
    hide Inv, ClaimInv, TargetInv, JumpInv, ReadyInv, JoinerInv, EndReady, On;
    RunKeeps(tr, i);
    var s := tr[i];
    InvPlace(s);
    OnlyTheEndResumes(s, e, c);
    InvLocal(s, Target);
    ResumedIsParked(s, Next(s, e, c), e, c, s.link.value);
    NotElsewhere(s, s.link.value);
  }

  lemma OnlyTheEndResumes(s: State, e: Es, c: Choice)
    requires CanStep(s, e, c) && Next(s, e, c).resumed != s.resumed
    ensures Ends(s, Next(s, e, c), e, c) && (s.target.pc.Jump? || s.target.pc.PushJoiner?)
    ensures s.link.Some? && s.link.value < |s.joiners|
  {
  }

  lemma ResumedIsParked(s: State, s': State, e: Es, c: Choice, k: nat)
    requires Local(s, Target) && Resumes(s, s', e, c, k) && k < |s.joiners|
    ensures s.resumed == [] && s'.resumed == [k] && s.claim == Some(Joiner(k)) && s.pool[Joiner(k)] == 0
    ensures s.joiners[k].pc == Suspended && s.joiners[k].life == Blocked && !s.joiners[k].block
    ensures !On(s, s.joiners[k].last, Joiner(k))
    ensures s.target.pc.Jump? ==> s.joiners[k].last == s.target.last
  {
  }

  lemma NotElsewhere(s: State, k: nat)
    requires PlaceInv(s) && k < |s.joiners| && !On(s, s.joiners[k].last, Joiner(k))
    ensures forall d: Es :: !On(s, d, Joiner(k))
  {
  }

  /** When the target is gone, no joiner is left blocked: each is in the pool or on an ES, and none
      has a BLOCK request left. */
  lemma NobodyIsLeftBlocked(tr: seq<State>, i: nat, j: nat)
    requires Run(tr) && i < |tr| && j < |tr[i].joiners|
    requires tr[i].target.pc == Gone && tr[i].target.life == Terminated
    ensures Somewhere(tr[i], Joiner(j)) && !tr[i].joiners[j].block
    ensures tr[i].joiners[j].life == Blocked ==> tr[i].joiners[j].pc == Resumed
  {
    RunKeeps(tr, i);
    assert JoinerInv(tr[i], j);
  }

  // ---- the target always gets to its end ----

  function EndRank(s: State): nat
  {
    match s.target.pc
    case Working => 20
    case ReadLink => 12
    case CompareEs => 11
    case FetchOrBoth => 11
    case SpinLink => 10
    case CheckBlocked(_) => 9
    case SpinBlock(_) => 8
    case PushJoiner(_) => 7
    case OrRead => 6
    case OrWrite(_) => 5
    case SwitchOut => 4
    case SetTerminated => 2
    case Jump => 1
    case Gone => if On(s, s.target.last, Target) then 1 else 0
  }

  /** What the joiner that claimed, or may still claim, has to do before the target can resume it. */
  function ClaimRank(s: State): nat
  {
    match s.claim
    case None => 6
    case Some(Target) => 0
    case Some(Joiner(j)) =>
      if j >= |s.joiners| then 0
      else match s.joiners[j].pc
           case SetBlockBit => 5
           case SetBlocked => 4
           case SetLink => 3
           case Suspend => 2
           case Suspended => if s.joiners[j].block then 1 else 0
           case _ => 0
  }

  function Remaining(s: State): nat
  {
    EndRank(s) + ClaimRank(s)
  }

  lemma DispatchPutsOff(s: State, s': State, e: Es, u: Ult)
    requires Local(s, u) && Dispatches(s, s', e, u) && s.target.pc != Working
    ensures s'.target.pc != Working && Remaining(s') <= Remaining(s)
  {
    hide JumpInv, ReadyInv, ClaimInv, Claimer, Somewhere;
  }

  lemma HandleTargetRank(s: State, s': State, e: Es)
    requires Local(s, Target) && Handles(s, s', e, Target) && s.target.last == e && s.target.pc != Working
    ensures s'.target.pc != Working && EndRank(s') <= EndRank(s) && ClaimRank(s') == ClaimRank(s)
  {
    hide ClaimInv, JumpInv, ReadyInv, Claimer, Somewhere;
  }

  lemma HandleJoinerRank(s: State, s': State, e: Es, j: nat)
    requires Local(s, Joiner(j)) && Handles(s, s', e, Joiner(j))
    ensures s'.target == s.target && EndRank(s') <= EndRank(s) && ClaimRank(s') <= ClaimRank(s)
  {
    hide TargetInv, JumpInv, ReadyInv, Claimer, Somewhere;
  }

  /** A step of a joiner, as far as the target is concerned. */
  lemma JoinRank(s: State, e: Es, j: nat, c: Choice)
    requires PlaceInv(s) && e < |s.cpus| && s.cpus[e] == Runs(Joiner(j)) && JoinReady(s, j, c)
    ensures EndRank(JoinNext(s, e, j, c)) == EndRank(s) && JoinNext(s, e, j, c).target == s.target
  {
    assert s.pool[Joiner(j)] == 0;
  }

  lemma JoinClaimRank(s: State, e: Es, j: nat, c: Choice)
    requires ClaimInv(s) && e < |s.cpus| && j < |s.joiners| && JoinReady(s, j, c) && JoinerInv(s, j)
    ensures ClaimRank(JoinNext(s, e, j, c)) <= ClaimRank(s)
  {
  }

  lemma JoinPutsOff(s: State, e: Es, j: nat, c: Choice)
    requires Inv(s) && e < |s.cpus| && s.cpus[e] == Runs(Joiner(j)) && JoinReady(s, j, c) && s.target.pc != Working
    ensures JoinNext(s, e, j, c).target.pc != Working && Remaining(JoinNext(s, e, j, c)) <= Remaining(s)
  {
    hide JoinNext, EndRank, ClaimRank, TargetInv, ClaimInv, JoinerInv;
    assert JoinerInv(s, j);
    JoinRank(s, e, j, c);
    JoinClaimRank(s, e, j, c);
  }

  lemma EndRankFalls(s: State, s': State, e: Es, c: Choice)
    requires Local(s, Target) && Ends(s, s', e, c) && s.target.pc != Working
    ensures s'.target.pc != Working && EndRank(s') <= EndRank(s)
  {
    hide ClaimInv, JumpInv, ReadyInv, Claimer;
  }

  lemma EndClaimRank(s: State, s': State, e: Es, c: Choice)
    requires Local(s, Target) && Ends(s, s', e, c) && s.target.pc != Working
    ensures ClaimRank(s') <= ClaimRank(s)
  {
    hide TargetInv, JumpInv, ReadyInv;
  }

  lemma EndPutsOff(s: State, s': State, e: Es, c: Choice)
    requires Local(s, Target) && Ends(s, s', e, c) && s.target.pc != Working
    ensures s'.target.pc != Working && Remaining(s') <= Remaining(s)
  {
    hide Local, Ends, EndRank, ClaimRank;
    EndRankFalls(s, s', e, c);
    EndClaimRank(s, s', e, c);
  }

  /** No step of any ES puts off the end of a terminating target. */
  lemma NothingPutsItOff(s: State, e: Es, c: Choice)
    requires Inv(s) && CanStep(s, e, c) && s.target.pc != Working
    ensures Next(s, e, c).target.pc != Working && Remaining(Next(s, e, c)) <= Remaining(s)
  {
    hide Inv, Local, Dispatch, Handle, JoinNext, EndNext, JoinReady, EndReady, EndRank, ClaimRank;
    var s' := Next(s, e, c);
    InvPlace(s);
    match s.cpus[e]
    case Scheduling => InvLocal(s, c.ult); DispatchPutsOff(s, s', e, c.ult);
    case Stopped(u) =>
      InvAt(s, e);
      InvLocal(s, u);
      if u.Joiner? { HandleJoinerRank(s, s', e, u.id); } else { HandleTargetRank(s, s', e); }
    case Runs(u) =>
      if u.Joiner? {
        JoinPutsOff(s, e, u.id, c);
      } else {
        InvLocal(s, Target);
        EndPutsOff(s, s', e, c);
      }
  }

  /** The target waits for its joiner, at the link or at its BLOCK request: that joiner. */
  function Awaited(s: State): Option<nat>
  {
    if s.target.pc.SpinBlock? && s.link.Some? && s.link.value < |s.joiners| && s.joiners[s.link.value].block then s.link
    else if s.target.pc.SpinLink? && s.link == None && s.claim != None && s.claim.value.Joiner? then
      Some(s.claim.value.id)
    else None
  }

  /** The ES that can bring the end nearer: the target's own, or that of the joiner it waits for. */
  function HelpfulEs(s: State): Es
  {
    if Awaited(s).Some? && Awaited(s).value < |s.joiners| then s.joiners[Awaited(s).value].last else s.target.last
  }

  /** That ES can take a step, and comes nearer to the end by it. */
  predicate CanHelp(s: State)
  {
    && CanStep(s, HelpfulEs(s), Continue)
    && Remaining(Next(s, HelpfulEs(s), Continue)) < Remaining(s)
  }

  /** From the moment the target begins to terminate until it is TERMINATED some ES always can take
      a step that brings the end nearer: no wait loop of the handshake is entered in vain. */
  lemma SomeStepHelps(tr: seq<State>, i: nat)
    requires Run(tr) && i < |tr| && tr[i].target.pc != Working
    ensures EndRank(tr[i]) > 0 ==> CanHelp(tr[i])
    ensures EndRank(tr[i]) == 0 <==> tr[i].target.pc == Gone && tr[i].target.life == Terminated
  {
    RunKeeps(tr, i);
    Helps(tr[i]);
  }

  lemma JoinerHelps(s: State)
    requires Inv(s) && Awaited(s).Some?
    ensures CanHelp(s)
  {
    assert Claimer(s);
  }

  lemma EarlyHelps(s: State)
    requires ClaimInv(s) && TargetInv(s) && s.target.pc != Working && Awaited(s) == None && Early(s.target.pc)
    ensures CanHelp(s)
  {
    hide Somewhere, Pending;
  }

  lemma MiddleHelps(s: State)
    requires ClaimInv(s) && TargetInv(s) && Awaited(s) == None
    requires s.target.pc.CheckBlocked? || s.target.pc.SpinBlock?
    ensures CanHelp(s)
  {
    hide Somewhere, Pending;
  }

  lemma PushHelps(s: State)
    requires ClaimInv(s) && TargetInv(s) && Awaited(s) == None && s.target.pc.PushJoiner?
    ensures CanHelp(s)
  {
    hide Somewhere, Pending;
  }

  lemma JumpHelps(s: State)
    requires ClaimInv(s) && TargetInv(s) && Awaited(s) == None && (s.target.pc.SetTerminated? || s.target.pc.Jump?)
    ensures CanHelp(s)
  {
    hide Somewhere, Pending;
  }

  lemma LateHelps(s: State)
    requires TargetInv(s) && Awaited(s) == None && EndRank(s) > 0
    requires s.target.pc.OrRead? || s.target.pc.OrWrite? || s.target.pc.SwitchOut? || s.target.pc.Gone?
    ensures CanHelp(s)
  {
    hide Somewhere;
  }

  lemma TargetHelps(s: State)
    requires ClaimInv(s) && TargetInv(s) && s.target.pc != Working && Awaited(s) == None && EndRank(s) > 0
    ensures CanHelp(s)
  {
    hide ClaimInv, TargetInv, CanHelp, EndRank, Awaited;
    var p := s.target.pc;
    if Early(p) {
      EarlyHelps(s);
    } else if p.PushJoiner? {
      PushHelps(s);
    } else if Plain(p).Some? {
      MiddleHelps(s);
    } else if p.SetTerminated? || p.Jump? {
      JumpHelps(s);
    } else {
      LateHelps(s);
    }
  }

  lemma RankAtTheEnd(s: State)
    requires TargetInv(s) && s.target.pc != Working
    ensures EndRank(s) == 0 <==> s.target.pc == Gone && s.target.life == Terminated
  {
  }

  lemma Helps(s: State)
    requires Inv(s) && s.target.pc != Working
    ensures EndRank(s) > 0 ==> CanHelp(s)
    ensures EndRank(s) == 0 <==> s.target.pc == Gone && s.target.life == Terminated
  {
    hide PlaceInv, JumpInv, ReadyInv, JoinerInv, TargetInv, CanHelp, EndRank, Awaited;
    RankAtTheEnd(s);
    if Awaited(s).Some? {
      JoinerHelps(s);
    } else if EndRank(s) > 0 {
      TargetHelps(s);
    }
  }
}
