/** The accounting of a task page, over every run of its owners and of remote freers. */
module TaskPageTheorems {
  import opened Basics
  import opened Counting
  import opened TaskPage

  // ---- the sum that every step keeps ----

  function Used(use: seq<Use>): seq<bool>
  {
    seq(|use|, i requires 0 <= i < |use| => use[i] != Free)
  }

  /** Blocks that are in a list while no counter says so, or the other way round: a remote or local
      free that is pushed but not counted, an allocation that has popped but not counted, and a count
      that take_free is moving. */
  function Extra(p: Pc): int
  {
    match p
    case FreeLocalCount => 1
    case FreeCount => 1
    case AllocCount => -1
    case TakeAdd(n, _) => n
    case _ => 0
  }

  function Extras(pcs: seq<Pc>): seq<int>
  {
    seq(|pcs|, i requires 0 <= i < |pcs| => Extra(pcs[i]))
  }

  ghost predicate AccountInv(s: State)
  {
    Count(Used(s.use)) + s.empty + s.remote + Sum(Extras(s.pcs)) == |s.use|
  }

  lemma UseUpdate(use: seq<Use>, b: Blk, u: Use)
    requires b < |use|
    ensures Count(Used(use[b := u])) == Count(Used(use)) - One(use[b] != Free) + One(u != Free)
  {
    assert Used(use[b := u]) == Used(use)[b := u != Free];
    CountUpdate(Used(use), b, u != Free);
  }

  lemma ExtraUpdate(pcs: seq<Pc>, e: Es, p: Pc)
    requires e < |pcs|
    ensures Sum(Extras(pcs[e := p])) == Sum(Extras(pcs)) - Extra(pcs[e]) + Extra(p)
  {
    assert Extras(pcs[e := p]) == Extras(pcs)[e := Extra(p)];
    SumUpdate(Extras(pcs), e, Extra(p));
  }

  // ---- who does what ----

  predicate OwnerPc(p: Pc)
  {
    p != Idle && !p.FreeCheck? && !p.FreeRead? && !p.FreeCas? && !p.FreeCount? && !p.Publish? && !p.Adopt?
  }

  function Held(p: Pc): Option<Blk>
  {
    match p
    case FreeCheck(b) => Some(b)
    case FreeLocal(b) => Some(b)
    case FreeRead(b) => Some(b)
    case FreeCas(b, _) => Some(b)
    case _ => None
  }

  function Purposes(p: Pc): Option<Purpose>
  {
    match p
    case TakeCount(why) => Some(why)
    case TakeSub(_, why) => Some(why)
    case TakeAdd(_, why) => Some(why)
    case TakeRead(why) => Some(why)
    case TakeCas(_, why) => Some(why)
    case _ => None
  }

  predicate PcOk(s: State, e: Es)
    requires e < |s.pcs|
  {
    var p := s.pcs[e];
    && (OwnerPc(p) ==> s.place == Owned(e))
    && (p.Publish? || p.Adopt? ==> s.place == Transit(e))
    && (p.FreeRead? || p.FreeCas? ==> s.place != Owned(e))
    && (Held(p).Some? ==> Held(p).value < |s.use| && s.use[Held(p).value] == Going)
    && (p.TakeSub? ==> 0 <= p.n <= s.remote)
    && (p.TakeAdd? ==> 0 <= p.n)
    && (p.SumRemote? ==> p.k == s.empty)
    && (p.AllocPop? ==> s.head != [])
    && (Purposes(p).Some? ==> s.free != [])
    && (Purposes(p) == Some(ForAlloc) || p.TakeCas? ==> s.head == [])
    && (s.place == Released ==> p == Idle)
  }

  ghost predicate PcInv(s: State)
  {
    forall e :: 0 <= e < |s.pcs| ==> PcOk(s, e)
  }

  /** No block is freed by two ESs. */
  ghost predicate HeldInv(s: State)
  {
    forall d, e :: 0 <= d < |s.pcs| && 0 <= e < |s.pcs| && d != e && Held(s.pcs[d]).Some? ==>
      Held(s.pcs[d]) != Held(s.pcs[e])
  }

  /** No block is twice in the lists, and none that is in use or being freed is in them. */
  ghost predicate ListInv(s: State)
  {
    && Distinct(s.head) && Distinct(s.free)
    && (forall i :: 0 <= i < |s.head| ==> s.head[i] < |s.use| && s.use[s.head[i]] == Free && s.head[i] !in s.free)
    && (forall i :: 0 <= i < |s.free| ==> s.free[i] < |s.use| && s.use[s.free[i]] == Free)
  }

  ghost predicate Inv(s: State)
  {
    AccountInv(s) && PcInv(s) && HeldInv(s) && ListInv(s) && s.remote >= 0 && (s.place == Released ==> AllFree(s))
  }

  predicate AllFree(s: State)
  {
    forall b :: 0 <= b < |s.use| ==> s.use[b] == Free
  }

  lemma InitKeeps(s: State)
    requires Init(s)
    ensures Inv(s)
  {
    CountNone(Used(s.use));
    SumZero(Extras(s.pcs));
  }

  /** The block whose use a step changes. */
  function Changed(s: State, a: Act): Option<Blk>
    requires Can(s, a)
  {
    match a
    case CallFree(_, b) => Some(b)
    case Go(e) =>
      if s.pcs[e].AllocPop? then Some(s.head[0])
      else if s.pcs[e].FreeLocal? then Some(s.pcs[e].b)
      else if s.pcs[e].FreeCas? && First(s.free) == s.pcs[e].was then Some(s.pcs[e].b)
      else None
    case _ => None
  }

  /** The blocks that come out of the lists by a step, less those that go in. */
  function Gain(s: State, a: Act): int
    requires Can(s, a) && |Next(s, a).use| == |s.use| && (Changed(s, a).Some? ==> Changed(s, a).value < |s.use|)
  {
    if Changed(s, a) == None then 0
    else One(Next(s, a).use[Changed(s, a).value] != Free) - One(s.use[Changed(s, a).value] != Free)
  }

  /** A step changes the use of one block at most. */
  lemma StepUse(s: State, a: Act)
    requires Can(s, a) && PcOk(s, a.e) && ListInv(s)
    ensures var s', b := Next(s, a), Changed(s, a);
            if b == None then s'.use == s.use
            else b.value < |s.use| && |s'.use| == |s.use| && s'.use == s.use[b.value := s'.use[b.value]]
  {
    hide Distinct, Held, Purposes, OwnerPc;
  }

  lemma FreeTerms(s: State, a: Act)
    requires Can(s, a) && PcOk(s, a.e) && (a.CallFree? || (a.Go? && Frees(s.pcs[a.e])))
    requires |Next(s, a).use| == |s.use| && (Changed(s, a).Some? ==> Changed(s, a).value < |s.use|)
    requires a.e < |Next(s, a).pcs|
    ensures var s' := Next(s, a);
            s'.empty + s'.remote + Extra(s'.pcs[a.e]) + Gain(s, a) == s.empty + s.remote + Extra(s.pcs[a.e])
  {
    hide OwnerPc, Purposes;
  }

  lemma OwnerTerms(s: State, a: Act)
    requires Can(s, a) && PcOk(s, a.e) && ListInv(s) && !a.CallFree? && (a.Go? ==> !Frees(s.pcs[a.e]))
    requires |Next(s, a).use| == |s.use| && (Changed(s, a).Some? ==> Changed(s, a).value < |s.use|)
    requires a.e < |Next(s, a).pcs|
    ensures var s' := Next(s, a);
            s'.empty + s'.remote + Extra(s'.pcs[a.e]) + Gain(s, a) == s.empty + s.remote + Extra(s.pcs[a.e])
  {
    hide OwnerPc, Held, Distinct;
  }

  lemma StepAccount(s: State, a: Act)
    requires Can(s, a) && AccountInv(s) && PcOk(s, a.e) && ListInv(s)
    ensures AccountInv(Next(s, a))
  {
    hide Used, Extras, Count, Sum, Next, PcOk, ListInv, Extra, Changed;
    var s', b := Next(s, a), Changed(s, a);
    StepUse(s, a);
    StepMovesOne(s, a);
    if a.CallFree? || (a.Go? && Frees(s.pcs[a.e])) { FreeTerms(s, a); } else { OwnerTerms(s, a); }
    ExtraUpdate(s.pcs, a.e, s'.pcs[a.e]);
    if b.Some? { UseUpdate(s.use, b.value, s'.use[b.value]); }
  }

  lemma FreeList(s: State, e: Es)
    requires Can(s, Go(e)) && Frees(s.pcs[e]) && PcOk(s, e) && ListInv(s)
    ensures ListInv(FreeNext(s, e))
  {
  }

  lemma OwnerList(s: State, e: Es)
    requires Can(s, Go(e)) && !Frees(s.pcs[e]) && PcOk(s, e) && ListInv(s)
    ensures ListInv(OwnerNext(s, e))
  {
    hide OwnerPc, Held;
  }

  lemma StepList(s: State, a: Act)
    requires Can(s, a) && PcOk(s, a.e) && ListInv(s)
    ensures ListInv(Next(s, a))
  {
    hide FreeNext, OwnerNext;
    if a.Go? {
      if Frees(s.pcs[a.e]) { FreeList(s, a.e); } else { OwnerList(s, a.e); }
    }
  }

  lemma StepMovesOne(s: State, a: Act)
    requires Can(s, a)
    ensures Next(s, a).pcs == s.pcs[a.e := Next(s, a).pcs[a.e]]
  {
  }

  /** Nobody but the caller of a free gets hold of a block. */
  lemma StepHolds(s: State, a: Act)
    requires Can(s, a) && a.e < |Next(s, a).pcs|
    ensures var held := Held(Next(s, a).pcs[a.e]);
            if a.CallFree? then held == Some(a.b) else held == None || held == Held(s.pcs[a.e])
  {
  }

  lemma StepHeld(s: State, a: Act)
    requires Can(s, a) && PcInv(s) && HeldInv(s)
    ensures HeldInv(Next(s, a))
  {
    hide Next, Held;
    StepMovesOne(s, a);
    StepHolds(s, a);
    if a.CallFree? {
      forall d | 0 <= d < |s.pcs| ensures Held(s.pcs[d]) != Some(a.b) { assert PcOk(s, d); }
    }
  }

  lemma OtherFree(s: State, a: Act, e: Es)
    requires Can(s, a) && a.Go? && Frees(s.pcs[a.e]) && e < |s.pcs| && e != a.e && PcOk(s, a.e) && PcOk(s, e)
    requires Held(s.pcs[e]) == None || Held(s.pcs[e]) != Held(s.pcs[a.e])
    ensures PcOk(Next(s, a), e)
  {
    assert s.pcs[e] == Next(s, a).pcs[e];
  }

  lemma OtherCall(s: State, a: Act, e: Es)
    requires Can(s, a) && !a.Go? && e < |s.pcs| && e != a.e && PcOk(s, e)
    requires s.place == Released ==> AllFree(s)
    ensures |Next(s, a).pcs| == |s.pcs| && PcOk(Next(s, a), e)
  {
    assert s.pcs[e] == Next(s, a).pcs[e];
  }

  lemma OtherOwner(s: State, a: Act, e: Es)
    requires Can(s, a) && a.Go? && !Frees(s.pcs[a.e]) && e < |s.pcs| && e != a.e && PcOk(s, a.e)
    requires PcOk(s, e) && ListInv(s)
    requires Next(s, a).place == Released ==> s.place == Released || s.pcs[e] == Idle
    ensures |Next(s, a).pcs| == |s.pcs| && PcOk(Next(s, a), e)
  {
    hide Distinct, AfterTake;
    assert s.pcs[e] == Next(s, a).pcs[e];
  }

  lemma FreerPc(s: State, e: Es)
    requires Can(s, Go(e)) && Frees(s.pcs[e]) && PcOk(s, e) && (s.place == Released ==> AllFree(s))
    ensures PcOk(FreeNext(s, e), e)
  {
  }

  lemma TakersPc(s: State, e: Es)
    requires Can(s, Go(e)) && Purposes(s.pcs[e]).Some? && PcOk(s, e) && s.remote >= 0
    ensures PcOk(OwnerNext(s, e), e)
  {
  }

  lemma OwnersPc(s: State, e: Es)
    requires Can(s, Go(e)) && !Frees(s.pcs[e]) && Purposes(s.pcs[e]) == None && PcOk(s, e) && s.remote >= 0
    requires s.place == Released ==> AllFree(s)
    ensures PcOk(OwnerNext(s, e), e)
  {
    hide AllFree;
  }

  lemma OwnPc(s: State, a: Act)
    requires Can(s, a) && PcOk(s, a.e) && s.remote >= 0 && (s.place == Released ==> AllFree(s))
    ensures |Next(s, a).pcs| == |s.pcs| && PcOk(Next(s, a), a.e)
  {
    if a.Go? {
      hide PcOk, FreeNext, OwnerNext;
      if Frees(s.pcs[a.e]) { FreerPc(s, a.e); }
      else if Purposes(s.pcs[a.e]).Some? { TakersPc(s, a.e); }
      else { OwnersPc(s, a.e); }
      SameNumber(s, a);
    }
  }

  lemma SameNumber(s: State, a: Act)
    requires Can(s, a)
    ensures |Next(s, a).pcs| == |s.pcs|
  {
  }

  lemma StepPc(s: State, a: Act, e: Es)
    requires Can(s, a) && PcInv(s) && HeldInv(s) && ListInv(s) && s.remote >= 0 && e < |s.pcs|
    requires s.place == Released ==> AllFree(s)
    requires Next(s, a).place == Released ==> s.place == Released || e == a.e || s.pcs[e] == Idle
    ensures |Next(s, a).pcs| == |s.pcs| && PcOk(Next(s, a), e)
  {
    hide PcOk, Next;
    assert PcOk(s, e) && PcOk(s, a.e);
    SameNumber(s, a);
    if e == a.e { OwnPc(s, a); }
    else if !a.Go? { OtherCall(s, a, e); }
    else if Frees(s.pcs[a.e]) { OtherFree(s, a, e); }
    else { OtherOwner(s, a, e); }
  }

  /** When the counts add up, no block is in use or on its way, and no ES is still to touch the page. */
  lemma CountsAddUp(s: State, e: Es)
    requires Inv(s) && e < |s.pcs| && s.pcs[e].SumRemote? && s.pcs[e].k + s.remote == |s.use|
    ensures AllFree(s) && forall d :: 0 <= d < |s.pcs| && d != e ==> s.pcs[d] == Idle
  {
    assert PcOk(s, e);
    forall d | 0 <= d < |s.pcs| ensures Extra(s.pcs[d]) >= 0 { assert PcOk(s, d); }
    SumZero(Extras(s.pcs));
    CountNone(Used(s.use));
    forall b | 0 <= b < |s.use| ensures s.use[b] == Free { assert !Used(s.use)[b]; }
    forall d | 0 <= d < |s.pcs| && d != e ensures s.pcs[d] == Idle {
      assert PcOk(s, d);
      assert Extras(s.pcs)[d] == 0;
    }
  }

  lemma StepKeeps(s: State, a: Act)
    requires Inv(s) && Can(s, a)
    ensures Inv(Next(s, a))
  {
    hide AccountInv, PcOk, HeldInv, ListInv, Held;
    var s' := Next(s, a);
    StepAccount(s, a);
    StepList(s, a);
    StepHeld(s, a);
    if s'.place == Released && s.place != Released { CountsAddUp(s, a.e); }
    forall e | 0 <= e < |s'.pcs| ensures PcOk(s', e) { StepPc(s, a, e); }
    StepRemote(s, a);
  }

  lemma StepRemote(s: State, a: Act)
    requires Inv(s) && Can(s, a)
    ensures Next(s, a).remote >= 0 && (s.place == Released ==> Next(s, a).use == s.use)
  {
    assert PcOk(s, a.e);
  }

  lemma {:induction false} RunKeeps(tr: seq<State>, i: nat)
    requires Run(tr) && i < |tr|
    ensures Inv(tr[i])
  {
    hide Inv, Next, Can;
    if i == 0 {
      InitKeeps(tr[0]);
    } else {
      RunKeeps(tr, i - 1);
      assert Steps(tr[i - 1], tr[i - 1 + 1]);
      var a :| Can(tr[i - 1], a) && tr[i] == Next(tr[i - 1], a);
      StepKeeps(tr[i - 1], a);
    }
  }

  // ---- the promises ----

  /** Blocks in use, num_empty_blks, num_remote_free, frees that are pushed and not counted, and a
      count that take_free is moving always add up to num_total_blks. */
  lemma TheSumIsKept(tr: seq<State>, i: nat)
    requires Run(tr) && i < |tr|
    ensures Count(Used(tr[i].use)) + tr[i].empty + tr[i].remote + Sum(Extras(tr[i].pcs)) == |tr[i].use|
    ensures tr[i].remote >= 0
  {
    RunKeeps(tr, i);
  }

  /** A page is released only when no block is in use or being freed, and from then on no ES is
      anywhere in code that touches it. */
  lemma ReleasedOnlyWhenUnused(tr: seq<State>, i: nat)
    requires Run(tr) && i < |tr| && tr[i].place == Released
    ensures forall b :: 0 <= b < |tr[i].use| ==> tr[i].use[b] == Free
    ensures forall e :: 0 <= e < |tr[i].pcs| ==> tr[i].pcs[e] == Idle
    ensures forall a :: !Can(tr[i], a)
  {
    RunKeeps(tr, i);
    forall e | 0 <= e < |tr[i].pcs| ensures tr[i].pcs[e] == Idle { assert PcOk(tr[i], e); }
  }

  /** What an allocation takes is free: nobody else has it, nobody is freeing it, and it is in no list
      afterwards. */
  lemma NotHandedOutTwice(tr: seq<State>, i: nat, e: Es)
    requires Run(tr) && i < |tr| && e < |tr[i].pcs| && tr[i].pcs[e] == AllocPop
    ensures Can(tr[i], Go(e))
    ensures var b := tr[i].head[0]; var s' := Next(tr[i], Go(e));
            tr[i].use[b] == Free && s'.use[b] == InUse && b !in s'.head && b !in s'.free
            && forall d :: 0 <= d < |tr[i].pcs| ==> Held(tr[i].pcs[d]) != Some(b)
  {
    RunKeeps(tr, i);
    var s := tr[i];
    assert PcOk(s, e);
    forall d | 0 <= d < |s.pcs| ensures Held(s.pcs[d]) != Some(s.head[0]) { assert PcOk(s, d); }
  }

  // ---- lost blocks ----

  /** Blocks that are free and in neither list. */
  function Lost(s: State): int
  {
    |s.use| - Count(Used(s.use)) - |s.head| - |s.free|
  }

  /** The blocks that a step drops: take_free overwrites p_head. */
  function Dropped(s: State, a: Act): nat
    requires Can(s, a)
  {
    if a.Go? && s.pcs[a.e].TakeRead? then |s.head| else 0
  }

  lemma StepLengths(s: State, a: Act)
    requires Can(s, a) && PcOk(s, a.e) && ListInv(s)
    requires |Next(s, a).use| == |s.use| && (Changed(s, a).Some? ==> Changed(s, a).value < |s.use|)
    ensures |Next(s, a).head| + |Next(s, a).free| + Gain(s, a) + Dropped(s, a) == |s.head| + |s.free|
  {
    hide OwnerPc, Distinct;
  }

  /** A step loses blocks exactly when it is a take_free that finds p_head non-empty. */
  lemma LostExactlyWhen(s: State, a: Act)
    requires Inv(s) && Can(s, a)
    ensures Lost(Next(s, a)) == Lost(s) + Dropped(s, a)
    ensures Lost(Next(s, a)) == Lost(s) <==> !(a.Go? && s.pcs[a.e].TakeRead? && s.head != [])
  {
    hide Used, Count, Next, PcOk, ListInv, AccountInv, HeldInv, Changed;
    assert PcOk(s, a.e);
    StepUse(s, a);
    StepLengths(s, a);
    var s', b := Next(s, a), Changed(s, a);
    if b.Some? { UseUpdate(s.use, b.value, s'.use[b.value]); }
  }

  /** An allocation takes the remote list only when p_head is empty, so it never loses a block. */
  lemma AllocationLosesNothing(tr: seq<State>, i: nat, e: Es)
    requires Run(tr) && i < |tr| && e < |tr[i].pcs| && tr[i].pcs[e] == TakeRead(ForAlloc)
    ensures Can(tr[i], Go(e)) && Dropped(tr[i], Go(e)) == 0
  {
    RunKeeps(tr, i);
    assert PcOk(tr[i], e);
  }

  ghost predicate NeverLeaves(tr: seq<State>)
  {
    forall i, e :: 0 <= i < |tr| && 0 <= e < |tr[i].pcs| ==>
      Purposes(tr[i].pcs[e]) == None || Purposes(tr[i].pcs[e]) == Some(ForAlloc)
  }

  lemma {:induction false} NothingLost(tr: seq<State>, i: nat)
    requires Run(tr) && i < |tr| && NeverLeaves(tr)
    ensures Lost(tr[i]) == 0
  {
    hide Inv, Lost, Next;
    if i == 0 {
      StartsWithout(tr[0]);
    } else {
      NothingLost(tr, i - 1);
      RunKeeps(tr, i - 1);
      assert Steps(tr[i - 1], tr[i - 1 + 1]);
      var s := tr[i - 1];
      var a :| Can(s, a) && tr[i] == Next(s, a);
      LostExactlyWhen(s, a);
      if a.Go? && s.pcs[a.e].TakeRead? {
        assert Purposes(tr[i - 1].pcs[a.e]) == Some(ForAlloc);
        AllocationLosesNothing(tr, i - 1, a.e);
      }
    }
  }

  lemma StartsWithout(s: State)
    requires Init(s)
    ensures Lost(s) == 0
  {
    CountNone(Used(s.use));
  }

  /** While remote lists are taken only to allocate, the two counters give the length of the two free
      lists, up to the operations that are under way. */
  lemma CountersGiveTheLengths(tr: seq<State>, i: nat)
    requires Run(tr) && i < |tr| && NeverLeaves(tr)
    ensures tr[i].empty + tr[i].remote + Sum(Extras(tr[i].pcs)) == |tr[i].head| + |tr[i].free|
  {
    NothingLost(tr, i);
    RunKeeps(tr, i);
  }
}
