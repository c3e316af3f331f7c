/** No stack is lost or handed out twice, and every page gets its stacks back. */
module StackPoolTheorems {
  import opened Basics
  import opened Counting
  import opened StackPool
  import opened StackChains
  import opened StackPoolInvariant

  // ---- how many stacks of a page have come back ----

  function OnPage(page: seq<Pid>, p: Pid): seq<bool>
  {
    seq(|page|, x requires 0 <= x < |page| => page[x] == p)
  }

  function BackOn(page: seq<Pid>, at: seq<At>, p: Pid): seq<bool>
    requires |page| == |at|
  {
    seq(|at|, x requires 0 <= x < |at| => page[x] == p && at[x] == Back)
  }

  ghost predicate PageInv(s: State, w: View)
    requires Sizes(s, w)
  {
    forall p :: 0 <= p < |s.total| ==>
      Count(OnPage(s.page, p)) == s.total[p] && Count(BackOn(s.page, w.at, p)) == s.empty[p]
  }

  lemma BackUpdate(page: seq<Pid>, at: seq<At>, x: Sid, t: At, p: Pid)
    requires |page| == |at| && x < |at| && at[x] != Back
    ensures Count(BackOn(page, at[x := t], p)) == Count(BackOn(page, at, p)) + One(page[x] == p && t == Back)
  {
    assert BackOn(page, at[x := t], p) == BackOn(page, at, p)[x := page[x] == p && t == Back];
    CountUpdate(BackOn(page, at, p), x, page[x] == p && t == Back);
  }

  lemma BackTaken(page: seq<Pid>, at: seq<At>, e: Es, p: Pid)
    requires |page| == |at|
    ensures |Taken(at, e)| == |at| && BackOn(page, Taken(at, e), p) == BackOn(page, at, p)
  {
  }

  function Same(k: nat, b: bool): seq<bool>
  {
    seq(k, i => b)
  }

  lemma CountSame(b: seq<bool>, k: nat, c: bool)
    ensures Count(b + Same(k, c)) == Count(b) + if c then k else 0
  {
    CountConcat(b, Same(k, c));
    if c { CountAll(Same(k, c)); } else { CountNone(Same(k, c)); }
  }

  function NewPages(k: nat, n: Pid): seq<Pid>
  {
    seq(k, i => n)
  }

  lemma GrowOnPage(page: seq<Pid>, k: nat, n: Pid, p: Pid)
    requires forall x :: 0 <= x < |page| ==> page[x] < n
    ensures Count(OnPage(page + NewPages(k, n), p)) == if p == n then k else Count(OnPage(page, p))
  {
    hide Count;
    assert OnPage(page + NewPages(k, n), p) == OnPage(page, p) + Same(k, n == p);
    CountSame(OnPage(page, p), k, n == p);
    if p == n { CountNone(OnPage(page, p)); }
  }

  lemma GrowBackOn(page: seq<Pid>, at: seq<At>, e: Es, k: nat, n: Pid, p: Pid)
    requires |page| == |at| && (forall x :: 0 <= x < |page| ==> page[x] < n)
    ensures Count(BackOn(page + NewPages(k, n), at + NewAt(k, e), p))
            == if p == n then 0 else Count(BackOn(page, at, p))
  {
    hide Count;
    assert BackOn(page + NewPages(k, n), at + NewAt(k, e), p) == BackOn(page, at, p) + Same(k, false);
    CountSame(BackOn(page, at, p), k, false);
    if p == n { CountNone(BackOn(page, at, p)); }
  }

  // ---- all stacks together ----

  /** With a ULT, or on its way to the global list. */
  function Loose(at: seq<At>): seq<bool>
  {
    seq(|at|, x requires 0 <= x < |at| => at[x] == Out || at[x].Pushing?)
  }

  function Returned(at: seq<At>): seq<bool>
  {
    seq(|at|, x requires 0 <= x < |at| => at[x] == Back)
  }

  function Lengths(mine: seq<seq<Sid>>): seq<int>
  {
    seq(|mine|, e requires 0 <= e < |mine| => |mine[e]|)
  }

  ghost predicate Balance(w: View)
  {
    Count(Loose(w.at)) + Sum(Lengths(w.mine)) + |w.global| + Count(Returned(w.at)) == |w.at|
  }

  lemma LooseUpdate(at: seq<At>, x: Sid, t: At)
    requires x < |at|
    ensures Count(Loose(at[x := t]))
            == Count(Loose(at)) - One(at[x] == Out || at[x].Pushing?) + One(t == Out || t.Pushing?)
    ensures Count(Returned(at[x := t])) == Count(Returned(at)) - One(at[x] == Back) + One(t == Back)
  {
    assert Loose(at[x := t]) == Loose(at)[x := t == Out || t.Pushing?];
    CountUpdate(Loose(at), x, t == Out || t.Pushing?);
    assert Returned(at[x := t]) == Returned(at)[x := t == Back];
    CountUpdate(Returned(at), x, t == Back);
  }

  lemma LengthsUpdate(mine: seq<seq<Sid>>, e: Es, q: seq<Sid>)
    requires e < |mine|
    ensures Sum(Lengths(mine[e := q])) == Sum(Lengths(mine)) - |mine[e]| + |q|
  {
    assert Lengths(mine[e := q]) == Lengths(mine)[e := |q|];
    SumUpdate(Lengths(mine), e, |q|);
  }

  lemma LooseTaken(at: seq<At>, e: Es)
    ensures Loose(Taken(at, e)) == Loose(at) && Returned(Taken(at, e)) == Returned(at) && |Taken(at, e)| == |at|
  {
  }

  lemma LooseGrow(at: seq<At>, k: nat, e: Es)
    requires k >= 1
    ensures Count(Loose(at + NewAt(k, e))) == Count(Loose(at)) + 1
    ensures Count(Returned(at + NewAt(k, e))) == Count(Returned(at))
  {
    assert Loose(at + NewAt(k, e)) == (Loose(at) + [true]) + Same(k - 1, false);
    CountSame(Loose(at) + [true], k - 1, false);
    CountAppend(Loose(at), true);
    assert Returned(at + NewAt(k, e)) == Returned(at) + Same(k, false);
    CountSame(Returned(at), k, false);
  }

  // ---- every step ----

  /** The stack that a step moves, and where to. */
  function Mover(s: State, w: View, a: Act): Option<(Sid, At)>
    requires Can(s, a) && Sizes(s, w)
  {
    match a
    case Alloc(e) => if s.local[e] == None then None else Some((s.local[e].value, Out))
    case Free(e, x) => Some((x, if s.num[e] <= s.maxStacks then Mine(e) else Pushing(e)))
    case Go(e, k) => (
      match s.pcs[e]
      case Walk(first, cur, _) => if s.next[cur].Some? then None else Some((first, Out))
      case PushCas(x) => if s.global == s.next[x] then Some((x, Shared)) else None
      case FinWalk(rest) => if rest == None then None else Some((rest.value, Back))
      case _ => None)
    case CountNext => if s.final.rest == None then None else Some((s.final.rest.value, Back))
    case _ => None
  }

  /** A step moves one stack, or takes over the whole global list, or brings a new page, or none of these. */
  lemma MoverIsRight(s: State, w: View, a: Act)
    requires Inv(s, w) && Can(s, a)
    ensures Sizes(s, w)
    ensures var w', m := NextView(s, w, a), Mover(s, w, a);
            && (m.Some? ==> m.value.0 < |w.at| && w.at[m.value.0] != Back && w'.at == w.at[m.value.0 := m.value.1])
            && (m == None && !(a.Go? && (s.pcs[a.e].TakeCas? || s.pcs[a.e].NewPage?)) ==> w' == w)
  {
    hide Chained;
    match a
    case Alloc(e) => if s.local[e].Some? { assert PcOk(s, w, e); LocalFirst(s, w, e); }
    case Free(e, x) => assert AtOk(s, w, x);
    case Go(e, k) =>
      assert PcOk(s, w, e);
      if s.pcs[e].Walk? || (s.pcs[e].FinWalk? && s.pcs[e].rest.Some?) { LocalFirst(s, w, e); }
    case CountNext => if s.final.rest.Some? { FinalFirst(s, w); }
    case _ =>
  }

  /** A new page has all its stacks to count still. */
  lemma StepPages(s: State, w: View, a: Act)
    requires Inv(s, w) && Can(s, a) && Sizes(s, w) && PageInv(s, w) && Sizes(Next(s, a), NextView(s, w, a))
    ensures PageInv(Next(s, a), NextView(s, w, a))
  {
    MoverIsRight(s, w, a);
    var s', w', m := Next(s, a), NextView(s, w, a), Mover(s, w, a);
    forall p | 0 <= p < |s'.total|
      ensures Count(OnPage(s'.page, p)) == s'.total[p] && Count(BackOn(s'.page, w'.at, p)) == s'.empty[p]
    {
      StepPage(s, w, a, p);
    }
  }

  lemma MovePage(s: State, w: View, a: Act, p: Pid)
    requires Inv(s, w) && Can(s, a) && Sizes(s, w) && PageInv(s, w) && p < |s.total| && Mover(s, w, a).Some?
    ensures |Next(s, a).total| == |s.total| && |Next(s, a).empty| == |s.empty| && Next(s, a).page == s.page
    ensures |NextView(s, w, a).at| == |s.page|
    ensures Next(s, a).total == s.total && Count(BackOn(s.page, NextView(s, w, a).at, p)) == Next(s, a).empty[p]
  {
    hide Chained, Count, OnPage, BackOn;
    MoverIsRight(s, w, a);
    BackUpdate(s.page, w.at, Mover(s, w, a).value.0, Mover(s, w, a).value.1, p);
  }

  lemma NewPageCounts(s: State, w: View, a: Act, p: Pid)
    requires Inv(s, w) && Can(s, a) && Sizes(s, w) && PageInv(s, w) && Sizes(Next(s, a), NextView(s, w, a))
    requires p < |Next(s, a).total| && a.Go? && s.pcs[a.e].NewPage?
    ensures Count(OnPage(Next(s, a).page, p)) == Next(s, a).total[p]
    ensures Count(BackOn(Next(s, a).page, NextView(s, w, a).at, p)) == Next(s, a).empty[p]
  {
    hide Inv, Count, OnPage, BackOn, NewAt, Links;
    PagesKnown(s, w);
    GrowOnPage(s.page, a.k, |s.total|, p);
    GrowBackOn(s.page, w.at, a.e, a.k, |s.total|, p);
    assert Next(s, a).page == s.page + NewPages(a.k, |s.total|);
  }

  lemma StepPage(s: State, w: View, a: Act, p: Pid)
    requires Inv(s, w) && Can(s, a) && Sizes(s, w) && PageInv(s, w) && Sizes(Next(s, a), NextView(s, w, a))
    requires p < |Next(s, a).total|
    ensures Count(OnPage(Next(s, a).page, p)) == Next(s, a).total[p]
    ensures Count(BackOn(Next(s, a).page, NextView(s, w, a).at, p)) == Next(s, a).empty[p]
  {
    hide Inv, Chained, Count, OnPage, BackOn, Taken, NewAt, Links;
    if Mover(s, w, a).Some? {
      MovePage(s, w, a, p);
    } else if a.Go? && s.pcs[a.e].NewPage? {
      NewPageCounts(s, w, a, p);
    } else if a.Go? && s.pcs[a.e].TakeCas? {
      BackTaken(s.page, w.at, a.e, p);
    } else {
      MoverIsRight(s, w, a);
    }
  }

  lemma PagesKnown(s: State, w: View)
    requires Inv(s, w)
    ensures forall x :: 0 <= x < |s.page| ==> s.page[x] < |s.total|
  {
    forall x | 0 <= x < |s.page| ensures s.page[x] < |s.total| { assert AtOk(s, w, x); }
  }

  lemma MoveBalance(s: State, w: View, a: Act)
    requires Inv(s, w) && Can(s, a) && Sizes(s, w) && Balance(w) && Mover(s, w, a).Some?
    ensures Balance(NextView(s, w, a))
  {
    hide Chained, Count, Sum, Loose, Returned, Lengths;
    MoverIsRight(s, w, a);
    var w', x, t := NextView(s, w, a), Mover(s, w, a).value.0, Mover(s, w, a).value.1;
    assert AtOk(s, w, x);
    LooseUpdate(w.at, x, t);
    match a
    case Alloc(e) => LocalFirst(s, w, e); LengthsUpdate(w.mine, e, w'.mine[e]);
    case Free(e, _) => assert PcOk(s, w, e); LengthsUpdate(w.mine, e, w'.mine[e]);
    case Go(e, _) =>
      assert PcOk(s, w, e);
      if !s.pcs[e].PushCas? { LocalFirst(s, w, e); }
      LengthsUpdate(w.mine, e, w'.mine[e]);
    case CountNext => FinalFirst(s, w);
  }

  lemma StepBalance(s: State, w: View, a: Act)
    requires Inv(s, w) && Can(s, a) && Sizes(s, w) && Balance(w)
    ensures Balance(NextView(s, w, a))
  {
    hide Chained, Count, Sum, Loose, Returned, Lengths, Taken, NewAt;
    if Mover(s, w, a).Some? {
      MoveBalance(s, w, a);
    } else if a.Go? && s.pcs[a.e].NewPage? {
      assert PcOk(s, w, a.e);
      EmptyList(s, w, a.e);
      LooseGrow(w.at, a.k, a.e);
      LengthsUpdate(w.mine, a.e, NewList(|w.at|, a.k));
      assert |NewAt(a.k, a.e)| == a.k by { NewAtSize(a.k, a.e); }
    } else if a.Go? && s.pcs[a.e].TakeCas? {
      assert PcOk(s, w, a.e);
      EmptyList(s, w, a.e);
      LooseTaken(w.at, a.e);
      LengthsUpdate(w.mine, a.e, w.global);
    } else {
      MoverIsRight(s, w, a);
    }
  }

  lemma NewAtSize(k: nat, e: Es)
    ensures |NewAt(k, e)| == k
  {
  }

  // ---- every run ----

  ghost predicate Good(s: State, w: View)
  {
    Inv(s, w) && Sizes(s, w) && PageInv(s, w) && Balance(w)
  }

  lemma StartsGood(s: State)
    requires Init(s)
    ensures Good(s, View([], [], seq(|s.pcs|, i => [])))
  {
    SumZero(Lengths(seq(|s.pcs|, i => [])));
  }

  lemma StepGood(s: State, w: View, a: Act)
    requires Good(s, w) && Can(s, a)
    ensures Good(Next(s, a), NextView(s, w, a))
  {
    hide Inv, PageInv, Balance, Next, NextView;
    StepKeeps(s, w, a);
    assert Sizes(Next(s, a), NextView(s, w, a)) by { InvSizes(Next(s, a), NextView(s, w, a)); }
    StepPages(s, w, a);
    StepBalance(s, w, a);
  }

  lemma InvSizes(s: State, w: View)
    requires Inv(s, w)
    ensures Sizes(s, w)
  {
  }

  lemma {:induction false} RunKeeps(tr: seq<State>, i: nat) returns (w: View)
    requires Run(tr) && i < |tr|
    ensures Good(tr[i], w)
  {
    hide Good, Next, Can;
    if i == 0 {
      StartsGood(tr[0]);
      w := View([], [], seq(|tr[0].pcs|, i => []));
    } else {
      w := RunKeeps(tr, i - 1);
      assert Steps(tr[i - 1], tr[i - 1 + 1]);
      var a :| Can(tr[i - 1], a) && tr[i] == Next(tr[i - 1], a);
      StepGood(tr[i - 1], w, a);
      assert Sizes(tr[i - 1], w) by { GoodSizes(tr[i - 1], w); }
      w := NextView(tr[i - 1], w, a);
    }
  }

  lemma GoodSizes(s: State, w: View)
    requires Good(s, w)
    ensures Sizes(s, w)
  {
  }

  /** At every moment of every run, every pointer leads through a finite list of distinct stacks; a
      stack is in one list at most, and in none while it is with a ULT; and each ES's num_stacks is
      the length of its list, except while it counts a list that it has just taken, or gives its
      stacks back. */
  lemma TheListsAreSound(tr: seq<State>, i: nat) returns (w: View)
    requires Run(tr) && i < |tr|
    ensures Sizes(tr[i], w) && IsChain(tr[i].next, GlobalHead(tr[i]), w.global) && Distinct(w.global)
    ensures forall e :: 0 <= e < |tr[i].pcs| ==> IsChain(tr[i].next, HeadOf(tr[i], e), w.mine[e]) && Distinct(w.mine[e])
    ensures forall e, x :: 0 <= e < |tr[i].pcs| && x in w.mine[e] ==> x < |w.at| && !tr[i].inUse[x] && x !in w.global
    ensures forall d, e, x :: 0 <= d < |tr[i].pcs| && 0 <= e < |tr[i].pcs| && x in w.mine[d] && x in w.mine[e] ==>
              d == e
    ensures forall x :: x in w.global ==> x < |w.at| && !tr[i].inUse[x]
    ensures forall e :: 0 <= e < |tr[i].pcs| && !tr[i].pcs[e].Walk? && !tr[i].pcs[e].FinWalk? ==>
              tr[i].num[e] == |w.mine[e]|
  {
    w := RunKeeps(tr, i);
    var s := tr[i];
    forall e | 0 <= e < |s.pcs|
      ensures IsChain(s.next, HeadOf(s, e), w.mine[e]) && Holds(w.at, w.mine[e], Mine(e)) && PcOk(s, w, e)
    {
      assert Chained(s.next, HeadOf(s, e), w.at, w.mine[e], Mine(e));
    }
    forall e, x | 0 <= e < |s.pcs| && x in w.mine[e]
      ensures x < |w.at| && w.at[x] == Mine(e) && !s.inUse[x] && x !in w.global
    {
      assert AtOk(s, w, x);
    }
    forall x | x in w.global ensures x < |w.at| && !s.inUse[x] { assert AtOk(s, w, x); }
  }

  /** The stack that a step gives to a ULT: the head of the local list, the first of a list taken from
      the others, or the first of a new page. */
  function HandsOut(s: State, a: Act): Option<Sid>
    requires Can(s, a)
  {
    match a
    case Alloc(e) => s.local[e]
    case Go(e, _) => (
      match s.pcs[e]
      case Walk(first, cur, _) => if s.next[cur].Some? then None else Some(first)
      case NewPage => Some(|s.next|)
      case _ => None)
    case _ => None
  }

  lemma HandedWasFree(s: State, w: View, a: Act)
    requires Inv(s, w) && Can(s, a) && HandsOut(s, a).Some?
    ensures HandsOut(s, a).value < |s.inUse| ==> !s.inUse[HandsOut(s, a).value]
  {
    hide Chained;
    if !(a.Go? && s.pcs[a.e].NewPage?) {
      assert PcOk(s, w, a.e);
      LocalFirst(s, w, a.e);
      assert AtOk(s, w, HandsOut(s, a).value);
    }
  }

  lemma HandedIsUsed(s: State, a: Act)
    requires Can(s, a) && |s.next| == |s.inUse|
    ensures HandsOut(s, a).Some? ==> HandsOut(s, a).value < |Next(s, a).inUse| && Next(s, a).inUse[HandsOut(s, a).value]
    ensures forall y :: 0 <= y < |Next(s, a).inUse| && Next(s, a).inUse[y] && HandsOut(s, a) != Some(y) ==>
              y < |s.inUse| && s.inUse[y]
  {
  }

  lemma UsedIsInNoList(s: State, w: View, x: Sid)
    requires Inv(s, w) && x < |s.inUse| && s.inUse[x]
    ensures x !in w.global && forall e :: 0 <= e < |w.mine| ==> x !in w.mine[e]
  {
    assert AtOk(s, w, x);
    forall e | 0 <= e < |w.mine| ensures x !in w.mine[e] {
      assert Chained(s.next, HeadOf(s, e), w.at, w.mine[e], Mine(e));
    }
  }

  /** No stack is handed out twice: one that a step gives to a ULT is new or was with none, and is in
      no list afterwards; and a step gives no other stack to a ULT. */
  lemma NeverHandedOutTwice(tr: seq<State>, i: nat, w: View, a: Act)
    requires Run(tr) && i < |tr| && Good(tr[i], w) && Can(tr[i], a)
    ensures var s, s', w' := tr[i], Next(tr[i], a), NextView(tr[i], w, a);
            && Good(s', w')
            && (forall y :: 0 <= y < |s'.inUse| && s'.inUse[y] && HandsOut(s, a) != Some(y) ==>
                  y < |s.inUse| && s.inUse[y])
            && (HandsOut(s, a).Some? ==>
                  var x := HandsOut(s, a).value;
                  && (x < |s.inUse| ==> !s.inUse[x]) && x < |s'.inUse| && s'.inUse[x]
                  && x !in w'.global && forall e :: 0 <= e < |w'.mine| ==> x !in w'.mine[e])
  {
    hide Inv, PageInv, Balance, Next, NextView, HandsOut;
    var s := tr[i];
    StepGood(s, w, a);
    HandedIsUsed(s, a);
    if HandsOut(s, a).Some? {
      HandedWasFree(s, w, a);
      UsedIsInNoList(Next(s, a), NextView(s, w, a), HandsOut(s, a).value);
    }
  }

  /** Stacks with a ULT or on their way to the global list, stacks in the lists, and stacks counted
      back to their pages are always all the stacks there are. */
  lemma NoStackIsLost(tr: seq<State>, i: nat) returns (w: View)
    requires Run(tr) && i < |tr|
    ensures Good(tr[i], w)
    ensures Count(Loose(w.at)) + Sum(Lengths(w.mine)) + |w.global| + Count(Returned(w.at)) == |tr[i].next|
    ensures forall p :: 0 <= p < |tr[i].total| ==> tr[i].empty[p] <= tr[i].total[p]
  {
    w := RunKeeps(tr, i);
    forall p | 0 <= p < |tr[i].total| ensures tr[i].empty[p] <= tr[i].total[p] {
      Fewer(BackOn(tr[i].page, w.at, p), OnPage(tr[i].page, p));
    }
  }

  lemma {:induction false} Fewer(b: seq<bool>, c: seq<bool>)
    requires |b| == |c| && forall i :: 0 <= i < |b| && b[i] ==> c[i]
    ensures Count(b) <= Count(c)
  {
    if b != [] { Fewer(b[..|b| - 1], c[..|c| - 1]); }
  }

  lemma AllBack(s: State, w: View, x: Sid)
    requires Inv(s, w) && s.final == Over && x < |w.at| && x < |s.inUse| && !s.inUse[x]
    ensures w.at[x] == Back
  {
    forall e | 0 <= e < |s.pcs| ensures s.pcs[e] == Gone && w.mine[e] == [] && Holds(w.at, [], Mine(e)) {
      assert PcOk(s, w, e);
      EmptyList(s, w, e);
      assert Chained(s.next, HeadOf(s, e), w.at, w.mine[e], Mine(e));
    }
    assert AtOk(s, w, x);
  }

  /** When all is finalized and no ULT is left, every page has all its stacks back. */
  lemma EveryPageIsWhole(tr: seq<State>, i: nat, p: Pid)
    requires Run(tr) && i < |tr| && tr[i].final == Over && (forall x :: 0 <= x < |tr[i].inUse| ==> !tr[i].inUse[x])
    requires p < |tr[i].total|
    ensures |tr[i].empty| == |tr[i].total| && tr[i].empty[p] == tr[i].total[p]
  {
    var w := RunKeeps(tr, i);
    var s := tr[i];
    forall x | 0 <= x < |w.at| ensures w.at[x] == Back { AllBack(s, w, x); }
    assert BackOn(s.page, w.at, p) == OnPage(s.page, p);
  }
}
