/** What every step on the stack pools keeps. */
module StackPoolInvariant {
  import opened Basics
  import opened StackPool
  import opened StackChains

  /** The lists behind the pointers: the global list, the own list of each ES (while it walks a list
      that it has taken, that one), and where every stack is. */
  datatype View = View(at: seq<At>, global: seq<Sid>, mine: seq<seq<Sid>>)

  function HeadOf(s: State, e: Es): Option<Sid>
    requires Sane(s, e)
  {
    match s.pcs[e]
    case Walk(first, _, _) => Some(first)
    case FinWalk(rest) => rest
    case _ => s.local[e]
  }

  function GlobalHead(s: State): Option<Sid>
  {
    if s.final.Counting? then s.final.rest else s.global
  }

  ghost predicate Sizes(s: State, w: View)
  {
    && |s.next| == |s.page| == |s.inUse| == |w.at|
    && |s.pcs| == |s.local| == |s.num| == |w.mine|
    && |s.total| == |s.empty|
  }

  ghost predicate MineInv(s: State, w: View)
    requires Sizes(s, w)
  {
    forall e :: 0 <= e < |s.pcs| ==> Chained(s.next, HeadOf(s, e), w.at, w.mine[e], Mine(e))
  }

  predicate PcOk(s: State, w: View, e: Es)
    requires Sizes(s, w) && e < |s.pcs|
  {
    var p := s.pcs[e];
    && (!p.Walk? && !p.FinWalk? ==> s.num[e] == |w.mine[e]|)
    && (p.Walk? ==> s.local[e] == None && p.cnt < |w.mine[e]| && w.mine[e][p.cnt] == p.cur)
    && (p.GlobalLook? || p.TakeRead? || p.TakeCas? || p.NewPage? || p.Gone? ==> s.local[e] == None)
    && (p.PushRead? ==> p.x < |w.at| && w.at[p.x] == Pushing(e))
    && (p.PushCas? ==> p.x < |w.at| && w.at[p.x] == Pushing(e))
    && (s.final != NotYet ==> p == Gone)
  }

  predicate AtOk(s: State, w: View, x: Sid)
    requires Sizes(s, w) && x < |w.at|
  {
    && s.page[x] < |s.total|
    && (s.inUse[x] <==> w.at[x] == Out)
    && (w.at[x].Mine? || w.at[x].Pushing? ==> w.at[x].e < |s.pcs|)
    && (w.at[x].Pushing? ==> var p := s.pcs[w.at[x].e]; (p.PushRead? || p.PushCas?) && p.x == x)
  }

  ghost predicate Inv(s: State, w: View)
  {
    && Sizes(s, w)
    && Chained(s.next, GlobalHead(s), w.at, w.global, Shared)
    && MineInv(s, w)
    && (forall e :: 0 <= e < |s.pcs| ==> PcOk(s, w, e))
    && (forall x :: 0 <= x < |w.at| ==> AtOk(s, w, x))
    && (s.final == Over ==> s.global == None)
  }

  function Tail(q: seq<Sid>): seq<Sid>
  {
    if q == [] then [] else q[1..]
  }

  /** Stack `x` goes to `t`. */
  function Moved(w: View, x: Sid, t: At): View
    requires x < |w.at|
  {
    w.(at := w.at[x := t])
  }

  function NextView(s: State, w: View, a: Act): View
    requires Can(s, a) && Sizes(s, w)
  {
    match a
    case Alloc(e) =>
      if s.local[e] == None then w else Moved(w, s.local[e].value, Out).(mine := w.mine[e := Tail(w.mine[e])])
    case Free(e, x) =>
      if s.num[e] <= s.maxStacks then Moved(w, x, Mine(e)).(mine := w.mine[e := [x] + w.mine[e]])
      else Moved(w, x, Pushing(e))
    case Finalize(e) => w
    case Go(e, k) => GoView(s, w, e, k)
    case FinalizeAll => w
    case CountNext => if s.final.rest == None then w else Moved(w, s.final.rest.value, Back).(global := Tail(w.global))
  }

  function GoView(s: State, w: View, e: Es, k: nat): View
    requires Can(s, Go(e, k)) && Sizes(s, w)
  {
    match s.pcs[e]
    case TakeCas(was) =>
      if s.global != was || was == None then w else View(Taken(w.at, e), [], w.mine[e := w.global])
    case Walk(first, cur, _) =>
      if s.next[cur].Some? then w else Moved(w, first, Out).(mine := w.mine[e := Tail(w.mine[e])])
    case NewPage => w.(at := w.at + NewAt(k, e), mine := w.mine[e := NewList(|w.at|, k)])
    case PushCas(x) => if s.global == s.next[x] then Moved(w, x, Shared).(global := [x] + w.global) else w
    case FinWalk(rest) =>
      if rest == None then w else Moved(w, rest.value, Back).(mine := w.mine[e := Tail(w.mine[e])])
    case _ => w
  }

  /** A step that moves stack `x` to `t` and sets its p_next to `n` leaves the lists of other ESs and,
      unless it is concerned, the global list. */
  lemma Others(s: State, w: View, s': State, x: Sid, n: Option<Sid>, t: At, e: Es)
    requires Inv(s, w) && x < |w.at| && e < |s.pcs|
    requires |s'.pcs| == |s.pcs| == |s'.local| == |s'.num|
    requires forall d :: 0 <= d < |s.pcs| && d != e ==> s'.pcs[d] == s.pcs[d] && s'.local[d] == s.local[d]
    requires w.at[x].Mine? ==> w.at[x].e == e
    requires t.Mine? ==> t.e == e
    ensures forall d :: 0 <= d < |s.pcs| && d != e ==>
              Chained(s.next[x := n], HeadOf(s', d), w.at[x := t], w.mine[d], Mine(d))
    ensures w.at[x] != Shared && t != Shared ==> Chained(s.next[x := n], GlobalHead(s), w.at[x := t], w.global, Shared)
    ensures !w.at[x].Mine? && !t.Mine? ==> Chained(s.next[x := n], HeadOf(s, e), w.at[x := t], w.mine[e], Mine(e))
  {
    hide Chained;
    forall d | 0 <= d < |s.pcs| && d != e
      ensures Chained(s.next[x := n], HeadOf(s', d), w.at[x := t], w.mine[d], Mine(d))
    {
      KeepOther(s.next, HeadOf(s, d), w.at, w.mine[d], Mine(d), x, n, t);
    }
    if w.at[x] != Shared && t != Shared { KeepOther(s.next, GlobalHead(s), w.at, w.global, Shared, x, n, t); }
    if !w.at[x].Mine? && !t.Mine? { KeepOther(s.next, HeadOf(s, e), w.at, w.mine[e], Mine(e), x, n, t); }
  }

  lemma Same(next: seq<Option<Sid>>, x: Sid)
    requires x < |next|
    ensures next[x := next[x]] == next
  {
  }

  // ---- the lists, step by step ----

  lemma AllocLists(s: State, w: View, e: Es)
    requires Inv(s, w) && Can(s, Alloc(e))
    ensures Lists(Next(s, Alloc(e)), NextView(s, w, Alloc(e)))
  {
    if s.local[e].Some? {
      var x := s.local[e].value;
      Drop(s.next, w.at, w.mine[e], Mine(e), x, None, Out);
      Others(s, w, Next(s, Alloc(e)), x, None, Out, e);
    }
  }

  ghost predicate Lists(s: State, w: View)
  {
    Sizes(s, w) && Chained(s.next, GlobalHead(s), w.at, w.global, Shared) && MineInv(s, w)
  }

  lemma FreeLists(s: State, w: View, e: Es, x: Sid)
    requires Inv(s, w) && Can(s, Free(e, x))
    ensures Lists(Next(s, Free(e, x)), NextView(s, w, Free(e, x)))
  {
    var s' := Next(s, Free(e, x));
    assert AtOk(s, w, x) && PcOk(s, w, e);
    if s.num[e] <= s.maxStacks {
      Add(s.next, s.local[e], w.at, w.mine[e], Mine(e), x);
      Others(s, w, s', x, s.local[e], Mine(e), e);
    } else {
      Same(s.next, x);
      Others(s, w, s', x, s.next[x], Pushing(e), e);
    }
  }

  lemma TakeLists(s: State, w: View, e: Es, k: nat)
    requires Inv(s, w) && Can(s, Go(e, k)) && s.pcs[e].TakeCas?
    ensures Lists(Next(s, Go(e, k)), NextView(s, w, Go(e, k)))
  {
    hide Chained, Taken;
    assert PcOk(s, w, e);
    var s' := Next(s, Go(e, k));
    if s.global == s.pcs[e].was && s.global.Some? {
      assert w.mine[e] == [] by { EmptyList(s, w, e); }
      assert Holds(w.at, [], Mine(e)) by { ChainHolds(s.next, HeadOf(s, e), w.at, w.mine[e], Mine(e)); }
      TakeAll(s.next, s.global, w.at, w.global, e);
      forall d | 0 <= d < |s.pcs| && d != e
        ensures Chained(s'.next, HeadOf(s', d), Taken(w.at, e), w.mine[d], Mine(d))
      {
        TakenOther(s.next, HeadOf(s, d), w.at, w.mine[d], e, Mine(d));
      }
      assert |Taken(w.at, e)| == |w.at| by { TakenSize(w.at, e); }
    }
  }

  lemma TakenSize(at: seq<At>, e: Es)
    ensures |Taken(at, e)| == |at|
  {
  }

  lemma ChainHolds(next: seq<Option<Sid>>, head: Option<Sid>, at: seq<At>, q: seq<Sid>, tag: At)
    requires Chained(next, head, at, q, tag)
    ensures Holds(at, q, tag)
  {
  }

  lemma EmptyList(s: State, w: View, e: Es)
    requires Inv(s, w) && e < |s.pcs| && HeadOf(s, e) == None
    ensures w.mine[e] == []
  {
    assert Chained(s.next, HeadOf(s, e), w.at, w.mine[e], Mine(e));
  }

  /** The walk has come to the end of the list that was taken: as many steps as stacks behind the first. */
  lemma WalkEnds(s: State, w: View, e: Es)
    requires Inv(s, w) && e < |s.pcs| && s.pcs[e].Walk?
    ensures var p := s.pcs[e];
            && p.cur < |s.next|
            && (s.next[p.cur] == None <==> p.cnt + 1 == |w.mine[e]|)
            && (s.next[p.cur].Some? ==> p.cnt + 1 < |w.mine[e]| && s.next[p.cur].value == w.mine[e][p.cnt + 1])
  {
    assert PcOk(s, w, e);
    assert Chained(s.next, HeadOf(s, e), w.at, w.mine[e], Mine(e));
    assert LinkOk(s.next, w.mine[e], s.pcs[e].cnt);
  }

  lemma WalkLists(s: State, w: View, e: Es, k: nat)
    requires Inv(s, w) && Can(s, Go(e, k)) && s.pcs[e].Walk?
    ensures Lists(Next(s, Go(e, k)), NextView(s, w, Go(e, k)))
  {
    hide PcOk, AtOk, Taken, NewAt, NewList;
    var x := s.pcs[e].first;
    if s.next[s.pcs[e].cur] == None {
      Drop(s.next, w.at, w.mine[e], Mine(e), x, None, Out);
      Others(s, w, Next(s, Go(e, k)), x, None, Out, e);
    }
  }

  lemma PageLists(s: State, w: View, e: Es, k: nat)
    requires Inv(s, w) && Can(s, Go(e, k)) && s.pcs[e].NewPage?
    ensures Lists(Next(s, Go(e, k)), NextView(s, w, Go(e, k)))
  {
    hide Chained;
    assert PcOk(s, w, e);
    var s' := Next(s, Go(e, k));
    EmptyList(s, w, e);
    GrowOwn(s.next, w.at, k, e);
    GrowOther(s.next, GlobalHead(s), w.at, w.global, Shared, k, e);
    forall d | 0 <= d < |s.pcs| && d != e
      ensures Chained(s'.next, HeadOf(s', d), w.at + NewAt(k, e), w.mine[d], Mine(d))
    {
      GrowOther(s.next, HeadOf(s, d), w.at, w.mine[d], Mine(d), k, e);
    }
  }

  lemma PushLists(s: State, w: View, e: Es, k: nat)
    requires Inv(s, w) && Can(s, Go(e, k)) && (s.pcs[e].PushRead? || s.pcs[e].PushCas?)
    ensures Lists(Next(s, Go(e, k)), NextView(s, w, Go(e, k)))
  {
    var s' := Next(s, Go(e, k));
    var x := s.pcs[e].x;
    assert PcOk(s, w, e);
    assert w.at[x := w.at[x]] == w.at;
    if s.pcs[e].PushRead? {
      Others(s, w, s', x, s.global, w.at[x], e);
    } else if s.global == s.next[x] {
      Same(s.next, x);
      Add(s.next, s.global, w.at, w.global, Shared, x);
      Others(s, w, s', x, s.next[x], Shared, e);
    }
  }

  lemma FinLists(s: State, w: View, e: Es, k: nat)
    requires Inv(s, w) && Can(s, Go(e, k)) && s.pcs[e].FinWalk?
    ensures Lists(Next(s, Go(e, k)), NextView(s, w, Go(e, k)))
  {
    hide Chained;
    var s' := Next(s, Go(e, k));
    if s.pcs[e].rest.Some? {
      var x := s.pcs[e].rest.value;
      Drop(s.next, w.at, w.mine[e], Mine(e), x, s.next[x], Back);
      Same(s.next, x);
      Others(s, w, s', x, s.next[x], Back, e);
    } else {
      EmptyList(s, w, e);
    }
  }

  lemma CountLists(s: State, w: View)
    requires Inv(s, w) && Can(s, CountNext)
    ensures Lists(Next(s, CountNext), NextView(s, w, CountNext))
  {
    var s' := Next(s, CountNext);
    if s.final.rest.Some? {
      var x := s.final.rest.value;
      Drop(s.next, w.at, w.global, Shared, x, s.next[x], Back);
      Same(s.next, x);
      forall d | 0 <= d < |s.pcs| ensures Chained(s'.next, HeadOf(s', d), w.at[x := Back], w.mine[d], Mine(d)) {
        KeepOther(s.next, HeadOf(s, d), w.at, w.mine[d], Mine(d), x, s.next[x], Back);
      }
    }
  }

  // ---- the program counters and the places ----

  lemma GoPc(s: State, w: View, e: Es, k: nat)
    requires Inv(s, w) && Can(s, Go(e, k)) && Lists(Next(s, Go(e, k)), NextView(s, w, Go(e, k)))
    ensures PcOk(Next(s, Go(e, k)), NextView(s, w, Go(e, k)), e)
  {
    hide Chained, Taken;
    assert PcOk(s, w, e);
    match s.pcs[e]
    case Walk(_, _, _) => WalkEnds(s, w, e);
    case TakeCas(was) =>
      EmptyList(s, w, e);
      if s.global == was && was.Some? { GlobalFirst(s, w); }
    case FinWalk(_) => if s.pcs[e].rest == None { EmptyList(s, w, e); }
    case NewPage => EmptyList(s, w, e);
    case _ =>
  }

  lemma GlobalFirst(s: State, w: View)
    requires Inv(s, w) && s.global.Some? && s.final == NotYet
    ensures w.global != [] && w.global[0] == s.global.value
  {
  }

  lemma CallPc(s: State, w: View, a: Act, e: Es)
    requires Inv(s, w) && Can(s, a) && !a.Go? && e < |s.pcs| && Sizes(Next(s, a), NextView(s, w, a))
    ensures PcOk(Next(s, a), NextView(s, w, a), e)
  {
    hide Chained;
    assert PcOk(s, w, e);
    if a.Free? { assert AtOk(s, w, a.x); }
    if a.Alloc? && s.local[a.e].Some? { LocalFirst(s, w, a.e); }
    if a.Free? || a.Alloc? { assert PcOk(s, w, a.e); }
    if a.CountNext? && s.final.rest.Some? { FinalFirst(s, w); }
  }

  lemma LocalFirst(s: State, w: View, e: Es)
    requires Inv(s, w) && e < |s.pcs| && HeadOf(s, e).Some?
    ensures w.mine[e] != [] && w.mine[e][0] == HeadOf(s, e).value < |w.at| && w.at[HeadOf(s, e).value] == Mine(e)
  {
    assert Chained(s.next, HeadOf(s, e), w.at, w.mine[e], Mine(e));
  }

  lemma FinalFirst(s: State, w: View)
    requires Inv(s, w) && GlobalHead(s).Some?
    ensures w.global != [] && w.global[0] == GlobalHead(s).value < |w.at| && w.at[GlobalHead(s).value] == Shared
  {
  }

  /** What the invariant says about the ES that goes on. */
  ghost predicate GoHere(s: State, w: View, e: Es, k: nat)
  {
    && Can(s, Go(e, k)) && Sizes(s, w) && PcOk(s, w, e)
    && Sizes(Next(s, Go(e, k)), NextView(s, w, Go(e, k)))
    && (HeadOf(s, e).Some? ==> HeadOf(s, e).value < |w.at| && w.at[HeadOf(s, e).value] == Mine(e))
  }

  lemma IsGoHere(s: State, w: View, e: Es, k: nat)
    requires Inv(s, w) && Can(s, Go(e, k)) && Sizes(Next(s, Go(e, k)), NextView(s, w, Go(e, k)))
    ensures GoHere(s, w, e, k)
  {
    hide Chained, AtOk, PcOk, Next, NextView;
    assert PcOk(s, w, e);
    if HeadOf(s, e).Some? { LocalFirst(s, w, e); }
  }

  /** Another ES keeps its program counter and its list. */
  lemma OtherEs(s: State, w: View, e: Es, k: nat, d: Es)
    requires GoHere(s, w, e, k) && d < |s.pcs| && d != e
    ensures var s', w' := Next(s, Go(e, k)), NextView(s, w, Go(e, k));
            && |s'.pcs| == |s.pcs| && s'.pcs[d] == s.pcs[d] && s'.local[d] == s.local[d] && s'.num[d] == s.num[d]
            && w'.mine[d] == w.mine[d] && s'.final == s.final
  {
    hide PcOk, Taken, NewAt, NewList, Links;
  }

  /** A stack that another ES is pushing stays with it. */
  lemma OtherPushing(s: State, w: View, e: Es, k: nat, d: Es, x: Sid)
    requires GoHere(s, w, e, k) && d != e && x < |w.at| && w.at[x] == Pushing(d)
    ensures var w' := NextView(s, w, Go(e, k)); x < |w'.at| && w'.at[x] == Pushing(d)
  {
    hide NewList, Links;
  }

  lemma OtherPc(s: State, w: View, e: Es, k: nat, d: Es)
    requires Inv(s, w) && Can(s, Go(e, k)) && d < |s.pcs| && d != e
    requires Sizes(Next(s, Go(e, k)), NextView(s, w, Go(e, k)))
    ensures PcOk(Next(s, Go(e, k)), NextView(s, w, Go(e, k)), d)
  {
    hide Chained, MineInv, AtOk, Next, NextView, GoHere;
    assert PcOk(s, w, d);
    IsGoHere(s, w, e, k);
    OtherEs(s, w, e, k, d);
    if s.pcs[d].PushRead? || s.pcs[d].PushCas? { OtherPushing(s, w, e, k, d, s.pcs[d].x); }
  }

  lemma AllocAt(s: State, w: View, e: Es, x: Sid)
    requires Inv(s, w) && Can(s, Alloc(e)) && Sizes(Next(s, Alloc(e)), NextView(s, w, Alloc(e))) && x < |w.at|
    ensures AtOk(Next(s, Alloc(e)), NextView(s, w, Alloc(e)), x)
  {
    hide Chained, MineInv;
    assert AtOk(s, w, x) && PcOk(s, w, e);
    if s.local[e].Some? { LocalFirst(s, w, e); }
  }

  lemma FreeAt(s: State, w: View, e: Es, y: Sid, x: Sid)
    requires Inv(s, w) && Can(s, Free(e, y)) && Sizes(Next(s, Free(e, y)), NextView(s, w, Free(e, y))) && x < |w.at|
    ensures AtOk(Next(s, Free(e, y)), NextView(s, w, Free(e, y)), x)
  {
    hide Chained, MineInv;
    assert AtOk(s, w, x) && PcOk(s, w, e) && AtOk(s, w, y);
  }

  lemma StepAt(s: State, w: View, a: Act, x: Sid)
    requires Inv(s, w) && Can(s, a) && Sizes(Next(s, a), NextView(s, w, a)) && x < |NextView(s, w, a).at|
    ensures AtOk(Next(s, a), NextView(s, w, a), x)
  {
    hide Chained, MineInv, PcOk, GoHere, GoNext, GoView;
    assert x < |w.at| ==> AtOk(s, w, x);
    match a
    case Alloc(e) => AllocAt(s, w, e, x);
    case Free(e, y) => FreeAt(s, w, e, y, x);
    case Go(e, k) =>
      IsGoHere(s, w, e, k);
      GoAt(s, w, e, k, x);
    case CountNext => if s.final.rest.Some? { FinalFirst(s, w); }
    case _ =>
  }

  lemma MoveAt(s: State, w: View, e: Es, k: nat, x: Sid)
    requires GoHere(s, w, e, k) && x < |w.at| && AtOk(s, w, x)
    requires s.pcs[e].Walk? || s.pcs[e].PushCas? || s.pcs[e].FinWalk?
    ensures x < |NextView(s, w, Go(e, k)).at| && AtOk(Next(s, Go(e, k)), NextView(s, w, Go(e, k)), x)
  {
  }

  lemma TakeAt(s: State, w: View, e: Es, k: nat, x: Sid)
    requires GoHere(s, w, e, k) && x < |w.at| && AtOk(s, w, x) && s.pcs[e].TakeCas?
    ensures x < |NextView(s, w, Go(e, k)).at| && AtOk(Next(s, Go(e, k)), NextView(s, w, Go(e, k)), x)
  {
  }

  lemma PageAt(s: State, w: View, e: Es, k: nat, x: Sid)
    requires GoHere(s, w, e, k) && x < |NextView(s, w, Go(e, k)).at| && s.pcs[e].NewPage?
    requires x < |w.at| ==> AtOk(s, w, x)
    ensures AtOk(Next(s, Go(e, k)), NextView(s, w, Go(e, k)), x)
  {
  }

  lemma LookAt(s: State, w: View, e: Es, k: nat, x: Sid)
    requires GoHere(s, w, e, k) && x < |w.at| && AtOk(s, w, x)
    requires s.pcs[e].GlobalLook? || s.pcs[e].TakeRead? || s.pcs[e].PushRead?
    ensures x < |NextView(s, w, Go(e, k)).at| && AtOk(Next(s, Go(e, k)), NextView(s, w, Go(e, k)), x)
  {
  }

  lemma GoAt(s: State, w: View, e: Es, k: nat, x: Sid)
    requires GoHere(s, w, e, k) && x < |NextView(s, w, Go(e, k)).at|
    requires x < |w.at| ==> AtOk(s, w, x)
    ensures AtOk(Next(s, Go(e, k)), NextView(s, w, Go(e, k)), x)
  {
    hide PcOk, AtOk, Next;
    var p := s.pcs[e];
    if p.NewPage? { PageAt(s, w, e, k, x); }
    else if p.TakeCas? { TakeAt(s, w, e, k, x); }
    else if p.Walk? || p.PushCas? || p.FinWalk? { MoveAt(s, w, e, k, x); }
    else { LookAt(s, w, e, k, x); }
  }

  lemma StepLists(s: State, w: View, a: Act)
    requires Inv(s, w) && Can(s, a)
    ensures Lists(Next(s, a), NextView(s, w, a))
  {
    hide Chained;
    match a
    case Alloc(e) => AllocLists(s, w, e);
    case Free(e, x) => FreeLists(s, w, e, x);
    case CountNext => CountLists(s, w);
    case Go(e, k) =>
      if s.pcs[e].TakeCas? { TakeLists(s, w, e, k); }
      else if s.pcs[e].Walk? { WalkLists(s, w, e, k); }
      else if s.pcs[e].NewPage? { PageLists(s, w, e, k); }
      else if s.pcs[e].PushRead? || s.pcs[e].PushCas? { PushLists(s, w, e, k); }
      else if s.pcs[e].FinWalk? { FinLists(s, w, e, k); }
    case _ =>
  }

  lemma StepKeeps(s: State, w: View, a: Act)
    requires Inv(s, w) && Can(s, a)
    ensures Sizes(s, w) && Inv(Next(s, a), NextView(s, w, a))
  {
    var s', w' := Next(s, a), NextView(s, w, a);
    StepLists(s, w, a);
    hide Chained, PcOk, AtOk, Next, NextView, MineInv;
    assert Sizes(s', w') by { ListsSizes(s', w'); }
    forall e | 0 <= e < |s'.pcs| ensures PcOk(s', w', e) {
      if !a.Go? { CallPc(s, w, a, e); }
      else if e == a.e { GoPc(s, w, e, a.k); }
      else { OtherPc(s, w, a.e, a.k, e); }
    }
    forall x | 0 <= x < |w'.at| ensures AtOk(s', w', x) { StepAt(s, w, a, x); }
    FinalStep(s, w, a);
  }

  lemma ListsSizes(s: State, w: View)
    requires Lists(s, w)
    ensures Sizes(s, w) && Chained(s.next, GlobalHead(s), w.at, w.global, Shared) && MineInv(s, w)
  {
  }

  lemma FinalStep(s: State, w: View, a: Act)
    requires Inv(s, w) && Can(s, a)
    ensures Next(s, a).final == Over ==> Next(s, a).global == None
  {
    if a.Go? { assert PcOk(s, w, a.e); }
  }
}
