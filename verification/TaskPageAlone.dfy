/** What each operation on a task page does when no other ES steps in between, and when a page that is
    given up is released. */
module TaskPageAlone {
  import opened Basics
  import opened Counting
  import opened TaskPage
  import opened TaskPageTheorems

  /** The call and `n` steps of the same ES behind it lead from `s` to `s'`. */
  ghost predicate Leads(s: State, call: Act, n: nat, s': State)
  {
    if n == 0 then Can(s, call) && s' == Next(s, call)
    else exists m :: Leads(s, call, n - 1, m) && Can(m, Go(call.e)) && s' == Next(m, Go(call.e))
  }

  lemma More(s: State, call: Act, n: nat, m: State, s': State)
    requires Leads(s, call, n, m) && Can(m, Go(call.e)) && s' == Next(m, Go(call.e))
    ensures Leads(s, call, n + 1, s')
  {
  }

  lemma Begins(s: State, call: Act, s': State)
    requires Can(s, call) && s' == Next(s, call)
    ensures Leads(s, call, 0, s')
  {
  }

  predicate Calls(s: State, e: Es)
  {
    e < |s.pcs| && s.pcs[e] == Idle
  }

  /** A new page of `blocks` blocks, with any of the ESs as its owner. */
  lemma Starts(blocks: nat, ess: nat, owner: Es)
    ensures Init(State(seq(blocks, i => Free), seq(blocks, i => i), [], blocks, 0, Owned(owner), seq(ess, i => Idle)))
  {
  }

  // ---- allocation ----

  /** An allocation takes the first block of p_head. */
  lemma Allocates(s: State, e: Es)
    requires Calls(s, e) && s.place == Owned(e) && s.head != [] && s.head[0] < |s.use|
    ensures Leads(s, CallAlloc(e), 3,
                  s.(head := s.head[1..], use := s.use[s.head[0] := InUse], empty := s.empty - 1))
  {
    hide Leads, FreeNext;
    var s0 := s.(pcs := s.pcs[e := AllocLook]);
    Begins(s, CallAlloc(e), s0);
    var s1 := s.(pcs := s.pcs[e := AllocPop]);
    More(s, CallAlloc(e), 0, s0, s1);
    TakesFirst(s, s1, CallAlloc(e), 1);
    assert s1.pcs[e := Idle] == s.pcs;
  }

  lemma TakesFirst(s: State, m: State, call: Act, n: nat)
    requires Leads(s, call, n, m) && call.e < |m.pcs| && m.pcs[call.e] == AllocPop
    requires m.head != [] && m.head[0] < |m.use|
    ensures Leads(s, call, n + 2, m.(head := m.head[1..], use := m.use[m.head[0] := InUse], empty := m.empty - 1,
                                     pcs := m.pcs[call.e := Idle]))
  {
    hide Leads, FreeNext;
    var m1 := m.(head := m.head[1..], use := m.use[m.head[0] := InUse], pcs := m.pcs[call.e := AllocCount]);
    More(s, call, n, m, m1);
    More(s, call, n + 1, m1, m1.(empty := m.empty - 1, pcs := m.pcs[call.e := Idle]));
  }

  lemma SubtractsCount(s: State, m: State, call: Act, n: nat, why: Purpose)
    requires Leads(s, call, n, m) && call.e < |m.pcs| && m.pcs[call.e] == TakeCount(why)
    ensures Leads(s, call, n + 2, m.(remote := 0, pcs := m.pcs[call.e := TakeAdd(m.remote, why)]))
  {
    hide Leads, FreeNext;
    var m1 := m.(pcs := m.pcs[call.e := TakeSub(m.remote, why)]);
    More(s, call, n, m, m1);
    More(s, call, n + 1, m1, m.(remote := 0, pcs := m.pcs[call.e := TakeAdd(m.remote, why)]));
  }

  lemma AddsCount(s: State, m: State, call: Act, n: nat, k: int, why: Purpose)
    requires Leads(s, call, n, m) && call.e < |m.pcs| && m.pcs[call.e] == TakeAdd(k, why)
    ensures Leads(s, call, n + 1, m.(empty := m.empty + k, pcs := m.pcs[call.e := TakeRead(why)]))
  {
    hide Leads, FreeNext;
    More(s, call, n, m, m.(empty := m.empty + k, pcs := m.pcs[call.e := TakeRead(why)]));
  }

  lemma TakesList(s: State, m: State, call: Act, n: nat, why: Purpose)
    requires Leads(s, call, n, m) && call.e < |m.pcs| && m.pcs[call.e] == TakeRead(why)
    ensures Leads(s, call, n + 2,
                  m.(head := m.free, free := [],
                     pcs := m.pcs[call.e := if why == ForAlloc then AllocPop
                                            else if why == ForLeave then Disown else AdoptEnd]))
  {
    hide Leads, FreeNext;
    var m1 := m.(head := [], pcs := m.pcs[call.e := TakeCas(First(m.free), why)]);
    More(s, call, n, m, m1);
    More(s, call, n + 1, m1, m.(head := m.free, free := [],
                                pcs := m.pcs[call.e := if why == ForAlloc then AllocPop
                                                       else if why == ForLeave then Disown else AdoptEnd]));
  }

  /** take_free: the remote list becomes the local one, and its count is moved. */
  lemma Takes(s: State, m: State, call: Act, n: nat, why: Purpose)
    requires Leads(s, call, n, m) && call.e < |m.pcs| && m.pcs[call.e] == TakeCount(why)
    ensures Leads(s, call, n + 5,
                  m.(head := m.free, free := [], empty := m.empty + m.remote, remote := 0,
                     pcs := m.pcs[call.e := if why == ForAlloc then AllocPop
                                            else if why == ForLeave then Disown else AdoptEnd]))
  {
    hide Leads, FreeNext, OwnerNext, AfterTake;
    var e := call.e;
    SubtractsCount(s, m, call, n, why);
    var m2 := m.(remote := 0, pcs := m.pcs[e := TakeAdd(m.remote, why)]);
    AddsCount(s, m2, call, n + 2, m.remote, why);
    var m3 := m.(remote := 0, empty := m.empty + m.remote, pcs := m.pcs[e := TakeRead(why)]);
    assert m2.pcs[e := TakeRead(why)] == m3.pcs;
    TakesList(s, m3, call, n + 3, why);
    var p := if why == ForAlloc then AllocPop else if why == ForLeave then Disown else AdoptEnd;
    assert m3.pcs[e := p] == m.pcs[e := p];
  }

  /** If p_head is empty it first takes the remote list over, and its count; if both are empty the page has
      nothing to give, and is left as it is. */
  lemma AllocatesFromRemote(s: State, e: Es)
    requires Calls(s, e) && s.place == Owned(e) && s.head == []
    ensures s.free == [] ==> Leads(s, CallAlloc(e), 1, s)
    ensures s.free != [] && s.free[0] < |s.use| ==>
              Leads(s, CallAlloc(e), 8,
                    s.(head := s.free[1..], free := [], use := s.use[s.free[0] := InUse],
                       empty := s.empty + s.remote - 1, remote := 0))
  {
    hide Leads, FreeNext;
    var s0 := s.(pcs := s.pcs[e := AllocLook]);
    Begins(s, CallAlloc(e), s0);
    assert s.pcs[e := Idle] == s.pcs;
    if s.free == [] {
      More(s, CallAlloc(e), 0, s0, s);
    } else if s.free[0] < |s.use| {
      var s1 := s.(pcs := s.pcs[e := TakeCount(ForAlloc)]);
      More(s, CallAlloc(e), 0, s0, s1);
      Takes(s, s1, CallAlloc(e), 1, ForAlloc);
      assert s1.pcs[e := AllocPop] == s.pcs[e := AllocPop];
      var s2 := s.(head := s.free, free := [], empty := s.empty + s.remote, remote := 0, pcs := s.pcs[e := AllocPop]);
      TakesFirst(s, s2, CallAlloc(e), 6);
      assert s2.pcs[e := Idle] == s.pcs;
    }
  }

  // ---- free ----

  /** The owner of the page puts a block that it frees in front of p_head, and counts it. */
  lemma FreesLocally(s: State, e: Es, b: Blk)
    requires Calls(s, e) && b < |s.use| && s.use[b] == InUse && s.place == Owned(e)
    ensures Leads(s, CallFree(e, b), 3, s.(head := [b] + s.head, use := s.use[b := Free], empty := s.empty + 1))
  {
    hide Leads, OwnerNext;
    var g := s.(use := s.use[b := Going]);
    var s0 := g.(pcs := s.pcs[e := FreeCheck(b)]);
    Begins(s, CallFree(e, b), s0);
    var s1 := g.(pcs := s.pcs[e := FreeLocal(b)]);
    More(s, CallFree(e, b), 0, s0, s1);
    var s2 := s.(head := [b] + s.head, use := s.use[b := Free], pcs := s.pcs[e := FreeLocalCount]);
    More(s, CallFree(e, b), 1, s1, s2);
    More(s, CallFree(e, b), 2, s2, s2.(empty := s.empty + 1, pcs := s.pcs));
  }

  /** Any other ES puts it in front of p_free, and counts it there. */
  lemma FreesRemotely(s: State, e: Es, b: Blk)
    requires Calls(s, e) && b < |s.use| && s.use[b] == InUse && s.place != Owned(e)
    ensures Leads(s, CallFree(e, b), 4, s.(free := [b] + s.free, use := s.use[b := Free], remote := s.remote + 1))
  {
    hide Leads, OwnerNext;
    var g := s.(use := s.use[b := Going]);
    var s0 := g.(pcs := s.pcs[e := FreeCheck(b)]);
    Begins(s, CallFree(e, b), s0);
    var s1 := g.(pcs := s.pcs[e := FreeRead(b)]);
    More(s, CallFree(e, b), 0, s0, s1);
    var s2 := g.(pcs := s.pcs[e := FreeCas(b, First(s.free))]);
    More(s, CallFree(e, b), 1, s1, s2);
    var s3 := s.(free := [b] + s.free, use := s.use[b := Free], pcs := s.pcs[e := FreeCount]);
    More(s, CallFree(e, b), 2, s2, s3);
    More(s, CallFree(e, b), 3, s3, s3.(remote := s.remote + 1, pcs := s.pcs));
  }

  /** A compare-and-swap that comes too late changes nothing, and is tried again from the read on. */
  lemma Retries(s: State, e: Es, b: Blk, was: Option<Blk>, why: Purpose)
    requires e < |s.pcs| && (if s.free == [] then was != None else was != Some(s.free[0]))
    ensures s.pcs[e] == FreeCas(b, was) && b < |s.use| ==>
              Can(s, Go(e)) && Next(s, Go(e)) == s.(pcs := s.pcs[e := FreeRead(b)])
    ensures s.pcs[e] == TakeCas(was, why) ==>
              Can(s, Go(e)) && Next(s, Go(e)) == s.(pcs := s.pcs[e := TakeRead(why)])
  {
  }

  // ---- giving a page up, and adopting it ----

  /** An ES that gives its page up releases it if the counts add up to all blocks. */
  lemma Releases(s: State, e: Es)
    requires Calls(s, e) && s.place == Owned(e) && s.empty + s.remote == |s.use|
    ensures Leads(s, CallFinalize(e), 2, s.(place := Released))
  {
    hide Leads, FreeNext;
    var s0 := s.(pcs := s.pcs[e := SumEmpty]);
    Begins(s, CallFinalize(e), s0);
    assert s.pcs[e := Idle] == s.pcs;
    var s1 := s.(pcs := s.pcs[e := SumRemote(s.empty)]);
    More(s, CallFinalize(e), 0, s0, s1);
    More(s, CallFinalize(e), 1, s1, s.(place := Released));
  }

  /** If they do not, the page becomes global, with the remote list as its local one if there is any. */
  lemma GivesUp(s: State, e: Es)
    requires Calls(s, e) && s.place == Owned(e) && s.empty + s.remote != |s.use|
    ensures s.free == [] ==> Leads(s, CallFinalize(e), 5, s.(place := Global))
    ensures s.free != [] ==>
              Leads(s, CallFinalize(e), 10,
                    s.(place := Global, head := s.free, free := [], empty := s.empty + s.remote, remote := 0))
  {
    hide Leads, FreeNext;
    var s0 := s.(pcs := s.pcs[e := SumEmpty]);
    Begins(s, CallFinalize(e), s0);
    var s1 := s.(pcs := s.pcs[e := SumRemote(s.empty)]);
    More(s, CallFinalize(e), 0, s0, s1);
    var s2 := s.(pcs := s.pcs[e := LeaveLook]);
    More(s, CallFinalize(e), 1, s1, s2);
    Leaves(s, s2, CallFinalize(e), 2);
    assert s2.pcs[e := Idle] == s.pcs;
  }

  lemma Leaves(s: State, m: State, call: Act, n: nat)
    requires Leads(s, call, n, m) && call.e < |m.pcs| && m.pcs[call.e] == LeaveLook
    ensures m.free == [] ==> Leads(s, call, n + 3, m.(place := Global, pcs := m.pcs[call.e := Idle]))
    ensures m.free != [] ==>
              Leads(s, call, n + 8, m.(place := Global, head := m.free, free := [], empty := m.empty + m.remote,
                                       remote := 0, pcs := m.pcs[call.e := Idle]))
  {
    hide Leads, FreeNext;
    var e := call.e;
    if m.free == [] {
      var m1 := m.(pcs := m.pcs[e := Disown]);
      More(s, call, n, m, m1);
      Publishes(s, m1, call, n + 1);
      assert m1.pcs[e := Idle] == m.pcs[e := Idle];
    } else {
      var m1 := m.(pcs := m.pcs[e := TakeCount(ForLeave)]);
      More(s, call, n, m, m1);
      Takes(s, m1, call, n + 1, ForLeave);
      assert m1.pcs[e := Disown] == m.pcs[e := Disown];
      var m2 := m.(head := m.free, free := [], empty := m.empty + m.remote, remote := 0, pcs := m.pcs[e := Disown]);
      Publishes(s, m2, call, n + 6);
      assert m2.pcs[e := Idle] == m.pcs[e := Idle];
    }
  }

  lemma Publishes(s: State, m: State, call: Act, n: nat)
    requires Leads(s, call, n, m) && call.e < |m.pcs| && m.pcs[call.e] == Disown
    ensures Leads(s, call, n + 2, m.(place := Global, pcs := m.pcs[call.e := Idle]))
  {
    hide Leads, FreeNext;
    var m1 := m.(place := Transit(call.e), pcs := m.pcs[call.e := Publish]);
    More(s, call, n, m, m1);
    More(s, call, n + 1, m1, m.(place := Global, pcs := m.pcs[call.e := Idle]));
  }

  /** An ES that adopts a global page owns it and takes a block out of it: of the remote list if there is
      any, and else of the local one; none if both are empty. */
  lemma Adopts(s: State, e: Es)
    requires Calls(s, e) && s.place == Global
    ensures s.free == [] && s.head == [] ==> Leads(s, CallAdopt(e), 3, s.(place := Owned(e)))
    ensures s.free == [] && s.head != [] && s.head[0] < |s.use| ==>
              Leads(s, CallAdopt(e), 5,
                    s.(place := Owned(e), head := s.head[1..], use := s.use[s.head[0] := InUse], empty := s.empty - 1))
    ensures s.free != [] && s.free[0] < |s.use| ==>
              Leads(s, CallAdopt(e), 10,
                    s.(place := Owned(e), head := s.free[1..], free := [], use := s.use[s.free[0] := InUse],
                       empty := s.empty + s.remote - 1, remote := 0))
  {
    hide Leads, FreeNext;
    var s0 := s.(pcs := s.pcs[e := Adopt], place := Transit(e));
    Begins(s, CallAdopt(e), s0);
    var s1 := s.(place := Owned(e), pcs := s.pcs[e := AdoptLook]);
    More(s, CallAdopt(e), 0, s0, s1);
    Looks(s, s1, CallAdopt(e), 1);
    assert s1.pcs[e := Idle] == s.pcs;
  }

  lemma Looks(s: State, m: State, call: Act, n: nat)
    requires Leads(s, call, n, m) && call.e < |m.pcs| && m.pcs[call.e] == AdoptLook
    ensures m.free == [] && m.head == [] ==> Leads(s, call, n + 2, m.(pcs := m.pcs[call.e := Idle]))
    ensures m.free == [] && m.head != [] && m.head[0] < |m.use| ==>
              Leads(s, call, n + 4, m.(head := m.head[1..], use := m.use[m.head[0] := InUse], empty := m.empty - 1,
                                       pcs := m.pcs[call.e := Idle]))
    ensures m.free != [] && m.free[0] < |m.use| ==>
              Leads(s, call, n + 9, m.(head := m.free[1..], free := [], use := m.use[m.free[0] := InUse],
                                       empty := m.empty + m.remote - 1, remote := 0, pcs := m.pcs[call.e := Idle]))
  {
    hide Leads, FreeNext;
    var e := call.e;
    if m.free == [] {
      var m1 := m.(pcs := m.pcs[e := AdoptEnd]);
      More(s, call, n, m, m1);
      Settles(s, m1, call, n + 1);
      assert m1.pcs[e := Idle] == m.pcs[e := Idle];
    } else {
      var m1 := m.(pcs := m.pcs[e := TakeCount(ForAdopt)]);
      More(s, call, n, m, m1);
      Takes(s, m1, call, n + 1, ForAdopt);
      assert m1.pcs[e := AdoptEnd] == m.pcs[e := AdoptEnd];
      var m2 := m.(head := m.free, free := [], empty := m.empty + m.remote, remote := 0, pcs := m.pcs[e := AdoptEnd]);
      Settles(s, m2, call, n + 6);
      assert m2.pcs[e := Idle] == m.pcs[e := Idle];
    }
  }

  lemma Settles(s: State, m: State, call: Act, n: nat)
    requires Leads(s, call, n, m) && call.e < |m.pcs| && m.pcs[call.e] == AdoptEnd
    ensures m.head == [] ==> Leads(s, call, n + 1, m.(pcs := m.pcs[call.e := Idle]))
    ensures m.head != [] && m.head[0] < |m.use| ==>
              Leads(s, call, n + 3, m.(head := m.head[1..], use := m.use[m.head[0] := InUse], empty := m.empty - 1,
                                       pcs := m.pcs[call.e := Idle]))
  {
    hide Leads, FreeNext;
    if m.head == [] {
      More(s, call, n, m, m.(pcs := m.pcs[call.e := Idle]));
    } else if m.head[0] < |m.use| {
      var m1 := m.(pcs := m.pcs[call.e := AllocPop]);
      More(s, call, n, m, m1);
      TakesFirst(s, m1, call, n + 1);
      assert m1.pcs[call.e := Idle] == m.pcs[call.e := Idle];
    }
  }

  // ---- release, in every run ----

  predicate Finalizes(p: Pc)
  {
    p == Idle || p == SumEmpty || p.SumRemote? || p == LeaveLook || p == Disown || p == Publish
    || Purposes(p) == Some(ForLeave)
  }

  /** Giving a page up changes the use of no block. */
  lemma {:induction false} UseStays(s: State, e: Es, n: nat, s': State)
    requires Inv(s) && Leads(s, CallFinalize(e), n, s')
    ensures Inv(s') && s'.use == s.use && e < |s'.pcs| && Finalizes(s'.pcs[e])
  {
    hide Inv, Can, FreeNext, OwnerNext;
    if n == 0 {
      StepKeeps(s, CallFinalize(e));
      assert e < |s.pcs| by { InRange(s, CallFinalize(e)); }
    } else {
      var m :| Leads(s, CallFinalize(e), n - 1, m) && Can(m, Go(e)) && s' == Next(m, Go(e));
      UseStays(s, e, n - 1, m);
      StepKeeps(m, Go(e));
      UseStaysOnce(m, e);
    }
  }

  lemma UseStaysOnce(s: State, e: Es)
    requires Can(s, Go(e)) && Finalizes(s.pcs[e])
    ensures Next(s, Go(e)).use == s.use && e < |Next(s, Go(e)).pcs| && Finalizes(Next(s, Go(e)).pcs[e])
  {
    hide FreeNext, OwnerNext;
    if Purposes(s.pcs[e]).Some? { UseStaysTaking(s, e); } else { UseStaysLeaving(s, e); }
  }

  lemma UseStaysTaking(s: State, e: Es)
    requires Can(s, Go(e)) && Purposes(s.pcs[e]) == Some(ForLeave)
    ensures var s' := OwnerNext(s, e); s'.use == s.use && e < |s'.pcs| && Finalizes(s'.pcs[e])
  {
  }

  lemma UseStaysLeaving(s: State, e: Es)
    requires Can(s, Go(e)) && Finalizes(s.pcs[e]) && Purposes(s.pcs[e]) == None
    ensures var s' := OwnerNext(s, e); s'.use == s.use && e < |s'.pcs| && Finalizes(s'.pcs[e])
  {
  }

  lemma InRange(s: State, a: Act)
    requires Can(s, a)
    ensures a.e < |s.pcs| && (a.Go? ==> s.pcs[a.e] != Idle)
  {
  }

  /** In every run: an owner that gives its page up while nobody else does anything with it releases the
      page if and only if no block is in use. */
  lemma ReleasedExactlyWhen(tr: seq<State>, i: nat, e: Es)
    requires Run(tr) && i < |tr| && tr[i].place == Owned(e)
    requires e < |tr[i].pcs| && forall d :: 0 <= d < |tr[i].pcs| ==> tr[i].pcs[d] == Idle
    ensures (forall b :: 0 <= b < |tr[i].use| ==> tr[i].use[b] == Free) ==>
              Leads(tr[i], CallFinalize(e), 2, tr[i].(place := Released))
    ensures (exists b :: 0 <= b < |tr[i].use| && tr[i].use[b] != Free) ==>
              forall n, s' :: Leads(tr[i], CallFinalize(e), n, s') ==> s'.place != Released
  {
    hide Leads, Run;
    var s := tr[i];
    RunKeeps(tr, i);
    SumZero(Extras(s.pcs));
    CountNone(Used(s.use));
    if forall b :: 0 <= b < |s.use| ==> s.use[b] == Free {
      Releases(s, e);
    } else {
      forall n, s' | Leads(s, CallFinalize(e), n, s') ensures s'.place != Released {
        UseStays(s, e, n, s');
      }
    }
  }
}
