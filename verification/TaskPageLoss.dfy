/** When a page that changes hands loses free blocks: take_free overwrites p_head. */
module TaskPageLoss {
  import opened Counting
  import opened TaskPage
  import opened TaskPageTheorems

  // ---- exactly when ----

  /** The owner `e` is at the test of p_free that precedes take_free, to give the page up or after it
      has adopted it. */
  predicate AtGuard(s: State, e: Es)
  {
    e < |s.pcs| && (s.pcs[e] == LeaveLook || s.pcs[e] == AdoptLook)
  }

  predicate Taking(s: State, e: Es)
  {
    e < |s.pcs| && Purposes(s.pcs[e]).Some?
  }

  /** How far take_free has got, `head` being p_head and `lost` the lost blocks when it was called. */
  predicate Progress(s: State, e: Es, head: seq<Blk>, lost: int)
  {
    && e < |s.pcs|
    && match s.pcs[e]
       case TakeCount(_) => s.head == head && Lost(s) == lost
       case TakeSub(_, _) => s.head == head && Lost(s) == lost
       case TakeAdd(_, _) => s.head == head && Lost(s) == lost
       case TakeRead(_) => (s.head == head && Lost(s) == lost) || (s.head == [] && Lost(s) == lost + |head|)
       case _ => Lost(s) == lost + |head|
  }

  /** Nobody but the owner touches the local list. */
  lemma OthersLeaveHead(s: State, a: Act, e: Es)
    requires Can(s, a) && a.e != e && PcOk(s, a.e) && e < |s.pcs| && PcOk(s, e) && OwnerPc(s.pcs[e])
    ensures Next(s, a).head == s.head && Dropped(s, a) == 0
    ensures e < |Next(s, a).pcs| && Next(s, a).pcs[e] == s.pcs[e]
  {
  }

  lemma OwnProgress(s: State, e: Es, head: seq<Blk>, lost: int)
    requires Inv(s) && Taking(s, e) && Progress(s, e, head, lost)
    ensures Can(s, Go(e)) && Progress(Next(s, Go(e)), e, head, lost)
  {
    hide AccountInv, HeldInv, ListInv, AllFree, Lost;
    assert PcOk(s, e);
    LostExactlyWhen(s, Go(e));
  }

  lemma StepProgress(s: State, a: Act, e: Es, head: seq<Blk>, lost: int)
    requires Inv(s) && Can(s, a) && Taking(s, e) && Progress(s, e, head, lost)
    ensures Progress(Next(s, a), e, head, lost)
  {
    hide AccountInv, HeldInv, ListInv, AllFree, Lost, Next;
    if a.e == e {
      OwnProgress(s, e, head, lost);
    } else {
      assert PcOk(s, a.e) && PcOk(s, e);
      OthersLeaveHead(s, a, e);
      LostExactlyWhen(s, a);
    }
  }

  /** The test itself: with both lists non-empty take_free begins with a p_head that it will overwrite. */
  lemma GuardProgress(s: State, e: Es)
    requires Inv(s) && AtGuard(s, e)
    ensures Can(s, Go(e)) && Lost(Next(s, Go(e))) == Lost(s)
    ensures var s' := Next(s, Go(e));
            if s.free == [] then !Taking(s', e) else Taking(s', e) && Progress(s', e, s.head, Lost(s))
  {
    hide Inv, Lost;
    assert Can(s, Go(e));
    LostExactlyWhen(s, Go(e));
  }

  /** Between steps i and k the owner is in take_free, whatever the other ESs do meanwhile. */
  ghost predicate InTakeFree(tr: seq<State>, i: nat, k: nat, e: Es)
  {
    forall j :: i < j < k < |tr| ==> Taking(tr[j], e)
  }

  lemma {:induction false} RunProgress(tr: seq<State>, i: nat, k: nat, e: Es, head: seq<Blk>, lost: int)
    requires Run(tr) && i < k < |tr| && InTakeFree(tr, i, k, e) && Progress(tr[i + 1], e, head, lost)
    ensures Progress(tr[k], e, head, lost)
    decreases k
  {
    hide Inv, Next, Can, Progress;
    if k > i + 1 {
      RunProgress(tr, i, k - 1, e, head, lost);
      RunKeeps(tr, k - 1);
      assert Steps(tr[k - 1], tr[k - 1 + 1]);
      var a :| Can(tr[k - 1], a) && tr[k] == Next(tr[k - 1], a);
      StepProgress(tr[k - 1], a, e, head, lost);
    }
  }

  /** An ES that gives a page up, or adopts one, tests p_free; at the first moment `k` at which it is
      behind take_free, or behind the test if the list was empty, it has lost all the blocks of p_head
      if both lists were non-empty at the test, and none if either was empty. */
  lemma LosesExactlyWhen(tr: seq<State>, i: nat, k: nat, e: Es)
    requires Run(tr) && i < k < |tr| && AtGuard(tr[i], e) && tr[i + 1] == Next(tr[i], Go(e))
    requires InTakeFree(tr, i, k, e) && !Taking(tr[k], e)
    ensures Lost(tr[k]) == Lost(tr[i]) + if tr[i].head != [] && tr[i].free != [] then |tr[i].head| else 0
    ensures Lost(tr[k]) != Lost(tr[i]) <==> tr[i].head != [] && tr[i].free != []
  {
    hide Inv, Next, Lost;
    RunKeeps(tr, i);
    GuardProgress(tr[i], e);
    if tr[i].free == [] {
      assert k == i + 1;
    } else {
      RunProgress(tr, i, k, e, tr[i].head, Lost(tr[i]));
    }
  }

  // ---- a run that loses a block ----

  /** A page of three blocks, two of which its owner has allocated. */
  function TwoInUse(): State
  {
    State([InUse, InUse, Free], [2], [], 1, 0, Owned(0), [Idle, Idle])
  }

  /** The other ES has freed the first of them. */
  function OneBack(): State
  {
    State([Free, InUse, Free], [2], [0], 1, 1, Owned(0), [Idle, Idle])
  }

  /** The owner has given the page up: block 2 is free and in no list. */
  function BlockLost(): State
  {
    State([Free, InUse, Free], [0], [], 2, 0, Global, [Idle, Idle])
  }

  function Last(tr: seq<State>): State
    requires tr != []
  {
    tr[|tr| - 1]
  }

  lemma Extend(tr: seq<State>, a: Act) returns (more: seq<State>)
    requires Run(tr) && Can(Last(tr), a)
    ensures Run(more) && more != [] && Last(more) == Next(Last(tr), a)
  {
    more := tr + [Next(Last(tr), a)];
    assert Steps(Last(tr), Last(more));
    forall i | 0 <= i < |more| - 1 ensures Steps(more[i], more[i + 1]) {
      if i < |tr| - 1 { assert Steps(tr[i], tr[i + 1]); }
    }
  }

  lemma Start() returns (tr: seq<State>)
    ensures Run(tr) && tr != [] && Last(tr) == State([Free, Free, Free], [0, 1, 2], [], 3, 0, Owned(0), [Idle, Idle])
  {
    tr := [State([Free, Free, Free], [0, 1, 2], [], 3, 0, Owned(0), [Idle, Idle])];
  }

  lemma Allocate(tr: seq<State>) returns (more: seq<State>)
    requires Run(tr) && tr != [] && Last(tr).place == Owned(0) && Last(tr).pcs == [Idle, Idle]
    requires Last(tr).head != [] && Last(tr).head[0] < |Last(tr).use|
    ensures Run(more) && more != []
    ensures Last(more) == Last(tr).(head := Last(tr).head[1..], empty := Last(tr).empty - 1,
                                    use := Last(tr).use[Last(tr).head[0] := InUse])
  {
    hide Run;
    more := Extend(tr, CallAlloc(0));
    more := Extend(more, Go(0));
    more := Extend(more, Go(0));
    more := Extend(more, Go(0));
    assert Last(more).pcs == Last(tr).pcs;
  }

  lemma FreeRemotely(tr: seq<State>) returns (more: seq<State>)
    requires Run(tr) && tr != [] && Last(tr) == TwoInUse()
    ensures Run(more) && more != [] && Last(more) == OneBack()
  {
    hide Run;
    more := Extend(tr, CallFree(1, 0));
    more := Extend(more, Go(1));
    more := Extend(more, Go(1));
    more := Extend(more, Go(1));
    more := Extend(more, Go(1));
    assert Last(more) == OneBack();
  }

  lemma TakeFree(tr: seq<State>) returns (more: seq<State>)
    requires Run(tr) && tr != [] && Last(tr) == OneBack().(pcs := [TakeCount(ForLeave), Idle])
    ensures Run(more) && more != []
    ensures Last(more) == BlockLost().(place := Owned(0), pcs := [Disown, Idle])
  {
    hide Run;
    more := Extend(tr, Go(0));
    more := Extend(more, Go(0));
    more := Extend(more, Go(0));
    more := Extend(more, Go(0));
    more := Extend(more, Go(0));
    assert Last(more) == BlockLost().(place := Owned(0), pcs := [Disown, Idle]);
  }

  lemma GiveUp(tr: seq<State>) returns (more: seq<State>)
    requires Run(tr) && tr != [] && Last(tr) == OneBack()
    ensures Run(more) && more != [] && Last(more) == BlockLost()
  {
    hide Run;
    more := Extend(tr, CallFinalize(0));
    more := Extend(more, Go(0));
    more := Extend(more, Go(0));
    more := Extend(more, Go(0));
    more := TakeFree(more);
    more := Extend(more, Go(0));
    more := Extend(more, Go(0));
    assert Last(more) == BlockLost();
  }

  /** Free blocks are lost: after this run no ES is in any operation and block 2 is free, but in neither
      list. */
  lemma FreeBlocksAreLost() returns (tr: seq<State>)
    ensures Run(tr) && tr != [] && Last(tr) == BlockLost()
    ensures Last(tr).use[2] == Free && 2 !in Last(tr).head && 2 !in Last(tr).free && Lost(Last(tr)) == 1
  {
    hide Run;
    tr := Start();
    tr := Allocate(tr);
    tr := Allocate(tr);
    assert Last(tr) == TwoInUse();
    tr := FreeRemotely(tr);
    tr := GiveUp(tr);
    OneLost();
  }

  lemma OneLost()
    ensures Lost(BlockLost()) == 1
  {
    CountAppend([], false);
    CountAppend([false], true);
    CountAppend([false, true], false);
    assert Used(BlockLost().use) == [] + [false] + [true] + [false];
  }
}
