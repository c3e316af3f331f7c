/** Every interleaving of the parallel stencil computes the Jacobi sweeps. */
module StencilTheorems {
  import opened Stencil
  import opened StencilGrid

  // ---- what a program counter says about the flags ----

  predicate Before(side: nat, o: nat, side1: nat, o1: nat)
  {
    side < side1 || (side == side1 && o < o1)
  }

  predicate Flagged(g: Config, b: Block, side: nat, o: nat)
  {
    side < 4 && o < g.size && HasSide(g, b, side)
  }

  /** The block has signalled this flag. */
  predicate Sent(p: Pc, side: nat, o: nat)
  {
    match p
    case Compute(_, _, _, _) => false
    case Signal(s, q) => Before(side, o, s, q)
    case _ => true
  }

  /** The block has waited for this flag. */
  predicate Received(p: Pc, side: nat, o: nat)
  {
    match p
    case Wait(s, q) => Before(side, o, s, q)
    case Copy(_, _) => true
    case Finished => true
    case _ => false
  }

  /** A flag is up only if the block that signals it has read all it needs. */
  ghost predicate FlagInv(g: Config, s: State)
  {
    forall b: Block, side: nat, o: nat ::
      Valid(g, b) && Flagged(g, b, side, o) && SignalFlag(g, b, side, o) in s.ready ==>
      b in s.pc && !s.pc[b].Compute?
  }

  ghost predicate SentInv(g: Config, s: State)
  {
    forall b, side: nat, o: nat :: b in s.pc && Flagged(g, b, side, o) && Sent(s.pc[b], side, o) ==>
      SignalFlag(g, b, side, o) in s.ready
  }

  ghost predicate ReceivedInv(g: Config, s: State)
  {
    forall b, side: nat, o: nat :: b in s.pc && Flagged(g, b, side, o) && Received(s.pc[b], side, o) ==>
      WaitFlag(g, b, side, o) in s.ready
  }

  // ---- what it says about the cells ----

  predicate CellBefore(c: Cell, x: int, y: int)
  {
    c.x < x || (c.x == x && c.y < y)
  }

  /** The new value of `c` has been stored in `results`. */
  predicate Computed(g: Config, s: State, c: Cell)
    requires g.size > 0
  {
    Interior(g, c) && Owner(g, c) in s.pc && (var p := s.pc[Owner(g, c)]; p.Compute? ==> CellBefore(c, p.x, p.y))
  }

  /** The new value of `c` has been stored in `values`. */
  predicate Copied(g: Config, s: State, c: Cell)
    requires g.size > 0
  {
    && Interior(g, c) && Owner(g, c) in s.pc
    && (var p := s.pc[Owner(g, c)]; p.Finished? || (p.Copy? && CellBefore(c, p.x, p.y)))
  }

  predicate ValueOk(g: Config, v: Grid, s: State, c: Cell)
    requires g.size > 0
  {
    Read(s.values, c) == Jacobi(g, v, if Copied(g, s, c) then s.iter + 1 else s.iter, c)
  }

  predicate ResultOk(g: Config, v: Grid, s: State, c: Cell)
    requires g.size > 0
  {
    if !Interior(g, c) then Read(s.results, c) == 0.0
    else if Computed(g, s, c) then Read(s.results, c) == Jacobi(g, v, s.iter + 1, c)
    else s.iter > 0 ==> Read(s.results, c) == Jacobi(g, v, s.iter, c)
  }

  /** The sum of the first `k` neighbours. */
  function Partial(g: Config, v: Grid, i: nat, c: Cell, k: nat): real
  {
    if k == 0 then 0.0 else Partial(g, v, i, c, k - 1) + Jacobi(g, v, i, Nbr(c, k - 1))
  }

  predicate PcOk(g: Config, v: Grid, s: State, b: Block)
    requires b in s.pc
  {
    && Valid(g, b)
    && match s.pc[b]
       case Compute(x, y, k, sum) =>
         && Lo(g, b.i) <= x <= Lo(g, b.i) + g.size && Lo(g, b.j) <= y <= Lo(g, b.j) + g.size
         && (k > 0 ==> InBlock(g, b, Cell(x, y)))
         && k <= 4 && sum == Partial(g, v, s.iter, Cell(x, y), k)
       case Copy(x, y) => Lo(g, b.i) <= x <= Lo(g, b.i) + g.size && Lo(g, b.j) <= y <= Lo(g, b.j) + g.size
       case _ => true
  }

  // ---- the main ULT ----

  predicate BlockBefore(b: Block, i: nat, j: nat)
  {
    b.i < i || (b.i == i && b.j < j)
  }

  ghost predicate MainOk(g: Config, s: State)
  {
    match s.main
    case Creating(i, j) =>
      s.iter < g.iterations && j <= g.blocks && forall b :: b in s.pc <==> Valid(g, b) && BlockBefore(b, i, j)
    case Joining(i, j) =>
      && s.iter < g.iterations && j <= g.blocks
      && (forall b :: b in s.pc <==> Valid(g, b))
      && (forall b :: b in s.pc && BlockBefore(b, i, j) ==> s.pc[b].Finished?)
    case Resetting =>
      s.iter < g.iterations && (forall b :: b in s.pc <==> Valid(g, b)) && (forall b :: b in s.pc ==> s.pc[b].Finished?)
    case Ended => s.iter == g.iterations && s.pc == map[] && s.ready == {}
  }

  ghost predicate Inv(g: Config, v: Grid, s: State)
  {
    && g.size > 0
    && FlagInv(g, s) && SentInv(g, s) && ReceivedInv(g, s) && MainOk(g, s)
    && (forall b :: b in s.pc ==> PcOk(g, v, s, b))
    && (forall c: Cell :: ValueOk(g, v, s, c))
    && (forall c: Cell :: ResultOk(g, v, s, c))
  }

  lemma InitKeeps(g: Config, s: State)
    requires g.size > 0 && Init(g, s)
    ensures Inv(g, s.values, s)
  {
  }

  // ---- no cell is overwritten before its neighbours have read it ----

  lemma NotOverwritten(g: Config, v: Grid, s: State, b: Block, c: Cell, side: nat)
    requires g.size > 0 && FlagInv(g, s) && ReceivedInv(g, s) && (forall d :: d in s.pc ==> PcOk(g, v, s, d))
    requires b in s.pc && s.pc[b].Compute? && InBlock(g, b, c) && side < 4
    ensures !Copied(g, s, Nbr(c, side))
  {
    var d := Nbr(c, side);
    assert PcOk(g, v, s, b);
    if Copied(g, s, d) && Owner(g, d) != b {
      var o := AcrossTheEdge(g, b, c, side);
      Facing(g, b, side, o);
      assert Flagged(g, NextTo(b, side), Opposite(side), o);
      assert Received(s.pc[NextTo(b, side)], Opposite(side), o);
      assert Flagged(g, b, side, o);
    }
  }

  // ---- steps of a block ----

  lemma BlockFlags(g: Config, s: State, b: Block)
    requires g.size > 0 && BlockReady(g, s, b) && Valid(g, b) && FlagInv(g, s)
    ensures FlagInv(g, BlockNext(g, s, b))
  {
    var s' := BlockNext(g, s, b);
    forall d: Block, side: nat, o: nat | Valid(g, d) && Flagged(g, d, side, o) && SignalFlag(g, d, side, o) in s'.ready
      ensures d in s'.pc && !s'.pc[d].Compute?
    {
      if SignalFlag(g, d, side, o) !in s.ready { OneSignaller(g, b, d, side, s.pc[b].o, o); }
    }
  }

  lemma BlockSent(g: Config, s: State, b: Block)
    requires g.size > 0 && BlockReady(g, s, b) && SentInv(g, s)
    ensures SentInv(g, BlockNext(g, s, b))
  {
  }

  lemma BlockReceived(g: Config, s: State, b: Block)
    requires g.size > 0 && BlockReady(g, s, b) && ReceivedInv(g, s)
    ensures ReceivedInv(g, BlockNext(g, s, b))
  {
  }

  lemma ReaderPc(g: Config, v: Grid, s: State, b: Block)
    requires Inv(g, v, s) && BlockReady(g, s, b)
    ensures PcOk(g, v, BlockNext(g, s, b), b)
  {
    hide SentInv, MainOk, ResultOk, FlagInv, ReceivedInv;
    assert PcOk(g, v, s, b);
    if s.pc[b].Compute? && s.pc[b].k < 4 && InBlock(g, b, Cell(s.pc[b].x, s.pc[b].y)) {
      var c := Cell(s.pc[b].x, s.pc[b].y);
      NotOverwritten(g, v, s, b, c, s.pc[b].k);
      assert ValueOk(g, v, s, Nbr(c, s.pc[b].k));
    }
  }

  lemma BlockPc(g: Config, v: Grid, s: State, b: Block)
    requires Inv(g, v, s) && BlockReady(g, s, b)
    ensures forall d :: d in BlockNext(g, s, b).pc ==> PcOk(g, v, BlockNext(g, s, b), d)
  {
    hide SentInv, MainOk, ValueOk, ResultOk, FlagInv, ReceivedInv;
    var s' := BlockNext(g, s, b);
    forall d | d in s'.pc ensures PcOk(g, v, s', d) {
      if d == b { ReaderPc(g, v, s, b); } else { assert PcOk(g, v, s, d); }
    }
  }

  /** The step copies `c` from `results` to `values`. */
  predicate Copies(g: Config, s: State, b: Block, c: Cell)
    requires b in s.pc
  {
    && s.pc[b].Copy? && c == Cell(s.pc[b].x, s.pc[b].y)
    && s.pc[b].x < Lo(g, b.i) + g.size && s.pc[b].y < Lo(g, b.j) + g.size
  }

  lemma BlockCopied(g: Config, v: Grid, s: State, b: Block, c: Cell)
    requires g.size > 0 && BlockReady(g, s, b) && PcOk(g, v, s, b)
    ensures Copied(g, BlockNext(g, s, b), c) <==> Copied(g, s, c) || Copies(g, s, b, c)
  {
    hide Owner, HasSide, WaitFlag, SignalFlag;
    BlocksPartition(g, c, b);
  }

  lemma BlockCopies(g: Config, v: Grid, s: State, b: Block, c: Cell)
    requires g.size > 0 && BlockReady(g, s, b) && PcOk(g, v, s, b)
    ensures Read(BlockNext(g, s, b).values, c) == Read(if Copies(g, s, b, c) then s.results else s.values, c)
    ensures BlockNext(g, s, b).iter == s.iter
    ensures Copies(g, s, b, c) ==> Computed(g, s, c)
  {
    hide Owner, HasSide, WaitFlag, SignalFlag;
    BlocksPartition(g, c, b);
  }

  lemma BlockValues(g: Config, v: Grid, s: State, b: Block, c: Cell)
    requires g.size > 0 && BlockReady(g, s, b) && PcOk(g, v, s, b) && ValueOk(g, v, s, c) && ResultOk(g, v, s, c)
    ensures ValueOk(g, v, BlockNext(g, s, b), c)
  {
    hide BlockNext, PcOk, Copied, Copies, Jacobi;
    BlockCopied(g, v, s, b, c);
    BlockCopies(g, v, s, b, c);
  }

  lemma WholeSum(g: Config, v: Grid, i: nat, c: Cell)
    requires Interior(g, c)
    ensures Jacobi(g, v, i + 1, c) == Partial(g, v, i, c, 4) / 4.0
  {
    assert Partial(g, v, i, c, 3) == Partial(g, v, i, c, 2) + Jacobi(g, v, i, Nbr(c, 2));
    assert Partial(g, v, i, c, 1) == Jacobi(g, v, i, Nbr(c, 0));
  }

  /** The step stores the new value of `c` in `results`. */
  predicate Computes(g: Config, s: State, b: Block, c: Cell)
    requires b in s.pc
  {
    && s.pc[b].Compute? && s.pc[b].k >= 4 && c == Cell(s.pc[b].x, s.pc[b].y)
    && s.pc[b].x < Lo(g, b.i) + g.size && s.pc[b].y < Lo(g, b.j) + g.size
  }

  lemma BlockComputed(g: Config, v: Grid, s: State, b: Block, c: Cell)
    requires g.size > 0 && BlockReady(g, s, b) && PcOk(g, v, s, b)
    ensures Computed(g, BlockNext(g, s, b), c) <==> Computed(g, s, c) || Computes(g, s, b, c)
  {
    hide Owner, HasSide, WaitFlag, SignalFlag, Partial;
    BlocksPartition(g, c, b);
  }

  lemma BlockComputes(g: Config, v: Grid, s: State, b: Block, c: Cell)
    requires g.size > 0 && BlockReady(g, s, b) && PcOk(g, v, s, b)
    ensures Read(BlockNext(g, s, b).results, c)
            == if Computes(g, s, b, c) then Partial(g, v, s.iter, c, 4) / 4.0 else Read(s.results, c)
    ensures BlockNext(g, s, b).iter == s.iter
    ensures Computes(g, s, b, c) ==> Interior(g, c)
  {
    hide Owner, HasSide, WaitFlag, SignalFlag, Partial;
    BlocksPartition(g, c, b);
  }

  lemma BlockResults(g: Config, v: Grid, s: State, b: Block, c: Cell)
    requires g.size > 0 && BlockReady(g, s, b) && PcOk(g, v, s, b) && ResultOk(g, v, s, c)
    ensures ResultOk(g, v, BlockNext(g, s, b), c)
  {
    hide BlockNext, PcOk, Computed, Computes, Jacobi, Partial;
    BlockComputed(g, v, s, b, c);
    BlockComputes(g, v, s, b, c);
    if Computes(g, s, b, c) { WholeSum(g, v, s.iter, c); }
  }

  lemma BlockMain(g: Config, s: State, b: Block)
    requires BlockReady(g, s, b) && MainOk(g, s)
    ensures MainOk(g, BlockNext(g, s, b))
  {
  }

  lemma BlockKeeps(g: Config, v: Grid, s: State, b: Block)
    requires Inv(g, v, s) && BlockReady(g, s, b)
    ensures Inv(g, v, BlockNext(g, s, b))
  {
    hide BlockNext, BlockReady, PcOk, ValueOk, ResultOk, FlagInv, SentInv, ReceivedInv, MainOk;
    PcValid(g, v, s, b);
    BlockFlags(g, s, b);
    BlockSent(g, s, b);
    BlockReceived(g, s, b);
    BlockPc(g, v, s, b);
    BlockMain(g, s, b);
    forall c: Cell ensures ValueOk(g, v, BlockNext(g, s, b), c) { BlockValues(g, v, s, b, c); }
    forall c: Cell ensures ResultOk(g, v, BlockNext(g, s, b), c) { BlockResults(g, v, s, b, c); }
  }

  lemma PcValid(g: Config, v: Grid, s: State, b: Block)
    requires Inv(g, v, s) && BlockReady(g, s, b)
    ensures b in s.pc && Valid(g, b) && PcOk(g, v, s, b)
  {
    assert PcOk(g, v, s, b);
  }

  // ---- steps of the main ULT ----

  lemma MainFlags(g: Config, v: Grid, s: State)
    requires Inv(g, v, s) && MainReady(g, s) && !s.main.Resetting?
    ensures FlagInv(g, MainNext(g, s)) && SentInv(g, MainNext(g, s)) && ReceivedInv(g, MainNext(g, s))
  {
    hide PcOk, ValueOk, ResultOk, SignalFlag, WaitFlag, Flagged;
  }

  lemma MainMain(g: Config, s: State)
    requires MainOk(g, s) && MainReady(g, s) && !s.main.Resetting?
    ensures MainOk(g, MainNext(g, s))
  {
  }

  lemma MainPc(g: Config, v: Grid, s: State, d: Block)
    requires g.size > 0 && MainOk(g, s) && MainReady(g, s) && !s.main.Resetting? && d in MainNext(g, s).pc
    requires (d in s.pc ==> PcOk(g, v, s, d))
    ensures PcOk(g, v, MainNext(g, s), d)
  {
  }

  lemma MainSame(g: Config, s: State, c: Cell)
    requires g.size > 0 && MainOk(g, s) && MainReady(g, s) && !s.main.Resetting?
    ensures Copied(g, MainNext(g, s), c) <==> Copied(g, s, c)
    ensures Computed(g, MainNext(g, s), c) <==> Computed(g, s, c)
  {
    hide Owner;
    BlocksPartition(g, c, Block(0, 0));
  }

  lemma MainCell(g: Config, v: Grid, s: State, c: Cell)
    requires g.size > 0 && MainOk(g, s) && MainReady(g, s) && !s.main.Resetting?
    requires ValueOk(g, v, s, c) && ResultOk(g, v, s, c)
    ensures ValueOk(g, v, MainNext(g, s), c) && ResultOk(g, v, MainNext(g, s), c)
  {
    hide Jacobi, Copied, Computed, MainOk;
    MainSame(g, s, c);
  }

  lemma MainKeeps(g: Config, v: Grid, s: State)
    requires Inv(g, v, s) && MainReady(g, s) && !s.main.Resetting?
    ensures Inv(g, v, MainNext(g, s))
  {
    hide FlagInv, SentInv, ReceivedInv, MainOk, PcOk, ValueOk, ResultOk, MainNext, MainReady;
    MainFlags(g, v, s);
    MainMain(g, s);
    forall d | d in MainNext(g, s).pc ensures PcOk(g, v, MainNext(g, s), d) { MainPc(g, v, s, d); }
    forall c: Cell ensures ValueOk(g, v, MainNext(g, s), c) && ResultOk(g, v, MainNext(g, s), c) {
      MainCell(g, v, s, c);
    }
  }

  lemma ResetKeeps(g: Config, v: Grid, s: State)
    requires Inv(g, v, s) && s.main.Resetting?
    ensures Inv(g, v, MainNext(g, s))
  {
    var s' := MainNext(g, s);
    forall c: Cell ensures ValueOk(g, v, s', c) && ResultOk(g, v, s', c) {
      BlocksPartition(g, c, Block(0, 0));
      assert ValueOk(g, v, s, c) && ResultOk(g, v, s, c);
    }
  }

  lemma {:induction false} RunKeeps(g: Config, tr: seq<State>, i: nat)
    requires g.size > 0 && Run(g, tr) && i < |tr|
    ensures Inv(g, tr[0].values, tr[i])
  {
    hide Inv, BlockNext, BlockReady, MainNext, MainReady;
    var v := tr[0].values;
    if i == 0 {
      InitKeeps(g, tr[0]);
    } else {
      RunKeeps(g, tr, i - 1);
      assert Steps(g, tr[i - 1], tr[i - 1 + 1]);
      if MainReady(g, tr[i - 1]) && tr[i] == MainNext(g, tr[i - 1]) {
        if tr[i - 1].main.Resetting? { ResetKeeps(g, v, tr[i - 1]); } else { MainKeeps(g, v, tr[i - 1]); }
      } else {
        var b :| BlockReady(g, tr[i - 1], b) && tr[i] == BlockNext(g, tr[i - 1], b);
        BlockKeeps(g, v, tr[i - 1], b);
      }
    }
  }

  // ---- the promises ----

  /** Every interleaving refines the sequential algorithm: whenever an iteration is about to start, or
      all have ended, every cell of `values` holds the result of as many Jacobi sweeps of the grid that
      the run began with, and so does every interior cell of `results` after the first. */
  lemma EveryInterleavingIsJacobi(g: Config, tr: seq<State>, i: nat, c: Cell)
    requires g.size > 0 && Run(g, tr) && i < |tr| && (tr[i].main == Creating(0, 0) || tr[i].main == Ended)
    ensures Read(tr[i].values, c) == Jacobi(g, tr[0].values, tr[i].iter, c)
    ensures Interior(g, c) && tr[i].iter > 0 ==> Read(tr[i].results, c) == Jacobi(g, tr[0].values, tr[i].iter, c)
    ensures !Interior(g, c) ==> Read(tr[i].results, c) == 0.0
    ensures tr[i].main == Ended ==> tr[i].iter == g.iterations
  {
    RunKeeps(g, tr, i);
    assert ValueOk(g, tr[0].values, tr[i], c) && ResultOk(g, tr[0].values, tr[i], c);
    if Interior(g, c) { BlocksPartition(g, c, Owner(g, c)); }
  }

  /** Within an iteration a block reads only values of the sweep before: none of the cells it needs is
      overwritten before it has read them all. */
  lemma ReadsAreOld(g: Config, tr: seq<State>, i: nat, b: Block, c: Cell, side: nat)
    requires g.size > 0 && Run(g, tr) && i < |tr| && b in tr[i].pc && tr[i].pc[b].Compute? && InBlock(g, b, c)
    requires side < 4
    ensures Read(tr[i].values, Nbr(c, side)) == Jacobi(g, tr[0].values, tr[i].iter, Nbr(c, side))
  {
    RunKeeps(g, tr, i);
    NotOverwritten(g, tr[0].values, tr[i], b, c, side);
    assert ValueOk(g, tr[0].values, tr[i], Nbr(c, side));
  }

  /** Until the main ULT has ended, some ULT can take a step. */
  lemma SomeStepIsEnabled(g: Config, tr: seq<State>, i: nat)
    requires g.size > 0 && Run(g, tr) && i < |tr| && tr[i].main != Ended
    ensures MainReady(g, tr[i]) || exists b :: BlockReady(g, tr[i], b)
  {
    RunKeeps(g, tr, i);
    var s := tr[i];
    if !MainReady(g, s) {
      var b := Block(s.main.i, s.main.j);
      if !BlockReady(g, s, b) {
        assert PcOk(g, tr[0].values, s, b);
        var side, o := s.pc[b].side, s.pc[b].o;
        Facing(g, b, side, o);
        assert Flagged(g, NextTo(b, side), Opposite(side), o);
        assert BlockReady(g, s, NextTo(b, side));
      }
    }
  }

  // ---- symmetry ----

  function MirrorX(g: Config, c: Cell): Cell
  {
    Cell(Cells(g) + 1 - c.x, c.y)
  }

  function MirrorY(g: Config, c: Cell): Cell
  {
    Cell(c.x, Cells(g) + 1 - c.y)
  }

  ghost predicate Symmetric(g: Config, v: Grid)
  {
    forall c: Cell :: Read(v, MirrorX(g, c)) == Read(v, c) && Read(v, MirrorY(g, c)) == Read(v, c)
  }

  /** A sweep gives two cells the same value whose neighbours had the same values together. */
  lemma SameSweep(g: Config, v: Grid, i: nat, c: Cell, d: Cell)
    requires i > 0 && Interior(g, c) == Interior(g, d) && Jacobi(g, v, i - 1, c) == Jacobi(g, v, i - 1, d)
    requires Jacobi(g, v, i - 1, Nbr(c, 0)) + Jacobi(g, v, i - 1, Nbr(c, 1))
             + Jacobi(g, v, i - 1, Nbr(c, 2)) + Jacobi(g, v, i - 1, Nbr(c, 3))
             == Jacobi(g, v, i - 1, Nbr(d, 0)) + Jacobi(g, v, i - 1, Nbr(d, 1))
                + Jacobi(g, v, i - 1, Nbr(d, 2)) + Jacobi(g, v, i - 1, Nbr(d, 3))
    ensures Jacobi(g, v, i, c) == Jacobi(g, v, i, d)
  {
    hide Nbr, Interior;
  }

  lemma SweepNone(g: Config, v: Grid, c: Cell)
    ensures Jacobi(g, v, 0, c) == Read(v, c)
  {
  }

  /** A sweep keeps both mirror symmetries. */
  lemma {:induction false} SweepsKeepSymmetry(g: Config, v: Grid, i: nat, c: Cell)
    requires Symmetric(g, v)
    ensures Jacobi(g, v, i, MirrorX(g, c)) == Jacobi(g, v, i, c)
    ensures Jacobi(g, v, i, MirrorY(g, c)) == Jacobi(g, v, i, c)
    decreases i
  {
    hide Jacobi, Nbr, MirrorX, MirrorY, Interior;
    if i == 0 {
      SweepNone(g, v, c);
      SweepNone(g, v, MirrorX(g, c));
      SweepNone(g, v, MirrorY(g, c));
      assert Read(v, MirrorX(g, c)) == Read(v, c) && Read(v, MirrorY(g, c)) == Read(v, c);
    } else {
      SweepsKeepSymmetry(g, v, i - 1, c);
      SweepsKeepSymmetry(g, v, i - 1, Nbr(c, 0));
      SweepsKeepSymmetry(g, v, i - 1, Nbr(c, 1));
      SweepsKeepSymmetry(g, v, i - 1, Nbr(c, 2));
      SweepsKeepSymmetry(g, v, i - 1, Nbr(c, 3));
      MirrorNeighbours(g, c);
      SameSweep(g, v, i, c, MirrorX(g, c));
      SameSweep(g, v, i, c, MirrorY(g, c));
    }
  }

  lemma MirrorNeighbours(g: Config, c: Cell)
    ensures Interior(g, MirrorX(g, c)) == Interior(g, c) == Interior(g, MirrorY(g, c))
    ensures Nbr(MirrorX(g, c), 0) == MirrorX(g, Nbr(c, 1)) && Nbr(MirrorX(g, c), 1) == MirrorX(g, Nbr(c, 0))
    ensures Nbr(MirrorX(g, c), 2) == MirrorX(g, Nbr(c, 2)) && Nbr(MirrorX(g, c), 3) == MirrorX(g, Nbr(c, 3))
    ensures Nbr(MirrorY(g, c), 2) == MirrorY(g, Nbr(c, 3)) && Nbr(MirrorY(g, c), 3) == MirrorY(g, Nbr(c, 2))
    ensures Nbr(MirrorY(g, c), 0) == MirrorY(g, Nbr(c, 0)) && Nbr(MirrorY(g, c), 1) == MirrorY(g, Nbr(c, 1))
  {
  }
}
