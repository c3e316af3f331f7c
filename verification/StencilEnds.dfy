/** The parallel stencil comes to an end, and what its sweeps leave alone. */
module StencilEnds {
  import opened Basics
  import opened Stencil
  import opened StencilTheorems

  /** The start, from any grid. */
  lemma Starts(g: Config, v: Grid)
    ensures Init(g, State(v, map[], {}, map[], if g.iterations == 0 then Ended else Creating(0, 0), 0))
  {
  }

  // ---- every step is a step towards the end ----

  /** What is left of `n` when `i` are done. */
  function Rest(n: nat, i: int): nat
  {
    if 0 <= i < n then n - i else if i < 0 then n else 0
  }

  /** Steps left of a loop over `n` rows in row `i`, with `k` left in it and at most `w` in a row. */
  function Loop(n: nat, i: int, w: nat, k: nat): nat
  {
    Rest(n, i) * (w + 1) + k
  }

  lemma NextRow(n: nat, i: int, w: nat, k: nat, l: nat)
    requires 0 <= i < n && l <= w
    ensures Loop(n, i + 1, w, l) < Loop(n, i, w, k)
  {
    MulStep(w + 1, Rest(n, i + 1));
  }

  function CopyLeft(g: Config, x: int, y: int): nat
  {
    1 + Loop(g.size, x, g.size + 1, Rest(g.size, y))
  }

  function WaitLeft(g: Config, side: nat, o: nat): nat
  {
    CopyLeft(g, 0, 0) + 1 + Loop(4, side, g.size + 1, Rest(g.size, o))
  }

  function SignalLeft(g: Config, side: nat, o: nat): nat
  {
    WaitLeft(g, 0, 0) + 1 + Loop(4, side, g.size + 1, Rest(g.size, o))
  }

  function ComputeLeft(g: Config, x: int, y: int, k: nat): nat
  {
    SignalLeft(g, 0, 0) + 1 + Loop(g.size, x, 5 * g.size + 5, 5 * Rest(g.size, y) + Rest(5, k))
  }

  /** The steps, at most, that a block has left in this iteration. */
  function BlockLeft(g: Config, b: Block, p: Pc): nat
  {
    match p
    case Compute(x, y, k, _) => ComputeLeft(g, x - Lo(g, b.i), y - Lo(g, b.j), k)
    case Signal(side, o) => SignalLeft(g, side, o)
    case Wait(side, o) => WaitLeft(g, side, o)
    case Copy(x, y) => CopyLeft(g, x - Lo(g, b.i), y - Lo(g, b.j))
    case Finished => 0
  }

  /** Those of the main ULT. */
  function MainLeft(g: Config, m: Main): nat
  {
    match m
    case Creating(i, j) =>
      3 + Loop(g.blocks, 0, g.blocks + 1, g.blocks) + Loop(g.blocks, i, g.blocks + 1, Rest(g.blocks, j))
    case Joining(i, j) => 2 + Loop(g.blocks, i, g.blocks + 1, Rest(g.blocks, j))
    case Resetting => 1
    case Ended => 0
  }

  /** The place of a program counter is in its block. */
  predicate InRange(g: Config, b: Block, p: Pc)
  {
    && (p.Compute? ==> p.x >= Lo(g, b.i) && Lo(g, b.j) <= p.y <= Lo(g, b.j) + g.size && p.k <= 4)
    && (p.Copy? ==> p.x >= Lo(g, b.i) && Lo(g, b.j) <= p.y <= Lo(g, b.j) + g.size)
  }

  lemma ComputeCounts(g: Config, s: State, b: Block)
    requires BlockReady(g, s, b) && InRange(g, b, s.pc[b]) && s.pc[b].Compute?
    ensures b in BlockNext(g, s, b).pc && BlockLeft(g, b, BlockNext(g, s, b).pc[b]) < BlockLeft(g, b, s.pc[b])
  {
    hide SignalLeft;
    var p := s.pc[b];
    if p.x < Lo(g, b.i) + g.size {
      NextRow(g.size, p.x - Lo(g, b.i), 5 * g.size + 5, 5 * Rest(g.size, p.y - Lo(g, b.j)) + Rest(5, p.k),
              5 * Rest(g.size, 0) + Rest(5, 0));
    }
  }

  lemma CopyCounts(g: Config, s: State, b: Block)
    requires BlockReady(g, s, b) && InRange(g, b, s.pc[b]) && s.pc[b].Copy?
    ensures b in BlockNext(g, s, b).pc && BlockLeft(g, b, BlockNext(g, s, b).pc[b]) < BlockLeft(g, b, s.pc[b])
  {
    var p := s.pc[b];
    if p.x < Lo(g, b.i) + g.size {
      NextRow(g.size, p.x - Lo(g, b.i), g.size + 1, Rest(g.size, p.y - Lo(g, b.j)), Rest(g.size, 0));
    }
  }

  lemma FlagCounts(g: Config, s: State, b: Block)
    requires BlockReady(g, s, b) && (s.pc[b].Signal? || s.pc[b].Wait?)
    ensures b in BlockNext(g, s, b).pc && BlockLeft(g, b, BlockNext(g, s, b).pc[b]) < BlockLeft(g, b, s.pc[b])
  {
    var p := s.pc[b];
    if p.side < 4 { NextRow(4, p.side, g.size + 1, Rest(g.size, p.o), Rest(g.size, 0)); }
  }

  lemma MainCounts(g: Config, s: State)
    requires MainReady(g, s) && s.main != Resetting
    ensures MainLeft(g, MainNext(g, s).main) < MainLeft(g, s.main)
  {
    var m := s.main;
    if m.i < g.blocks { NextRow(g.blocks, m.i, g.blocks + 1, Rest(g.blocks, m.j), Rest(g.blocks, 0)); }
  }

  /** Block `b` has moved, alone, and has fewer steps left. */
  predicate BlockNearer(g: Config, s: State, s': State, b: Block)
  {
    && b in s.pc && b in s'.pc && s'.pc == s.pc[b := s'.pc[b]] && s'.main == s.main && s'.iter == s.iter
    && BlockLeft(g, b, s'.pc[b]) < BlockLeft(g, b, s.pc[b])
  }

  ghost predicate SomeBlockNearer(g: Config, s: State, s': State)
  {
    exists b :: BlockNearer(g, s, s', b)
  }

  /** The main ULT has moved, alone, and has fewer steps left. */
  ghost predicate MainNearer(g: Config, s: State, s': State)
  {
    && s'.iter == s.iter && MainLeft(g, s'.main) < MainLeft(g, s.main)
    && forall b :: b in s.pc ==> b in s'.pc && s'.pc[b] == s.pc[b]
  }

  lemma BlockStepCounts(g: Config, v: Grid, s: State, b: Block)
    requires g.size > 0 && Inv(g, v, s) && BlockReady(g, s, b)
    ensures BlockNearer(g, s, BlockNext(g, s, b), b)
  {
    hide BlockLeft, Inv, WaitFlag, SignalFlag;
    BlockInRange(g, v, s, b);
    match s.pc[b]
    case Compute(_, _, _, _) => ComputeCounts(g, s, b);
    case Copy(_, _) => CopyCounts(g, s, b);
    case _ => FlagCounts(g, s, b);
  }

  lemma MainStepCounts(g: Config, v: Grid, s: State)
    requires g.size > 0 && Inv(g, v, s) && MainReady(g, s)
    ensures if s.main == Resetting then MainNext(g, s).iter == s.iter + 1 <= g.iterations
            else MainNearer(g, s, MainNext(g, s))
  {
    hide MainLeft, Inv;
    if s.main == Resetting {
      ResetCounts(g, v, s);
    } else {
      MainCounts(g, s);
      CreatesNew(g, v, s);
    }
  }

  /** In every run each step is a step towards the end: a block moves, alone, and has fewer steps left in
      its iteration than before; or the main ULT does; or one of the iterations is over.  So a run cannot
      be longer than a number that depends on the configuration. */
  lemma EveryStepCounts(g: Config, tr: seq<State>, i: nat)
    requires g.size > 0 && Run(g, tr) && i + 1 < |tr|
    ensures || SomeBlockNearer(g, tr[i], tr[i + 1])
            || MainNearer(g, tr[i], tr[i + 1])
            || tr[i + 1].iter == tr[i].iter + 1 <= g.iterations
  {
    hide Inv, BlockNearer, MainNearer, MainReady, MainNext, BlockReady, BlockNext;
    RunKeeps(g, tr, i);
    var s, s' := tr[i], tr[i + 1];
    assert Steps(g, s, s');
    if MainReady(g, s) && s' == MainNext(g, s) {
      MainStepCounts(g, tr[0].values, s);
    } else {
      var b :| BlockReady(g, s, b) && s' == BlockNext(g, s, b);
      BlockStepCounts(g, tr[0].values, s, b);
    }
  }

  lemma BlockInRange(g: Config, v: Grid, s: State, b: Block)
    requires g.size > 0 && Inv(g, v, s) && b in s.pc
    ensures InRange(g, b, s.pc[b])
  {
    assert PcOk(g, v, s, b);
  }

  lemma ResetCounts(g: Config, v: Grid, s: State)
    requires g.size > 0 && Inv(g, v, s) && s.main == Resetting
    ensures s.iter < g.iterations
  {
  }

  lemma CreatesNew(g: Config, v: Grid, s: State)
    requires g.size > 0 && Inv(g, v, s) && MainReady(g, s) && s.main != Resetting
    ensures MainNext(g, s).iter == s.iter
    ensures forall b :: b in s.pc ==> b in MainNext(g, s).pc && MainNext(g, s).pc[b] == s.pc[b]
  {
  }

  // ---- what sweeps do to values ----

  /** A grid whose values grow evenly along both axes. */
  function Even(a: real, b: real, d: real, c: Cell): real
  {
    a * (c.x as real) + b * (c.y as real) + d
  }

  lemma EvenNeighbours(a: real, b: real, d: real, c: Cell)
    ensures Even(a, b, d, Nbr(c, 0)) == Even(a, b, d, c) - a
    ensures Even(a, b, d, Nbr(c, 1)) == Even(a, b, d, c) + a
    ensures Even(a, b, d, Nbr(c, 2)) == Even(a, b, d, c) - b
    ensures Even(a, b, d, Nbr(c, 3)) == Even(a, b, d, c) + b
  {
    assert ((c.x - 1) as real) == (c.x as real) - 1.0 && ((c.x + 1) as real) == (c.x as real) + 1.0;
    assert ((c.y - 1) as real) == (c.y as real) - 1.0 && ((c.y + 1) as real) == (c.y as real) + 1.0;
  }

  predicate Whole(g: Config, c: Cell)
  {
    0 <= c.x <= Cells(g) + 1 && 0 <= c.y <= Cells(g) + 1
  }

  /** A sweep puts the average of its neighbours into a cell, so it leaves an even grid, and in particular
      a constant one, as it is. */
  lemma {:induction false} EvenGridStays(g: Config, v: Grid, i: nat, c: Cell, a: real, b: real, d: real)
    requires Whole(g, c) && forall e: Cell :: Whole(g, e) ==> Read(v, e) == Even(a, b, d, e)
    ensures Jacobi(g, v, i, c) == Even(a, b, d, c)
  {
    hide Even;
    if i > 0 {
      EvenGridStays(g, v, i - 1, c, a, b, d);
      if Interior(g, c) {
        EvenNeighbours(a, b, d, c);
        EvenGridStays(g, v, i - 1, Nbr(c, 0), a, b, d);
        EvenGridStays(g, v, i - 1, Nbr(c, 1), a, b, d);
        EvenGridStays(g, v, i - 1, Nbr(c, 2), a, b, d);
        EvenGridStays(g, v, i - 1, Nbr(c, 3), a, b, d);
      }
    }
  }
}
