/** The geometry of the stencil: the blocks partition the interior, and the flag that a block waits
    for is the one that the facing cell of its neighbour signals. */
module StencilGrid {
  import opened Basics
  import opened Stencil

  lemma LoStep(g: Config, i: int)
    ensures Lo(g, i + 1) == Lo(g, i) + g.size
  {
    assert (i + 1) * g.size == i * g.size + g.size;
  }

  lemma LoMono(g: Config, i: int, k: int)
    requires i < k
    ensures Lo(g, i) + g.size <= Lo(g, k)
  {
    LoStep(g, i);
    MulMono(g.size, i + 1, k);
  }

  lemma LoRange(g: Config, i: nat)
    requires i < g.blocks
    ensures 1 <= Lo(g, i) && Lo(g, i) + g.size - 1 <= Cells(g)
    ensures g.size > 0 ==> (Lo(g, i) > 1 <==> i > 0)
    ensures g.size > 0 ==> (Lo(g, i) + g.size - 1 < Cells(g) <==> i + 1 < g.blocks)
  {
    assert Lo(g, 0) == 1;
    assert Lo(g, g.blocks) == Cells(g) + 1;
    if i > 0 { LoMono(g, 0, i); }
    LoMono(g, i, g.blocks);
    LoStep(g, i);
    if i + 1 < g.blocks { LoMono(g, i + 1, g.blocks); }
  }

  lemma SameIndex(g: Config, i: nat, k: nat, x: int)
    requires Lo(g, i) <= x < Lo(g, i) + g.size && Lo(g, k) <= x < Lo(g, k) + g.size
    ensures i == k
  {
    if i < k { LoMono(g, i, k); }
    if k < i { LoMono(g, k, i); }
  }

  function Index(g: Config, x: int): int
    requires g.size > 0
  {
    (x - 1) / g.size
  }

  lemma IndexOf(g: Config, x: int)
    requires g.size > 0 && 1 <= x <= Cells(g)
    ensures 0 <= Index(g, x) < g.blocks && Lo(g, Index(g, x)) <= x < Lo(g, Index(g, x)) + g.size
  {
    var q := (x - 1) / g.size;
    assert x - 1 == q * g.size + (x - 1) % g.size;
    if q < 0 { MulMono(g.size, q, -1); }
    if q >= g.blocks { MulMono(g.size, g.blocks, q); }
  }

  /** The block of an interior cell. */
  function Owner(g: Config, c: Cell): Block
    requires g.size > 0 && Interior(g, c)
  {
    IndexOf(g, c.x);
    IndexOf(g, c.y);
    Block(Index(g, c.x), Index(g, c.y))
  }

  /** The blocks partition the interior: every interior cell is in one block, and no other. */
  lemma BlocksPartition(g: Config, c: Cell, b: Block)
    requires g.size > 0
    ensures Interior(g, c) ==> Valid(g, Owner(g, c)) && InBlock(g, Owner(g, c), c)
    ensures Valid(g, b) && InBlock(g, b, c) ==> Interior(g, c) && Owner(g, c) == b
  {
    if Interior(g, c) {
      IndexOf(g, c.x);
      IndexOf(g, c.y);
    }
    if Valid(g, b) && InBlock(g, b, c) {
      LoRange(g, b.i);
      LoRange(g, b.j);
      IndexOf(g, c.x);
      IndexOf(g, c.y);
      SameIndex(g, b.i, Index(g, c.x), c.x);
      SameIndex(g, b.j, Index(g, c.y), c.y);
    }
  }

  function NextTo(b: Block, side: nat): Block
  {
    if side == 0 then Block(if b.i == 0 then 0 else b.i - 1, b.j)
    else if side == 1 then Block(b.i + 1, b.j)
    else if side == 2 then Block(b.i, if b.j == 0 then 0 else b.j - 1)
    else Block(b.i, b.j + 1)
  }

  /** What a block signals on a side is what the block there waits for, and the other way round. */
  lemma Facing(g: Config, b: Block, side: nat, o: nat)
    requires Valid(g, b) && g.size > 0 && side < 4 && HasSide(g, b, side)
    ensures var d := NextTo(b, side);
            && Valid(g, d) && HasSide(g, d, Opposite(side)) && NextTo(d, Opposite(side)) == b
            && SignalFlag(g, b, side, o) == WaitFlag(g, d, Opposite(side), o)
            && WaitFlag(g, b, side, o) == SignalFlag(g, d, Opposite(side), o)
  {
    LoRange(g, b.i);
    LoRange(g, b.j);
    var d := NextTo(b, side);
    LoRange(g, d.i);
    LoRange(g, d.j);
    LoStep(g, d.i);
    LoStep(g, d.j);
    LoStep(g, b.i);
    LoStep(g, b.j);
  }

  /** A cell and its neighbour in another block lie at the two ends of one flag. */
  lemma AcrossTheEdge(g: Config, b: Block, c: Cell, side: nat) returns (o: nat)
    requires g.size > 0 && Valid(g, b) && InBlock(g, b, c) && side < 4
    requires Interior(g, Nbr(c, side)) && Owner(g, Nbr(c, side)) != b
    ensures o < g.size && c == EdgeCell(g, b, side, o) && HasSide(g, b, side)
    ensures Owner(g, Nbr(c, side)) == NextTo(b, side)
  {
    var d := Nbr(c, side);
    BlocksPartition(g, d, b);
    o := if side < 2 then c.y - Lo(g, b.j) else c.x - Lo(g, b.i);
    assert c == EdgeCell(g, b, side, o);
    assert HasSide(g, b, side);
    Facing(g, b, side, o);
    LoStep(g, b.i);
    LoStep(g, b.j);
    LoStep(g, NextTo(b, side).i);
    LoStep(g, NextTo(b, side).j);
    BlocksPartition(g, d, NextTo(b, side));
  }

  /** Two signals of one flag come from one block. */
  lemma OneSignaller(g: Config, b: Block, d: Block, side: nat, o: nat, p: nat)
    requires g.size > 0 && Valid(g, b) && Valid(g, d) && o < g.size && p < g.size
    requires SignalFlag(g, b, side, o) == SignalFlag(g, d, side, p)
    ensures b == d && o == p
  {
    var c := EdgeCell(g, b, side, o);
    assert c == EdgeCell(g, d, side, p);
    assert InBlock(g, b, c) && InBlock(g, d, c);
    SameIndex(g, b.i, d.i, c.x);
    SameIndex(g, b.j, d.j, c.y);
  }
}
