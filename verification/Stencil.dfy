/** The flag-synchronised parallel stencil: the main ULT and one ULT for each block of each sweep,
    as a state machine.  One step is one read or write of a shared cell, one section under the mutex
    of a flag, or one test of a loop.  Cells hold reals. */
module Stencil {
  datatype Cell = Cell(x: int, y: int)

  /** A block by its place in the grid of blocks. */
  datatype Block = Block(i: nat, j: nat)

  /** `size` is blockSize, `blocks` is nBlocks. */
  datatype Config = Config(size: nat, blocks: nat, iterations: nat)

  /** An entry of `ready`: the cell, and which of its four entries. */
  datatype Flag = Flag(cell: Cell, entry: int)

  /** An array of doubles from calloc. */
  type Grid = map<Cell, real>

  function Read(g: Grid, c: Cell): real
  {
    if c in g then g[c] else 0.0
  }

  /** The loop variables of `compute`. Sides: 0 left, 1 right, 2 up, 3 down. */
  datatype Pc =
    | Compute(x: int, y: int, k: nat, sum: real)
    | Signal(side: nat, o: nat)
    | Wait(side: nat, o: nat)
    | Copy(x: int, y: int)
    | Finished

  datatype Main = Creating(i: nat, j: nat) | Joining(i: nat, j: nat) | Resetting | Ended

  datatype State = State(values: Grid, results: Grid, ready: set<Flag>, pc: map<Block, Pc>, main: Main, iter: nat)

  /** The first coordinate of the block with index `i`. */
  function Lo(g: Config, i: int): int
  {
    1 + i * g.size
  }

  function Cells(g: Config): nat
  {
    g.size * g.blocks
  }

  predicate Valid(g: Config, b: Block)
  {
    b.i < g.blocks && b.j < g.blocks
  }

  predicate InBlock(g: Config, b: Block, c: Cell)
  {
    Lo(g, b.i) <= c.x < Lo(g, b.i) + g.size && Lo(g, b.j) <= c.y < Lo(g, b.j) + g.size
  }

  predicate Interior(g: Config, c: Cell)
  {
    1 <= c.x <= Cells(g) && 1 <= c.y <= Cells(g)
  }

  function Nbr(c: Cell, side: nat): Cell
  {
    if side == 0 then Cell(c.x - 1, c.y)
    else if side == 1 then Cell(c.x + 1, c.y)
    else if side == 2 then Cell(c.x, c.y - 1)
    else Cell(c.x, c.y + 1)
  }

  /** Whether another block lies on that side. */
  predicate HasSide(g: Config, b: Block, side: nat)
  {
    if side == 0 then Lo(g, b.i) > 1
    else if side == 1 then Lo(g, b.i) + g.size - 1 < Cells(g)
    else if side == 2 then Lo(g, b.j) > 1
    else Lo(g, b.j) + g.size - 1 < Cells(g)
  }

  function EdgeCell(g: Config, b: Block, side: nat, o: nat): Cell
  {
    if side == 0 then Cell(Lo(g, b.i), Lo(g, b.j) + o)
    else if side == 1 then Cell(Lo(g, b.i) + g.size - 1, Lo(g, b.j) + o)
    else if side == 2 then Cell(Lo(g, b.i) + o, Lo(g, b.j))
    else Cell(Lo(g, b.i) + o, Lo(g, b.j) + g.size - 1)
  }

  function Opposite(side: nat): nat
  {
    if side == 0 then 1 else if side == 1 then 0 else if side == 2 then 3 else 2
  }

  function SignalFlag(g: Config, b: Block, side: nat, o: nat): Flag
  {
    Flag(Nbr(EdgeCell(g, b, side, o), side), side)
  }

  function WaitFlag(g: Config, b: Block, side: nat, o: nat): Flag
  {
    Flag(EdgeCell(g, b, side, o), Opposite(side))
  }

  ghost predicate Init(g: Config, s: State)
  {
    && s.results == map[] && s.ready == {} && s.pc == map[] && s.iter == 0
    && s.main == if g.iterations == 0 then Ended else Creating(0, 0)
  }

  function GoB(s: State, b: Block, p: Pc): State
  {
    s.(pc := s.pc[b := p])
  }

  predicate BlockReady(g: Config, s: State, b: Block)
  {
    && b in s.pc && s.pc[b] != Finished
    && (s.pc[b].Wait? && s.pc[b].side < 4 && HasSide(g, b, s.pc[b].side) && s.pc[b].o < g.size ==>
          WaitFlag(g, b, s.pc[b].side, s.pc[b].o) in s.ready)
  }

  function BlockNext(g: Config, s: State, b: Block): State
    requires BlockReady(g, s, b)
  {
    var top, left := Lo(g, b.j), Lo(g, b.i);
    match s.pc[b]
    case Compute(x, y, k, sum) =>
      if x >= left + g.size then GoB(s, b, Signal(0, 0))
      else if y >= top + g.size then GoB(s, b, Compute(x + 1, top, 0, 0.0))
      else if k < 4 then GoB(s, b, Compute(x, y, k + 1, sum + Read(s.values, Nbr(Cell(x, y), k))))
      else GoB(s, b, Compute(x, y + 1, 0, 0.0)).(results := s.results[Cell(x, y) := sum / 4.0])
    case Signal(side, o) =>
      if side >= 4 then GoB(s, b, Wait(0, 0))
      else if !HasSide(g, b, side) || o >= g.size then GoB(s, b, Signal(side + 1, 0))
      else GoB(s, b, Signal(side, o + 1)).(ready := s.ready + {SignalFlag(g, b, side, o)})
    case Wait(side, o) =>
      if side >= 4 then GoB(s, b, Copy(left, top))
      else if !HasSide(g, b, side) || o >= g.size then GoB(s, b, Wait(side + 1, 0))
      else GoB(s, b, Wait(side, o + 1))
    case Copy(x, y) =>
      if x >= left + g.size then GoB(s, b, Finished)
      else if y >= top + g.size then GoB(s, b, Copy(x + 1, top))
      else GoB(s, b, Copy(x, y + 1)).(values := s.values[Cell(x, y) := Read(s.results, Cell(x, y))])
  }

  predicate MainReady(g: Config, s: State)
  {
    match s.main
    case Joining(i, j) => i < g.blocks && j < g.blocks ==> Block(i, j) in s.pc && s.pc[Block(i, j)] == Finished
    case Ended => false
    case _ => true
  }

  function MainNext(g: Config, s: State): State
    requires MainReady(g, s)
  {
    match s.main
    case Creating(i, j) =>
      if i >= g.blocks then s.(main := Joining(0, 0))
      else if j >= g.blocks then s.(main := Creating(i + 1, 0))
      else
        var b := Block(i, j);
        GoB(s, b, Compute(Lo(g, i), Lo(g, j), 0, 0.0)).(main := Creating(i, j + 1))
    case Joining(i, j) =>
      if i >= g.blocks then s.(main := Resetting)
      else if j >= g.blocks then s.(main := Joining(i + 1, 0))
      else s.(main := Joining(i, j + 1))
    case Resetting =>
      s.(ready := {}, pc := map[], iter := s.iter + 1,
         main := if s.iter + 1 >= g.iterations then Ended else Creating(0, 0))
  }

  ghost predicate Steps(g: Config, s: State, s': State)
  {
    || (MainReady(g, s) && s' == MainNext(g, s))
    || exists b :: BlockReady(g, s, b) && s' == BlockNext(g, s, b)
  }

  ghost predicate Run(g: Config, tr: seq<State>)
  {
    && tr != [] && Init(g, tr[0])
    && forall i :: 0 <= i < |tr| - 1 ==> Steps(g, tr[i], tr[i + 1])
  }

  // ---- the sequential algorithm ----

  /** The value of a cell after `i` Jacobi sweeps from `v`. */
  function Jacobi(g: Config, v: Grid, i: nat, c: Cell): real
    decreases i
  {
    if i == 0 then Read(v, c)
    else if !Interior(g, c) then Jacobi(g, v, i - 1, c)
    else (Jacobi(g, v, i - 1, Nbr(c, 0)) + Jacobi(g, v, i - 1, Nbr(c, 1))
          + Jacobi(g, v, i - 1, Nbr(c, 2)) + Jacobi(g, v, i - 1, Nbr(c, 3))) / 4.0
  }
}
