/** The layout of a stack page: where ABTI_mem_alloc_sp puts the headers and the stacks, and the
    list that it makes of them. */
module StackPage {
  import opened Basics

  type Addr = int

  /** What a page is cut into: `size` is the stack size asked for, of which `header` bytes hold the
      ABTI_thread and, `offset` bytes into it, the stack header. */
  datatype Shape = Shape(base: Addr, pageSize: nat, size: nat, header: nat, offset: nat, id: nat)

  predicate Ok(g: Shape)
  {
    0 < g.size <= g.pageSize && g.header <= g.size
  }

  /** The number of stacks in the page. */
  function Num(g: Shape): nat
    requires Ok(g)
  {
    g.pageSize / g.size
  }

  lemma NumFits(g: Shape)
    requires Ok(g)
    ensures Num(g) >= 1 && Num(g) * g.size <= g.pageSize
  {
  }

  function Area(g: Shape): nat
    requires Ok(g)
  {
    g.size - g.header
  }

  /** How many stacks come before the headers. */
  function Pos(g: Shape): nat
    requires Ok(g)
    ensures Pos(g) < Num(g)
  {
    NumFits(g);
    g.id % Num(g)
  }

  function SlotAt(g: Shape, j: int): Addr
    requires Ok(g)
  {
    g.base + Area(g) * Pos(g) + g.header * j
  }

  /** The address of the j-th stack header. */
  function HeaderAt(g: Shape, j: int): Addr
    requires Ok(g)
  {
    SlotAt(g, j) + g.offset
  }

  function StackAt(g: Shape, i: int): Addr
    requires Ok(g)
  {
    if i < Pos(g) then g.base + Area(g) * i else SlotAt(g, Num(g)) + Area(g) * (i - Pos(g))
  }

  // ---- the regions ----

  datatype Region = Slot(j: nat) | Stack(i: nat)

  predicate InPage(g: Shape, r: Region)
    requires Ok(g)
  {
    match r case Slot(j) => j < Num(g) case Stack(i) => i < Num(g)
  }

  function Start(g: Shape, r: Region): Addr
    requires Ok(g)
  {
    match r case Slot(j) => SlotAt(g, j) case Stack(i) => StackAt(g, i)
  }

  function Size(g: Shape, r: Region): nat
    requires Ok(g)
  {
    match r case Slot(_) => g.header case Stack(_) => Area(g)
  }

  predicate Within(g: Shape, r: Region, b: Addr)
    requires Ok(g)
  {
    Start(g, r) <= b < Start(g, r) + Size(g, r)
  }

  lemma MulSum(m: int, j: int, k: int)
    ensures m * (j + k) == m * j + m * k
  {
  }

  /** The stacks before the headers, the headers, and the stacks behind them end where the next
      begins, and all together take `Num` times the stack size. */
  lemma Bounds(g: Shape, r: Region)
    requires Ok(g) && InPage(g, r)
    ensures match r
            case Slot(j) => SlotAt(g, 0) <= SlotAt(g, j) && SlotAt(g, j) + g.header <= SlotAt(g, Num(g))
            case Stack(i) =>
              if i < Pos(g) then g.base <= StackAt(g, i) && StackAt(g, i) + Area(g) <= SlotAt(g, 0)
              else SlotAt(g, Num(g)) <= StackAt(g, i) && StackAt(g, i) + Area(g) <= g.base + Num(g) * g.size
    ensures g.base <= SlotAt(g, 0) <= SlotAt(g, Num(g)) <= g.base + Num(g) * g.size
  {
    var n, p, a := Num(g), Pos(g), Area(g);
    Whole(g);
    MulMono(a, 0, p);
    MulMono(g.header, 0, n);
    MulMono(a, 0, n - p);
    match r
    case Slot(j) =>
      MulMono(g.header, 0, j);
      MulStep(g.header, j);
      MulMono(g.header, j + 1, n);
    case Stack(i) =>
      if i < p {
        MulMono(a, 0, i);
        MulStep(a, i);
        MulMono(a, i + 1, p);
      } else {
        MulMono(a, 0, i - p);
        MulStep(a, i - p);
        MulMono(a, i - p + 1, n - p);
      }
  }

  lemma Whole(g: Shape)
    requires Ok(g)
    ensures g.base + Num(g) * g.size == SlotAt(g, Num(g)) + Area(g) * (Num(g) - Pos(g))
  {
    var n, p, a := Num(g), Pos(g), Area(g);
    calc {
      n * g.size;
      n * (a + g.header);
      a * n + g.header * n;
      { MulSum(a, p, n - p); }
      a * p + g.header * n + a * (n - p);
    }
  }

  /** No byte belongs to two regions. */
  lemma RegionsAreDisjoint(g: Shape, r: Region, q: Region, b: Addr)
    requires Ok(g) && InPage(g, r) && InPage(g, q) && Within(g, r, b) && Within(g, q, b)
    ensures r == q
  {
    Bounds(g, r);
    Bounds(g, q);
    match r
    case Slot(j) => match q { case Slot(k) => MulApart(g.header, j, k); MulApart(g.header, k, j); case Stack(_) => }
    case Stack(i) =>
      match q {
        case Slot(_) =>
        case Stack(k) =>
          MulApart(Area(g), i, k);
          MulApart(Area(g), k, i);
          MulApart(Area(g), i - Pos(g), k - Pos(g));
          MulApart(Area(g), k - Pos(g), i - Pos(g));
      }
  }

  lemma Quotient(m: nat, d: int, k: nat) returns (q: nat)
    requires 0 <= d < m * k
    ensures q < k && m * q <= d < m * q + m
  {
    q := d / m;
    assert d == m * q + d % m;
    if q >= k { MulMono(m, k, q); }
  }

  /** Every byte of the first `Num` times `size` bytes of the page belongs to a region. */
  lemma RegionsCoverThePage(g: Shape, b: Addr) returns (r: Region)
    requires Ok(g) && g.base <= b < g.base + Num(g) * g.size
    ensures InPage(g, r) && Within(g, r, b)
  {
    Whole(g);
    var p, a := Pos(g), Area(g);
    if b < SlotAt(g, 0) {
      var i := Quotient(a, b - g.base, p);
      r := Stack(i);
    } else if b < SlotAt(g, Num(g)) {
      var j := Quotient(g.header, b - SlotAt(g, 0), Num(g));
      r := Slot(j);
    } else {
      var i := Quotient(a, b - SlotAt(g, Num(g)), Num(g) - p);
      r := Stack(p + i);
    }
  }

  /** The regions are inside the page, and tile exactly `Num` times `size` bytes of it: a byte is in
      that range if and only if it is in a region, and then in only one. */
  lemma RegionsTileThePage(g: Shape, b: Addr)
    requires Ok(g)
    ensures Num(g) * g.size <= g.pageSize < Num(g) * g.size + g.size
    ensures g.base <= b < g.base + Num(g) * g.size <==> exists r :: InPage(g, r) && Within(g, r, b)
    ensures forall r, q :: InPage(g, r) && InPage(g, q) && Within(g, r, b) && Within(g, q, b) ==> r == q
  {
    NumFits(g);
    if g.base <= b < g.base + Num(g) * g.size {
      var r := RegionsCoverThePage(g, b);
    }
    forall r | InPage(g, r) && Within(g, r, b) ensures g.base <= b < g.base + Num(g) * g.size { Bounds(g, r); }
    forall r, q | InPage(g, r) && InPage(g, q) && Within(g, r, b) && Within(g, q, b) ensures r == q {
      RegionsAreDisjoint(g, r, q, b);
    }
  }

  // ---- the loop ----

  /** The fields of stack headers, by their addresses. */
  class Memory {
    var next: map<Addr, Option<Addr>>
    var stack: map<Addr, Addr>

    constructor ()
    {
      next, stack := map[], map[];
    }
  }

  /** The stack list of an ES. */
  class Local {
    var numStacks: nat
    var memStack: Option<Addr>

    constructor ()
      ensures numStacks == 0 && memStack == None
    {
      numStacks, memStack := 0, None;
    }
  }

  /** The p_next of the j-th header; that of the first is left to the caller. */
  function NextOf(g: Shape, j: int): Option<Addr>
    requires Ok(g)
  {
    if j + 1 < Num(g) then Some(HeaderAt(g, j + 1)) else None
  }

  /** The headers up to the j-th have their stack, and all of them but the first their successor. */
  ghost predicate Linked(g: Shape, next: map<Addr, Option<Addr>>, stack: map<Addr, Addr>, j: int)
    requires Ok(g)
  {
    && (forall k {:trigger HeaderAt(g, k)} :: 0 <= k < j ==>
          HeaderAt(g, k) in stack && stack[HeaderAt(g, k)] == StackAt(g, k))
    && (forall k {:trigger HeaderAt(g, k)} :: 1 <= k < j ==>
          HeaderAt(g, k) in next && next[HeaderAt(g, k)] == NextOf(g, k))
  }

  lemma LinkOne(g: Shape, next: map<Addr, Option<Addr>>, stack: map<Addr, Addr>, j: nat)
    requires Ok(g) && g.header > 0 && Linked(g, next, stack, j) && j >= 1
    ensures Linked(g, next[HeaderAt(g, j) := NextOf(g, j)], stack[HeaderAt(g, j) := StackAt(g, j)], j + 1)
  {
    forall k | 0 <= k < j ensures HeaderAt(g, k) != HeaderAt(g, j) { HeadersDiffer(g, k, j); }
    hide HeaderAt, StackAt, NextOf;
  }

  lemma HeadersDiffer(g: Shape, j: int, k: int)
    requires Ok(g) && g.header > 0 && j != k
    ensures HeaderAt(g, j) != HeaderAt(g, k)
  {
    MulApart(g.header, j, k);
    MulApart(g.header, k, j);
  }

  lemma LinkFirst(g: Shape, next: map<Addr, Option<Addr>>, stack: map<Addr, Addr>)
    requires Ok(g) && HeaderAt(g, 0) in stack && stack[HeaderAt(g, 0)] == StackAt(g, 0)
    ensures Linked(g, next, stack, 1)
  {
  }

  /** The addresses as the loop computes them. */
  lemma Addresses(g: Shape, i: nat)
    requires Ok(g)
    ensures HeaderAt(g, i + 1) == HeaderAt(g, i) + g.header
    ensures HeaderAt(g, 0) == SlotAt(g, 0) + g.offset
    ensures SlotAt(g, 0) == g.base + Area(g) * Pos(g)
    ensures StackAt(g, i) == if i < Pos(g) then g.base + i * Area(g)
                             else SlotAt(g, 0) + g.header * Num(g) + (i - Pos(g)) * Area(g)
  {
    MulStep(g.header, i);
  }

  /** ABTI_mem_alloc_sp: every header gets its own stack, the first stack is returned, and the others
      become the ES's list. */
  method AllocSp(g: Shape, local: Local, mem: Memory) returns (first: Addr)
    requires Ok(g) && g.header > 0
    modifies local, mem
    ensures first == SlotAt(g, 0) == g.base + (g.size - g.header) * (g.id % (g.pageSize / g.size))
    ensures Linked(g, mem.next, mem.stack, Num(g))
    ensures Num(g) > 1 ==> local.numStacks == Num(g) - 1 && local.memStack == Some(HeaderAt(g, 1))
    ensures Num(g) == 1 ==> local.numStacks == old(local.numStacks) && local.memStack == old(local.memStack)
  {
    hide SlotAt, HeaderAt, StackAt, Linked;
    NumFits(g);
    var n := g.pageSize / g.size;
    var area := g.size - g.header;
    var pos := g.id % n;
    Addresses(g, 0);
    first := g.base + area * pos;
    var sh := first + g.offset;
    var stack := if pos == 0 then first + g.header * n else g.base;
    mem.stack := mem.stack[sh := stack];
    if n > 1 {
      sh := sh + g.header;
      local.numStacks := n - 1;
      local.memStack := Some(sh);
      var i := 1;
      LinkFirst(g, mem.next, mem.stack);
      while i < n
        invariant 1 <= i <= n && sh == HeaderAt(g, i)
        invariant Linked(g, mem.next, mem.stack, i)
        invariant local.numStacks == n - 1 && local.memStack == Some(HeaderAt(g, 1))
      {
        Addresses(g, i);
        LinkOne(g, mem.next, mem.stack, i);
        mem.next := mem.next[sh := if i + 1 < n then Some(sh + g.header) else None];
        if pos == 0 {
          mem.stack := mem.stack[sh := stack + i * area];
        } else if i < pos {
          mem.stack := mem.stack[sh := g.base + i * area];
        } else {
          mem.stack := mem.stack[sh := first + g.header * n + (i - pos) * area];
        }
        sh := sh + g.header;
        i := i + 1;
      }
    } else {
      LinkFirst(g, mem.next, mem.stack);
    }
  }

  /** The headers that the list visits. */
  function Visited(g: Shape, j: nat): seq<Addr>
    requires Ok(g) && j <= Num(g)
    decreases Num(g) - j
  {
    if j == Num(g) then [] else [HeaderAt(g, j)] + Visited(g, j + 1)
  }

  function Follow(next: map<Addr, Option<Addr>>, at: Option<Addr>, steps: nat): seq<Addr>
    decreases steps
  {
    if at == None || at.value !in next || steps == 0 then [] else [at.value] + Follow(next, next[at.value], steps - 1)
  }

  lemma LinkAt(g: Shape, next: map<Addr, Option<Addr>>, stack: map<Addr, Addr>, j: nat)
    requires Ok(g) && Linked(g, next, stack, Num(g)) && 1 <= j < Num(g)
    ensures HeaderAt(g, j) in next && next[HeaderAt(g, j)] == NextOf(g, j)
  {
  }

  /** Followed from its head, the list of a page visits each header but the first once, in order, and
      ends. */
  lemma {:induction false} TheListVisitsTheRest(g: Shape, mem: Memory, j: nat, steps: nat)
    requires Ok(g) && Linked(g, mem.next, mem.stack, Num(g)) && 1 <= j < Num(g) && steps >= Num(g) - j
    ensures Follow(mem.next, Some(HeaderAt(g, j)), steps) == Visited(g, j)
    ensures |Visited(g, j)| == Num(g) - j
    decreases Num(g) - j
  {
    hide Linked;
    LinkAt(g, mem.next, mem.stack, j);
    if j + 1 < Num(g) { TheListVisitsTheRest(g, mem, j + 1, steps - 1); }
  }
}
