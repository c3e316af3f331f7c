/** The final test of the stencil program on the flat array, and why it succeeds. */
module StencilCheck {
  import opened Basics
  import opened Stencil
  import opened StencilTheorems

  /** The two values differ by less than the tolerance, whichever is the greater. */
  predicate Near(a: real, b: real)
  {
    -0.00001 < a - b < 0.00001
  }

  /** The function `eq`. */
  predicate Eq(a: real, b: real): (r: bool)
    ensures r <==> Near(a, b)
  {
    var e := 0.00001;
    if a < b then b - a < e else a - b < e
  }

  lemma InRange(n: int, i: int, j: int)
    requires 0 <= i < n && 0 <= j < n
    ensures 0 <= i * n + j < n * n
  {
    MulMono(n, i + 1, n);
    assert (i + 1) * n == i * n + n;
  }

  function At(r: seq<real>, n: nat, i: int, j: int): real
    requires |r| == n * n && 0 <= i < n && 0 <= j < n
  {
    InRange(n, i, j);
    r[i * n + j]
  }

  /** The four mirror images of a cell agree. */
  predicate Agree(r: seq<real>, n: nat, i: int, j: int)
    requires |r| == n * n && 0 <= i < n && 0 <= j < n
  {
    && Near(At(r, n, i, j), At(r, n, i, n - 1 - j))
    && Near(At(r, n, i, j), At(r, n, n - 1 - i, j))
    && Near(At(r, n, i, j), At(r, n, n - 1 - i, n - 1 - j))
  }

  method Check(results: array<real>, n: nat) returns (ok: bool)
    requires results.Length == n * n
    ensures ok <==> forall i, j :: 0 <= i < n / 2 && 0 <= j < n / 2 ==> Agree(results[..], n, i, j)
  {
    for i := 0 to n / 2
      invariant forall k, j :: 0 <= k < i && 0 <= j < n / 2 ==> Agree(results[..], n, k, j)
    {
      for j := 0 to n / 2
        invariant forall k, l :: 0 <= k < i && 0 <= l < n / 2 ==> Agree(results[..], n, k, l)
        invariant forall l :: 0 <= l < j ==> Agree(results[..], n, i, l)
      {
        InRange(n, i, j);
        InRange(n, i, n - 1 - j);
        InRange(n, n - 1 - i, j);
        InRange(n, n - 1 - i, n - 1 - j);
        var here := results[i * n + j];
        if !Eq(here, results[i * n + (n - 1 - j)]) || !Eq(here, results[(n - 1 - i) * n + j])
           || !Eq(here, results[(n - 1 - i) * n + (n - 1 - j)])
        {
          assert !Agree(results[..], n, i, j);
          return false;
        }
      }
    }
    return true;
  }

  // ---- the flat array ----

  /** The macro `here`. */
  function Here(g: Config, c: Cell): int
  {
    c.x * (Cells(g) + 2) + c.y
  }

  predicate InGrid(g: Config, c: Cell)
  {
    0 <= c.x < Cells(g) + 2 && 0 <= c.y < Cells(g) + 2
  }

  /** Different cells of the grid have different places in the array. */
  lemma HereIsInjective(g: Config, c: Cell, d: Cell)
    requires InGrid(g, c) && InGrid(g, d) && Here(g, c) == Here(g, d)
    ensures c == d
  {
    RowsApart(Cells(g) + 2, c.x, d.x);
    RowsApart(Cells(g) + 2, d.x, c.x);
  }

  lemma RowsApart(n: nat, x: int, z: int)
    ensures x < z ==> x * n + n <= z * n
  {
    if x < z {
      MulMono(n, x + 1, z);
      assert (x + 1) * n == x * n + n;
    }
  }

  /** The flat array holds the grid. */
  ghost predicate Holds(g: Config, r: seq<real>, v: Grid)
  {
    && |r| == (Cells(g) + 2) * (Cells(g) + 2)
    && forall c: Cell :: InGrid(g, c) ==> At(r, Cells(g) + 2, c.x, c.y) == Read(v, c)
  }

  /** The grid that the program starts with: 1 along the first and the last row, 0 elsewhere. */
  ghost predicate StartGrid(g: Config, v: Grid)
  {
    forall c: Cell :: Read(v, c) == if (c.x == 0 || c.x == Cells(g) + 1) && 1 <= c.y <= Cells(g) then 1.0 else 0.0
  }

  /** However the block ULTs were interleaved, the final test succeeds. */
  lemma CheckSucceeds(g: Config, tr: seq<State>, k: nat, r: seq<real>, i: int, j: int)
    requires g.size > 0 && Run(g, tr) && k < |tr| && tr[k].main == Ended
    requires StartGrid(g, tr[0].values) && Holds(g, r, tr[k].results)
    requires 0 <= i < Cells(g) + 2 && 0 <= j < Cells(g) + 2
    ensures Agree(r, Cells(g) + 2, i, j)
  {
    var c := Cell(i, j);
    SameAsMirror(g, tr, k, c);
    SameAsMirror(g, tr, k, MirrorX(g, c));
    var n := Cells(g) + 2;
    assert At(r, n, i, j) == Read(tr[k].results, c);
    assert At(r, n, n - 1 - i, j) == Read(tr[k].results, MirrorX(g, c));
    assert At(r, n, i, n - 1 - j) == Read(tr[k].results, MirrorY(g, c));
    assert At(r, n, n - 1 - i, n - 1 - j) == Read(tr[k].results, MirrorY(g, MirrorX(g, c)));
  }

  lemma SameAsMirror(g: Config, tr: seq<State>, k: nat, c: Cell)
    requires g.size > 0 && Run(g, tr) && k < |tr| && tr[k].main == Ended && StartGrid(g, tr[0].values)
    ensures Read(tr[k].results, MirrorX(g, c)) == Read(tr[k].results, c) == Read(tr[k].results, MirrorY(g, c))
  {
    var v := tr[0].values;
    SweepsKeepSymmetry(g, v, tr[k].iter, c);
    EveryInterleavingIsJacobi(g, tr, k, c);
    EveryInterleavingIsJacobi(g, tr, k, MirrorX(g, c));
    EveryInterleavingIsJacobi(g, tr, k, MirrorY(g, c));
    MirrorNeighbours(g, c);
    if tr[k].iter == 0 { NoIterations(g, tr, k); }
  }

  /** Without iterations nothing happens. */
  lemma {:induction false} NoIterations(g: Config, tr: seq<State>, k: nat)
    requires g.size > 0 && Run(g, tr) && k < |tr| && tr[k].main == Ended && tr[k].iter == 0
    ensures tr[k].results == map[]
  {
    RunKeeps(g, tr, k);
    NeverStarts(g, tr, k);
  }

  lemma {:induction false} NeverStarts(g: Config, tr: seq<State>, k: nat)
    requires Run(g, tr) && k < |tr| && g.iterations == 0
    ensures tr[k].main == Ended && tr[k].pc == map[] && tr[k].results == map[]
  {
    if k > 0 {
      assert Steps(g, tr[k - 1], tr[k - 1 + 1]);
      NeverStarts(g, tr, k - 1);
    }
  }
}
