/** What several of the models need. */
module Basics {
  datatype Option<T> = None | Some(value: T)

  ghost predicate Distinct<T>(q: seq<T>)
  {
    forall i, j :: 0 <= i < j < |q| ==> q[i] != q[j]
  }

  /** `q` without its k-th element. */
  function Without<T>(q: seq<T>, k: nat): seq<T>
    requires k < |q|
  {
    q[..k] + q[k + 1..]
  }

  lemma DistinctConcat<T>(q: seq<T>, r: seq<T>)
    requires Distinct(q) && Distinct(r) && forall i, j :: 0 <= i < |q| && 0 <= j < |r| ==> q[i] != r[j]
    ensures Distinct(q + r)
  {
    forall i, j | 0 <= i < j < |q + r| ensures (q + r)[i] != (q + r)[j] {
      if i < |q| <= j { assert (q + r)[i] == q[i] && (q + r)[j] == r[j - |q|]; }
    }
  }

  lemma MulMono(m: nat, j: int, k: int)
    requires j <= k
    ensures m * j <= m * k
  {
  }

  lemma MulStep(m: int, k: int)
    ensures m * (k + 1) == m * k + m
  {
  }

  lemma MulApart(m: nat, j: int, k: int)
    ensures j < k ==> m * j + m <= m * k
  {
    if j < k {
      MulMono(m, j + 1, k);
      MulStep(m, j);
    }
  }

  /** Quotient and remainder are unique. */
  lemma DivMod(m: nat, q: nat, r: nat)
    requires r < m
    ensures (m * q + r) / m == q && (m * q + r) % m == r
  {
    var v := m * q + r;
    var p := v / m;
    assert v == m * p + v % m;
    MulApart(m, p, q);
    MulApart(m, q, p);
  }
}
