/** Lists of stacks that run through the `p_next` pointers, and which stacks each of them holds. */
module StackChains {
  import opened Basics
  import opened StackPool

  /** Where a stack is: with a ULT, in the global list, in a list that is an ES's own, on its way to
      the global list, or counted back to its page. */
  datatype At = Out | Shared | Mine(e: Es) | Pushing(e: Es) | Back

  /** Starting at `head`, the pointers lead through `q` and no further. */
  ghost predicate IsChain(next: seq<Option<Sid>>, head: Option<Sid>, q: seq<Sid>)
  {
    && head == (if q == [] then None else Some(q[0]))
    && forall i :: 0 <= i < |q| ==> LinkOk(next, q, i)
  }

  predicate LinkOk(next: seq<Option<Sid>>, q: seq<Sid>, i: nat)
    requires i < |q|
  {
    q[i] < |next| && next[q[i]] == if i + 1 < |q| then Some(q[i + 1]) else None
  }

  /** `q` holds exactly the stacks that are at `tag`, each once. */
  ghost predicate Holds(at: seq<At>, q: seq<Sid>, tag: At)
  {
    && Distinct(q)
    && (forall i :: 0 <= i < |q| ==> q[i] < |at| && at[q[i]] == tag)
    && (forall x :: 0 <= x < |at| && at[x] == tag ==> x in q)
  }

  ghost predicate Chained(next: seq<Option<Sid>>, head: Option<Sid>, at: seq<At>, q: seq<Sid>, tag: At)
  {
    |at| == |next| && IsChain(next, head, q) && Holds(at, q, tag)
  }

  lemma KeepOther(next: seq<Option<Sid>>, head: Option<Sid>, at: seq<At>, q: seq<Sid>, tag: At,
                  x: Sid, n: Option<Sid>, t: At)
    requires Chained(next, head, at, q, tag) && x < |at| && at[x] != tag && t != tag
    ensures Chained(next[x := n], head, at[x := t], q, tag)
  {
    var next' := next[x := n];
    forall i | 0 <= i < |q| ensures LinkOk(next', q, i) { assert LinkOk(next, q, i); }
  }

  lemma Drop(next: seq<Option<Sid>>, at: seq<At>, q: seq<Sid>, tag: At, x: Sid, n: Option<Sid>, t: At)
    requires Chained(next, Some(x), at, q, tag) && t != tag
    ensures q != [] && q[0] == x && x < |at| && at[x] == tag
    ensures Chained(next[x := n], next[x], at[x := t], q[1..], tag)
  {
    var r := q[1..];
    assert LinkOk(next, q, 0);
    var next' := next[x := n];
    forall i | 0 <= i < |r| ensures LinkOk(next', r, i) {
      assert LinkOk(next, q, i + 1) && r[i] == q[i + 1] && q[0] != q[i + 1];
    }
    forall y | 0 <= y < |at| && at[x := t][y] == tag ensures y in r {
      var i :| 0 <= i < |q| && q[i] == y;
      assert r[i - 1] == y;
    }
  }

  lemma Add(next: seq<Option<Sid>>, head: Option<Sid>, at: seq<At>, q: seq<Sid>, tag: At, x: Sid)
    requires Chained(next, head, at, q, tag) && x < |at| && at[x] != tag
    ensures Chained(next[x := head], Some(x), at[x := tag], [x] + q, tag)
  {
    var r := [x] + q;
    var next' := next[x := head];
    forall i | 0 <= i < |r| ensures LinkOk(next', r, i) {
      if i > 0 { assert LinkOk(next, q, i - 1); }
    }
    forall y | 0 <= y < |at| && at[x := tag][y] == tag ensures y in r {
      if y != x { assert y in q; }
    }
  }

  /** Every stack at `Shared` becomes the own of `e`. */
  function Taken(at: seq<At>, e: Es): seq<At>
  {
    seq(|at|, i requires 0 <= i < |at| => if at[i] == Shared then Mine(e) else at[i])
  }

  lemma TakeAll(next: seq<Option<Sid>>, head: Option<Sid>, at: seq<At>, q: seq<Sid>, e: Es)
    requires Chained(next, head, at, q, Shared) && Holds(at, [], Mine(e))
    ensures Chained(next, head, Taken(at, e), q, Mine(e)) && Chained(next, None, Taken(at, e), [], Shared)
  {
  }

  lemma TakenOther(next: seq<Option<Sid>>, head: Option<Sid>, at: seq<At>, q: seq<Sid>, e: Es, tag: At)
    requires Chained(next, head, at, q, tag) && tag != Shared && tag != Mine(e)
    ensures Chained(next, head, Taken(at, e), q, tag)
  {
  }

  /** What a new page adds. */
  function NewAt(k: nat, e: Es): seq<At>
  {
    seq(k, i => if i == 0 then Out else Mine(e))
  }

  function NewList(n: Sid, k: nat): seq<Sid>
    requires k >= 1
  {
    seq(k - 1, i => n + i + 1)
  }

  lemma GrowOther(next: seq<Option<Sid>>, head: Option<Sid>, at: seq<At>, q: seq<Sid>, tag: At, k: nat, e: Es)
    requires Chained(next, head, at, q, tag) && tag != Out && tag != Mine(e)
    ensures Chained(next + Links(|next|, k), head, at + NewAt(k, e), q, tag)
  {
    var next' := next + Links(|next|, k);
    forall i | 0 <= i < |q| ensures LinkOk(next', q, i) { assert LinkOk(next, q, i); }
  }

  lemma GrowOwn(next: seq<Option<Sid>>, at: seq<At>, k: nat, e: Es)
    requires Chained(next, None, at, [], Mine(e)) && k >= 1
    ensures Chained(next + Links(|next|, k), if k > 1 then Some(|next| + 1) else None,
                    at + NewAt(k, e), NewList(|next|, k), Mine(e))
  {
    var n := |next|;
    var q := NewList(n, k);
    var at' := at + NewAt(k, e);
    forall x | 0 <= x < |at'| && at'[x] == Mine(e) ensures x in q {
      assert x > n;
      assert q[x - n - 1] == x;
    }
  }
}
