/** Counting the positions of a sequence at which something holds. */
module Counting {
  function Count(b: seq<bool>): nat
  {
    if b == [] then 0 else (if b[|b| - 1] then 1 else 0) + Count(b[..|b| - 1])
  }

  function One(b: bool): nat
  {
    if b then 1 else 0
  }

  lemma {:induction false} CountUpdate(b: seq<bool>, i: nat, x: bool)
    requires i < |b|
    ensures Count(b[i := x]) == Count(b) - One(b[i]) + One(x)
  {
    var n := |b| - 1;
    if i == n {
      assert b[i := x][..n] == b[..n];
    } else {
      assert b[i := x][..n] == b[..n][i := x];
      CountUpdate(b[..n], i, x);
    }
  }

  lemma CountAppend(b: seq<bool>, x: bool)
    ensures Count(b + [x]) == Count(b) + One(x)
  {
    assert (b + [x])[..|b|] == b;
  }

  lemma {:induction false} CountConcat(b: seq<bool>, c: seq<bool>)
    ensures Count(b + c) == Count(b) + Count(c)
  {
    if c == [] {
      assert b + c == b;
    } else {
      assert (b + c)[..|b + c| - 1] == b + c[..|c| - 1];
      CountConcat(b, c[..|c| - 1]);
    }
  }

  lemma {:induction false} CountAll(b: seq<bool>)
    requires forall i :: 0 <= i < |b| ==> b[i]
    ensures Count(b) == |b|
  {
    if b != [] { CountAll(b[..|b| - 1]); }
  }

  lemma {:induction false} CountNone(b: seq<bool>)
    ensures Count(b) == 0 <==> forall i :: 0 <= i < |b| ==> !b[i]
  {
    if b != [] { CountNone(b[..|b| - 1]); }
  }

  function Sum(a: seq<int>): int
  {
    if a == [] then 0 else a[|a| - 1] + Sum(a[..|a| - 1])
  }

  lemma {:induction false} SumUpdate(a: seq<int>, i: nat, x: int)
    requires i < |a|
    ensures Sum(a[i := x]) == Sum(a) - a[i] + x
  {
    var n := |a| - 1;
    if i == n {
      assert a[i := x][..n] == a[..n];
    } else {
      assert a[i := x][..n] == a[..n][i := x];
      SumUpdate(a[..n], i, x);
    }
  }

  lemma {:induction false} SumZero(a: seq<int>)
    requires forall i :: 0 <= i < |a| ==> a[i] >= 0
    ensures Sum(a) >= 0
    ensures Sum(a) == 0 <==> forall i :: 0 <= i < |a| ==> a[i] == 0
  {
    if a != [] { SumZero(a[..|a| - 1]); }
  }
}
