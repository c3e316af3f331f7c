/** The circular doubly linked list of units that the FIFO pool and the condition variable have in
    common. */
module UnitQueue {
  import opened Basics

  class Unit {
    var next: Unit?
    var prev: Unit?
    var pool: object?        // the pool the unit is in
    ghost var wakes: nat     // how often the unit has been woken

    constructor ()
      ensures next == null && prev == null && pool == null && wakes == 0
    {
      next, prev, pool, wakes := null, null, null, 0;
    }
  }

  /** The links of `q` form a ring. */
  ghost predicate Ring(q: seq<Unit>)
    reads q`next, q`prev
  {
    && (q != [] ==> q[|q| - 1].next == q[0] && q[0].prev == q[|q| - 1])
    && (forall i :: 0 <= i < |q| - 1 ==> q[i].next == q[i + 1])
    && (forall i :: 0 < i < |q| ==> q[i].prev == q[i - 1])
  }

  function After(n: nat, i: nat): nat
  {
    if i + 1 == n then 0 else i + 1
  }

  function Before(n: nat, i: nat): nat
    requires n > 0
  {
    if i == 0 then n - 1 else i - 1
  }

  lemma Linked(q: seq<Unit>, i: nat)
    requires Ring(q) && i < |q|
    ensures q[i].next == q[After(|q|, i)] && q[i].prev == q[Before(|q|, i)]
  {
  }

  /** Every unit but the k-th is linked to its neighbours without it. */
  ghost predicate Skips(q: seq<Unit>, k: nat)
    requires k < |q|
    reads q`next, q`prev
  {
    forall i :: 0 <= i < |q| && i != k ==>
      && q[i].next == q[if After(|q|, i) == k then After(|q|, k) else After(|q|, i)]
      && q[i].prev == q[if Before(|q|, i) == k then Before(|q|, k) else Before(|q|, i)]
  }

  lemma SkipsRing(q: seq<Unit>, k: nat)
    requires k < |q| && Skips(q, k)
    ensures Ring(Without(q, k))
  {
    var r, n := Without(q, k), |q|;
    forall i | 0 <= i < |r| ensures r[i].next == r[After(n - 1, i)] && r[i].prev == r[Before(n - 1, i)] {
      var j := if i < k then i else i + 1;
      assert r[i] == q[j];
    }
  }

  /** The neighbours of a unit are linked to each other. */
  method Bypass(u: Unit, ghost ring: seq<Unit>, ghost k: nat)
    requires Distinct(ring) && Ring(ring) && k < |ring| && u == ring[k]
    modifies ring`next, ring`prev
    ensures u.next == old(u.next) && u.prev == old(u.prev)
    ensures Ring(Without(ring, k))
  {
    hide Ring, After, Before, Without;
    ghost var n := |ring|;
    ghost var a, b := After(n, k), Before(n, k);
    Neighbours(n, k);
    forall i | 0 <= i < n ensures ring[i].next == ring[After(n, i)] && ring[i].prev == ring[Before(n, i)] {
      Linked(ring, i);
    }
    u.prev.next := u.next;
    u.next.prev := u.prev;
    assert ring[b].next == ring[a] && ring[a].prev == ring[b];
    SkipsRing(ring, k);
  }

  lemma Neighbours(n: nat, k: nat)
    requires k < n
    ensures After(n, k) < n && Before(n, k) < n
    ensures forall i :: 0 <= i < n ==> After(n, i) < n && (After(n, i) == k <==> i == Before(n, k))
    ensures forall i :: 0 <= i < n ==> Before(n, i) < n && (Before(n, i) == k <==> i == After(n, k))
  {
  }

  lemma WithoutOne(q: seq<Unit>, k: nat)
    requires Distinct(q) && k < |q|
    ensures Distinct(Without(q, k)) && q[k] !in Without(q, k) && |Without(q, k)| == |q| - 1
    ensures (q[k] == q[0] <==> k == 0) && (q[k] == q[|q| - 1] <==> k == |q| - 1)
    ensures |q| == 1 ==> Ring(Without(q, k))
    ensures |q| > 1 ==> Without(q, k)[0] == q[if k == 0 then 1 else 0]
    ensures |q| > 1 ==> Without(q, k)[|q| - 2] == q[if k == |q| - 1 then |q| - 2 else |q| - 1]
  {
  }

  class Queue {
    var num: nat
    var head: Unit?
    var tail: Unit?
    ghost var q: seq<Unit>

    ghost predicate Valid()
      reads this, q`next, q`prev
    {
      && num == |q| && Distinct(q) && Ring(q)
      && (q == [] ==> head == null && tail == null)
      && (q != [] ==> head == q[0] && tail == q[|q| - 1])
    }

    constructor ()
      ensures Valid() && q == []
    {
      num, head, tail, q := 0, null, null, [];
    }

    /** A linked unit never has a null link. */
    lemma LinkedIn(u: Unit)
      requires Valid() && u in q
      ensures u.next != null && u.prev != null
    {
      var k :| 0 <= k < |q| && q[k] == u;
      assert q[k].next == if k < |q| - 1 then q[k + 1] else q[0];
      assert q[k].prev == if k > 0 then q[k - 1] else q[|q| - 1];
    }

    method Append(u: Unit)
      requires Valid() && u !in q
      modifies this, q`next, q`prev, u`next, u`prev
      ensures Valid() && q == old(q) + [u]
    {
      if num == 0 {
        u.prev, u.next := u, u;
        head, tail := u, u;
      } else {
        tail.next := u;
        head.prev := u;
        u.prev, u.next := tail, head;
        tail := u;
      }
      num := num + 1;
      q := q + [u];
    }

    /** The first unit leaves; its links are cleared. */
    method TakeHead() returns (u: Unit)
      requires Valid() && q != []
      modifies this, q`next, q`prev
      ensures Valid() && old(|q|) > 0 && u == old(q[0]) && q == old(q[1..]) && u.next == null && u.prev == null
    {
      u := head;
      if num == 1 {
        head, tail := null, null;
      } else {
        assert q[0].next == q[1] && q[0].prev == q[|q| - 1] && q[1] != q[0];
        u.prev.next := u.next;
        u.next.prev := u.prev;
        head := u.next;
      }
      num := num - 1;
      u.prev, u.next := null, null;
      q := q[1..];
    }

    /** A unit anywhere in the list leaves; its links are cleared.  `ring` is the ring that the unit is
        linked in: the code does not know whether it is its own, and forgets about its own one unit, or
        counts one less, even when it is not. */
    method Unlink(u: Unit, ghost ring: seq<Unit>, ghost k: nat)
      requires Valid() && num > 0 && Distinct(ring) && Ring(ring) && k < |ring| && u == ring[k]
      requires ring == q || forall x :: x in ring ==> x !in q
      modifies this, ring`next, ring`prev
      ensures num == old(num) - 1 && u.next == null && u.prev == null
      ensures ring == old(q) ==> Valid() && q == Without(old(q), k)
      ensures ring != old(q) ==> q == old(q)
    {
      hide Ring, Distinct, Without;
      WithoutOne(ring, k);
      if num == 1 {
        head, tail := null, null;
      } else {
        Linked(ring, k);
        Bypass(u, ring, k);
        if u == head {
          head := u.next;
        } else if u == tail {
          tail := u.prev;
        }
      }
      num := num - 1;
      u.prev, u.next := null, null;
      if ring == q { q := Without(q, k); }
    }

    /** The list forgets its units. */
    method Clear()
      modifies this
      ensures Valid() && q == []
    {
      num, head, tail, q := 0, null, null, [];
    }
  }
}
