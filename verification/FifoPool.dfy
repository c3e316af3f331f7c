/** The FIFO pool. */
module FifoPool {
  import opened Basics
  import opened UnitQueue

  datatype Status = Success | ErrPool

  class Pool {
    const list: Queue

    ghost predicate Valid()
      reads this, list, list.q
    {
      list.Valid() && forall i :: 0 <= i < |list.q| ==> list.q[i].pool == this
    }

    /** The units in the pool, from the front. */
    ghost function Contents(): seq<Unit>
      reads list
    {
      list.q
    }

    constructor ()
      ensures Valid() && Contents() == [] && fresh(list)
    {
      list := new Queue();
    }

    method Push(u: Unit)
      requires Valid() && u.pool == null
      modifies list, list.q`next, list.q`prev, u
      ensures Valid() && Contents() == old(Contents()) + [u]
    {
      list.Append(u);
      u.pool := this;
    }

    method Pop() returns (u: Unit?)
      requires Valid()
      modifies list, list.q
      ensures Valid()
      ensures old(Contents()) == [] ==> u == null && Contents() == []
      ensures old(Contents()) != [] ==>
                && u == old(Contents()[0]) && Contents() == old(Contents()[1..])
                && u.pool == null && u.next == null && u.prev == null
    {
      u := null;
      if list.num > 0 {
        u := list.TakeHead();
        u.pool := null;
      }
    }

    /** The unit may be anywhere in the pool; one that is in no pool is refused, and so is any if the
        pool is empty.  A unit of another pool, `home`, is unlinked there all the same: its own pool
        still counts it, and this one counts one less than it has.  So both pools stay as they should
        be exactly when the unit is refused or this is its pool. */
    method Remove(u: Unit, ghost home: Pool) returns (r: Status)
      requires Valid() && home.Valid() && (home != this ==> home.list != list)
      requires u.pool != null ==> u in home.Contents()
      modifies list, list.q, home.list.q
      ensures r == ErrPool <==> old(u.pool) == null || old(Contents()) == []
      ensures r == ErrPool ==> Contents() == old(Contents()) && home.Contents() == old(home.Contents())
      ensures r == Success ==> u.pool == null && u.next == null && u.prev == null
      ensures r == Success && home == this ==>
                exists k :: 0 <= k < old(|Contents()|) && old(Contents())[k] == u
                            && Contents() == Without(old(Contents()), k)
      ensures r == Success && home != this ==>
                && Contents() == old(Contents()) && list.num == |Contents()| - 1
                && home.Contents() == old(home.Contents())
      ensures Valid() && home.Valid() <==> r == ErrPool || home == this
    {
      hide Ring;
      if list.num == 0 || u.pool == null { return ErrPool; }
      ghost var q := home.list.q;
      ghost var k :| 0 <= k < |q| && q[k] == u;
      list.Unlink(u, q, k);
      u.pool := null;
      r := Success;
    }
  }

  // ---- several pools ----

  /** A unit popped from one pool is pushed to another. Any third pool keeps its units and its order. */
  method Transfer(from: Pool, to: Pool, ghost other: Pool) returns (u: Unit?)
    requires from.Valid() && to.Valid() && other.Valid()
    requires from != to && from.list != to.list
    requires other != from && other != to && other.list != from.list && other.list != to.list
    modifies from.list, from.list.q, to.list, to.list.q`next, to.list.q`prev
    ensures from.Valid() && to.Valid() && other.Valid() && other.Contents() == old(other.Contents())
    ensures old(from.Contents()) == [] ==> u == null && from.Contents() == [] && to.Contents() == old(to.Contents())
    ensures old(from.Contents()) != [] ==>
              && u == old(from.Contents()[0]) && from.Contents() == old(from.Contents()[1..])
              && to.Contents() == old(to.Contents()) + [u]
    ensures forall x :: x in from.Contents() ==> x !in to.Contents() && x !in other.Contents()
  {
    hide Ring, Distinct;
    u := from.Pop();
    if u != null { to.Push(u); }
  }
}
