/** The condition variable on the heap: its locked sections on the circular list of waiters. */
module CondVar {
  import opened Basics
  import UnitQueue
  import opened CondQueue

  type Unit = UnitQueue.Unit

  class Variable {
    const list: UnitQueue.Queue
    var waiterMutex: object?

    ghost predicate Valid()
      reads this, list, list.q
    {
      list.Valid() && (waiterMutex == null <==> list.q == [])
    }

    function Mutex(): Option<object>
      reads this
    {
      if waiterMutex == null then None else var m: object := waiterMutex; Some(m)
    }

    ghost function View(): Cond<Unit, object>
      reads this, list
    {
      Cond(list.q, Mutex())
    }

    constructor ()
      ensures Valid() && View() == Cond([], None) && fresh(list)
    {
      list := new UnitQueue.Queue();
      waiterMutex := null;
    }

    /** The queue is never without its mutex, and the units in it are linked. */
    lemma Sound(u: Unit)
      requires Valid()
      ensures Ok(View())
      ensures u in list.q ==> u.next != null
    {
      if u in list.q { list.LinkedIn(u); }
    }

    /** The enqueueing of wait and of timedwait. */
    method Enqueue(u: Unit, m: object) returns (ok: bool)
      requires Valid() && u !in list.q
      modifies this, list, list.q`next, list.q`prev, u`next, u`prev
      ensures Valid() && View() == Wait(old(View()), u, m)
      ensures ok <==> old(list.q) == [] || old(waiterMutex) == m
      ensures ok ==> list.q == old(list.q) + [u] && waiterMutex == m
      ensures !ok ==> list.q == old(list.q) && waiterMutex == old(waiterMutex) && u.next == old(u.next)
    {
      if waiterMutex == null {
        waiterMutex := m;
      } else if waiterMutex != m {
        return false;
      }
      list.Append(u);
      ok := true;
    }

    /** ABT_cond_signal: the waiter at the head is woken, once, and nobody else. */
    method Signal() returns (woken: UnitQueue.Unit?)
      requires Valid()
      modifies this, list, list.q`next, list.q`prev, list.q`wakes
      ensures Valid() && View() == CondQueue.Signal(old(View()))
      ensures Woken(old(View()), SignalOne) == if woken == null then [] else [woken]
      ensures old(list.q) == [] ==> woken == null && list.q == []
      ensures old(list.q) != [] ==>
                && woken == old(list.q)[0] && list.q == old(list.q)[1..]
                && woken.wakes == old(woken.wakes) + 1 && woken.next == null
      ensures waiterMutex == if list.q == [] then null else old(waiterMutex)
      ensures forall u :: u in old(list.q) && u != woken ==> u.wakes == old(u.wakes)
    {
      if list.num == 0 { return null; }
      if list.num == 1 { waiterMutex := null; }
      var u := list.TakeHead();
      u.wakes := u.wakes + 1;
      woken := u;
    }

    /** ABTI_cond_broadcast: every waiter is woken once. */
    method Broadcast()
      requires Valid()
      modifies this, list, list.q`next, list.q`prev, list.q`wakes
      ensures Valid() && View() == Next(old(View()), SignalAll) && Woken(old(View()), SignalAll) == old(list.q)
      ensures list.q == [] && waiterMutex == null
      ensures forall u :: u in old(list.q) ==>
                u.wakes == old(u.wakes) + 1 && u.next == null && u.prev == null
    {
      if list.num == 0 { return; }
      ghost var q := list.q;
      WakeAll(list.head, q);
      assert forall u :: u in q ==> u.wakes == old(u.wakes) + 1 && u.next == null && u.prev == null;
      waiterMutex := null;
      list.Clear();
    }

    /** The walk around the ring, up to where it would come back to the head. */
    static method WakeAll(head: Unit, ghost q: seq<Unit>)
      requires q != [] && q[0] == head && Distinct(q) && UnitQueue.Ring(q)
      modifies q`next, q`prev, q`wakes
      ensures forall i :: 0 <= i < |q| ==> q[i].wakes == old(q[i].wakes) + 1 && q[i].next == null && q[i].prev == null
    {
      var unit := head;
      ghost var k := 0;
      while true
        invariant 0 <= k < |q| && unit == q[k]
        invariant forall i :: 0 <= i < k ==> q[i].wakes == old(q[i].wakes) + 1 && q[i].next == null && q[i].prev == null
        invariant forall i :: k <= i < |q| ==> q[i].wakes == old(q[i].wakes) && q[i].next == old(q[i].next)
        decreases |q| - k
      {
        assert q[k].next == old(q[k].next) == if k < |q| - 1 then q[k + 1] else q[0];
        assert k < |q| - 1 ==> q[k + 1] != q[0];
        var next := unit.next;
        unit.prev, unit.next := null, null;
        unit.wakes := unit.wakes + 1;
        k := k + 1;
        if next == head { break; }
        unit := next;
      }
    }

    /** remove_unit: a waiter that timed out leaves, unless it has been signalled meanwhile. */
    method RemoveUnit(u: Unit)
      requires Valid() && (u in list.q || u.next == null)
      modifies this, list, list.q`next, list.q`prev
      ensures Valid() && View() == Remove(old(View()), u)
      ensures u.next == null && u !in list.q
      ensures u !in old(list.q) ==> list.q == old(list.q)
      ensures u in old(list.q) ==>
                exists k :: 0 <= k < |old(list.q)| && old(list.q)[k] == u && list.q == Without(old(list.q), k)
      ensures waiterMutex == if list.q == [] then null else old(waiterMutex)
    {
      Sound(u);
      if u.next == null { return; }
      if list.num == 1 { waiterMutex := null; }
      list.Unlink(u, list.q, Position(list.q, u));
    }
  }
}
