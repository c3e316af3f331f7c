/** The waiter table on the heap: rows of singly linked ULTs, and the circular doubly linked lists
    of the rows that have waiters.  A row's high and low halves have the same fields and the same
    code, so one half is one `Half` and the table has one `TableSide` for each. */
module WaitTable {
  import opened Basics
  import opened WaitRows

  class Ult {
    var next: Ult?
    ghost var queuedIn: Half?

    constructor ()
      ensures next == null && queuedIn == null
    {
      next, queuedIn := null, null;
    }
  }

  class Half {
    var head: Ult?
    var tail: Ult?
    var num: nat
    var next: Half?
    var prev: Half?

    constructor ()
      ensures head == null && tail == null && num == 0 && next == null && prev == null
    {
      head, tail, num, next, prev := null, null, 0, null, null;
    }
  }

  class TableSide {
    const rows: seq<Half>
    var list: Half?
    ghost var queues: seq<seq<Ult>>
    ghost var order: seq<nat>          // the indices of the rows in the list, from its head
    ghost var ring: seq<Half>          // the rows themselves
    ghost var ults: set<Ult>           // every ULT that is queued
    ghost var Repr: set<object>

    ghost predicate RowOk(r: nat)
      requires r < |rows| == |queues|
      reads this`queues, this`ults, rows`head, rows`tail, rows`num, ults
    {
      var q := queues[r];
      && rows[r].num == |q|
      && (q == [] ==> rows[r].head == null && rows[r].tail == null)
      && (q != [] ==> rows[r].head == q[0] && rows[r].tail == q[|q| - 1])
      && (forall i :: 0 <= i < |q| ==> q[i] in ults && q[i].queuedIn == rows[r])
      && (forall i :: 0 <= i < |q| - 1 ==> q[i].next == q[i + 1])
      && Distinct(q)
    }

    ghost predicate QueuesOk()
      reads this`queues, this`ults, rows`head, rows`tail, rows`num, ults
    {
      && Distinct(rows) && |queues| == |rows|
      && (forall r :: 0 <= r < |rows| ==> RowOk(r))
    }

    /** `ring` is the circular list behind `list`; the other rows have no links. */
    ghost predicate RingOk()
      reads this`list, this`ring, rows`next, rows`prev
    {
      var n := |ring|;
      && Distinct(ring) && (forall k :: 0 <= k < n ==> ring[k] in rows)
      && (n == 0 ==> list == null)
      && (n > 0 ==> list == ring[0] && ring[n - 1].next == ring[0] && ring[0].prev == ring[n - 1])
      && (forall k :: 0 <= k < n - 1 ==> ring[k].next == ring[k + 1])
      && (forall k :: 0 < k < n ==> ring[k].prev == ring[k - 1])
      && (forall x :: x in rows && x !in ring ==> x.next == null && x.prev == null)
    }

    ghost predicate OrderOk()
      reads this`ring, this`order, this`queues
    {
      && Distinct(rows) && |order| == |ring| && ListInv(order, queues) && |queues| == |rows|
      && (forall k :: 0 <= k < |ring| ==> ring[k] == rows[order[k]])
    }

    ghost predicate Ok()
      reads this`list, this`queues, this`order, this`ring, this`ults, rows, ults
    {
      QueuesOk() && RingOk() && OrderOk()
    }

    ghost predicate Valid()
      reads this, Repr
    {
      && this in Repr && (forall x :: x in rows ==> x in Repr) && (forall u :: u in ults ==> u in Repr)
      && Ok()
    }

    constructor (n: nat)
      ensures Valid() && fresh(Repr) && |rows| == n && ults == {}
      ensures order == []
      ensures queues == seq(n, i => [])
    {
      var rs: seq<Half> := [];
      ghost var repr: set<object> := {};
      for i := 0 to n
        invariant |rs| == i && Distinct(rs) && fresh(rs) && fresh(repr) && forall k :: 0 <= k < i ==> rs[k] in repr
        invariant forall k :: 0 <= k < i ==>
                  rs[k].head == null && rs[k].tail == null && rs[k].num == 0 && rs[k].next == null && rs[k].prev == null
      {
        var row := new Half();
        rs := rs + [row];
        repr := repr + {row};
      }
      rows := rs;
      list, order, ring, ults, queues := null, [], [], {}, seq(n, i => []);
      Repr := repr + {this};
    }

    /** A row is in the list exactly when its links are set. */
    lemma InOrder(r: nat)
      requires RingOk() && OrderOk() && r < |rows|
      ensures r in order <==> rows[r].next != null
      ensures rows[r] in ring <==> rows[r].next != null
    {
      if rows[r] in ring {
        var k :| 0 <= k < |ring| && ring[k] == rows[r];
        assert ring[k].next == if k < |ring| - 1 then ring[k + 1] else ring[0];
        assert order[k] == r;
      }
      if r in order {
        var k :| 0 <= k < |order| && order[k] == r;
        assert ring[k] == rows[r];
      }
    }

    /** add_h_node / add_l_node: a row that is not linked goes to the end of the ring. */
    method Link(r: nat)
      requires Ok() && r < |rows|
      modifies this`list, this`order, this`ring, rows`next, rows`prev
      ensures Ok() && order == Linked(old(order), r)
    {
      hide QueuesOk, RowOk, ListInv, Distinct;
      InOrder(r);
      LinkedInv(order, queues, r);
      var node := rows[r];
      if node.next == null {
        AddNode(node);
        order := order + [r];
      }
    }

    method AddNode(node: Half)
      requires RingOk() && node in rows && node.next == null && node !in ring
      modifies this`list, this`ring, rows`next, rows`prev
      ensures RingOk() && ring == old(ring) + [node]
    {
      hide QueuesOk, OrderOk;
      if list == null {
        node.next, node.prev := node, node;
        list := node;
      } else {
        var curr := list;
        assert curr.prev == ring[|ring| - 1];
        node.next := curr;
        node.prev := curr.prev;
        curr.prev.next := node;
        curr.prev := node;
      }
      ring := ring + [node];
    }

    /** del_h_head / del_l_head on the ring. */
    method DelNode()
      requires RingOk() && ring != []
      modifies this`list, this`ring, rows`next, rows`prev
      ensures RingOk() && ring == old(ring)[1..]
    {
      var node := list;
      assert |ring| > 1 ==> ring[0].next == ring[1] && ring[1] != ring[0];
      if node == node.next {
        node.next, node.prev := null, null;
        list := null;
      } else {
        var prev, next := node.prev, node.next;
        prev.next := next;
        next.prev := prev;
        node.next, node.prev := null, null;
        list := next;
      }
      ring := ring[1..];
    }

    method DelHead()
      requires Ok() && order != [] && queues[order[0]] == []
      modifies this`list, this`order, this`ring, rows`next, rows`prev
      ensures Ok() && order == old(order)[1..]
    {
      AfterPopInv(order, queues);
      DelNode();
      order := order[1..];
    }

    /** h_list = p_curr->p_h_next: the head row becomes the last. */
    method RotateNode()
      requires RingOk() && ring != []
      modifies this`list, this`ring
      ensures RingOk() && ring == old(ring)[1..] + [old(ring)[0]]
    {
      assert |ring| > 1 ==> ring[0].next == ring[1];
      list := list.next;
      ring := ring[1..] + [ring[0]];
    }

    method Rotate()
      requires Ok() && order != [] && queues[order[0]] != []
      modifies this`list, this`order, this`ring
      ensures Ok() && order == old(order)[1..] + [old(order)[0]]
    {
      hide QueuesOk, RingOk, ListInv;
      AfterPopInv(order, queues);
      RotateNode();
      order := order[1..] + [order[0]];
    }

    /** htable_push / htable_push_low: to the tail of a row that is linked already. */
    method Push(r: nat, u: Ult)
      requires Ok() && r < |rows| && r in order && u !in ults
      modifies this`queues, this`ults, rows`head, rows`tail, rows`num, ults`next, u`next, u`queuedIn
      ensures Ok() && queues == old(queues)[r := old(queues)[r] + [u]] && ults == old(ults) + {u}
    {
      ShrunkInv(order, queues, r, queues[r] + [u]);
      PushTail(r, u);
    }

    method PushTail(r: nat, u: Ult)
      requires QueuesOk() && r < |rows| && u !in ults
      modifies this`queues, this`ults, rows`head, rows`tail, rows`num, ults`next, u`next, u`queuedIn
      ensures QueuesOk() && queues == old(queues)[r := old(queues)[r] + [u]] && ults == old(ults) + {u}
    {
      var row := rows[r];
      assert RowOk(r);
      if row.head == null {
        row.head, row.tail := u, u;
      } else {
        row.tail.next := u;
        row.tail := u;
      }
      row.num := row.num + 1;
      u.queuedIn := row;
      ults := ults + {u};
      queues := queues[r := queues[r] + [u]];
      forall k | 0 <= k < |rows| ensures RowOk(k) {
        assert old(RowOk(k));
        if k != r { assert rows[k] != row; }
      }
    }

    /** htable_pop / htable_pop_low. */
    method Pop(row: Half, ghost r: nat) returns (u: Ult?)
      requires QueuesOk() && r < |rows| && row == rows[r]
      modifies this`queues, this`ults, rows`head, rows`tail, rows`num, ults`queuedIn
      ensures QueuesOk()
      ensures old(queues)[r] == [] ==> u == null && queues == old(queues) && ults == old(ults)
      ensures old(queues)[r] != [] ==>
                u == old(queues)[r][0] && queues == old(queues)[r := old(queues)[r][1..]] && ults == old(ults) - {u}
      ensures queues == Handed(Side(old(queues), old(order)), r).rows
    {
      u := null;
      assert RowOk(r);
      if row.head != null {
        u := row.head;
        if row.head == row.tail {
          row.head, row.tail := null, null;
        } else {
          row.head := u.next;
        }
        row.num := row.num - 1;
        u.queuedIn := null;
        ults := ults - {u};
        queues := queues[r := queues[r][1..]];
      }
      forall k | 0 <= k < |rows| ensures RowOk(k) {
        assert old(RowOk(k));
        if k != r { assert rows[k] != row; }
      }
    }

    /** The queue part of htable_switch_low: the caller takes the place behind the tail, the head
        leaves; an empty row stays empty. */
    method SwitchHead(row: Half, ghost r: nat, u: Ult) returns (x: Ult?)
      requires Ok() && r < |rows| && row == rows[r] && u !in ults
      modifies this`queues, this`ults, rows`head, rows`tail, ults`next, ults`queuedIn, u`next, u`queuedIn
      ensures Ok()
      ensures old(queues)[r] == [] ==> x == null && queues == old(queues) && ults == old(ults)
      ensures old(queues)[r] != [] ==> x == old(queues)[r][0] && queues == old(queues)[r := old(queues)[r][1..] + [u]]
      ensures old(queues)[r] != [] ==> ults == old(ults) - {x} + {u}
      ensures View() == Switched(old(View()), r, u)
    {
      hide RingOk, Distinct, Linked, AfterPop, Skipped, Total;
      x := null;
      assert RowOk(r);
      if row.head != null {
        x := SwitchBusy(row, r, u);
      }
    }

    method SwitchBusy(row: Half, ghost r: nat, u: Ult) returns (x: Ult)
      requires QueuesOk() && r < |rows| && row == rows[r] && u !in ults && queues[r] != []
      modifies this`queues, this`ults, rows`head, rows`tail, ults`next, ults`queuedIn, u`next, u`queuedIn
      ensures QueuesOk() && old(|queues[r]|) > 0
      ensures x == old(queues[r][0]) && queues == old(queues)[r := old(queues)[r][1..] + [u]]
      ensures ults == old(ults) - {x} + {u}
    {
      assert RowOk(r);
      x := row.head;
      if row.head == row.tail {
        row.head, row.tail := u, u;
      } else {
        row.head := x.next;
        row.tail.next := u;
        row.tail := u;
      }
      x.queuedIn := null;
      u.queuedIn := row;
      ults := ults - {x} + {u};
      queues := queues[r := queues[r][1..] + [u]];
      forall k | 0 <= k < |rows| ensures RowOk(k) {
        assert old(RowOk(k));
        if k != r { assert rows[k] != row; }
      }
    }

    ghost function View(): Side<Ult>
      reads this`queues, this`order
    {
      Side(queues, order)
    }

    lemma ViewInv()
      requires Valid()
      ensures SideInv(View())
    {
    }

    /** The queue part of wait and wait_low: link the row of the caller's ES, then push. */
    method Enqueue(r: nat, u: Ult)
      requires Valid() && r < |rows| && u !in Repr
      modifies Repr, u
      ensures Valid() && Repr == old(Repr) + {u}
      ensures SideInv(old(View())) && View() == Arrive(old(View()), r, u)
      ensures Total(queues) == Total(old(queues)) + 1
    {
      hide Total, QueuesOk, RingOk, ListInv, Linked;
      TotalUpdate(queues, r, queues[r] + [u]);
      LinkedInv(order, queues, r);
      Link(r);
      Push(r, u);
      Repr := Repr + {u};
    }

    /** One iteration of the scan: pop from the head row, then unlink it or move it to the end. */
    method TryHead(row: Half) returns (u: Ult?)
      requires Ok() && order != [] && row == list
      modifies this`list, this`order, this`ring, this`queues, this`ults, rows, ults
      ensures Ok() && old(|order|) > 0
      ensures u == null ==>
                old(queues[order[0]]) == [] && queues == old(queues) && ults == old(ults) && order == old(order)[1..]
      ensures u == null ==> list != old(list) && old(list) !in ring
      ensures u != null ==> var q := old(queues[order[0]]);
                && q != [] && u == q[0] && ults == old(ults) - {u}
                && queues == old(queues[order[0] := q[1..]]) && order == AfterPop(old(order), q[1..])
    {
      ghost var r := order[0];
      ghost var q := queues[r];
      assert ring[0] == rows[r];
      u := Pop(row, r);
      if q != [] { ShrunkInv(order, old(queues), r, q[1..]); }
      assert RowOk(r);
      if row.num == 0 {
        DelHead();
      } else {
        Rotate();
      }
    }

    /** The scan of one list in wake_de: pops the first waiter, unlinking the empty rows before it. */
    method Scan() returns (u: Ult?)
      requires Ok()
      modifies this`list, this`order, this`ring, this`queues, this`ults, rows, ults
      ensures Ok() && ListInv(old(order), old(queues))
      ensures var rest := Skipped(old(order), old(queues));
              if rest == [] then u == null && queues == old(queues) && ults == old(ults) && order == []
              else var q := old(queues)[rest[0]];
                   && q != [] && u == q[0] && ults == old(ults) - {u}
                   && queues == old(queues)[rest[0] := q[1..]] && order == AfterPop(rest, q[1..])
    {
      hide QueuesOk, Total, Distinct;
      ghost var rest := Skipped(order, queues);
      SkippedInv(order, queues);
      u := null;
      var start := list;
      var curr := start;
      while curr != null
        invariant Ok() && curr == list && queues == old(queues) && ults == old(ults)
        invariant u == null && Skipped(order, queues) == rest
        invariant list == start || start !in ring
        decreases |order|
      {
        u := TryHead(curr);
        if u != null { return; }
        curr := list;
        if curr == start { break; }
      }
    }

    /** The scan as one wake-up of the side. */
    method Wakeup() returns (u: Ult?)
      requires Valid()
      modifies Repr
      ensures Valid() && Repr == old(Repr)
      ensures SideInv(old(View())) && View() == Wake(old(View()))
      ensures Total(queues) == if Total(old(queues)) == 0 then 0 else Total(old(queues)) - 1
      ensures u == null <==> Total(old(queues)) == 0
      ensures u != null ==> u == NextOne(old(View()))
    {
      hide Wake, NextOne, SideInv, Total, Skipped, ListInv, Ok;
      ViewInv();
      ghost var v := View();
      u := Scan();
      ScanIsWake(v);
    }
  }

  /** Both sides, and the number of waiters in all of them. */
  class WaiterTable {
    const high: TableSide
    const low: TableSide
    var numElems: int

    ghost predicate Valid()
      reads this, high, low, high.Repr, low.Repr
    {
      && this !in high.Repr + low.Repr && high.Repr !! low.Repr
      && high.Valid() && low.Valid()
      && numElems == Total(high.queues) + Total(low.queues)
    }

    constructor (numRows: nat)
      ensures Valid() && fresh(this) && fresh(high.Repr) && fresh(low.Repr)
      ensures numElems == 0 && high.ults == {} && low.ults == {} && |high.rows| == |low.rows| == numRows
    {
      hide Total, TableSide.Ok;
      high := new TableSide(numRows);
      low := new TableSide(numRows);
      numElems := 0;
      new;
      TotalZero(high.queues);
      TotalZero(low.queues);
    }

    /** The queue part of wait. */
    method EnqueueHigh(rank: nat, u: Ult)
      requires Valid() && rank < |high.rows| && u !in high.Repr + low.Repr
      modifies this, high.Repr, u
      ensures Valid()
      ensures SideInv(old(high.View())) && high.View() == Arrive(old(high.View()), rank, u)
      ensures low.View() == old(low.View())
    {
      hide SideInv, Total, Arrive, TableSide.Ok;
      high.ViewInv();
      high.Enqueue(rank, u);
      numElems := numElems + 1;
    }

    /** The queue part of wait_low. */
    method EnqueueLow(rank: nat, u: Ult)
      requires Valid() && rank < |low.rows| && u !in high.Repr + low.Repr
      modifies this, low.Repr, u
      ensures Valid()
      ensures SideInv(old(low.View())) && low.View() == Arrive(old(low.View()), rank, u)
      ensures high.View() == old(high.View())
    {
      hide SideInv, Total, Arrive, TableSide.Ok;
      low.ViewInv();
      low.Enqueue(rank, u);
      numElems := numElems + 1;
    }

    /** One iteration of wake_de, when somebody waits. */
    method WakeNext() returns (u: Ult)
      requires Valid() && numElems > 0
      modifies this, high.Repr, low.Repr
      ensures Valid() && SideInv(old(high.View())) && SideInv(old(low.View()))
      ensures high.View() == Wake(old(high.View())) && low.View() == LowAfter(old(high.View()), old(low.View()))
      ensures u == if Total(old(high.queues)) > 0 then NextOne(old(high.View())) else NextOne(old(low.View()))
      ensures high.Repr == old(high.Repr) && low.Repr == old(low.Repr)
      ensures numElems == old(numElems) - 1
    {
      hide Wake, NextOne, SideInv, Total, Skipped, TableSide.Ok;
      assert SideInv(high.View()) && SideInv(low.View()) by { high.ViewInv(); low.ViewInv(); }
      var x := high.Wakeup();
      if x == null {
        x := low.Wakeup();
      }
      numElems := numElems - 1;
      u := x;
    }

    /** wake_de run without interference: `n` wake-ups at most. */
    method WakeDe(n: nat) returns (woken: seq<Ult>)
      requires Valid()
      modifies this, high.Repr, low.Repr
      ensures Valid() && SideInv(old(high.View())) && SideInv(old(low.View()))
      ensures WakePass(old(high.View()), old(low.View()), n) == Pass(high.View(), low.View(), woken)
    {
      hide WakePass, Wake, LowAfter, NextOne, SideInv, Total, Skipped, TableSide.Ok;
      ghost var h, l := high.View(), low.View();
      high.ViewInv();
      low.ViewInv();
      woken := [];
      var i := 0;
      while i < n
        invariant 0 <= i <= n && Valid() && SideInv(high.View()) && SideInv(low.View())
        invariant high.Repr == old(high.Repr) && low.Repr == old(low.Repr)
        invariant var rest := WakePass(high.View(), low.View(), n - i);
                  WakePass(h, l, n) == Pass(rest.h, rest.l, woken + rest.woken)
      {
        if numElems == 0 { break; }
        ghost var h0, l0 := high.View(), low.View();
        ghost var rest := WakePass(h0, l0, n - i);
        var u := WakeNext();
        high.ViewInv();
        low.ViewInv();
        PassStep(h0, l0, high.View(), low.View(), u, n - i);
        ghost var later := WakePass(high.View(), low.View(), n - i - 1).woken;
        assert woken + ([u] + later) == woken + [u] + later;
        woken := woken + [u];
        i := i + 1;
      }
      NothingLeft(high.View(), low.View(), n - i);
    }
  }
}
