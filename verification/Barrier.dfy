/** The barrier: its locked sections on the waiter arrays, and the rounds that they make. */
module Barrier {
  import opened Basics

  // ---- as values ----

  /** `num` waiters make a round; `arrived` are those that have come to the current one. */
  datatype Round<W> = Round(num: nat, arrived: seq<W>)

  /** ABT_barrier_wait under the lock: the last arriver of a round does not wait. */
  function Arrive<W>(r: Round<W>, w: W): Round<W>
  {
    if |r.arrived| + 1 < r.num then r.(arrived := r.arrived + [w]) else r.(arrived := [])
  }

  /** The waiters that an arrival wakes. */
  function Woken<W>(r: Round<W>): seq<W>
  {
    if |r.arrived| + 1 < r.num then [] else r.arrived
  }

  function After<W>(r: Round<W>, ws: seq<W>): Round<W>
  {
    if ws == [] then r else Arrive(After(r, ws[..|ws| - 1]), ws[|ws| - 1])
  }

  lemma ModStep(i: nat, n: nat)
    requires n > 0
    ensures (i + 1) % n == if i % n + 1 == n then 0 else i % n + 1
  {
    var q := i / n;
    assert i == n * q + i % n;
    if i % n + 1 == n {
      assert i + 1 == n * (q + 1);
      DivMod(n, q + 1, 0);
    } else {
      DivMod(n, q, i % n + 1);
    }
  }

  lemma {:induction false} AfterOne<W>(r: Round<W>, ws: seq<W>, w: W)
    ensures After(r, ws + [w]) == Arrive(After(r, ws), w)
  {
    assert (ws + [w])[..|ws|] == ws;
  }

  /** The last `k` arrivals wait, and one more comes. */
  lemma {:induction false} OneArrival<W>(num: nat, ws: seq<W>, w: W, k: nat)
    requires k < num && k <= |ws|
    ensures Arrive(Round(num, ws[|ws| - k..]), w)
            == Round(num, if k + 1 == num then [] else (ws + [w])[|ws| - k..])
  {
    assert (ws + [w])[|ws| - k..] == ws[|ws| - k..] + [w];
  }

  /** `k` have arrived since the last round was complete. */
  lemma {:induction false} Since<W>(num: nat, ws: seq<W>, k: nat)
    requires num > 0 && k == |ws| % num && k <= |ws|
    ensures After(Round(num, []), ws) == Round(num, ws[|ws| - k..])
  {
    hide After, Arrive;
    if ws == [] {
      AfterNone(Round(num, []), ws);
    } else {
      var n := |ws| - 1;
      var p, w, j := ws[..n], ws[n], n % num;
      ModStep(n, num);
      ModAtMost(n, num);
      Since(num, p, j);
      AfterOne(Round(num, []), p, w);
      OneArrival(num, p, w, j);
      assert ws == p + [w];
    }
  }

  lemma ModAtMost(i: nat, n: nat)
    requires n > 0
    ensures i % n <= i && i % n < n
  {
    if i < n { DivMod(n, 0, i); }
  }

  /** The arrivals fall into rounds of `num`, in their order: before the i-th arrival (counted from 0)
      those since the last multiple of `num` wait.  So nobody is woken before `num` have arrived in his
      round; the arrival that completes a round wakes each of the other num - 1, once and in order; and
      one who comes again at once belongs to the next round. */
  lemma {:induction false} ArrivalsFallIntoRounds<W>(num: nat, ws: seq<W>)
    requires num > 0
    ensures var r := After(Round(num, []), ws); var k := |ws| % num;
            && r.num == num && k <= |ws| && r.arrived == ws[|ws| - k..]
            && Woken(r) == if k + 1 < num then [] else ws[|ws| - k..]
  {
    hide After;
    ModAtMost(|ws|, num);
    Since(num, ws, |ws| % num);
  }

  lemma {:induction false} AfterNone<W>(r: Round<W>, ws: seq<W>)
    requires ws == []
    ensures After(r, ws) == r
  {
  }

  /** Arrivals between two reinitializations. */
  datatype Phase<W> = Phase(num: nat, ws: seq<W>)

  /** Reinitialization is legal only between rounds. */
  predicate Complete<W>(p: Phase<W>)
  {
    p.num > 0 && |p.ws| % p.num == 0
  }

  function Reinit<W>(r: Round<W>, num: nat): Round<W>
  {
    r.(num := num)
  }

  function AfterPhases<W>(r: Round<W>, ps: seq<Phase<W>>): Round<W>
    decreases |ps|
  {
    if ps == [] then r else AfterPhases(After(Reinit(r, ps[0].num), ps[0].ws), ps[1..])
  }

  /** Over any number of reuses and reinitializations every phase starts with an empty barrier, so its
      arrivals fall into rounds of its own number of waiters. */
  lemma {:induction false} EveryPhaseStartsAfresh<W>(num: nat, ps: seq<Phase<W>>)
    requires forall i :: 0 <= i < |ps| ==> Complete(ps[i])
    ensures AfterPhases(Round(num, []), ps).arrived == []
    decreases |ps|
  {
    if ps != [] {
      ArrivalsFallIntoRounds(ps[0].num, ps[0].ws);
      EveryPhaseStartsAfresh(ps[0].num, ps[1..]);
    }
  }

  /** After any complete phases and a reinitialization for `n` waiters, of the arrivals `ws` the last
      |ws| % n wait; the next one wakes them all exactly when it makes the number of arrivals a multiple of
      `n`, and waits behind them otherwise. */
  lemma RoundsAfterReinit<W>(num: nat, ps: seq<Phase<W>>, n: nat, ws: seq<W>, w: W)
    requires n > 0 && forall i :: 0 <= i < |ps| ==> Complete(ps[i])
    ensures var r := After(Reinit(AfterPhases(Round(num, []), ps), n), ws);
            var k := |ws| % n;
            && k <= |ws| && r.num == n && r.arrived == ws[|ws| - k..]
            && if (|ws| + 1) % n == 0 then Woken(r) == ws[|ws| - k..] && Arrive(r, w) == Round(n, [])
               else Woken(r) == [] && Arrive(r, w) == Round(n, ws[|ws| - k..] + [w])
  {
    hide After, AfterPhases, Complete, Arrive, Woken;
    EveryPhaseStartsAfresh(num, ps);
    var r := After(Round(n, []), ws);
    var k := Waiting(r, n, ws);
    OneMore(r, w);
  }

  /** How many wait, without the modulus. */
  lemma Waiting<W>(r: Round<W>, n: nat, ws: seq<W>) returns (k: nat)
    requires n > 0 && r == After(Round(n, []), ws)
    ensures k == |ws| % n && k < n && k <= |ws| && r == Round(n, ws[|ws| - k..])
    ensures (|ws| + 1) % n == 0 <==> k + 1 == n
  {
    hide After, Woken;
    k := |ws| % n;
    ArrivalsFallIntoRounds(n, ws);
    LastOfRound(|ws|, n);
  }

  lemma LastOfRound(i: nat, n: nat)
    requires n > 0
    ensures i % n < n && ((i + 1) % n == 0 <==> i % n + 1 == n)
  {
    ModAtMost(i, n);
    ModStep(i, n);
  }

  lemma OneMore<W>(r: Round<W>, w: W)
    requires |r.arrived| < r.num
    ensures if |r.arrived| + 1 == r.num then Woken(r) == r.arrived && Arrive(r, w) == Round(r.num, [])
            else Woken(r) == [] && Arrive(r, w) == Round(r.num, r.arrived + [w])
  {
  }

  // ---- on the heap ----

  /** A caller: a ULT, an external thread, or something else that runs on an ES. */
  datatype Kind = Thread | External | NotUlt

  datatype Outcome = Blocks | Passes | ErrBarrier

  class Waiter {
    const kind: Kind
    ghost var wakes: nat

    constructor (kind: Kind)
      ensures this.kind == kind && wakes == 0
    {
      this.kind, wakes := kind, 0;
    }
  }

  class Object {
    var num: nat
    var counter: nat
    var locked: bool
    var waiters: array<Waiter?>
    var kinds: array<Kind>
    ghost var arrived: seq<Waiter>

    ghost predicate Valid()
      reads this, waiters, kinds
    {
      && !locked && num <= waiters.Length == kinds.Length
      && counter == |arrived| && (num > 0 ==> counter < num) && (num == 0 ==> counter == 0)
      && Distinct(arrived)
      && (forall i :: 0 <= i < counter ==> waiters[i] == arrived[i] && kinds[i] == arrived[i].kind)
    }

    ghost function View(): Round<Waiter>
      reads this
    {
      Round(num, arrived)
    }

    /** ABT_barrier_create */
    constructor (num: nat)
      ensures Valid() && View() == Round(num, []) && fresh(waiters) && fresh(kinds)
    {
      this.num, counter, locked, arrived := num, 0, false, [];
      waiters := new Waiter?[num](i => null);
      kinds := new Kind[num](i => Thread);
    }

    /** ABT_barrier_reinit, between rounds: the arrays are kept when they are long enough for sure. */
    method Resize(n: nat)
      requires Valid() && counter == 0
      modifies this
      ensures Valid() && num == n && arrived == [] && View() == Reinit(old(View()), n)
      ensures n > old(num) ==> fresh(waiters) && fresh(kinds)
      ensures n <= old(num) ==> waiters == old(waiters) && kinds == old(kinds)
    {
      if n < num {
        num := n;
      } else if n > num {
        num := n;
        waiters := new Waiter?[n](i => null);
        kinds := new Kind[n](i => Thread);
      }
    }

    /** ABT_barrier_wait up to the release of the lock.  A caller that would have to wait but is not a
        ULT is refused, and leaves the barrier locked, with an arrival counted that nobody waits for: of
        no use to anybody any more. */
    method Wait(w: Waiter) returns (r: Outcome)
      requires Valid() && num > 0 && w !in arrived
      modifies this, waiters, kinds, arrived`wakes
      ensures r == ErrBarrier <==> w.kind == NotUlt && |old(arrived)| + 1 < num
      ensures Valid() <==> r != ErrBarrier
      ensures r == Passes <==> |old(arrived)| + 1 == num
      ensures num == old(num) && waiters == old(waiters) && kinds == old(kinds)
      ensures r == Blocks ==> arrived == old(arrived) + [w] && forall u :: u in old(arrived) ==> u.wakes == old(u.wakes)
      ensures r == Passes ==> arrived == [] && forall u :: u in old(arrived) ==> u.wakes == old(u.wakes) + 1
      ensures r != ErrBarrier ==> View() == Arrive(old(View()), w)
      ensures r == ErrBarrier ==> locked && counter == old(counter) + 1 && View() == old(View())
      ensures forall u :: u in old(arrived) ==>
                u.wakes == old(u.wakes) + if r == Passes && u in Woken(old(View())) then 1 else 0
      ensures w.wakes == old(w.wakes)
    {
      locked := true;
      var pos := counter;
      counter := counter + 1;
      if counter < num {
        if w.kind == NotUlt { return ErrBarrier; }
        waiters[pos], kinds[pos] := w, w.kind;
        arrived := arrived + [w];
        r := Blocks;
      } else {
        WakeAll();
        counter := 0;
        arrived := [];
        r := Passes;
      }
      locked := false;
    }

    /** The wake loop of the last arriver. */
    method WakeAll()
      requires num > 0 && |arrived| == num - 1 && num <= waiters.Length && Distinct(arrived)
      requires forall i :: 0 <= i < num - 1 ==> waiters[i] == arrived[i]
      modifies waiters, arrived`wakes
      ensures forall i :: 0 <= i < num - 1 ==> arrived[i].wakes == old(arrived[i].wakes) + 1 && waiters[i] == null
    {
      for i := 0 to num - 1
        invariant forall j :: 0 <= j < i ==> arrived[j].wakes == old(arrived[j].wakes) + 1 && waiters[j] == null
        invariant forall j :: i <= j < num - 1 ==> arrived[j].wakes == old(arrived[j].wakes) && waiters[j] == arrived[j]
      {
        var u: Waiter := waiters[i];
        u.wakes := u.wakes + 1;
        waiters[i] := null;
      }
    }
  }
}
