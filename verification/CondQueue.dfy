/** The waiter queue of a condition variable as a value: what each of its locked sections does, and
    what that amounts to over every interleaving of them. */
module CondQueue {
  import opened Basics

  /** The waiters, longest first, and the mutex they wait with. */
  datatype Cond<W(==), M> = Cond(queue: seq<W>, mutex: Option<M>)

  /** No waiter twice, and a mutex exactly while somebody waits. */
  ghost predicate Ok<W, M>(c: Cond<W, M>)
  {
    && Distinct(c.queue)
    && (c.mutex == None <==> c.queue == [])
  }

  /** wait and timedwait: refused when others wait with another mutex. */
  predicate Accepts<W, M(==)>(c: Cond<W, M>, m: M)
  {
    c.mutex == None || c.mutex == Some(m)
  }

  function Wait<W, M(==)>(c: Cond<W, M>, w: W, m: M): Cond<W, M>
  {
    if Accepts(c, m) then Cond(c.queue + [w], Some(m)) else c
  }

  function Signal<W, M>(c: Cond<W, M>): Cond<W, M>
  {
    if |c.queue| <= 1 then Cond([], None) else Cond(c.queue[1..], c.mutex)
  }

  function Position<W(==)>(q: seq<W>, w: W): nat
    requires w in q
    ensures Position(q, w) < |q| && q[Position(q, w)] == w
  {
    if q[0] == w then 0 else 1 + Position(q[1..], w)
  }

  /** The removal after a timeout; nothing happens to a waiter that has been signalled already. */
  function Remove<W(==), M>(c: Cond<W, M>, w: W): Cond<W, M>
  {
    if w !in c.queue then c
    else if |c.queue| == 1 then Cond([], None)
    else Cond(Without(c.queue, Position(c.queue, w)), c.mutex)
  }

  // ---- runs ----

  /** `Arrive` is the enqueueing of wait or timedwait. */
  datatype Event<W, M> = Arrive(w: W, m: M) | SignalOne | SignalAll | Timeout(w: W)

  function Next<W, M(==)>(c: Cond<W, M>, e: Event<W, M>): Cond<W, M>
  {
    match e
    case Arrive(w, m) => Wait(c, w, m)
    case SignalOne => Signal(c)
    case SignalAll => Cond([], None)
    case Timeout(w) => Remove(c, w)
  }

  /** The waiters that an event wakes, in order. */
  function Woken<W, M>(c: Cond<W, M>, e: Event<W, M>): seq<W>
  {
    match e
    case Arrive(_, _) => []
    case SignalOne => if c.queue == [] then [] else [c.queue[0]]
    case SignalAll => c.queue
    case Timeout(_) => []
  }

  /** The waiter that an event removes because of its timeout. */
  function TimedOut<W(==), M>(c: Cond<W, M>, e: Event<W, M>): seq<W>
  {
    if e.Timeout? && e.w in c.queue then [e.w] else []
  }

  /** The waiter that an event enqueues. */
  function Entered<W, M(==)>(c: Cond<W, M>, e: Event<W, M>): seq<W>
  {
    if e.Arrive? && Accepts(c, e.m) then [e.w] else []
  }

  /** A ULT that waits does not call wait. */
  ghost predicate Legal<W, M>(c: Cond<W, M>, es: seq<Event<W, M>>)
    decreases |es|
  {
    es == [] || ((es[0].Arrive? ==> es[0].w !in c.queue) && Legal(Next(c, es[0]), es[1..]))
  }

  function After<W, M(==)>(c: Cond<W, M>, es: seq<Event<W, M>>): Cond<W, M>
    decreases |es|
  {
    if es == [] then c else After(Next(c, es[0]), es[1..])
  }

  /** How often `w` has been enqueued. */
  function Arrivals<W(==), M(==)>(c: Cond<W, M>, es: seq<Event<W, M>>, w: W): nat
    decreases |es|
  {
    if es == [] then 0 else Times(Entered(c, es[0]), w) + Arrivals(Next(c, es[0]), es[1..], w)
  }

  /** How often `w` has been woken, or has given up. */
  function Departures<W(==), M(==)>(c: Cond<W, M>, es: seq<Event<W, M>>, w: W): nat
    decreases |es|
  {
    if es == [] then 0
    else Times(Woken(c, es[0]), w) + Times(TimedOut(c, es[0]), w) + Departures(Next(c, es[0]), es[1..], w)
  }

  function Times<W(==)>(q: seq<W>, w: W): nat
  {
    if q == [] then 0 else (if q[0] == w then 1 else 0) + Times(q[1..], w)
  }

  lemma {:induction false} TimesInDistinct<W>(q: seq<W>, w: W)
    requires forall i, j :: 0 <= i < j < |q| ==> q[i] != q[j]
    ensures Times(q, w) == if w in q then 1 else 0
  {
    if q != [] {
      TimesInDistinct(q[1..], w);
      assert w in q <==> w == q[0] || w in q[1..];
    }
  }

  lemma NextOk<W, M>(c: Cond<W, M>, e: Event<W, M>)
    requires Ok(c) && (e.Arrive? ==> e.w !in c.queue)
    ensures Ok(Next(c, e))
  {
  }

  /** One event: what comes in and what goes out makes the difference. */
  lemma OneEvent<W, M>(c: Cond<W, M>, e: Event<W, M>, w: W)
    requires Ok(c) && (e.Arrive? ==> e.w !in c.queue)
    ensures Ok(Next(c, e))
    ensures (if w in Next(c, e).queue then 1 else 0) + Times(Woken(c, e), w) + Times(TimedOut(c, e), w)
            == (if w in c.queue then 1 else 0) + Times(Entered(c, e), w)
  {
    NextOk(c, e);
    TimesInDistinct(Woken(c, e), w);
    TimesInDistinct(TimedOut(c, e), w);
    TimesInDistinct(Entered(c, e), w);
    match e
    case Timeout(v) =>
      if v in c.queue {
        var k := Position(c.queue, v);
        assert forall x :: x in c.queue <==> x in c.queue[..k] || x == v || x in c.queue[k + 1..] by {
          assert c.queue == c.queue[..k] + [v] + c.queue[k + 1..];
        }
      }
    case SignalOne => if c.queue != [] { assert c.queue == [c.queue[0]] + c.queue[1..]; }
    case _ =>
  }

  /** Over every interleaving each waiter leaves once for each time it came: by one wake-up or by one
      timeout, or it is still in the queue; and there is a mutex exactly while somebody waits. */
  lemma {:induction false} EachWaiterLeavesOnce<W, M>(c: Cond<W, M>, es: seq<Event<W, M>>, w: W)
    requires Ok(c) && Legal(c, es)
    ensures Ok(After(c, es))
    ensures Departures(c, es, w) + (if w in After(c, es).queue then 1 else 0)
            == Arrivals(c, es, w) + (if w in c.queue then 1 else 0)
    decreases |es|
  {
    if es != [] {
      OneEvent(c, es[0], w);
      EachWaiterLeavesOnce(Next(c, es[0]), es[1..], w);
    }
  }

  /** `v` is ahead of `w` in the queue. */
  ghost predicate Ahead<W, M>(c: Cond<W, M>, v: W, w: W)
  {
    exists i, j :: 0 <= i < j < |c.queue| && c.queue[i] == v && c.queue[j] == w
  }

  /** Whether `w` is woken by one of the events. */
  ghost predicate IsWoken<W, M>(c: Cond<W, M>, es: seq<Event<W, M>>, w: W)
    decreases |es|
  {
    es != [] && (w in Woken(c, es[0]) || IsWoken(Next(c, es[0]), es[1..], w))
  }

  lemma WithoutKeepsOrder<W>(q: seq<W>, k: nat, i: nat, j: nat)
    requires k < |q| && i < j < |q| && i != k && j != k
    ensures exists m, n :: 0 <= m < n < |Without(q, k)| && Without(q, k)[m] == q[i] && Without(q, k)[n] == q[j]
  {
    var m, n := if i < k then i else i - 1, if j < k then j else j - 1;
    assert Without(q, k)[m] == q[i] && Without(q, k)[n] == q[j];
  }

  lemma StaysAhead<W, M>(c: Cond<W, M>, e: Event<W, M>, v: W, w: W)
    requires Ok(c) && (e.Arrive? ==> e.w !in c.queue) && Ahead(c, v, w)
    requires v !in Woken(c, e) && e != Timeout(v) && e != Timeout(w)
    ensures w !in Woken(c, e) && Ahead(Next(c, e), v, w)
  {
    var i, j :| 0 <= i < j < |c.queue| && c.queue[i] == v && c.queue[j] == w;
    var q := Next(c, e).queue;
    match e
    case SignalOne => assert q[i - 1] == v && q[j - 1] == w;
    case Timeout(x) => if x in c.queue { WithoutKeepsOrder(c.queue, Position(c.queue, x), i, j); }
    case Arrive(_, _) => assert q[i] == v && q[j] == w;
    case SignalAll =>
  }

  /** Wake-ups take the longest waiter: whoever is ahead of a waiter that is woken, and does not give
      up, is woken no later. */
  lemma {:induction false} LongestFirst<W, M>(c: Cond<W, M>, es: seq<Event<W, M>>, v: W, w: W)
    requires Ok(c) && Legal(c, es) && Ahead(c, v, w) && IsWoken(c, es, w)
    requires forall i :: 0 <= i < |es| ==> es[i] != Timeout(v) && es[i] != Timeout(w)
    ensures IsWoken(c, es, v)
    decreases |es|
  {
    if v !in Woken(c, es[0]) {
      StaysAhead(c, es[0], v, w);
      NextOk(c, es[0]);
      LongestFirst(Next(c, es[0]), es[1..], v, w);
    }
  }

  // ---- who comes, and who is woken ----

  /** The waiters that the events enqueue, in their order. */
  function Entries<W(==), M(==)>(c: Cond<W, M>, es: seq<Event<W, M>>): seq<W>
    decreases |es|
  {
    if es == [] then [] else Entered(c, es[0]) + Entries(Next(c, es[0]), es[1..])
  }

  /** The waiters that the events wake, in their order. */
  function Wakings<W(==), M(==)>(c: Cond<W, M>, es: seq<Event<W, M>>): seq<W>
    decreases |es|
  {
    if es == [] then [] else Woken(c, es[0]) + Wakings(Next(c, es[0]), es[1..])
  }

  /** First come, first served: while nobody gives up, those that waited already and those that come are,
      in this order, those that are woken and those that wait still. */
  lemma {:induction false} FirstComeFirstServed<W, M>(c: Cond<W, M>, es: seq<Event<W, M>>)
    requires forall i :: 0 <= i < |es| ==> !es[i].Timeout?
    ensures c.queue + Entries(c, es) == Wakings(c, es) + After(c, es).queue
    decreases |es|
  {
    if es != [] {
      var d := Next(c, es[0]);
      FirstComeFirstServed(d, es[1..]);
      calc {
        c.queue + (Entered(c, es[0]) + Entries(d, es[1..]));
        (c.queue + Entered(c, es[0])) + Entries(d, es[1..]);
        { OneInOneOut(c, es[0]); }
        (Woken(c, es[0]) + d.queue) + Entries(d, es[1..]);
        Woken(c, es[0]) + (d.queue + Entries(d, es[1..]));
        Woken(c, es[0]) + (Wakings(d, es[1..]) + After(d, es[1..]).queue);
        (Woken(c, es[0]) + Wakings(d, es[1..])) + After(d, es[1..]).queue;
      }
    }
  }

  lemma OneInOneOut<W, M>(c: Cond<W, M>, e: Event<W, M>)
    requires !e.Timeout?
    ensures c.queue + Entered(c, e) == Woken(c, e) + Next(c, e).queue
  {
  }

  /** The callers of wait and timedwait, in their order. */
  function Comers<W, M>(es: seq<Event<W, M>>): seq<W>
  {
    if es == [] then [] else (if es[0].Arrive? then [es[0].w] else []) + Comers(es[1..])
  }

  /** While all callers name the same mutex, none of them is refused. */
  lemma {:induction false} OneMutexRefusesNobody<W, M>(c: Cond<W, M>, es: seq<Event<W, M>>, m: M)
    requires c.mutex == None || c.mutex == Some(m)
    requires forall i :: 0 <= i < |es| && es[i].Arrive? ==> es[i].m == m
    ensures Entries(c, es) == Comers(es)
    decreases |es|
  {
    if es != [] { OneMutexRefusesNobody(Next(c, es[0]), es[1..], m); }
  }

  /** A caller with another mutex is refused while somebody waits, and only then. */
  lemma RefusedExactlyWhen<W, M>(c: Cond<W, M>, w: W, m: M)
    requires Ok(c) && w !in c.queue
    ensures c.queue != [] && c.mutex != Some(m) ==> Entries(c, [Arrive(w, m)]) == [] && After(c, [Arrive(w, m)]) == c
    ensures c.queue == [] || c.mutex == Some(m) ==>
              && Entries(c, [Arrive(w, m)]) == [w]
              && After(c, [Arrive(w, m)]) == Cond(c.queue + [w], Some(m))
  {
    var e: Event<W, M> := Arrive(w, m);
    assert [e][1..] == [];
  }
}
