/** The readers-writer lock, as a state machine over any number of ULTs: its mutex, its condition
    variable and its two fields.  One step is one operation on the mutex or the condition variable,
    or the work under the mutex between two of them. */
module RwLock {
  import opened Basics
  import opened Counting

  type Tid = nat

  datatype Mode = Read | Write

  datatype Pc =
    | Outside
    | Acquire(m: Mode)         // rdlock or wrlock
    | Test(m: Mode)            // from here to Leave, and from UnUpdate to UnLeave, with the mutex
    | Enqueue(m: Mode)
    | Release(m: Mode)         // in the queue of the condition variable, mutex not yet released
    | Asleep(m: Mode)
    | Again(m: Mode)           // woken, has to lock the mutex again
    | Grant(m: Mode)
    | Leave(m: Mode)
    | Holds(m: Mode)
    | UnAcquire(m: Mode)       // unlock
    | UnUpdate(m: Mode)
    | UnWake
    | UnLeave

  datatype State = State(pcs: seq<Pc>, mutex: Option<Tid>, writeFlag: bool, readerCount: int, queue: set<Tid>)

  ghost predicate Init(s: State)
  {
    && (forall t :: 0 <= t < |s.pcs| ==> s.pcs[t] == Outside)
    && s.mutex == None && !s.writeFlag && s.readerCount == 0 && s.queue == {}
  }

  function To(s: State, t: Tid, p: Pc): State
    requires t < |s.pcs|
  {
    s.(pcs := s.pcs[t := p])
  }

  predicate Wants(p: Pc)
  {
    p.Acquire? || p.Again? || p.UnAcquire?
  }

  predicate Ready(s: State, t: Tid)
  {
    t < |s.pcs| && !s.pcs[t].Asleep? && (Wants(s.pcs[t]) ==> s.mutex == None)
  }

  /** Every queued ULT goes on to lock the mutex again. */
  function Awake(s: State): seq<Pc>
  {
    seq(|s.pcs|, t requires 0 <= t < |s.pcs| =>
      if t in s.queue && s.pcs[t].Asleep? then Again(s.pcs[t].m) else s.pcs[t])
  }

  /** What the test of the wait loop sees. */
  predicate MustWait(s: State, m: Mode)
  {
    s.writeFlag || (m == Write && s.readerCount != 0)
  }

  /** One step; `m` is the mode when a ULT outside calls rdlock or wrlock. */
  function Next(s: State, t: Tid, m: Mode): State
    requires Ready(s, t)
  {
    match s.pcs[t]
    case Outside => To(s, t, Acquire(m))
    case Acquire(k) => To(s, t, Test(k)).(mutex := Some(t))
    case Again(k) => To(s, t, Test(k)).(mutex := Some(t))
    case Test(k) => To(s, t, if MustWait(s, k) then Enqueue(k) else Grant(k))
    case Enqueue(k) => To(s, t, Release(k)).(queue := s.queue + {t})
    case Release(k) => To(s, t, Asleep(k)).(mutex := None)
    case Grant(k) =>
      if k == Read then To(s, t, Leave(k)).(readerCount := s.readerCount + 1)
      else To(s, t, Leave(k)).(writeFlag := true)
    case Leave(k) => To(s, t, Holds(k)).(mutex := None)
    case Holds(k) => To(s, t, UnAcquire(k))
    case UnAcquire(k) => To(s, t, UnUpdate(k)).(mutex := Some(t))
    case UnUpdate(_) =>
      if s.writeFlag then To(s, t, UnWake).(writeFlag := false) else To(s, t, UnWake).(readerCount := s.readerCount - 1)
    case UnWake => To(s.(pcs := Awake(s), queue := {}), t, UnLeave)
    case UnLeave => To(s, t, Outside).(mutex := None)
  }

  ghost predicate Steps(s: State, s': State)
  {
    exists t, m :: Ready(s, t) && s' == Next(s, t, m)
  }

  ghost predicate Run(tr: seq<State>)
  {
    && tr != [] && Init(tr[0])
    && forall i :: 0 <= i < |tr| - 1 ==> Steps(tr[i], tr[i + 1])
  }

  // ---- the invariant ----

  /** The ULT has the lock in this mode, from the moment its field is set to the moment it is reset. */
  predicate Has(p: Pc, m: Mode)
  {
    p == Leave(m) || p == Holds(m) || p == UnAcquire(m) || p == UnUpdate(m)
  }

  predicate InMutex(p: Pc)
  {
    p.Test? || p.Enqueue? || p.Release? || p.Grant? || p.Leave? || p.UnUpdate? || p.UnWake? || p.UnLeave?
  }

  function Readers(pcs: seq<Pc>): seq<bool>
  {
    seq(|pcs|, t requires 0 <= t < |pcs| => Has(pcs[t], Read))
  }

  function Writers(pcs: seq<Pc>): seq<bool>
  {
    seq(|pcs|, t requires 0 <= t < |pcs| => Has(pcs[t], Write))
  }

  ghost predicate MutexInv(s: State)
  {
    && (forall t :: 0 <= t < |s.pcs| ==> (InMutex(s.pcs[t]) <==> s.mutex == Some(t)))
    && (s.mutex.Some? ==> s.mutex.value < |s.pcs|)
  }

  ghost predicate CountInv(s: State)
  {
    && s.readerCount == Count(Readers(s.pcs))
    && Count(Writers(s.pcs)) == One(s.writeFlag)
    && (s.writeFlag ==> s.readerCount == 0)
  }

  predicate PcOk(s: State, t: Tid)
    requires t < |s.pcs|
  {
    match s.pcs[t]
    case Enqueue(m) => MustWait(s, m)
    case Grant(m) => !MustWait(s, m)
    case _ => true
  }

  /** Somebody is about to broadcast. */
  predicate Waking(s: State)
  {
    s.mutex.Some? && s.mutex.value < |s.pcs| && s.pcs[s.mutex.value].UnWake?
  }

  /** A queued ULT waits for something that holds, unless a broadcast is about to wake it. */
  ghost predicate QueueInv(s: State)
  {
    && (forall t: Tid :: t in s.queue <==> t < |s.pcs| && (s.pcs[t].Release? || s.pcs[t].Asleep?))
    && (forall t: Tid :: t in s.queue && t < |s.pcs| && (s.pcs[t].Release? || s.pcs[t].Asleep?) ==>
          MustWait(s, s.pcs[t].m) || Waking(s))
  }

  ghost predicate Inv(s: State)
  {
    MutexInv(s) && CountInv(s) && QueueInv(s) && forall t :: 0 <= t < |s.pcs| ==> PcOk(s, t)
  }

  lemma InitKeeps(s: State)
    requires Init(s)
    ensures Inv(s)
  {
    CountNone(Readers(s.pcs));
    CountNone(Writers(s.pcs));
  }

  lemma HasUpdate(pcs: seq<Pc>, t: Tid, p: Pc)
    requires t < |pcs|
    ensures Count(Readers(pcs[t := p])) == Count(Readers(pcs)) - One(Has(pcs[t], Read)) + One(Has(p, Read))
    ensures Count(Writers(pcs[t := p])) == Count(Writers(pcs)) - One(Has(pcs[t], Write)) + One(Has(p, Write))
  {
    assert Readers(pcs[t := p]) == Readers(pcs)[t := Has(p, Read)];
    CountUpdate(Readers(pcs), t, Has(p, Read));
    assert Writers(pcs[t := p]) == Writers(pcs)[t := Has(p, Write)];
    CountUpdate(Writers(pcs), t, Has(p, Write));
  }

  lemma HasAwake(s: State)
    ensures |Awake(s)| == |s.pcs| && Readers(Awake(s)) == Readers(s.pcs) && Writers(Awake(s)) == Writers(s.pcs)
  {
  }

  lemma AtLeastOne(b: seq<bool>, t: nat)
    requires t < |b| && b[t]
    ensures Count(b) >= 1
  {
    CountNone(b);
  }

  lemma WakeCount(s: State, t: Tid, m: Mode)
    requires CountInv(s) && Ready(s, t) && s.pcs[t].UnWake?
    ensures CountInv(Next(s, t, m))
  {
    hide Readers, Writers, Count, Awake;
    HasAwake(s);
    HasUpdate(Awake(s), t, UnLeave);
    AwakeAt(s, t);
  }

  lemma StepCount(s: State, t: Tid, m: Mode)
    requires CountInv(s) && Ready(s, t) && PcOk(s, t)
    ensures CountInv(Next(s, t, m))
  {
    hide Readers, Writers, Count, Awake;
    var s' := Next(s, t, m);
    if s.pcs[t].UnWake? {
      WakeCount(s, t, m);
    } else {
      HasUpdate(s.pcs, t, s'.pcs[t]);
      assert s'.pcs == s.pcs[t := s'.pcs[t]];
      if s.pcs[t].UnUpdate? { HolderCounts(s, t); }
    }
  }

  lemma AwakeAt(s: State, t: Tid)
    requires t < |s.pcs|
    ensures |Awake(s)| == |s.pcs|
    ensures Awake(s)[t] == if t in s.queue && s.pcs[t].Asleep? then Again(s.pcs[t].m) else s.pcs[t]
  {
  }

  /** A ULT that has the lock is counted. */
  lemma HolderCounts(s: State, t: Tid)
    requires CountInv(s) && t < |s.pcs| && (Has(s.pcs[t], Read) || Has(s.pcs[t], Write))
    ensures Has(s.pcs[t], Write) <==> s.writeFlag
    ensures Has(s.pcs[t], Read) <==> s.readerCount > 0
  {
    if Has(s.pcs[t], Write) { AtLeastOne(Writers(s.pcs), t); } else { AtLeastOne(Readers(s.pcs), t); }
  }

  lemma StepMutex(s: State, t: Tid, m: Mode)
    requires MutexInv(s) && Ready(s, t)
    ensures MutexInv(Next(s, t, m))
  {
  }

  lemma WakeQueue(s: State, t: Tid, m: Mode)
    requires MutexInv(s) && QueueInv(s) && Ready(s, t) && s.pcs[t].UnWake?
    ensures QueueInv(Next(s, t, m))
  {
    hide Awake;
    AwakeAt(s, t);
    var s' := Next(s, t, m);
    forall u: Tid ensures u < |s'.pcs| ==> !s'.pcs[u].Release? && !s'.pcs[u].Asleep? {
      if u < |s.pcs| { AwakeAt(s, u); }
    }
  }

  lemma StepQueue(s: State, t: Tid, m: Mode)
    requires MutexInv(s) && CountInv(s) && QueueInv(s) && Ready(s, t) && PcOk(s, t)
    ensures QueueInv(Next(s, t, m))
  {
    if s.pcs[t].UnWake? { WakeQueue(s, t, m); } else { OtherQueue(s, t, m); }
  }

  lemma OtherQueue(s: State, t: Tid, m: Mode)
    requires MutexInv(s) && CountInv(s) && QueueInv(s) && Ready(s, t) && PcOk(s, t) && !s.pcs[t].UnWake?
    ensures QueueInv(Next(s, t, m))
  {
    hide Awake;
    var s' := Next(s, t, m);
    forall u: Tid | u in s'.queue && u < |s'.pcs| && (s'.pcs[u].Release? || s'.pcs[u].Asleep?)
      ensures MustWait(s', s'.pcs[u].m) || Waking(s')
    {
      assert u == t || u in s.queue;
    }
  }

  lemma StepPc(s: State, t: Tid, m: Mode)
    requires Inv(s) && Ready(s, t)
    ensures forall u :: 0 <= u < |Next(s, t, m).pcs| ==> PcOk(Next(s, t, m), u)
  {
    hide CountInv, QueueInv;
    var s' := Next(s, t, m);
    forall u | 0 <= u < |s'.pcs| ensures PcOk(s', u) {
      AwakeAt(s, u);
      assert PcOk(s, u) && (InMutex(s.pcs[u]) <==> s.mutex == Some(u)) && (InMutex(s.pcs[t]) <==> s.mutex == Some(t));
    }
  }

  lemma StepKeeps(s: State, t: Tid, m: Mode)
    requires Inv(s) && Ready(s, t)
    ensures Inv(Next(s, t, m))
  {
    hide MutexInv, CountInv, QueueInv, Next;
    StepMutex(s, t, m);
    StepCount(s, t, m);
    StepQueue(s, t, m);
    StepPc(s, t, m);
  }

  lemma {:induction false} RunKeeps(tr: seq<State>, i: nat)
    requires Run(tr) && i < |tr|
    ensures Inv(tr[i])
  {
    hide Inv, Next, Ready;
    if i == 0 {
      InitKeeps(tr[0]);
    } else {
      RunKeeps(tr, i - 1);
      assert Steps(tr[i - 1], tr[i - 1 + 1]);
      var t, m :| Ready(tr[i - 1], t) && tr[i] == Next(tr[i - 1], t, m);
      StepKeeps(tr[i - 1], t, m);
    }
  }

  // ---- the promises ----

  /** write_flag is set exactly while one writer has the lock, reader_count is the number of readers
      that have it, and there are never both. */
  lemma ReadersOrOneWriter(tr: seq<State>, i: nat)
    requires Run(tr) && i < |tr|
    ensures tr[i].writeFlag <==> exists t :: 0 <= t < |tr[i].pcs| && Has(tr[i].pcs[t], Write)
    ensures forall t, u ::
              0 <= t < |tr[i].pcs| && 0 <= u < |tr[i].pcs| && Has(tr[i].pcs[t], Write) && Has(tr[i].pcs[u], Write) ==>
                t == u
    ensures tr[i].readerCount == Count(Readers(tr[i].pcs))
    ensures forall t, u :: 0 <= t < |tr[i].pcs| && 0 <= u < |tr[i].pcs| && Has(tr[i].pcs[t], Write) ==>
              !Has(tr[i].pcs[u], Read)
  {
    RunKeeps(tr, i);
    var s := tr[i];
    CountNone(Writers(s.pcs));
    CountNone(Readers(s.pcs));
    if s.writeFlag {
      var t :| 0 <= t < |s.pcs| && Writers(s.pcs)[t];
      assert Has(s.pcs[t], Write);
    }
    forall t | 0 <= t < |s.pcs| && Has(s.pcs[t], Write) ensures s.writeFlag { HolderCounts(s, t); }
    forall t, u | 0 <= t < |s.pcs| && 0 <= u < |s.pcs| && Has(s.pcs[t], Write) && Has(s.pcs[u], Write) ensures t == u {
      OnlyOne(Writers(s.pcs), t, u);
    }
    forall t, u | 0 <= t < |s.pcs| && 0 <= u < |s.pcs| && Has(s.pcs[t], Write) ensures !Has(s.pcs[u], Read) {
      HolderCounts(s, t);
      assert !Readers(s.pcs)[u];
    }
  }

  lemma OnlyOne(b: seq<bool>, t: nat, u: nat)
    requires t < |b| && u < |b| && b[t] && b[u] && Count(b) <= 1
    ensures t == u
  {
    if t != u {
      CountUpdate(b, t, false);
      AtLeastOne(b[t := false], u);
    }
  }

  /** A queued reader waits for a writer, and a queued ULT for somebody who has the lock, unless the
      ULT that has the mutex is about to wake them all: no release leaves a waiter behind. */
  lemma NoReleaseStrandsAWaiter(tr: seq<State>, i: nat, t: Tid)
    requires Run(tr) && i < |tr| && t in tr[i].queue
    ensures t < |tr[i].pcs| && (tr[i].pcs[t].Release? || tr[i].pcs[t].Asleep?)
    ensures Waking(tr[i])
            || exists u :: 0 <= u < |tr[i].pcs|
                           && (Has(tr[i].pcs[u], Write) || (tr[i].pcs[t].m == Write && Has(tr[i].pcs[u], Read)))
    ensures tr[i].pcs[t].m == Read && !Waking(tr[i]) ==> tr[i].writeFlag
  {
    RunKeeps(tr, i);
    var s := tr[i];
    if !Waking(s) {
      CountNone(Writers(s.pcs));
      CountNone(Readers(s.pcs));
      if s.writeFlag {
        var u :| 0 <= u < |s.pcs| && Writers(s.pcs)[u];
        assert Has(s.pcs[u], Write);
      } else {
        var u :| 0 <= u < |s.pcs| && Readers(s.pcs)[u];
        assert Has(s.pcs[u], Read);
      }
    }
  }

  /** While nobody keeps the lock, a ULT inside one of the operations never finds all ULTs stuck. */
  lemma NoDeadlock(tr: seq<State>, i: nat, t: Tid) returns (u: Tid)
    requires Run(tr) && i < |tr| && t < |tr[i].pcs| && !tr[i].pcs[t].Outside?
    requires forall v :: 0 <= v < |tr[i].pcs| ==> !tr[i].pcs[v].Holds?
    ensures Ready(tr[i], u) && !tr[i].pcs[u].Outside?
  {
    RunKeeps(tr, i);
    var s := tr[i];
    if s.mutex.Some? {
      u := s.mutex.value;
    } else if s.pcs[t].Asleep? {
      assert t in s.queue;
      NoReleaseStrandsAWaiter(tr, i, t);
      u :| 0 <= u < |s.pcs| && (Has(s.pcs[u], Write) || Has(s.pcs[u], Read));
    } else {
      u := t;
    }
  }
}
