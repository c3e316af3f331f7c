/** What each operation of the readers-writer lock does when no other ULT steps in between. */
module RwLockAlone {
  import opened Basics
  import opened RwLock

  /** `n` steps of `t` lead from `s` to `s'`; `m` is the mode if it calls rdlock or wrlock. */
  ghost predicate Leads(s: State, t: Tid, m: Mode, n: nat, s': State)
  {
    if n == 0 then s' == s
    else exists x :: Leads(s, t, m, n - 1, x) && Ready(x, t) && s' == Next(x, t, m)
  }

  lemma First(s: State, t: Tid, m: Mode, s': State)
    requires Ready(s, t) && s' == Next(s, t, m)
    ensures Leads(s, t, m, 1, s')
  {
    assert Leads(s, t, m, 0, s);
  }

  lemma More(s: State, t: Tid, m: Mode, n: nat, x: State, s': State)
    requires Leads(s, t, m, n, x) && Ready(x, t) && s' == Next(x, t, m)
    ensures Leads(s, t, m, n + 1, s')
  {
  }

  /** A new lock, for any number of ULTs. */
  lemma Starts(ults: nat)
    ensures Init(State(seq(ults, i => Outside), None, false, 0, {}))
  {
  }

  /** Behind the lock of the mutex: a reader gets the lock unless a writer has it, a writer unless anybody
      has it; else the caller sleeps in the queue. */
  lemma Tries(s: State, x: State, t: Tid, m: Mode, k: Mode, n: nat)
    requires Leads(s, t, m, n, x) && t < |x.pcs| && x.pcs[t] == Test(k) && x.mutex == Some(t)
    ensures !x.writeFlag && k == Read ==>
              Leads(s, t, m, n + 3, x.(pcs := x.pcs[t := Holds(Read)], mutex := None, readerCount := x.readerCount + 1))
    ensures !x.writeFlag && k == Write && x.readerCount == 0 ==>
              Leads(s, t, m, n + 3, x.(pcs := x.pcs[t := Holds(Write)], mutex := None, writeFlag := true))
    ensures x.writeFlag || (k == Write && x.readerCount != 0) ==>
              Leads(s, t, m, n + 3, x.(pcs := x.pcs[t := Asleep(k)], mutex := None, queue := x.queue + {t}))
  {
    hide Leads, Awake;
    if x.writeFlag || (k == Write && x.readerCount != 0) {
      var x1 := x.(pcs := x.pcs[t := Enqueue(k)]);
      More(s, t, m, n, x, x1);
      var x2 := x.(pcs := x.pcs[t := Release(k)], queue := x.queue + {t});
      More(s, t, m, n + 1, x1, x2);
      More(s, t, m, n + 2, x2, x2.(pcs := x.pcs[t := Asleep(k)], mutex := None));
    } else {
      var x1 := x.(pcs := x.pcs[t := Grant(k)]);
      More(s, t, m, n, x, x1);
      var g := if k == Read then x.(readerCount := x.readerCount + 1) else x.(writeFlag := true);
      var x2 := g.(pcs := x.pcs[t := Leave(k)]);
      More(s, t, m, n + 1, x1, x2);
      More(s, t, m, n + 2, x2, g.(pcs := x.pcs[t := Holds(k)], mutex := None));
    }
  }

  lemma Enters(s: State, t: Tid, m: Mode)
    requires t < |s.pcs| && s.pcs[t] == Outside && s.mutex == None
    ensures Leads(s, t, m, 2, s.(pcs := s.pcs[t := Test(m)], mutex := Some(t)))
  {
    hide Leads, Awake;
    var s1 := s.(pcs := s.pcs[t := Acquire(m)]);
    First(s, t, m, s1);
    More(s, t, m, 1, s1, s.(pcs := s.pcs[t := Test(m)], mutex := Some(t)));
  }

  /** rdlock and wrlock. */
  lemma Locks(s: State, t: Tid, m: Mode)
    requires t < |s.pcs| && s.pcs[t] == Outside && s.mutex == None
    ensures !s.writeFlag && m == Read ==>
              Leads(s, t, m, 5, s.(pcs := s.pcs[t := Holds(Read)], readerCount := s.readerCount + 1))
    ensures !s.writeFlag && m == Write && s.readerCount == 0 ==>
              Leads(s, t, m, 5, s.(pcs := s.pcs[t := Holds(Write)], writeFlag := true))
    ensures s.writeFlag || (m == Write && s.readerCount != 0) ==>
              Leads(s, t, m, 5, s.(pcs := s.pcs[t := Asleep(m)], queue := s.queue + {t}))
  {
    hide Leads, Next;
    Enters(s, t, m);
    var s2 := s.(pcs := s.pcs[t := Test(m)], mutex := Some(t));
    Tries(s, s2, t, m, m, 2);
    assert s2.pcs[t := Holds(m)] == s.pcs[t := Holds(m)] && s2.pcs[t := Asleep(m)] == s.pcs[t := Asleep(m)];
  }

  /** A ULT that was woken tries again in the same way. */
  lemma TriesAgain(s: State, t: Tid, m: Mode, k: Mode)
    requires t < |s.pcs| && s.pcs[t] == Again(k) && s.mutex == None
    ensures !s.writeFlag && k == Read ==>
              Leads(s, t, m, 4, s.(pcs := s.pcs[t := Holds(Read)], readerCount := s.readerCount + 1))
    ensures !s.writeFlag && k == Write && s.readerCount == 0 ==>
              Leads(s, t, m, 4, s.(pcs := s.pcs[t := Holds(Write)], writeFlag := true))
    ensures s.writeFlag || (k == Write && s.readerCount != 0) ==>
              Leads(s, t, m, 4, s.(pcs := s.pcs[t := Asleep(k)], queue := s.queue + {t}))
  {
    hide Leads, Awake;
    var s1 := s.(pcs := s.pcs[t := Test(k)], mutex := Some(t));
    First(s, t, m, s1);
    Tries(s, s1, t, m, k, 1);
    assert s1.pcs[t := Holds(k)] == s.pcs[t := Holds(k)] && s1.pcs[t := Asleep(k)] == s.pcs[t := Asleep(k)];
  }

  lemma Wakes(s: State, x: State, t: Tid, m: Mode, n: nat) returns (s': State)
    requires Leads(s, t, m, n, x) && t < |x.pcs| && x.pcs[t] == UnWake && t !in x.queue
    ensures s' == x.(pcs := s'.pcs, queue := {}, mutex := None) && Leads(s, t, m, n + 2, s')
    ensures |Awake(x)| == |x.pcs| && s'.pcs == Awake(x)[t := Outside]
  {
    hide Leads, Awake;
    AwakeAt(x, t);
    var x1 := x.(pcs := Awake(x)[t := UnLeave], queue := {});
    More(s, t, m, n, x, x1);
    s' := x1.(pcs := Awake(x)[t := Outside], mutex := None);
    More(s, t, m, n + 1, x1, s');
  }

  /** unlock gives back what the caller has, and wakes every ULT that sleeps in the queue. */
  lemma Unlocks(s: State, t: Tid, m: Mode, k: Mode) returns (s': State)
    requires t < |s.pcs| && s.pcs[t] == Holds(k) && s.mutex == None && t !in s.queue
    ensures Leads(s, t, m, 5, s') && |s'.pcs| == |s.pcs| && s'.pcs[t] == Outside && s'.mutex == None && s'.queue == {}
    ensures s.writeFlag ==> !s'.writeFlag && s'.readerCount == s.readerCount
    ensures !s.writeFlag ==> !s'.writeFlag && s'.readerCount == s.readerCount - 1
    ensures forall u :: 0 <= u < |s.pcs| && u != t ==>
              s'.pcs[u] == if u in s.queue && s.pcs[u].Asleep? then Again(s.pcs[u].m) else s.pcs[u]
  {
    hide Leads, Awake;
    var s1 := s.(pcs := s.pcs[t := UnAcquire(k)]);
    First(s, t, m, s1);
    var s2 := s.(pcs := s.pcs[t := UnUpdate(k)], mutex := Some(t));
    More(s, t, m, 1, s1, s2);
    var g := if s.writeFlag then s2.(writeFlag := false) else s2.(readerCount := s.readerCount - 1);
    var s3 := g.(pcs := s.pcs[t := UnWake]);
    More(s, t, m, 2, s2, s3);
    s' := Wakes(s, s3, t, m, 3);
    forall u | 0 <= u < |s.pcs| && u != t
      ensures s'.pcs[u] == if u in s.queue && s.pcs[u].Asleep? then Again(s.pcs[u].m) else s.pcs[u]
    {
      AwakeAt(s3, u);
    }
  }
}
