/** What a joiner and the terminating target do when nothing else happens in between. */
module JoinAlone {
  import opened Basics
  import opened JoinProtocol

  /** `n` steps of ES `e`, all by its own, lead from `s` to `s'`; `c` is what the ULT on it, or its
      scheduler, chooses where there is a choice. */
  ghost predicate Leads(s: State, e: Es, c: Choice, n: nat, s': State)
  {
    if n == 0 then s' == s
    else exists m :: Leads(s, e, c, n - 1, m) && CanStep(m, e, c) && s' == Next(m, e, c)
  }

  lemma First(s: State, e: Es, c: Choice, s': State)
    requires CanStep(s, e, c) && s' == Next(s, e, c)
    ensures Leads(s, e, c, 1, s')
  {
    assert Leads(s, e, c, 0, s);
  }

  lemma More(s: State, e: Es, c: Choice, n: nat, m: State, s': State)
    requires Leads(s, e, c, n, m) && CanStep(m, e, c) && s' == Next(m, e, c)
    ensures Leads(s, e, c, n + 1, s')
  {
  }

  function Together(joiners: nat): (m: multiset<Ult>)
    ensures m[Target] == 1 && forall j: nat :: m[Joiner(j)] == if j < joiners then 1 else 0
  {
    if joiners == 0 then multiset{Target} else Together(joiners - 1) + multiset{Joiner(joiners - 1)}
  }

  /** The start, for any number of ESs and joiners, all in the pool, wherever they ran last. */
  lemma Starts(ess: nat, joiners: nat, last: Es)
    ensures Init(State(seq(ess, i => Scheduling), Together(joiners),
                       seq(joiners, i => JoinerUlt(Outside, Ready, false, last)), TargetUlt(Working, Ready, last), {},
                       None, None, []))
  {
  }

  predicate JoinerOn(s: State, e: Es, j: nat)
  {
    e < |s.cpus| && s.cpus[e] == Runs(Joiner(j)) && j < |s.joiners|
  }

  predicate TargetOn(s: State, e: Es)
  {
    e < |s.cpus| && s.cpus[e] == Runs(Target)
  }

  // ---- the joiner ----

  /** A call of join: it is over at once if the target is TERMINATED already. */
  lemma Calls(s: State, e: Es, j: nat)
    requires JoinerOn(s, e, j) && s.joiners[j].pc == Outside
    ensures s.target.life == Terminated ==>
              && Leads(s, e, CallFlag, 1, s.(joiners := s.joiners[j := s.joiners[j].(pc := Done)]))
              && Leads(s, e, CallPoll, 1, s.(joiners := s.joiners[j := s.joiners[j].(pc := Done)]))
    ensures s.target.life != Terminated ==>
              && Leads(s, e, CallFlag, 1, s.(joiners := s.joiners[j := s.joiners[j].(pc := FetchOr)]))
              && Leads(s, e, CallPoll, 1, s.(joiners := s.joiners[j := s.joiners[j].(pc := Polling)]))
  {
    hide Leads;
    First(s, e, CallFlag, Next(s, e, CallFlag));
    First(s, e, CallPoll, Next(s, e, CallPoll));
  }

  /** The first to set the JOIN bit blocks: it leaves its name in the target's link, and its scheduler
      resets its BLOCK request. */
  lemma FirstBlocks(s: State, e: Es, j: nat)
    requires JoinerOn(s, e, j) && s.joiners[j].pc == FetchOr && JoinBit !in s.request
    ensures Leads(s, e, Continue, 6,
                  s.(joiners := s.joiners[j := s.joiners[j].(pc := Suspended, life := Blocked, block := false)],
                     cpus := s.cpus[e := Scheduling], request := s.request + {JoinBit}, link := Some(j),
                     claim := Some(Joiner(j))))
  {
    hide Leads, EndNext, Dispatch;
    var x := s.joiners[j].(block := true);
    var s1 := s.(joiners := s.joiners[j := s.joiners[j].(pc := SetBlockBit)], request := s.request + {JoinBit},
                 claim := Some(Joiner(j)));
    First(s, e, Continue, s1);
    var s2 := s1.(joiners := s.joiners[j := x.(pc := SetBlocked)]);
    More(s, e, Continue, 1, s1, s2);
    var s3 := s1.(joiners := s.joiners[j := x.(pc := SetLink, life := Blocked)]);
    More(s, e, Continue, 2, s2, s3);
    var s4 := s1.(joiners := s.joiners[j := x.(pc := Suspend, life := Blocked)], link := Some(j));
    More(s, e, Continue, 3, s3, s4);
    SwitchesOut(s, s4, e, j, 4);
    assert s4.joiners[j := s4.joiners[j].(pc := Suspended, block := false)]
           == s.joiners[j := s.joiners[j].(pc := Suspended, life := Blocked, block := false)];
  }

  lemma SwitchesOut(s: State, m: State, e: Es, j: nat, n: nat)
    requires Leads(s, e, Continue, n, m) && JoinerOn(m, e, j) && m.joiners[j].pc == Suspend && m.joiners[j].block
    ensures Leads(s, e, Continue, n + 2,
                  m.(joiners := m.joiners[j := m.joiners[j].(pc := Suspended, block := false)],
                     cpus := m.cpus[e := Scheduling]))
  {
    hide Leads, EndNext, Dispatch;
    var s5 := m.(joiners := m.joiners[j := m.joiners[j].(pc := Suspended)], cpus := m.cpus[e := Stopped(Joiner(j))]);
    More(s, e, Continue, n, m, s5);
    More(s, e, Continue, n + 1, s5, m.(joiners := m.joiners[j := m.joiners[j].(pc := Suspended, block := false)],
                                       cpus := m.cpus[e := Scheduling]));
  }

  /** Whoever finds the JOIN bit set yields, for as long as the target is not TERMINATED. */
  lemma OthersYield(s: State, e: Es, j: nat)
    requires JoinerOn(s, e, j) && s.joiners[j].pc == FetchOr && JoinBit in s.request && !s.joiners[j].block
    ensures s.target.life != Terminated ==>
              Leads(s, e, Continue, 3,
                    s.(joiners := s.joiners[j := s.joiners[j].(pc := Polling, life := Ready)],
                       cpus := s.cpus[e := Scheduling], pool := s.pool + multiset{Joiner(j)}))
    ensures s.target.life == Terminated ==>
              Leads(s, e, Continue, 2, s.(joiners := s.joiners[j := s.joiners[j].(pc := Done)]))
  {
    hide Leads, EndNext, Dispatch;
    var x := s.joiners[j].(pc := Polling);
    var s1 := s.(joiners := s.joiners[j := x]);
    First(s, e, Continue, s1);
    if s.target.life == Terminated {
      More(s, e, Continue, 1, s1, s.(joiners := s.joiners[j := s.joiners[j].(pc := Done)]));
    } else {
      var s2 := s.(joiners := s.joiners[j := x.(life := Ready)], cpus := s.cpus[e := Stopped(Joiner(j))]);
      More(s, e, Continue, 1, s1, s2);
      More(s, e, Continue, 2, s2, s2.(cpus := s.cpus[e := Scheduling], pool := s.pool + multiset{Joiner(j)}));
    }
  }

  /** A joiner that was jumped to is done at once; one that came back through a pool looks whether the
      target is TERMINATED. */
  lemma ComesBack(s: State, e: Es, j: nat)
    requires JoinerOn(s, e, j) && s.joiners[j].pc == Resumed
    ensures s.joiners[j].life == Blocked ==>
              Leads(s, e, Continue, 1, s.(joiners := s.joiners[j := s.joiners[j].(pc := Done, life := Running)]))
    ensures s.joiners[j].life != Blocked && s.target.life == Terminated ==>
              Leads(s, e, Continue, 2, s.(joiners := s.joiners[j := s.joiners[j].(pc := Done)]))
  {
    hide Leads, EndNext, Dispatch;
    if s.joiners[j].life == Blocked {
      First(s, e, Continue, s.(joiners := s.joiners[j := s.joiners[j].(pc := Done, life := Running)]));
    } else if s.target.life == Terminated {
      var s1 := s.(joiners := s.joiners[j := s.joiners[j].(pc := Polling)]);
      First(s, e, Continue, s1);
      More(s, e, Continue, 1, s1, s.(joiners := s.joiners[j := s.joiners[j].(pc := Done)]));
    }
  }

  /** A joiner that was pushed to the pool runs when a scheduler takes it. */
  lemma RunsAgain(s: State, e: Es, j: nat)
    requires e < |s.cpus| && s.cpus[e] == Scheduling && j < |s.joiners| && s.pool[Joiner(j)] > 0
    requires s.joiners[j].pc == Suspended
    ensures Leads(s, e, Pick(Joiner(j)), 1,
                  s.(joiners := s.joiners[j := s.joiners[j].(pc := Resumed, life := Running, last := e)],
                     cpus := s.cpus[e := Runs(Joiner(j))], pool := s.pool - multiset{Joiner(j)}))
  {
    hide Leads;
    First(s, e, Pick(Joiner(j)), Next(s, e, Pick(Joiner(j))));
  }

  /** Before its call and behind it a joiner may yield, and is in the pool then. */
  lemma GoesOn(s: State, e: Es, j: nat)
    requires JoinerOn(s, e, j) && (s.joiners[j].pc == Outside || s.joiners[j].pc == Done) && !s.joiners[j].block
    ensures Leads(s, e, Yield, 2, s.(joiners := s.joiners[j := s.joiners[j].(life := Ready)],
                                     cpus := s.cpus[e := Scheduling], pool := s.pool + multiset{Joiner(j)}))
  {
    hide Leads, EndNext, Dispatch;
    var s1 := s.(joiners := s.joiners[j := s.joiners[j].(life := Ready)], cpus := s.cpus[e := Stopped(Joiner(j))]);
    First(s, e, Yield, s1);
    More(s, e, Yield, 1, s1, s1.(cpus := s.cpus[e := Scheduling], pool := s.pool + multiset{Joiner(j)}));
  }

  // ---- the target ----

  /** The target goes back to its pool when it yields, and begins to terminate when its function returns. */
  lemma Works(s: State, e: Es)
    requires TargetOn(s, e) && s.target.pc == Working && TerminateBit !in s.request
    ensures Leads(s, e, Yield, 2, s.(target := s.target.(life := Ready), cpus := s.cpus[e := Scheduling],
                                     pool := s.pool + multiset{Target}))
    ensures Leads(s, e, Finish, 1, s.(target := s.target.(pc := ReadLink)))
  {
    hide Leads, JoinNext, Dispatch;
    var s1 := s.(target := s.target.(life := Ready), cpus := s.cpus[e := Stopped(Target)]);
    First(s, e, Yield, s1);
    More(s, e, Yield, 1, s1, s1.(cpus := s.cpus[e := Scheduling], pool := s.pool + multiset{Target}));
    First(s, e, Finish, s.(target := s.target.(pc := ReadLink)));
  }

  /** Nobody has joined: the target sets both bits and is TERMINATED by its scheduler. */
  lemma EndsUnjoined(s: State, e: Es)
    requires TargetOn(s, e) && s.target.pc == ReadLink && s.link == None && JoinBit !in s.request
    ensures Leads(s, e, Continue, 4,
                  s.(target := s.target.(pc := Gone, life := Terminated), cpus := s.cpus[e := Scheduling],
                     request := s.request + {JoinBit, TerminateBit}, claim := Some(Target)))
  {
    hide Leads, JoinNext, Dispatch;
    var s1 := s.(target := s.target.(pc := FetchOrBoth));
    First(s, e, Continue, s1);
    var s2 := s.(target := s.target.(pc := SwitchOut), request := s.request + {JoinBit, TerminateBit},
                 claim := Some(Target));
    More(s, e, Continue, 1, s1, s2);
    Leaves(s, s2, e, 2);
  }

  lemma Leaves(s: State, m: State, e: Es, n: nat)
    requires Leads(s, e, Continue, n, m) && TargetOn(m, e) && m.target.pc == SwitchOut && TerminateBit in m.request
    ensures Leads(s, e, Continue, n + 2,
                  m.(target := m.target.(pc := Gone, life := Terminated), cpus := m.cpus[e := Scheduling]))
  {
    hide Leads, JoinNext, Dispatch;
    var s3 := m.(target := m.target.(pc := Gone), cpus := m.cpus[e := Stopped(Target)]);
    More(s, e, Continue, n, m, s3);
    More(s, e, Continue, n + 1, s3, m.(target := m.target.(pc := Gone, life := Terminated),
                                       cpus := m.cpus[e := Scheduling]));
  }

  /** A joiner has left its name, and was last on the same ES: the target is TERMINATED, and the joiner
      runs on that ES in its stead. */
  lemma EndsByJump(s: State, e: Es, j: nat)
    requires TargetOn(s, e) && s.target.pc == ReadLink && s.link == Some(j) && j < |s.joiners|
    requires s.joiners[j].last == s.target.last
    ensures Leads(s, e, Continue, 4,
                  s.(target := s.target.(pc := Gone, life := Terminated), cpus := s.cpus[e := Runs(Joiner(j))],
                     joiners := s.joiners[j := s.joiners[j].(pc := Resumed)], resumed := s.resumed + [j]))
  {
    hide Leads, JoinNext, Dispatch;
    var s1 := s.(target := s.target.(pc := CompareEs));
    First(s, e, Continue, s1);
    var s2 := s.(target := s.target.(pc := SetTerminated));
    More(s, e, Continue, 1, s1, s2);
    var s3 := s.(target := s.target.(pc := Jump, life := Terminated));
    More(s, e, Continue, 2, s2, s3);
    More(s, e, Continue, 3, s3,
         s.(target := s.target.(pc := Gone, life := Terminated), cpus := s.cpus[e := Runs(Joiner(j))],
            joiners := s.joiners[j := s.joiners[j].(pc := Resumed)], resumed := s.resumed + [j]));
  }

  /** It was on another ES, where its scheduler is done with it: it goes to the pool, READY, and the target
      is TERMINATED by its own scheduler. */
  lemma EndsByPush(s: State, e: Es, j: nat)
    requires TargetOn(s, e) && s.target.pc == ReadLink && s.link == Some(j) && j < |s.joiners|
    requires s.joiners[j].last != s.target.last && s.joiners[j].life == Blocked && !s.joiners[j].block
    ensures Leads(s, e, Continue, 9,
                  s.(target := s.target.(pc := Gone, life := Terminated), cpus := s.cpus[e := Scheduling],
                     joiners := s.joiners[j := s.joiners[j].(life := Ready)], resumed := s.resumed + [j],
                     pool := s.pool + multiset{Joiner(j)}, request := s.request + {TerminateBit}))
  {
    hide Leads, JoinNext, Dispatch;
    var s1 := s.(target := s.target.(pc := CompareEs));
    First(s, e, Continue, s1);
    var s2 := s.(target := s.target.(pc := CheckBlocked(true)));
    More(s, e, Continue, 1, s1, s2);
    Readies(s, s2, e, j, 2, true);
    var s5 := s.(target := s.target.(pc := OrRead), joiners := s.joiners[j := s.joiners[j].(life := Ready)],
                 resumed := s.resumed + [j], pool := s.pool + multiset{Joiner(j)});
    var s6 := s5.(target := s.target.(pc := OrWrite(s.request)));
    More(s, e, Continue, 5, s5, s6);
    var s7 := s5.(target := s.target.(pc := SwitchOut), request := s.request + {TerminateBit});
    More(s, e, Continue, 6, s6, s7);
    Leaves(s, s7, e, 7);
  }

  lemma Readies(s: State, m: State, e: Es, j: nat, n: nat, plain: bool)
    requires Leads(s, e, Continue, n, m) && TargetOn(m, e) && m.target.pc == CheckBlocked(plain)
    requires m.link == Some(j) && j < |m.joiners| && m.joiners[j].life == Blocked && !m.joiners[j].block
    ensures Leads(s, e, Continue, n + 3,
                  m.(target := m.target.(pc := if plain then OrRead else SwitchOut),
                     joiners := m.joiners[j := m.joiners[j].(life := Ready)],
                     resumed := m.resumed + [j], pool := m.pool + multiset{Joiner(j)}))
  {
    hide Leads, JoinNext, Dispatch;
    var s3 := m.(target := m.target.(pc := SpinBlock(plain)));
    More(s, e, Continue, n, m, s3);
    var s4 := m.(target := m.target.(pc := PushJoiner(plain)));
    More(s, e, Continue, n + 1, s3, s4);
    More(s, e, Continue, n + 2, s4,
         m.(target := m.target.(pc := if plain then OrRead else SwitchOut),
            joiners := m.joiners[j := m.joiners[j].(life := Ready)],
            resumed := m.resumed + [j], pool := m.pool + multiset{Joiner(j)}));
  }

  /** No name has been left yet: the target sets both bits, and if that shows that a joiner is on its way,
      it waits for the name. */
  lemma WaitsForTheLink(s: State, e: Es)
    requires TargetOn(s, e) && s.target.pc == ReadLink && s.link == None && JoinBit in s.request
    ensures var s' := s.(target := s.target.(pc := SpinLink), request := s.request + {TerminateBit});
            && Leads(s, e, Continue, 2, s')
            && forall c :: !CanStep(s', e, c)
  {
    hide Leads, JoinNext, Dispatch;
    var s1 := s.(target := s.target.(pc := FetchOrBoth));
    First(s, e, Continue, s1);
    assert s.request + {JoinBit, TerminateBit} == s.request + {TerminateBit};
    More(s, e, Continue, 1, s1, s.(target := s.target.(pc := SpinLink), request := s.request + {TerminateBit}));
  }

  /** When the name is there and the joiner has been switched out, the target pushes it and is TERMINATED
      by its scheduler. */
  lemma EndsLinked(m: State, e: Es, j: nat)
    requires TargetOn(m, e) && m.target.pc == SpinLink && m.link == Some(j) && j < |m.joiners|
    requires m.joiners[j].life == Blocked && !m.joiners[j].block && TerminateBit in m.request
    ensures Leads(m, e, Continue, 6,
                  m.(target := m.target.(pc := Gone, life := Terminated), cpus := m.cpus[e := Scheduling],
                     joiners := m.joiners[j := m.joiners[j].(life := Ready)], resumed := m.resumed + [j],
                     pool := m.pool + multiset{Joiner(j)}))
  {
    hide Leads, JoinNext, Dispatch;
    var s1 := m.(target := m.target.(pc := CheckBlocked(false)));
    First(m, e, Continue, s1);
    Readies(m, s1, e, j, 1, false);
    var s4 := m.(target := m.target.(pc := SwitchOut), joiners := m.joiners[j := m.joiners[j].(life := Ready)],
                 resumed := m.resumed + [j], pool := m.pool + multiset{Joiner(j)});
    Leaves(m, s4, e, 4);
  }
}
