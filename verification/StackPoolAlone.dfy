/** What each operation on the stack pools does when no other ES steps in between. */
module StackPoolAlone {
  import opened Basics
  import opened StackPool
  import opened StackChains

  /** The call, and behind it `n` times the action `again`, lead from `s` to `s'`. */
  ghost predicate Leads(s: State, call: Act, again: Act, n: nat, s': State)
  {
    if n == 0 then Can(s, call) && s' == Next(s, call)
    else exists m :: Leads(s, call, again, n - 1, m) && Can(m, again) && s' == Next(m, again)
  }

  lemma Begins(s: State, call: Act, again: Act, s': State)
    requires Can(s, call) && s' == Next(s, call)
    ensures Leads(s, call, again, 0, s')
  {
  }

  lemma More(s: State, call: Act, again: Act, n: nat, m: State, s': State)
    requires Leads(s, call, again, n, m) && Can(m, again) && s' == Next(m, again)
    ensures Leads(s, call, again, n + 1, s')
  {
  }

  predicate Calls(s: State, e: Es)
  {
    Sane(s, e) && s.pcs[e] == Idle
  }

  /** The pointers lead from `head` through the different stacks of `q`. */
  ghost predicate Listed(s: State, head: Option<Sid>, q: seq<Sid>)
  {
    IsChain(s.next, head, q) && Distinct(q) && forall i :: 0 <= i < |q| ==> Known(s, q[i])
  }

  /** The start, for any number of ESs. */
  lemma Starts(ess: nat, maxStacks: nat)
    ensures Init(State([], [], [], None, seq(ess, i => None), seq(ess, i => 0), maxStacks, [], [],
                       seq(ess, i => Idle), NotYet))
  {
  }

  // ---- allocation ----

  /** A local stack is handed out, with its p_next cleared. */
  lemma AllocatesLocal(s: State, e: Es, x: Sid, again: Act)
    requires Calls(s, e) && s.local[e] == Some(x) && Known(s, x)
    ensures Leads(s, Alloc(e), again, 0,
                  s.(next := s.next[x := None], inUse := s.inUse[x := true], local := s.local[e := s.next[x]],
                     num := s.num[e := s.num[e] - 1]))
  {
    hide Leads;
    Begins(s, Alloc(e), again, Next(s, Alloc(e)));
  }

  lemma Walks(s: State, m: State, e: Es, k: nat, n: nat, q: seq<Sid>, i: nat)
    requires Leads(s, Alloc(e), Go(e, k), n, m) && Sane(m, e) && i < |q|
    requires m.pcs[e] == Walk(q[0], q[i], i) && Listed(m, Some(q[0]), q)
    ensures Leads(s, Alloc(e), Go(e, k), n + |q| - i,
                  m.(pcs := m.pcs[e := Idle], next := m.next[q[0] := None], inUse := m.inUse[q[0] := true],
                     local := m.local[e := if |q| > 1 then Some(q[1]) else None], num := m.num[e := |q| - 1]))
    decreases |q| - i
  {
    hide Leads;
    assert LinkOk(m.next, q, i) && LinkOk(m.next, q, 0);
    if i + 1 < |q| {
      var m1 := m.(pcs := m.pcs[e := Walk(q[0], q[i + 1], i + 1)]);
      More(s, Alloc(e), Go(e, k), n, m, m1);
      Walks(s, m1, e, k, n + 1, q, i + 1);
      assert m1.pcs[e := Idle] == m.pcs[e := Idle];
    } else {
      More(s, Alloc(e), Go(e, k), n, m,
           m.(pcs := m.pcs[e := Idle], next := m.next[q[0] := None], inUse := m.inUse[q[0] := true],
              local := m.local[e := if |q| > 1 then Some(q[1]) else None], num := m.num[e := |q| - 1]));
    }
  }

  lemma TakesAll(s: State, e: Es, k: nat, first: Sid)
    requires Calls(s, e) && s.local[e] == None && s.global == Some(first)
    ensures Leads(s, Alloc(e), Go(e, k), 3, s.(pcs := s.pcs[e := Walk(first, first, 0)], global := None))
  {
    hide Leads;
    var s0 := s.(pcs := s.pcs[e := GlobalLook]);
    Begins(s, Alloc(e), Go(e, k), s0);
    var s1 := s.(pcs := s.pcs[e := TakeRead]);
    More(s, Alloc(e), Go(e, k), 0, s0, s1);
    var s2 := s.(pcs := s.pcs[e := TakeCas(s.global)]);
    More(s, Alloc(e), Go(e, k), 1, s1, s2);
    More(s, Alloc(e), Go(e, k), 2, s2, s.(pcs := s.pcs[e := Walk(first, first, 0)], global := None));
  }

  /** Without a local one, the whole global list is taken: its first stack is handed out, the others are
      the local list from now on, and they are counted. */
  lemma AllocatesGlobal(s: State, e: Es, k: nat, q: seq<Sid>)
    requires Calls(s, e) && s.local[e] == None && q != [] && Listed(s, s.global, q)
    ensures Leads(s, Alloc(e), Go(e, k), 3 + |q|,
                  s.(global := None, next := s.next[q[0] := None], inUse := s.inUse[q[0] := true],
                     local := s.local[e := if |q| > 1 then Some(q[1]) else None], num := s.num[e := |q| - 1]))
    ensures Listed(s.(next := s.next[q[0] := None]), if |q| > 1 then Some(q[1]) else None, q[1..])
  {
    hide Leads, Next;
    TakesAll(s, e, k, q[0]);
    var s3 := s.(pcs := s.pcs[e := Walk(q[0], q[0], 0)], global := None);
    Walks(s, s3, e, k, 3, q, 0);
    assert s3.pcs[e := Idle] == s.pcs;
    RestListed(s, q);
  }

  lemma RestListed(s: State, q: seq<Sid>)
    requires q != [] && Listed(s, Some(q[0]), q)
    ensures Listed(s.(next := s.next[q[0] := None]), if |q| > 1 then Some(q[1]) else None, q[1..])
  {
    var next := s.next[q[0] := None];
    forall i | 0 <= i < |q[1..]| ensures LinkOk(next, q[1..], i) { assert LinkOk(s.next, q, i + 1); }
  }

  /** Without any, a page of `k` stacks is made: the first is handed out, and the others are the local list,
      in the order of their addresses; none of them has come back to the page yet. */
  lemma AllocatesPage(s: State, e: Es, k: nat) returns (s': State)
    requires Calls(s, e) && s.local[e] == None && s.global == None && k >= 1 && |s.next| == |s.page| == |s.inUse|
    requires |s.total| == |s.empty| && s.num[e] == 0
    ensures Leads(s, Alloc(e), Go(e, k), 2, s')
    ensures s'.total == s.total + [k] && s'.empty == s.empty + [0]
    ensures |s'.next| == |s.next| + k == |s'.page| == |s'.inUse|
    ensures s.next <= s'.next && s.page <= s'.page && s.inUse <= s'.inUse
    ensures forall x :: |s.next| <= x < |s'.next| ==> s'.page[x] == |s.total| && (s'.inUse[x] <==> x == |s.next|)
    ensures Listed(s', s'.local[e], seq(k - 1, i => |s.next| + 1 + i)) && s'.next[|s.next|] == None
    ensures s'.num == s.num[e := k - 1] && s'.local == s.local[e := s'.local[e]]
    ensures s'.global == None && s'.pcs == s.pcs && s'.maxStacks == s.maxStacks && s'.final == s.final
  {
    hide Leads;
    var s0 := s.(pcs := s.pcs[e := GlobalLook]);
    Begins(s, Alloc(e), Go(e, k), s0);
    var s1 := s.(pcs := s.pcs[e := NewPage]);
    More(s, Alloc(e), Go(e, k), 0, s0, s1);
    s' := PageNext(s1, e, k);
    More(s, Alloc(e), Go(e, k), 1, s1, s');
    PageListed(s, s1, s', e, k);
  }

  lemma PageListed(s: State, s1: State, s': State, e: Es, k: nat)
    requires Calls(s, e) && s.local[e] == None && k >= 1 && |s.next| == |s.page| == |s.inUse|
    requires |s.total| == |s.empty| && s1 == s.(pcs := s.pcs[e := NewPage]) && s' == PageNext(s1, e, k)
    ensures s' == s.(next := s'.next, page := s'.page, inUse := s'.inUse, total := s.total + [k],
                     empty := s.empty + [0], local := s'.local, num := s'.num)
    ensures Listed(s', s'.local[e], seq(k - 1, i => |s.next| + 1 + i)) && s'.next[|s.next|] == None
  {
    var q := seq(k - 1, i => |s.next| + 1 + i);
    assert s1.pcs[e := Idle] == s.pcs;
    forall i | 0 <= i < |q| ensures LinkOk(s'.next, q, i) && Known(s', q[i]) {
      assert s'.next[q[i]] == Links(|s.next|, k)[i + 1];
    }
  }

  // ---- free ----

  /** While the ES has no more than the maximum, a stack goes to the front of its local list; else it goes
      to the front of the global one. */
  lemma Frees(s: State, e: Es, x: Sid, k: nat)
    requires Calls(s, e) && Known(s, x) && s.inUse[x]
    ensures s.num[e] <= s.maxStacks ==>
              Leads(s, Free(e, x), Go(e, k), 0,
                    s.(inUse := s.inUse[x := false], next := s.next[x := s.local[e]], local := s.local[e := Some(x)],
                       num := s.num[e := s.num[e] + 1]))
    ensures s.num[e] > s.maxStacks ==>
              Leads(s, Free(e, x), Go(e, k), 2,
                    s.(inUse := s.inUse[x := false], next := s.next[x := s.global], global := Some(x)))
  {
    hide Leads;
    if s.num[e] <= s.maxStacks {
      Begins(s, Free(e, x), Go(e, k), Next(s, Free(e, x)));
    } else {
      var s1 := s.(inUse := s.inUse[x := false]);
      var s2 := s1.(pcs := s.pcs[e := PushRead(x)]);
      Begins(s, Free(e, x), Go(e, k), s2);
      var s3 := s1.(pcs := s.pcs[e := PushCas(x)], next := s.next[x := s.global]);
      More(s, Free(e, x), Go(e, k), 0, s2, s3);
      More(s, Free(e, x), Go(e, k), 1, s3, s3.(pcs := s.pcs, global := Some(x)));
    }
  }

  /** A compare-and-swap that comes too late changes nothing, and is tried again from the read on; an ES
      that then finds the global list empty makes a page. */
  lemma Retries(s: State, e: Es, k: nat, x: Sid, was: Option<Sid>)
    requires Sane(s, e)
    ensures s.pcs[e] == TakeCas(was) && s.global != was ==>
              Can(s, Go(e, k)) && Next(s, Go(e, k)) == s.(pcs := s.pcs[e := TakeRead])
    ensures s.pcs[e] == TakeCas(None) && s.global == None ==>
              Can(s, Go(e, k)) && Next(s, Go(e, k)) == s.(pcs := s.pcs[e := NewPage])
    ensures s.pcs[e] == PushCas(x) && Known(s, x) && s.global != s.next[x] ==>
              Can(s, Go(e, k)) && Next(s, Go(e, k)) == s.(pcs := s.pcs[e := PushRead(x)])
  {
  }

  // ---- the end ----

  /** How many stacks of `q` are on page `p`. */
  function On(page: seq<Pid>, q: seq<Sid>, p: Pid): nat
    requires forall i :: 0 <= i < |q| ==> q[i] < |page|
  {
    if q == [] then 0 else (if page[q[0]] == p then 1 else 0) + On(page, q[1..], p)
  }

  /** The stacks of `q`, and nothing else, have been counted back to their pages. */
  ghost predicate CountedBack(s: State, s': State, q: seq<Sid>)
    requires forall i :: 0 <= i < |q| ==> q[i] < |s.page|
  {
    && |s'.empty| == |s.empty|
    && forall p :: 0 <= p < |s.empty| ==> s'.empty[p] == s.empty[p] + On(s.page, q, p)
  }

  lemma CountsOne(m: State, q: seq<Sid>)
    requires q != [] && Listed(m, Some(q[0]), q)
    ensures var m1 := CountEmpty(m, q[0]);
            && |m1.empty| == |m.empty| && Listed(m1, m1.next[q[0]], q[1..])
            && forall s' :: CountedBack(m1, s', q[1..]) ==> CountedBack(m, s', q)
  {
    var m1 := CountEmpty(m, q[0]);
    assert LinkOk(m.next, q, 0);
    forall i | 0 <= i < |q[1..]| ensures LinkOk(m1.next, q[1..], i) { assert LinkOk(m.next, q, i + 1); }
  }

  lemma {:induction false} WalksBack(s: State, m: State, e: Es, k: nat, n: nat, q: seq<Sid>) returns (s': State)
    requires Leads(s, Finalize(e), Go(e, k), n, m) && Sane(m, e)
    requires m.pcs[e].FinWalk? && Listed(m, m.pcs[e].rest, q)
    ensures Leads(s, Finalize(e), Go(e, k), n + |q| + 1, s') && CountedBack(m, s', q)
    ensures s' == m.(pcs := m.pcs[e := Gone], num := m.num[e := 0], local := m.local[e := None], empty := s'.empty)
    decreases |q|
  {
    hide Leads, IsChain, CountedBack;
    if q == [] {
      s' := m.(pcs := m.pcs[e := Gone], num := m.num[e := 0], local := m.local[e := None]);
      NoneLeft(m, m.pcs[e].rest, q);
      NothingBack(m, s', q);
      More(s, Finalize(e), Go(e, k), n, m, s');
    } else {
      FirstOne(m, m.pcs[e].rest, q);
      CountsOne(m, q);
      var m1 := CountEmpty(m, q[0]).(pcs := m.pcs[e := FinWalk(m.next[q[0]])]);
      More(s, Finalize(e), Go(e, k), n, m, m1);
      s' := WalksBack(s, m1, e, k, n + 1, q[1..]);
      assert m1.pcs[e := Gone] == m.pcs[e := Gone];
      SameCount(CountEmpty(m, q[0]), m1, s', q[1..]);
    }
  }

  lemma NothingBack(s: State, s': State, q: seq<Sid>)
    requires q == [] && s'.empty == s.empty
    ensures CountedBack(s, s', q)
  {
  }

  lemma SameCount(s: State, t: State, s': State, q: seq<Sid>)
    requires (forall i :: 0 <= i < |q| ==> q[i] < |s.page|) && t.page == s.page && t.empty == s.empty
    requires CountedBack(t, s', q)
    ensures CountedBack(s, s', q)
  {
  }

  lemma NoneLeft(s: State, head: Option<Sid>, q: seq<Sid>)
    requires Listed(s, head, q) && q == []
    ensures head == None
  {
  }

  lemma FirstOne(s: State, head: Option<Sid>, q: seq<Sid>)
    requires Listed(s, head, q) && q != []
    ensures head == Some(q[0]) && Known(s, q[0])
  {
  }

  /** An ES that ends counts every stack of its list back to its page, once, and is left without any. */
  lemma GivesBack(s: State, e: Es, k: nat, q: seq<Sid>) returns (s': State)
    requires Calls(s, e) && Listed(s, s.local[e], q)
    ensures Leads(s, Finalize(e), Go(e, k), |q| + 1, s') && CountedBack(s, s', q)
    ensures s' == s.(pcs := s.pcs[e := Gone], num := s.num[e := 0], local := s.local[e := None], empty := s'.empty)
  {
    hide Leads, IsChain, CountedBack;
    var s0 := s.(pcs := s.pcs[e := FinWalk(s.local[e])]);
    Begins(s, Finalize(e), Go(e, k), s0);
    SameList(s, s0, s.local[e], q);
    s' := WalksBack(s, s0, e, k, 0, q);
    assert s0.pcs[e := Gone] == s.pcs[e := Gone];
    SameCount(s, s0, s', q);
  }

  lemma SameList(s: State, t: State, head: Option<Sid>, q: seq<Sid>)
    requires Listed(s, head, q) && t.next == s.next && t.page == s.page && |t.inUse| == |s.inUse|
    requires |t.empty| == |s.empty| && |t.total| == |s.total|
    ensures Listed(t, head, q)
  {
  }

  lemma {:induction false} CountsOn(s: State, m: State, n: nat, q: seq<Sid>) returns (s': State)
    requires Leads(s, FinalizeAll, CountNext, n, m) && m.final.Counting? && Listed(m, m.final.rest, q)
    ensures Leads(s, FinalizeAll, CountNext, n + |q| + 1, s') && CountedBack(m, s', q)
    ensures s' == m.(final := Over, global := None, empty := s'.empty)
    decreases |q|
  {
    hide Leads, IsChain, CountedBack;
    if q == [] {
      s' := m.(final := Over, global := None);
      NoneLeft(m, m.final.rest, q);
      NothingBack(m, s', q);
      More(s, FinalizeAll, CountNext, n, m, s');
    } else {
      FirstOne(m, m.final.rest, q);
      CountsOne(m, q);
      var m1 := CountEmpty(m, q[0]).(final := Counting(m.next[q[0]]));
      More(s, FinalizeAll, CountNext, n, m, m1);
      s' := CountsOn(s, m1, n + 1, q[1..]);
      SameCount(CountEmpty(m, q[0]), m1, s', q[1..]);
    }
  }

  /** When all ESs have ended, the stacks of the global list are counted back likewise. */
  lemma GivesAllBack(s: State, q: seq<Sid>) returns (s': State)
    requires s.final == NotYet && (forall e :: 0 <= e < |s.pcs| ==> s.pcs[e] == Gone) && Listed(s, s.global, q)
    ensures Leads(s, FinalizeAll, CountNext, |q| + 1, s') && CountedBack(s, s', q)
    ensures s' == s.(final := Over, global := None, empty := s'.empty)
  {
    hide Leads, IsChain, CountedBack;
    var s0 := s.(final := Counting(s.global));
    Begins(s, FinalizeAll, CountNext, s0);
    SameList(s, s0, s.global, q);
    s' := CountsOn(s, s0, 0, q);
    SameCount(s, s0, s', q);
  }
}
