/** The stacks of ULTs: the local list of each ES and the lock-free global list, down to the `p_next`
    pointers, as a state machine.  A push to the global list and the taking of the whole list are a
    read and a compare-and-swap; a stack keeps its address when it is reused. */
module StackPool {
  import opened Basics

  type Es = nat
  type Sid = nat
  type Pid = nat

  datatype Pc =
    | Idle
    | GlobalLook                         // is there a global list?
    | TakeRead                           // ABTI_mem_take_global_stack
    | TakeCas(was: Option<Sid>)
    | Walk(first: Sid, cur: Sid, cnt: nat)
    | NewPage                            // ABTI_mem_alloc_sp
    | PushRead(x: Sid)                   // ABTI_mem_add_stack_to_global
    | PushCas(x: Sid)
    | FinWalk(rest: Option<Sid>)         // ABTI_mem_free_stack_list
    | Gone

  /** ABTI_mem_finalize on the global list. */
  datatype Final = NotYet | Counting(rest: Option<Sid>) | Over

  datatype State = State(
    next: seq<Option<Sid>>,              // p_next of every stack header
    page: seq<Pid>,
    inUse: seq<bool>,                    // the stack belongs to a ULT
    global: Option<Sid>,                 // p_mem_stack of the global data
    local: seq<Option<Sid>>,             // p_mem_stack of each ES
    num: seq<int>,                       // num_stacks of each ES
    maxStacks: nat,
    total: seq<nat>,                     // num_total_stacks of each page
    empty: seq<nat>,                     // num_empty_stacks of each page
    pcs: seq<Pc>,
    final: Final)

  /** `k` is the number of stacks in a new page. */
  datatype Act = Alloc(e: Es) | Free(e: Es, x: Sid) | Finalize(e: Es) | Go(e: Es, k: nat) | FinalizeAll | CountNext

  ghost predicate Init(s: State)
  {
    && s.next == [] && s.page == [] && s.inUse == [] && s.total == [] && s.empty == []
    && s.global == None && s.final == NotYet
    && |s.local| == |s.num| == |s.pcs|
    && (forall e :: 0 <= e < |s.pcs| ==> s.local[e] == None && s.num[e] == 0 && s.pcs[e] == Idle)
  }

  predicate Known(s: State, x: Sid)
  {
    x < |s.next| == |s.page| == |s.inUse| && s.page[x] < |s.empty| == |s.total|
  }

  predicate Sane(s: State, e: Es)
  {
    e < |s.pcs| == |s.local| == |s.num|
  }

  predicate Can(s: State, a: Act)
  {
    match a
    case Alloc(e) => Sane(s, e) && s.pcs[e] == Idle && (s.local[e].Some? ==> Known(s, s.local[e].value))
    case Free(e, x) => Sane(s, e) && s.pcs[e] == Idle && Known(s, x) && s.inUse[x]
    case Finalize(e) => Sane(s, e) && s.pcs[e] == Idle
    case Go(e, k) =>
      && Sane(s, e) && s.pcs[e] != Idle && s.pcs[e] != Gone
      && (s.pcs[e].Walk? ==> Known(s, s.pcs[e].first) && Known(s, s.pcs[e].cur))
      && (s.pcs[e].PushRead? || s.pcs[e].PushCas? ==> Known(s, s.pcs[e].x))
      && (s.pcs[e].FinWalk? && s.pcs[e].rest.Some? ==> Known(s, s.pcs[e].rest.value))
      && (s.pcs[e].NewPage? ==> k >= 1)
    case FinalizeAll => s.final == NotYet && forall e :: 0 <= e < |s.pcs| ==> s.pcs[e] == Gone
    case CountNext => s.final.Counting? && (s.final.rest.Some? ==> Known(s, s.final.rest.value))
  }

  function To(s: State, e: Es, p: Pc): State
    requires e < |s.pcs|
  {
    s.(pcs := s.pcs[e := p])
  }

  /** One more stack of its page has come back. */
  function CountEmpty(s: State, x: Sid): State
    requires Known(s, x)
  {
    s.(empty := s.empty[s.page[x] := s.empty[s.page[x]] + 1])
  }

  /** A stack leaves the pools for a ULT. */
  function HandOut(s: State, x: Sid): State
    requires Known(s, x)
  {
    s.(next := s.next[x := None], inUse := s.inUse[x := true])
  }

  function Next(s: State, a: Act): State
    requires Can(s, a)
  {
    match a
    case Alloc(e) =>
      if s.local[e] == None then To(s, e, GlobalLook)
      else
        HandOut(s, s.local[e].value)
        .(local := s.local[e := s.next[s.local[e].value]], num := s.num[e := s.num[e] - 1])
    case Free(e, x) =>
      var s1 := s.(inUse := s.inUse[x := false]);
      if s.num[e] <= s.maxStacks then
        s1.(next := s.next[x := s.local[e]], local := s.local[e := Some(x)], num := s.num[e := s.num[e] + 1])
      else To(s1, e, PushRead(x))
    case Finalize(e) => To(s, e, FinWalk(s.local[e]))
    case Go(e, k) => GoNext(s, e, k)
    case FinalizeAll => s.(final := Counting(s.global))
    case CountNext =>
      if s.final.rest == None then s.(final := Over, global := None)
      else CountEmpty(s, s.final.rest.value).(final := Counting(s.next[s.final.rest.value]))
  }

  function GoNext(s: State, e: Es, k: nat): State
    requires Can(s, Go(e, k))
  {
    match s.pcs[e]
    case GlobalLook => To(s, e, if s.global.Some? then TakeRead else NewPage)
    case TakeRead => To(s, e, TakeCas(s.global))
    case TakeCas(was) =>
      if s.global != was then To(s, e, TakeRead)
      else To(s, e, if was == None then NewPage else Walk(was.value, was.value, 0)).(global := None)
    case Walk(first, cur, cnt) =>
      if s.next[cur].Some? then To(s, e, Walk(first, s.next[cur].value, cnt + 1))
      else HandOut(To(s, e, Idle), first).(num := s.num[e := cnt], local := s.local[e := s.next[first]])
    case NewPage => PageNext(s, e, k)
    case PushRead(x) => To(s, e, PushCas(x)).(next := s.next[x := s.global])
    case PushCas(x) => if s.global == s.next[x] then To(s, e, Idle).(global := Some(x)) else To(s, e, PushRead(x))
    case FinWalk(rest) =>
      if rest == None then To(s, e, Gone).(num := s.num[e := 0], local := s.local[e := None])
      else CountEmpty(To(s, e, FinWalk(s.next[rest.value])), rest.value)
  }

  /** The p_next of the `k` stacks of a new page, whose first stack is `n`. */
  function Links(n: Sid, k: nat): seq<Option<Sid>>
  {
    seq(k, i => if 1 <= i < k - 1 then Some(n + i + 1) else None)
  }

  /** A page of `k` stacks: the first is handed out, the others become the local list. */
  function PageNext(s: State, e: Es, k: nat): State
    requires Can(s, Go(e, k)) && s.pcs[e] == NewPage
  {
    var n := |s.next|;
    var s1 := To(s, e, Idle).(next := s.next + Links(n, k),
                              page := s.page + seq(k, i => |s.total|),
                              inUse := s.inUse + seq(k, i => i == 0),
                              total := s.total + [k], empty := s.empty + [0]);
    if k > 1 then s1.(num := s.num[e := k - 1], local := s.local[e := Some(n + 1)]) else s1
  }

  ghost predicate Steps(s: State, s': State)
  {
    exists a :: Can(s, a) && s' == Next(s, a)
  }

  ghost predicate Run(tr: seq<State>)
  {
    && tr != [] && Init(tr[0])
    && forall i :: 0 <= i < |tr| - 1 ==> Steps(tr[i], tr[i + 1])
  }
}
