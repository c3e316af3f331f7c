/** One page of task blocks with its local and its lock-free remote free list, as a state machine:
    allocation, local and remote frees, take_free, and the page's way through its owners and the
    global list until it is released.  One step is one access to a word that others access too;
    counters are mathematical integers. */
module TaskPage {
  import opened Basics

  type Es = nat
  type Blk = nat

  /** Whether a block is free (in a list, or lost), in use, or being freed and not in a list yet. */
  datatype Use = Free | InUse | Going

  /** The page's p_owner is the ES in `Owned`, and NULL otherwise. */
  datatype Where = Owned(es: Es) | Transit(es: Es) | Global | Released

  /** Why a page's remote list is taken: to allocate, before it is given up, after it is adopted. */
  datatype Purpose = ForAlloc | ForLeave | ForAdopt

  datatype Pc =
    | Idle
    | FreeCheck(b: Blk)            // whose page is it?
    | FreeLocal(b: Blk)
    | FreeLocalCount
    | FreeRead(b: Blk)             // ABTI_mem_free_remote
    | FreeCas(b: Blk, was: Option<Blk>)
    | FreeCount
    | AllocLook
    | AllocPop
    | AllocCount
    | TakeCount(why: Purpose)      // ABTI_mem_take_free
    | TakeSub(n: int, why: Purpose)
    | TakeAdd(n: int, why: Purpose)
    | TakeRead(why: Purpose)
    | TakeCas(was: Option<Blk>, why: Purpose)
    | SumEmpty                     // ABTI_mem_finalize_local
    | SumRemote(k: int)
    | LeaveLook
    | Disown
    | Publish
    | Adopt                        // ABTI_mem_take_global_page
    | AdoptLook
    | AdoptEnd

  datatype State = State(
    use: seq<Use>,
    head: seq<Blk>,       // the list behind p_head
    free: seq<Blk>,       // the list behind p_free
    empty: int,           // num_empty_blks
    remote: int,          // num_remote_free
    place: Where,
    pcs: seq<Pc>)

  datatype Act = CallAlloc(e: Es) | CallFree(e: Es, b: Blk) | CallFinalize(e: Es) | CallAdopt(e: Es) | Go(e: Es)

  /** A fresh page, owned by the ES that allocated it. */
  ghost predicate Init(s: State)
  {
    && (forall b :: 0 <= b < |s.use| ==> s.use[b] == Free)
    && |s.head| == |s.use| && Distinct(s.head) && (forall i :: 0 <= i < |s.head| ==> s.head[i] < |s.use|)
    && s.free == [] && s.empty == |s.use| && s.remote == 0
    && s.place.Owned? && (forall e :: 0 <= e < |s.pcs| ==> s.pcs[e] == Idle)
  }

  function First(q: seq<Blk>): Option<Blk>
  {
    if q == [] then None else Some(q[0])
  }

  predicate Can(s: State, a: Act)
  {
    a.e < |s.pcs| &&
    match a
    case CallAlloc(e) => s.pcs[e] == Idle && s.place == Owned(e)
    case CallFree(e, b) => s.pcs[e] == Idle && b < |s.use| && s.use[b] == InUse
    case CallFinalize(e) => s.pcs[e] == Idle && s.place == Owned(e)
    case CallAdopt(e) => s.pcs[e] == Idle && s.place == Global
    case Go(e) =>
      && s.pcs[e] != Idle
      && (s.pcs[e].AllocPop? ==> s.head != [] && s.head[0] < |s.use|)
      && (s.pcs[e].FreeLocal? || s.pcs[e].FreeCas? ==> s.pcs[e].b < |s.use|)
  }

  function To(s: State, e: Es, p: Pc): State
    requires e < |s.pcs|
  {
    s.(pcs := s.pcs[e := p])
  }

  predicate Frees(p: Pc)
  {
    p.FreeCheck? || p.FreeLocal? || p.FreeLocalCount? || p.FreeRead? || p.FreeCas? || p.FreeCount?
  }

  function AfterTake(why: Purpose): Pc
  {
    match why
    case ForAlloc => AllocPop
    case ForLeave => Disown
    case ForAdopt => AdoptEnd
  }

  function Next(s: State, a: Act): State
    requires Can(s, a)
  {
    match a
    case CallAlloc(e) => To(s, e, AllocLook)
    case CallFree(e, b) => To(s, e, FreeCheck(b)).(use := s.use[b := Going])
    case CallFinalize(e) => To(s, e, SumEmpty)
    case CallAdopt(e) => To(s, e, Adopt).(place := Transit(e))
    case Go(e) => if Frees(s.pcs[e]) then FreeNext(s, e) else OwnerNext(s, e)
  }

  function FreeNext(s: State, e: Es): State
    requires Can(s, Go(e)) && Frees(s.pcs[e])
  {
    match s.pcs[e]
    case FreeCheck(b) => To(s, e, if s.place == Owned(e) then FreeLocal(b) else FreeRead(b))
    case FreeLocal(b) => To(s, e, FreeLocalCount).(head := [b] + s.head, use := s.use[b := Free])
    case FreeLocalCount => To(s, e, Idle).(empty := s.empty + 1)
    case FreeRead(b) => To(s, e, FreeCas(b, First(s.free)))
    case FreeCas(b, was) =>
      if First(s.free) == was then To(s, e, FreeCount).(free := [b] + s.free, use := s.use[b := Free])
      else To(s, e, FreeRead(b))
    case FreeCount => To(s, e, Idle).(remote := s.remote + 1)
  }

  function OwnerNext(s: State, e: Es): State
    requires Can(s, Go(e)) && !Frees(s.pcs[e])
  {
    match s.pcs[e]
    case AllocLook => To(s, e, if s.head != [] then AllocPop else if s.free != [] then TakeCount(ForAlloc) else Idle)
    case AllocPop => To(s, e, AllocCount).(head := s.head[1..], use := s.use[s.head[0] := InUse])
    case AllocCount => To(s, e, Idle).(empty := s.empty - 1)
    case TakeCount(why) => To(s, e, TakeSub(s.remote, why))
    case TakeSub(n, why) => To(s, e, TakeAdd(n, why)).(remote := s.remote - n)
    case TakeAdd(n, why) => To(s, e, TakeRead(why)).(empty := s.empty + n)
    case TakeRead(why) => To(s, e, TakeCas(First(s.free), why)).(head := [])
    case TakeCas(was, why) =>
      if First(s.free) == was then To(s, e, AfterTake(why)).(head := s.free, free := []) else To(s, e, TakeRead(why))
    case SumEmpty => To(s, e, SumRemote(s.empty))
    case SumRemote(k) => if k + s.remote == |s.use| then To(s, e, Idle).(place := Released) else To(s, e, LeaveLook)
    case LeaveLook => To(s, e, if s.free != [] then TakeCount(ForLeave) else Disown)
    case Disown => To(s, e, Publish).(place := Transit(e))
    case Publish => To(s, e, Idle).(place := Global)
    case Adopt => To(s, e, AdoptLook).(place := Owned(e))
    case AdoptLook => To(s, e, if s.free != [] then TakeCount(ForAdopt) else AdoptEnd)
    case AdoptEnd => To(s, e, if s.head == [] then Idle else AllocPop)
  }

  ghost predicate Steps(s: State, s': State)
  {
    exists a :: Can(s, a) && s' == Next(s, a)
  }

  ghost predicate Run(tr: seq<State>)
  {
    && tr != [] && Init(tr[0])
    && forall i :: 0 <= i < |tr| - 1 ==> Steps(tr[i], tr[i + 1])
  }
}
