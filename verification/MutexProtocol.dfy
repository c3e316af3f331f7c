/** The three-valued mutex (`val` is 0, 1 or 2) with its per-ES wait queues, as a state machine.
    One step is one atomic operation, one unlocked read or write of a shared word, or one section
    under a row's spinlock; the table lock is an explicit variable, so a section under it is a
    series of steps that other ULTs interleave with.  Any number of ULTs, any number of rows. */
module MutexProtocol {
  import opened Basics
  import opened WaitRows

  type Tid = nat

  /** Where the descriptor of a waiting ULT is. */
  datatype Place = High(row: nat) | Low(row: nat) | Held(holder: Tid)

  /** How far a waiting ULT has got on its way from the push to being switched out. */
  datatype Stage = Counting | Unlocking | Suspending | Suspended

  datatype LockAt = ReadLow(row: nat) | SwitchLow(row: nat) | CasFree | FirstExchange | AcquireTable
  datatype TableAt = Recheck | Leave | LinkRow | PushSelf(row: nat)
  datatype ReceiveAt = TakeOver | SetVal | PushGiver
  datatype ReleaseAt = StoreZero(reset: Option<nat>) | Check(row: nat) | ReadHigh(row: nat) | ReadList(row: nat)
                     | PopHigh(row: nat) | ReadLowCount(row: nat) | PopLow(row: nat)
  datatype GiveAt = CountHandover(row: nat) | SetHandover | SetGiver | Switch
  datatype WakeAt = EnterTable | ReadElems | Start | Pop(start: nat) | Fix(start: nat, got: Option<Tid>)
                  | ExitTable(got: Option<Tid>) | SetReady(target: Tid)

  /** Program counters. `low` tells lock_low from lock. In a wake pass `n` counts the wake-ups done,
      `reset` is the row whose hand-over count unlock_se clears afterwards, and `high` tells which of
      the two lists the pass is scanning. */
  datatype Pc =
    | Idle
    | Locking(low: bool, lockAt: LockAt)
    | Queueing(low: bool, tableAt: TableAt)            // inside wait, under the table lock
    | Waiting(low: bool, stage: Stage, place: Place)
    | Returned(low: bool, checked: bool)               // back from wait: check p_handover, exchange
    | Receiving(receiveAt: ReceiveAt)
    | Holding
    | Releasing(releaseAt: ReleaseAt)
    | Giving(target: Tid, giveAt: GiveAt)
    | Given                                            // switched out by its own hand-over
    | Waking(n: nat, reset: Option<nat>, high: bool, wakeAt: WakeAt)
    | Resetting(row: nat)

  datatype State = State(
    pc: map<Tid, Pc>,
    val: nat,
    handover: Option<Tid>,
    giver: Option<Tid>,
    table: Option<Tid>,        // holder of the table lock
    numElems: int,
    h: seq<seq<Tid>>,          // high-priority queue of each row
    l: seq<seq<Tid>>,          // low-priority queue of each row
    hList: seq<nat>,           // rows linked in h_list, head first
    lList: seq<nat>,
    numHandovers: seq<nat>,
    maxHandovers: nat,
    maxWakeups: nat)

  /** The mutex as created, with every ULT outside it. */
  ghost predicate Init(s: State)
  {
    && (forall t :: t in s.pc ==> s.pc[t] == Idle)
    && s.val == 0 && s.handover == None && s.giver == None && s.table == None && s.numElems == 0
    && |s.h| == |s.l| == |s.numHandovers|
    && (forall r :: 0 <= r < |s.h| ==> s.h[r] == [] && s.l[r] == [] && s.numHandovers[r] == 0)
    && s.hList == [] && s.lList == []
    && s.maxWakeups >= 1
  }

  function Go(s: State, t: Tid, p: Pc): State
  {
    s.(pc := s.pc[t := p])
  }

  predicate IsSuspended(s: State, x: Tid)
  {
    x in s.pc && s.pc[x].Waiting? && s.pc[x].stage == Suspended
  }

  /** The switched-out ULT `x` goes on behind its wait. */
  function Resume(s: State, x: Tid): State
    requires IsSuspended(s, x)
  {
    Go(s, x, Returned(s.pc[x].low, false))
  }

  /** `t` pops the first ULT of the non-empty row `row`. */
  function Popped(s: State, t: Tid, high: bool, row: nat): State
    requires row < |s.h| && row < |s.l| && (if high then s.h else s.l)[row] != []
  {
    var q := (if high then s.h else s.l)[row];
    var moved := if q[0] in s.pc && s.pc[q[0]].Waiting? then Go(s, q[0], s.pc[q[0]].(place := Held(t))) else s;
    var less := moved.(numElems := s.numElems - 1);
    if high then less.(h := s.h[row := q[1..]]) else less.(l := s.l[row := q[1..]])
  }

  function List(s: State, high: bool): seq<nat> { if high then s.hList else s.lList }
  function Rows(s: State, high: bool): seq<seq<Tid>> { if high then s.h else s.l }

  /** A list has been scanned without finding a ULT: the low one comes next, then nothing. */
  function Exhausted(n: nat, reset: Option<nat>, high: bool): Pc
  {
    Waking(n, reset, false, if high then Start else ExitTable(None))
  }

  function AfterPass(reset: Option<nat>): Pc
  {
    if reset.Some? then Resetting(reset.value) else Idle
  }

  /** The row a step works on exists, the lock it wants is free, and the ULT it switches to has been
      switched out.  A ULT that is not ready spins, or is switched out itself. */
  predicate Ready(s: State, t: Tid)
  {
    && t in s.pc && |s.h| == |s.l| == |s.numHandovers|
    && match s.pc[t]
       case Locking(_, ReadLow(row)) => row < |s.h|
       case Locking(_, SwitchLow(row)) => row < |s.h| && (s.l[row] != [] ==> IsSuspended(s, s.l[row][0]))
       case Locking(_, AcquireTable) => s.table == None
       case Queueing(_, PushSelf(row)) => row < |s.h|
       case Waiting(_, stage, _) => stage != Suspended
       case Receiving(PushGiver) => s.giver.Some?
       case Releasing(at) => at.StoreZero? || at.row < |s.h|
       case Giving(_, CountHandover(row)) => row < |s.h|
       case Giving(x, Switch) => IsSuspended(s, x)
       case Given => false
       case Waking(_, _, _, EnterTable) => s.table == None
       case Waking(_, _, high, Pop(_)) => List(s, high) != [] && List(s, high)[0] < |s.h|
       case Waking(_, _, high, Fix(_, _)) => List(s, high) != [] && List(s, high)[0] < |s.h|
       case Waking(_, _, _, SetReady(x)) => IsSuspended(s, x)
       case Resetting(row) => row < |s.h|
       case _ => true
  }

  function LockNext(s: State, t: Tid): State
    requires Ready(s, t) && s.pc[t].Locking?
  {
    var low := s.pc[t].low;
    match s.pc[t].lockAt
    case ReadLow(row) => Go(s, t, Locking(low, if |s.l[row]| > 0 then SwitchLow(row) else CasFree))
    case SwitchLow(row) =>
      if s.l[row] == [] then Go(s, t, Locking(low, CasFree))
      else Go(Resume(s, s.l[row][0]), t, Waiting(low, Suspended, Low(row))).(l := s.l[row := s.l[row][1..] + [t]])
    case CasFree =>
      if s.val == 0 then Go(s, t, Holding).(val := 1)
      else Go(s, t, Locking(low, if s.val == 2 then AcquireTable else FirstExchange))
    case FirstExchange => Go(s, t, if s.val == 0 then Holding else Locking(low, AcquireTable)).(val := 2)
    case AcquireTable => Go(s, t, Queueing(low, Recheck)).(table := Some(t))
  }

  function QueueNext(s: State, t: Tid, r: nat): State
    requires Ready(s, t) && s.pc[t].Queueing?
  {
    var low := s.pc[t].low;
    match s.pc[t].tableAt
    case Recheck => Go(s, t, Queueing(low, if s.val == 2 then LinkRow else Leave))
    case Leave => Go(s, t, Returned(low, false)).(table := None)
    case LinkRow =>
      var s1 := if low then s.(lList := Linked(s.lList, r)) else s.(hList := Linked(s.hList, r));
      Go(s1, t, Queueing(low, PushSelf(r)))
    case PushSelf(row) =>
      if low then Go(s, t, Waiting(low, Counting, Low(row))).(l := s.l[row := s.l[row] + [t]])
      else Go(s, t, Waiting(low, Counting, High(row))).(h := s.h[row := s.h[row] + [t]])
  }

  function WaitNext(s: State, t: Tid): State
    requires Ready(s, t) && s.pc[t].Waiting?
  {
    var p := s.pc[t];
    match p.stage
    case Counting => Go(s, t, p.(stage := Unlocking)).(numElems := s.numElems + 1)
    case Unlocking => Go(s, t, p.(stage := Suspending)).(table := None)
    case Suspending => Go(s, t, p.(stage := Suspended))
  }

  function ReturnNext(s: State, t: Tid): State
    requires Ready(s, t) && s.pc[t].Returned?
  {
    var low := s.pc[t].low;
    if s.pc[t].checked then Go(s, t, if s.val == 0 then Holding else Locking(low, AcquireTable)).(val := 2)
    else Go(s, t, if s.handover == Some(t) then Receiving(TakeOver) else Returned(low, true))
  }

  function ReceiveNext(s: State, t: Tid): State
    requires Ready(s, t) && s.pc[t].Receiving?
  {
    match s.pc[t].receiveAt
    case TakeOver => Go(s, t, Receiving(SetVal)).(handover := None)
    case SetVal => Go(s, t, Receiving(PushGiver)).(val := 2)
    case PushGiver => Go(Go(s, s.giver.value, Idle), t, Holding)
  }

  /** unlock_se up to the hand-over, and the store of 0 that it shares with unlock. */
  function ReleaseNext(s: State, t: Tid): State
    requires Ready(s, t) && s.pc[t].Releasing?
  {
    match s.pc[t].releaseAt
    case StoreZero(reset) => Go(s, t, Waking(0, reset, true, EnterTable)).(val := 0)
    case Check(row) =>
      Go(s, t, Releasing(if s.numHandovers[row] >= s.maxHandovers then StoreZero(Some(row)) else ReadHigh(row)))
    case ReadHigh(row) => Go(s, t, Releasing(if |s.h[row]| <= 1 then ReadList(row) else PopHigh(row)))
    case ReadList(row) => Go(s, t, Releasing(if s.hList != [] then StoreZero(None) else ReadLowCount(row)))
    case PopHigh(row) =>
      if s.h[row] == [] then Go(s, t, Releasing(Check(row)))
      else Go(Popped(s, t, true, row), t, Giving(s.h[row][0], CountHandover(row)))
    case ReadLowCount(row) => Go(s, t, Releasing(if |s.l[row]| <= 1 then StoreZero(None) else PopLow(row)))
    case PopLow(row) =>
      if s.l[row] == [] then Go(s, t, Releasing(Check(row)))
      else Go(Popped(s, t, false, row), t, Giving(s.l[row][0], CountHandover(row)))
  }

  function GiveNext(s: State, t: Tid): State
    requires Ready(s, t) && s.pc[t].Giving?
  {
    var x := s.pc[t].target;
    match s.pc[t].giveAt
    case CountHandover(row) =>
      Go(s, t, Giving(x, SetHandover)).(numHandovers := s.numHandovers[row := s.numHandovers[row] + 1])
    case SetHandover => Go(s, t, Giving(x, SetGiver)).(handover := Some(x))
    case SetGiver => Go(s, t, Giving(x, Switch)).(giver := Some(t))
    case Switch => Go(Resume(s, x), t, Given)
  }

  function WakeNext(s: State, t: Tid): State
    requires Ready(s, t) && s.pc[t].Waking?
  {
    var Waking(n, reset, high, at) := s.pc[t];
    var list := List(s, high);
    match at
    case EnterTable => Go(s, t, Waking(n, reset, true, ReadElems)).(table := Some(t))
    case ReadElems => Go(s, t, Waking(n, reset, true, if s.numElems == 0 then ExitTable(None) else Start))
    case Start => Go(s, t, if list != [] then Waking(n, reset, high, Pop(list[0])) else Exhausted(n, reset, high))
    case Pop(start) =>
      var q := Rows(s, high)[list[0]];
      if q == [] then Go(s, t, Waking(n, reset, high, Fix(start, None)))
      else Go(Popped(s, t, high, list[0]), t, Waking(n, reset, high, Fix(start, Some(q[0]))))
    case Fix(start, got) =>
      var rest := AfterPop(list, Rows(s, high)[list[0]]);
      var next := if got.Some? then Waking(n, reset, high, ExitTable(got))
                  else if rest == [] || rest[0] == start then Exhausted(n, reset, high)
                  else Waking(n, reset, high, Pop(start));
      if high then Go(s, t, next).(hList := rest) else Go(s, t, next).(lList := rest)
    case ExitTable(got) =>
      Go(s, t, if got.Some? then Waking(n, reset, high, SetReady(got.value)) else AfterPass(reset)).(table := None)
    case SetReady(x) =>
      Go(Resume(s, x), t, if n + 1 < s.maxWakeups then Waking(n + 1, reset, true, EnterTable) else AfterPass(reset))
  }

  /** One step of ULT `t`; `r` is the rank of the ES it runs on, used where the code looks that up.
      An idle ULT may call lock, lock_low, or trylock and spinlock (one successful CAS); a holder may
      call unlock or unlock_se. */
  ghost predicate Step(s: State, s': State, t: Tid, r: nat)
  {
    && Ready(s, t) && r < |s.h|
    && match s.pc[t]
       case Idle =>
         || s' == Go(s, t, Locking(false, CasFree))
         || s' == Go(s, t, Locking(true, ReadLow(r)))
         || (s.val == 0 && s' == Go(s, t, Holding).(val := 1))
       case Holding =>
         && s.val > 0
         && ( || s' == Go(s, t, if s.val == 1 then Idle else Releasing(StoreZero(None))).(val := s.val - 1)
              || s' == Go(s, t, if s.val == 1 then Idle else Releasing(Check(r))).(val := s.val - 1))
       case Locking(_, _) => s' == LockNext(s, t)
       case Queueing(_, _) => s' == QueueNext(s, t, r)
       case Waiting(_, _, _) => s' == WaitNext(s, t)
       case Returned(_, _) => s' == ReturnNext(s, t)
       case Receiving(_) => s' == ReceiveNext(s, t)
       case Releasing(_) => s' == ReleaseNext(s, t)
       case Giving(_, _) => s' == GiveNext(s, t)
       case Given => false
       case Waking(_, _, _, _) => s' == WakeNext(s, t)
       case Resetting(row) => s' == Go(s, t, Idle).(numHandovers := s.numHandovers[row := 0])
  }

  ghost predicate Next(s: State, s': State)
  {
    exists t, r :: Step(s, s', t, r)
  }
}
