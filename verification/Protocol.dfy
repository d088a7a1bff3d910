/** The in-target probe protocol: the two stubs as automata whose every step makes at most one
    access to memory shared between threads, run by any number of threads against one runtime
    area, and the unprobed program they must be indistinguishable from. */
module Protocol {
  import opened Wrappers

  type Word = nat
  type Addr = nat
  type Tid = nat

  const TWO32: nat := 0x1_0000_0000
  const TWO64: nat := 0x1_0000_0000_0000_0000
  const CAPACITY: nat := 4096
  const THREADS: nat := 256
  const DEPTH: nat := 64
  const ENTRY_EVENT: nat := 1
  const RETURN_EVENT: nat := 2

  /** What the builder freezes into the stubs of one probe. */
  datatype Config = Config(pid: Word, probeId: Word, hasRet: bool, retStub: Addr, eventBuf: Addr)

  // ---------------------------------------------------------------- shared memory

  datatype Event = Event(ts: Word, pid: Word, tid: Word, probeId: Word, kind: Word,
                         args: seq<Word>, retval: Word, duration: Word)

  datatype Field = TimeStamp | Pid | ThreadId | ProbeId | Kind | Arg(j: nat) | Retval | Duration

  function GetField(e: Event, f: Field): Word
  {
    match f
    case TimeStamp => e.ts
    case Pid => e.pid
    case ThreadId => e.tid
    case ProbeId => e.probeId
    case Kind => e.kind
    case Arg(j) => if j < |e.args| then e.args[j] else 0
    case Retval => e.retval
    case Duration => e.duration
  }

  function SetField(e: Event, f: Field, v: Word): Event
  {
    match f
    case TimeStamp => e.(ts := v)
    case Pid => e.(pid := v)
    case ThreadId => e.(tid := v)
    case ProbeId => e.(probeId := v)
    case Kind => e.(kind := v)
    case Arg(j) => if j < |e.args| then e.(args := e.args[j := v]) else e
    case Retval => e.(retval := v)
    case Duration => e.(duration := v)
  }

  /** One slot of the shadow stack table. */
  datatype Slot = Slot(tid: Tid, depth: nat, rets: seq<Addr>, tss: seq<Word>)

  datatype Mem = Mem(enabled: Word, index: Word, ring: seq<Event>, slots: seq<Slot>)

  /** A place of the runtime area that a stub can touch. */
  datatype Loc =
    | Enabled
    | BufPtr
    | WriteIndex
    | Ring(i: nat, f: Field)
    | SlotTid(k: nat)
    | SlotDepth(k: nat)
    | SlotRet(k: nat, d: nat)
    | SlotTs(k: nat, d: nat)

  /** The places that exist; anything else is a wild access. */
  predicate InBounds(loc: Loc)
  {
    match loc
    case Enabled => true
    case BufPtr => true
    case WriteIndex => true
    case Ring(i, f) => i < CAPACITY && (f.Arg? ==> f.j < 6)
    case SlotTid(k) => k < THREADS
    case SlotDepth(k) => k < THREADS
    case SlotRet(k, d) => k < THREADS && d < DEPTH
    case SlotTs(k, d) => k < THREADS && d < DEPTH
  }

  predicate ShapedSlot(s: Slot)
  {
    |s.rets| == DEPTH && |s.tss| == DEPTH && s.depth <= DEPTH
  }

  predicate Shaped(m: Mem)
  {
    && |m.ring| == CAPACITY
    && |m.slots| == THREADS
    && (forall i :: 0 <= i < CAPACITY ==> |m.ring[i].args| == 6)
    && (forall k :: 0 <= k < THREADS ==> ShapedSlot(m.slots[k]))
  }

  function Read(c: Config, m: Mem, loc: Loc): Word
  {
    match loc
    case Enabled => m.enabled
    case BufPtr => c.eventBuf
    case WriteIndex => m.index
    case Ring(i, f) => if i < |m.ring| then GetField(m.ring[i], f) else 0
    case SlotTid(k) => if k < |m.slots| then m.slots[k].tid else 0
    case SlotDepth(k) => if k < |m.slots| then m.slots[k].depth else 0
    case SlotRet(k, d) => if k < |m.slots| && d < |m.slots[k].rets| then m.slots[k].rets[d] else 0
    case SlotTs(k, d) => if k < |m.slots| && d < |m.slots[k].tss| then m.slots[k].tss[d] else 0
  }

  function Write(m: Mem, loc: Loc, v: Word): Mem
  {
    match loc
    case Enabled => m.(enabled := v)
    case BufPtr => m
    case WriteIndex => m.(index := v)
    case Ring(i, f) => if i < |m.ring| then m.(ring := m.ring[i := SetField(m.ring[i], f, v)]) else m
    case SlotTid(k) => if k < |m.slots| then m.(slots := m.slots[k := m.slots[k].(tid := v)]) else m
    case SlotDepth(k) => if k < |m.slots| then m.(slots := m.slots[k := m.slots[k].(depth := v)]) else m
    case SlotRet(k, d) =>
      if k < |m.slots| && d < |m.slots[k].rets|
      then m.(slots := m.slots[k := m.slots[k].(rets := m.slots[k].rets[d := v])]) else m
    case SlotTs(k, d) =>
      if k < |m.slots| && d < |m.slots[k].tss|
      then m.(slots := m.slots[k := m.slots[k].(tss := m.slots[k].tss[d := v])]) else m
  }

  /** What a stub asks of its environment in one step. `Hook` overwrites the probed call's own
      return cell with the address of the return stub. */
  datatype Action =
    | Skip
    | GetTid
    | Clock
    | Hook
    | Load(loc: Loc)
    | Store(loc: Loc, v: Word)
    | FetchAdd                          // lock xadd of 1 on the write index
    | CompareSwap(k: nat, desired: Word) // lock cmpxchg of 0 on a slot's tid

  predicate Safe(a: Action)
  {
    match a
    case Load(loc) => InBounds(loc)
    case Store(loc, _) => InBounds(loc)
    case CompareSwap(k, _) => k < THREADS
    case _ => true
  }

  function Perform(c: Config, m: Mem, t: Tid, now: Word, a: Action): (r: (Mem, Word))
  {
    match a
    case Skip => (m, 0)
    case GetTid => (m, t)
    case Clock => (m, now)
    case Hook => (m, 0)
    case Load(loc) => (m, Read(c, m, loc))
    case Store(loc, v) => (Write(m, loc, v), 0)
    case FetchAdd => (m.(index := (m.index + 1) % TWO64), m.index)
    case CompareSwap(k, v) =>
      var held := Read(c, m, SlotTid(k));
      (if held == 0 then Write(m, SlotTid(k), v) else m, held)
  }

  // ---------------------------------------------------------------- the entry stub

  datatype EntryAt =
    | Check | LoadBuf | Reserve | PutPid | PutProbe | PutKind | PutArg | AskTid | PutTid
    | AskClock | PutTs | PutRetval | PutDuration
    | Scan | CmpTid | LoadTid | Claim | CmpRace
    | Found | LoadDepth | SaveRet | LoadTs | SaveTs | PushDepth | Swap

  /** Registers of the entry stub: `i` the ring cell reserved, `j` the argument being stored, `idx` the
      slot being looked at, `d` its depth, `v` the value in hand, `ts` the time read. */
  datatype Entry = Entry(at: EntryAt, i: nat, j: nat, idx: nat, d: nat, v: Word, ts: Word, args: seq<Word>)

  function StartEntry(args: seq<Word>): Entry
  {
    Entry(Check, 0, 0, 0, 0, 0, 0, args)
  }

  function EntryRequest(c: Config, e: Entry, cell: Addr): Action
  {
    var i := e.i;
    match e.at
    case Check => Load(Enabled)
    case LoadBuf => Load(BufPtr)
    case Reserve => FetchAdd
    case PutPid => Store(Ring(i, Pid), c.pid)
    case PutProbe => Store(Ring(i, ProbeId), c.probeId)
    case PutKind => Store(Ring(i, Kind), ENTRY_EVENT)
    case PutArg => Store(Ring(i, Arg(e.j)), if e.j < |e.args| then e.args[e.j] else 0)
    case AskTid => GetTid
    case PutTid => Store(Ring(i, ThreadId), e.v)
    case AskClock => Clock
    case PutTs => Store(Ring(i, TimeStamp), e.ts)
    case PutRetval => Store(Ring(i, Retval), 0)
    case PutDuration => Store(Ring(i, Duration), 0)
    case Scan => if e.idx >= THREADS then Skip else Load(SlotTid(e.idx))
    case CmpTid => Load(Ring(i, ThreadId))
    case LoadTid => Load(Ring(i, ThreadId))
    case Claim => CompareSwap(e.idx, e.v)
    case CmpRace => Load(Ring(i, ThreadId))
    case Found => Load(Ring(i, ThreadId))
    case LoadDepth => Load(SlotDepth(e.idx))
    case SaveRet => Store(SlotRet(e.idx, e.d), cell)
    case LoadTs => Load(Ring(i, TimeStamp))
    case SaveTs => Store(SlotTs(e.idx, e.d), e.v)
    case PushDepth => Store(SlotDepth(e.idx), e.d + 1)
    case Swap => Hook
  }

  /** Where the entry stub goes on; None when it jumps to the trampoline. */
  function EntryNext(c: Config, e: Entry, resp: Word): Option<Entry>
  {
    match e.at
    case Check => if resp == 0 then None else Some(e.(at := LoadBuf))
    case LoadBuf => Some(e.(at := Reserve))
    case Reserve => Some(e.(at := PutPid, i := resp % CAPACITY))
    case PutPid => Some(e.(at := PutProbe))
    case PutProbe => Some(e.(at := PutKind))
    case PutKind => Some(e.(at := PutArg, j := 0))
    case PutArg => if e.j + 1 < 6 then Some(e.(j := e.j + 1)) else Some(e.(at := AskTid))
    case AskTid => Some(e.(at := PutTid, v := resp))
    case PutTid => Some(e.(at := AskClock))
    case AskClock => Some(e.(at := PutTs, ts := resp))
    case PutTs => Some(e.(at := PutRetval))
    case PutRetval => Some(e.(at := PutDuration))
    case PutDuration => if c.hasRet then Some(e.(at := Scan, idx := 0)) else None
    case Scan =>
      if e.idx >= THREADS then None
      else if resp == 0 then Some(e.(at := LoadTid))
      else Some(e.(at := CmpTid, v := resp))
    case CmpTid => if e.v == resp then Some(e.(at := Found)) else Some(e.(at := Scan, idx := e.idx + 1))
    case LoadTid => Some(e.(at := Claim, v := resp))
    case Claim => if resp == 0 then Some(e.(at := Found)) else Some(e.(at := CmpRace, v := resp))
    case CmpRace => if e.v == resp then Some(e.(at := Found)) else Some(e.(at := Scan, idx := e.idx + 1))
    case Found => Some(e.(at := LoadDepth))
    case LoadDepth => if resp >= DEPTH then None else Some(e.(at := SaveRet, d := resp))
    case SaveRet => Some(e.(at := LoadTs))
    case LoadTs => Some(e.(at := SaveTs, v := resp))
    case SaveTs => Some(e.(at := PushDepth))
    case PushDepth => Some(e.(at := Swap))
    case Swap => None
  }

  // ---------------------------------------------------------------- the return stub

  datatype ReturnAt =
    | RTid | RScan | RDepth | RPop | RLoadRet | RLoadBuf | RReserve | RPid | RLoadTid | RPutTid
    | RProbe | RKind | RArg | RRetval | RClock | RTs | RLoadTs | RDuration

  /** Registers of the return stub: `tid` its own thread id, `a` the popped return address,
      `retval` the probed function's result, the others as for the entry stub. */
  datatype Return = Return(at: ReturnAt, tid: Word, idx: nat, d: nat, a: Addr, i: nat, j: nat,
                           v: Word, ts: Word, retval: Word)

  function StartReturn(retval: Word): Return
  {
    Return(RTid, 0, 0, 0, 0, 0, 0, 0, 0, retval)
  }

  /** Subtraction of the `sub rax, rdx` instruction. */
  function Sub64(x: Word, y: Word): Word
  {
    (x - y) % TWO64
  }

  function ReturnRequest(c: Config, r: Return): Action
  {
    var i := r.i;
    match r.at
    case RTid => GetTid
    case RScan => if r.idx >= THREADS then Skip else Load(SlotTid(r.idx))
    case RDepth => Load(SlotDepth(r.idx))
    case RPop => Store(SlotDepth(r.idx), r.d)
    case RLoadRet => Load(SlotRet(r.idx, r.d))
    case RLoadBuf => Load(BufPtr)
    case RReserve => FetchAdd
    case RPid => Store(Ring(i, Pid), c.pid)
    case RLoadTid => Load(SlotTid(r.idx))
    case RPutTid => Store(Ring(i, ThreadId), r.v)
    case RProbe => Store(Ring(i, ProbeId), c.probeId)
    case RKind => Store(Ring(i, Kind), RETURN_EVENT)
    case RArg => Store(Ring(i, Arg(r.j)), 0)
    case RRetval => Store(Ring(i, Retval), r.retval)
    case RClock => Clock
    case RTs => Store(Ring(i, TimeStamp), r.ts)
    case RLoadTs => Load(SlotTs(r.idx, r.d))
    case RDuration => Store(Ring(i, Duration), Sub64(r.ts, r.v))
  }

  datatype ReturnOutcome = Go(r: Return) | Resume(a: Addr) | Trap

  /** Where the return stub goes on: another step, the jump to the popped address, or `ud2`. */
  function ReturnNext(r: Return, resp: Word): ReturnOutcome
  {
    match r.at
    case RTid => Go(r.(at := RScan, tid := resp, idx := 0))
    case RScan =>
      if r.idx >= THREADS then Trap
      else if resp == r.tid then Go(r.(at := RDepth))
      else Go(r.(idx := r.idx + 1))
    case RDepth => if resp == 0 then Trap else Go(r.(at := RPop, d := resp - 1))
    case RPop => Go(r.(at := RLoadRet))
    case RLoadRet => Go(r.(at := RLoadBuf, a := resp))
    case RLoadBuf => Go(r.(at := RReserve))
    case RReserve => Go(r.(at := RPid, i := resp % CAPACITY))
    case RPid => Go(r.(at := RLoadTid))
    case RLoadTid => Go(r.(at := RPutTid, v := resp))
    case RPutTid => Go(r.(at := RProbe))
    case RProbe => Go(r.(at := RKind))
    case RKind => Go(r.(at := RArg, j := 0))
    case RArg => if r.j + 1 < 6 then Go(r.(j := r.j + 1)) else Go(r.(at := RRetval))
    case RRetval => Go(r.(at := RClock))
    case RClock => Go(r.(at := RTs, ts := resp))
    case RTs => Go(r.(at := RLoadTs))
    case RLoadTs => Go(r.(at := RDuration, v := resp))
    case RDuration => Resume(r.a)
  }

  // ---------------------------------------------------------------- history

  /** What became of the call that an entry event belongs to. */
  datatype Fate =
    | Open            // still inside the entry stub
    | Unhooked        // the entry stub left without touching the return cell
    | Pending         // its return address lies on the shadow stack
    | Popped          // taken off by a return stub that has not reserved its own ticket yet
    | Closed(ret: nat) // the ticket of its return event

  /** The append-only log, indexed by ticket: no stub reads it. `ev` is the finished event. */
  datatype Rec =
    | EntryRec(tid: Tid, args: seq<Word>, fate: Fate, ev: Option<Event>)
    | ReturnRec(tid: Tid, entry: nat, retval: Word, ev: Option<Event>)

  type Log = seq<Rec>

  function EntryEvent(c: Config, t: Tid, args: seq<Word>, ts: Word): Event
  {
    Event(ts, c.pid, t, c.probeId, ENTRY_EVENT, args, 0, 0)
  }

  function ReturnEvent(c: Config, t: Tid, retval: Word, ts: Word, duration: Word): Event
  {
    Event(ts, c.pid, t, c.probeId, RETURN_EVENT, [0, 0, 0, 0, 0, 0], retval, duration)
  }

  function SetFate(log: Log, n: nat, f: Fate): Log
  {
    if n < |log| && log[n].EntryRec? then log[n := log[n].(fate := f)] else log
  }

  function SetEvent(log: Log, n: nat, ev: Event): Log
  {
    if n < |log| then log[n := log[n].(ev := Some(ev))] else log
  }

  // ---------------------------------------------------------------- threads and the world

  datatype Mode = User | InEntry(e: Entry) | InReturn(r: Return) | Crashed

  /** `cells` are the return cells of the live calls of the probed function, innermost last, as the
      thread's stack holds them. The rest is history: `ticket` is the last ticket reserved, `pend` the
      entry tickets behind the thread's shadow stack, `popped` the last one taken off. */
  datatype Thread = Thread(mode: Mode, cells: seq<Addr>, ticket: nat, pend: seq<nat>, popped: nat)

  /** All that threads share. `log` and `steady` are history; `steady` says that the clock has never
      been set back. */
  datatype Shared = Shared(m: Mem, log: Log, now: Word, steady: bool)

  datatype World = World(s: Shared, threads: map<Tid, Thread>)

  function Last<T>(s: seq<T>): T
    requires s != []
  {
    s[|s| - 1]
  }

  function Front<T>(s: seq<T>): seq<T>
    requires s != []
  {
    s[..|s| - 1]
  }

  function SetLast<T>(s: seq<T>, v: T): seq<T>
    requires s != []
  {
    s[|s| - 1 := v]
  }

  function EntryLog(c: Config, t: Tid, n: nat, e: Entry, resp: Word, log: Log): Log
  {
    match e.at
    case Reserve => log + [EntryRec(t, e.args, Open, None)]
    case PutDuration =>
      var done := SetEvent(log, n, EntryEvent(c, t, e.args, e.ts));
      if c.hasRet then done else SetFate(done, n, Unhooked)
    case Scan => if e.idx >= THREADS then SetFate(log, n, Unhooked) else log
    case LoadDepth => if resp >= DEPTH then SetFate(log, n, Unhooked) else log
    case PushDepth => SetFate(log, n, Pending)
    case _ => log
  }

  function ReturnLog(c: Config, t: Tid, th: Thread, r: Return, log: Log): Log
  {
    match r.at
    case RPop => if th.pend == [] then log else SetFate(log, Last(th.pend), Popped)
    case RReserve => SetFate(log, th.popped, Closed(|log|)) + [ReturnRec(t, th.popped, r.retval, None)]
    case RDuration => SetEvent(log, th.ticket, ReturnEvent(c, t, r.retval, r.ts, Sub64(r.ts, r.v)))
    case _ => log
  }

  /** One step of a thread inside the entry stub. */
  function EntryStep(c: Config, t: Tid, th: Thread, e: Entry, s: Shared): (Thread, Shared)
  {
    if th.cells == [] then (th.(mode := Crashed), s) else
    var a := EntryRequest(c, e, Last(th.cells));
    if !Safe(a) then (th.(mode := Crashed), s) else
    var (m', resp) := Perform(c, s.m, t, s.now, a);
    var s' := s.(m := m', log := EntryLog(c, t, th.ticket, e, resp, s.log));
    var th' := th.(mode := match EntryNext(c, e, resp) case Some(e') => InEntry(e') case None => User,
                   cells := if a.Hook? then SetLast(th.cells, c.retStub) else th.cells,
                   ticket := if e.at.Reserve? then |s.log| else th.ticket,
                   pend := if e.at.PushDepth? then th.pend + [th.ticket] else th.pend);
    (th', s')
  }

  /** Control arrives at a code address: the return stub, or the program. */
  function Land(c: Config, a: Addr, retval: Word): Mode
  {
    if a == c.retStub then InReturn(StartReturn(retval)) else User
  }

  /** One step of a thread inside the return stub. */
  function ReturnStep(c: Config, t: Tid, th: Thread, r: Return, s: Shared): (Thread, Shared)
  {
    var a := ReturnRequest(c, r);
    if !Safe(a) then (th.(mode := Crashed), s) else
    var (m', resp) := Perform(c, s.m, t, s.now, a);
    var s' := s.(m := m', log := ReturnLog(c, t, th, r, s.log));
    var mode' := match ReturnNext(r, resp)
                 case Go(r') => InReturn(r')
                 case Resume(b) => Land(c, b, r.retval)
                 case Trap => Crashed;
    var pop := r.at.RPop? && th.pend != [];
    (th.(mode := mode',
         ticket := if r.at.RReserve? then |s.log| else th.ticket,
         pend := if pop then Front(th.pend) else th.pend,
         popped := if pop then Last(th.pend) else th.popped), s')
  }

  /** What the scheduler, the program and the controller can do next. */
  datatype Step =
    | Toggle(v: Word)                          // the controller rewrites config.enabled
    | Tick(now: Word)                          // CLOCK_REALTIME moves, or is set
    | Spawn(t: Tid)
    | Exit(t: Tid)
    | Call(t: Tid, ret: Addr, args: seq<Word>) // call of the probed function
    | Tail(t: Tid, args: seq<Word>)            // jump to its entry in place of a return
    | Ret(t: Tid, retval: Word)                // its ret instruction
    | Run(t: Tid)                              // one step inside a stub

  /** The ticket that a thread is still using. */
  function Held(th: Thread): Option<nat>
  {
    match th.mode
    case InEntry(e) => if EntryRank(e.at) >= 3 then Some(th.ticket) else None
    case InReturn(r) => if ReturnRank(r.at) >= 7 then Some(th.ticket) else None
    case _ => None
  }

  /** Position of an entry stub step in program order. */
  function EntryRank(at: EntryAt): nat
  {
    match at
    case Check => 0 case LoadBuf => 1 case Reserve => 2 case PutPid => 3 case PutProbe => 4
    case PutKind => 5 case PutArg => 6 case AskTid => 7 case PutTid => 8 case AskClock => 9
    case PutTs => 10 case PutRetval => 11 case PutDuration => 12 case Scan => 13 case CmpTid => 14
    case LoadTid => 15 case Claim => 16 case CmpRace => 17 case Found => 18 case LoadDepth => 19
    case SaveRet => 20 case LoadTs => 21 case SaveTs => 22 case PushDepth => 23 case Swap => 24
  }

  /** Position of a return stub step in program order. */
  function ReturnRank(at: ReturnAt): nat
  {
    match at
    case RTid => 0 case RScan => 1 case RDepth => 2 case RPop => 3 case RLoadRet => 4
    case RLoadBuf => 5 case RReserve => 6 case RPid => 7 case RLoadTid => 8 case RPutTid => 9
    case RProbe => 10 case RKind => 11 case RArg => 12 case RRetval => 13 case RClock => 14
    case RTs => 15 case RLoadTs => 16 case RDuration => 17
  }

  predicate AtReserve(th: Thread)
  {
    (th.mode.InEntry? && th.mode.e.at.Reserve?) || (th.mode.InReturn? && th.mode.r.at.RReserve?)
  }

  /** The ring has room: nobody still uses the ticket one lap behind the next one. */
  predicate RingRoom(w: World)
  {
    forall u :: u in w.threads && Held(w.threads[u]).Some? ==>
      Held(w.threads[u]).value + CAPACITY != |w.s.log|
  }

  /** Six machine words. */
  predicate Arguments(args: seq<Word>)
  {
    |args| == 6 && forall j :: 0 <= j < 6 ==> args[j] < TWO64
  }

  predicate Allowed(c: Config, w: World, p: Step)
  {
    match p
    case Toggle(v) => v < TWO32
    case Tick(now) => now < TWO64
    case Spawn(t) => 0 < t < TWO32 && t !in w.threads
    case Exit(t) => t in w.threads && w.threads[t].mode.User? && w.threads[t].cells == []
    case Call(t, ret, args) =>
      t in w.threads && w.threads[t].mode.User? && ret != c.retStub && ret < TWO64 && Arguments(args)
    case Tail(t, args) => t in w.threads && w.threads[t].mode.User? && w.threads[t].cells != [] && Arguments(args)
    case Ret(t, retval) => t in w.threads && w.threads[t].mode.User? && w.threads[t].cells != [] && retval < TWO64
    case Run(t) =>
      && t in w.threads
      && (w.threads[t].mode.InEntry? || w.threads[t].mode.InReturn?)
      && (AtReserve(w.threads[t]) ==> RingRoom(w))
  }

  function StubStep(c: Config, t: Tid, th: Thread, s: Shared): (Thread, Shared)
  {
    match th.mode
    case InEntry(e) => EntryStep(c, t, th, e, s)
    case InReturn(r) => ReturnStep(c, t, th, r, s)
    case _ => (th, s)
  }

  function Apply(c: Config, w: World, p: Step): World
    requires Allowed(c, w, p)
  {
    match p
    case Toggle(v) => w.(s := w.s.(m := w.s.m.(enabled := v)))
    case Tick(now) => w.(s := w.s.(now := now, steady := w.s.steady && w.s.now <= now))
    case Spawn(t) => w.(threads := w.threads[t := Thread(User, [], 0, [], 0)])
    case Exit(t) => w.(threads := w.threads - {t})
    case Call(t, ret, args) =>
      var th := w.threads[t];
      w.(threads := w.threads[t := th.(mode := InEntry(StartEntry(args)), cells := th.cells + [ret])])
    case Tail(t, args) =>
      w.(threads := w.threads[t := w.threads[t].(mode := InEntry(StartEntry(args)))])
    case Ret(t, retval) =>
      var th := w.threads[t];
      w.(threads := w.threads[t := th.(mode := Land(c, Last(th.cells), retval), cells := Front(th.cells))])
    case Run(t) =>
      var (th', s') := StubStep(c, t, w.threads[t], w.s);
      World(s', w.threads[t := th'])
  }

  function EmptySlot(): Slot
  {
    Slot(0, 0, seq(DEPTH, i => 0), seq(DEPTH, i => 0))
  }

  function EmptyEvent(): Event
  {
    Event(0, 0, 0, 0, 0, [0, 0, 0, 0, 0, 0], 0, 0)
  }

  /** The runtime area as the controller installs it, no thread inside a probed call. */
  function Init(enabled: Word, now: Word): World
  {
    World(Shared(Mem(enabled, 0, seq(CAPACITY, i => EmptyEvent()), seq(THREADS, k => EmptySlot())),
                 [], now, true), map[])
  }

  predicate Legal(c: Config, w: World, steps: seq<Step>)
    decreases |steps|
  {
    steps == [] || (Allowed(c, w, steps[0]) && Legal(c, Apply(c, w, steps[0]), steps[1..]))
  }

  function Exec(c: Config, w: World, steps: seq<Step>): World
    requires Legal(c, w, steps)
    decreases |steps|
  {
    if steps == [] then w else Exec(c, Apply(c, w, steps[0]), steps[1..])
  }

  // ---------------------------------------------------------------- the unprobed program

  /** What the program can see happen. */
  datatype Seen =
    | Began(t: Tid)
    | Ended(t: Tid)
    | Called(t: Tid, ret: Addr)     // a return address was pushed
    | Returned(t: Tid, to: Addr)    // control came back to the program at this address
    | Killed(t: Tid)                // the ud2 of the return stub, or a wild access

  /** What a step shows to the program. */
  function Show(c: Config, w: World, p: Step): seq<Seen>
    requires Allowed(c, w, p)
  {
    match p
    case Toggle(_) => []
    case Tick(_) => []
    case Spawn(t) => [Began(t)]
    case Exit(t) => [Ended(t)]
    case Call(t, ret, _) => [Called(t, ret)]
    case Tail(t, _) => []
    case Ret(t, _) =>
      var v := Last(w.threads[t].cells);
      if v == c.retStub then [] else [Returned(t, v)]
    case Run(t) =>
      var th := w.threads[t];
      var (th', _) := StubStep(c, t, th, w.s);
      if th'.mode.Crashed? then [Killed(t)]
      else if th.mode.InReturn? && th.mode.r.at.RDuration? && th'.mode.User? then [Returned(t, th.mode.r.a)]
      else []
  }

  function Trace(c: Config, w: World, steps: seq<Step>): seq<Seen>
    requires Legal(c, w, steps)
    decreases |steps|
  {
    if steps == [] then [] else
    Show(c, w, steps[0]) + Trace(c, Apply(c, w, steps[0]), steps[1..])
  }

  /** The unprobed program keeps one stack of return addresses a thread. */
  type Plain = map<Tid, seq<Addr>>

  /** None when an unprobed program could not show this. */
  function PlainStep(p: Plain, l: Seen): Option<Plain>
  {
    match l
    case Began(t) => if t in p then None else Some(p[t := []])
    case Ended(t) => if t in p && p[t] == [] then Some(p - {t}) else None
    case Called(t, ret) => if t in p then Some(p[t := p[t] + [ret]]) else None
    case Returned(t, to) =>
      if t in p && p[t] != [] && Last(p[t]) == to then Some(p[t := Front(p[t])]) else None
    case Killed(t) => None
  }

  /** Runs the unprobed program along a trace. */
  function PlainRun(p: Plain, tr: seq<Seen>): Option<Plain>
    decreases |tr|
  {
    if tr == [] then Some(p) else
    match PlainStep(p, tr[0])
    case None => None
    case Some(q) => PlainRun(q, tr[1..])
  }
}
