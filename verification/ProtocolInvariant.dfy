/** What every step of the probe protocol keeps: one predicate on shared memory and its log, one on
    each thread, and the condition under which steps of other threads leave the latter alone. */
module ProtocolInvariant {
  import opened Wrappers
  import opened Protocol

  // ---------------------------------------------------------------- counting

  function Bit(b: bool): nat
  {
    if b then 1 else 0
  }

  function Count(log: Log, p: Rec -> bool): nat
  {
    if log == [] then 0 else Count(Front(log), p) + Bit(p(Last(log)))
  }

  function SumDepth(slots: seq<Slot>): nat
  {
    if slots == [] then 0 else SumDepth(Front(slots)) + Last(slots).depth
  }

  predicate IsEntry(r: Rec) { r.EntryRec? }
  predicate IsReturn(r: Rec) { r.ReturnRec? }
  predicate IsOpen(r: Rec) { r.EntryRec? && r.fate.Open? }
  predicate IsUnhooked(r: Rec) { r.EntryRec? && r.fate.Unhooked? }
  predicate IsPending(r: Rec) { r.EntryRec? && r.fate.Pending? }
  predicate IsPopped(r: Rec) { r.EntryRec? && r.fate.Popped? }
  predicate IsClosed(r: Rec) { r.EntryRec? && r.fate.Closed? }

  lemma {:induction false} CountUpdate(log: Log, n: nat, r: Rec, p: Rec -> bool)
    requires n < |log|
    ensures Count(log[n := r], p) + Bit(p(log[n])) == Count(log, p) + Bit(p(r))
  {
    var upd := log[n := r];
    if n == |log| - 1 {
      assert Front(upd) == Front(log);
    } else {
      assert Front(upd) == Front(log)[n := r];
      CountUpdate(Front(log), n, r, p);
    }
  }

  lemma CountAppend(log: Log, r: Rec, p: Rec -> bool)
    ensures Count(log + [r], p) == Count(log, p) + Bit(p(r))
  {
    assert Front(log + [r]) == log;
  }

  lemma {:induction false} SumUpdate(slots: seq<Slot>, k: nat, s: Slot)
    requires k < |slots|
    ensures SumDepth(slots[k := s]) + slots[k].depth == SumDepth(slots) + s.depth
  {
    var upd := slots[k := s];
    if k == |slots| - 1 {
      assert Front(upd) == Front(slots);
    } else {
      assert Front(upd) == Front(slots)[k := s];
      SumUpdate(Front(slots), k, s);
    }
  }

  // ---------------------------------------------------------------- shadow stacks

  /** The first slot owned by a thread, or -1. */
  function HomeFrom(slots: seq<Slot>, t: Tid, k: nat): (h: int)
    requires k <= |slots|
    ensures h == -1 || k <= h < |slots|
    ensures h >= 0 ==> slots[h].tid == t && forall j :: k <= j < h ==> slots[j].tid != t
    ensures h < 0 ==> forall j :: k <= j < |slots| ==> slots[j].tid != t
    decreases |slots| - k
  {
    if k == |slots| then -1
    else if slots[k].tid == t then k
    else HomeFrom(slots, t, k + 1)
  }

  function Home(slots: seq<Slot>, t: Tid): (h: int)
    ensures h == -1 || 0 <= h < |slots|
    ensures h >= 0 ==> slots[h].tid == t && forall j :: 0 <= j < h ==> slots[j].tid != t
    ensures h < 0 ==> forall j :: 0 <= j < |slots| ==> slots[j].tid != t
  {
    HomeFrom(slots, t, 0)
  }

  /** The thread's shadow stack, innermost entry last. */
  function Shadow(slots: seq<Slot>, t: Tid): seq<Addr>
  {
    var h := Home(slots, t);
    if h >= 0 && slots[h].depth <= |slots[h].rets| then slots[h].rets[..slots[h].depth] else []
  }

  function DepthOf(slots: seq<Slot>, t: Tid): nat
  {
    var h := Home(slots, t);
    if h >= 0 then slots[h].depth else 0
  }

  /** Reading a hooked return cell through the shadow stack gives the program's own address: a cell
      holding the stub address stands for the topmost shadow entry, and again for the one below
      when that entry is itself the stub address (a probed function entered by a jump). */
  ghost predicate Resolves(stub: Addr, cells: seq<Addr>, shadow: seq<Addr>, plain: seq<Addr>)
    decreases |cells| + |shadow|
  {
    if cells == [] then shadow == [] && plain == []
    else if Last(cells) != stub then
      plain != [] && Last(plain) == Last(cells) && Resolves(stub, Front(cells), shadow, Front(plain))
    else
      && shadow != []
      && if Last(shadow) == stub then Resolves(stub, cells, Front(shadow), plain)
         else plain != [] && Last(plain) == Last(shadow)
              && Resolves(stub, Front(cells), Front(shadow), Front(plain))
  }

  /** Hooking: the innermost cell moves to the shadow stack and the stub address takes its place. */
  lemma HookResolves(stub: Addr, cells: seq<Addr>, shadow: seq<Addr>, plain: seq<Addr>)
    requires cells != [] && Resolves(stub, cells, shadow, plain)
    ensures Resolves(stub, SetLast(cells, stub), shadow + [Last(cells)], plain)
  {
    var cells' := SetLast(cells, stub);
    var shadow' := shadow + [Last(cells)];
    assert Front(cells') == Front(cells) && Last(cells') == stub;
    assert Front(shadow') == shadow && Last(shadow') == Last(cells);
    if Last(cells) == stub {
      assert cells' == cells;
    }
  }

  /** Unhooking: the popped address stands in the returning call's cell again. */
  lemma PopResolves(stub: Addr, cells: seq<Addr>, shadow: seq<Addr>, plain: seq<Addr>)
    requires Resolves(stub, cells + [stub], shadow, plain)
    ensures shadow != []
    ensures Resolves(stub, cells + [Last(shadow)], Front(shadow), plain)
  {
    var a := Last(shadow);
    assert Front(cells + [stub]) == cells && Last(cells + [stub]) == stub;
    assert Front(cells + [a]) == cells && Last(cells + [a]) == a;
  }

  lemma CallResolves(stub: Addr, cells: seq<Addr>, shadow: seq<Addr>, plain: seq<Addr>, ret: Addr)
    requires Resolves(stub, cells, shadow, plain) && ret != stub
    ensures Resolves(stub, cells + [ret], shadow, plain + [ret])
  {
    assert Front(cells + [ret]) == cells && Front(plain + [ret]) == plain;
  }

  lemma ReturnResolves(stub: Addr, cells: seq<Addr>, shadow: seq<Addr>, plain: seq<Addr>, to: Addr)
    requires to != stub && Resolves(stub, cells + [to], shadow, plain)
    ensures plain != [] && Last(plain) == to && Resolves(stub, cells, shadow, Front(plain))
  {
    assert Front(cells + [to]) == cells && Last(cells + [to]) == to;
  }

  lemma RefillCells(cells: seq<Addr>)
    requires cells != []
    ensures Front(cells) + [Last(cells)] == cells
  {
  }

  // ---------------------------------------------------------------- shared memory and log

  ghost predicate SlotInv(slots: seq<Slot>)
  {
    && |slots| == THREADS
    && (forall k :: 0 <= k < THREADS ==> ShapedSlot(slots[k]))
    && (forall k :: 0 <= k < THREADS && slots[k].tid == 0 ==> slots[k].depth == 0)
    && (forall j, k :: 0 <= j < k < THREADS && slots[k].tid != 0 ==> slots[j].tid != 0)
    && (forall j, k :: 0 <= j < k < THREADS && slots[k].tid != 0 ==> slots[j].tid != slots[k].tid)
  }

  /** A finished event stays readable in its ring cell for one lap. */
  ghost predicate RingInv(ring: seq<Event>, log: Log)
  {
    && |ring| == CAPACITY
    && (forall i :: 0 <= i < CAPACITY ==> |ring[i].args| == 6)
    && (forall n :: 0 <= n < |log| && |log| <= n + CAPACITY && log[n].ev.Some? ==>
          ring[n % CAPACITY] == log[n].ev.value)
  }

  ghost predicate RecOk(c: Config, log: Log, n: nat)
    requires n < |log|
  {
    match log[n]
    case EntryRec(t, args, fate, ev) =>
      && |args| == 6
      && (ev.Some? ==> ev.value == EntryEvent(c, t, args, ev.value.ts))
      && (!fate.Open? ==> ev.Some?)
      && (fate.Closed? ==> n < fate.ret < |log| && log[fate.ret].ReturnRec? && log[fate.ret].entry == n)
    case ReturnRec(t, entry, retval, ev) =>
      && entry < n
      && log[entry].EntryRec? && log[entry].tid == t && log[entry].fate == Closed(n)
      && log[entry].ev.Some?
      && (ev.Some? ==> ev.value == ReturnEvent(c, t, retval, ev.value.ts,
                                               Sub64(ev.value.ts, log[entry].ev.value.ts)))
  }

  ghost predicate LogInv(c: Config, log: Log)
  {
    forall n :: 0 <= n < |log| ==> RecOk(c, log, n)
  }

  /** An entry reserved between another entry of its thread and that one's return is done with
      before that return. */
  ghost predicate NestInv(log: Log)
  {
    forall e1, e2 | 0 <= e1 < e2 < |log| && IsClosed(log[e1]) && log[e2].EntryRec?
                    && log[e2].tid == log[e1].tid && e2 < log[e1].fate.ret ::
      IsUnhooked(log[e2]) || (IsClosed(log[e2]) && log[e2].fate.ret < log[e1].fate.ret)
  }

  ghost predicate TimeInv(log: Log, now: Word, steady: bool)
  {
    && now < TWO64
    && (forall n :: 0 <= n < |log| && log[n].ev.Some? ==> log[n].ev.value.ts < TWO64)
    && (steady ==> forall n :: 0 <= n < |log| && log[n].ev.Some? ==> log[n].ev.value.ts <= now)
    && (steady ==> forall m, n | 0 <= m < n < |log| && log[m].ev.Some? && log[n].ev.Some? &&
                                 log[m].tid == log[n].tid :: log[m].ev.value.ts <= log[n].ev.value.ts)
  }

  ghost predicate CountInv(slots: seq<Slot>, log: Log)
  {
    && SumDepth(slots) == Count(log, IsPending)
    && Count(log, IsClosed) == Count(log, IsReturn)
  }

  ghost predicate MemInv(c: Config, s: Shared)
  {
    && SlotInv(s.m.slots)
    && RingInv(s.m.ring, s.log)
    && s.m.index == |s.log| % TWO64
    && LogInv(c, s.log)
    && NestInv(s.log)
    && TimeInv(s.log, s.now, s.steady)
    && CountInv(s.m.slots, s.log)
  }

  // ---------------------------------------------------------------- one thread

  /** The thread's records that are not finished with are the ones it is working on. */
  ghost predicate OwnRecords(t: Tid, th: Thread, log: Log)
  {
    forall n :: 0 <= n < |log| && log[n].tid == t ==>
      && (log[n].ev.None? ==> Held(th) == Some(n))
      && (IsOpen(log[n]) ==> Held(th) == Some(n) && th.mode.InEntry?)
      && (IsPending(log[n]) ==> n in th.pend)
      && (IsPopped(log[n]) ==> th.popped == n && th.mode.InReturn? && 4 <= ReturnRank(th.mode.r.at) <= 6)
  }

  ghost predicate PendOk(t: Tid, n: nat, ts: Word, log: Log)
  {
    n < |log| && log[n].tid == t && IsPending(log[n]) && log[n].ev.Some? && log[n].ev.value.ts == ts
  }

  /** The entry tickets behind the thread's shadow stack. */
  ghost predicate PendInv(t: Tid, pend: seq<nat>, slots: seq<Slot>, log: Log)
  {
    var h := Home(slots, t);
    && |pend| == DepthOf(slots, t)
    && (h >= 0 ==> |slots[h].tss| == DEPTH && slots[h].depth <= DEPTH)
    && (forall j :: 0 <= j < |pend| ==> PendOk(t, pend[j], slots[h].tss[j], log))
    && (forall i, j :: 0 <= i < j < |pend| ==> pend[i] < pend[j])
  }

  /** A reserved ticket: its ring cell is the thread's own, and it is the thread's latest. */
  ghost predicate Holding(t: Tid, n: nat, log: Log)
  {
    && n < |log| <= n + CAPACITY
    && log[n].tid == t
    && (forall m :: n < m < |log| ==> log[m].tid != t)
  }

  /** A time the thread has read is no earlier than its finished events. */
  ghost predicate Fresh(t: Tid, n: nat, ts: Word, s: Shared)
  {
    && ts < TWO64
    && (s.steady ==> ts <= s.now)
    && (s.steady ==> forall m :: 0 <= m < |s.log| && m < n && s.log[m].tid == t && s.log[m].ev.Some? ==>
          s.log[m].ev.value.ts <= ts)
  }

  /** The fields of its event that the entry stub has stored so far. */
  ghost predicate EntryWritten(c: Config, t: Tid, e: Entry, cell: Event)
  {
    var k := EntryRank(e.at);
    && |cell.args| == 6 && |e.args| == 6
    && (k > 3 ==> cell.pid == c.pid)
    && (k > 4 ==> cell.probeId == c.probeId)
    && (k > 5 ==> cell.kind == ENTRY_EVENT)
    && (k == 6 ==> e.j < 6 && forall i :: 0 <= i < e.j ==> cell.args[i] == e.args[i])
    && (k > 6 ==> cell.args == e.args)
    && (k > 8 ==> cell.tid == t)
    && (k > 10 ==> cell.ts == e.ts)
    && (k > 11 ==> cell.retval == 0)
    && (k > 12 ==> cell.duration == 0)
  }

  /** Every slot before `idx` belongs to another thread. */
  ghost predicate Scanned(t: Tid, slots: seq<Slot>, idx: nat)
  {
    forall k :: 0 <= k < idx && k < |slots| ==> slots[k].tid != 0 && slots[k].tid != t
  }

  ghost predicate EntryInv(c: Config, t: Tid, th: Thread, e: Entry, s: Shared)
    requires th.cells != [] && SlotInv(s.m.slots) && RingInv(s.m.ring, s.log)
  {
    var k := EntryRank(e.at);
    var slots := s.m.slots;
    var n := th.ticket;
    && |e.args| == 6
    && (k >= 3 ==> Holding(t, n, s.log) && s.log[n].EntryRec? && s.log[n].args == e.args)
    && (k >= 3 ==> e.i == n % CAPACITY && EntryWritten(c, t, e, s.m.ring[e.i]))
    && (3 <= k < 24 ==> s.log[n].fate.Open?)
    && (k == 24 ==> s.log[n].fate.Pending?)
    && (3 <= k <= 12 ==> s.log[n].ev.None?)
    && (k > 12 ==> c.hasRet && s.log[n].ev == Some(EntryEvent(c, t, e.args, e.ts)))
    && (k == 8 ==> e.v == t)
    && (10 <= k <= 12 ==> Fresh(t, n, e.ts, s))
    && (13 <= k <= 17 ==> e.idx <= THREADS && Scanned(t, slots, e.idx))
    && (k > 13 ==> e.idx < THREADS)
    && (k == 14 || k == 17 ==> e.v == slots[e.idx].tid != 0)
    && (k == 16 ==> e.v == t)
    && (k >= 18 ==> slots[e.idx].tid == t)
    && (20 <= k <= 23 ==> e.d == slots[e.idx].depth < DEPTH)
    && (21 <= k <= 23 ==> slots[e.idx].rets[e.d] == Last(th.cells))
    && (k == 22 ==> e.v == e.ts)
    && (k == 23 ==> slots[e.idx].tss[e.d] == e.ts)
  }

  /** The fields of its event that the return stub has stored so far. */
  ghost predicate ReturnWritten(c: Config, t: Tid, r: Return, cell: Event)
  {
    var k := ReturnRank(r.at);
    && |cell.args| == 6
    && (k > 7 ==> cell.pid == c.pid)
    && (k > 9 ==> cell.tid == t)
    && (k > 10 ==> cell.probeId == c.probeId)
    && (k > 11 ==> cell.kind == RETURN_EVENT)
    && (k == 12 ==> r.j < 6 && forall i :: 0 <= i < r.j ==> cell.args[i] == 0)
    && (k > 12 ==> cell.args == [0, 0, 0, 0, 0, 0])
    && (k > 13 ==> cell.retval == r.retval)
    && (k > 15 ==> cell.ts == r.ts)
  }

  ghost predicate ReturnInv(c: Config, t: Tid, th: Thread, r: Return, s: Shared)
    requires SlotInv(s.m.slots) && RingInv(s.m.ring, s.log)
  {
    var k := ReturnRank(r.at);
    var slots := s.m.slots;
    && (k >= 1 ==> r.tid == t)
    && (k == 1 ==> r.idx <= THREADS && Scanned'(t, slots, r.idx))
    && (k >= 2 ==> r.idx < THREADS && slots[r.idx].tid == t)
    && (k == 3 ==> r.d + 1 == slots[r.idx].depth)
    && (k >= 4 ==> r.d == slots[r.idx].depth < DEPTH)
    && (k >= 4 ==> th.popped < |s.log| && s.log[th.popped].EntryRec? && s.log[th.popped].tid == t)
    && (k >= 4 ==> s.log[th.popped].ev.Some? && s.log[th.popped].ev.value.ts == slots[r.idx].tss[r.d])
    && (4 <= k <= 6 ==> s.log[th.popped].fate.Popped?)
    && (4 <= k <= 6 ==> forall j :: 0 <= j < |th.pend| ==> th.pend[j] < th.popped)
    && (k >= 7 ==> Holding(t, th.ticket, s.log) && s.log[th.ticket] == ReturnRec(t, th.popped, r.retval, None))
    && (k >= 7 ==> r.i == th.ticket % CAPACITY && ReturnWritten(c, t, r, s.m.ring[r.i]))
    && (k == 9 ==> r.v == t)
    && (k >= 15 ==> Fresh(t, th.ticket, r.ts, s))
    && (k == 17 ==> r.v == s.log[th.popped].ev.value.ts)
  }

  ghost predicate Scanned'(t: Tid, slots: seq<Slot>, idx: nat)
  {
    forall k :: 0 <= k < idx && k < |slots| ==> slots[k].tid != t
  }

  /** What the returning call's cell stands for: the stub address until its shadow entry is popped. */
  function ReturnTop(c: Config, r: Return, slots: seq<Slot>): Addr
  {
    var k := ReturnRank(r.at);
    if k < 4 then c.retStub
    else if k == 4 then Read(c, Mem(0, 0, [], slots), SlotRet(r.idx, r.d))
    else r.a
  }

  /** The return cells, with a half-done hook or unhook completed. */
  function CellsOf(c: Config, th: Thread, slots: seq<Slot>): seq<Addr>
  {
    match th.mode
    case InEntry(e) => if e.at.Swap? && th.cells != [] then SetLast(th.cells, c.retStub) else th.cells
    case InReturn(r) => th.cells + [ReturnTop(c, r, slots)]
    case _ => th.cells
  }

  ghost predicate ThreadInv(c: Config, t: Tid, th: Thread, s: Shared, plain: seq<Addr>)
    requires SlotInv(s.m.slots) && RingInv(s.m.ring, s.log)
  {
    && 0 < t < TWO32
    && OwnRecords(t, th, s.log)
    && PendInv(t, th.pend, s.m.slots, s.log)
    && Resolves(c.retStub, CellsOf(c, th, s.m.slots), Shadow(s.m.slots, t), plain)
    && match th.mode
       case User => true
       case InEntry(e) => th.cells != [] && EntryInv(c, t, th, e, s)
       case InReturn(r) => ReturnInv(c, t, th, r, s)
       case Crashed => false
  }

  // ---------------------------------------------------------------- interference

  /** What a thread may rely on when another one moves. */
  ghost predicate Rely(u: Tid, th: Thread, s: Shared, s': Shared)
    requires SlotInv(s.m.slots) && SlotInv(s'.m.slots) && |s.m.ring| == |s'.m.ring| == CAPACITY
  {
    && (forall k :: 0 <= k < THREADS && s.m.slots[k].tid != 0 ==> s'.m.slots[k].tid == s.m.slots[k].tid)
    && (forall k :: 0 <= k < THREADS && s.m.slots[k].tid == u ==> s'.m.slots[k] == s.m.slots[k])
    && (forall k :: 0 <= k < THREADS && s'.m.slots[k].tid == u ==> s.m.slots[k].tid == u)
    && |s.log| <= |s'.log|
    && (forall n :: 0 <= n < |s.log| && s.log[n].tid == u ==> s'.log[n] == s.log[n])
    && (forall n :: 0 <= n < |s'.log| && s'.log[n].tid == u ==> n < |s.log| && s.log[n].tid == u)
    && (Held(th).Some? ==>
          && s'.m.ring[Held(th).value % CAPACITY] == s.m.ring[Held(th).value % CAPACITY]
          && |s'.log| <= Held(th).value + CAPACITY)
    && (s'.steady ==> s.steady && s.now <= s'.now)
  }

  lemma SameHome(u: Tid, th: Thread, s: Shared, s': Shared)
    requires SlotInv(s.m.slots) && SlotInv(s'.m.slots) && |s.m.ring| == |s'.m.ring| == CAPACITY
    requires Rely(u, th, s, s')
    ensures Home(s'.m.slots, u) == Home(s.m.slots, u)
    ensures Shadow(s'.m.slots, u) == Shadow(s.m.slots, u)
  {
    var h, h' := Home(s.m.slots, u), Home(s'.m.slots, u);
    if h >= 0 {
      assert s'.m.slots[h].tid == u;
    }
    if h' >= 0 {
      assert s.m.slots[h'].tid == u;
    }
  }

  lemma ReservedStable(c: Config, u: Tid, th: Thread, n: nat, s: Shared, s': Shared)
    requires SlotInv(s.m.slots) && SlotInv(s'.m.slots)
    requires RingInv(s.m.ring, s.log) && RingInv(s'.m.ring, s'.log)
    requires Rely(u, th, s, s') && Held(th) == Some(n) && Holding(u, n, s.log)
    ensures Holding(u, n, s'.log)
    ensures s'.log[n] == s.log[n]
    ensures s'.m.ring[n % CAPACITY] == s.m.ring[n % CAPACITY]
    ensures forall ts :: Fresh(u, n, ts, s) ==> Fresh(u, n, ts, s')
  {
  }

  lemma OwnStable(u: Tid, th: Thread, s: Shared, s': Shared)
    requires SlotInv(s.m.slots) && SlotInv(s'.m.slots) && |s.m.ring| == |s'.m.ring| == CAPACITY
    requires Rely(u, th, s, s')
    requires OwnRecords(u, th, s.log) && PendInv(u, th.pend, s.m.slots, s.log)
    ensures OwnRecords(u, th, s'.log) && PendInv(u, th.pend, s'.m.slots, s'.log)
  {
    SameHome(u, th, s, s');
    forall j | 0 <= j < |th.pend|
      ensures PendOk(u, th.pend[j], s'.m.slots[Home(s.m.slots, u)].tss[j], s'.log)
    {
      assert PendOk(u, th.pend[j], s.m.slots[Home(s.m.slots, u)].tss[j], s.log);
    }
  }

  lemma EntryStable(c: Config, u: Tid, th: Thread, e: Entry, s: Shared, s': Shared)
    requires SlotInv(s.m.slots) && SlotInv(s'.m.slots)
    requires RingInv(s.m.ring, s.log) && RingInv(s'.m.ring, s'.log)
    requires Rely(u, th, s, s') && th.mode == InEntry(e) && th.cells != []
    requires EntryInv(c, u, th, e, s)
    ensures EntryInv(c, u, th, e, s')
  {
    if EntryRank(e.at) >= 3 {
      ReservedStable(c, u, th, th.ticket, s, s');
    }
  }

  lemma ReturnStable(c: Config, u: Tid, th: Thread, r: Return, s: Shared, s': Shared)
    requires SlotInv(s.m.slots) && SlotInv(s'.m.slots)
    requires RingInv(s.m.ring, s.log) && RingInv(s'.m.ring, s'.log)
    requires Rely(u, th, s, s') && th.mode == InReturn(r)
    requires ReturnInv(c, u, th, r, s)
    ensures ReturnInv(c, u, th, r, s')
    ensures ReturnTop(c, r, s'.m.slots) == ReturnTop(c, r, s.m.slots)
  {
    if ReturnRank(r.at) >= 7 {
      ReservedStable(c, u, th, th.ticket, s, s');
    }
  }

  /** A thread's invariant survives whatever it may rely on. */
  lemma ThreadStable(c: Config, u: Tid, th: Thread, s: Shared, s': Shared, plain: seq<Addr>)
    requires SlotInv(s.m.slots) && SlotInv(s'.m.slots)
    requires RingInv(s.m.ring, s.log) && RingInv(s'.m.ring, s'.log)
    requires ThreadInv(c, u, th, s, plain) && Rely(u, th, s, s')
    ensures ThreadInv(c, u, th, s', plain)
  {
    SameHome(u, th, s, s');
    OwnStable(u, th, s, s');
    match th.mode {
      case User =>
      case InEntry(e) => EntryStable(c, u, th, e, s, s');
      case InReturn(r) => ReturnStable(c, u, th, r, s, s');
      case Crashed =>
    }
  }
}
