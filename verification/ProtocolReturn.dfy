/** Every step of the return stub keeps the shared invariant and the thread's own; it never traps
    and it lands where the program would have returned. */
module ProtocolReturn {
  import opened Wrappers
  import opened Protocol
  import opened ProtocolInvariant
  import opened ProtocolMemory
  import opened ProtocolEntry

  ghost predicate ReturnPre(c: Config, t: Tid, th: Thread, r: Return, s: Shared)
  {
    && th.mode == InReturn(r) && 0 < t < TWO32
    && SlotInv(s.m.slots) && RingInv(s.m.ring, s.log)
    && OwnRecords(t, th, s.log) && PendInv(t, th.pend, s.m.slots, s.log)
    && ReturnInv(c, t, th, r, s)
    && (ReturnRank(r.at) < 4 ==> DepthOf(s.m.slots, t) > 0)
  }

  /** While the return cell still stands for the stub, the thread has a shadow entry to pop. */
  lemma StubHasShadow(c: Config, t: Tid, th: Thread, r: Return, s: Shared, plain: seq<Addr>)
    requires MemInv(c, s) && ThreadInv(c, t, th, s, plain) && th.mode == InReturn(r)
    ensures ReturnPre(c, t, th, r, s)
  {
    if ReturnRank(r.at) < 4 {
      PopResolves(c.retStub, th.cells, Shadow(s.m.slots, t), plain);
    }
  }

  // ---------------------------------------------------------------- shared memory

  ghost predicate ReturnMem(c: Config, t: Tid, th: Thread, r: Return, s: Shared)
    requires MemInv(c, s)
  {
    var s' := ReturnStep(c, t, th, r, s).1;
    MemInv(c, s') && Guar(t, Held(th), s, s') && (|s'.log| > |s.log| ==> r.at.RReserve?)
  }

  lemma ReturnLookMem(c: Config, t: Tid, th: Thread, r: Return, s: Shared)
    requires ReturnPre(c, t, th, r, s) && MemInv(c, s)
    requires r.at in {RTid, RScan, RDepth, RLoadRet, RLoadBuf, RLoadTid, RClock, RLoadTs}
    ensures ReturnMem(c, t, th, r, s)
  {
    hide MemInv, Guar, OwnRecords, PendInv;
    GuarIdle(c, t, Held(th), s);
    assert ReturnStep(c, t, th, r, s).1 == s;
  }

  lemma ReturnPutMem(c: Config, t: Tid, th: Thread, r: Return, s: Shared)
    requires ReturnPre(c, t, th, r, s) && MemInv(c, s)
    requires r.at in {RPid, RPutTid, RProbe, RKind, RArg, RRetval, RTs}
    ensures ReturnMem(c, t, th, r, s)
  {
    hide MemInv, Guar, OwnRecords, PendInv, SlotInv, LogInv;
    var a := ReturnRequest(c, r);
    var cell := SetField(s.m.ring[r.i], a.loc.f, a.v);
    PutKeeps(c, t, th.ticket, s, cell);
    assert ReturnStep(c, t, th, r, s).1 == Put(s, th.ticket, cell);
  }

  lemma ReturnFinishMem(c: Config, t: Tid, th: Thread, r: Return, s: Shared)
    requires ReturnPre(c, t, th, r, s) && MemInv(c, s)
    requires r.at.RDuration?
    ensures ReturnMem(c, t, th, r, s)
  {
    hide MemInv, Guar, OwnRecords, PendInv;
    var duration := Sub64(r.ts, r.v);
    var cell := SetField(s.m.ring[r.i], Duration, duration);
    assert cell == ReturnEvent(c, t, r.retval, r.ts, duration);
    FinishReturnKeeps(c, t, th.ticket, r.ts, s, cell);
    assert ReturnStep(c, t, th, r, s).1.log == s.log[th.ticket := ReturnRec(t, th.popped, r.retval, Some(cell))];
  }

  lemma ReturnPopMem(c: Config, t: Tid, th: Thread, r: Return, s: Shared)
    requires ReturnPre(c, t, th, r, s) && MemInv(c, s)
    requires r.at.RPop?
    ensures ReturnMem(c, t, th, r, s)
  {
    hide MemInv, Guar, OwnRecords;
    HomeIs(t, s.m.slots, r.idx);
    assert PendOk(t, Last(th.pend), s.m.slots[r.idx].tss[|th.pend| - 1], s.log);
    PopKeeps(c, t, Held(th), r.idx, Last(th.pend), s);
  }

  /** By the time a popped entry is closed, the thread is done with all its later entries. */
  lemma LaterEntriesDone(c: Config, t: Tid, th: Thread, r: Return, s: Shared)
    requires ReturnPre(c, t, th, r, s) && r.at.RReserve?
    ensures forall m :: th.popped < m < |s.log| && s.log[m].tid == t && s.log[m].EntryRec? ==>
              IsUnhooked(s.log[m]) || IsClosed(s.log[m])
  {
  }

  lemma ReturnReserveMem(c: Config, t: Tid, th: Thread, r: Return, s: Shared)
    requires ReturnPre(c, t, th, r, s) && MemInv(c, s)
    requires r.at.RReserve?
    ensures ReturnMem(c, t, th, r, s)
  {
    hide MemInv, Guar, OwnRecords, PendInv;
    LaterEntriesDone(c, t, th, r, s);
    ReserveReturnKeeps(c, t, Held(th), th.popped, r.retval, s);
  }

  lemma ReturnMemKept(c: Config, t: Tid, th: Thread, r: Return, s: Shared)
    requires ReturnPre(c, t, th, r, s) && MemInv(c, s)
    ensures ReturnMem(c, t, th, r, s)
  {
    hide MemInv, ReturnMem, ReturnStep, ReturnPre;
    match r.at {
      case RPop => ReturnPopMem(c, t, th, r, s);
      case RReserve => ReturnReserveMem(c, t, th, r, s);
      case RDuration => ReturnFinishMem(c, t, th, r, s);
      case _ =>
        if r.at in {RPid, RPutTid, RProbe, RKind, RArg, RRetval, RTs} { ReturnPutMem(c, t, th, r, s); }
        else { ReturnLookMem(c, t, th, r, s); }
    }
  }

  // ---------------------------------------------------------------- registers

  ghost predicate ReturnRegs(c: Config, t: Tid, th: Thread, r: Return, s: Shared)
  {
    var (th', s') := ReturnStep(c, t, th, r, s);
    && th'.mode.InReturn?
    && (SlotInv(s'.m.slots) && RingInv(s'.m.ring, s'.log) ==> ReturnInv(c, t, th', th'.mode.r, s'))
  }

  lemma ReturnScanRegs(c: Config, t: Tid, th: Thread, r: Return, s: Shared)
    requires ReturnPre(c, t, th, r, s)
    requires r.at.RTid? || r.at.RScan?
    ensures ReturnRegs(c, t, th, r, s)
  {
    hide OwnRecords, PendInv;
  }

  lemma ReturnDepthRegs(c: Config, t: Tid, th: Thread, r: Return, s: Shared)
    requires ReturnPre(c, t, th, r, s)
    requires r.at.RDepth?
    ensures ReturnRegs(c, t, th, r, s)
  {
    hide OwnRecords, PendInv;
    HomeIs(t, s.m.slots, r.idx);
  }

  lemma ReturnLoadRegs(c: Config, t: Tid, th: Thread, r: Return, s: Shared)
    requires ReturnPre(c, t, th, r, s)
    requires r.at.RLoadRet? || r.at.RLoadBuf?
    ensures ReturnRegs(c, t, th, r, s)
  {
    hide OwnRecords, PendInv;
  }

  lemma ReturnClockRegs(c: Config, t: Tid, th: Thread, r: Return, s: Shared)
    requires ReturnPre(c, t, th, r, s) && TimeInv(s.log, s.now, s.steady)
    requires r.at.RClock? || r.at.RLoadTid?
    ensures ReturnRegs(c, t, th, r, s)
  {
    hide OwnRecords, PendInv;
  }

  lemma ReturnEntryRegs(c: Config, t: Tid, th: Thread, r: Return, s: Shared)
    requires ReturnPre(c, t, th, r, s)
    requires r.at.RLoadTs?
    ensures ReturnRegs(c, t, th, r, s)
  {
    hide OwnRecords, PendInv;
  }

  lemma ReturnPopRegs(c: Config, t: Tid, th: Thread, r: Return, s: Shared)
    requires ReturnPre(c, t, th, r, s)
    requires r.at.RPop?
    ensures ReturnRegs(c, t, th, r, s)
  {
    hide OwnRecords;
    HomeIs(t, s.m.slots, r.idx);
    assert PendOk(t, Last(th.pend), s.m.slots[r.idx].tss[|th.pend| - 1], s.log);
  }

  lemma ReturnReserveRegs(c: Config, t: Tid, th: Thread, r: Return, s: Shared)
    requires ReturnPre(c, t, th, r, s) && s.m.index == |s.log| % TWO64
    requires r.at.RReserve?
    ensures ReturnRegs(c, t, th, r, s)
  {
    hide OwnRecords, PendInv;
    TicketMask(|s.log|);
  }

  lemma ReturnHeadRegs(c: Config, t: Tid, th: Thread, r: Return, s: Shared)
    requires ReturnPre(c, t, th, r, s)
    requires r.at.RPid? || r.at.RPutTid?
    ensures ReturnRegs(c, t, th, r, s)
  {
    hide OwnRecords, PendInv;
  }

  lemma ReturnKindRegs(c: Config, t: Tid, th: Thread, r: Return, s: Shared)
    requires ReturnPre(c, t, th, r, s)
    requires r.at.RProbe? || r.at.RKind?
    ensures ReturnRegs(c, t, th, r, s)
  {
    hide OwnRecords, PendInv;
  }

  lemma ReturnArgsRegs(c: Config, t: Tid, th: Thread, r: Return, s: Shared)
    requires ReturnPre(c, t, th, r, s)
    requires r.at.RArg?
    ensures ReturnRegs(c, t, th, r, s)
  {
    hide OwnRecords, PendInv;
  }

  lemma ReturnTailRegs(c: Config, t: Tid, th: Thread, r: Return, s: Shared)
    requires ReturnPre(c, t, th, r, s)
    requires r.at.RRetval? || r.at.RTs?
    ensures ReturnRegs(c, t, th, r, s)
  {
    hide OwnRecords, PendInv;
  }

  lemma ReturnRegsKept(c: Config, t: Tid, th: Thread, r: Return, s: Shared)
    requires ReturnPre(c, t, th, r, s) && MemInv(c, s) && !r.at.RDuration?
    ensures ReturnRegs(c, t, th, r, s)
  {
    hide ReturnRegs, ReturnPre, ReturnStep, SlotInv, RingInv, LogInv, NestInv, CountInv, TimeInv;
    match r.at {
      case RTid => ReturnScanRegs(c, t, th, r, s);
      case RScan => ReturnScanRegs(c, t, th, r, s);
      case RDepth => ReturnDepthRegs(c, t, th, r, s);
      case RLoadRet => ReturnLoadRegs(c, t, th, r, s);
      case RLoadBuf => ReturnLoadRegs(c, t, th, r, s);
      case RClock => ReturnClockRegs(c, t, th, r, s);
      case RLoadTid => ReturnClockRegs(c, t, th, r, s);
      case RLoadTs => ReturnEntryRegs(c, t, th, r, s);
      case RPop => ReturnPopRegs(c, t, th, r, s);
      case RReserve => ReturnReserveRegs(c, t, th, r, s);
      case RPid => ReturnHeadRegs(c, t, th, r, s);
      case RPutTid => ReturnHeadRegs(c, t, th, r, s);
      case RProbe => ReturnKindRegs(c, t, th, r, s);
      case RKind => ReturnKindRegs(c, t, th, r, s);
      case RArg => ReturnArgsRegs(c, t, th, r, s);
      case RRetval => ReturnTailRegs(c, t, th, r, s);
      case RTs => ReturnTailRegs(c, t, th, r, s);
    }
  }

  // ---------------------------------------------------------------- records and shadow stack

  lemma ReturnRecordsIdle(t: Tid, th: Thread, th': Thread, log: Log)
    requires OwnRecords(t, th, log) && th.mode.InReturn? && th'.mode.InReturn?
    requires th'.pend == th.pend && th'.popped == th.popped && Held(th') == Held(th)
    requires 4 <= ReturnRank(th.mode.r.at) <= 6 ==> 4 <= ReturnRank(th'.mode.r.at) <= 6
    ensures OwnRecords(t, th', log)
  {
  }

  /** The pop: the innermost pending call becomes the popped one. */
  lemma PendPop(t: Tid, pend: seq<nat>, slots: seq<Slot>, k: nat, log: Log)
    requires SlotInv(slots) && PendInv(t, pend, slots, log) && t != 0
    requires k < THREADS && slots[k].tid == t && slots[k].depth > 0
    ensures pend != [] && PendOk(t, Last(pend), slots[k].tss[slots[k].depth - 1], log)
    ensures var slots' := slots[k := slots[k].(depth := slots[k].depth - 1)];
            && PendInv(t, Front(pend), slots', SetFate(log, Last(pend), Popped))
            && Shadow(slots, t) == Shadow(slots', t) + [slots[k].rets[slots[k].depth - 1]]
  {
    var slots' := slots[k := slots[k].(depth := slots[k].depth - 1)];
    var log' := SetFate(log, Last(pend), Popped);
    SlotAfterStore(slots, k, slots'[k]);
    HomeIs(t, slots, k);
    HomeIs(t, slots', k);
    forall j | 0 <= j < |pend|
      ensures PendOk(t, pend[j], slots[k].tss[j], log)
      ensures j < |pend| - 1 ==> PendOk(t, pend[j], slots'[k].tss[j], log')
    {
      assert PendOk(t, pend[j], slots[k].tss[j], log);
    }
  }

  lemma RecordsPop(t: Tid, th: Thread, th': Thread, log: Log)
    requires OwnRecords(t, th, log) && th.pend != [] && Held(th).None? && Held(th').None?
    requires th.mode.InReturn? && ReturnRank(th.mode.r.at) == 3
    requires th'.mode.InReturn? && ReturnRank(th'.mode.r.at) == 4
    requires th'.pend == Front(th.pend) && th'.popped == Last(th.pend)
    requires Last(th.pend) < |log| && IsPending(log[Last(th.pend)])
    ensures OwnRecords(t, th', SetFate(log, Last(th.pend), Popped))
  {
    forall n | n in th.pend && n != Last(th.pend)
      ensures n in th'.pend
    {
      var j :| 0 <= j < |th.pend| && th.pend[j] == n;
      assert th'.pend[j] == n;
    }
  }

  lemma RecordsClose(t: Tid, th: Thread, th': Thread, log: Log, retval: Word)
    requires OwnRecords(t, th, log) && th.mode.InReturn? && ReturnRank(th.mode.r.at) == 6
    requires th.popped < |log| && log[th.popped].tid == t && IsPopped(log[th.popped])
    requires Held(th') == Some(|log|) && th'.mode.InReturn? && ReturnRank(th'.mode.r.at) == 7
    requires th'.pend == th.pend
    ensures OwnRecords(t, th', SetFate(log, th.popped, Closed(|log|)) + [ReturnRec(t, th.popped, retval, None)])
  {
  }

  lemma RecordsFinish(t: Tid, th: Thread, th': Thread, log: Log, n: nat, r: Rec)
    requires OwnRecords(t, th, log) && n < |log| && log[n].tid == t == r.tid && Held(th) == Some(n)
    requires th.mode.InReturn? && ReturnRank(th.mode.r.at) == 17
    requires r.ReturnRec? && r.ev.Some? && th'.pend == th.pend
    ensures OwnRecords(t, th', log[n := r])
  {
  }

  /** Steps that change neither log nor slots and do not move the returning call's address. */
  ghost predicate ReturnQuiet(c: Config, t: Tid, th: Thread, r: Return, s: Shared)
  {
    var (th', s') := ReturnStep(c, t, th, r, s);
    && s'.log == s.log && s'.m.slots == s.m.slots
    && th'.pend == th.pend && th'.popped == th.popped && Held(th') == Held(th)
    && (th'.mode.InReturn? ==>
          && CellsOf(c, th', s.m.slots) == CellsOf(c, th, s.m.slots)
          && (4 <= ReturnRank(r.at) <= 6 ==> 4 <= ReturnRank(th'.mode.r.at) <= 6))
  }

  lemma ReturnPutQuiet(c: Config, t: Tid, th: Thread, r: Return, s: Shared)
    requires th.mode == InReturn(r) && r.i < CAPACITY && (r.at.RArg? ==> r.j < 6)
    requires r.at in {RPid, RPutTid, RProbe, RKind, RArg, RRetval, RTs}
    ensures ReturnQuiet(c, t, th, r, s)
  {
  }

  lemma ReturnLookQuiet(c: Config, t: Tid, th: Thread, r: Return, s: Shared)
    requires th.mode == InReturn(r) && (r.at !in {RTid, RScan} ==> r.idx < THREADS && r.d < DEPTH)
    requires r.at in {RTid, RScan, RLoadRet, RLoadBuf, RLoadTid, RClock, RLoadTs}
    ensures ReturnQuiet(c, t, th, r, s)
  {
  }

  lemma ReturnDepthQuiet(c: Config, t: Tid, th: Thread, r: Return, s: Shared)
    requires th.mode == InReturn(r) && r.idx < THREADS
    requires r.at.RDepth?
    ensures ReturnQuiet(c, t, th, r, s)
  {
  }

  lemma ReturnQuietOwn(c: Config, t: Tid, th: Thread, r: Return, s: Shared, plain: seq<Addr>)
    requires ReturnQuiet(c, t, th, r, s) && th.mode == InReturn(r) && ReturnStep(c, t, th, r, s).0.mode.InReturn?
    requires OwnOk(c, t, th, s, plain)
    ensures var (th', s') := ReturnStep(c, t, th, r, s); OwnOk(c, t, th', s', plain)
  {
    hide OwnRecords, PendInv, Resolves, ReturnStep;
    var (th', s') := ReturnStep(c, t, th, r, s);
    ReturnRecordsIdle(t, th, th', s.log);
  }

  lemma ReturnPopOwn(c: Config, t: Tid, th: Thread, r: Return, s: Shared, plain: seq<Addr>)
    requires ReturnPre(c, t, th, r, s) && OwnOk(c, t, th, s, plain)
    requires r.at.RPop?
    ensures var (th', s') := ReturnStep(c, t, th, r, s); OwnOk(c, t, th', s', plain)
  {
    hide OwnRecords, PendInv, Resolves, RingInv;
    var (th', s') := ReturnStep(c, t, th, r, s);
    PendPop(t, th.pend, s.m.slots, r.idx, s.log);
    RecordsPop(t, th, th', s.log);
    PopResolves(c.retStub, th.cells, Shadow(s.m.slots, t), plain);
  }

  lemma ReturnReserveOwn(c: Config, t: Tid, th: Thread, r: Return, s: Shared, plain: seq<Addr>)
    requires ReturnPre(c, t, th, r, s) && OwnOk(c, t, th, s, plain)
    requires r.at.RReserve?
    ensures var (th', s') := ReturnStep(c, t, th, r, s); OwnOk(c, t, th', s', plain)
  {
    hide OwnRecords, PendInv, Resolves, RingInv;
    var (th', s') := ReturnStep(c, t, th, r, s);
    RecordsClose(t, th, th', s.log, r.retval);
    PendSame(t, th.pend, s.m.slots, s'.m.slots, s.log, s'.log);
  }

  lemma ReturnOwnKept(c: Config, t: Tid, th: Thread, r: Return, s: Shared, plain: seq<Addr>)
    requires ReturnPre(c, t, th, r, s) && OwnOk(c, t, th, s, plain) && !r.at.RDuration?
    requires ReturnStep(c, t, th, r, s).0.mode.InReturn?
    ensures var (th', s') := ReturnStep(c, t, th, r, s); OwnOk(c, t, th', s', plain)
  {
    hide OwnOk, ReturnStep, ReturnQuiet, OwnRecords, PendInv;
    match r.at {
      case RPop => ReturnPopOwn(c, t, th, r, s, plain);
      case RReserve => ReturnReserveOwn(c, t, th, r, s, plain);
      case RDepth =>
        ReturnDepthQuiet(c, t, th, r, s);
        ReturnQuietOwn(c, t, th, r, s, plain);
      case _ =>
        if r.at in {RPid, RPutTid, RProbe, RKind, RArg, RRetval, RTs} { ReturnPutQuiet(c, t, th, r, s); }
        else { ReturnLookQuiet(c, t, th, r, s); }
        ReturnQuietOwn(c, t, th, r, s, plain);
    }
  }

  // ---------------------------------------------------------------- the whole step

  /** The program's stack of return addresses after control lands at `a`. */
  function AfterLanding(c: Config, a: Addr, plain: seq<Addr>): seq<Addr>
  {
    if a == c.retStub || plain == [] then plain else Front(plain)
  }

  /** The last step jumps to the popped address: the one on top of the program's own stack, or the
      stub again when the call was entered by a jump. */
  lemma ReturnLands(c: Config, t: Tid, th: Thread, r: Return, s: Shared, plain: seq<Addr>)
    requires ReturnPre(c, t, th, r, s) && OwnOk(c, t, th, s, plain) && MemInv(c, s)
    requires r.at.RDuration?
    ensures var (th', s') := ReturnStep(c, t, th, r, s);
            && OwnOk(c, t, th', s', AfterLanding(c, r.a, plain))
            && th'.mode == Land(c, r.a, r.retval)
    ensures r.a != c.retStub ==> plain != [] && Last(plain) == r.a
  {
    hide OwnRecords, PendInv, Resolves, LogInv, NestInv, CountInv, TimeInv;
    var (th', s') := ReturnStep(c, t, th, r, s);
    var rec := ReturnRec(t, th.popped, r.retval, Some(ReturnEvent(c, t, r.retval, r.ts, Sub64(r.ts, r.v))));
    assert s'.log == s.log[th.ticket := rec] && s'.m.slots == s.m.slots;
    RecordsFinish(t, th, th', s.log, th.ticket, rec);
    PendSame(t, th.pend, s.m.slots, s'.m.slots, s.log, s'.log);
    if r.a != c.retStub {
      ReturnResolves(c.retStub, th.cells, Shadow(s.m.slots, t), plain, r.a);
    }
  }

  /** Every step of the return stub. */
  lemma ReturnKeeps(c: Config, t: Tid, th: Thread, r: Return, s: Shared, plain: seq<Addr>)
    requires MemInv(c, s) && ThreadInv(c, t, th, s, plain) && th.mode == InReturn(r)
    ensures var (th', s') := ReturnStep(c, t, th, r, s);
            && (!r.at.RDuration? ==> th'.mode.InReturn? && StepOk(c, t, th, s, th', s', plain))
            && (r.at.RDuration? ==> th'.mode == Land(c, r.a, r.retval)
                                    && StepOk(c, t, th, s, th', s', AfterLanding(c, r.a, plain)))
    ensures r.at.RDuration? && r.a != c.retStub ==> plain != [] && Last(plain) == r.a
  {
    hide OwnRecords, PendInv, Resolves, ReturnStep, SlotInv, RingInv, LogInv, NestInv, TimeInv, CountInv, Guar;
    hide ReturnPre;
    StubHasShadow(c, t, th, r, s, plain);
    ReturnMemKept(c, t, th, r, s);
    if r.at.RDuration? {
      ReturnLands(c, t, th, r, s, plain);
    } else {
      ReturnRegsKept(c, t, th, r, s);
      ReturnOwnKept(c, t, th, r, s, plain);
    }
  }
}
