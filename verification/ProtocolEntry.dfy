/** Every step of the entry stub keeps the shared invariant and the thread's own. */
module ProtocolEntry {
  import opened Wrappers
  import opened Protocol
  import opened ProtocolInvariant
  import opened ProtocolMemory

  ghost predicate EntryPre(c: Config, t: Tid, th: Thread, e: Entry, s: Shared)
  {
    && th.mode == InEntry(e) && th.cells != [] && 0 < t < TWO32
    && SlotInv(s.m.slots) && RingInv(s.m.ring, s.log)
    && EntryInv(c, t, th, e, s)
  }

  // ---------------------------------------------------------------- shared memory

  ghost predicate EntryMem(c: Config, t: Tid, th: Thread, e: Entry, s: Shared)
    requires MemInv(c, s)
  {
    var s' := EntryStep(c, t, th, e, s).1;
    MemInv(c, s') && Guar(t, Held(th), s, s') && (|s'.log| > |s.log| ==> e.at.Reserve?)
  }

  lemma EntryPutMem(c: Config, t: Tid, th: Thread, e: Entry, s: Shared)
    requires EntryPre(c, t, th, e, s) && MemInv(c, s)
    requires e.at in {PutPid, PutProbe, PutKind, PutArg, PutTid, PutTs, PutRetval}
    ensures EntryMem(c, t, th, e, s)
  {
    hide MemInv, Guar;
    var a := EntryRequest(c, e, Last(th.cells));
    var cell := SetField(s.m.ring[e.i], a.loc.f, a.v);
    PutKeeps(c, t, th.ticket, s, cell);
    assert EntryStep(c, t, th, e, s).1 == Put(s, th.ticket, cell);
  }

  lemma EntryFinishMem(c: Config, t: Tid, th: Thread, e: Entry, s: Shared)
    requires EntryPre(c, t, th, e, s) && MemInv(c, s)
    requires e.at.PutDuration?
    ensures EntryMem(c, t, th, e, s)
  {
    hide MemInv, Guar;
    var cell := SetField(s.m.ring[e.i], Duration, 0);
    assert cell == EntryEvent(c, t, e.args, e.ts);
    FinishEntryKeeps(c, t, th.ticket, e.ts, s, cell, if c.hasRet then Open else Unhooked);
    assert EntryStep(c, t, th, e, s).1.log
        == s.log[th.ticket := EntryRec(t, e.args, if c.hasRet then Open else Unhooked, Some(cell))];
  }

  lemma EntryClaimMem(c: Config, t: Tid, th: Thread, e: Entry, s: Shared)
    requires EntryPre(c, t, th, e, s) && MemInv(c, s)
    requires e.at.Claim?
    ensures EntryMem(c, t, th, e, s)
  {
    hide MemInv, Guar;
    var s' := EntryStep(c, t, th, e, s).1;
    if s.m.slots[e.idx].tid == 0 {
      ClaimKeeps(c, t, Held(th), e.idx, s);
      assert s' == WithSlot(s, e.idx, s.m.slots[e.idx].(tid := t));
    } else {
      GuarIdle(c, t, Held(th), s);
      assert s' == s;
    }
  }

  lemma EntrySaveMem(c: Config, t: Tid, th: Thread, e: Entry, s: Shared)
    requires EntryPre(c, t, th, e, s) && MemInv(c, s)
    requires e.at.SaveRet? || e.at.SaveTs?
    ensures EntryMem(c, t, th, e, s)
  {
    hide MemInv, Guar;
    var slot := s.m.slots[e.idx];
    var slot' := if e.at.SaveRet? then slot.(rets := slot.rets[e.d := Last(th.cells)])
                 else slot.(tss := slot.tss[e.d := e.v]);
    ScratchKeeps(c, t, Held(th), e.idx, s, slot');
    assert EntryStep(c, t, th, e, s).1 == WithSlot(s, e.idx, slot');
  }

  lemma EntryPushMem(c: Config, t: Tid, th: Thread, e: Entry, s: Shared)
    requires EntryPre(c, t, th, e, s) && MemInv(c, s)
    requires e.at.PushDepth?
    ensures EntryMem(c, t, th, e, s)
  {
    hide MemInv, Guar;
    PushKeeps(c, t, Held(th), e.idx, th.ticket, s);
  }

  lemma EntryReserveMem(c: Config, t: Tid, th: Thread, e: Entry, s: Shared)
    requires EntryPre(c, t, th, e, s) && MemInv(c, s)
    requires e.at.Reserve?
    ensures EntryMem(c, t, th, e, s)
  {
    hide MemInv, Guar;
    ReserveEntryKeeps(c, t, Held(th), e.args, s);
  }

  lemma EntryLookMem(c: Config, t: Tid, th: Thread, e: Entry, s: Shared)
    requires EntryPre(c, t, th, e, s) && MemInv(c, s)
    requires e.at in {Check, LoadBuf, AskTid, AskClock, CmpTid, LoadTid, CmpRace, Found, LoadTs, Swap}
    ensures EntryMem(c, t, th, e, s)
  {
    hide MemInv, Guar;
    GuarIdle(c, t, Held(th), s);
    assert EntryStep(c, t, th, e, s).1 == s;
  }

  lemma EntryLeaveMem(c: Config, t: Tid, th: Thread, e: Entry, s: Shared)
    requires EntryPre(c, t, th, e, s) && MemInv(c, s)
    requires e.at.Scan? || e.at.LoadDepth?
    ensures EntryMem(c, t, th, e, s)
  {
    hide MemInv, Guar;
    var s' := EntryStep(c, t, th, e, s).1;
    if (e.at.Scan? && e.idx < THREADS) || (e.at.LoadDepth? && s.m.slots[e.idx].depth < DEPTH) {
      GuarIdle(c, t, Held(th), s);
      assert s' == s;
    } else {
      UnhookKeeps(c, t, Held(th), th.ticket, s);
      assert s' == s.(log := SetFate(s.log, th.ticket, Unhooked));
    }
  }

  lemma EntryMemKept(c: Config, t: Tid, th: Thread, e: Entry, s: Shared)
    requires EntryPre(c, t, th, e, s) && MemInv(c, s)
    ensures EntryMem(c, t, th, e, s)
  {
    hide MemInv, Guar, EntryStep, EntryInv, SlotInv, RingInv;
    match e.at {
      case PutDuration => EntryFinishMem(c, t, th, e, s);
      case Reserve => EntryReserveMem(c, t, th, e, s);
      case Claim => EntryClaimMem(c, t, th, e, s);
      case SaveRet => EntrySaveMem(c, t, th, e, s);
      case SaveTs => EntrySaveMem(c, t, th, e, s);
      case PushDepth => EntryPushMem(c, t, th, e, s);
      case PutPid => EntryPutMem(c, t, th, e, s);
      case PutProbe => EntryPutMem(c, t, th, e, s);
      case PutKind => EntryPutMem(c, t, th, e, s);
      case PutArg => EntryPutMem(c, t, th, e, s);
      case PutTid => EntryPutMem(c, t, th, e, s);
      case PutTs => EntryPutMem(c, t, th, e, s);
      case PutRetval => EntryPutMem(c, t, th, e, s);
      case Scan => EntryLeaveMem(c, t, th, e, s);
      case LoadDepth => EntryLeaveMem(c, t, th, e, s);
      case _ => EntryLookMem(c, t, th, e, s);
    }
  }

  // ---------------------------------------------------------------- registers

  /** The next registers fit what memory now holds. */
  ghost predicate EntryRegs(c: Config, t: Tid, th: Thread, e: Entry, s: Shared)
  {
    var (th', s') := EntryStep(c, t, th, e, s);
    && th'.cells != []
    && (th'.mode.User? || th'.mode.InEntry?)
    && (th'.mode.InEntry? && SlotInv(s'.m.slots) && RingInv(s'.m.ring, s'.log) ==>
          EntryInv(c, t, th', th'.mode.e, s'))
  }

  lemma EntryStartRegs(c: Config, t: Tid, th: Thread, e: Entry, s: Shared)
    requires EntryPre(c, t, th, e, s)
    requires e.at.Check? || e.at.LoadBuf? || e.at.AskTid?
    ensures EntryRegs(c, t, th, e, s)
  {
  }

  lemma EntryClockRegs(c: Config, t: Tid, th: Thread, e: Entry, s: Shared)
    requires EntryPre(c, t, th, e, s) && TimeInv(s.log, s.now, s.steady) && s.m.index == |s.log| % TWO64
    requires e.at.AskClock? || e.at.Reserve?
    ensures EntryRegs(c, t, th, e, s)
  {
    TicketMask(|s.log|);
  }

  lemma EntryScanRegs(c: Config, t: Tid, th: Thread, e: Entry, s: Shared)
    requires EntryPre(c, t, th, e, s)
    requires e.at.Scan? || e.at.CmpTid?
    ensures EntryRegs(c, t, th, e, s)
  {
  }

  lemma EntryRaceRegs(c: Config, t: Tid, th: Thread, e: Entry, s: Shared)
    requires EntryPre(c, t, th, e, s)
    requires e.at.LoadTid? || e.at.CmpRace?
    ensures EntryRegs(c, t, th, e, s)
  {
  }

  lemma EntryFoundRegs(c: Config, t: Tid, th: Thread, e: Entry, s: Shared)
    requires EntryPre(c, t, th, e, s)
    requires e.at.Found? || e.at.LoadDepth?
    ensures EntryRegs(c, t, th, e, s)
  {
  }

  lemma EntryReloadRegs(c: Config, t: Tid, th: Thread, e: Entry, s: Shared)
    requires EntryPre(c, t, th, e, s)
    requires e.at.LoadTs? || e.at.SaveTs?
    ensures EntryRegs(c, t, th, e, s)
  {
  }

  lemma EntryHeadRegs(c: Config, t: Tid, th: Thread, e: Entry, s: Shared)
    requires EntryPre(c, t, th, e, s)
    requires e.at.PutPid? || e.at.PutProbe? || e.at.PutKind?
    ensures EntryRegs(c, t, th, e, s)
  {
  }

  lemma EntryArgsRegs(c: Config, t: Tid, th: Thread, e: Entry, s: Shared)
    requires EntryPre(c, t, th, e, s)
    requires e.at.PutArg? || e.at.PutTid?
    ensures EntryRegs(c, t, th, e, s)
  {
  }

  lemma EntryTailRegs(c: Config, t: Tid, th: Thread, e: Entry, s: Shared)
    requires EntryPre(c, t, th, e, s)
    requires e.at.PutTs? || e.at.PutRetval?
    ensures EntryRegs(c, t, th, e, s)
  {
  }

  lemma EntryDoneRegs(c: Config, t: Tid, th: Thread, e: Entry, s: Shared)
    requires EntryPre(c, t, th, e, s)
    requires e.at.PutDuration?
    ensures EntryRegs(c, t, th, e, s)
  {
  }

  lemma EntryClaimRegs(c: Config, t: Tid, th: Thread, e: Entry, s: Shared)
    requires EntryPre(c, t, th, e, s)
    requires e.at.Claim?
    ensures EntryRegs(c, t, th, e, s)
  {
  }

  lemma EntrySaveRegs(c: Config, t: Tid, th: Thread, e: Entry, s: Shared)
    requires EntryPre(c, t, th, e, s)
    requires e.at.SaveRet?
    ensures EntryRegs(c, t, th, e, s)
  {
  }

  lemma EntryHookRegs(c: Config, t: Tid, th: Thread, e: Entry, s: Shared)
    requires EntryPre(c, t, th, e, s)
    requires e.at.PushDepth? || e.at.Swap?
    ensures EntryRegs(c, t, th, e, s)
  {
  }

  lemma EntryRegsKept(c: Config, t: Tid, th: Thread, e: Entry, s: Shared)
    requires EntryPre(c, t, th, e, s) && MemInv(c, s)
    ensures EntryRegs(c, t, th, e, s)
  {
    hide EntryRegs, EntryInv, EntryStep, SlotInv, RingInv, LogInv, NestInv, CountInv;
    match e.at {
      case Check => EntryStartRegs(c, t, th, e, s);
      case LoadBuf => EntryStartRegs(c, t, th, e, s);
      case AskTid => EntryStartRegs(c, t, th, e, s);
      case AskClock => EntryClockRegs(c, t, th, e, s);
      case Reserve => EntryClockRegs(c, t, th, e, s);
      case Scan => EntryScanRegs(c, t, th, e, s);
      case CmpTid => EntryScanRegs(c, t, th, e, s);
      case LoadTid => EntryRaceRegs(c, t, th, e, s);
      case CmpRace => EntryRaceRegs(c, t, th, e, s);
      case Found => EntryFoundRegs(c, t, th, e, s);
      case LoadDepth => EntryFoundRegs(c, t, th, e, s);
      case LoadTs => EntryReloadRegs(c, t, th, e, s);
      case SaveTs => EntryReloadRegs(c, t, th, e, s);
      case PutPid => EntryHeadRegs(c, t, th, e, s);
      case PutProbe => EntryHeadRegs(c, t, th, e, s);
      case PutKind => EntryHeadRegs(c, t, th, e, s);
      case PutArg => EntryArgsRegs(c, t, th, e, s);
      case PutTid => EntryArgsRegs(c, t, th, e, s);
      case PutTs => EntryTailRegs(c, t, th, e, s);
      case PutRetval => EntryTailRegs(c, t, th, e, s);
      case PutDuration => EntryDoneRegs(c, t, th, e, s);
      case Claim => EntryClaimRegs(c, t, th, e, s);
      case SaveRet => EntrySaveRegs(c, t, th, e, s);
      case PushDepth => EntryHookRegs(c, t, th, e, s);
      case Swap => EntryHookRegs(c, t, th, e, s);
    }
  }

  // ---------------------------------------------------------------- records and shadow stack

  /** The thread's log records, its pending calls and its return cells still agree. */
  ghost predicate OwnOk(c: Config, t: Tid, th: Thread, s: Shared, plain: seq<Addr>)
  {
    && OwnRecords(t, th, s.log)
    && PendInv(t, th.pend, s.m.slots, s.log)
    && Resolves(c.retStub, CellsOf(c, th, s.m.slots), Shadow(s.m.slots, t), plain)
  }

  /** The shadow stack reads the same when the live part of the thread's slot and its pending records do. */
  lemma PendSame(t: Tid, pend: seq<nat>, slots: seq<Slot>, slots': seq<Slot>, log: Log, log': Log)
    requires SlotInv(slots) && SlotInv(slots') && PendInv(t, pend, slots, log)
    requires Home(slots', t) == Home(slots, t)
    requires var h := Home(slots, t); h >= 0 ==>
               && slots'[h].depth == slots[h].depth
               && slots'[h].rets[..slots[h].depth] == slots[h].rets[..slots[h].depth]
               && slots'[h].tss[..slots[h].depth] == slots[h].tss[..slots[h].depth]
    requires |log| <= |log'|
    requires forall n :: 0 <= n < |log| && log[n].tid == t && IsPending(log[n]) ==> log'[n] == log[n]
    ensures PendInv(t, pend, slots', log') && Shadow(slots', t) == Shadow(slots, t)
  {
    var h := Home(slots, t);
    forall j | 0 <= j < |pend|
      ensures PendOk(t, pend[j], slots'[h].tss[j], log')
    {
      assert PendOk(t, pend[j], slots[h].tss[j], log);
      assert slots[h].tss[j] == slots[h].tss[..slots[h].depth][j];
      assert slots'[h].tss[j] == slots'[h].tss[..slots[h].depth][j];
    }
  }

  lemma HomeIs(t: Tid, slots: seq<Slot>, k: nat)
    requires SlotInv(slots) && k < THREADS && slots[k].tid == t != 0
    ensures Home(slots, t) == k
  {
  }

  /** A store above the depth of the thread's own slot. */
  lemma PendScratch(t: Tid, pend: seq<nat>, slots: seq<Slot>, k: nat, slot: Slot, log: Log)
    requires SlotInv(slots) && PendInv(t, pend, slots, log) && t != 0
    requires k < THREADS && slots[k].tid == t == slot.tid && ShapedSlot(slot) && slot.depth == slots[k].depth
    requires slot.rets[..slot.depth] == slots[k].rets[..slot.depth]
    requires slot.tss[..slot.depth] == slots[k].tss[..slot.depth]
    ensures PendInv(t, pend, slots[k := slot], log) && Shadow(slots[k := slot], t) == Shadow(slots, t)
  {
    var slots' := slots[k := slot];
    SlotAfterStore(slots, k, slot);
    HomeIs(t, slots, k);
    HomeIs(t, slots', k);
    PendSame(t, pend, slots, slots', log, log);
  }

  lemma PendClaim(t: Tid, pend: seq<nat>, slots: seq<Slot>, k: nat, log: Log)
    requires SlotInv(slots) && PendInv(t, pend, slots, log) && t != 0
    requires k < THREADS && slots[k].tid == 0 && Home(slots, t) == -1
    requires Home(slots[k := slots[k].(tid := t)], t) == k
    ensures var slots' := slots[k := slots[k].(tid := t)];
            PendInv(t, pend, slots', log) && Shadow(slots', t) == Shadow(slots, t)
  {
  }

  /** The push: one more entry on the shadow stack, its ticket the thread's latest. */
  lemma PendPush(t: Tid, pend: seq<nat>, slots: seq<Slot>, k: nat, n: nat, log: Log)
    requires SlotInv(slots) && PendInv(t, pend, slots, log) && t != 0
    requires k < THREADS && slots[k].tid == t && slots[k].depth < DEPTH
    requires n < |log| && log[n].tid == t && IsOpen(log[n]) && log[n].ev.Some?
    requires log[n].ev.value.ts == slots[k].tss[slots[k].depth]
    requires forall m :: n < m < |log| ==> log[m].tid != t
    ensures var slots' := slots[k := slots[k].(depth := slots[k].depth + 1)];
            && PendInv(t, pend + [n], slots', SetFate(log, n, Pending))
            && Shadow(slots', t) == Shadow(slots, t) + [slots[k].rets[slots[k].depth]]
  {
    var slots' := slots[k := slots[k].(depth := slots[k].depth + 1)];
    var log' := SetFate(log, n, Pending);
    SlotAfterStore(slots, k, slots'[k]);
    HomeIs(t, slots, k);
    HomeIs(t, slots', k);
    forall j | 0 <= j <= |pend|
      ensures PendOk(t, (pend + [n])[j], slots'[k].tss[j], log')
      ensures j < |pend| ==> pend[j] < n
    {
      if j < |pend| { assert PendOk(t, pend[j], slots[k].tss[j], log); }
    }
  }

  /** Changing the one record the thread holds. */
  lemma RecordsUpdate(t: Tid, th: Thread, th': Thread, log: Log, n: nat, r: Rec)
    requires OwnRecords(t, th, log) && n < |log| && log[n].tid == t == r.tid
    requires Held(th) == Some(n) && r.ev.Some? && th.mode.InEntry?
    requires IsOpen(r) ==> Held(th') == Some(n) && th'.mode.InEntry?
    requires IsPending(r) ==> n in th'.pend
    requires !IsPopped(r) && th.pend <= th'.pend
    ensures OwnRecords(t, th', log[n := r])
  {
    forall m | m in th.pend
      ensures m in th'.pend
    {
      var j :| 0 <= j < |th.pend| && th.pend[j] == m;
      assert th'.pend[j] == m;
    }
  }

  lemma RecordsAppend(t: Tid, th: Thread, th': Thread, log: Log, r: Rec)
    requires OwnRecords(t, th, log) && Held(th).None? && th.mode.InEntry?
    requires th'.mode.InEntry? && Held(th') == Some(|log|) && th'.pend == th.pend
    requires !IsPending(r) && !IsPopped(r)
    ensures OwnRecords(t, th', log + [r])
  {
  }

  lemma RecordsIdle(t: Tid, th: Thread, th': Thread, log: Log)
    requires OwnRecords(t, th, log) && th.mode.InEntry? && th'.pend == th.pend
    requires Held(th') == Held(th) && (Held(th).Some? ==> th'.mode.InEntry?)
    ensures OwnRecords(t, th', log)
  {
  }

  lemma RecordsLeave(t: Tid, th: Thread, th': Thread, log: Log, n: nat)
    requires OwnRecords(t, th, log) && Held(th) == Some(n) && th.mode.InEntry?
    requires n < |log| && log[n].ev.Some? && !IsOpen(log[n]) && th'.pend == th.pend
    ensures OwnRecords(t, th', log)
  {
  }

  ghost predicate Quiet(c: Config, t: Tid, th: Thread, e: Entry, s: Shared)
  {
    var (th', s') := EntryStep(c, t, th, e, s);
    && s'.log == s.log && s'.m.slots == s.m.slots
    && th'.pend == th.pend && th'.cells == th.cells && Held(th') == Held(th)
    && (Held(th).Some? ==> th'.mode.InEntry?)
    && CellsOf(c, th', s.m.slots) == th.cells
  }

  lemma PutQuiet(c: Config, t: Tid, th: Thread, e: Entry, s: Shared)
    requires th.mode == InEntry(e) && th.cells != []
    requires e.at in {PutPid, PutProbe, PutKind, PutArg, PutTid, PutTs, PutRetval}
    requires e.i < CAPACITY && (e.at.PutArg? ==> e.j < 6)
    ensures Quiet(c, t, th, e, s)
  {
  }

  lemma AskQuiet(c: Config, t: Tid, th: Thread, e: Entry, s: Shared)
    requires th.mode == InEntry(e) && th.cells != []
    requires e.at in {Check, LoadBuf, AskTid, AskClock}
    ensures Quiet(c, t, th, e, s)
  {
  }

  lemma LookQuiet(c: Config, t: Tid, th: Thread, e: Entry, s: Shared)
    requires th.mode == InEntry(e) && th.cells != [] && e.i < CAPACITY && e.idx < THREADS
    requires e.at in {CmpTid, LoadTid, CmpRace, Found, LoadTs}
    ensures Quiet(c, t, th, e, s)
  {
  }

  lemma StayQuiet(c: Config, t: Tid, th: Thread, e: Entry, s: Shared)
    requires th.mode == InEntry(e) && th.cells != [] && e.idx < THREADS
    requires e.at.Scan? || e.at.LoadDepth?
    requires e.at.LoadDepth? ==> |s.m.slots| == THREADS && s.m.slots[e.idx].depth < DEPTH
    ensures Quiet(c, t, th, e, s)
  {
  }

  lemma EntryQuietOwn(c: Config, t: Tid, th: Thread, e: Entry, s: Shared, plain: seq<Addr>)
    requires th.mode == InEntry(e) && OwnOk(c, t, th, s, plain) && Quiet(c, t, th, e, s) && !e.at.Swap?
    ensures var (th', s') := EntryStep(c, t, th, e, s); OwnOk(c, t, th', s', plain)
  {
    hide OwnRecords, PendInv, Resolves, EntryStep;
    var (th', s') := EntryStep(c, t, th, e, s);
    RecordsIdle(t, th, th', s.log);
  }

  lemma EntryReserveOwn(c: Config, t: Tid, th: Thread, e: Entry, s: Shared, plain: seq<Addr>)
    requires EntryPre(c, t, th, e, s) && OwnOk(c, t, th, s, plain)
    requires e.at.Reserve?
    ensures var (th', s') := EntryStep(c, t, th, e, s); OwnOk(c, t, th', s', plain)
  {
    hide OwnRecords, PendInv, Resolves, RingInv;
    var (th', s') := EntryStep(c, t, th, e, s);
    RecordsAppend(t, th, th', s.log, EntryRec(t, e.args, Open, None));
    PendSame(t, th.pend, s.m.slots, s'.m.slots, s.log, s'.log);
  }

  lemma EntryFinishOwn(c: Config, t: Tid, th: Thread, e: Entry, s: Shared, plain: seq<Addr>)
    requires EntryPre(c, t, th, e, s) && OwnOk(c, t, th, s, plain)
    requires e.at.PutDuration?
    ensures var (th', s') := EntryStep(c, t, th, e, s); OwnOk(c, t, th', s', plain)
  {
    hide OwnRecords, PendInv, Resolves, RingInv;
    var (th', s') := EntryStep(c, t, th, e, s);
    var r := EntryRec(t, e.args, if c.hasRet then Open else Unhooked, Some(EntryEvent(c, t, e.args, e.ts)));
    assert s'.log == s.log[th.ticket := r] && s'.m.slots == s.m.slots;
    RecordsUpdate(t, th, th', s.log, th.ticket, r);
    PendSame(t, th.pend, s.m.slots, s'.m.slots, s.log, s'.log);
  }

  lemma EntryLeaveOwn(c: Config, t: Tid, th: Thread, e: Entry, s: Shared, plain: seq<Addr>)
    requires EntryPre(c, t, th, e, s) && OwnOk(c, t, th, s, plain)
    requires (e.at.Scan? && e.idx >= THREADS) || (e.at.LoadDepth? && s.m.slots[e.idx].depth >= DEPTH)
    ensures var (th', s') := EntryStep(c, t, th, e, s); OwnOk(c, t, th', s', plain)
  {
    hide OwnRecords, PendInv, Resolves, RingInv;
    var (th', s') := EntryStep(c, t, th, e, s);
    var r := EntryRec(t, e.args, Unhooked, s.log[th.ticket].ev);
    assert s'.log == s.log[th.ticket := r] && s'.m.slots == s.m.slots;
    RecordsUpdate(t, th, th', s.log, th.ticket, r);
    PendSame(t, th.pend, s.m.slots, s'.m.slots, s.log, s'.log);
  }

  lemma EntryClaimOwn(c: Config, t: Tid, th: Thread, e: Entry, s: Shared, plain: seq<Addr>)
    requires EntryPre(c, t, th, e, s) && OwnOk(c, t, th, s, plain) && MemInv(c, s)
    requires e.at.Claim?
    ensures var (th', s') := EntryStep(c, t, th, e, s); OwnOk(c, t, th', s', plain)
  {
    hide OwnRecords, PendInv, Resolves, RingInv, LogInv, NestInv, TimeInv, CountInv;
    var (th', s') := EntryStep(c, t, th, e, s);
    RecordsIdle(t, th, th', s.log);
    if s.m.slots[e.idx].tid == 0 {
      ClaimKeeps(c, t, Held(th), e.idx, s);
      assert s'.m.slots == s.m.slots[e.idx := s.m.slots[e.idx].(tid := t)];
      PendClaim(t, th.pend, s.m.slots, e.idx, s.log);
    } else {
      assert s' == s;
    }
  }

  lemma EntrySaveRetOwn(c: Config, t: Tid, th: Thread, e: Entry, s: Shared, plain: seq<Addr>)
    requires EntryPre(c, t, th, e, s) && OwnOk(c, t, th, s, plain)
    requires e.at.SaveRet?
    ensures var (th', s') := EntryStep(c, t, th, e, s); OwnOk(c, t, th', s', plain)
  {
    hide OwnRecords, PendInv, Resolves, RingInv;
    var (th', s') := EntryStep(c, t, th, e, s);
    RecordsIdle(t, th, th', s.log);
    PendScratch(t, th.pend, s.m.slots, e.idx, s'.m.slots[e.idx], s.log);
    assert s'.m.slots == s.m.slots[e.idx := s'.m.slots[e.idx]];
  }

  lemma EntrySaveTsOwn(c: Config, t: Tid, th: Thread, e: Entry, s: Shared, plain: seq<Addr>)
    requires EntryPre(c, t, th, e, s) && OwnOk(c, t, th, s, plain)
    requires e.at.SaveTs?
    ensures var (th', s') := EntryStep(c, t, th, e, s); OwnOk(c, t, th', s', plain)
  {
    hide OwnRecords, PendInv, Resolves, RingInv;
    var (th', s') := EntryStep(c, t, th, e, s);
    RecordsIdle(t, th, th', s.log);
    PendScratch(t, th.pend, s.m.slots, e.idx, s'.m.slots[e.idx], s.log);
    assert s'.m.slots == s.m.slots[e.idx := s'.m.slots[e.idx]];
  }

  lemma EntryPushOwn(c: Config, t: Tid, th: Thread, e: Entry, s: Shared, plain: seq<Addr>)
    requires EntryPre(c, t, th, e, s) && OwnOk(c, t, th, s, plain)
    requires e.at.PushDepth?
    ensures var (th', s') := EntryStep(c, t, th, e, s); OwnOk(c, t, th', s', plain)
  {
    hide OwnRecords, PendInv, Resolves, RingInv;
    var (th', s') := EntryStep(c, t, th, e, s);
    HookResolves(c.retStub, th.cells, Shadow(s.m.slots, t), plain);
    PendPush(t, th.pend, s.m.slots, e.idx, th.ticket, s.log);
    RecordsUpdate(t, th, th', s.log, th.ticket, s.log[th.ticket].(fate := Pending));
  }

  lemma EntrySwapOwn(c: Config, t: Tid, th: Thread, e: Entry, s: Shared, plain: seq<Addr>)
    requires EntryPre(c, t, th, e, s) && OwnOk(c, t, th, s, plain)
    requires e.at.Swap?
    ensures var (th', s') := EntryStep(c, t, th, e, s); OwnOk(c, t, th', s', plain)
  {
    hide OwnRecords, PendInv, Resolves, RingInv, SlotInv;
    var (th', s') := EntryStep(c, t, th, e, s);
    RecordsLeave(t, th, th', s.log, th.ticket);
  }

  lemma EntryOwnKept(c: Config, t: Tid, th: Thread, e: Entry, s: Shared, plain: seq<Addr>)
    requires EntryPre(c, t, th, e, s) && OwnOk(c, t, th, s, plain) && MemInv(c, s)
    ensures var (th', s') := EntryStep(c, t, th, e, s); OwnOk(c, t, th', s', plain)
  {
    hide OwnOk, EntryStep, MemInv, RingInv;
    match e.at {
      case Reserve => EntryReserveOwn(c, t, th, e, s, plain);
      case PutDuration => EntryFinishOwn(c, t, th, e, s, plain);
      case Claim => EntryClaimOwn(c, t, th, e, s, plain);
      case SaveRet => EntrySaveRetOwn(c, t, th, e, s, plain);
      case SaveTs => EntrySaveTsOwn(c, t, th, e, s, plain);
      case PushDepth => EntryPushOwn(c, t, th, e, s, plain);
      case Swap => EntrySwapOwn(c, t, th, e, s, plain);
      case Scan =>
        if e.idx >= THREADS { EntryLeaveOwn(c, t, th, e, s, plain); }
        else { StayQuiet(c, t, th, e, s); EntryQuietOwn(c, t, th, e, s, plain); }
      case LoadDepth =>
        if s.m.slots[e.idx].depth >= DEPTH { EntryLeaveOwn(c, t, th, e, s, plain); }
        else { StayQuiet(c, t, th, e, s); EntryQuietOwn(c, t, th, e, s, plain); }
      case _ =>
        if e.at in {PutPid, PutProbe, PutKind, PutArg, PutTid, PutTs, PutRetval} { PutQuiet(c, t, th, e, s); }
        else if e.at in {Check, LoadBuf, AskTid, AskClock} { AskQuiet(c, t, th, e, s); }
        else { LookQuiet(c, t, th, e, s); }
        EntryQuietOwn(c, t, th, e, s, plain);
    }
  }

  // ---------------------------------------------------------------- the whole step

  /** What a stub step has to establish. */
  ghost predicate StepOk(c: Config, t: Tid, th: Thread, s: Shared, th': Thread, s': Shared, plain: seq<Addr>)
    requires MemInv(c, s)
  {
    && MemInv(c, s')
    && ThreadInv(c, t, th', s', plain)
    && Guar(t, Held(th), s, s')
    && (|s'.log| > |s.log| ==> AtReserve(th))
  }

  /** Every step of the entry stub. */
  lemma EntryKeeps(c: Config, t: Tid, th: Thread, e: Entry, s: Shared, plain: seq<Addr>)
    requires MemInv(c, s) && ThreadInv(c, t, th, s, plain) && th.mode == InEntry(e)
    ensures var (th', s') := EntryStep(c, t, th, e, s); StepOk(c, t, th, s, th', s', plain)
    ensures var th' := EntryStep(c, t, th, e, s).0; th'.mode.User? || th'.mode.InEntry?
  {
    hide OwnRecords, PendInv, Resolves, EntryInv, EntryStep, SlotInv, RingInv, LogInv, NestInv, TimeInv, CountInv, Guar;
    EntryMemKept(c, t, th, e, s);
    EntryRegsKept(c, t, th, e, s);
    EntryOwnKept(c, t, th, e, s, plain);
  }
}
