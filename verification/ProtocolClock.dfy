/** What a clock that is set back does: a run, for every pair of times, in which the recorded duration
    is the negative difference modulo 2^64. */
module ProtocolClock {
  import opened Protocol
  import opened ProtocolEvents

  predicate SoundShape(m: Mem)
  {
    && |m.ring| == CAPACITY && |m.slots| == THREADS
    && |m.ring[0].args| == 6 && |m.ring[1].args| == 6
    && |m.slots[0].rets| == |m.slots[0].tss| == DEPTH
  }

  // ---------------------------------------------------------------- alone through the entry stub

  /** Thread `t`, alone since the area was installed, on its way through the entry stub at time `now`. */
  ghost predicate EntryAlone(c: Config, t: Tid, ret: Addr, now: Word, th: Thread, s: Shared)
  {
    && SoundShape(s.m) && var m, slot := s.m, s.m.slots[0];
    && s.now == now && m.enabled != 0 && m.index == |s.log|
    && match th.mode
       case InEntry(e) =>
         var k := EntryRank(e.at);
         && !e.at.CmpTid? && !e.at.CmpRace? && th.cells == [ret]
         && (k < 3 ==> s.log == [])
         && (k >= 3 ==> |s.log| == 1 && s.log[0].EntryRec? && th.ticket == 0 && e.i == 0)
         && (e.at.PutArg? ==> e.j < 6)
         && (e.at.PutTid? ==> e.v == t)
         && (k >= 9 ==> m.ring[0].tid == t)
         && (k >= 10 ==> e.ts == now)
         && (k >= 11 ==> m.ring[0].ts == now)
         && (k >= 13 ==> e.idx == 0 && s.log[0].ev.Some? && s.log[0].ev.value.ts == now)
         && (k < 17 ==> slot.tid == 0) && (e.at.Claim? ==> e.v == t) && (k >= 18 ==> slot.tid == t)
         && slot.depth == (if k < 24 then 0 else 1)
         && (k >= 20 ==> e.d == 0) && (e.at.SaveTs? ==> e.v == now)
         && (k >= 21 ==> slot.rets[0] == ret) && (k >= 23 ==> slot.tss[0] == now)
         && th.pend == (if k < 24 then [] else [0])
       case _ => Hooked(c, t, ret, now, th, s)
  }

  /** The call is hooked and the thread is back in the program. */
  ghost predicate Hooked(c: Config, t: Tid, ret: Addr, now: Word, th: Thread, s: Shared)
    requires |s.m.slots| == THREADS
  {
    var slot := s.m.slots[0];
    && th.mode.User? && th.cells == [c.retStub] && th.pend == [0] && s.m.index == |s.log| == 1
    && s.log[0].EntryRec? && s.log[0].ev.Some? && s.log[0].ev.value.ts == now
    && slot.tid == t && slot.depth == 1
    && slot.rets != [] && slot.rets[0] == ret && slot.tss != [] && slot.tss[0] == now
  }

  lemma PastCheck(c: Config, t: Tid, ret: Addr, now: Word, th: Thread, e: Entry, s: Shared)
    requires EntryAlone(c, t, ret, now, th, s) && th.mode == InEntry(e) && c.hasRet && t > 0
    requires e.at.Check? || e.at.LoadBuf?
    ensures var (th', s') := EntryStep(c, t, th, e, s); EntryAlone(c, t, ret, now, th', s')
  {
  }

  lemma PastReserve(c: Config, t: Tid, ret: Addr, now: Word, th: Thread, e: Entry, s: Shared)
    requires EntryAlone(c, t, ret, now, th, s) && th.mode == InEntry(e) && c.hasRet && t > 0
    requires e.at.Reserve?
    ensures var (th', s') := EntryStep(c, t, th, e, s); EntryAlone(c, t, ret, now, th', s')
  {
  }

  lemma PastPutPid(c: Config, t: Tid, ret: Addr, now: Word, th: Thread, e: Entry, s: Shared)
    requires EntryAlone(c, t, ret, now, th, s) && th.mode == InEntry(e) && c.hasRet && t > 0
    requires e.at.PutPid? || e.at.PutProbe?
    ensures var (th', s') := EntryStep(c, t, th, e, s); EntryAlone(c, t, ret, now, th', s')
  {
  }

  lemma PastPutKind(c: Config, t: Tid, ret: Addr, now: Word, th: Thread, e: Entry, s: Shared)
    requires EntryAlone(c, t, ret, now, th, s) && th.mode == InEntry(e) && c.hasRet && t > 0
    requires e.at.PutKind?
    ensures var (th', s') := EntryStep(c, t, th, e, s); EntryAlone(c, t, ret, now, th', s')
  {
  }

  lemma PastPutArg(c: Config, t: Tid, ret: Addr, now: Word, th: Thread, e: Entry, s: Shared)
    requires EntryAlone(c, t, ret, now, th, s) && th.mode == InEntry(e) && c.hasRet && t > 0
    requires e.at.PutArg?
    ensures var (th', s') := EntryStep(c, t, th, e, s); EntryAlone(c, t, ret, now, th', s')
  {
  }

  lemma PastAskTid(c: Config, t: Tid, ret: Addr, now: Word, th: Thread, e: Entry, s: Shared)
    requires EntryAlone(c, t, ret, now, th, s) && th.mode == InEntry(e) && c.hasRet && t > 0
    requires e.at.AskTid? || e.at.PutTid?
    ensures var (th', s') := EntryStep(c, t, th, e, s); EntryAlone(c, t, ret, now, th', s')
  {
  }

  lemma PastAskClock(c: Config, t: Tid, ret: Addr, now: Word, th: Thread, e: Entry, s: Shared)
    requires EntryAlone(c, t, ret, now, th, s) && th.mode == InEntry(e) && c.hasRet && t > 0
    requires e.at.AskClock? || e.at.PutTs?
    ensures var (th', s') := EntryStep(c, t, th, e, s); EntryAlone(c, t, ret, now, th', s')
  {
  }

  lemma PastPutRetval(c: Config, t: Tid, ret: Addr, now: Word, th: Thread, e: Entry, s: Shared)
    requires EntryAlone(c, t, ret, now, th, s) && th.mode == InEntry(e) && c.hasRet && t > 0
    requires e.at.PutRetval?
    ensures var (th', s') := EntryStep(c, t, th, e, s); EntryAlone(c, t, ret, now, th', s')
  {
  }

  lemma PastPutDuration(c: Config, t: Tid, ret: Addr, now: Word, th: Thread, e: Entry, s: Shared)
    requires EntryAlone(c, t, ret, now, th, s) && th.mode == InEntry(e) && c.hasRet && t > 0
    requires e.at.PutDuration?
    ensures var (th', s') := EntryStep(c, t, th, e, s); EntryAlone(c, t, ret, now, th', s')
  {
  }

  lemma PastScan(c: Config, t: Tid, ret: Addr, now: Word, th: Thread, e: Entry, s: Shared)
    requires EntryAlone(c, t, ret, now, th, s) && th.mode == InEntry(e) && c.hasRet && t > 0
    requires e.at.Scan?
    ensures var (th', s') := EntryStep(c, t, th, e, s); EntryAlone(c, t, ret, now, th', s')
  {
  }

  lemma PastLoadTid(c: Config, t: Tid, ret: Addr, now: Word, th: Thread, e: Entry, s: Shared)
    requires EntryAlone(c, t, ret, now, th, s) && th.mode == InEntry(e) && c.hasRet && t > 0
    requires e.at.LoadTid?
    ensures var (th', s') := EntryStep(c, t, th, e, s); EntryAlone(c, t, ret, now, th', s')
  {
  }

  lemma PastClaim(c: Config, t: Tid, ret: Addr, now: Word, th: Thread, e: Entry, s: Shared)
    requires EntryAlone(c, t, ret, now, th, s) && th.mode == InEntry(e) && c.hasRet && t > 0
    requires e.at.Claim?
    ensures var (th', s') := EntryStep(c, t, th, e, s); EntryAlone(c, t, ret, now, th', s')
  {
  }

  lemma PastFound(c: Config, t: Tid, ret: Addr, now: Word, th: Thread, e: Entry, s: Shared)
    requires EntryAlone(c, t, ret, now, th, s) && th.mode == InEntry(e) && c.hasRet && t > 0
    requires e.at.Found?
    ensures var (th', s') := EntryStep(c, t, th, e, s); EntryAlone(c, t, ret, now, th', s')
  {
  }

  lemma PastLoadDepth(c: Config, t: Tid, ret: Addr, now: Word, th: Thread, e: Entry, s: Shared)
    requires EntryAlone(c, t, ret, now, th, s) && th.mode == InEntry(e) && c.hasRet && t > 0
    requires e.at.LoadDepth?
    ensures var (th', s') := EntryStep(c, t, th, e, s); EntryAlone(c, t, ret, now, th', s')
  {
  }

  lemma PastSaveRet(c: Config, t: Tid, ret: Addr, now: Word, th: Thread, e: Entry, s: Shared)
    requires EntryAlone(c, t, ret, now, th, s) && th.mode == InEntry(e) && c.hasRet && t > 0
    requires e.at.SaveRet?
    ensures var (th', s') := EntryStep(c, t, th, e, s); EntryAlone(c, t, ret, now, th', s')
  {
  }

  lemma PastLoadTs(c: Config, t: Tid, ret: Addr, now: Word, th: Thread, e: Entry, s: Shared)
    requires EntryAlone(c, t, ret, now, th, s) && th.mode == InEntry(e) && c.hasRet && t > 0
    requires e.at.LoadTs?
    ensures var (th', s') := EntryStep(c, t, th, e, s); EntryAlone(c, t, ret, now, th', s')
  {
  }

  lemma PastSaveTs(c: Config, t: Tid, ret: Addr, now: Word, th: Thread, e: Entry, s: Shared)
    requires EntryAlone(c, t, ret, now, th, s) && th.mode == InEntry(e) && c.hasRet && t > 0
    requires e.at.SaveTs?
    ensures var (th', s') := EntryStep(c, t, th, e, s); EntryAlone(c, t, ret, now, th', s')
  {
  }

  lemma PastPushDepth(c: Config, t: Tid, ret: Addr, now: Word, th: Thread, e: Entry, s: Shared)
    requires EntryAlone(c, t, ret, now, th, s) && th.mode == InEntry(e) && c.hasRet && t > 0
    requires e.at.PushDepth?
    ensures var (th', s') := EntryStep(c, t, th, e, s); EntryAlone(c, t, ret, now, th', s')
  {
  }

  lemma PastSwap(c: Config, t: Tid, ret: Addr, now: Word, th: Thread, e: Entry, s: Shared)
    requires EntryAlone(c, t, ret, now, th, s) && th.mode == InEntry(e) && c.hasRet && t > 0
    requires e.at.Swap?
    ensures var (th', s') := EntryStep(c, t, th, e, s); EntryAlone(c, t, ret, now, th', s')
  {
  }

  lemma EntryGoesOn(c: Config, t: Tid, ret: Addr, now: Word, th: Thread, e: Entry, s: Shared)
    requires EntryAlone(c, t, ret, now, th, s) && th.mode == InEntry(e) && c.hasRet && t > 0
    ensures var (th', s') := EntryStep(c, t, th, e, s); EntryAlone(c, t, ret, now, th', s')
  {
    hide EntryStep;
    assert !e.at.CmpTid? && !e.at.CmpRace?;
    hide EntryAlone;
    if e.at.Check? || e.at.LoadBuf? { PastCheck(c, t, ret, now, th, e, s); }
    else if e.at.Reserve? { PastReserve(c, t, ret, now, th, e, s); }
    else if e.at.PutPid? || e.at.PutProbe? { PastPutPid(c, t, ret, now, th, e, s); }
    else if e.at.PutKind? { PastPutKind(c, t, ret, now, th, e, s); }
    else if e.at.PutArg? { PastPutArg(c, t, ret, now, th, e, s); }
    else if e.at.AskTid? || e.at.PutTid? { PastAskTid(c, t, ret, now, th, e, s); }
    else if e.at.AskClock? || e.at.PutTs? { PastAskClock(c, t, ret, now, th, e, s); }
    else if e.at.PutRetval? { PastPutRetval(c, t, ret, now, th, e, s); }
    else if e.at.PutDuration? { PastPutDuration(c, t, ret, now, th, e, s); }
    else if e.at.Scan? { PastScan(c, t, ret, now, th, e, s); }
    else if e.at.LoadTid? { PastLoadTid(c, t, ret, now, th, e, s); }
    else if e.at.Claim? { PastClaim(c, t, ret, now, th, e, s); }
    else if e.at.Found? { PastFound(c, t, ret, now, th, e, s); }
    else if e.at.LoadDepth? { PastLoadDepth(c, t, ret, now, th, e, s); }
    else if e.at.SaveRet? { PastSaveRet(c, t, ret, now, th, e, s); }
    else if e.at.LoadTs? { PastLoadTs(c, t, ret, now, th, e, s); }
    else if e.at.SaveTs? { PastSaveTs(c, t, ret, now, th, e, s); }
    else if e.at.PushDepth? { PastPushDepth(c, t, ret, now, th, e, s); }
    else if e.at.Swap? { PastSwap(c, t, ret, now, th, e, s); }
  }

  // ---------------------------------------------------------------- and back through the return stub

  /** The same thread, its clock set back to `now`, on its way through the return stub. */
  ghost predicate ReturnAlone(c: Config, t: Tid, ret: Addr, called: Word, now: Word, th: Thread, s: Shared)
  {
    && SoundShape(s.m) && var m, slot := s.m, s.m.slots[0];
    && s.now == now && m.index == |s.log| && th.cells == [] && s.log != []
    && s.log[0].EntryRec? && s.log[0].ev.Some? && s.log[0].ev.value.ts == called
    && slot.tid == t && slot.rets[0] == ret && slot.tss[0] == called
    && match th.mode
       case InReturn(r) =>
         var k := ReturnRank(r.at);
         && (k >= 1 ==> r.tid == t && r.idx == 0)
         && slot.depth == (if k < 4 then 1 else 0)
         && (k < 4 ==> th.pend == [0]) && (k >= 4 ==> th.popped == 0)
         && (k >= 3 ==> r.d == 0) && (k >= 5 ==> r.a == ret)
         && |s.log| == (if k < 7 then 1 else 2)
         && (k >= 7 ==> th.ticket == 1 && r.i == 1 && s.log[1].ReturnRec? && s.log[1].entry == 0)
         && (r.at.RArg? ==> r.j < 6)
         && (k >= 15 ==> r.ts == now)
         && (r.at.RDuration? ==> r.v == called)
       case _ => Timed(now, th, s)
  }

  /** The call is over, and its return event carries the time `now`. */
  ghost predicate Timed(now: Word, th: Thread, s: Shared)
  {
    && th.mode.User? && |s.log| == 2 && s.log[1].ReturnRec? && s.log[1].entry == 0
    && s.log[1].ev.Some? && s.log[1].ev.value.ts == now
  }

  lemma PastRTid(c: Config, t: Tid, ret: Addr, called: Word, now: Word, th: Thread, r: Return, s: Shared)
    requires ReturnAlone(c, t, ret, called, now, th, s) && th.mode == InReturn(r) && ret != c.retStub
    requires r.at.RTid? || r.at.RScan?
    ensures var (th', s') := ReturnStep(c, t, th, r, s); ReturnAlone(c, t, ret, called, now, th', s')
  {
  }

  lemma PastRDepth(c: Config, t: Tid, ret: Addr, called: Word, now: Word, th: Thread, r: Return, s: Shared)
    requires ReturnAlone(c, t, ret, called, now, th, s) && th.mode == InReturn(r) && ret != c.retStub
    requires r.at.RDepth?
    ensures var (th', s') := ReturnStep(c, t, th, r, s); ReturnAlone(c, t, ret, called, now, th', s')
  {
  }

  lemma PastRPop(c: Config, t: Tid, ret: Addr, called: Word, now: Word, th: Thread, r: Return, s: Shared)
    requires ReturnAlone(c, t, ret, called, now, th, s) && th.mode == InReturn(r) && ret != c.retStub
    requires r.at.RPop?
    ensures var (th', s') := ReturnStep(c, t, th, r, s); ReturnAlone(c, t, ret, called, now, th', s')
  {
  }

  lemma PastRLoadRet(c: Config, t: Tid, ret: Addr, called: Word, now: Word, th: Thread, r: Return, s: Shared)
    requires ReturnAlone(c, t, ret, called, now, th, s) && th.mode == InReturn(r) && ret != c.retStub
    requires r.at.RLoadRet? || r.at.RLoadBuf?
    ensures var (th', s') := ReturnStep(c, t, th, r, s); ReturnAlone(c, t, ret, called, now, th', s')
  {
  }

  lemma PastRReserve(c: Config, t: Tid, ret: Addr, called: Word, now: Word, th: Thread, r: Return, s: Shared)
    requires ReturnAlone(c, t, ret, called, now, th, s) && th.mode == InReturn(r) && ret != c.retStub
    requires r.at.RReserve?
    ensures var (th', s') := ReturnStep(c, t, th, r, s); ReturnAlone(c, t, ret, called, now, th', s')
  {
  }

  lemma PastRPid(c: Config, t: Tid, ret: Addr, called: Word, now: Word, th: Thread, r: Return, s: Shared)
    requires ReturnAlone(c, t, ret, called, now, th, s) && th.mode == InReturn(r) && ret != c.retStub
    requires r.at.RPid? || r.at.RLoadTid?
    ensures var (th', s') := ReturnStep(c, t, th, r, s); ReturnAlone(c, t, ret, called, now, th', s')
  {
  }

  lemma PastRPutTid(c: Config, t: Tid, ret: Addr, called: Word, now: Word, th: Thread, r: Return, s: Shared)
    requires ReturnAlone(c, t, ret, called, now, th, s) && th.mode == InReturn(r) && ret != c.retStub
    requires r.at.RPutTid?
    ensures var (th', s') := ReturnStep(c, t, th, r, s); ReturnAlone(c, t, ret, called, now, th', s')
  {
  }

  lemma PastRProbe(c: Config, t: Tid, ret: Addr, called: Word, now: Word, th: Thread, r: Return, s: Shared)
    requires ReturnAlone(c, t, ret, called, now, th, s) && th.mode == InReturn(r) && ret != c.retStub
    requires r.at.RProbe?
    ensures var (th', s') := ReturnStep(c, t, th, r, s); ReturnAlone(c, t, ret, called, now, th', s')
  {
  }

  lemma PastRKind(c: Config, t: Tid, ret: Addr, called: Word, now: Word, th: Thread, r: Return, s: Shared)
    requires ReturnAlone(c, t, ret, called, now, th, s) && th.mode == InReturn(r) && ret != c.retStub
    requires r.at.RKind?
    ensures var (th', s') := ReturnStep(c, t, th, r, s); ReturnAlone(c, t, ret, called, now, th', s')
  {
  }

  lemma PastRArg(c: Config, t: Tid, ret: Addr, called: Word, now: Word, th: Thread, r: Return, s: Shared)
    requires ReturnAlone(c, t, ret, called, now, th, s) && th.mode == InReturn(r) && ret != c.retStub
    requires r.at.RArg?
    ensures var (th', s') := ReturnStep(c, t, th, r, s); ReturnAlone(c, t, ret, called, now, th', s')
  {
  }

  lemma PastRRetval(c: Config, t: Tid, ret: Addr, called: Word, now: Word, th: Thread, r: Return, s: Shared)
    requires ReturnAlone(c, t, ret, called, now, th, s) && th.mode == InReturn(r) && ret != c.retStub
    requires r.at.RRetval?
    ensures var (th', s') := ReturnStep(c, t, th, r, s); ReturnAlone(c, t, ret, called, now, th', s')
  {
  }

  lemma PastRClock(c: Config, t: Tid, ret: Addr, called: Word, now: Word, th: Thread, r: Return, s: Shared)
    requires ReturnAlone(c, t, ret, called, now, th, s) && th.mode == InReturn(r) && ret != c.retStub
    requires r.at.RClock? || r.at.RTs?
    ensures var (th', s') := ReturnStep(c, t, th, r, s); ReturnAlone(c, t, ret, called, now, th', s')
  {
  }

  lemma PastRLoadTs(c: Config, t: Tid, ret: Addr, called: Word, now: Word, th: Thread, r: Return, s: Shared)
    requires ReturnAlone(c, t, ret, called, now, th, s) && th.mode == InReturn(r) && ret != c.retStub
    requires r.at.RLoadTs?
    ensures var (th', s') := ReturnStep(c, t, th, r, s); ReturnAlone(c, t, ret, called, now, th', s')
  {
  }

  lemma PastRDuration(c: Config, t: Tid, ret: Addr, called: Word, now: Word, th: Thread, r: Return, s: Shared)
    requires ReturnAlone(c, t, ret, called, now, th, s) && th.mode == InReturn(r) && ret != c.retStub
    requires r.at.RDuration?
    ensures var (th', s') := ReturnStep(c, t, th, r, s); ReturnAlone(c, t, ret, called, now, th', s')
  {
  }

  lemma ReturnGoesOn(c: Config, t: Tid, ret: Addr, called: Word, now: Word, th: Thread, r: Return, s: Shared)
    requires ReturnAlone(c, t, ret, called, now, th, s) && th.mode == InReturn(r) && ret != c.retStub
    ensures var (th', s') := ReturnStep(c, t, th, r, s); ReturnAlone(c, t, ret, called, now, th', s')
  {
    hide ReturnStep, ReturnAlone;
    if r.at.RTid? || r.at.RScan? { PastRTid(c, t, ret, called, now, th, r, s); }
    else if r.at.RDepth? { PastRDepth(c, t, ret, called, now, th, r, s); }
    else if r.at.RPop? { PastRPop(c, t, ret, called, now, th, r, s); }
    else if r.at.RLoadRet? || r.at.RLoadBuf? { PastRLoadRet(c, t, ret, called, now, th, r, s); }
    else if r.at.RReserve? { PastRReserve(c, t, ret, called, now, th, r, s); }
    else if r.at.RPid? || r.at.RLoadTid? { PastRPid(c, t, ret, called, now, th, r, s); }
    else if r.at.RPutTid? { PastRPutTid(c, t, ret, called, now, th, r, s); }
    else if r.at.RProbe? { PastRProbe(c, t, ret, called, now, th, r, s); }
    else if r.at.RKind? { PastRKind(c, t, ret, called, now, th, r, s); }
    else if r.at.RArg? { PastRArg(c, t, ret, called, now, th, r, s); }
    else if r.at.RRetval? { PastRRetval(c, t, ret, called, now, th, r, s); }
    else if r.at.RClock? || r.at.RTs? { PastRClock(c, t, ret, called, now, th, r, s); }
    else if r.at.RLoadTs? { PastRLoadTs(c, t, ret, called, now, th, r, s); }
    else if r.at.RDuration? { PastRDuration(c, t, ret, called, now, th, r, s); }
  }

  // ---------------------------------------------------------------- the whole run

  predicate Alone(w: World, t: Tid)
  {
    w.threads.Keys == {t}
  }

  lemma AloneHasRoom(c: Config, w: World, t: Tid)
    requires Alone(w, t) && (w.threads[t].mode.InEntry? || w.threads[t].mode.InReturn?)
    ensures Allowed(c, w, Run(t)) && Alone(Apply(c, w, Run(t)), t)
    ensures var (th', s') := StubStep(c, t, w.threads[t], w.s);
            Apply(c, w, Run(t)).threads[t] == th' && Apply(c, w, Run(t)).s == s'
  {
    assert AtReserve(w.threads[t]) ==> Held(w.threads[t]).None?;
  }

  lemma EntryNotDone(c: Config, t: Tid, ret: Addr, now: Word, th: Thread, e: Entry, s: Shared)
    requires EntryAlone(c, t, ret, now, th, s) && th.mode == InEntry(e) && c.hasRet && t > 0
    ensures var th' := EntryStep(c, t, th, e, s).0;
            th'.mode.User? || (th'.mode.InEntry? && EntryLeft(th'.mode.e) < EntryLeft(e))
  {
    var a := EntryRequest(c, e, Last(th.cells));
    var resp := Perform(c, s.m, t, s.now, a).1;
    EntryGoesOn(c, t, ret, now, th, e, s);
    hide EntryAlone, Perform;
    var th' := EntryStep(c, t, th, e, s).0;
    if th'.mode.InEntry? {
      EntryNearer(c, e, resp);
    }
  }

  lemma {:induction false} FinishEntry(c: Config, t: Tid, ret: Addr, now: Word, w: World) returns (steps: seq<Step>)
    requires Alone(w, t) && EntryAlone(c, t, ret, now, w.threads[t], w.s) && c.hasRet && t > 0
    requires w.threads[t].mode.InEntry?
    ensures Legal(c, w, steps) && Alone(Exec(c, w, steps), t)
    ensures SoundShape(Exec(c, w, steps).s.m)
    ensures Hooked(c, t, ret, now, Exec(c, w, steps).threads[t], Exec(c, w, steps).s)
    decreases EntryLeft(w.threads[t].mode.e)
  {
    var th := w.threads[t];
    EntryGoesOn(c, t, ret, now, th, th.mode.e, w.s);
    EntryNotDone(c, t, ret, now, th, th.mode.e, w.s);
    AloneHasRoom(c, w, t);
    hide EntryStep, Allowed, Apply, Hooked;
    var w' := Apply(c, w, Run(t));
    if w'.threads[t].mode.InEntry? {
      hide EntryAlone;
      var rest := FinishEntry(c, t, ret, now, w');
      steps := [Run(t)] + rest;
      assert steps[1..] == rest;
    } else {
      steps := [Run(t)];
      assert steps[1..] == [];
    }
  }

  lemma ReturnNotDone(c: Config, t: Tid, ret: Addr, called: Word, now: Word, th: Thread, r: Return, s: Shared)
    requires ReturnAlone(c, t, ret, called, now, th, s) && th.mode == InReturn(r) && ret != c.retStub
    ensures var th' := ReturnStep(c, t, th, r, s).0;
            th'.mode.User? || (th'.mode.InReturn? && ReturnLeft(th'.mode.r) < ReturnLeft(r))
  {
    var resp := Perform(c, s.m, t, s.now, ReturnRequest(c, r)).1;
    ReturnGoesOn(c, t, ret, called, now, th, r, s);
    assert r.at.RArg? ==> r.j < 6;
    assert r.at.RDuration? ==> r.a == ret;
    var th' := ReturnStep(c, t, th, r, s).0;
    assert th'.mode.User? || th'.mode.InReturn?;
    hide ReturnAlone, Perform;
    ResumesLast(r, resp);
    if ReturnNext(r, resp).Go? {
      ReturnNearer(r, resp);
    }
  }

  lemma {:induction false} FinishReturn(c: Config, t: Tid, ret: Addr, called: Word, now: Word, w: World)
    returns (steps: seq<Step>)
    requires Alone(w, t) && ReturnAlone(c, t, ret, called, now, w.threads[t], w.s) && ret != c.retStub
    requires w.threads[t].mode.InReturn?
    ensures Legal(c, w, steps) && Alone(Exec(c, w, steps), t)
    ensures var w' := Exec(c, w, steps); Timed(now, w'.threads[t], w'.s) && EnteredAt(called, w'.s)
    decreases ReturnLeft(w.threads[t].mode.r)
  {
    var th := w.threads[t];
    ReturnGoesOn(c, t, ret, called, now, th, th.mode.r, w.s);
    ReturnNotDone(c, t, ret, called, now, th, th.mode.r, w.s);
    AloneHasRoom(c, w, t);
    hide ReturnStep, Allowed, Apply, Timed;
    var w' := Apply(c, w, Run(t));
    if w'.threads[t].mode.InReturn? {
      hide ReturnAlone;
      var rest := FinishReturn(c, t, ret, called, now, w');
      steps := [Run(t)] + rest;
      assert steps[1..] == rest;
    } else {
      steps := [Run(t)];
      assert steps[1..] == [];
    }
  }

  ghost predicate EnteredAt(called: Word, s: Shared)
  {
    s.log != [] && s.log[0].EntryRec? && s.log[0].ev.Some? && s.log[0].ev.value.ts == called
  }

  lemma TwoSteps(c: Config, w: World, p: Step, q: Step)
    requires Allowed(c, w, p) && Allowed(c, Apply(c, w, p), q)
    ensures Legal(c, w, [p, q]) && Exec(c, w, [p, q]) == Apply(c, Apply(c, w, p), q)
  {
    hide Allowed, Apply;
    var w1 := Apply(c, w, p);
    assert [p, q][1..] == [q];
    assert Legal(c, w1, [q]) && Exec(c, w1, [q]) == Apply(c, w1, q) by { assert [q][1..] == []; }
  }

  lemma Begins(c: Config, t: Tid, ret: Addr, args: seq<Word>, now: Word) returns (w: World)
    requires 0 < t < TWO32 && ret != c.retStub && ret < TWO64 && Arguments(args)
    ensures var steps := [Spawn(t), Call(t, ret, args)];
            Legal(c, Init(1, now), steps) && Exec(c, Init(1, now), steps) == w
    ensures Alone(w, t) && w.threads[t].mode.InEntry? && EntryAlone(c, t, ret, now, w.threads[t], w.s)
  {
    var w0 := Init(1, now);
    var w1 := Apply(c, w0, Spawn(t));
    w := Apply(c, w1, Call(t, ret, args));
    TwoSteps(c, w0, Spawn(t), Call(t, ret, args));
  }

  lemma ComesBack(c: Config, t: Tid, ret: Addr, now: Word, back: Word, retval: Word, w: World) returns (w': World)
    requires Alone(w, t) && SoundShape(w.s.m) && Hooked(c, t, ret, now, w.threads[t], w.s)
    requires back < TWO64 && retval < TWO64
    ensures var steps := [Tick(back), Ret(t, retval)]; Legal(c, w, steps) && Exec(c, w, steps) == w'
    ensures Alone(w', t) && w'.threads[t].mode.InReturn?
    ensures ReturnAlone(c, t, ret, now, back, w'.threads[t], w'.s)
  {
    w' := Apply(c, Apply(c, w, Tick(back)), Ret(t, retval));
    TwoSteps(c, w, Tick(back), Ret(t, retval));
  }

  /** Whenever the clock is set back between the two readings, one hooked call records a negative
      difference modulo 2^64: the run is a single thread's. */
  lemma ClockSetBack(c: Config, t: Tid, ret: Addr, args: seq<Word>, retval: Word, now: Word, back: Word)
    returns (steps: seq<Step>)
    requires c.hasRet && 0 < t < TWO32 && ret != c.retStub && ret < TWO64 && Arguments(args) && retval < TWO64
    requires back < now < TWO64
    ensures Legal(c, Init(1, now), steps)
    ensures var log := Exec(c, Init(1, now), steps).s.log;
            && |log| == 2 && log[0].EntryRec? && log[1].ReturnRec? && log[1].entry == 0
            && log[0].ev.Some? && log[0].ev.value.ts == now
            && log[1].ev.Some? && log[1].ev.value.ts == back && log[1].ev.value.duration == TWO64 - (now - back)
  {
    hide *;
    var w1 := Begins(c, t, ret, args, now);
    var entry := FinishEntry(c, t, ret, now, w1);
    var w2 := Exec(c, w1, entry);
    var w3 := ComesBack(c, t, ret, now, back, retval, w2);
    var exit := FinishReturn(c, t, ret, now, back, w3);
    var call, turn := [Spawn(t), Call(t, ret, args)], [Tick(back), Ret(t, retval)];
    RunsOn(c, w2, turn, exit);
    RunsOn(c, w1, entry, turn + exit);
    RunsOn(c, Init(1, now), call, entry + (turn + exit));
    steps := call + (entry + (turn + exit));
    var w := Exec(c, Init(1, now), steps);
    RunReaches(c, 1, now, steps);
    TimedPair(c, t, now, back, w);
  }

  lemma TimedPair(c: Config, t: Tid, now: Word, back: Word, w: World)
    requires Reached(c, w) && back < now && Alone(w, t) && Timed(back, w.threads[t], w.s) && EnteredAt(now, w.s)
    ensures var log := w.s.log;
            && |log| == 2 && log[0].EntryRec? && log[1].ReturnRec? && log[1].entry == 0
            && log[0].ev.Some? && log[0].ev.value.ts == now
            && log[1].ev.Some? && log[1].ev.value.ts == back && log[1].ev.value.duration == TWO64 - (now - back)
  {
    DurationsMatch(c, w, 1);
  }
}
