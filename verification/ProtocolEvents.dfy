/** What the recorded events say, over whole runs: none is lost or invented, each return event is
    matched with its own entry event, times nest as calls do, and every stub run is bounded. */
module ProtocolEvents {
  import opened Wrappers
  import opened Protocol
  import opened ProtocolInvariant
  import opened ProtocolEntry
  import opened ProtocolReturn
  import opened ProtocolTheorem

  /** The world after a legal run from a fresh installation. */
  ghost predicate Reached(c: Config, w: World)
  {
    exists enabled: Word, now: Word, steps: seq<Step> ::
      now < TWO64 && Legal(c, Init(enabled, now), steps) && w == Exec(c, Init(enabled, now), steps)
  }

  lemma RunReaches(c: Config, enabled: Word, now: Word, steps: seq<Step>)
    requires now < TWO64 && Legal(c, Init(enabled, now), steps)
    ensures Reached(c, Exec(c, Init(enabled, now), steps))
  {
  }

  lemma {:induction false} RunsOn(c: Config, w: World, a: seq<Step>, b: seq<Step>)
    requires Legal(c, w, a) && Legal(c, Exec(c, w, a), b)
    ensures Legal(c, w, a + b) && Exec(c, w, a + b) == Exec(c, Exec(c, w, a), b)
    decreases |a|
  {
    if a == [] {
      assert a + b == b;
    } else {
      assert (a + b)[1..] == a[1..] + b;
      RunsOn(c, Apply(c, w, a[0]), a[1..], b);
    }
  }

  lemma ReachedSim(c: Config, w: World) returns (p: Plain)
    requires Reached(c, w)
    ensures Sim(c, w, p)
  {
    hide Sim, Init, Exec, Legal;
    var enabled: Word, now: Word, steps: seq<Step> :|
      now < TWO64 && Legal(c, Init(enabled, now), steps) && w == Exec(c, Init(enabled, now), steps);
    InitSim(c, enabled, now);
    RunSim(c, Init(enabled, now), steps, map[]);
    p := PlainRun(map[], Trace(c, Init(enabled, now), steps)).value;
  }

  /** No thread is inside a stub. */
  ghost predicate AtRest(w: World)
  {
    forall t :: t in w.threads ==> w.threads[t].mode.User?
  }

  // ---------------------------------------------------------------- conservation

  lemma {:induction false} EveryRecordCounted(log: Log)
    ensures |log| == Count(log, IsEntry) + Count(log, IsReturn)
    ensures Count(log, IsEntry) == Count(log, IsOpen) + Count(log, IsUnhooked) + Count(log, IsPending)
                                   + Count(log, IsPopped) + Count(log, IsClosed)
  {
    if log != [] {
      EveryRecordCounted(Front(log));
    }
  }

  lemma {:induction false} NoneCounted(log: Log, p: Rec -> bool)
    requires forall n :: 0 <= n < |log| ==> !p(log[n])
    ensures Count(log, p) == 0
  {
    if log != [] {
      NoneCounted(Front(log), p);
    }
  }

  lemma RestRecords(c: Config, w: World, p: Plain)
    requires Sim(c, w, p) && AtRest(w)
    ensures forall n :: 0 <= n < |w.s.log| ==>
              w.s.log[n].ev.Some? && !IsOpen(w.s.log[n]) && !IsPopped(w.s.log[n])
  {
    hide PendInv, Resolves, LogInv, NestInv, TimeInv, CountInv;
    forall n | 0 <= n < |w.s.log|
      ensures w.s.log[n].ev.Some? && !IsOpen(w.s.log[n]) && !IsPopped(w.s.log[n])
    {
      var t := w.s.log[n].tid;
      if t in w.threads { assert ThreadInv(c, t, w.threads[t], w.s, p[t]); }
    }
  }

  /** Event conservation: the write index counts entry and return events, and with nobody inside a
      stub the entry events are the return events, the calls still on a shadow stack, and the calls
      whose return was left alone. */
  lemma EventsConserved(c: Config, w: World)
    requires Reached(c, w) && AtRest(w)
    ensures w.s.m.index == (Count(w.s.log, IsEntry) + Count(w.s.log, IsReturn)) % TWO64
    ensures Count(w.s.log, IsEntry)
         == Count(w.s.log, IsReturn) + SumDepth(w.s.m.slots) + Count(w.s.log, IsUnhooked)
  {
    var p := ReachedSim(c, w);
    EveryRecordCounted(w.s.log);
    RestRecords(c, w, p);
    NoneCounted(w.s.log, IsOpen);
    NoneCounted(w.s.log, IsPopped);
  }

  function Occurs(a: Addr, s: seq<Addr>): nat
  {
    if s == [] then 0 else Occurs(a, Front(s)) + Bit(Last(s) == a)
  }

  lemma {:induction false} HookedCells(stub: Addr, cells: seq<Addr>, shadow: seq<Addr>, plain: seq<Addr>)
    requires Resolves(stub, cells, shadow, plain)
    ensures |cells| == |plain|
    ensures |shadow| == Occurs(stub, cells) + Occurs(stub, shadow)
    decreases |cells| + |shadow|
  {
    if cells != [] {
      if Last(cells) != stub {
        HookedCells(stub, Front(cells), shadow, Front(plain));
      } else if Last(shadow) == stub {
        HookedCells(stub, cells, Front(shadow), plain);
      } else {
        HookedCells(stub, Front(cells), Front(shadow), Front(plain));
      }
    }
  }

  /** The depth of a thread's slot is the number of its live return cells holding the stub address,
      plus one for each time such a call was entered by a jump. */
  lemma DepthCountsHookedCells(c: Config, w: World, t: Tid)
    requires Reached(c, w) && t in w.threads && w.threads[t].mode.User?
    ensures var shadow := Shadow(w.s.m.slots, t);
            && DepthOf(w.s.m.slots, t) == |shadow|
            && |shadow| == Occurs(c.retStub, w.threads[t].cells) + Occurs(c.retStub, shadow)
  {
    hide LogInv, NestInv, TimeInv, CountInv, OwnRecords, Resolves;
    var p := ReachedSim(c, w);
    assert ThreadInv(c, t, w.threads[t], w.s, p[t]);
    HookedCells(c.retStub, w.threads[t].cells, Shadow(w.s.m.slots, t), p[t]);
  }

  // ---------------------------------------------------------------- slots

  /** Claimed slots form a prefix and hold distinct threads. */
  lemma SlotTableShape(c: Config, w: World)
    requires Reached(c, w)
    ensures |w.s.m.slots| == THREADS
    ensures forall j, k :: 0 <= j < k < THREADS && w.s.m.slots[k].tid != 0 ==>
              w.s.m.slots[j].tid != 0 && w.s.m.slots[j].tid != w.s.m.slots[k].tid
    ensures forall k :: 0 <= k < THREADS ==> w.s.m.slots[k].depth <= DEPTH
  {
    hide ThreadInv, RingInv, LogInv, NestInv, TimeInv, CountInv;
    var p := ReachedSim(c, w);
  }

  lemma StepKeepsClaims(c: Config, w: World, st: Step, p: Plain)
    requires Sim(c, w, p) && Allowed(c, w, st)
    ensures |w.s.m.slots| == |Apply(c, w, st).s.m.slots| == THREADS
    ensures forall k :: 0 <= k < THREADS && w.s.m.slots[k].tid != 0 ==>
              Apply(c, w, st).s.m.slots[k].tid == w.s.m.slots[k].tid
  {
    hide ThreadInv, RingInv, LogInv, NestInv, TimeInv, CountInv, EntryStep, ReturnStep;
    if st.Run? {
      var th := w.threads[st.t];
      assert ThreadInv(c, st.t, th, w.s, p[st.t]);
      match th.mode {
        case InEntry(e) => EntryKeeps(c, st.t, th, e, w.s, p[st.t]);
        case InReturn(r) => ReturnKeeps(c, st.t, th, r, w.s, p[st.t]);
      }
    }
  }

  /** A claimed slot is never released or handed over. */
  lemma {:induction false} ClaimsAreForever(c: Config, w: World, steps: seq<Step>, p: Plain, k: nat)
    requires Sim(c, w, p) && Legal(c, w, steps) && k < THREADS
    ensures |w.s.m.slots| == |Exec(c, w, steps).s.m.slots| == THREADS
    ensures w.s.m.slots[k].tid != 0 ==> Exec(c, w, steps).s.m.slots[k].tid == w.s.m.slots[k].tid
    decreases |steps|
  {
    hide Sim, Allowed, Apply, Show;
    if steps == [] {
      SimThreads(c, w, p);
    } else {
      StepKeepsClaims(c, w, steps[0], p);
      StepKeeps(c, w, steps[0], p);
      ClaimsAreForever(c, Apply(c, w, steps[0]), steps[1..], PlainRun(p, Show(c, w, steps[0])).value, k);
    }
  }

  lemma SimThreads(c: Config, w: World, p: Plain)
    requires Sim(c, w, p)
    ensures |w.s.m.slots| == THREADS
  {
  }

  /** Past its scan, the return stub is at the one slot its thread's entry stub used, and that slot
      still has an entry to pop. */
  lemma ScanFindsOwnSlot(c: Config, w: World, t: Tid)
    requires Reached(c, w) && t in w.threads && w.threads[t].mode.InReturn?
    requires 2 <= ReturnRank(w.threads[t].mode.r.at) < 4
    ensures var r := w.threads[t].mode.r; var slots := w.s.m.slots;
            && r.idx < |slots| && slots[r.idx].tid == t && slots[r.idx].depth > 0
            && (forall k :: 0 <= k < |slots| && slots[k].tid == t ==> k == r.idx)
            && (forall n :: n in w.threads[t].pend ==>
                  n < |w.s.log| && IsPending(w.s.log[n]) && w.s.log[n].tid == t)
            && |w.threads[t].pend| == slots[r.idx].depth
  {
    hide RingInv, LogInv, NestInv, TimeInv, CountInv, OwnRecords;
    var p := ReachedSim(c, w);
    var th := w.threads[t];
    assert ThreadInv(c, t, th, w.s, p[t]);
    PopResolves(c.retStub, th.cells, Shadow(w.s.m.slots, t), p[t]);
    HomeIs(t, w.s.m.slots, th.mode.r.idx);
    forall n | n in th.pend
      ensures n < |w.s.log| && IsPending(w.s.log[n]) && w.s.log[n].tid == t
    {
      var j :| 0 <= j < |th.pend| && th.pend[j] == n;
      assert PendOk(t, th.pend[j], w.s.m.slots[th.mode.r.idx].tss[j], w.s.log);
    }
  }

  // ---------------------------------------------------------------- times

  /** A return event belongs to one entry event of its thread, carries that call's result, and its
      duration is the difference of the two times modulo 2^64: the elapsed time exactly when the
      clock reads no earlier at the return than at the entry. */
  lemma DurationsMatch(c: Config, w: World, n: nat)
    requires Reached(c, w) && n < |w.s.log| && w.s.log[n].ReturnRec? && w.s.log[n].ev.Some?
    ensures var r := w.s.log[n];
            && r.entry < n && w.s.log[r.entry].EntryRec?
            && w.s.log[r.entry].tid == r.tid && w.s.log[r.entry].fate == Closed(n)
            && w.s.log[r.entry].ev.Some?
    ensures var ev, en := w.s.log[n].ev.value, w.s.log[w.s.log[n].entry].ev.value;
            && ev.tid == en.tid == w.s.log[n].tid && ev.retval == w.s.log[n].retval
            && (ev.duration == ev.ts - en.ts <==> en.ts <= ev.ts)
            && (ev.ts < en.ts ==> ev.duration == TWO64 - (en.ts - ev.ts))
            && (w.s.steady ==> en.ts <= ev.ts)
  {
    hide ThreadInv, SlotInv, RingInv, NestInv, CountInv;
    var p := ReachedSim(c, w);
    assert RecOk(c, w.s.log, n);
    assert RecOk(c, w.s.log, w.s.log[n].entry);
  }

  /** Two return events never share an entry event. */
  lemma MatchesAreUnique(c: Config, w: World, m: nat, n: nat)
    requires Reached(c, w) && m < |w.s.log| && n < |w.s.log|
    requires w.s.log[m].ReturnRec? && w.s.log[n].ReturnRec? && w.s.log[m].entry == w.s.log[n].entry
    ensures m == n
  {
    hide ThreadInv, SlotInv, RingInv, NestInv, TimeInv, CountInv;
    var p := ReachedSim(c, w);
    assert RecOk(c, w.s.log, m) && RecOk(c, w.s.log, n);
  }

  /** A call entered while another of its thread is outstanding was refused a push or returns first; and
      then, as long as the clock is never set back, its interval lies inside the other's. */
  lemma InnerCallsNest(c: Config, w: World, outer: nat, inner: nat)
    requires Reached(c, w) && outer < inner < |w.s.log|
    requires IsClosed(w.s.log[outer]) && w.s.log[inner].EntryRec?
    requires w.s.log[outer].tid == w.s.log[inner].tid && inner < w.s.log[outer].fate.ret
    ensures IsUnhooked(w.s.log[inner]) || IsClosed(w.s.log[inner])
    ensures w.s.log[outer].fate.ret < |w.s.log|
    ensures IsClosed(w.s.log[inner]) ==> inner < w.s.log[inner].fate.ret < w.s.log[outer].fate.ret
    ensures var r1 := w.s.log[outer].fate.ret;
            w.s.steady && w.s.log[r1].ev.Some? ==>
              && w.s.log[outer].ev.Some?
              && (w.s.log[inner].ev.Some? ==>
                    w.s.log[outer].ev.value.ts <= w.s.log[inner].ev.value.ts <= w.s.log[r1].ev.value.ts)
              && (IsClosed(w.s.log[inner]) && w.s.log[w.s.log[inner].fate.ret].ev.Some? ==>
                    var r2 := w.s.log[inner].fate.ret;
                    && w.s.log[inner].ev.Some?
                    && w.s.log[inner].ev.value.ts <= w.s.log[r2].ev.value.ts <= w.s.log[r1].ev.value.ts)
  {
    hide ThreadInv, SlotInv, RingInv, CountInv;
    var p := ReachedSim(c, w);
    assert RecOk(c, w.s.log, outer) && RecOk(c, w.s.log, inner);
    assert RecOk(c, w.s.log, w.s.log[outer].fate.ret);
    if IsClosed(w.s.log[inner]) {
      assert RecOk(c, w.s.log, w.s.log[inner].fate.ret);
    }
  }

  /** An entry event records the arguments of its call and nothing else; so does a return event its
      result. */
  lemma EventContents(c: Config, w: World, n: nat)
    requires Reached(c, w) && n < |w.s.log| && w.s.log[n].ev.Some?
    ensures var ev := w.s.log[n].ev.value;
            && ev.pid == c.pid && ev.probeId == c.probeId && ev.tid == w.s.log[n].tid
            && (w.s.log[n].EntryRec? ==> ev.kind == ENTRY_EVENT && ev.args == w.s.log[n].args
                                         && ev.retval == 0 && ev.duration == 0)
            && (w.s.log[n].ReturnRec? ==> ev.kind == RETURN_EVENT && ev.args == [0, 0, 0, 0, 0, 0]
                                          && ev.retval == w.s.log[n].retval)
  {
    hide ThreadInv, SlotInv, RingInv, NestInv, TimeInv, CountInv;
    var p := ReachedSim(c, w);
    assert RecOk(c, w.s.log, n);
  }

  /** With nobody inside a stub the ring holds the last lap of the log. */
  lemma RingHoldsLastLap(c: Config, w: World, n: nat)
    requires Reached(c, w) && AtRest(w) && n < |w.s.log| <= n + CAPACITY
    ensures |w.s.m.ring| == CAPACITY
    ensures w.s.log[n].ev == Some(w.s.m.ring[n % CAPACITY])
  {
    hide ThreadInv, SlotInv, LogInv, NestInv, TimeInv, CountInv;
    var p := ReachedSim(c, w);
    RestRecords(c, w, p);
  }

  /** The write index counts the tickets, as a 64-bit number, and every ring slot has six arguments. */
  lemma RingShape(c: Config, w: World)
    requires Reached(c, w)
    ensures w.s.m.index == |w.s.log| % TWO64 && |w.s.m.ring| == CAPACITY
    ensures forall i :: 0 <= i < CAPACITY ==> |w.s.m.ring[i].args| == 6
  {
    hide ThreadInv, SlotInv, LogInv, NestInv, TimeInv, CountInv;
    var p := ReachedSim(c, w);
  }

  // ---------------------------------------------------------------- bounded stubs

  /** An upper bound on the steps the entry stub still takes. */
  function EntryLeft(e: Entry): nat
  {
    var k := EntryRank(e.at);
    if k < 6 then 1350 + (6 - k)
    else if k == 6 then 1340 + (if e.j < 6 then 6 - e.j else 0)
    else if k < 13 then 1330 + (13 - k)
    else if k < 18 then 8 + 5 * (if e.idx < THREADS then THREADS - e.idx else 0) + (18 - k)
    else 25 - k
  }

  function ReturnLeft(r: Return): nat
  {
    var k := ReturnRank(r.at);
    if k == 0 then 300
    else if k == 1 then 30 + (if r.idx < THREADS then THREADS - r.idx else 0)
    else if k < 12 then 23 + (12 - k) - 5
    else if k == 12 then 6 + (if r.j < 6 then 6 - r.j else 0)
    else 18 - k
  }

  lemma EntryNearer(c: Config, e: Entry, resp: Word)
    requires EntryNext(c, e, resp).Some? && (e.at.PutArg? ==> e.j < 6)
    requires e.at.CmpTid? || e.at.CmpRace? ==> e.idx < THREADS
    ensures EntryLeft(EntryNext(c, e, resp).value) < EntryLeft(e) <= 1356
  {
  }

  lemma ReturnNearer(r: Return, resp: Word)
    requires ReturnNext(r, resp).Go? && (r.at.RArg? ==> r.j < 6)
    ensures ReturnLeft(ReturnNext(r, resp).r) < ReturnLeft(r) <= 300
  {
  }

  lemma ResumesLast(r: Return, resp: Word)
    ensures ReturnNext(r, resp).Resume? <==> r.at.RDuration?
  {
  }

  /** Each stub is bounded in its own steps, whatever the other threads do: every step of the entry
      stub brings its end nearer. */
  lemma EntryBounded(c: Config, t: Tid, th: Thread, e: Entry, s: Shared, plain: seq<Addr>)
    requires MemInv(c, s) && ThreadInv(c, t, th, s, plain) && th.mode == InEntry(e)
    ensures var th' := EntryStep(c, t, th, e, s).0;
            th'.mode.User? || (th'.mode.InEntry? && EntryLeft(th'.mode.e) < EntryLeft(e) <= 1356)
  {
    hide OwnRecords, PendInv, Resolves, SlotInv, RingInv, LogInv, NestInv, TimeInv, CountInv, StepOk;
    hide EntryNext, EntryRequest, Perform, EntryLeft;
    EntryKeeps(c, t, th, e, s, plain);
    var resp := Perform(c, s.m, t, s.now, EntryRequest(c, e, Last(th.cells))).1;
    if EntryNext(c, e, resp).Some? { EntryNearer(c, e, resp); }
  }

  /** Every step of the return stub brings its end nearer, and one of them shortens the thread's
      shadow stack: so do chains of return stubs, where one lands on the next, come to an end. */
  lemma ReturnBounded(c: Config, t: Tid, th: Thread, r: Return, s: Shared, plain: seq<Addr>)
    requires MemInv(c, s) && ThreadInv(c, t, th, s, plain) && th.mode == InReturn(r)
    ensures var th' := ReturnStep(c, t, th, r, s).0;
            if r.at.RDuration? then th'.mode.User? || th'.mode == InReturn(StartReturn(r.retval))
            else th'.mode.InReturn? && ReturnLeft(th'.mode.r) < ReturnLeft(r) <= 300
    ensures |ReturnStep(c, t, th, r, s).0.pend| + Bit(r.at.RPop?) == |th.pend|
  {
    hide OwnRecords, PendInv, Resolves, SlotInv, RingInv, LogInv, NestInv, TimeInv, CountInv, StepOk;
    hide ReturnNext, ReturnRequest, Perform, ReturnLeft;
    ReturnKeeps(c, t, th, r, s, plain);
    var resp := Perform(c, s.m, t, s.now, ReturnRequest(c, r)).1;
    ResumesLast(r, resp);
    if ReturnNext(r, resp).Go? { ReturnNearer(r, resp); }
    if r.at.RPop? { PendingCall(c, t, th, r, s, plain); }
  }

  lemma PendingCall(c: Config, t: Tid, th: Thread, r: Return, s: Shared, plain: seq<Addr>)
    requires MemInv(c, s) && ThreadInv(c, t, th, s, plain) && th.mode == InReturn(r) && r.at.RPop?
    ensures th.pend != []
  {
    hide OwnRecords, Resolves, RingInv, LogInv, NestInv, TimeInv, CountInv;
    StubHasShadow(c, t, th, r, s, plain);
  }
}
