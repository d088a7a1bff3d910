/** Each kind of change a stub makes to shared memory keeps the shared invariant and stays within
    what the other threads rely on. */
module ProtocolMemory {
  import opened Wrappers
  import opened Protocol
  import opened ProtocolInvariant

  /** Two tickets less than a lap apart use different ring cells. */
  lemma RingCellsDiffer(m: nat, n: nat)
    requires m < n < m + CAPACITY
    ensures m % CAPACITY != n % CAPACITY
  {
  }

  /** A change made by thread `t`, whose reserved ticket is `held`. */
  ghost predicate Guar(t: Tid, held: Option<nat>, s: Shared, s': Shared)
    requires SlotInv(s.m.slots) && SlotInv(s'.m.slots) && |s.m.ring| == |s'.m.ring| == CAPACITY
  {
    && (forall k :: 0 <= k < THREADS ==>
          s'.m.slots[k] == s.m.slots[k]
          || (s'.m.slots[k].tid == t && (s.m.slots[k].tid == t || s.m.slots[k].tid == 0)))
    && |s.log| <= |s'.log| <= |s.log| + 1
    && (forall n :: 0 <= n < |s.log| ==>
          s'.log[n] == s.log[n] || (s.log[n].tid == t && s'.log[n].tid == t))
    && (|s'.log| > |s.log| ==> s'.log[|s.log|].tid == t)
    && (held.Some? ==> Holding(t, held.value, s.log))
    && (forall i :: 0 <= i < CAPACITY ==>
          s'.m.ring[i] == s.m.ring[i] || (held.Some? && i == held.value % CAPACITY))
    && s'.now == s.now && s'.steady == s.steady
  }

  lemma GuarIdle(c: Config, t: Tid, held: Option<nat>, s: Shared)
    requires MemInv(c, s) && (held.Some? ==> Holding(t, held.value, s.log))
    ensures Guar(t, held, s, s)
  {
  }

  /** Staying within the guarantee of one thread is all another thread relies on, given that a new
      ticket is reserved only when the ring has room. */
  lemma GuarRely(c: Config, t: Tid, held: Option<nat>, u: Tid, th: Thread, s: Shared, s': Shared, plain: seq<Addr>)
    requires MemInv(c, s) && MemInv(c, s') && t != u
    requires ThreadInv(c, u, th, s, plain) && Guar(t, held, s, s')
    requires |s'.log| > |s.log| && Held(th).Some? ==> Held(th).value + CAPACITY != |s.log|
    ensures Rely(u, th, s, s')
  {
    hide LogInv, NestInv, TimeInv, CountInv, RingInv, OwnRecords, PendInv, Resolves;
    if Held(th).Some? {
      var n := Held(th).value;
      assert Holding(u, n, s.log);
      if held.Some? {
        var m := held.value;
        assert m != n by { assert s.log[m].tid == t; }
        if m < n { RingCellsDiffer(m, n); } else { RingCellsDiffer(n, m); }
      }
    }
  }

  // ---------------------------------------------------------------- stores to the ring

  /** The memory after one store to the ring cell of ticket `n`. */
  function Put(s: Shared, n: nat, cell: Event): Shared
    requires |s.m.ring| == CAPACITY
  {
    s.(m := s.m.(ring := s.m.ring[n % CAPACITY := cell]))
  }

  lemma RingAfterPut(ring: seq<Event>, log: Log, log': Log, n: nat, cell: Event)
    requires RingInv(ring, log) && |log'| == |log| && n < |log| <= n + CAPACITY
    requires |cell.args| == 6
    requires forall m :: 0 <= m < |log| && m != n ==> log'[m].ev == log[m].ev
    requires log'[n].ev.Some? ==> log'[n].ev.value == cell
    ensures RingInv(ring[n % CAPACITY := cell], log')
  {
    forall m | 0 <= m < |log| && |log| <= m + CAPACITY && m != n
      ensures m % CAPACITY != n % CAPACITY
    {
      if m < n { RingCellsDiffer(m, n); } else { RingCellsDiffer(n, m); }
    }
  }

  lemma PutKeeps(c: Config, t: Tid, n: nat, s: Shared, cell: Event)
    requires MemInv(c, s) && Holding(t, n, s.log) && s.log[n].ev.None? && |cell.args| == 6
    ensures MemInv(c, Put(s, n, cell)) && Guar(t, Some(n), s, Put(s, n, cell))
  {
    RingAfterPut(s.m.ring, s.log, s.log, n, cell);
  }

  // ---------------------------------------------------------------- the log

  lemma CountsAfterUpdate(log: Log, n: nat, r: Rec)
    requires n < |log|
    ensures Count(log[n := r], IsPending) + Bit(IsPending(log[n])) == Count(log, IsPending) + Bit(IsPending(r))
    ensures Count(log[n := r], IsClosed) + Bit(IsClosed(log[n])) == Count(log, IsClosed) + Bit(IsClosed(r))
    ensures Count(log[n := r], IsReturn) + Bit(IsReturn(log[n])) == Count(log, IsReturn) + Bit(IsReturn(r))
  {
    CountUpdate(log, n, r, IsPending);
    CountUpdate(log, n, r, IsClosed);
    CountUpdate(log, n, r, IsReturn);
  }

  /** A record that is still an unclosed entry lies inside no closed call of its thread. */
  lemma NotEnclosed(log: Log, n: nat)
    requires NestInv(log) && n < |log|
    requires IsOpen(log[n]) || IsPending(log[n]) || IsPopped(log[n])
    ensures forall e :: 0 <= e < n && IsClosed(log[e]) && log[e].tid == log[n].tid ==> log[e].fate.ret <= n
  {
  }

  /** Moving an unclosed entry to another fate that is not Closed. */
  lemma RefateKeepsLog(c: Config, log: Log, n: nat, r: Rec)
    requires LogInv(c, log) && NestInv(log) && n < |log|
    requires log[n].EntryRec? && !log[n].fate.Closed? && !log[n].fate.Unhooked?
    requires r.EntryRec? && r.tid == log[n].tid && r.args == log[n].args && !r.fate.Closed?
    requires !r.fate.Open? ==> r.ev.Some?
    requires r.ev.Some? ==> r.ev.value == EntryEvent(c, r.tid, r.args, r.ev.value.ts)
    ensures LogInv(c, log[n := r]) && NestInv(log[n := r])
  {
    NotEnclosed(log, n);
    var log' := log[n := r];
    forall m | 0 <= m < |log'|
      ensures RecOk(c, log', m)
    {
      assert RecOk(c, log, m);
    }
    forall e1, e2 | 0 <= e1 < e2 < |log'| && IsClosed(log'[e1]) && log'[e2].EntryRec?
                    && log'[e2].tid == log'[e1].tid && e2 < log'[e1].fate.ret
      ensures IsUnhooked(log'[e2]) || (IsClosed(log'[e2]) && log'[e2].fate.ret < log'[e1].fate.ret)
    {
      assert e1 != n && e2 != n;
    }
  }

  lemma TimeAfterEvent(t: Tid, n: nat, s: Shared, r: Rec)
    requires TimeInv(s.log, s.now, s.steady) && Holding(t, n, s.log)
    requires r.tid == t && r.ev.Some? && Fresh(t, n, r.ev.value.ts, s)
    ensures TimeInv(s.log[n := r], s.now, s.steady)
  {
  }

  lemma TimeSameEvents(log: Log, log': Log, now: Word, steady: bool)
    requires TimeInv(log, now, steady) && |log| <= |log'|
    requires forall n :: 0 <= n < |log| ==> log'[n].ev == log[n].ev && log'[n].tid == log[n].tid
    requires forall n :: |log| <= n < |log'| ==> log'[n].ev.None?
    ensures TimeInv(log', now, steady)
  {
  }

  /** The last store of an entry event: from here on the ring cell holds the finished event. */
  lemma FinishEntryKeeps(c: Config, t: Tid, n: nat, ts: Word, s: Shared, cell: Event, f: Fate)
    requires MemInv(c, s) && Holding(t, n, s.log) && IsOpen(s.log[n]) && s.log[n].ev.None?
    requires Fresh(t, n, ts, s) && cell == EntryEvent(c, t, s.log[n].args, ts)
    requires f.Open? || f.Unhooked?
    ensures var s' := Put(s, n, cell).(log := s.log[n := EntryRec(t, s.log[n].args, f, Some(cell))]);
            MemInv(c, s') && Guar(t, Some(n), s, s')
  {
    var r := EntryRec(t, s.log[n].args, f, Some(cell));
    assert RecOk(c, s.log, n);
    RingAfterPut(s.m.ring, s.log, s.log[n := r], n, cell);
    CountsAfterUpdate(s.log, n, r);
    RefateKeepsLog(c, s.log, n, r);
    TimeAfterEvent(t, n, s, r);
  }

  /** The last store of a return event. */
  lemma FinishReturnKeeps(c: Config, t: Tid, n: nat, ts: Word, s: Shared, cell: Event)
    requires MemInv(c, s) && Holding(t, n, s.log) && s.log[n].ReturnRec? && s.log[n].ev.None?
    requires Fresh(t, n, ts, s)
    requires s.log[n].entry < |s.log| && s.log[s.log[n].entry].ev.Some?
    requires cell == ReturnEvent(c, t, s.log[n].retval, ts, Sub64(ts, s.log[s.log[n].entry].ev.value.ts))
    ensures var s' := Put(s, n, cell).(log := s.log[n := ReturnRec(t, s.log[n].entry, s.log[n].retval, Some(cell))]);
            MemInv(c, s') && Guar(t, Some(n), s, s')
  {
    var r := ReturnRec(t, s.log[n].entry, s.log[n].retval, Some(cell));
    var log' := s.log[n := r];
    assert RecOk(c, s.log, n);
    RingAfterPut(s.m.ring, s.log, log', n, cell);
    CountsAfterUpdate(s.log, n, r);
    TimeAfterEvent(t, n, s, r);
    forall m | 0 <= m < |log'|
      ensures RecOk(c, log', m)
    {
      assert RecOk(c, s.log, m);
    }
  }

  /** Leaving the entry stub without hooking the call. */
  lemma UnhookKeeps(c: Config, t: Tid, held: Option<nat>, n: nat, s: Shared)
    requires held.Some? ==> Holding(t, held.value, s.log)
    requires MemInv(c, s) && n < |s.log| && s.log[n].tid == t && IsOpen(s.log[n]) && s.log[n].ev.Some?
    ensures var s' := s.(log := SetFate(s.log, n, Unhooked)); MemInv(c, s') && Guar(t, held, s, s')
  {
    CountsAfterUpdate(s.log, n, s.log[n].(fate := Unhooked));
    RefateKeepsRest(c, n, Unhooked, s);
  }

  // ---------------------------------------------------------------- reserving tickets

  lemma Index64(a: nat)
    ensures (a % TWO64 + 1) % TWO64 == (a + 1) % TWO64
  {
  }

  lemma TicketMask(a: nat)
    ensures (a % TWO64) % CAPACITY == a % CAPACITY
  {
    assert TWO64 == CAPACITY * (TWO64 / CAPACITY);
    var q := a / TWO64;
    assert a == a % TWO64 + CAPACITY * ((TWO64 / CAPACITY) * q);
    AddLaps(a % TWO64, (TWO64 / CAPACITY) * q);
  }

  lemma {:induction false} AddLaps(a: nat, q: nat)
    ensures (a + CAPACITY * q) % CAPACITY == a % CAPACITY
  {
    if q > 0 {
      AddLaps(a, q - 1);
      assert a + CAPACITY * q == (a + CAPACITY * (q - 1)) + CAPACITY;
    }
  }

  function Reserved(s: Shared, log: Log): Shared
  {
    s.(m := s.m.(index := (s.m.index + 1) % TWO64), log := log)
  }

  lemma CountsAfterAppend(log: Log, r: Rec)
    ensures Count(log + [r], IsPending) == Count(log, IsPending) + Bit(IsPending(r))
    ensures Count(log + [r], IsClosed) == Count(log, IsClosed) + Bit(IsClosed(r))
    ensures Count(log + [r], IsReturn) == Count(log, IsReturn) + Bit(IsReturn(r))
  {
    CountAppend(log, r, IsPending);
    CountAppend(log, r, IsClosed);
    CountAppend(log, r, IsReturn);
  }

  /** A new ticket pushes the oldest event out of the ring window and changes no finished one. */
  lemma RingAfterReserve(ring: seq<Event>, log: Log, log': Log)
    requires RingInv(ring, log) && |log'| == |log| + 1 && log'[|log|].ev.None?
    requires forall n :: 0 <= n < |log| ==> log'[n].ev == log[n].ev
    ensures RingInv(ring, log')
  {
  }

  lemma ReserveEntryLog(c: Config, t: Tid, args: seq<Word>, log: Log)
    requires LogInv(c, log) && NestInv(log) && |args| == 6
    ensures LogInv(c, log + [EntryRec(t, args, Open, None)])
    ensures NestInv(log + [EntryRec(t, args, Open, None)])
  {
    var log' := log + [EntryRec(t, args, Open, None)];
    forall m | 0 <= m < |log'|
      ensures RecOk(c, log', m)
    {
      if m < |log| { assert RecOk(c, log, m); }
    }
    forall e1, e2 | 0 <= e1 < e2 < |log'| && IsClosed(log'[e1]) && log'[e2].EntryRec?
                    && log'[e2].tid == log'[e1].tid && e2 < log'[e1].fate.ret
      ensures IsUnhooked(log'[e2]) || (IsClosed(log'[e2]) && log'[e2].fate.ret < log'[e1].fate.ret)
    {
      assert RecOk(c, log, e1);
    }
  }

  lemma ReserveEntryKeeps(c: Config, t: Tid, held: Option<nat>, args: seq<Word>, s: Shared)
    requires held.Some? ==> Holding(t, held.value, s.log)
    requires MemInv(c, s) && |args| == 6
    ensures var s' := Reserved(s, s.log + [EntryRec(t, args, Open, None)]);
            MemInv(c, s') && Guar(t, held, s, s')
  {
    hide LogInv, NestInv, TimeInv, SlotInv;
    var r := EntryRec(t, args, Open, None);
    Index64(|s.log|);
    CountsAfterAppend(s.log, r);
    TimeSameEvents(s.log, s.log + [r], s.now, s.steady);
    ReserveEntryLog(c, t, args, s.log);
    RingAfterReserve(s.m.ring, s.log, s.log + [r]);
  }

  lemma CloseLog(c: Config, t: Tid, e: nat, retval: Word, log: Log)
    requires LogInv(c, log)
    requires e < |log| && log[e].tid == t && IsPopped(log[e]) && log[e].ev.Some?
    ensures LogInv(c, log[e := log[e].(fate := Closed(|log|))] + [ReturnRec(t, e, retval, None)])
  {
    var log' := log[e := log[e].(fate := Closed(|log|))] + [ReturnRec(t, e, retval, None)];
    assert RecOk(c, log, e);
    forall m | 0 <= m < |log'|
      ensures RecOk(c, log', m)
    {
      if m < |log| { assert RecOk(c, log, m); }
    }
  }

  lemma CloseNest(c: Config, t: Tid, e: nat, retval: Word, log: Log)
    requires LogInv(c, log) && NestInv(log)
    requires e < |log| && log[e].tid == t && IsPopped(log[e])
    requires forall m :: e < m < |log| && log[m].tid == t && log[m].EntryRec? ==>
               IsUnhooked(log[m]) || IsClosed(log[m])
    ensures NestInv(log[e := log[e].(fate := Closed(|log|))] + [ReturnRec(t, e, retval, None)])
  {
    var log' := log[e := log[e].(fate := Closed(|log|))] + [ReturnRec(t, e, retval, None)];
    NotEnclosed(log, e);
    forall e1, e2 | 0 <= e1 < e2 < |log'| && IsClosed(log'[e1]) && log'[e2].EntryRec?
                    && log'[e2].tid == log'[e1].tid && e2 < log'[e1].fate.ret
      ensures IsUnhooked(log'[e2]) || (IsClosed(log'[e2]) && log'[e2].fate.ret < log'[e1].fate.ret)
    {
      assert RecOk(c, log, e1) && RecOk(c, log, e2);
    }
  }

  /** Reserving a return event closes the popped entry, with every later entry of the thread done. */
  lemma ReserveReturnKeeps(c: Config, t: Tid, held: Option<nat>, e: nat, retval: Word, s: Shared)
    requires held.Some? ==> Holding(t, held.value, s.log)
    requires MemInv(c, s) && e < |s.log| && s.log[e].tid == t && IsPopped(s.log[e]) && s.log[e].ev.Some?
    requires forall m :: e < m < |s.log| && s.log[m].tid == t && s.log[m].EntryRec? ==>
               IsUnhooked(s.log[m]) || IsClosed(s.log[m])
    ensures var s' := Reserved(s, SetFate(s.log, e, Closed(|s.log|)) + [ReturnRec(t, e, retval, None)]);
            MemInv(c, s') && Guar(t, held, s, s')
  {
    hide LogInv, NestInv, TimeInv, SlotInv;
    var r, x := s.log[e].(fate := Closed(|s.log|)), ReturnRec(t, e, retval, None);
    var mid := s.log[e := r];
    Index64(|s.log|);
    CountsAfterUpdate(s.log, e, r);
    CountsAfterAppend(mid, x);
    TimeSameEvents(s.log, mid + [x], s.now, s.steady);
    CloseLog(c, t, e, retval, s.log);
    CloseNest(c, t, e, retval, s.log);
    RingAfterReserve(s.m.ring, s.log, mid + [x]);
  }

  // ---------------------------------------------------------------- slots

  function WithSlot(s: Shared, k: nat, slot: Slot): Shared
    requires k < |s.m.slots|
  {
    s.(m := s.m.(slots := s.m.slots[k := slot]))
  }

  lemma SlotAfterStore(slots: seq<Slot>, k: nat, slot: Slot)
    requires SlotInv(slots) && k < THREADS && slot.tid == slots[k].tid != 0 && ShapedSlot(slot)
    ensures SlotInv(slots[k := slot])
  {
  }

  /** An entry that moves between open, pending and popped takes no event away. */
  lemma RefateKeepsRest(c: Config, n: nat, f: Fate, s: Shared)
    requires MemInv(c, s) && n < |s.log| && (IsOpen(s.log[n]) || IsPending(s.log[n]))
    requires s.log[n].ev.Some? && !f.Closed?
    ensures var log' := SetFate(s.log, n, f);
            LogInv(c, log') && NestInv(log') && RingInv(s.m.ring, log') && TimeInv(log', s.now, s.steady)
  {
    var r := s.log[n].(fate := f);
    assert RecOk(c, s.log, n);
    RefateKeepsLog(c, s.log, n, r);
    TimeSameEvents(s.log, s.log[n := r], s.now, s.steady);
  }

  /** A store to the part of the thread's own slot above its depth. */
  lemma ScratchKeeps(c: Config, t: Tid, held: Option<nat>, k: nat, s: Shared, slot: Slot)
    requires held.Some? ==> Holding(t, held.value, s.log)
    requires MemInv(c, s) && k < THREADS && s.m.slots[k].tid == t != 0
    requires ShapedSlot(slot) && slot.tid == t && slot.depth == s.m.slots[k].depth
    ensures MemInv(c, WithSlot(s, k, slot)) && Guar(t, held, s, WithSlot(s, k, slot))
  {
    SumUpdate(s.m.slots, k, slot);
  }

  /** Claiming the first free slot. */
  lemma ClaimKeeps(c: Config, t: Tid, held: Option<nat>, k: nat, s: Shared)
    requires held.Some? ==> Holding(t, held.value, s.log)
    requires MemInv(c, s) && k < THREADS && s.m.slots[k].tid == 0 && t != 0
    requires Scanned(t, s.m.slots, k)
    ensures var s' := WithSlot(s, k, s.m.slots[k].(tid := t)); MemInv(c, s') && Guar(t, held, s, s')
    ensures Home(s.m.slots, t) == -1 && Home(s.m.slots[k := s.m.slots[k].(tid := t)], t) == k
  {
    SumUpdate(s.m.slots, k, s.m.slots[k].(tid := t));
  }

  /** The store that pushes: depth grows by one and the entry becomes pending. */
  lemma PushKeeps(c: Config, t: Tid, held: Option<nat>, k: nat, n: nat, s: Shared)
    requires held.Some? ==> Holding(t, held.value, s.log)
    requires MemInv(c, s) && k < THREADS && s.m.slots[k].tid == t != 0 && s.m.slots[k].depth < DEPTH
    requires n < |s.log| && s.log[n].tid == t && IsOpen(s.log[n]) && s.log[n].ev.Some?
    ensures var s' := WithSlot(s, k, s.m.slots[k].(depth := s.m.slots[k].depth + 1))
                        .(log := SetFate(s.log, n, Pending));
            MemInv(c, s') && Guar(t, held, s, s')
  {
    var slot := s.m.slots[k].(depth := s.m.slots[k].depth + 1);
    SlotAfterStore(s.m.slots, k, slot);
    SumUpdate(s.m.slots, k, slot);
    CountsAfterUpdate(s.log, n, s.log[n].(fate := Pending));
    RefateKeepsRest(c, n, Pending, s);
  }

  /** The store that pops. */
  lemma PopKeeps(c: Config, t: Tid, held: Option<nat>, k: nat, n: nat, s: Shared)
    requires held.Some? ==> Holding(t, held.value, s.log)
    requires MemInv(c, s) && k < THREADS && s.m.slots[k].tid == t != 0 && s.m.slots[k].depth > 0
    requires n < |s.log| && s.log[n].tid == t && IsPending(s.log[n]) && s.log[n].ev.Some?
    ensures var s' := WithSlot(s, k, s.m.slots[k].(depth := s.m.slots[k].depth - 1))
                        .(log := SetFate(s.log, n, Popped));
            MemInv(c, s') && Guar(t, held, s, s')
  {
    var slot := s.m.slots[k].(depth := s.m.slots[k].depth - 1);
    SlotAfterStore(s.m.slots, k, slot);
    SumUpdate(s.m.slots, k, slot);
    CountsAfterUpdate(s.log, n, s.log[n].(fate := Popped));
    RefateKeepsRest(c, n, Popped, s);
  }
}
