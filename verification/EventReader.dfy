/** Reading events out of a target: header, window, and one transfer an event; and that what comes out
    is the end of the log. */
module EventReader {
  import opened Wrappers
  import opened RemoteMem
  import P = Protocol
  import N = ProtocolMemory
  import E = ProtocolEvents
  import L = Layout
  import G = MemoryImage
  import R = ByteRun
  import I = Install
  import C = MachineRun
  import D = MachineTheorem
  import M = StubMachine
  import X86

  const HEADER: nat := L.HEADER_SIZE
  const EVENT: nat := L.EVENT_SIZE
  const CAPACITY: nat := P.CAPACITY

  /** A field of an event as it lies in memory. */
  function Field(b: seq<X86.Byte>, offset: nat, width: nat): nat
    requires offset + width <= |b|
  {
    X86.FromLE(b[offset..offset + width])
  }

  /** struct probe_event */
  function Decode(b: seq<X86.Byte>): P.Event
    requires |b| == EVENT
  {
    P.Event(Field(b, 0, 8), Field(b, 8, 4), Field(b, 12, 4), Field(b, 16, 4), Field(b, 20, 4),
            [Field(b, 24, 8), Field(b, 32, 8), Field(b, 40, 8), Field(b, 48, 8), Field(b, 56, 8), Field(b, 64, 8)],
            Field(b, 72, 8), Field(b, 80, 8))
  }

  datatype Status = Ok | NoBuffer | BadHeader | Remote(e: Errno)

  predicate HeaderAt(m: Memory, buf: X86.Word, total: nat, capacity: nat)
  {
    && Mapped(m, buf, HEADER)
    && total == Field(Slice(m, buf, HEADER), 0, 8) && capacity == Field(Slice(m, buf, HEADER), 8, 8)
  }

  predicate EventAt(m: Memory, buf: X86.Word, slot: nat, e: P.Event)
  {
    Mapped(m, buf + HEADER + slot * EVENT, EVENT) && e == Decode(Slice(m, buf + HEADER + slot * EVENT, EVENT))
  }

  function Min(a: nat, b: nat): nat
  {
    if a < b then a else b
  }

  /** `out` is the beginning of what is to be shown: for each sequence number of the window, the event in
      its slot. */
  ghost predicate Shows(m: Memory, buf: X86.Word, total: nat, capacity: nat, limit: nat, out: seq<P.Event>)
    requires capacity > 0
  {
    && |out| <= Min(total, limit)
    && forall k :: 0 <= k < |out| ==> EventAt(m, buf, (total - Min(total, limit) + k) % capacity, out[k])
  }

  /** read_and_print_events: `out` is what it prints, `total` the count in its header line. It stops short only
      when a transfer was refused, and complains of the header only when its capacity is out of bounds. */
  method ReadEvents(t: Tracee, pid: int, buf: X86.Word, limit: nat)
    returns (s: Status, total: nat, ghost capacity: nat, out: seq<P.Event>, ghost asked: seq<Response>)
    modifies t`log
    ensures t.log == old(t.log) + asked && (s.NoBuffer? ==> asked == [])
    ensures s.NoBuffer? <==> buf == 0
    ensures s.Remote? <==> buf != 0 && (pid <= 0 || EndsRefused(asked))
    ensures s.BadHeader? || s.Ok? || out != [] ==> HeaderAt(t.mem, buf, total, capacity)
    ensures s.BadHeader? ==> (capacity == 0 || capacity > CAPACITY) && out == []
    ensures s.Ok? || out != [] ==> 0 < capacity <= CAPACITY && Shows(t.mem, buf, total, capacity, limit, out)
    ensures s.Ok? ==> |out| == Min(total, limit)
    ensures s.Remote? ==> out == [] || |out| < Min(total, limit)
  {
    hide Decode, Field, ReadGoes, Refused;
    total, capacity, out, asked := 0, 0, [], [];
    if buf == 0 {
      return NoBuffer, total, capacity, out, asked;
    }
    var header := new X86.Byte[HEADER](i => 0);
    var e;
    ghost var n, more;
    e, n, asked := t.RemoteRead(pid, buf, header);
    ReadEnds(pid, buf, HEADER, asked, e, n);
    if e != Fine {
      return Remote(e), total, capacity, out, asked;
    }
    total := Field(header[..], 0, 8);
    var cap := Field(header[..], 8, 8);
    capacity := cap;
    if cap == 0 || cap > CAPACITY {
      return BadHeader, total, capacity, out, asked;
    }
    var count := if total < limit then total else limit;
    var start := if total > count then total - count else 0;
    var seqno := start;
    while seqno < total
      invariant start <= seqno <= total && |out| == seqno - start
      invariant Shows(t.mem, buf, total, cap, limit, out)
      invariant t.log == old(t.log) + asked && asked != [] && !EndsRefused(asked)
    {
      var slot := seqno % cap;
      var event := new X86.Byte[EVENT](i => 0);
      e, n, more := t.RemoteRead(pid, buf + HEADER + slot * EVENT, event);
      ReadEnds(pid, buf + HEADER + slot * EVENT, EVENT, more, e, n);
      assert (asked + more)[|asked + more| - 1] == more[|more| - 1];
      asked := asked + more;
      if e != Fine {
        return Remote(e), total, capacity, out, asked;
      }
      out := out + [Decode(event[..])];
      seqno := seqno + 1;
    }
    s := Ok;
  }

  // ---------------------------------------------------------------- what the target's memory stands for

  lemma FieldIs(m: Memory, at: X86.Word, offset: nat, width: nat)
    requires Mapped(m, at, EVENT) && offset + width <= EVENT
    ensures Mapped(m, at + offset, width)
    ensures Field(Slice(m, at, EVENT), offset, width) == X86.FromLE(Slice(m, at + offset, width))
  {
    assert Slice(m, at, EVENT)[offset..offset + width] == Slice(m, at + offset, width);
  }

  lemma ReadsField(m: Memory, base: X86.Word, c: P.Config, pm: P.Mem, i: nat, f: P.Field)
    requires G.Holds(m, base, c, pm) && i < CAPACITY && (f.Arg? ==> f.j < 6)
    ensures Mapped(m, L.EventsAddr(base) + HEADER + i * EVENT, EVENT)
    ensures Field(Slice(m, L.EventsAddr(base) + HEADER + i * EVENT, EVENT), L.FieldOffset(f), L.FieldWidth(f))
         == P.GetField(pm.ring[i], f)
  {
    hide X86.FromLE, G.Image, G.Fits;
    G.HeldPlace(m, base, c, pm, P.Ring(i, f));
    var at := L.EventsAddr(base) + HEADER + i * EVENT;
    assert P.InBounds(P.Ring(i, f)) && L.AddrOf(base, P.Ring(i, f)) == at + L.FieldOffset(f);
    assert Mapped(m, at, EVENT);
    FieldIs(m, at, L.FieldOffset(f), L.FieldWidth(f));
  }

  /** The bytes of a slot decode to the event in it. */
  lemma DecodesRing(m: Memory, base: X86.Word, c: P.Config, pm: P.Mem, i: nat)
    requires G.Holds(m, base, c, pm) && i < CAPACITY && |pm.ring[i].args| == 6
    ensures EventAt(m, L.EventsAddr(base), i, pm.ring[i])
  {
    hide G.Holds, Field, Slice;
    ReadsField(m, base, c, pm, i, P.TimeStamp);
    ReadsField(m, base, c, pm, i, P.Pid);
    ReadsField(m, base, c, pm, i, P.ThreadId);
    ReadsField(m, base, c, pm, i, P.ProbeId);
    ReadsField(m, base, c, pm, i, P.Kind);
    ReadsField(m, base, c, pm, i, P.Retval);
    ReadsField(m, base, c, pm, i, P.Duration);
    ReadsField(m, base, c, pm, i, P.Arg(0));
    ReadsField(m, base, c, pm, i, P.Arg(1));
    ReadsField(m, base, c, pm, i, P.Arg(2));
    ReadsField(m, base, c, pm, i, P.Arg(3));
    ReadsField(m, base, c, pm, i, P.Arg(4));
    ReadsField(m, base, c, pm, i, P.Arg(5));
  }

  /** Sequence number and log position fall in the same slot. */
  lemma SameSlot(length: nat, back: nat)
    requires 0 < back <= length % P.TWO64
    ensures back <= length && (length % P.TWO64 - back) % CAPACITY == (length - back) % CAPACITY
  {
    var n := length - back;
    assert n % P.TWO64 == length % P.TWO64 - back;
    N.TicketMask(n);
  }

  lemma HeldPrintsEnd(c: P.Config, w: P.World, m: Memory, base: X86.Word, limit: nat, total: nat, capacity: nat,
                      out: seq<P.Event>)
    requires E.Reached(c, w) && E.AtRest(w) && G.Holds(m, base, c, w.s.m) && limit <= CAPACITY
    requires HeaderAt(m, L.EventsAddr(base), total, capacity)
    requires capacity > 0 && Shows(m, L.EventsAddr(base), total, capacity, limit, out) && |out| == Min(total, limit)
    ensures total == |w.s.log| % P.TWO64 && |out| == Min(|w.s.log| % P.TWO64, limit) <= |w.s.log|
    ensures forall k :: 0 <= k < |out| ==> w.s.log[|w.s.log| - |out| + k].ev == Some(out[k])
  {
    hide Decode, Field, G.Holds, Slice, HeaderAt, Mapped, EventAt, E.AtRest, E.Reached;
    HeaderIs(m, base, c, w.s.m, total, capacity);
    E.RingShape(c, w);
    if |out| > 0 { SameSlot(|w.s.log|, |out|); }
    forall k | 0 <= k < |out|
      ensures w.s.log[|w.s.log| - |out| + k].ev == Some(out[k])
    {
      PrintedEntry(c, w, m, base, |out| - k, out[k]);
    }
  }

  /** The stubs' bytes and their reader refine the log: after any run from an installed area that leaves
      nobody inside a stub, the header read from the target has the ring's capacity and counts the log's
      entries as a 64-bit number, and what is printed is the last min(total, limit) of them in order. */
  lemma PrintsEndOfLog(p: M.Probe, m0: Memory, target: X86.Word, code: seq<X86.Byte>, now: P.Word, steps: seq<P.Step>,
                       limit: nat, total: nat, capacity: nat, out: seq<P.Event>)
    requires I.Installed(m0, p, target, code) && M.ValidProbe(p) && now < P.TWO64 && limit <= CAPACITY
    requires P.Legal(M.ConfigOf(p), P.Init(1, now), steps)
    requires E.AtRest(P.Exec(M.ConfigOf(p), P.Init(1, now), steps))
    requires var m := R.BytesRun(p, m0, P.Init(1, now), steps);
             && HeaderAt(m, L.EventsAddr(p.base), total, capacity)
             && (capacity > 0 ==> Shows(m, L.EventsAddr(p.base), total, capacity, limit, out))
             && |out| == Min(total, limit)
    ensures var log := P.Exec(M.ConfigOf(p), P.Init(1, now), steps).s.log;
            && capacity == CAPACITY && total == |log| % P.TWO64 && |out| == Min(|log| % P.TWO64, limit) <= |log|
            && forall k :: 0 <= k < |out| ==> log[|log| - |out| + k].ev == Some(out[k])
  {
    hide *;
    var c, w := M.ConfigOf(p), P.Exec(M.ConfigOf(p), P.Init(1, now), steps);
    var m := R.BytesRun(p, m0, P.Init(1, now), steps);
    R.InstalledRunHolds(p, m0, target, code, now, steps);
    HeaderIs(m, p.base, c, w.s.m, total, capacity);
    E.RunReaches(c, 1, now, steps);
    HeldPrintsEnd(c, w, m, p.base, limit, total, capacity, out);
  }

  /** The same of processors running the stubs' code, once they are all back in the program. */
  lemma MachinePrintsEndOfLog(p: M.Probe, m0: Memory, target: X86.Word, code: seq<X86.Byte>, now: P.Word,
                              vs: seq<C.Move>, limit: nat, total: nat, capacity: nat, out: seq<P.Event>)
    returns (steps: seq<P.Step>)
    requires I.Installed(m0, p, target, code) && M.ValidProbe(p) && now < P.TWO64 && limit <= CAPACITY
    requires C.PossibleAll(p, C.Machine(m0, now, map[]), vs)
    requires var w := C.DoAll(p, C.Machine(m0, now, map[]), vs);
             && (forall t :: t in w.cores ==> w.cores[t].Program?)
             && HeaderAt(w.m, L.EventsAddr(p.base), total, capacity)
             && (capacity > 0 ==> Shows(w.m, L.EventsAddr(p.base), total, capacity, limit, out))
             && |out| == Min(total, limit)
    ensures P.Legal(M.ConfigOf(p), P.Init(1, now), steps)
    ensures var log := P.Exec(M.ConfigOf(p), P.Init(1, now), steps).s.log;
            && capacity == CAPACITY && total == |log| % P.TWO64 && |out| == Min(|log| % P.TWO64, limit) <= |log|
            && forall k :: 0 <= k < |out| ==> log[|log| - |out| + k].ev == Some(out[k])
  {
    hide *;
    var w0 := C.Machine(m0, now, map[]);
    steps := D.CodeIsTransparent(p, m0, target, code, now, vs);
    var w, pw := C.DoAll(p, w0, vs), P.Exec(M.ConfigOf(p), P.Init(1, now), steps);
    D.AllRest(p, w, pw);
    HeaderIs(w.m, p.base, M.ConfigOf(p), pw.s.m, total, capacity);
    E.RunReaches(M.ConfigOf(p), 1, now, steps);
    HeldPrintsEnd(M.ConfigOf(p), pw, w.m, p.base, limit, total, capacity, out);
  }

  /** The event in the slot `back` places before the write index is the log's entry that far from its end. */
  lemma PrintedEntry(c: P.Config, w: P.World, m: Memory, base: X86.Word, back: nat, e: P.Event)
    requires E.Reached(c, w) && E.AtRest(w) && G.Holds(m, base, c, w.s.m)
    requires 0 < back <= CAPACITY && back <= |w.s.log| % P.TWO64
    requires EventAt(m, L.EventsAddr(base), (|w.s.log| % P.TWO64 - back) % CAPACITY, e)
    ensures back <= |w.s.log| && w.s.log[|w.s.log| - back].ev == Some(e)
  {
    hide Decode, Field, G.Holds, Slice, Mapped, E.AtRest, E.Reached;
    SameSlot(|w.s.log|, back);
    E.RingHoldsLastLap(c, w, |w.s.log| - back);
    E.RingShape(c, w);
    DecodesRing(m, base, c, w.s.m, (|w.s.log| - back) % CAPACITY);
  }

  lemma HeaderIs(m: Memory, base: X86.Word, c: P.Config, pm: P.Mem, total: nat, capacity: nat)
    requires G.Holds(m, base, c, pm) && HeaderAt(m, L.EventsAddr(base), total, capacity)
    ensures total == pm.index && capacity == CAPACITY > 0
  {
    hide G.Image, X86.FromLE, G.Fits;
    G.HeldPlace(m, base, c, pm, P.WriteIndex);
    var at := L.EventsAddr(base);
    assert Slice(m, at, HEADER)[0..8] == Slice(m, at, 8);
    assert Slice(m, at, HEADER)[8..16] == Slice(m, at + 8, 8);
  }
}
