/** The target's bytes and the protocol's memory: one is an image of the other, every access of the
    stubs keeps it so, and a freshly installed area is the image of the protocol's first state. */
module MemoryImage {
  import opened X86
  import opened RemoteMem
  import opened StubMachine
  import P = Protocol
  import L = Layout
  import I = Install

  /** What the bytes at a place say. */
  predicate Says(m: Memory, base: X86.Word, loc: P.Loc, v: nat)
  {
    && Mapped(m, L.AddrOf(base, loc), L.WidthOf(loc))
    && FromLE(Slice(m, L.AddrOf(base, loc), L.WidthOf(loc))) == v
  }

  /** Every place of the area reads as the protocol has it. */
  ghost predicate Image(m: Memory, base: X86.Word, c: P.Config, pm: P.Mem)
  {
    forall loc: P.Loc | P.InBounds(loc) :: Says(m, base, loc, P.Read(c, pm, loc))
  }

  predicate Sized(pm: P.Mem)
  {
    && |pm.ring| == P.CAPACITY && |pm.slots| == P.THREADS
    && (forall i :: 0 <= i < P.CAPACITY ==> |pm.ring[i].args| == 6)
    && (forall k :: 0 <= k < P.THREADS ==> |pm.slots[k].rets| == |pm.slots[k].tss| == P.DEPTH)
  }

  /** Where the event buffer's header keeps the number of slots; no stub reads it. */
  function CapacityAddr(base: X86.Word): X86.Word
  {
    L.EventsAddr(base) + 8
  }

  /** The data regions hold the protocol's memory, and the header its capacity. */
  ghost predicate Holds(m: Memory, base: X86.Word, c: P.Config, pm: P.Mem)
  {
    && Image(m, base, c, pm) && Sized(pm)
    && Mapped(m, L.EventsAddr(base), L.BUFFER_SIZE)
    && FromLE(Slice(m, CapacityAddr(base), 8)) == P.CAPACITY
  }

  /** Where the code regions of the area begin. */
  const DATA: nat := 624688

  /** Nothing changes outside the data regions. */
  ghost predicate Elsewhere(m: Memory, m': Memory, base: X86.Word)
  {
    forall x: int | x < base || base + DATA <= x :: (x in m <==> x in m') && (x in m ==> m'[x] == m[x])
  }

  // ---------------------------------------------------------------- one store

  /** A store changes what its own place reads as, and no other. */
  lemma ReadAfterStore(c: P.Config, pm: P.Mem, loc: P.Loc, v: P.Word, other: P.Loc)
    requires Sized(pm) && P.InBounds(loc) && P.InBounds(other) && !loc.BufPtr?
    ensures P.Read(c, P.Write(pm, loc, v), other) == if other == loc then v else P.Read(c, pm, other)
  {
  }

  lemma StoreKeepsSize(pm: P.Mem, loc: P.Loc, v: P.Word)
    requires Sized(pm) && P.InBounds(loc)
    ensures Sized(P.Write(pm, loc, v))
  {
  }

  lemma SliceKept(m: Memory, at: int, n: nat, addr: int, x: seq<Byte>)
    requires Mapped(m, at, n) && L.Apart(at, n, addr, |x|)
    ensures Mapped(Put(m, addr, x), at, n) && Slice(Put(m, addr, x), at, n) == Slice(m, at, n)
  {
  }

  predicate Fits(v: nat, width: nat)
  {
    v < Pow256(width)
  }

  /** Storing the bytes of a value at a place is the protocol's store. */
  lemma StoreRefines(m: Memory, base: X86.Word, c: P.Config, pm: P.Mem, loc: P.Loc, v: P.Word)
    requires Image(m, base, c, pm) && Sized(pm) && P.InBounds(loc) && !loc.BufPtr? && Fits(v, L.WidthOf(loc))
    ensures Image(Put(m, L.AddrOf(base, loc), LE(v, L.WidthOf(loc))), base, c, P.Write(pm, loc, v))
    ensures Sized(P.Write(pm, loc, v))
  {
    hide *;
    var m' := Put(m, L.AddrOf(base, loc), LE(v, L.WidthOf(loc)));
    StoreKeepsSize(pm, loc, v);
    forall other: P.Loc | P.InBounds(other)
      ensures Says(m', base, other, P.Read(c, P.Write(pm, loc, v), other))
    {
      ReadAfterStore(c, pm, loc, v, other);
      if other == loc {
        SaysStored(m, base, loc, v);
      } else {
        ImageAt(m, base, c, pm, other);
        SaysKept(m, base, loc, v, other, P.Read(c, pm, other));
      }
    }
    ImageIf(m', base, c, P.Write(pm, loc, v));
  }

  lemma ImageAt(m: Memory, base: X86.Word, c: P.Config, pm: P.Mem, loc: P.Loc)
    requires Image(m, base, c, pm) && P.InBounds(loc)
    ensures Says(m, base, loc, P.Read(c, pm, loc))
  {
  }

  lemma ImageIf(m: Memory, base: X86.Word, c: P.Config, pm: P.Mem)
    requires forall loc: P.Loc | P.InBounds(loc) :: Says(m, base, loc, P.Read(c, pm, loc))
    ensures Image(m, base, c, pm)
  {
  }

  lemma SaysStored(m: Memory, base: X86.Word, loc: P.Loc, v: nat)
    requires Fits(v, L.WidthOf(loc))
    ensures Says(Put(m, L.AddrOf(base, loc), LE(v, L.WidthOf(loc))), base, loc, v)
  {
    hide LE, L.AddrOf, L.WidthOf, FromLE;
    ReadAfterWrite(m, L.AddrOf(base, loc), LE(v, L.WidthOf(loc)));
    LERoundTrips(v, L.WidthOf(loc));
  }

  lemma SaysKept(m: Memory, base: X86.Word, loc: P.Loc, v: nat, other: P.Loc, was: nat)
    requires P.InBounds(loc) && P.InBounds(other) && other != loc && Says(m, base, other, was)
    ensures Says(Put(m, L.AddrOf(base, loc), LE(v, L.WidthOf(loc))), base, other, was)
  {
    hide LE, L.AddrOf, L.WidthOf, FromLE, P.InBounds, Slice, Put, Mapped;
    L.PlacesAreDisjoint(base, other, loc);
    SliceKept(m, L.AddrOf(base, other), L.WidthOf(other), L.AddrOf(base, loc), LE(v, L.WidthOf(loc)));
  }

  lemma CapacityApart(base: X86.Word, loc: P.Loc)
    requires P.InBounds(loc)
    ensures L.Apart(CapacityAddr(base), 8, L.AddrOf(base, loc), L.WidthOf(loc))
    ensures base <= L.AddrOf(base, loc) && L.AddrOf(base, loc) + L.WidthOf(loc) <= base + DATA
  {
    L.PlacesStayInRegion(base, loc);
  }

  /** Such a store leaves the header's capacity and everything outside the data regions alone. */
  lemma StoreHolds(m: Memory, base: X86.Word, c: P.Config, pm: P.Mem, loc: P.Loc, v: P.Word)
    requires Holds(m, base, c, pm) && P.InBounds(loc) && !loc.BufPtr? && Fits(v, L.WidthOf(loc))
    ensures var m' := Put(m, L.AddrOf(base, loc), LE(v, L.WidthOf(loc)));
            Holds(m', base, c, P.Write(pm, loc, v)) && Elsewhere(m, m', base)
  {
    hide Image, Sized, Fits, LE, FromLE, Slice, P.Write, P.InBounds, L.AddrOf, L.WidthOf;
    StoreRefines(m, base, c, pm, loc, v);
    CapacityApart(base, loc);
    SliceKept(m, CapacityAddr(base), 8, L.AddrOf(base, loc), LE(v, L.WidthOf(loc)));
  }

  // ---------------------------------------------------------------- every access

  /** What one access does to the bytes, and what it answers. */
  function OnBytes(m: Memory, x: Access): (Memory, nat)
  {
    match x
    case Rd(addr, width) => (m, if Mapped(m, addr, width) then FromLE(Slice(m, addr, width)) else 0)
    case Wr(addr, width, v) => (Put(m, addr, LE(if v >= 0 then v else 0, width)), 0)
    case Xadd(addr, add) =>
      var was := if Mapped(m, addr, 8) then FromLE(Slice(m, addr, 8)) else 0;
      (Put(m, addr, LE(W64(was + add), 8)), was)
    case Cas(addr, expected, desired) =>
      var was := if Mapped(m, addr, 4) then FromLE(Slice(m, addr, 4)) else 0;
      (if was == expected then Put(m, addr, LE(if desired >= 0 then desired else 0, 4)) else m, was)
    case _ => (m, 0)
  }

  /** Values that fit the place they are stored to. */
  predicate FitsAction(a: P.Action)
  {
    match a
    case Store(loc, v) => !loc.BufPtr? && Fits(v, L.WidthOf(loc))
    case CompareSwap(_, v) => Fits(v, 4)
    case _ => true
  }

  /** Answers that fit the place they come from. */
  predicate AnswerFits(a: P.Action, answer: P.Word)
  {
    match a
    case GetTid => answer < P.TWO32
    case Clock => answer < P.TWO64
    case Load(loc) => Fits(answer, L.WidthOf(loc))
    case FetchAdd => answer < P.TWO64
    case CompareSwap(_, _) => answer < P.TWO32
    case _ => answer == 0
  }

  /** The bytes refine the protocol's memory: for every action that touches memory, its access on bytes
      that hold the protocol's memory answers what the protocol answers, leaves bytes that hold what the
      protocol leaves, and changes nothing outside the data regions. */
  lemma AccessRefines(p: Probe, m: Memory, pm: P.Mem, t: P.Tid, now: P.Word, a: P.Action)
    requires Holds(m, p.base, ConfigOf(p), pm) && P.Safe(a) && FitsAction(a)
    requires a.Load? || a.Store? || a.FetchAdd? || a.CompareSwap?
    ensures var (pm', answer) := P.Perform(ConfigOf(p), pm, t, now, a);
            var (m', reply) := OnBytes(m, Accesses(p, a)[0]);
            && |Accesses(p, a)| == 1 && reply == answer && AnswerFits(a, answer)
            && Holds(m', p.base, ConfigOf(p), pm') && Elsewhere(m, m', p.base)
  {
    hide Holds, Fits, LE, FromLE, Slice, Put, P.Write, Elsewhere;
    var c := ConfigOf(p);
    assert Elsewhere(m, m, p.base) by { Untouched(m, p.base); }
    match a {
      case Load(loc) =>
        HeldPlace(m, p.base, c, pm, loc);
      case Store(loc, v) =>
        StoreHolds(m, p.base, c, pm, loc, v);
      case FetchAdd =>
        HeldPlace(m, p.base, c, pm, P.WriteIndex);
        Fits64(W64(pm.index + 1));
        Fits64(pm.index);
        StoreHolds(m, p.base, c, pm, P.WriteIndex, W64(pm.index + 1));
        assert P.Write(pm, P.WriteIndex, W64(pm.index + 1)) == pm.(index := W64(pm.index + 1)) by { IndexStored(pm); }
      case CompareSwap(k, v) =>
        HeldPlace(m, p.base, c, pm, P.SlotTid(k));
        Fits32(P.Read(c, pm, P.SlotTid(k)));
        if P.Read(c, pm, P.SlotTid(k)) == 0 {
          StoreHolds(m, p.base, c, pm, P.SlotTid(k), v);
        }
    }
  }

  lemma Untouched(m: Memory, base: X86.Word)
    ensures Elsewhere(m, m, base)
  {
  }

  lemma {:induction false} FromLEFits(s: seq<Byte>)
    ensures Fits(FromLE(s), |s|)
  {
    if s != [] {
      FromLEFits(s[1..]);
    }
  }

  /** A place that exists reads as the protocol has it, and so what is in it fits. */
  lemma HeldPlace(m: Memory, base: X86.Word, c: P.Config, pm: P.Mem, loc: P.Loc)
    requires Holds(m, base, c, pm) && P.InBounds(loc)
    ensures Says(m, base, loc, P.Read(c, pm, loc)) && Fits(P.Read(c, pm, loc), L.WidthOf(loc))
  {
    hide Image, Fits, FromLE, P.Read, L.WidthOf, L.AddrOf, P.InBounds;
    ImageAt(m, base, c, pm, loc);
    FromLEFits(Slice(m, L.AddrOf(base, loc), L.WidthOf(loc)));
  }

  lemma Fits64(v: nat)
    ensures Fits(v, 8) <==> v < P.TWO64
  {
    assert Pow256(8) == 0x1_0000_0000_0000_0000;
  }

  lemma Fits32(v: nat)
    ensures Fits(v, 4) <==> v < P.TWO32
  {
    assert Pow256(4) == 0x1_0000_0000;
  }

  lemma IndexStored(pm: P.Mem)
    ensures P.Write(pm, P.WriteIndex, W64(pm.index + 1)) == pm.(index := W64(pm.index + 1))
  {
  }

  // ---------------------------------------------------------------- the first state

  lemma {:induction false} ZeroIsZero(s: seq<Byte>)
    requires forall i :: 0 <= i < |s| ==> s[i] == 0
    ensures FromLE(s) == 0
  {
    if s != [] {
      ZeroIsZero(s[1..]);
    }
  }

  /** A piece of a stretch that holds known bytes. */
  lemma PieceIs(m: Memory, at: X86.Word, bytes: seq<Byte>, offset: nat, width: nat)
    requires Fetches(m, at, bytes) && offset + width <= |bytes|
    ensures Mapped(m, at + offset, width) && Slice(m, at + offset, width) == bytes[offset..offset + width]
  {
    var whole := Slice(m, at, |bytes|);
    forall x | at + offset <= x < at + offset + width
      ensures x in m && m[x] == bytes[x - at]
    {
      assert whole[x - at] == bytes[x - at];
    }
    assert Slice(m, at + offset, width) == bytes[offset..offset + width];
  }

  lemma ZeroPlace(m: Memory, base: X86.Word, at: X86.Word, bytes: seq<Byte>, loc: P.Loc, offset: nat)
    requires Fetches(m, at, bytes) && L.AddrOf(base, loc) == at + offset && offset + L.WidthOf(loc) <= |bytes|
    requires forall i :: offset <= i < offset + L.WidthOf(loc) ==> bytes[i] == 0
    ensures Says(m, base, loc, 0)
  {
    hide L.AddrOf, L.WidthOf, FromLE, Fetches, Slice;
    PieceIs(m, at, bytes, offset, L.WidthOf(loc));
    ZeroIsZero(bytes[offset..offset + L.WidthOf(loc)]);
  }

  /** The area as installed holds the protocol's first state, enabled. */
  lemma InstalledIsInit(m: Memory, p: Probe, target: X86.Word, code: seq<Byte>, now: P.Word)
    requires I.Installed(m, p, target, code) && ValidProbe(p)
    ensures Holds(m, p.base, ConfigOf(p), P.Init(1, now).s.m)
  {
    hide I.TrampolineBytes, I.EntryBytes, I.ReturnBytes, Fetches, I.ConfigBytes, I.BufferBytes, I.Zeros, Image;
    InstalledImage(m, p, target, code, now);
    CapacityPlace(m, p);
  }

  lemma CapacityPlace(m: Memory, p: Probe)
    requires Fetches(m, L.EventsAddr(p.base), I.BufferBytes())
    ensures Mapped(m, L.EventsAddr(p.base), L.BUFFER_SIZE)
    ensures FromLE(Slice(m, CapacityAddr(p.base), 8)) == P.CAPACITY
  {
    hide FromLE, LE;
    var bytes := I.BufferBytes();
    PieceIs(m, L.EventsAddr(p.base), bytes, 0, |bytes|);
    PieceIs(m, L.EventsAddr(p.base), bytes, 8, 8);
    assert bytes[8..16] == LE(P.CAPACITY, 8);
    Fits64(P.CAPACITY);
    LERoundTrips(P.CAPACITY, 8);
  }

  lemma InstalledImage(m: Memory, p: Probe, target: X86.Word, code: seq<Byte>, now: P.Word)
    requires I.Installed(m, p, target, code) && ValidProbe(p)
    ensures Image(m, p.base, ConfigOf(p), P.Init(1, now).s.m) && Sized(P.Init(1, now).s.m)
  {
    hide Image, Says, I.TrampolineBytes, I.EntryBytes, I.ReturnBytes, Fetches, I.ConfigBytes, I.BufferBytes;
    hide I.Zeros;
    var pm, c := P.Init(1, now).s.m, ConfigOf(p);
    forall loc: P.Loc | P.InBounds(loc)
      ensures Says(m, p.base, loc, P.Read(c, pm, loc))
    {
      if loc.Enabled? || loc.BufPtr? {
        ConfigPlace(m, p, loc);
      } else if loc.Ring? || loc.WriteIndex? {
        BufferPlace(m, p, loc);
        EmptyReadsZero(c, now, loc);
      } else {
        SlotPlace(m, p, loc);
        EmptyReadsZero(c, now, loc);
      }
    }
    ImageIf(m, p.base, c, pm);
  }

  lemma ConfigPlace(m: Memory, p: Probe, loc: P.Loc)
    requires Fetches(m, L.ConfigAddr(p.base), I.ConfigBytes(p)) && ValidProbe(p) && (loc.Enabled? || loc.BufPtr?)
    ensures Says(m, p.base, loc, if loc.Enabled? then 1 else L.EventsAddr(p.base))
  {
    hide LE, FromLE, Fetches;
    var bytes := I.ConfigBytes(p);
    assert Pow256(4) == 0x1_0000_0000 && Pow256(8) == 0x1_0000_0000_0000_0000;
    if loc.Enabled? {
      PieceIs(m, L.ConfigAddr(p.base), bytes, 0, 4);
      assert bytes[0..4] == LE(1, 4);
      LERoundTrips(1, 4);
    } else {
      PieceIs(m, L.ConfigAddr(p.base), bytes, 8, 8);
      assert bytes[8..16] == LE(L.EventsAddr(p.base), 8);
      LERoundTrips(L.EventsAddr(p.base), 8);
    }
  }

  lemma BufferPlace(m: Memory, p: Probe, loc: P.Loc)
    requires Fetches(m, L.EventsAddr(p.base), I.BufferBytes()) && P.InBounds(loc) && (loc.Ring? || loc.WriteIndex?)
    ensures Says(m, p.base, loc, 0)
  {
    hide FromLE, Fetches, Says;
    var at, bytes := L.EventsAddr(p.base), I.BufferBytes();
    if loc.WriteIndex? {
      assert bytes[0..8] == LE(0, 8);
      ZeroBytes(8);
      forall i | 0 <= i < 8 ensures bytes[i] == 0 { assert bytes[i] == LE(0, 8)[i]; }
      ZeroPlace(m, p.base, at, bytes, loc, 0);
    } else {
      L.FieldInside(loc.f);
      var offset := L.HEADER_SIZE + L.EVENT_SIZE * loc.i + L.FieldOffset(loc.f);
      forall i | L.HEADER_SIZE <= i < |bytes| ensures bytes[i] == 0 { BufferTail(i); }
      ZeroPlace(m, p.base, at, bytes, loc, offset);
    }
  }

  lemma BufferTail(i: nat)
    requires L.HEADER_SIZE <= i < L.BUFFER_SIZE
    ensures I.BufferBytes()[i] == 0
  {
    hide LE;
    assert I.BufferBytes()[i] == I.Zeros(P.CAPACITY * L.EVENT_SIZE)[i - 16];
  }

  lemma {:induction false} ZeroBytes(n: nat)
    ensures forall i :: 0 <= i < n ==> LE(0, n)[i] == 0
  {
    if n > 0 {
      ZeroBytes(n - 1);
    }
  }

  lemma SlotPlace(m: Memory, p: Probe, loc: P.Loc)
    requires Fetches(m, L.ShadowAddr(p.base), I.Zeros(L.SHADOW_SIZE)) && P.InBounds(loc) && L.InSlot(loc)
    ensures Says(m, p.base, loc, 0)
  {
    hide FromLE, Fetches, Says;
    L.PlacesStayInRegion(p.base, loc);
    var offset := L.AddrOf(p.base, loc) - L.ShadowAddr(p.base);
    ZeroPlace(m, p.base, L.ShadowAddr(p.base), I.Zeros(L.SHADOW_SIZE), loc, offset);
  }

  lemma EmptyReadsZero(c: P.Config, now: P.Word, loc: P.Loc)
    requires P.InBounds(loc) && !loc.Enabled? && !loc.BufPtr?
    ensures P.Read(c, P.Init(1, now).s.m, loc) == 0
  {
  }
}
