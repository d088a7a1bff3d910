/** Setting up the runtime area of one probe in the target: mapping it, building the three pieces of
    code, and writing six regions. */
module Install {
  import opened Wrappers
  import opened X86
  import opened Stubs
  import opened RemoteMem
  import opened StubMachine
  import A = Assembler
  import C = Codegen
  import L = Layout
  import Z = StubSizes
  import Protocol

  const AREA: nat := 633008

  function ConfigBytes(p: Probe): (s: seq<Byte>)
    ensures |s| == 24
  {
    LE(1, 4) + LE(p.probeId, 4) + LE(L.EventsAddr(p.base), 8) + LE(L.ShadowAddr(p.base), 8)
  }

  function BufferBytes(): (s: seq<Byte>)
    ensures |s| == L.BUFFER_SIZE
  {
    LE(0, 8) + LE(Protocol.CAPACITY, 8) + Zeros(Protocol.CAPACITY * L.EVENT_SIZE)
  }

  function Zeros(n: nat): (s: seq<Byte>)
    ensures |s| == n
  {
    seq(n, i => 0)
  }

  /** The trampoline's jump goes to the place after the original code. */
  function TrampolineConsts(p: Probe, target: X86.Word, code: seq<Byte>): Consts
  {
    ConstsOf(p).(target := W64(target + |code|))
  }

  function TrampolineBytes(p: Probe, target: X86.Word, code: seq<Byte>): seq<Byte>
  {
    code + A.BlockBytes(TrampolineConsts(p, target, code), Block(ABS_JUMP, RetTop))
  }

  function EntryBytes(p: Probe): seq<Byte>
  {
    A.Assembled(ConstsOf(p), EntryStub(p.hasRet), 38)
  }

  function ReturnBytes(p: Probe): seq<Byte>
  {
    A.Assembled(ConstsOf(p), ReturnStub(), 29)
  }

  /** The area as installed: enabled, an empty ring, no slot claimed, and the code. */
  predicate Installed(m: Memory, p: Probe, target: X86.Word, code: seq<Byte>)
  {
    && Fetches(m, L.ConfigAddr(p.base), ConfigBytes(p))
    && Fetches(m, L.EventsAddr(p.base), BufferBytes())
    && Fetches(m, L.ShadowAddr(p.base), Zeros(L.SHADOW_SIZE))
    && Fetches(m, L.TrampolineAddr(p.base), TrampolineBytes(p, target, code))
    && Fetches(m, L.EntryStubAddr(p.base), EntryBytes(p))
    && Fetches(m, L.ReturnStubAddr(p.base), ReturnBytes(p))
  }

  /** Memory outside the area is as before, where it matters. */
  ghost predicate Keeps(m: Memory, m': Memory, keep: set<int>)
  {
    forall x :: x in keep ==> x in m && x in m' && m'[x] == m[x]
  }

  ghost predicate Covers(m: Memory, addr: int, len: nat)
  {
    forall x :: addr <= x < addr + len ==> x in m
  }

  /** remote_mmap through the borrowed thread: on success a fresh zeroed stretch of user addresses. What
      the borrowed call leaves elsewhere is outside `keep`. */
  method RemoteMmap(t: Tracee, pid: int, size: nat, ghost keep: set<int>)
    returns (ok: bool, base: X86.Word, ghost asked: seq<Response>)
    requires keep <= t.mem.Keys
    modifies t
    ensures t.log == old(t.log) + asked
    ensures if pid <= 0 || size == 0 then !ok && asked == [] && t.mem == old(t.mem)
            else asked == [Mmapped(size, if ok then Some(base) else None)]
    ensures Keeps(old(t.mem), t.mem, keep)
    ensures ok ==> 0 < base && base + size <= USER_TOP && Covers(t.mem, base, size)
    ensures ok ==> forall x :: base <= x < base + size ==> x !in old(t.mem)
  {
    ok, base, asked := false, 0, [];
    if pid <= 0 || size == 0 { return; }
    ok, base := *, *;
    if ok && 0 < base && base + size <= USER_TOP && forall x | base <= x < base + size :: x !in t.mem {
      t.mem := Put(t.mem, base, Zeros(size));
    } else {
      ok := false;
    }
    asked := [Mmapped(size, if ok then Some(base) else None)];
    t.log := t.log + asked;
  }

  lemma FetchesKept(m: Memory, pc: X86.Word, bytes: seq<Byte>, addr: int, x: seq<Byte>)
    requires Fetches(m, pc, bytes) && (addr + |x| <= pc || pc + |bytes| <= addr)
    ensures Fetches(Put(m, addr, x), pc, bytes)
  {
    var m' := Put(m, addr, x);
    forall i | 0 <= i < |bytes| ensures pc + i in m' && m'[pc + i] == bytes[i] {
      assert Slice(m, pc, |bytes|)[i] == bytes[i];
    }
    assert Slice(m', pc, |bytes|) == bytes;
  }

  lemma FetchesPut(m: Memory, pc: X86.Word, bytes: seq<Byte>)
    ensures Fetches(Put(m, pc, bytes), pc, bytes)
  {
    ReadAfterWrite(m, pc, bytes);
  }

  lemma KeepsPut(m0: Memory, m: Memory, keep: set<int>, addr: int, x: seq<Byte>)
    requires Keeps(m0, m, keep) && forall i :: addr <= i < addr + |x| ==> i !in keep
    ensures Keeps(m0, Put(m, addr, x), keep)
  {
  }

  lemma Lengths(p: Probe, target: X86.Word, code: seq<Byte>)
    ensures |TrampolineBytes(p, target, code)| == |code| + 17
    ensures 0 < |EntryBytes(p)| <= 466 && |ReturnBytes(p)| == 350
  {
    hide EncCode, A.Offset, EntryStub, ReturnStub;
    var k := ConstsOf(p);
    C.JumpEncodes(TrampolineConsts(p, target, code));
    Z.StubsFit(k);
    A.AsmLength(k, EntryStub(p.hasRet), A.Rels(k, EntryStub(p.hasRet), 38));
    A.AsmLength(k, ReturnStub(), A.Rels(k, ReturnStub(), 29));
  }

  /** The six writes, in order, leave the area installed: none disturbs another. */
  lemma SixWrites(m: Memory, p: Probe, target: X86.Word, code: seq<Byte>)
    requires |code| <= 32
    ensures Installed(Written(m, p, target, code, 6), p, target, code)
  {
    hide ConfigBytes, BufferBytes, Zeros, TrampolineBytes, EntryBytes, ReturnBytes, Put, Fetches;
    Lengths(p, target, code);
    forall i: nat | i < 6
      ensures Fetches(Written(m, p, target, code, 6), PieceAddr(p, i), Piece(p, target, code, i))
    {
      PieceStays(m, p, target, code, i, 6);
    }
    assert PieceAddr(p, 0) == L.ConfigAddr(p.base) && PieceAddr(p, 1) == L.EventsAddr(p.base);
    assert PieceAddr(p, 2) == L.ShadowAddr(p.base) && PieceAddr(p, 3) == L.TrampolineAddr(p.base);
    assert PieceAddr(p, 4) == L.EntryStubAddr(p.base) && PieceAddr(p, 5) == L.ReturnStubAddr(p.base);
  }

  function PieceAddr(p: Probe, i: nat): X86.Word
  {
    match i
    case 0 => L.ConfigAddr(p.base)
    case 1 => L.EventsAddr(p.base)
    case 2 => L.ShadowAddr(p.base)
    case 3 => L.TrampolineAddr(p.base)
    case 4 => L.EntryStubAddr(p.base)
    case _ => L.ReturnStubAddr(p.base)
  }

  function Piece(p: Probe, target: X86.Word, code: seq<Byte>, i: nat): seq<Byte>
  {
    match i
    case 0 => ConfigBytes(p)
    case 1 => BufferBytes()
    case 2 => Zeros(L.SHADOW_SIZE)
    case 3 => TrampolineBytes(p, target, code)
    case 4 => EntryBytes(p)
    case _ => ReturnBytes(p)
  }

  /** After the first n writes. */
  function Written(m: Memory, p: Probe, target: X86.Word, code: seq<Byte>, n: nat): Memory
  {
    if n == 0 then m else Put(Written(m, p, target, code, n - 1), PieceAddr(p, n - 1), Piece(p, target, code, n - 1))
  }

  lemma PiecesApart(p: Probe, target: X86.Word, code: seq<Byte>, i: nat, j: nat)
    requires |code| <= 32 && i < j < 6
    ensures PieceAddr(p, i) + |Piece(p, target, code, i)| <= PieceAddr(p, j)
    ensures p.base <= PieceAddr(p, i) && PieceAddr(p, j) + |Piece(p, target, code, j)| <= p.base + AREA
  {
    hide ConfigBytes, BufferBytes, Zeros, TrampolineBytes, EntryBytes, ReturnBytes;
    Lengths(p, target, code);
  }

  lemma {:induction false} PieceStays(m: Memory, p: Probe, target: X86.Word, code: seq<Byte>, i: nat, n: nat)
    requires |code| <= 32 && i < n <= 6
    ensures Fetches(Written(m, p, target, code, n), PieceAddr(p, i), Piece(p, target, code, i))
    decreases n
  {
    hide Piece, PieceAddr, Fetches, Put;
    if n == i + 1 {
      FetchesPut(Written(m, p, target, code, i), PieceAddr(p, i), Piece(p, target, code, i));
    } else {
      PieceStays(m, p, target, code, i, n - 1);
      PiecesApart(p, target, code, i, n - 1);
      FetchesKept(Written(m, p, target, code, n - 1), PieceAddr(p, i), Piece(p, target, code, i),
                  PieceAddr(p, n - 1), Piece(p, target, code, n - 1));
    }
  }

  /** One region written, or part of it. */
  method WriteRegion(t: Tracee, pid: int, addr: X86.Word, bytes: seq<Byte>, ghost m0: Memory, ghost keep: set<int>)
    returns (ok: bool, ghost asked: seq<Response>)
    requires Keeps(m0, t.mem, keep) && Avoids(addr, bytes, keep) && !BadTransfer(pid, addr, |bytes|)
    modifies t
    ensures t.log == old(t.log) + asked && asked != [] && (ok <==> !EndsRefused(asked))
    ensures ok ==> t.mem == Put(old(t.mem), addr, bytes)
    ensures Keeps(m0, t.mem, keep)
  {
    hide Put, Keeps, WriteGoes;
    var e;
    ghost var n;
    e, n, asked := t.RemoteWrite(pid, addr, bytes);
    WriteEnds(pid, addr, |bytes|, asked, e, n);
    KeepsPut(m0, old(t.mem), keep, addr, bytes[..n]);
    ok := e == Fine;
  }

  /** The code of one probe, built into buffers of the sizes the layout has for them. */
  method BuildAll(p: Probe, target: X86.Word, original: seq<Byte>, originalLen: int)
    returns (ok: bool, trampoline: seq<Byte>, entry: seq<Byte>, ret: seq<Byte>)
    requires ValidProbe(p) && |original| == C.ORIGINAL_MAX
    ensures ok <==> 0 < originalLen <= C.ORIGINAL_MAX
    ensures ok ==> trampoline == TrampolineBytes(p, target, original[..originalLen])
    ensures ok ==> entry == EntryBytes(p) && ret == ReturnBytes(p)
  {
    hide A.Offset, A.Assembled, EntryStub, ReturnStub, A.BlockBytes;
    trampoline, entry, ret := [], [], [];
    var k := ConstsOf(p);
    Z.StubsFit(k);
    var jumpBack := k.(target := W64(target + (if originalLen >= 0 then originalLen else 0)));
    var buf := new Byte[L.TRAMPOLINE_SIZE](i => 0);
    var r := C.BuildTrampoline(jumpBack, original, originalLen, buf);
    if r.Failed? { return false, trampoline, entry, ret; }
    trampoline := buf[..r.written];
    buf := new Byte[L.STUB_SIZE](i => 0);
    r := C.BuildEntryStub(k, p.hasRet, buf);
    if r.Failed? { return false, trampoline, entry, ret; }
    entry := buf[..r.written];
    buf := new Byte[L.STUB_SIZE](i => 0);
    r := C.BuildRetStub(k, buf);
    if r.Failed? { return false, trampoline, entry, ret; }
    ret := buf[..r.written];
    ok := true;
  }

  /** lp_install_remote_runtime. Whether or not it comes through, nothing in `keep` changes; when it does,
      a fresh area holds everything a probe needs. It comes through exactly when the arguments make sense and the
      last thing it asked for was granted. */
  method InstallRuntime(t: Tracee, pid: int, probeId: nat, hasRet: bool, target: X86.Word, original: seq<Byte>,
                        originalLen: int, ghost keep: set<int>)
    returns (ok: bool, base: X86.Word, ghost asked: seq<Response>)
    requires keep <= t.mem.Keys && |original| == C.ORIGINAL_MAX
    requires pid < 0x8000_0000 && probeId < 16
    modifies t
    ensures t.log == old(t.log) + asked && (asked == [] <==> pid <= 0)
    ensures ok <==> pid > 0 && 0 < originalLen <= C.ORIGINAL_MAX && !EndsRefused(asked)
    ensures ok ==> asked[0] == Mmapped(AREA, Some(base)) && ValidProbe(Probe(base, pid, probeId, hasRet))
    ensures Keeps(old(t.mem), t.mem, keep)
    ensures ok ==> Installed(t.mem, Probe(base, pid, probeId, hasRet), target, original[..originalLen])
    ensures ok ==> Covers(t.mem, base, AREA) && forall x :: base <= x < base + AREA ==> x !in old(t.mem)
  {
    hide Put, Keeps, Installed, ConfigBytes, BufferBytes, Zeros, TrampolineBytes, EntryBytes, ReturnBytes, Covers;
    hide Avoids, FreeOf, Refused;
    ok, base, asked := RemoteMmap(t, pid, AREA, keep);
    RefusedMmap(AREA, if ok then Some(base) else None);
    if !ok { return; }
    var p := Probe(base, pid, probeId, hasRet);
    var trampoline, entry, ret;
    ok, trampoline, entry, ret := BuildAll(p, target, original, originalLen);
    if !ok { return; }
    ghost var m1, more := t.mem, [];
    FreshArea(old(t.mem), keep, p, target, original[..originalLen]);
    ok, more := WriteAll(t, p, target, original[..originalLen], trampoline, entry, ret, old(t.mem), keep);
    asked := asked + more;
    assert asked[|asked| - 1] == more[|more| - 1];
    if ok {
      SixWrites(m1, p, target, original[..originalLen]);
      WrittenCovers(m1, p, target, original[..originalLen], 6);
    }
  }

  lemma RefusedMmap(len: nat, base: Option<X86.Word>)
    ensures EndsRefused([Mmapped(len, base)]) <==> base.None?
  {
  }

  /** The six writes, as far as the first that fails. */
  method WriteAll(t: Tracee, p: Probe, target: X86.Word, code: seq<Byte>, trampoline: seq<Byte>, entry: seq<Byte>,
                  ret: seq<Byte>, ghost m0: Memory, ghost keep: set<int>)
    returns (ok: bool, ghost asked: seq<Response>)
    requires trampoline == TrampolineBytes(p, target, code) && entry == EntryBytes(p) && ret == ReturnBytes(p)
    requires Keeps(m0, t.mem, keep) && FreeOf(p, target, code, keep) && p.base > 0 && p.pid > 0
    modifies t
    ensures t.log == old(t.log) + asked && asked != [] && (ok <==> !EndsRefused(asked))
    ensures Keeps(m0, t.mem, keep)
    ensures ok ==> t.mem == Written(old(t.mem), p, target, code, 6)
  {
    hide Put, Keeps, ConfigBytes, BufferBytes, Zeros, TrampolineBytes, EntryBytes, ReturnBytes, Avoids, Refused;
    hide Written;
    ghost var more := [];
    Lengths(p, target, code);
    ok, asked := WriteRegion(t, p.pid, L.ConfigAddr(p.base), ConfigBytes(p), m0, keep);
    if !ok { return; }
    ok, more := WriteRegion(t, p.pid, L.EventsAddr(p.base), BufferBytes(), m0, keep);
    asked := asked + more;
    if !ok { return; }
    ok, more := WriteRegion(t, p.pid, L.ShadowAddr(p.base), Zeros(L.SHADOW_SIZE), m0, keep);
    asked := asked + more;
    if !ok { return; }
    ok, more := WriteRegion(t, p.pid, L.TrampolineAddr(p.base), trampoline, m0, keep);
    asked := asked + more;
    if !ok { return; }
    ok, more := WriteRegion(t, p.pid, L.EntryStubAddr(p.base), entry, m0, keep);
    asked := asked + more;
    if !ok { return; }
    ok, more := WriteRegion(t, p.pid, L.ReturnStubAddr(p.base), ret, m0, keep);
    asked := asked + more;
    WrittenAll(old(t.mem), p, target, code);
  }

  /** No region reaches what is to be kept. */
  ghost predicate FreeOf(p: Probe, target: X86.Word, code: seq<Byte>, keep: set<int>)
  {
    && Avoids(L.ConfigAddr(p.base), ConfigBytes(p), keep) && Avoids(L.EventsAddr(p.base), BufferBytes(), keep)
    && Avoids(L.ShadowAddr(p.base), Zeros(L.SHADOW_SIZE), keep)
    && Avoids(L.TrampolineAddr(p.base), TrampolineBytes(p, target, code), keep)
    && Avoids(L.EntryStubAddr(p.base), EntryBytes(p), keep)
    && Avoids(L.ReturnStubAddr(p.base), ReturnBytes(p), keep)
  }

  ghost predicate Avoids(addr: int, bytes: seq<Byte>, keep: set<int>)
  {
    forall i :: addr <= i < addr + |bytes| ==> i !in keep
  }

  lemma FreshArea(m0: Memory, keep: set<int>, p: Probe, target: X86.Word, code: seq<Byte>)
    requires keep <= m0.Keys && |code| <= 32 && forall x :: p.base <= x < p.base + AREA ==> x !in m0
    ensures FreeOf(p, target, code, keep)
  {
    hide ConfigBytes, BufferBytes, Zeros, TrampolineBytes, EntryBytes, ReturnBytes;
    Lengths(p, target, code);
  }

  lemma WrittenAll(m: Memory, p: Probe, target: X86.Word, code: seq<Byte>)
    ensures var m1 := Put(m, L.ConfigAddr(p.base), ConfigBytes(p));
            var m2 := Put(m1, L.EventsAddr(p.base), BufferBytes());
            var m3 := Put(m2, L.ShadowAddr(p.base), Zeros(L.SHADOW_SIZE));
            var m4 := Put(m3, L.TrampolineAddr(p.base), TrampolineBytes(p, target, code));
            var m5 := Put(m4, L.EntryStubAddr(p.base), EntryBytes(p));
            Put(m5, L.ReturnStubAddr(p.base), ReturnBytes(p)) == Written(m, p, target, code, 6)
  {
    hide Put, ConfigBytes, BufferBytes, Zeros, TrampolineBytes, EntryBytes, ReturnBytes;
    assert Written(m, p, target, code, 0) == m;
    assert Written(m, p, target, code, 1) == Put(m, L.ConfigAddr(p.base), ConfigBytes(p));
    assert Written(m, p, target, code, 2) == Put(Written(m, p, target, code, 1), L.EventsAddr(p.base), BufferBytes());
    assert Written(m, p, target, code, 3)
        == Put(Written(m, p, target, code, 2), L.ShadowAddr(p.base), Zeros(L.SHADOW_SIZE));
    assert Written(m, p, target, code, 4)
        == Put(Written(m, p, target, code, 3), L.TrampolineAddr(p.base), TrampolineBytes(p, target, code));
    assert Written(m, p, target, code, 5)
        == Put(Written(m, p, target, code, 4), L.EntryStubAddr(p.base), EntryBytes(p));
  }

  lemma {:induction false} WrittenCovers(m: Memory, p: Probe, target: X86.Word, code: seq<Byte>, n: nat)
    requires n <= 6 && Covers(m, p.base, AREA)
    ensures Covers(Written(m, p, target, code, n), p.base, AREA)
  {
    hide Piece, PieceAddr;
    if n > 0 {
      WrittenCovers(m, p, target, code, n - 1);
    }
  }

  /** A write outside the area leaves it installed. */
  lemma InstalledKept(m: Memory, p: Probe, target: X86.Word, code: seq<Byte>, addr: int, x: seq<Byte>)
    requires Installed(m, p, target, code) && |code| <= 32 && (addr + |x| <= p.base || p.base + AREA <= addr)
    ensures Installed(Put(m, addr, x), p, target, code)
  {
    hide ConfigBytes, BufferBytes, Zeros, TrampolineBytes, EntryBytes, ReturnBytes, Fetches, Put;
    Lengths(p, target, code);
    FetchesKept(m, L.ConfigAddr(p.base), ConfigBytes(p), addr, x);
    FetchesKept(m, L.EventsAddr(p.base), BufferBytes(), addr, x);
    FetchesKept(m, L.ShadowAddr(p.base), Zeros(L.SHADOW_SIZE), addr, x);
    FetchesKept(m, L.TrampolineAddr(p.base), TrampolineBytes(p, target, code), addr, x);
    FetchesKept(m, L.EntryStubAddr(p.base), EntryBytes(p), addr, x);
    FetchesKept(m, L.ReturnStubAddr(p.base), ReturnBytes(p), addr, x);
  }

  /** The first word of the configuration says enabled. */
  lemma InstalledFlag(m: Memory, p: Probe, target: X86.Word, code: seq<Byte>)
    requires Installed(m, p, target, code)
    ensures forall k :: 0 <= k < 4 ==> p.base + k in m && m[p.base + k] == LE(1, 4)[k]
  {
    hide LE, BufferBytes, Zeros, TrampolineBytes, EntryBytes, ReturnBytes;
    forall k | 0 <= k < 4
      ensures p.base + k in m && m[p.base + k] == LE(1, 4)[k]
    {
      assert Slice(m, p.base, 24)[k] == ConfigBytes(p)[k];
    }
  }

  /** The configuration as the stubs and a reader find it: enabled, the probe's number, and where the events and the
      shadow stacks are. */
  lemma ConfigReads(m: Memory, p: Probe, target: X86.Word, code: seq<Byte>)
    requires Installed(m, p, target, code) && ValidProbe(p)
    ensures Mapped(m, L.ConfigAddr(p.base), 24)
    ensures var b := Slice(m, L.ConfigAddr(p.base), 24);
            && FromLE(b[0..4]) == 1 && FromLE(b[4..8]) == p.probeId
            && FromLE(b[8..16]) == L.EventsAddr(p.base) && FromLE(b[16..24]) == L.ShadowAddr(p.base)
  {
    hide LE, FromLE, BufferBytes, Zeros, TrampolineBytes, EntryBytes, ReturnBytes, Pow256;
    var b := Slice(m, L.ConfigAddr(p.base), 24);
    Powers();
    assert b[0..4] == LE(1, 4) && b[4..8] == LE(p.probeId, 4);
    assert b[8..16] == LE(L.EventsAddr(p.base), 8) && b[16..24] == LE(L.ShadowAddr(p.base), 8);
    LERoundTrips(1, 4);
    LERoundTrips(p.probeId, 4);
    LERoundTrips(L.EventsAddr(p.base), 8);
    LERoundTrips(L.ShadowAddr(p.base), 8);
  }

  lemma Powers()
    ensures Pow256(4) == 0x1_0000_0000 && Pow256(8) == 0x1_0000_0000_0000_0000
  {
  }
}
