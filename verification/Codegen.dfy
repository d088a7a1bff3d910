/** The builders of the stubs and of the trampoline: emit calls into a bounded buffer, displacements
    left open and written over once their labels are known. */
module Codegen {
  import opened X86
  import opened Stubs
  import opened Assembler
  import opened StubBytes

  datatype Errno = EINVAL | ENOSPC

  datatype Outcome = Built(written: nat) | Failed(error: Errno)

  /** The code writer, and the stub it is writing: `chunks` and `ops` are the arrays its builder emits
      for each block. `rels` and `orig` are history: what follows each finished block, and the buffer
      as it was. */
  class CodeWriter {
    const buf: array<Byte>
    var len: nat
    const chunks: nat -> Chunks
    const ops: nat -> seq<Byte>
    ghost const k: Consts
    ghost const stub: nat -> Block
    ghost const orig: seq<Byte>
    ghost var rels: seq<seq<Byte>>

    /** What is written is the blocks finished so far; the rest of the buffer is as it was. */
    ghost predicate Valid()
      reads this, buf
    {
      && len <= buf.Length == |orig| && (forall i :: len <= i < buf.Length ==> buf[i] == orig[i])
      && Shaped(stub, rels)
      && buf[..len] == Asm(k, stub, rels)
      && Encodes(k, stub, chunks, ops)
    }

    constructor (buf: array<Byte>, chunks: nat -> Chunks, ops: nat -> seq<Byte>, ghost k: Consts,
                 ghost stub: nat -> Block)
      requires Encodes(k, stub, chunks, ops)
      ensures this.buf == buf && this.chunks == chunks && this.ops == ops && this.k == k && this.stub == stub
      ensures orig == old(buf[..]) && buf[..] == orig && At([], 0) && len == 0
    {
      this.buf := buf;
      len := 0;
      this.chunks := chunks;
      this.ops := ops;
      this.k := k;
      this.stub := stub;
      orig := buf[..];
      rels := [];
    }

    /** memcpy at the end, or ENOSPC. */
    method EmitBytes(bytes: seq<Byte>) returns (ok: bool)
      requires len <= buf.Length
      modifies this`len, buf
      ensures ok <==> old(len) + |bytes| <= buf.Length
      ensures ok ==> len == old(len) + |bytes| && buf[..len] == old(buf[..len]) + bytes
      ensures ok ==> forall i :: len <= i < buf.Length ==> buf[i] == old(buf[i])
      ensures !ok ==> len == old(len) && buf[..] == old(buf[..])
    {
      if len + |bytes| > buf.Length {
        return false;
      }
      forall i | 0 <= i < |bytes| {
        buf[len + i] := bytes[i];
      }
      len := len + |bytes|;
      ok := true;
    }

    /** A chain of emit calls: it stops at the first that fails. */
    method EmitAll(c: Chunks) returns (ok: bool)
      requires len <= buf.Length
      modifies this`len, buf
      ensures len <= buf.Length
      ensures ok <==> old(len) + |Flat(c)| <= buf.Length
      ensures ok ==> len == old(len) + |Flat(c)| && buf[..len] == old(buf[..len]) + Flat(c)
      ensures ok ==> forall i :: len <= i < buf.Length ==> buf[i] == old(buf[i])
      decreases c
    {
      match c {
        case Nil =>
          ok := true;
        case Lit(bytes, rest) =>
          ok := EmitBytes(bytes);
          if !ok { return; }
          ok := EmitAll(rest);
        case Imm(bytes, v, n, rest) =>
          ok := EmitBytes(bytes);
          if !ok { return; }
          ok := EmitBytes(LE(v, n));
          if !ok { return; }
          ok := EmitAll(rest);
      }
    }

    /** The writer stands before block `b`; from block |rs| on every displacement is still open. */
    ghost predicate At(rs: seq<seq<Byte>>, b: nat)
      reads this, buf
    {
      && Valid() && len == Offset(k, stub, b)
      && |rs| <= b == |rels| && rels[..|rs|] == rs
      && forall j: nat :: |rs| <= j < b ==> rels[j] == Open(stub, j)
    }

    /** A label. */
    method Here(b: nat, ghost rs: seq<seq<Byte>>) returns (at: nat)
      requires At(rs, b)
      ensures at == Offset(k, stub, b)
    {
      at := len;
    }

    lemma AtIs(rs: seq<seq<Byte>>, b: nat)
      requires At(rs, b)
      ensures Valid() && |rs| <= |rels| == b && len == Offset(k, stub, b) && rels[..|rs|] == rs
      ensures forall j: nat :: |rs| <= j < b ==> rels[j] == Open(stub, j)
    {
    }

    /** Everything written so far has its displacements. */
    lemma Settled(b: nat)
      requires Valid() && rels == Rels(k, stub, b)
      ensures At(rels, b)
    {
      AsmLength(k, stub, rels);
    }

    lemma Finished(b: nat, n: nat)
      requires At(Rels(k, stub, b), n) && b <= n && forall j: nat | b <= j < n :: !HasRel(stub(j).term)
      ensures len <= buf.Length && len == Offset(k, stub, n) && buf[..len] == Assembled(k, stub, n)
      ensures |orig| == buf.Length && buf[len..] == orig[len..]
    {
      hide Asm, Offset;
      assert rels == Rels(k, stub, n);
    }

    /** One block up to its displacement. */
    method Body(b: nat) returns (ok: bool)
      requires Valid() && b == |rels|
      modifies this`len, buf
      ensures ok <==> Offset(k, stub, b) + |BlockBytes(k, stub(b))| <= buf.Length
      ensures ok ==> len == Offset(k, stub, b) + |BlockBytes(k, stub(b))| <= buf.Length == |orig|
      ensures ok ==> forall i :: len <= i < buf.Length ==> buf[i] == orig[i]
      ensures ok ==> buf[..len] == Asm(k, stub, rels) + BlockBytes(k, stub(b))
    {
      hide *;
      BodyIs(b);
      ok := EmitAll(chunks(b));
      if !ok { return; }
      ok := EmitBytes(ops(b));
      if !ok { return; }
      Assoc(Asm(k, stub, rels), Flat(chunks(b)), ops(b));
    }

    lemma BodyIs(b: nat)
      requires Valid() && b == |rels|
      ensures len <= buf.Length == |orig| && len == Offset(k, stub, b)
      ensures buf[..len] == Asm(k, stub, rels) && forall i :: len <= i < buf.Length ==> buf[i] == orig[i]
      ensures BlockBytes(k, stub(b)) == Flat(chunks(b)) + ops(b)
    {
      hide Asm, Offset;
      AsmLength(k, stub, rels);
      assert Writes(k, chunks(b), stub(b).body);
    }

    /** A block that ends in no displacement. */
    method Straight(b: nat, ghost rs: seq<seq<Byte>>) returns (ok: bool)
      requires At(rs, b) && !HasRel(stub(b).term)
      modifies this`len, this`rels, buf
      ensures ok <==> Offset(k, stub, b + 1) <= buf.Length
      ensures ok ==> At(rs, b + 1)
    {
      hide Asm, BlockBytes, Encodes;
      ok := Body(b);
      if !ok { return; }
      AsmExtend(k, stub, rels, []);
      assert buf[..len] + [] == buf[..len];
      rels := rels + [[]];
    }

    /** A block that ends in a jump: its displacement is left zero, to be written over at `imm`. */
    method Jump(b: nat, ghost rs: seq<seq<Byte>>) returns (ok: bool, imm: nat)
      requires At(rs, b) && HasRel(stub(b).term)
      modifies this`len, this`rels, buf
      ensures ok <==> Offset(k, stub, b + 1) <= buf.Length
      ensures ok ==> At(rs, b + 1) && Offset(k, stub, b + 1) == imm + 4
    {
      hide Asm, BlockBytes, Encodes;
      imm := 0;
      ok := Body(b);
      if !ok { return; }
      imm := len;
      ok := EmitBytes(LE(0, 4));
      if !ok { return; }
      assert buf[..len] == Asm(k, stub, rels) + BlockBytes(k, stub(b)) + LE(0, 4);
      AsmExtend(k, stub, rels, LE(0, 4));
      rels := rels + [LE(0, 4)];
    }

    /** Blocks `lo` to `hi`, none of which ends in a displacement. */
    method Chain(lo: nat, hi: nat, ghost rs: seq<seq<Byte>>) returns (ok: bool)
      requires At(rs, lo) && lo <= hi
      requires forall b :: lo <= b < hi ==> !HasRel(stub(b).term)
      modifies this`len, this`rels, buf
      ensures ok <==> Offset(k, stub, hi) <= buf.Length
      ensures ok ==> At(rs, hi)
    {
      assert Offset(k, stub, lo) <= buf.Length;
      hide At, Offset;
      var b := lo;
      while b < hi
        invariant lo <= b <= hi && At(rs, b) && Offset(k, stub, b) <= buf.Length
      {
        OffsetMonotone(k, stub, b + 1, hi);
        ok := Straight(b, rs);
        if !ok { return; }
        b := b + 1;
      }
      ok := true;
    }

    /** memcpy of a displacement over the hole of block `b`. */
    method Patch(imm: nat, target: nat, ghost b: nat)
      requires Valid() && b < |rels| && HasRel(stub(b).term) && Offset(k, stub, b + 1) == imm + 4
      modifies this`rels, buf
      ensures Valid() && rels == old(rels)[b := Rel32(target, imm + 4)]
    {
      hide Asm, Offset, BlockBytes, Encodes, Overwrite;
      var rel := Rel32(target, imm + 4);
      AsmPatch(k, stub, rels, b, rel);
      AsmLength(k, stub, rels);
      forall i | 0 <= i < 4 {
        buf[imm + i] := rel[i];
      }
      OverwriteIs(old(buf[..len]), imm, rel, buf[..len]);
      rels := rels[b := rel];
    }
  }

  /** What stands for a displacement not known yet. */
  ghost function Open(stub: nat -> Block, b: nat): seq<Byte>
  {
    if HasRel(stub(b).term) then LE(0, 4) else []
  }

  /** The arrays are the encodings of the blocks. */
  ghost predicate Encodes(k: Consts, stub: nat -> Block, chunks: nat -> Chunks, ops: nat -> seq<Byte>)
  {
    forall b: nat :: Writes(k, chunks(b), stub(b).body) && ops(b) == OpBytes(stub(b).term)
  }

  function EntryChunksOf(k: Consts, hasRet: bool): nat -> Chunks
  {
    (b: nat) => EntryChunks(k, hasRet, b)
  }

  function EntryOps(hasRet: bool): nat -> seq<Byte>
  {
    (b: nat) => EntryOp(hasRet, b)
  }

  lemma EntryEncodes(k: Consts, hasRet: bool)
    ensures Encodes(k, EntryStub(hasRet), EntryChunksOf(k, hasRet), EntryOps(hasRet))
  {
    hide Writes, EntryChunks, EntryOp, EntryBlock;
    forall b: nat
      ensures Writes(k, EntryChunks(k, hasRet, b), EntryBlock(hasRet, b).body)
      ensures EntryOp(hasRet, b) == OpBytes(EntryBlock(hasRet, b).term)
    {
      EntryWrites(k, hasRet, b);
      EntryOpIs(hasRet, b);
    }
  }

  /** The blocks of the entry stub that end in a jump. */
  lemma EntryJumps(hasRet: bool)
    ensures forall b: nat | b < 38 ::
              (HasRel(EntryStub(hasRet)(b).term) <==>
               b == 0 || (hasRet && b in {18, 20, 21, 22, 23, 25, 26, 27, 29, 34, 35}))
  {
  }

  lemma OffsetsUpTo(k: Consts, stub: nat -> Block, lo: nat, hi: nat)
    ensures forall b: nat | lo <= b <= hi :: Offset(k, stub, b) <= Offset(k, stub, hi)
  {
    hide *;
    forall b: nat | lo <= b <= hi ensures Offset(k, stub, b) <= Offset(k, stub, hi) { OffsetMonotone(k, stub, b, hi); }
  }

  /** The hooking part of the entry stub as emitted, its displacements still zero. The results are where
      these are, and the labels. */
  datatype Fixups = Fixups(noRet: nat, loopNoRet: nat, toClaim: nat, existing: nat, nextExisting: nat, claimed: nat,
                       race: nat, nextClaim: nat, depthNoRet: nat, toDone: nat, toLoop: nat,
                       loopStart: nat, tryClaim: nat, found: nat, next: nat, done: nat)

  ghost predicate FixupsAt(k: Consts, stub: nat -> Block, h: Fixups)
  {
    && h.noRet + 4 == Offset(k, stub, 19) && h.loopNoRet + 4 == Offset(k, stub, 21)
    && h.toClaim + 4 == Offset(k, stub, 22) && h.existing + 4 == Offset(k, stub, 23)
    && h.nextExisting + 4 == Offset(k, stub, 24) && h.claimed + 4 == Offset(k, stub, 26)
    && h.race + 4 == Offset(k, stub, 27) && h.nextClaim + 4 == Offset(k, stub, 28)
    && h.depthNoRet + 4 == Offset(k, stub, 30) && h.toDone + 4 == Offset(k, stub, 35)
    && h.toLoop + 4 == Offset(k, stub, 36)
    && h.loopStart == Offset(k, stub, 20) && h.tryClaim == Offset(k, stub, 24)
    && h.found == Offset(k, stub, 28) && h.next == Offset(k, stub, 35)
    && h.done == Offset(k, stub, 36)
  }

  const NO_FIXUPS: Fixups := Fixups(0, 0, 0, 0, 0, 0, 0, 0, 0, 0, 0, 0, 0, 0, 0, 0)

  method EmitPush(w: CodeWriter) returns (ok: bool, h: Fixups)
    requires w.At([], 18) && w.stub == EntryStub(true)
    modifies w`len, w`rels, w.buf
    ensures ok <==> Offset(w.k, w.stub, 36) <= w.buf.Length
    ensures ok ==> w.At([], 36) && FixupsAt(w.k, w.stub, h)
  {
    hide *;
    OffsetsUpTo(w.k, w.stub, 18, 36);
    EntryJumps(true);
    h := NO_FIXUPS;
    var noRet, loopNoRet, toClaim, existing, nextExisting, claimed, race, nextClaim, depthNoRet, toDone, toLoop;
    ok, noRet := w.Jump(18, []);
    if !ok { return; }
    ok := w.Straight(19, []);
    if !ok { return; }
    var loopStart := w.Here(20, []);
    ok, loopNoRet := w.Jump(20, []);
    if !ok { return; }
    ok, toClaim := w.Jump(21, []);
    if !ok { return; }
    ok, existing := w.Jump(22, []);
    if !ok { return; }
    ok, nextExisting := w.Jump(23, []);
    if !ok { return; }
    var tryClaim := w.Here(24, []);
    ok := w.Straight(24, []);
    if !ok { return; }
    ok, claimed := w.Jump(25, []);
    if !ok { return; }
    ok, race := w.Jump(26, []);
    if !ok { return; }
    ok, nextClaim := w.Jump(27, []);
    if !ok { return; }
    var found := w.Here(28, []);
    ok := w.Straight(28, []);
    if !ok { return; }
    ok, depthNoRet := w.Jump(29, []);
    if !ok { return; }
    ok := w.Chain(30, 34, []);
    if !ok { return; }
    ok, toDone := w.Jump(34, []);
    if !ok { return; }
    var next := w.Here(35, []);
    ok, toLoop := w.Jump(35, []);
    if !ok { return; }
    var done := w.Here(36, []);
    h := Fixups(noRet, loopNoRet, toClaim, existing, nextExisting, claimed, race, nextClaim, depthNoRet, toDone, toLoop,
              loopStart, tryClaim, found, next, done);
    FixupsAre(w.k, w.stub, h);
  }

  lemma FixupsAre(k: Consts, stub: nat -> Block, h: Fixups)
    requires h.noRet + 4 == Offset(k, stub, 19) && h.loopNoRet + 4 == Offset(k, stub, 21)
    requires h.toClaim + 4 == Offset(k, stub, 22) && h.existing + 4 == Offset(k, stub, 23)
    requires h.nextExisting + 4 == Offset(k, stub, 24) && h.claimed + 4 == Offset(k, stub, 26)
    requires h.race + 4 == Offset(k, stub, 27) && h.nextClaim + 4 == Offset(k, stub, 28)
    requires h.depthNoRet + 4 == Offset(k, stub, 30) && h.toDone + 4 == Offset(k, stub, 35)
    requires h.toLoop + 4 == Offset(k, stub, 36)
    requires h.loopStart == Offset(k, stub, 20) && h.tryClaim == Offset(k, stub, 24)
    requires h.found == Offset(k, stub, 28) && h.next == Offset(k, stub, 35) && h.done == Offset(k, stub, 36)
    ensures FixupsAt(k, stub, h)
  {
    hide Offset;
  }

  /** The displacements of the hooking part, in the order the builder fills them in. */
  method PatchPush(w: CodeWriter, h: Fixups)
    requires w.At([], 36) && w.stub == EntryStub(true) && FixupsAt(w.k, w.stub, h)
    modifies w`rels, w.buf
    ensures w.Valid() && w.rels == Resolved(w.k, w.stub, old(w.rels))
  {
    hide w.Valid, w.At, Offset, Rel32, EntryBlock;
    w.AtIs([], 36);
    EntryJumps(true);
    w.Patch(h.noRet, h.done, 18);
    w.Patch(h.toClaim, h.tryClaim, 21);
    w.Patch(h.existing, h.found, 22);
    w.Patch(h.claimed, h.found, 25);
    w.Patch(h.race, h.found, 26);
    w.Patch(h.nextExisting, h.next, 23);
    w.Patch(h.nextClaim, h.next, 27);
    w.Patch(h.loopNoRet, h.done, 20);
    w.Patch(h.depthNoRet, h.done, 29);
    w.Patch(h.toLoop, h.loopStart, 35);
    w.Patch(h.toDone, h.done, 34);
  }

  /** The displacements of blocks 18 to 35 filled in. */
  ghost function Resolved(k: Consts, stub: nat -> Block, rels: seq<seq<Byte>>): (r: seq<seq<Byte>>)
    requires |rels| >= 36
    ensures |r| == |rels|
  {
    rels[18 := Rel32(Offset(k, stub, 36), Offset(k, stub, 19))]
        [21 := Rel32(Offset(k, stub, 24), Offset(k, stub, 22))]
        [22 := Rel32(Offset(k, stub, 28), Offset(k, stub, 23))]
        [25 := Rel32(Offset(k, stub, 28), Offset(k, stub, 26))]
        [26 := Rel32(Offset(k, stub, 28), Offset(k, stub, 27))]
        [23 := Rel32(Offset(k, stub, 35), Offset(k, stub, 24))]
        [27 := Rel32(Offset(k, stub, 35), Offset(k, stub, 28))]
        [20 := Rel32(Offset(k, stub, 36), Offset(k, stub, 21))]
        [29 := Rel32(Offset(k, stub, 36), Offset(k, stub, 30))]
        [35 := Rel32(Offset(k, stub, 20), Offset(k, stub, 36))]
        [34 := Rel32(Offset(k, stub, 36), Offset(k, stub, 35))]
  }

  lemma ResolvedIs(k: Consts, rels: seq<seq<Byte>>)
    requires |rels| == 36
    requires forall j: nat | j < 36 :: rels[j] == Open(EntryStub(true), j)
    ensures Resolved(k, EntryStub(true), rels)[0 := RelOf(k, EntryStub(true), 0)] == Rels(k, EntryStub(true), 36)
  {
    hide Offset, Rel32;
    var r := Resolved(k, EntryStub(true), rels)[0 := RelOf(k, EntryStub(true), 0)];
    forall b: nat | b < 36
      ensures r[b] == RelOf(k, EntryStub(true), b)
    {
      EntryJumps(true);
    }
  }

  lemma PlainIs(k: Consts, rels: seq<seq<Byte>>)
    requires |rels| == 36 && forall j: nat | j < 36 :: rels[j] == Open(EntryStub(false), j)
    ensures rels[0 := RelOf(k, EntryStub(false), 0)] == Rels(k, EntryStub(false), 36)
  {
    hide Offset, Rel32;
    forall b: nat | 0 < b < 36
      ensures rels[b] == RelOf(k, EntryStub(false), b)
    {
      EntryJumps(false);
    }
  }

  lemma FirstJump(k: Consts, hasRet: bool)
    ensures RelOf(k, EntryStub(hasRet), 0) == Rel32(Offset(k, EntryStub(hasRet), 36), Offset(k, EntryStub(hasRet), 1))
  {
    hide Offset, Rel32;
  }

  /** lp_x86_64_build_entry_stub: the stub in bytes, every displacement filled in; or ENOSPC, just when
      the buffer is too short for it. */
  method BuildEntryStub(k: Consts, hasRet: bool, buf: array<Byte>) returns (r: Outcome)
    modifies buf
    ensures r.Built? <==> Offset(k, EntryStub(hasRet), 38) <= buf.Length
    ensures r.Built? ==> r.written == Offset(k, EntryStub(hasRet), 38)
    ensures r.Built? ==> buf[..r.written] == Assembled(k, EntryStub(hasRet), 38)
    ensures r.Built? ==> buf[r.written..] == old(buf[..])[r.written..]
    ensures r.Failed? ==> r.error == ENOSPC
  {
    hide *;
    ghost var stub := EntryStub(hasRet);
    EntryEncodes(k, hasRet);
    OffsetsUpTo(k, stub, 0, 38);
    EntryJumps(hasRet);
    var w := new CodeWriter(buf, EntryChunksOf(k, hasRet), EntryOps(hasRet), k, stub);
    var ok, je := w.Jump(0, []);
    if !ok { return Failed(ENOSPC); }
    ok := w.Chain(1, 18, []);
    if !ok { return Failed(ENOSPC); }
    if hasRet {
      var h;
      ok, h := EmitPush(w);
      if !ok { return Failed(ENOSPC); }
      w.AtIs([], 36);
      ResolvedIs(k, w.rels);
      PatchPush(w, h);
    } else {
      ok := w.Chain(18, 36, []);
      if !ok { return Failed(ENOSPC); }
      w.AtIs([], 36);
      PlainIs(k, w.rels);
    }
    FirstJump(k, hasRet);
    w.Patch(je, w.len, 0);
    w.Settled(36);
    ok := w.Chain(36, 38, w.rels);
    if !ok { return Failed(ENOSPC); }
    w.Finished(36, 38);
    r := Built(w.len);
  }

  // ---------------------------------------------------------------- the return stub

  function ReturnChunksOf(k: Consts): nat -> Chunks
  {
    (b: nat) => ReturnChunks(k, b)
  }

  function ReturnOps(): nat -> seq<Byte>
  {
    (b: nat) => ReturnOp(b)
  }

  lemma ReturnEncodes(k: Consts)
    ensures Encodes(k, ReturnStub(), ReturnChunksOf(k), ReturnOps())
  {
    hide Writes, ReturnChunks, ReturnOp, ReturnBlock;
    forall b: nat
      ensures Writes(k, ReturnChunks(k, b), ReturnBlock(b).body) && ReturnOp(b) == OpBytes(ReturnBlock(b).term)
    {
      ReturnWrites(k, b);
      ReturnOpIs(b);
    }
  }

  lemma ReturnJumps()
    ensures forall b: nat | b < 29 :: (HasRel(ReturnStub()(b).term) <==> b in {2, 3, 4, 5, 27})
  {
  }

  /** The displacements of the return stub filled in. */
  ghost function ReturnResolved(k: Consts, rels: seq<seq<Byte>>): seq<seq<Byte>>
    requires |rels| >= 29
  {
    var stub := ReturnStub();
    rels[3 := Rel32(Offset(k, stub, 5), Offset(k, stub, 4))]
        [4 := Rel32(Offset(k, stub, 27), Offset(k, stub, 5))]
        [27 := Rel32(Offset(k, stub, 2), Offset(k, stub, 28))]
        [2 := Rel32(Offset(k, stub, 28), Offset(k, stub, 3))]
        [5 := Rel32(Offset(k, stub, 28), Offset(k, stub, 6))]
  }

  lemma ReturnResolvedIs(k: Consts, rels: seq<seq<Byte>>)
    requires |rels| == 29 && forall j: nat | j < 29 :: rels[j] == Open(ReturnStub(), j)
    ensures ReturnResolved(k, rels) == Rels(k, ReturnStub(), 29)
  {
    hide Offset, Rel32;
    var r := ReturnResolved(k, rels);
    forall b: nat | b < 29
      ensures r[b] == RelOf(k, ReturnStub(), b)
    {
      ReturnJumps();
    }
  }

  lemma ReturnPatched(k: Consts, rels: seq<seq<Byte>>)
    requires |rels| == 29
    ensures var stub := ReturnStub();
            ReturnResolved(k, rels) ==
              rels[3 := Rel32(Offset(k, stub, 5), Offset(k, stub, 4))]
                  [4 := Rel32(Offset(k, stub, 27), Offset(k, stub, 5))]
                  [27 := Rel32(Offset(k, stub, 2), Offset(k, stub, 28))]
                  [2 := Rel32(Offset(k, stub, 28), Offset(k, stub, 3))]
                  [5 := Rel32(Offset(k, stub, 28), Offset(k, stub, 6))]
  {
    hide Offset, Rel32;
  }

  datatype ReturnFixups = ReturnFixups(toFallback: nat, toFound: nat, toNext: nat, empty: nat, toLoop: nat,
                                       loopStart: nat, found: nat, next: nat, fallback: nat)

  /** The return stub as emitted, its displacements still zero. */
  method EmitReturn(w: CodeWriter) returns (ok: bool, h: ReturnFixups)
    requires w.At([], 0) && w.stub == ReturnStub()
    modifies w`len, w`rels, w.buf
    ensures ok <==> Offset(w.k, w.stub, 29) <= w.buf.Length
    ensures ok ==> w.At([], 29)
    ensures ok ==> h.toFallback + 4 == Offset(w.k, w.stub, 3) && h.toFound + 4 == Offset(w.k, w.stub, 4)
    ensures ok ==> h.toNext + 4 == Offset(w.k, w.stub, 5) && h.empty + 4 == Offset(w.k, w.stub, 6)
    ensures ok ==> h.toLoop + 4 == Offset(w.k, w.stub, 28) && h.loopStart == Offset(w.k, w.stub, 2)
    ensures ok ==> h.found == Offset(w.k, w.stub, 5) && h.next == Offset(w.k, w.stub, 27)
    ensures ok ==> h.fallback == Offset(w.k, w.stub, 28)
  {
    hide *;
    OffsetsUpTo(w.k, w.stub, 0, 29);
    ReturnJumps();
    h := ReturnFixups(0, 0, 0, 0, 0, 0, 0, 0, 0);
    ok := w.Chain(0, 2, []);
    if !ok { return; }
    var loopStart := w.Here(2, []);
    var toFallback, toFound, toNext, empty, toLoop;
    ok, toFallback := w.Jump(2, []);
    if !ok { return; }
    ok, toFound := w.Jump(3, []);
    if !ok { return; }
    ok, toNext := w.Jump(4, []);
    if !ok { return; }
    var found := w.Here(5, []);
    ok, empty := w.Jump(5, []);
    if !ok { return; }
    ok := w.Chain(6, 27, []);
    if !ok { return; }
    var next := w.Here(27, []);
    ok, toLoop := w.Jump(27, []);
    if !ok { return; }
    var fallback := w.Here(28, []);
    ok := w.Straight(28, []);
    if !ok { return; }
    h := ReturnFixups(toFallback, toFound, toNext, empty, toLoop, loopStart, found, next, fallback);
  }

  /** lp_x86_64_build_ret_stub: EINVAL without a shadow stack, ENOSPC just when the buffer is too short. */
  method BuildRetStub(k: Consts, buf: array<Byte>) returns (r: Outcome)
    modifies buf
    ensures r.Built? <==> k.shadow != 0 && Offset(k, ReturnStub(), 29) <= buf.Length
    ensures r.Failed? ==> r.error == if k.shadow == 0 then EINVAL else ENOSPC
    ensures r.Built? ==> r.written == Offset(k, ReturnStub(), 29)
    ensures r.Built? ==> buf[..r.written] == Assembled(k, ReturnStub(), 29)
    ensures r.Built? ==> buf[r.written..] == old(buf[..])[r.written..]
    ensures k.shadow == 0 ==> buf[..] == old(buf[..])
  {
    hide *;
    if k.shadow == 0 { return Failed(EINVAL); }
    ReturnEncodes(k);
    var w := new CodeWriter(buf, ReturnChunksOf(k), ReturnOps(), k, ReturnStub());
    var ok, h := EmitReturn(w);
    if !ok { return Failed(ENOSPC); }
    w.AtIs([], 29);
    ReturnJumps();
    ReturnResolvedIs(k, w.rels);
    ReturnPatched(k, w.rels);
    w.Patch(h.toFound, h.found, 3);
    w.Patch(h.toNext, h.next, 4);
    w.Patch(h.toLoop, h.loopStart, 27);
    w.Patch(h.toFallback, h.fallback, 2);
    w.Patch(h.empty, h.fallback, 5);
    w.Settled(29);
    w.Finished(29, 29);
    r := Built(w.len);
  }

  // ---------------------------------------------------------------- the trampoline

  const ORIGINAL_MAX: nat := 32

  /** The jump back, on its own. */
  function JumpStub(): nat -> Block
  {
    (b: nat) => Block(ABS_JUMP, RetTop)
  }

  lemma JumpEncodes(k: Consts)
    ensures Encodes(k, JumpStub(), (b: nat) => AbsJump(k), (b: nat) => [0xC3])
    ensures Flat(AbsJump(k)) + [0xC3] == BlockBytes(k, Block(ABS_JUMP, RetTop))
    ensures |Flat(AbsJump(k))| == 16 && |BlockBytes(k, Block(ABS_JUMP, RetTop))| == 17
  {
    hide AbsJump, EncCode;
    AbsJumpWrites(k);
  }

  /** lp_x86_64_build_trampoline: the saved prologue, then the jump to k.target that preserves r11. */
  method BuildTrampoline(k: Consts, original: seq<Byte>, originalLen: int, buf: array<Byte>) returns (r: Outcome)
    requires |original| == ORIGINAL_MAX
    modifies buf
    ensures r.Built? <==> 0 < originalLen <= ORIGINAL_MAX && originalLen + 17 <= buf.Length
    ensures r.Failed? ==> r.error == if 0 < originalLen <= ORIGINAL_MAX then ENOSPC else EINVAL
    ensures r.Built? ==> r.written == originalLen + 17
    ensures r.Built? ==>
              buf[..r.written] == original[..originalLen] + BlockBytes(k, Block(ABS_JUMP, RetTop))
    ensures r.Built? ==> buf[r.written..] == old(buf[..])[r.written..]
  {
    hide Encodes, EncCode, Asm, Offset, BlockBytes, Flat, AbsJump, Shaped;
    if originalLen <= 0 || originalLen > ORIGINAL_MAX {
      return Failed(EINVAL);
    }
    JumpEncodes(k);
    var w := new CodeWriter(buf, (b: nat) => AbsJump(k), (b: nat) => [0xC3], k, JumpStub());
    var ok := w.EmitBytes(original[..originalLen]);
    if !ok { return Failed(ENOSPC); }
    ok := w.EmitAll(AbsJump(k));
    if !ok { return Failed(ENOSPC); }
    ok := w.EmitBytes([0xC3]);
    if !ok { return Failed(ENOSPC); }
    Assoc(original[..originalLen], Flat(AbsJump(k)), [0xC3]);
    r := Built(w.len);
  }
}
