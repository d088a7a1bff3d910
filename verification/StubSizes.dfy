/** How long the stubs are, and that every jump in them lands where it should. */
module StubSizes {
  import opened X86
  import opened Stubs
  import opened Assembler
  import opened StubBytes
  import L = Layout

  /** Bytes of each block of the entry stub. */
  function EntrySize(hasRet: bool, b: nat): nat
  {
    if 18 <= b < 36 && !hasRet then 0 else
    match b
    case 0 => 44 case 1 => 4 case 2 => 47 case 3 => 8 case 4 => 8 case 5 => 8 case 6 => 9 case 7 => 9
    case 8 => 9 case 9 => 9 case 10 => 9 case 11 => 9 case 12 => 11 case 13 => 4 case 14 => 12 case 15 => 20
    case 16 => 12 case 17 => 8 case 18 => 19 case 19 => 2 case 20 => 13 case 21 => 25 case 22 => 10 case 23 => 5
    case 24 => 6 case 25 => 11 case 26 => 10 case 27 => 5 case 28 => 4 case 29 => 13 case 30 => 13 case 31 => 4
    case 32 => 8 case 33 => 6 case 34 => 23 case 35 => 8 case 36 => 24 case 37 => 17
    case _ => 0
  }

  /** Bytes of each block of the return stub. */
  function ReturnSize(b: nat): nat
  {
    match b
    case 0 => 34 case 1 => 5 case 2 => 13 case 3 => 26 case 4 => 5 case 5 => 12 case 6 => 6 case 7 => 5
    case 8 => 25 case 9 => 47 case 10 => 8 case 11 => 2 case 12 => 4 case 13 => 8 case 14 => 8 case 15 => 8
    case 16 => 8 case 17 => 8 case 18 => 8 case 19 => 8 case 20 => 8 case 21 => 9 case 22 => 16 case 23 => 24
    case 24 => 8 case 25 => 7 case 26 => 20 case 27 => 8 case 28 => 2
    case _ => 0
  }

  function EntryOpSize(hasRet: bool, b: nat): nat
  {
    |EntryOp(hasRet, b)| + RelSize(EntryBlock(hasRet, b).term)
  }

  function ReturnOpSize(b: nat): nat
  {
    |ReturnOp(b)| + RelSize(ReturnBlock(b).term)
  }

  lemma EntrySized(k: Consts, hasRet: bool, b: nat)
    requires b < 38
    ensures |Flat(EntryChunks(k, hasRet, b))| + EntryOpSize(hasRet, b) == EntrySize(hasRet, b)
  {
    hide AllListed, CodeSize, ChunksOf, Append;
    Sizes();
    ChunksSize(k, CHECK);
    ChunksSize(k, EntryBlock(hasRet, b).body);
    assert |SAVE_REGS| == |RESTORE_REGS| == 24;
  }

  lemma ReturnSized(k: Consts, b: nat)
    requires b < 29
    ensures |Flat(ReturnChunks(k, b))| + ReturnOpSize(b) == ReturnSize(b)
  {
    hide AllListed, CodeSize, ChunksOf, Append;
    Sizes();
    ChunksSize(k, R_ASK);
    ChunksSize(k, ReturnBlock(b).body);
    assert |SAVE| == |RESTORE| == 17;
  }

  lemma EntryBlockSize(k: Consts, hasRet: bool, b: nat)
    requires b < 38
    ensures |BlockBytes(k, EntryStub(hasRet)(b))| + RelSize(EntryStub(hasRet)(b).term) == EntrySize(hasRet, b)
  {
    hide EncCode, EntryBlock, EntryChunks, EntryOp, EntrySize, Flat, RelSize;
    EntryWrites(k, hasRet, b);
    EntryOpIs(hasRet, b);
    EntrySized(k, hasRet, b);
  }

  lemma ReturnBlockSize(k: Consts, b: nat)
    requires b < 29
    ensures |BlockBytes(k, ReturnStub()(b))| + RelSize(ReturnStub()(b).term) == ReturnSize(b)
  {
    hide EncCode, ReturnBlock, ReturnChunks, ReturnOp, ReturnSize, Flat, RelSize;
    ReturnWrites(k, b);
    ReturnOpIs(b);
    ReturnSized(k, b);
  }

  /** Where each block starts. */
  function EntryStart(hasRet: bool, b: nat): nat
  {
    if b == 0 then 0 else EntryStart(hasRet, b - 1) + EntrySize(hasRet, b - 1)
  }

  function ReturnStart(b: nat): nat
  {
    if b == 0 then 0 else ReturnStart(b - 1) + ReturnSize(b - 1)
  }

  lemma {:induction false} EntryOffset(k: Consts, hasRet: bool, b: nat)
    requires b <= 38
    ensures Offset(k, EntryStub(hasRet), b) == EntryStart(hasRet, b)
  {
    hide BlockBytes, EntryStub, EntrySize;
    if b > 0 {
      EntryOffset(k, hasRet, b - 1);
      EntryBlockSize(k, hasRet, b - 1);
    }
  }

  lemma {:induction false} ReturnOffset(k: Consts, b: nat)
    requires b <= 29
    ensures Offset(k, ReturnStub(), b) == ReturnStart(b)
  {
    hide BlockBytes, ReturnStub, ReturnSize;
    if b > 0 {
      ReturnOffset(k, b - 1);
      ReturnBlockSize(k, b - 1);
    }
  }

  lemma Ends()
    ensures EntryStart(true, 38) == 466 && EntryStart(false, 38) == 281 && ReturnStart(29) == 350
  {
    assert EntryStart(true, 5) == 111;
    assert EntryStart(true, 10) == 155;
    assert EntryStart(true, 15) == 200;
    assert EntryStart(true, 20) == 261;
    assert EntryStart(true, 25) == 320;
    assert EntryStart(true, 30) == 363;
    assert EntryStart(true, 35) == 417;
    assert EntryStart(false, 5) == 111;
    assert EntryStart(false, 10) == 155;
    assert EntryStart(false, 15) == 200;
    assert EntryStart(false, 20) == 240;
    assert EntryStart(false, 25) == 240;
    assert EntryStart(false, 30) == 240;
    assert EntryStart(false, 35) == 240;
    assert ReturnStart(5) == 83;
    assert ReturnStart(10) == 178;
    assert ReturnStart(15) == 208;
    assert ReturnStart(20) == 248;
    assert ReturnStart(25) == 313;
  }

  /** The entry stub takes 466 bytes, 281 without its hooking part, and the return stub 350: both
      fit in the places the layout gives them. */
  lemma StubsFit(k: Consts)
    ensures Offset(k, EntryStub(true), 38) == 466 && Offset(k, EntryStub(false), 38) == 281
    ensures Offset(k, ReturnStub(), 29) == 350
    ensures 466 <= L.STUB_SIZE && 350 <= L.STUB_SIZE && 32 + 17 <= L.TRAMPOLINE_SIZE
  {
    hide Offset, EntryStart, ReturnStart;
    EntryOffset(k, true, 38);
    EntryOffset(k, false, 38);
    ReturnOffset(k, 29);
    Ends();
  }

  /** Every jump of both stubs, forward or backward, lands on the first byte of the block it is meant
      for: the place of its displacement, plus 4, plus the displacement. */
  lemma EntryJumpsHit(k: Consts, hasRet: bool, b: nat)
    requires b < 38 && HasRel(EntryBlock(hasRet, b).term)
    ensures var code := Assembled(k, EntryStub(hasRet), 38); var imm := Offset(k, EntryStub(hasRet), b + 1) - 4;
            && 0 <= imm && imm + 4 <= |code|
            && imm + 4 + Signed32(code[imm..imm + 4])
               == Offset(k, EntryStub(hasRet), Target(EntryBlock(hasRet, b).term))
  {
    hide Offset, Asm, Assembled, Signed32;
    StubsFit(k);
    JumpsHit(k, EntryStub(hasRet), 38, b);
  }

  lemma ReturnJumpsHit(k: Consts, b: nat)
    requires b < 29 && HasRel(ReturnBlock(b).term)
    ensures var code := Assembled(k, ReturnStub(), 29); var imm := Offset(k, ReturnStub(), b + 1) - 4;
            && 0 <= imm && imm + 4 <= |code|
            && imm + 4 + Signed32(code[imm..imm + 4]) == Offset(k, ReturnStub(), Target(ReturnBlock(b).term))
  {
    hide Offset, Asm, Assembled, Signed32;
    StubsFit(k);
    JumpsHit(k, ReturnStub(), 29, b);
  }
}
