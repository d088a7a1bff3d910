/** The byte arrays that the stub builders emit, chunk by chunk, and that they are the encodings of
    the stubs' blocks. */
module StubBytes {
  import opened X86
  import opened Stubs
  import opened Assembler

  /** What a chain of emit calls writes: arrays of bytes, some followed by an immediate of `n` bytes. */
  datatype Chunks = Nil | Lit(bytes: seq<Byte>, rest: Chunks) | Imm(bytes: seq<Byte>, v: nat, n: nat, rest: Chunks)

  function Flat(c: Chunks): seq<Byte>
    decreases c
  {
    match c
    case Nil => []
    case Lit(b, rest) => b + Flat(rest)
    case Imm(b, v, n, rest) => b + LE(v, n) + Flat(rest)
  }

  lemma {:induction false} EncAppend(k: Consts, a: Code, b: Code)
    ensures EncCode(k, Append(a, b)) == EncCode(k, a) + EncCode(k, b)
    decreases a
  {
    hide Enc;
    if a.Do? {
      EncAppend(k, a.rest, b);
      Assoc(Enc(k, a.i), EncCode(k, a.rest), EncCode(k, b));
    } else {
      assert [] + EncCode(k, b) == EncCode(k, b);
    }
  }

  /** `c` writes the encoding of `x`. */
  predicate Writes(k: Consts, c: Chunks, x: Code)
  {
    Flat(c) == EncCode(k, x)
  }

  lemma ByteImmediate(n: nat)
    requires n < 256
    ensures LE(n, 1) == [n]
  {
  }

  lemma SmallImmediates()
    ensures LE(1, 4) == [1, 0, 0, 0] && LE(186, 4) == [0xBA, 0, 0, 0] && LE(228, 4) == [0xE4, 0, 0, 0]
    ensures LE(128, 4) == [0x80, 0, 0, 0] && LE(520, 4) == [0x08, 0x02, 0, 0]
  {
    hide Join4;
    LE4(1);
    LE4(186);
    LE4(228);
    LE4(128);
    LE4(520);
  }

  /** The immediates of the fixed instructions. */
  lemma Immediates()
    ensures forall n: nat | n < 256 :: LE(n, 1) == [n]
    ensures LE(1, 4) == [1, 0, 0, 0] && LE(186, 4) == [0xBA, 0, 0, 0] && LE(228, 4) == [0xE4, 0, 0, 0]
    ensures LE(128, 4) == [0x80, 0, 0, 0] && LE(520, 4) == [0x08, 0x02, 0, 0]
    ensures LE(0xFFF, 4) == [0xFF, 0x0F, 0, 0] && LE(1000000000, 4) == [0x00, 0xCA, 0x9A, 0x3B]
  {
    hide LE;
    SmallImmediates();
    LargeImmediates();
    forall n: nat | n < 256 ensures LE(n, 1) == [n] { ByteImmediate(n); }
  }

  lemma ByteImmediates()
    ensures forall n: nat | n < 256 :: LE(n, 1) == [n]
  {
    hide LE;
    forall n: nat | n < 256 ensures LE(n, 1) == [n] { ByteImmediate(n); }
  }

  lemma LargeImmediates()
    ensures LE(0xFFF, 4) == [0xFF, 0x0F, 0, 0] && LE(1000000000, 4) == [0x00, 0xCA, 0x9A, 0x3B]
  {
    hide Join4;
    LE4(0xFFF);
    LE4(1000000000);
  }

  // ---------------------------------------------------------------- prologues and epilogues

  /** pushfq; push rax/rbx/rcx/rdx/rsi/rdi/rbp and r8 to r15 */
  const SAVE_REGS: seq<Byte> :=
    [0x9C, 0x50, 0x53, 0x51, 0x52, 0x56, 0x57, 0x55,
     0x41, 0x50, 0x41, 0x51, 0x41, 0x52, 0x41, 0x53, 0x41, 0x54, 0x41, 0x55, 0x41, 0x56, 0x41, 0x57]

  const RESTORE_REGS: seq<Byte> :=
    [0x41, 0x5F, 0x41, 0x5E, 0x41, 0x5D, 0x41, 0x5C, 0x41, 0x5B, 0x41, 0x5A, 0x41, 0x59, 0x41, 0x58,
     0x5D, 0x5F, 0x5E, 0x5A, 0x59, 0x5B, 0x58, 0x9D]

  /** pushfq; push rax/rbx/rcx/rdx/rsi/rdi and r8 to r12 */
  const SAVE: seq<Byte> :=
    [0x9C, 0x50, 0x53, 0x51, 0x52, 0x56, 0x57, 0x41, 0x50, 0x41, 0x51, 0x41, 0x52, 0x41, 0x53, 0x41, 0x54]

  const RESTORE: seq<Byte> :=
    [0x41, 0x5C, 0x41, 0x5B, 0x41, 0x5A, 0x41, 0x59, 0x41, 0x58, 0x5F, 0x5E, 0x5A, 0x59, 0x5B, 0x58, 0x9D]

  lemma PushBytes(k: Consts)
    ensures EncCode(k, PUSH_LOW) == [0x9C, 0x50, 0x53, 0x51, 0x52, 0x56, 0x57]
    ensures EncCode(k, PUSH_RBP) == [0x55]
  {
  }

  lemma PushMidBytes(k: Consts)
    ensures EncCode(k, PUSH_MID) == [0x41, 0x50, 0x41, 0x51, 0x41, 0x52, 0x41, 0x53, 0x41, 0x54]
  {
    hide Enc;
    EncHigh(k);
  }

  /** r8 to r12 take a prefix byte. */
  lemma EncHigh(k: Consts)
    ensures Enc(k, St(Push(R8))) == [0x41, 0x50] && Enc(k, St(Push(R9))) == [0x41, 0x51]
    ensures Enc(k, St(Push(R10))) == [0x41, 0x52] && Enc(k, St(Push(R11))) == [0x41, 0x53]
    ensures Enc(k, St(Push(R12))) == [0x41, 0x54] && Enc(k, St(Pop(R12))) == [0x41, 0x5C]
    ensures Enc(k, St(Pop(R11))) == [0x41, 0x5B] && Enc(k, St(Pop(R10))) == [0x41, 0x5A]
    ensures Enc(k, St(Pop(R9))) == [0x41, 0x59] && Enc(k, St(Pop(R8))) == [0x41, 0x58]
  {
  }

  lemma PushHighBytes(k: Consts)
    ensures EncCode(k, PUSH_HIGH) == [0x41, 0x55, 0x41, 0x56, 0x41, 0x57]
  {
  }

  lemma PopBytes(k: Consts)
    ensures EncCode(k, POP_LOW) == [0x5F, 0x5E, 0x5A, 0x59, 0x5B, 0x58, 0x9D]
    ensures EncCode(k, POP_RBP) == [0x5D]
  {
  }

  lemma PopHighBytes(k: Consts)
    ensures EncCode(k, POP_HIGH) == [0x41, 0x5F, 0x41, 0x5E, 0x41, 0x5D]
  {
  }

  lemma PopMidBytes(k: Consts)
    ensures EncCode(k, POP_MID) == [0x41, 0x5C, 0x41, 0x5B, 0x41, 0x5A, 0x41, 0x59, 0x41, 0x58]
  {
    hide Enc;
    EncHigh(k);
  }

  lemma SaveBytes(k: Consts)
    ensures EncCode(k, PUSH_ALL) == SAVE_REGS && EncCode(k, POP_ALL) == RESTORE_REGS
    ensures EncCode(k, Append(PUSH_LOW, PUSH_MID)) == SAVE && EncCode(k, Append(POP_MID, POP_LOW)) == RESTORE
  {
    hide EncCode, Append;
    PushBytes(k);
    PushMidBytes(k);
    PushHighBytes(k);
    PopMidBytes(k);
    PopBytes(k);
    PopHighBytes(k);
    EncAppend(k, PUSH_LOW, Append(PUSH_RBP, Append(PUSH_MID, PUSH_HIGH)));
    EncAppend(k, PUSH_RBP, Append(PUSH_MID, PUSH_HIGH));
    EncAppend(k, PUSH_MID, PUSH_HIGH);
    EncAppend(k, POP_HIGH, Append(POP_MID, Append(POP_RBP, POP_LOW)));
    EncAppend(k, POP_MID, Append(POP_RBP, POP_LOW));
    EncAppend(k, POP_RBP, POP_LOW);
    EncAppend(k, PUSH_LOW, PUSH_MID);
    EncAppend(k, POP_MID, POP_LOW);
  }

  // ---------------------------------------------------------------- one array an instruction

  /** Arrays for instructions on the top of the stack. */
  function StackArray(o: StackOp): seq<Byte>
  {
    match o
    case AddRsp16 => [0x48, 0x83, 0xC4, 0x10]
    case AddTop(RAX, D8(8)) => [0x48, 0x03, 0x44, 0x24, 0x08]
    case Push(R11) => [0x41, 0x53]
    case LoadTop(RAX, D0) => [0x48, 0x8B, 0x04, 0x24]
    case LoadTop(RAX, D8(48)) => [0x48, 0x8B, 0x44, 0x24, 0x30]
    case LoadTop(RAX, D8(56)) => [0x48, 0x8B, 0x44, 0x24, 0x38]
    case LoadTop(RAX, D8(72)) => [0x48, 0x8B, 0x44, 0x24, 0x48]
    case LoadTop(RAX, D8(80)) => [0x48, 0x8B, 0x44, 0x24, 0x50]
    case LoadTop(RAX, D8(88)) => [0x48, 0x8B, 0x44, 0x24, 0x58]
    case LoadTop(RAX, D8(96)) => [0x48, 0x8B, 0x44, 0x24, 0x60]
    case LoadTop(RDX, D32(128)) => [0x48, 0x8B, 0x94, 0x24, 0x80, 0x00, 0x00, 0x00]
    case LoadTop(RDX, D8(80)) => [0x48, 0x8B, 0x54, 0x24, 0x50]
    case StoreTop(D32(128), RDX) => [0x48, 0x89, 0x94, 0x24, 0x80, 0x00, 0x00, 0x00]
    case StoreTop(D8(8), RDX) => [0x48, 0x89, 0x54, 0x24, 0x08]
    case SubRsp16 => [0x48, 0x83, 0xEC, 0x10]
    case XchgTop(R11) => [0x4C, 0x87, 0x1C, 0x24]
    case _ => []
  }

  /** For moves; the 64-bit immediates follow their arrays. */
  function MoveArray(o: MoveOp): seq<Byte>
  {
    match o
    case Lea(R11, MemX(R10, R11, 0, D0)) => [0x4F, 0x8D, 0x1C, 0x1A]
    case Lea(R11, MemX(R9, R11, 0, D0)) => [0x4F, 0x8D, 0x1C, 0x19]
    case Lea(R8, MemX(R10, R8, 0, D8(16))) => [0x4F, 0x8D, 0x44, 0x02, 0x10]
    case Lea(R8, MemX(R11, R8, 0, D8(16))) => [0x4F, 0x8D, 0x44, 0x03, 0x10]
    case Mov32(R8, RAX) => [0x41, 0x89, 0xC0]
    case Mov64(R11, RBX) => [0x49, 0x89, 0xDB]
    case Mov64(R12, RCX) => [0x49, 0x89, 0xCC]
    case Mov64(R8, RAX) => [0x49, 0x89, 0xC0]
    case Mov64(R9, RAX) => [0x49, 0x89, 0xC1]
    case Mov64(RBX, R11) => [0x4C, 0x89, 0xDB]
    case Mov64(RSI, RSP) => [0x48, 0x89, 0xE6]
    case MovImm32(RAX, 1) => [0xB8, 0x01, 0x00, 0x00, 0x00]
    case MovImm32(RAX, 186) => [0xB8, 0xBA, 0x00, 0x00, 0x00]
    case MovImm32(RAX, 228) => [0xB8, 0xE4, 0x00, 0x00, 0x00]
    case MovImm64(R10, ConfigAddr) => [0x49, 0xBA]
    case MovImm64(R10, ShadowAddr) => [0x49, 0xBA]
    case MovImm64(R11, JumpTarget) => [0x49, 0xBB]
    case MovImm64(R9, ShadowAddr) => [0x49, 0xB9]
    case MovImm64(RDX, RetStubAddr) => [0x48, 0xBA]
    case Zero32(RAX) => [0x31, 0xC0]
    case Zero32(RBX) => [0x31, 0xDB]
    case Zero32(RDI) => [0x31, 0xFF]
    case _ => []
  }

  /** For arithmetic; the slot size follows its array. */
  function ArithArray(o: ArithOp): seq<Byte>
  {
    match o
    case Add64(R8, R9) => [0x4D, 0x01, 0xC8]
    case AndEaxFFF => [0x25, 0xFF, 0x0F, 0x00, 0x00]
    case Dec32(RCX) => [0xFF, 0xC9]
    case Imul64(R11, SlotSize) => [0x4D, 0x69, 0xDB]
    case Imul64(RAX, Giga) => [0x48, 0x69, 0xC0, 0x00, 0xCA, 0x9A, 0x3B]
    case Inc32(RCX) => [0xFF, 0xC1]
    case Inc64(RBX) => [0x48, 0xFF, 0xC3]
    case Shl64(R8, 6) => [0x49, 0xC1, 0xE0, 0x06]
    case Shl64(R9, 3) => [0x49, 0xC1, 0xE1, 0x03]
    case Shl64(R9, 4) => [0x49, 0xC1, 0xE1, 0x04]
    case Sub64(RAX, RDX) => [0x48, 0x29, 0xD0]
    case _ => []
  }

  /** For comparisons; the number of slots follows its array. */
  function CompareArray(o: CompareOp): seq<Byte>
  {
    match o
    case Cmp32(RCX, R8) => [0x44, 0x39, 0xC1]
    case CmpImm32(RCX, 64) => [0x83, 0xF9, 0x40]
    case CmpImm64(RBX, 256) => [0x48, 0x81, 0xFB]
    case Test32(RCX) => [0x85, 0xC9]
    case Test64(R9) => [0x4D, 0x85, 0xC9]
    case _ => []
  }

  /** For loads and stores of a register. */
  function Load64Array(r: Reg, m: Mem): seq<Byte>
  {
    match (r, m)
    case (R10, Mem(R10, D8(8))) => [0x4D, 0x8B, 0x52, 0x08]
    case (R11, Mem(R10, D8(8))) => [0x4D, 0x8B, 0x5A, 0x08]
    case (RDX, Mem(R8, D8(0))) => [0x49, 0x8B, 0x50, 0x00]
    case (RDX, MemX(R11, RCX, 3, D8(8))) => [0x49, 0x8B, 0x54, 0xCB, 0x08]
    case (RDX, MemX(RBX, R12, 3, D32(520))) => [0x4A, 0x8B, 0x94, 0xE3, 0x08, 0x02, 0x00, 0x00]
    case _ => []
  }

  function Load32Array(r: Reg, m: Mem): seq<Byte>
  {
    match (r, m)
    case (RAX, Mem(R8, D8(12))) => [0x41, 0x8B, 0x40, 0x0C]
    case (RCX, Mem(R11, D0)) => [0x41, 0x8B, 0x0B]
    case (RCX, Mem(R11, D8(4))) => [0x41, 0x8B, 0x4B, 0x04]
    case (RDX, Mem(R8, D8(12))) => [0x41, 0x8B, 0x50, 0x0C]
    case (RDX, Mem(RBX, D0)) => [0x8B, 0x13]
    case _ => []
  }

  function Store64Array(r: Reg, m: Mem): seq<Byte>
  {
    match (r, m)
    case (RAX, Mem(R8, D8(0))) => [0x49, 0x89, 0x40, 0x00]
    case (RAX, Mem(R8, D8(24))) => [0x49, 0x89, 0x40, 0x18]
    case (RAX, Mem(R8, D8(32))) => [0x49, 0x89, 0x40, 0x20]
    case (RAX, Mem(R8, D8(40))) => [0x49, 0x89, 0x40, 0x28]
    case (RAX, Mem(R8, D8(48))) => [0x49, 0x89, 0x40, 0x30]
    case (RAX, Mem(R8, D8(56))) => [0x49, 0x89, 0x40, 0x38]
    case (RAX, Mem(R8, D8(64))) => [0x49, 0x89, 0x40, 0x40]
    case (RDX, Mem(R8, D8(72))) => [0x49, 0x89, 0x50, 0x48]
    case (RAX, Mem(R8, D8(80))) => [0x49, 0x89, 0x40, 0x50]
    case (RDX, MemX(R11, RCX, 3, D32(520))) => [0x49, 0x89, 0x94, 0xCB, 0x08, 0x02, 0x00, 0x00]
    case (RDX, MemX(R11, RCX, 3, D8(8))) => [0x49, 0x89, 0x54, 0xCB, 0x08]
    case _ => []
  }

  function Store32Array(r: Reg, m: Mem): seq<Byte>
  {
    match (r, m)
    case (RCX, Mem(R11, D8(4))) => [0x41, 0x89, 0x4B, 0x04]
    case (RAX, Mem(R8, D8(12))) => [0x41, 0x89, 0x40, 0x0C]
    case (RDX, Mem(R8, D8(12))) => [0x41, 0x89, 0x50, 0x0C]
    case _ => []
  }

  /** A 32-bit store of a constant, which follows. */
  function StoreImm32Array(m: Mem): seq<Byte>
  {
    match m
    case Mem(R8, D8(16)) => [0x41, 0xC7, 0x40, 0x10]
    case Mem(R8, D8(20)) => [0x41, 0xC7, 0x40, 0x14]
    case Mem(R8, D8(8)) => [0x41, 0xC7, 0x40, 0x08]
    case _ => []
  }

  /** A 64-bit store of a constant, which follows. */
  function StoreImm64Array(m: Mem): seq<Byte>
  {
    match m
    case Mem(R8, D8(24)) => [0x49, 0xC7, 0x40, 0x18]
    case Mem(R8, D8(32)) => [0x49, 0xC7, 0x40, 0x20]
    case Mem(R8, D8(40)) => [0x49, 0xC7, 0x40, 0x28]
    case Mem(R8, D8(48)) => [0x49, 0xC7, 0x40, 0x30]
    case Mem(R8, D8(56)) => [0x49, 0xC7, 0x40, 0x38]
    case Mem(R8, D8(64)) => [0x49, 0xC7, 0x40, 0x40]
    case Mem(R8, D8(72)) => [0x49, 0xC7, 0x40, 0x48]
    case Mem(R8, D8(80)) => [0x49, 0xC7, 0x40, 0x50]
    case _ => []
  }

  /** For memory. */
  function MemArray(o: MemOp): seq<Byte>
  {
    match o
    case Load64(r, m) => Load64Array(r, m)
    case Load32(r, m) => Load32Array(r, m)
    case Store64(m, r) => Store64Array(r, m)
    case Store32(m, r) => Store32Array(r, m)
    case StoreImm32(m, v) => if v in {PidImm, ProbeIdImm, Num(1), Num(2)} then StoreImm32Array(m) else []
    case StoreImm64(m, n) => if n == 0 then StoreImm64Array(m) else []
    case CmpMemImm8(Mem(R10, D0), 0) => [0x41, 0x83, 0x3A, 0x00]
    case CmpRegMem32(RAX, Mem(R8, D8(12))) => [0x41, 0x3B, 0x40, 0x0C]
    case CmpRegMem32(RCX, Mem(R8, D8(12))) => [0x41, 0x3B, 0x48, 0x0C]
    case LockCmpxchg32(Mem(R11, D0), RDX) => [0xF0, 0x41, 0x0F, 0xB1, 0x13]
    case LockXadd64(Mem(R10, D0), RAX) => [0xF0, 0x49, 0x0F, 0xC1, 0x02]
    case LockXadd64(Mem(R11, D0), RAX) => [0xF0, 0x49, 0x0F, 0xC1, 0x03]
    case _ => []
  }

  /** What is emitted for one instruction, before the rest: its array, and the immediate that the builder puts
      behind it. */
  function Emitted(k: Consts, i: Instr, rest: Chunks): Chunks
  {
    match i
    case St(o) => Lit(StackArray(o), rest)
    case Mv(MovImm64(r, v)) => Imm(MoveArray(i.v), Val(k, v), 8, rest)
    case Mv(o) => Lit(MoveArray(o), rest)
    case Ar(Imul64(r, SlotSize)) => Imm(ArithArray(i.a), 1032, 4, rest)
    case Ar(o) => Lit(ArithArray(o), rest)
    case Cm(CmpImm64(r, n)) => Imm(CompareArray(i.c), n, 4, rest)
    case Cm(o) => Lit(CompareArray(o), rest)
    case Me(StoreImm32(m, v)) => Imm(MemArray(i.m), Val(k, v), 4, rest)
    case Me(StoreImm64(m, n)) => Imm(MemArray(i.m), n, 4, rest)
    case Me(o) => Lit(MemArray(o), rest)
    case Syscall => Lit([0x0F, 0x05], rest)
  }

  /** The builder has an array for it. */
  predicate Listed(i: Instr)
  {
    match i
    case St(o) => StackArray(o) != []
    case Mv(o) => MoveArray(o) != []
    case Ar(o) => ArithArray(o) != []
    case Cm(o) => CompareArray(o) != []
    case Me(o) => MemArray(o) != []
    case Syscall => true
  }

  function ChunksOf(k: Consts, c: Code): Chunks
    decreases c
  {
    match c case End => Nil case Do(i, rest) => Emitted(k, i, ChunksOf(k, rest))
  }

  predicate AllListed(c: Code)
    decreases c
  {
    match c case End => true case Do(i, rest) => Listed(i) && AllListed(rest)
  }

  function InstrSize(i: Instr): nat
  {
    match i
    case St(o) => |StackArray(o)|
    case Mv(o) => |MoveArray(o)| + if o.MovImm64? then 8 else 0
    case Ar(o) => |ArithArray(o)| + if o.Imul64? && o.f.SlotSize? then 4 else 0
    case Cm(o) => |CompareArray(o)| + if o.CmpImm64? then 4 else 0
    case Me(o) => |MemArray(o)| + if o.StoreImm32? || o.StoreImm64? then 4 else 0
    case Syscall => 2
  }

  function CodeSize(c: Code): nat
    decreases c
  {
    match c case End => 0 case Do(i, rest) => InstrSize(i) + CodeSize(rest)
  }

  /** All its instructions have arrays, which come to n bytes. */
  predicate Sized(c: Code, n: int)
  {
    AllListed(c) && CodeSize(c) == n
  }

  lemma {:induction false} ChunksSize(k: Consts, c: Code)
    ensures |Flat(ChunksOf(k, c))| == CodeSize(c)
    decreases c
  {
    hide StackArray, MoveArray, ArithArray, CompareArray, MemArray;
    if c.Do? { ChunksSize(k, c.rest); }
  }

  lemma TopEncodes(o: StackOp)
    requires StackArray(o) != [] && o.LoadTop?
    ensures EncStack(o) == StackArray(o)
  {
    hide LE;
    Immediates();
  }

  lemma CellEncodes(o: StackOp)
    requires StackArray(o) != [] && (o.StoreTop? || o.AddTop?)
    ensures EncStack(o) == StackArray(o)
  {
    hide LE;
    Immediates();
  }

  lemma PointerEncodes(o: StackOp)
    requires StackArray(o) != [] && !o.LoadTop? && !o.StoreTop? && !o.AddTop?
    ensures EncStack(o) == StackArray(o)
  {
  }

  lemma StackEncodes(o: StackOp)
    requires StackArray(o) != []
    ensures EncStack(o) == StackArray(o)
  {
    hide StackArray, EncStack;
    if o.LoadTop? { TopEncodes(o); } else if o.StoreTop? || o.AddTop? { CellEncodes(o); } else { PointerEncodes(o); }
  }

  lemma LoadConstEncodes(k: Consts, o: MoveOp)
    requires MoveArray(o) != [] && (o.MovImm64? || o.MovImm32?)
    ensures EncMove(k, o) == MoveArray(o) + if o.MovImm64? then LE(Val(k, o.imm), 8) else []
  {
    hide LE;
    Immediates();
  }

  lemma RegisterEncodes(k: Consts, o: MoveOp)
    requires MoveArray(o) != [] && (o.Mov64? || o.Mov32? || o.Zero32?)
    ensures EncMove(k, o) == MoveArray(o)
  {
  }

  lemma MoveEncodes(k: Consts, o: MoveOp)
    requires MoveArray(o) != []
    ensures EncMove(k, o) == MoveArray(o) + if o.MovImm64? then LE(Val(k, o.imm), 8) else []
  {
    hide LE;
    if o.MovImm64? || o.MovImm32? { LoadConstEncodes(k, o); }
    else if o.Lea? { LeaEncodes(k, o); }
    else { RegisterEncodes(k, o); }
  }

  lemma LeaEncodes(k: Consts, o: MoveOp)
    requires MoveArray(o) != [] && o.Lea?
    ensures EncMove(k, o) == MoveArray(o)
  {
    hide LE;
    Immediates();
  }

  lemma ArithEncodes(o: ArithOp)
    requires ArithArray(o) != []
    ensures EncArith(o) == ArithArray(o) + if o.Imul64? && o.f.SlotSize? then LE(1032, 4) else []
  {
    hide LE;
    Immediates();
  }

  lemma CompareEncodes(o: CompareOp)
    requires CompareArray(o) != []
    ensures EncCompare(o) == CompareArray(o) + if o.CmpImm64? then LE(o.n, 4) else []
  {
    hide LE;
    Immediates();
  }

  lemma Load64Encodes(k: Consts, r: Reg, m: Mem)
    requires Load64Array(r, m) != []
    ensures EncMem(k, Load64(r, m)) == Load64Array(r, m)
  {
    hide LE;
    Immediates();
  }

  lemma Load32Encodes(k: Consts, r: Reg, m: Mem)
    requires Load32Array(r, m) != []
    ensures EncMem(k, Load32(r, m)) == Load32Array(r, m)
  {
    hide LE;
    Immediates();
  }

  lemma Store64Encodes(k: Consts, r: Reg, m: Mem)
    requires Store64Array(r, m) != []
    ensures EncMem(k, Store64(m, r)) == Store64Array(r, m)
  {
    hide LE;
    Immediates();
  }

  lemma Store32Encodes(k: Consts, r: Reg, m: Mem)
    requires Store32Array(r, m) != []
    ensures EncMem(k, Store32(m, r)) == Store32Array(r, m)
  {
    hide LE;
    Immediates();
  }

  lemma StoreImmEncodes(k: Consts, m: Mem, v: Imm, n: nat)
    ensures StoreImm32Array(m) != [] ==> EncMem(k, StoreImm32(m, v)) == StoreImm32Array(m) + LE(Val(k, v), 4)
    ensures StoreImm64Array(m) != [] ==> EncMem(k, StoreImm64(m, n)) == StoreImm64Array(m) + LE(n, 4)
  {
    hide LE;
    Immediates();
  }

  lemma CompareMemEncodes(k: Consts, o: MemOp)
    requires MemArray(o) != [] && (o.CmpMemImm8? || o.CmpRegMem32?)
    ensures EncMem(k, o) == MemArray(o)
  {
    hide LE, Load64Array, Load32Array, Store64Array, Store32Array, StoreImm32Array, StoreImm64Array;
    ByteImmediates();
  }

  lemma LockEncodes(k: Consts, o: MemOp)
    requires MemArray(o) != [] && (o.LockXadd64? || o.LockCmpxchg32?)
    ensures EncMem(k, o) == MemArray(o)
  {
    hide LE, Load64Array, Load32Array, Store64Array, Store32Array, StoreImm32Array, StoreImm64Array;
  }

  lemma MemEncodes(k: Consts, o: MemOp)
    requires MemArray(o) != []
    ensures EncMem(k, o)
         == MemArray(o) + if o.StoreImm32? then LE(Val(k, o.imm), 4) else if o.StoreImm64? then LE(o.n, 4) else []
  {
    hide LE, Load64Array, Load32Array, Store64Array, Store32Array, StoreImm32Array, StoreImm64Array, EncMem;
    match o {
      case Load64(r, m) => Load64Encodes(k, r, m);
      case Load32(r, m) => Load32Encodes(k, r, m);
      case Store64(m, r) => Store64Encodes(k, r, m);
      case Store32(m, r) => Store32Encodes(k, r, m);
      case StoreImm32(m, v) => StoreImmEncodes(k, m, v, 0);
      case StoreImm64(m, n) => StoreImmEncodes(k, m, ConfigAddr, n);
      case CmpMemImm8(_, _) => CompareMemEncodes(k, o);
      case CmpRegMem32(_, _) => CompareMemEncodes(k, o);
      case _ => LockEncodes(k, o);
    }
  }

  /** The array of a listed instruction is its encoding. */
  lemma EmittedEncodes(k: Consts, i: Instr, rest: Chunks)
    requires Listed(i)
    ensures Flat(Emitted(k, i, rest)) == Enc(k, i) + Flat(rest)
  {
    hide LE, EncStack, EncMove, EncArith, EncCompare, EncMem, StackArray, MoveArray, ArithArray, CompareArray, MemArray;
    match i {
      case St(o) => StackEncodes(o);
      case Mv(o) => MoveEncodes(k, o);
      case Ar(o) => ArithEncodes(o);
      case Cm(o) => CompareEncodes(o);
      case Me(o) => MemEncodes(k, o);
      case Syscall =>
    }
  }

  /** Code whose instructions are all listed is emitted as it is encoded. */
  lemma {:induction false} ListedWrites(k: Consts, c: Code)
    requires AllListed(c)
    ensures Writes(k, ChunksOf(k, c), c)
    decreases c
  {
    hide Listed, Emitted, Enc;
    if c.Do? {
      ListedWrites(k, c.rest);
      EmittedEncodes(k, c.i, ChunksOf(k, c.rest));
    }
  }

  // ---------------------------------------------------------------- the entry stub

  /** What the builder emits for one block of the entry stub, up to its jump. The registers are saved and restored
      by one array each. */
  function EntryChunks(k: Consts, hasRet: bool, b: nat): Chunks
  {
    if b == 0 then Lit(SAVE_REGS, ChunksOf(k, CHECK))
    else if b == EXIT then Lit(RESTORE_REGS, Nil)
    else ChunksOf(k, EntryBlock(hasRet, b).body)
  }

  /** Its opcode bytes. */
  function EntryOp(hasRet: bool, b: nat): seq<Byte>
  {
    if 18 <= b < EXIT && !hasRet then []
    else if b in {0, 18, 21, 22, 25, 26} then [0x0F, 0x84]
    else if b in {20, 29} then [0x0F, 0x83]
    else if b in {23, 27, 34, 35} then [0xE9]
    else if b >= 37 then [0xC3]
    else []
  }

  lemma EntryOpIs(hasRet: bool, b: nat)
    ensures EntryOp(hasRet, b) == OpBytes(EntryBlock(hasRet, b).term)
  {
  }

  lemma Sizes0()
    ensures Sized(CHECK, 14) && Sized(LOAD_BUF, 4)
  {
  }

  lemma Sizes1()
    ensures Sized(TICKET, 15)
  {
  }

  lemma Sizes2()
    ensures Sized(SCALE, 27)
  {
  }

  lemma Sizes3()
    ensures Sized(EVENT, 5) && Sized(PUT_PID, 8) && Sized(PUT_PROBE, 8) && Sized(PUT_ENTRY, 8)
  {
  }

  lemma Sizes4()
    ensures Sized(PUT_ARG0, 9) && Sized(PUT_ARG1, 9)
  {
  }

  lemma Sizes5()
    ensures Sized(PUT_ARG2, 9) && Sized(PUT_ARG3, 9)
  {
  }

  lemma Sizes6()
    ensures Sized(PUT_ARG4, 9) && Sized(PUT_ARG5, 9)
  {
  }

  lemma Sizes7()
    ensures Sized(ASK_TID, 11) && Sized(PUT_TID, 4)
  {
  }

  lemma Sizes8()
    ensures Sized(ASK_CLOCK, 12)
  {
  }

  lemma Sizes9()
    ensures Sized(PUT_TS, 20)
  {
  }

  lemma Sizes10()
    ensures Sized(PUT_RETVAL, 12) && Sized(PUT_DURATION, 8)
  {
  }

  lemma Sizes11()
    ensures Sized(SHADOW, 13) && Sized(INDEX0, 2) && Sized(BOUND, 7)
  {
  }

  lemma Sizes12()
    ensures Sized(LOOK, 19)
  {
  }

  lemma Sizes13()
    ensures Sized(CMP_TID, 4) && Sized(LOAD_TID, 6) && Sized(CLAIM, 5)
  {
  }

  lemma Sizes14()
    ensures Sized(CMP_RACE, 4) && Sized(FOUND, 4) && Sized(LOAD_DEPTH, 7)
  {
  }

  lemma Sizes15()
    ensures Sized(SAVE_RET, 13) && Sized(LOAD_TS, 4) && Sized(SAVE_TS, 8)
  {
  }

  lemma Sizes16()
    ensures Sized(PUSH_DEPTH, 6) && Sized(HOOK, 18)
  {
  }

  lemma Sizes17()
    ensures Sized(NEXT, 3) && Sized(ABS_JUMP, 16)
  {
  }

  lemma Sizes18()
    ensures Sized(R_ASK, 17)
  {
  }

  lemma Sizes19()
    ensures Sized(R_INDEX0, 5)
  {
  }

  lemma Sizes20()
    ensures Sized(R_LOOK, 20)
  {
  }

  lemma Sizes21()
    ensures Sized(R_DEPTH, 6) && Sized(R_POP, 6)
  {
  }

  lemma Sizes22()
    ensures Sized(R_LOAD_RET, 5)
  {
  }

  lemma Sizes23()
    ensures Sized(R_LOAD_BUF, 25)
  {
  }

  lemma Sizes24()
    ensures Sized(R_TICKET, 15) && Sized(R_EVENT, 5)
  {
  }

  lemma Sizes25()
    ensures Sized(R_LOAD_TID, 2) && Sized(R_PUT_TID, 4) && Sized(PUT_RETURN, 8) && Sized(R_ARG0, 8)
  {
  }

  lemma Sizes26()
    ensures Sized(R_ARG1, 8) && Sized(R_ARG2, 8) && Sized(R_ARG3, 8) && Sized(R_ARG4, 8)
  {
  }

  lemma Sizes27()
    ensures Sized(R_ARG5, 8) && Sized(R_RETVAL, 9)
  {
  }

  lemma Sizes28()
    ensures Sized(R_CLOCK, 16)
  {
  }

  lemma Sizes29()
    ensures Sized(R_TS, 24)
  {
  }

  lemma Sizes30()
    ensures Sized(R_LOAD_TS, 8) && Sized(R_DURATION, 7)
  {
  }

  lemma {:induction false} SizedAppend(a: Code, b: Code, m: nat, n: nat)
    requires Sized(a, m) && Sized(b, n)
    ensures Sized(Append(a, b), m + n)
    decreases a
  {
    hide Listed, InstrSize;
    if a.Do? { SizedAppend(a.rest, b, m - InstrSize(a.i), n); }
  }

  /** Every piece of the blocks: all its instructions have arrays, and they come to this many bytes. */
  lemma Sizes()
    ensures Sized(End, 0)
    ensures Sized(CHECK, 14) && Sized(LOAD_BUF, 4) && Sized(TICKET, 15) && Sized(SCALE, 27) && Sized(EVENT, 5)
    ensures Sized(PUT_PID, 8) && Sized(PUT_PROBE, 8) && Sized(PUT_ENTRY, 8) && Sized(PUT_ARG0, 9) && Sized(PUT_ARG1, 9)
    ensures Sized(PUT_ARG2, 9) && Sized(PUT_ARG3, 9) && Sized(PUT_ARG4, 9) && Sized(PUT_ARG5, 9) && Sized(ASK_TID, 11)
    ensures Sized(PUT_TID, 4) && Sized(ASK_CLOCK, 12) && Sized(PUT_TS, 20) && Sized(PUT_RETVAL, 12)
    ensures Sized(PUT_DURATION, 8)
    ensures Sized(SHADOW, 13) && Sized(INDEX0, 2) && Sized(BOUND, 7) && Sized(LOOK, 19) && Sized(CMP_TID, 4)
    ensures Sized(LOAD_TID, 6) && Sized(CLAIM, 5) && Sized(CMP_RACE, 4) && Sized(FOUND, 4) && Sized(LOAD_DEPTH, 7)
    ensures Sized(SAVE_RET, 13) && Sized(LOAD_TS, 4) && Sized(SAVE_TS, 8) && Sized(PUSH_DEPTH, 6) && Sized(HOOK, 18)
    ensures Sized(NEXT, 3) && Sized(ABS_JUMP, 16) && Sized(R_ASK, 17) && Sized(R_INDEX0, 5) && Sized(R_LOOK, 20)
    ensures Sized(R_DEPTH, 6) && Sized(R_POP, 6) && Sized(R_LOAD_RET, 5) && Sized(R_LOAD_BUF, 25) && Sized(R_TICKET, 15)
    ensures Sized(R_EVENT, 5) && Sized(R_LOAD_TID, 2) && Sized(R_PUT_TID, 4) && Sized(PUT_RETURN, 8) && Sized(R_ARG0, 8)
    ensures Sized(R_ARG1, 8) && Sized(R_ARG2, 8) && Sized(R_ARG3, 8) && Sized(R_ARG4, 8) && Sized(R_ARG5, 8)
    ensures Sized(R_RETVAL, 9) && Sized(R_CLOCK, 16) && Sized(R_TS, 24) && Sized(R_LOAD_TS, 8) && Sized(R_DURATION, 7)
    ensures Sized(Append(TICKET, Append(SCALE, EVENT)), 47)
    ensures Sized(Append(R_TICKET, Append(SCALE, R_EVENT)), 47)
  {
    hide Sized;
    NothingSized();
    Sizes0();
    Sizes1();
    Sizes2();
    Sizes3();
    Sizes4();
    Sizes5();
    Sizes6();
    Sizes7();
    Sizes8();
    Sizes9();
    Sizes10();
    Sizes11();
    Sizes12();
    Sizes13();
    Sizes14();
    Sizes15();
    Sizes16();
    Sizes17();
    Sizes18();
    Sizes19();
    Sizes20();
    Sizes21();
    Sizes22();
    Sizes23();
    Sizes24();
    Sizes25();
    Sizes26();
    Sizes27();
    Sizes28();
    Sizes29();
    Sizes30();
    SizedAppend(SCALE, EVENT, 27, 5);
    SizedAppend(TICKET, Append(SCALE, EVENT), 15, 32);
    SizedAppend(SCALE, R_EVENT, 27, 5);
    SizedAppend(R_TICKET, Append(SCALE, R_EVENT), 15, 32);
  }

  lemma NothingSized()
    ensures Sized(End, 0)
  {
  }

  /** What the builder emits for a block is its encoding. */
  lemma EntryWrites(k: Consts, hasRet: bool, b: nat)
    ensures Writes(k, EntryChunks(k, hasRet, b), EntryBlock(hasRet, b).body)
  {
    hide AllListed, CodeSize, ChunksOf, EncCode, Append;
    SaveBytes(k);
    Sizes();
    if b == 0 {
      ListedWrites(k, CHECK);
      EncAppend(k, PUSH_ALL, CHECK);
    } else if b == EXIT {
      assert RESTORE_REGS + [] == RESTORE_REGS;
    } else {
      ListedWrites(k, EntryBlock(hasRet, b).body);
    }
  }

  /** The jump to k.target that preserves r11, up to its ret. */
  function AbsJump(k: Consts): Chunks
  {
    ChunksOf(k, ABS_JUMP)
  }

  lemma AbsJumpWrites(k: Consts)
    ensures Writes(k, AbsJump(k), ABS_JUMP) && |Flat(AbsJump(k))| == 16
  {
    hide AllListed, CodeSize, ChunksOf, EncCode;
    Sizes();
    ListedWrites(k, ABS_JUMP);
    ChunksSize(k, ABS_JUMP);
  }

  // ---------------------------------------------------------------- the return stub

  /** The same for the return stub. */
  function ReturnChunks(k: Consts, b: nat): Chunks
  {
    if b == 0 then Lit(SAVE, ChunksOf(k, R_ASK))
    else if b == 26 then Lit(RESTORE, Nil)
    else ChunksOf(k, ReturnBlock(b).body)
  }

  function ReturnOp(b: nat): seq<Byte>
  {
    if b == 2 then [0x0F, 0x83]
    else if b in {3, 5} then [0x0F, 0x84]
    else if b in {4, 27} then [0xE9]
    else if b == 26 then [0x41, 0xFF, 0xE3]
    else if b >= 28 then [0x0F, 0x0B]
    else []
  }

  lemma ReturnOpIs(b: nat)
    ensures ReturnOp(b) == OpBytes(ReturnBlock(b).term)
  {
  }

  /** What the builder emits for a block is its encoding. */
  lemma ReturnWrites(k: Consts, b: nat)
    ensures Writes(k, ReturnChunks(k, b), ReturnBlock(b).body)
  {
    hide AllListed, CodeSize, ChunksOf, EncCode, Append;
    SaveBytes(k);
    Sizes();
    if b == 0 {
      ListedWrites(k, R_ASK);
      AppendAssoc(PUSH_LOW, PUSH_MID, R_ASK);
      EncAppend(k, Append(PUSH_LOW, PUSH_MID), R_ASK);
    } else if b == 26 {
      assert RESTORE + [] == RESTORE;
    } else {
      ListedWrites(k, ReturnBlock(b).body);
    }
  }

  lemma {:induction false} AppendAssoc(a: Code, b: Code, c: Code)
    ensures Append(Append(a, b), c) == Append(a, Append(b, c))
    decreases a
  {
    if a.Do? { AppendAssoc(a.rest, b, c); }
  }
}
