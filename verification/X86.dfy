/** The part of the x86-64 instruction set that the stubs and the trampoline are made of: encodings
    after section 2.1 of the Intel SDM Volume 2, and effects on registers, flags and the stack, with
    every access outside the stack made visible. */
module X86 {

  type Byte = b: nat | b < 256
  type Word = nat

  /** Truncation to 32 and to 64 bits. */
  function W32(x: int): (w: nat)
    ensures w < 0x1_0000_0000
  {
    x % 0x1_0000_0000
  }

  function W64(x: int): (w: nat)
    ensures w < 0x1_0000_0000_0000_0000
  {
    x % 0x1_0000_0000_0000_0000
  }

  /** x times a power of two. */
  function Scale(x: int, shift: nat): int
    decreases shift
  {
    if shift == 0 then x else 2 * Scale(x, shift - 1)
  }

  datatype Reg = RAX | RCX | RDX | RBX | RSP | RBP | RSI | RDI
               | R8 | R9 | R10 | R11 | R12 | R13 | R14 | R15

  /** Register numbers as the encoding has them. */
  function No(r: Reg): (n: nat)
    ensures n < 16
  {
    match r
    case RAX => 0 case RCX => 1 case RDX => 2 case RBX => 3
    case RSP => 4 case RBP => 5 case RSI => 6 case RDI => 7
    case R8 => 8 case R9 => 9 case R10 => 10 case R11 => 11
    case R12 => 12 case R13 => 13 case R14 => 14 case R15 => 15
  }

  /** Constants that the builder fills in for one probe. */
  datatype Imm = Num(n: nat) | ConfigAddr | ShadowAddr | RetStubAddr | JumpTarget | PidImm | ProbeIdImm

  datatype Consts = Consts(config: Word, shadow: Word, retStub: Word, target: Word, pid: Word, probeId: Word)

  function Val(k: Consts, i: Imm): Word
  {
    match i
    case Num(n) => n
    case ConfigAddr => k.config
    case ShadowAddr => k.shadow
    case RetStubAddr => k.retStub
    case JumpTarget => k.target
    case PidImm => k.pid
    case ProbeIdImm => k.probeId
  }

  datatype Disp = D0 | D8(n: nat) | D32(n: nat)

  /** A memory operand: base, optional index times a power of two, displacement. */
  datatype Mem = Mem(base: Reg, disp: Disp) | MemX(base: Reg, index: Reg, shift: nat, disp: Disp)

  /** Instructions that work on the top of the stack; the offsets of the last three are from rsp. */
  datatype StackOp =
    | Pushfq | Popfq | Push(r: Reg) | Pop(r: Reg)
    | AddRsp16 | SubRsp16              // add / sub rsp, 16
    | XchgTop(r: Reg)                  // xchg [rsp], r
    | LoadTop(r: Reg, d: Disp) | StoreTop(d: Disp, r: Reg) | AddTop(r: Reg, d: Disp)

  datatype MoveOp =
    | Mov64(dst: Reg, src: Reg) | Mov32(dst: Reg, src: Reg)
    | MovImm64(r: Reg, imm: Imm) | MovImm32(r: Reg, n: nat)
    | Zero32(r: Reg)                   // xor r, r
    | Lea(r: Reg, m: Mem)

  datatype ArithOp =
    | Add64(dst: Reg, src: Reg) | Sub64(dst: Reg, src: Reg)
    | Shl64(r: Reg, n: nat) | Imul64(r: Reg, f: Factor)
    | AndEaxFFF                        // and eax, 0xFFF
    | Inc32(r: Reg) | Dec32(r: Reg) | Inc64(r: Reg)

  datatype CompareOp =
    | Test64(r: Reg) | Test32(r: Reg)
    | Cmp32(a: Reg, b: Reg) | CmpImm64(r: Reg, n: nat) | CmpImm32(r: Reg, n: nat)

  /** Instructions that reach memory outside the stack. */
  datatype MemOp =
    | Load64(r: Reg, m: Mem) | Load32(r: Reg, m: Mem)
    | Store64(m: Mem, r: Reg) | Store32(m: Mem, r: Reg)
    | StoreImm32(m: Mem, imm: Imm) | StoreImm64(m: Mem, n: nat)
    | CmpMemImm8(m: Mem, n: nat) | CmpRegMem32(r: Reg, m: Mem)
    | LockXadd64(m: Mem, r: Reg) | LockCmpxchg32(m: Mem, r: Reg)

  datatype Instr = St(s: StackOp) | Mv(v: MoveOp) | Ar(a: ArithOp) | Cm(c: CompareOp) | Me(m: MemOp) | Syscall

  /** The two constants the stubs multiply by: the size of a shadow stack slot, and the nanoseconds
      in a second. */
  datatype Factor = SlotSize | Giga

  function Product(x: int, f: Factor): int
  {
    match f case SlotSize => 1032 * x case Giga => 1000000000 * x
  }

  datatype Code = End | Do(i: Instr, rest: Code)

  // ---------------------------------------------------------------- encoding

  function LE(v: nat, n: nat): (s: seq<Byte>)
    ensures |s| == n
  {
    if n == 0 then [] else [v % 256] + LE(v / 256, n - 1)
  }

  function Pow256(n: nat): nat
  {
    if n == 0 then 1 else 256 * Pow256(n - 1)
  }

  /** What little-endian bytes stand for. */
  function FromLE(s: seq<Byte>): nat
  {
    if s == [] then 0 else s[0] + 256 * FromLE(s[1..])
  }

  lemma {:induction false} LERoundTrips(v: nat, n: nat)
    requires v < Pow256(n)
    ensures FromLE(LE(v, n)) == v
  {
    if n > 0 {
      LERoundTrips(v / 256, n - 1);
      assert LE(v, n)[1..] == LE(v / 256, n - 1);
    }
  }

  function RexOf(w: bool, reg: nat, x: nat, b: nat): seq<Byte>
    requires reg < 16 && x < 16 && b < 16
  {
    var rex := (if w then 8 else 0) + (reg / 8) * 4 + (x / 8) * 2 + b / 8;
    if rex == 0 then [] else [0x40 + rex]
  }

  function ModOf(d: Disp): nat
  {
    match d case D0 => 0 case D8(_) => 1 case D32(_) => 2
  }

  function DispBytes(d: Disp): seq<Byte>
  {
    match d case D0 => [] case D8(n) => LE(n, 1) case D32(n) => LE(n, 4)
  }

  /** ModRM, SIB and displacement of a memory operand. */
  function MemBytes(reg: nat, m: Mem): seq<Byte>
    requires reg < 16
  {
    var mod := ModOf(m.disp) * 64 + (reg % 8) * 8;
    match m
    case Mem(base, d) =>
      if No(base) % 8 == 4 then [mod + 4, 0x20 + 4] + DispBytes(d)
      else [mod + No(base) % 8] + DispBytes(d)
    case MemX(base, index, shift, d) =>
      [mod + 4, ((shift % 4) * 64) + (No(index) % 8) * 8 + No(base) % 8] + DispBytes(d)
  }

  function IndexNum(m: Mem): (n: nat)
    ensures n < 16
  {
    match m case Mem(_, _) => 0 case MemX(_, i, _, _) => No(i)
  }

  /** [prefix] [REX] opcode ModRM [SIB] [disp] for a register and a memory operand. */
  function RM(pre: seq<Byte>, w: bool, op: seq<Byte>, reg: nat, m: Mem): seq<Byte>
    requires reg < 16
  {
    pre + RexOf(w, reg, IndexNum(m), No(m.base)) + op + MemBytes(reg, m)
  }

  /** The same for two registers. */
  function RR(w: bool, op: seq<Byte>, reg: nat, rm: nat): seq<Byte>
    requires reg < 16 && rm < 16
  {
    RexOf(w, reg, 0, rm) + op + [0xC0 + (reg % 8) * 8 + rm % 8]
  }

  function Top(d: Disp): Mem
  {
    Mem(RSP, d)
  }

  function EncStack(o: StackOp): seq<Byte>
  {
    match o
    case Pushfq => [0x9C]
    case Popfq => [0x9D]
    case Push(r) => RexOf(false, 0, 0, No(r)) + [0x50 + No(r) % 8]
    case Pop(r) => RexOf(false, 0, 0, No(r)) + [0x58 + No(r) % 8]
    case AddRsp16 => RR(true, [0x83], 0, No(RSP)) + LE(16, 1)
    case SubRsp16 => RR(true, [0x83], 5, No(RSP)) + LE(16, 1)
    case XchgTop(r) => RM([], true, [0x87], No(r), Top(D0))
    case LoadTop(r, d) => RM([], true, [0x8B], No(r), Top(d))
    case StoreTop(d, r) => RM([], true, [0x89], No(r), Top(d))
    case AddTop(r, d) => RM([], true, [0x03], No(r), Top(d))
  }

  function EncMove(k: Consts, o: MoveOp): seq<Byte>
  {
    match o
    case Mov64(d, s) => RR(true, [0x89], No(s), No(d))
    case Mov32(d, s) => RR(false, [0x89], No(s), No(d))
    case MovImm64(r, v) => RexOf(true, 0, 0, No(r)) + [0xB8 + No(r) % 8] + LE(Val(k, v), 8)
    case MovImm32(r, n) => RexOf(false, 0, 0, No(r)) + [0xB8 + No(r) % 8] + LE(n, 4)
    case Zero32(r) => RR(false, [0x31], No(r), No(r))
    case Lea(r, m) => RM([], true, [0x8D], No(r), m)
  }

  function EncArith(o: ArithOp): seq<Byte>
  {
    match o
    case Add64(d, s) => RR(true, [0x01], No(s), No(d))
    case Sub64(d, s) => RR(true, [0x29], No(s), No(d))
    case Shl64(r, n) => RR(true, [0xC1], 4, No(r)) + LE(n, 1)
    case Imul64(r, f) => RR(true, [0x69], No(r), No(r)) + LE(if f.Giga? then 1000000000 else 1032, 4)
    case AndEaxFFF => [0x25] + LE(0xFFF, 4)
    case Inc32(r) => RR(false, [0xFF], 0, No(r))
    case Dec32(r) => RR(false, [0xFF], 1, No(r))
    case Inc64(r) => RR(true, [0xFF], 0, No(r))
  }

  function EncCompare(o: CompareOp): seq<Byte>
  {
    match o
    case Test64(r) => RR(true, [0x85], No(r), No(r))
    case Test32(r) => RR(false, [0x85], No(r), No(r))
    case Cmp32(a, b) => RR(false, [0x39], No(b), No(a))
    case CmpImm64(r, n) => RR(true, [0x81], 7, No(r)) + LE(n, 4)
    case CmpImm32(r, n) => RR(false, [0x83], 7, No(r)) + LE(n, 1)
  }

  function EncMem(k: Consts, o: MemOp): seq<Byte>
  {
    match o
    case Load64(r, m) => RM([], true, [0x8B], No(r), m)
    case Load32(r, m) => RM([], false, [0x8B], No(r), m)
    case Store64(m, r) => RM([], true, [0x89], No(r), m)
    case Store32(m, r) => RM([], false, [0x89], No(r), m)
    case StoreImm32(m, v) => RM([], false, [0xC7], 0, m) + LE(Val(k, v), 4)
    case StoreImm64(m, n) => RM([], true, [0xC7], 0, m) + LE(n, 4)
    case CmpMemImm8(m, n) => RM([], false, [0x83], 7, m) + LE(n, 1)
    case CmpRegMem32(r, m) => RM([], false, [0x3B], No(r), m)
    case LockXadd64(m, r) => RM([0xF0], true, [0x0F, 0xC1], No(r), m)
    case LockCmpxchg32(m, r) => RM([0xF0], false, [0x0F, 0xB1], No(r), m)
  }

  function Enc(k: Consts, i: Instr): seq<Byte>
  {
    match i
    case St(o) => EncStack(o)
    case Mv(o) => EncMove(k, o)
    case Ar(o) => EncArith(o)
    case Cm(o) => EncCompare(o)
    case Me(o) => EncMem(k, o)
    case Syscall => [0x0F, 0x05]
  }

  function EncCode(k: Consts, c: Code): seq<Byte>
    decreases c
  {
    match c
    case End => []
    case Do(i, rest) => Enc(k, i) + EncCode(k, rest)
  }

  // ---------------------------------------------------------------- effects

  datatype Regs = Regs(rax: int, rcx: int, rdx: int, rbx: int, rsp: int, rbp: int, rsi: int, rdi: int,
                       r8: int, r9: int, r10: int, r11: int, r12: int, r13: int, r14: int, r15: int)

  function Get(r: Regs, x: Reg): int
  {
    match x
    case RAX => r.rax case RCX => r.rcx case RDX => r.rdx case RBX => r.rbx
    case RSP => r.rsp case RBP => r.rbp case RSI => r.rsi case RDI => r.rdi
    case R8 => r.r8 case R9 => r.r9 case R10 => r.r10 case R11 => r.r11
    case R12 => r.r12 case R13 => r.r13 case R14 => r.r14 case R15 => r.r15
  }

  function Set(r: Regs, x: Reg, v: int): Regs
  {
    match x
    case RAX => r.(rax := v) case RCX => r.(rcx := v) case RDX => r.(rdx := v) case RBX => r.(rbx := v)
    case RSP => r.(rsp := v) case RBP => r.(rbp := v) case RSI => r.(rsi := v) case RDI => r.(rdi := v)
    case R8 => r.(r8 := v) case R9 => r.(r9 := v) case R10 => r.(r10 := v) case R11 => r.(r11 := v)
    case R12 => r.(r12 := v) case R13 => r.(r13 := v) case R14 => r.(r14 := v) case R15 => r.(r15 := v)
  }

  datatype Stack = Bottom | Cell(v: int, up: Stack)

  /** `flags` is the flags register; `stk` is the stack from rsp upwards in 8-byte cells. What lies
      below rsp is not kept. The stack does not wrap around the address space. */
  datatype Cpu = Cpu(r: Regs, flags: Word, stk: Stack)

  /** An access outside the stack, or a call of the kernel. */
  datatype Access =
    | Rd(addr: int, width: nat)
    | Wr(addr: int, width: nat, v: int)
    | Xadd(addr: int, add: int)
    | Cas(addr: int, expected: int, desired: int)
    | SysGettid
    | SysClock(clock: int)
    | SysOther

  /** What the environment answers during one instruction: the value met in memory or returned by
      the kernel, the two words of a timespec, and whatever the instruction set leaves undefined. */
  datatype Input = Input(v: Word, sec: Word, nsec: Word, junk: Junk)

  /** Three undefined words for the instruction at hand, and those of the instructions after it. */
  datatype Junk = Calm | Junk(a: Word, b: Word, c: Word, more: Junk)

  function JunkA(e: Input): Word { if e.junk.Calm? then 0 else e.junk.a }
  function JunkB(e: Input): Word { if e.junk.Calm? then 0 else e.junk.b }
  function JunkC(e: Input): Word { if e.junk.Calm? then 0 else e.junk.c }

  /** The input as the next instruction meets it. */
  function Later(e: Input): Input
  {
    Input(e.v, e.sec, e.nsec, if e.junk.Calm? then Calm else e.junk.more)
  }

  /** The input as it is met behind a piece of code. */
  function Behind(c: Code, e: Input): (r: Input)
    ensures r.v == e.v && r.sec == e.sec && r.nsec == e.nsec
    decreases c
  {
    match c case End => e case Do(_, rest) => Behind(rest, Later(e))
  }

  predicate ZF(f: Word) { (f / 64) % 2 == 1 }
  predicate CF(f: Word) { f % 2 == 1 }

  /** Flags with ZF and CF as given and every other bit from `junk`. */
  function MkFlags(junk: Word, zf: bool, cf: bool): Word
  {
    (junk / 128) * 128 + (if zf then 64 else 0) + ((junk % 64) / 2) * 2 + (if cf then 1 else 0)
  }

  lemma Bit0(q: nat, c: nat)
    requires c < 2
    ensures (2 * q + c) % 2 == c
  {
  }

  lemma Bit6(q: nat, r: nat)
    requires r < 64
    ensures (64 * q + r) / 64 == q
  {
  }

  lemma MkFlagsRead(zf: bool, cf: bool)
    ensures forall junk: Word :: ZF(MkFlags(junk, zf, cf)) == zf && CF(MkFlags(junk, zf, cf)) == cf
  {
    forall junk: Word
      ensures ZF(MkFlags(junk, zf, cf)) == zf && CF(MkFlags(junk, zf, cf)) == cf
    {
      var h: nat, m: nat := junk / 128, (junk % 64) / 2;
      var z, c := if zf then 1 else 0, if cf then 1 else 0;
      Bit6(2 * h + z, 2 * m + c);
      Bit0(h, z);
      Bit0(64 * h + 32 * z + m, c);
    }
  }

  function DispOf(d: Disp): nat
  {
    match d case D0 => 0 case D8(n) => n case D32(n) => n
  }

  function Ea(r: Regs, m: Mem): int
  {
    match m
    case Mem(base, d) => W64(Get(r, base) + DispOf(d))
    case MemX(base, index, shift, d) => W64(Get(r, base) + Scale(Get(r, index), shift) + DispOf(d))
  }

  /** The stack cell at an offset from rsp. */
  function CellNo(d: Disp): nat
  {
    DispOf(d) / 8
  }

  function Peek(k: Stack, n: nat): int
    decreases n
  {
    if k.Bottom? then 0 else if n == 0 then k.v else Peek(k.up, n - 1)
  }

  function Poke(k: Stack, n: nat, v: int): Stack
    decreases n
  {
    if k.Bottom? then k else if n == 0 then Cell(v, k.up) else Cell(k.v, Poke(k.up, n - 1, v))
  }

  function Head(k: Stack): int
  {
    if k.Bottom? then 0 else k.v
  }

  function Up(k: Stack): Stack
  {
    if k.Bottom? then k else k.up
  }

  function PushCell(s: Cpu, v: int): Cpu
  {
    s.(stk := Cell(v, s.stk), r := s.r.(rsp := s.r.rsp - 8))
  }

  function PopCell(s: Cpu): Cpu
  {
    s.(stk := Up(s.stk), r := s.r.(rsp := s.r.rsp + 8))
  }

  datatype Effect = Effect(s: Cpu, acc: seq<Access>)

  function SetReg(s: Cpu, x: Reg, v: int): Cpu
  {
    s.(r := Set(s.r, x, v))
  }

  function Compare(s: Cpu, i: Input, a: int, b: int): Cpu
  {
    s.(flags := MkFlags(JunkA(i), a == b, a < b))
  }

  function ExecStack(o: StackOp, s: Cpu, e: Input): Cpu
  {
    match o
    case Pushfq => PushCell(s, s.flags)
    case Popfq => PopCell(s).(flags := if Head(s.stk) >= 0 then Head(s.stk) else 0)
    case Push(r) => PushCell(s, Get(s.r, r))
    case Pop(r) => SetReg(PopCell(s), r, Head(s.stk))
    case AddRsp16 => s.(stk := Up(Up(s.stk)), r := s.r.(rsp := s.r.rsp + 16), flags := JunkA(e))
    case SubRsp16 =>
      s.(stk := Cell(JunkA(e), Cell(JunkB(e), s.stk)), r := s.r.(rsp := s.r.rsp - 16), flags := JunkC(e))
    case XchgTop(r) => SetReg(s.(stk := Poke(s.stk, 0, Get(s.r, r))), r, Head(s.stk))
    case LoadTop(r, d) => SetReg(s, r, Peek(s.stk, CellNo(d)))
    case StoreTop(d, r) => s.(stk := Poke(s.stk, CellNo(d), Get(s.r, r)))
    case AddTop(r, d) => SetReg(s, r, W64(Get(s.r, r) + Peek(s.stk, CellNo(d)))).(flags := JunkA(e))
  }

  function ExecMove(k: Consts, o: MoveOp, s: Cpu, e: Input): Cpu
  {
    match o
    case Mov64(d, x) => SetReg(s, d, Get(s.r, x))
    case Mov32(d, x) => SetReg(s, d, W32(Get(s.r, x)))
    case MovImm64(r, v) => SetReg(s, r, W64(Val(k, v)))
    case MovImm32(r, n) => SetReg(s, r, W32(n))
    case Zero32(r) => SetReg(s, r, 0).(flags := MkFlags(JunkA(e), true, false))
    case Lea(r, m) => SetReg(s, r, Ea(s.r, m))
  }

  function Arith(o: ArithOp, r: Regs): (Reg, int)
  {
    match o
    case Add64(d, x) => (d, W64(Get(r, d) + Get(r, x)))
    case Sub64(d, x) => (d, W64(Get(r, d) - Get(r, x)))
    case Shl64(x, n) => (x, W64(Scale(Get(r, x), n)))
    case Imul64(x, f) => (x, W64(Product(Get(r, x), f)))
    case AndEaxFFF => (RAX, W32(r.rax) % 4096)
    case Inc32(x) => (x, W32(Get(r, x) + 1))
    case Dec32(x) => (x, W32(Get(r, x) - 1))
    case Inc64(x) => (x, W64(Get(r, x) + 1))
  }

  function ExecArith(o: ArithOp, s: Cpu, e: Input): Cpu
  {
    var (x, v) := Arith(o, s.r);
    Cpu(Set(s.r, x, v), JunkA(e), s.stk)
  }

  function ExecCompare(o: CompareOp, s: Cpu, e: Input): Cpu
  {
    match o
    case Test64(r) => Compare(s, e, Get(s.r, r), 0)
    case Test32(r) => Compare(s, e, W32(Get(s.r, r)), 0)
    case Cmp32(a, b) => Compare(s, e, W32(Get(s.r, a)), W32(Get(s.r, b)))
    case CmpImm64(r, n) => Compare(s, e, Get(s.r, r), n)
    case CmpImm32(r, n) => Compare(s, e, W32(Get(s.r, r)), n)
  }

  function ExecMem(k: Consts, o: MemOp, s: Cpu, e: Input): Effect
  {
    match o
    case Load64(r, m) => Effect(SetReg(s, r, W64(e.v)), [Rd(Ea(s.r, m), 8)])
    case Load32(r, m) => Effect(SetReg(s, r, W32(e.v)), [Rd(Ea(s.r, m), 4)])
    case Store64(m, r) => Effect(s, [Wr(Ea(s.r, m), 8, Get(s.r, r))])
    case Store32(m, r) => Effect(s, [Wr(Ea(s.r, m), 4, W32(Get(s.r, r)))])
    case StoreImm32(m, v) => Effect(s, [Wr(Ea(s.r, m), 4, W32(Val(k, v)))])
    case StoreImm64(m, n) => Effect(s, [Wr(Ea(s.r, m), 8, n)])
    case CmpMemImm8(m, n) => Effect(Compare(s, e, W32(e.v), n), [Rd(Ea(s.r, m), 4)])
    case CmpRegMem32(r, m) => Effect(Compare(s, e, W32(Get(s.r, r)), W32(e.v)), [Rd(Ea(s.r, m), 4)])
    case LockXadd64(m, r) => Effect(SetReg(s, r, W64(e.v)).(flags := JunkA(e)), [Xadd(Ea(s.r, m), Get(s.r, r))])
    case LockCmpxchg32(m, r) =>
      var held, want := W32(e.v), W32(s.r.rax);
      Effect(Compare(if held == want then s else SetReg(s, RAX, held), e, want, held),
             [Cas(Ea(s.r, m), want, W32(Get(s.r, r)))])
  }

  function Exec(k: Consts, i: Instr, s: Cpu, e: Input): Effect
  {
    match i
    case St(o) => Effect(ExecStack(o, s, e), [])
    case Mv(o) => Effect(ExecMove(k, o, s, e), [])
    case Ar(o) => Effect(ExecArith(o, s, e), [])
    case Cm(o) => Effect(ExecCompare(o, s, e), [])
    case Me(o) => ExecMem(k, o, s, e)
    case Syscall => Kernel(s, e)
  }

  /** The syscall instruction destroys rcx and r11. gettid returns a 32-bit id; clock_gettime fills
      the timespec, which the stubs keep on top of their stack. */
  function Kernel(s: Cpu, e: Input): Effect
  {
    var lost := SetReg(SetReg(s, RCX, JunkA(e)), R11, JunkB(e));
    if s.r.rax == 186 then Effect(SetReg(lost, RAX, W32(e.v)), [SysGettid])
    else if s.r.rax == 228 && s.r.rsi == s.r.rsp then
      Effect(SetReg(lost.(stk := Poke(Poke(s.stk, 0, e.sec), 1, e.nsec)), RAX, 0), [SysClock(s.r.rdi)])
    else Effect(SetReg(lost, RAX, W64(e.v)), [SysOther])
  }

  function Append(a: Code, b: Code): Code
  {
    match a case End => b case Do(i, rest) => Do(i, Append(rest, b))
  }

  function Run(k: Consts, c: Code, s: Cpu, e: Input): Effect
    decreases c
  {
    match c
    case End => Effect(s, [])
    case Do(i, rest) =>
      var x := Exec(k, i, s, e);
      var y := Run(k, rest, x.s, Later(e));
      Effect(y.s, if x.acc == [] then y.acc else if y.acc == [] then x.acc else x.acc + y.acc)
  }

  lemma {:induction false} RunAppend(k: Consts, a: Code, b: Code, s: Cpu, e: Input)
    ensures var x := Run(k, a, s, e); var y := Run(k, b, x.s, Behind(a, e));
            Run(k, Append(a, b), s, e) == Effect(y.s, x.acc + y.acc)
    decreases a
  {
    hide Exec;
    if a.Do? {
      RunAppend(k, a.rest, b, Exec(k, a.i, s, e).s, Later(e));
    }
  }

  // ---------------------------------------------------------------- blocks

  datatype Cond = Equal | AboveEqual

  /** How a block ends. The last three leave the stub: a return through the stack, a jump through a
      register, an undefined instruction. */
  datatype Term = Fall | Goto(b: nat) | IfGoto(c: Cond, b: nat) | RetTop | JumpReg(r: Reg) | Trap

  datatype Block = Block(body: Code, term: Term)

  predicate Holds(c: Cond, f: Word)
  {
    match c case Equal => ZF(f) case AboveEqual => !CF(f)
  }

  /** Where control goes. */
  datatype Place = At(b: nat) | Landed(addr: int) | Undefined

  /** Where a block may lead, whatever the flags. */
  predicate Leads(t: Term, b: nat, to: Place)
  {
    match t
    case Fall => to == At(b + 1)
    case Goto(g) => to == At(g)
    case IfGoto(_, g) => to == At(g) || to == At(b + 1)
    case _ => !to.At?
  }

  datatype Out = Out(s: Cpu, acc: seq<Access>, to: Place)

  function Finish(t: Term, b: nat, s: Cpu): (Cpu, Place)
  {
    match t
    case Fall => (s, At(b + 1))
    case Goto(g) => (s, At(g))
    case IfGoto(c, g) => (s, if Holds(c, s.flags) then At(g) else At(b + 1))
    case RetTop => (PopCell(s), Landed(Head(s.stk)))
    case JumpReg(r) => (s, Landed(Get(s.r, r)))
    case Trap => (s, Undefined)
  }

  function RunBlock(k: Consts, x: Block, b: nat, s: Cpu, e: Input): Out
  {
    var y := Run(k, x.body, s, e);
    var (s', to) := Finish(x.term, b, y.s);
    Out(s', y.acc, to)
  }

  /** The bytes of a jump up to its displacement, and of the ends that have none. */
  function OpBytes(t: Term): seq<Byte>
  {
    match t
    case Fall => []
    case Goto(_) => [0xE9]
    case IfGoto(Equal, _) => [0x0F, 0x84]
    case IfGoto(AboveEqual, _) => [0x0F, 0x83]
    case RetTop => [0xC3]
    case JumpReg(r) => RR(false, [0xFF], 4, No(r))
    case Trap => [0x0F, 0x0B]
  }

  predicate HasRel(t: Term)
  {
    t.Goto? || t.IfGoto?
  }
}
