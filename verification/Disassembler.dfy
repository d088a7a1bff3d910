/** Reading instructions from bytes, after the opcode tables and the instruction pages of the processor's
    manual, Intel SDM Volume 2, for the instructions that the stubs, the trampoline and the jumps are made
    of; and that what the encodings of X86 are read as is what they were meant to be. */
module Disassembler {
  import opened Wrappers
  import opened X86
  import A = Assembler

  // ---------------------------------------------------------------- fields

  /** Tables 2-2 and 3-1: register numbers, with the REX bit in front. */
  function RegOf(high: bool, low: nat): Reg
    requires low < 8
  {
    if high then
      (match low
       case 0 => R8 case 1 => R9 case 2 => R10 case 3 => R11
       case 4 => R12 case 5 => R13 case 6 => R14 case _ => R15)
    else
      (match low
       case 0 => RAX case 1 => RCX case 2 => RDX case 3 => RBX
       case 4 => RSP case 5 => RBP case 6 => RSI case _ => RDI)
  }

  datatype Rex = Rex(w: bool, r: bool, x: bool, b: bool)

  /** Something read, and the bytes after it. */
  datatype Read<T> = Read(v: T, rest: seq<Byte>)

  /** Section 2.2.1: 0100WRXB, if there is such a byte. */
  function TakeRex(s: seq<Byte>): Read<Rex>
  {
    if s != [] && 0x40 <= s[0] < 0x50 then
      Read(Rex(s[0] / 8 % 2 == 1, s[0] / 4 % 2 == 1, s[0] / 2 % 2 == 1, s[0] % 2 == 1), s[1..])
    else Read(Rex(false, false, false, false), s)
  }

  /** An unsigned immediate, least significant byte first. */
  function TakeImm(n: nat, s: seq<Byte>): Option<Read<nat>>
  {
    if |s| < n then None else Some(Read(FromLE(s[..n]), s[n..]))
  }

  /** The immediate where it is sign extended and not negative; the negative ones are beyond this model. */
  function TakeSigned(n: nat, s: seq<Byte>): Option<Read<nat>>
    requires n == 1 || n == 4
  {
    match TakeImm(n, s)
    case None => None
    case Some(i) => if i.v < (if n == 1 then 0x80 else 0x8000_0000) then Some(i) else None
  }

  function TakeDisp(mod: nat, s: seq<Byte>): Option<Read<Disp>>
  {
    if mod == 0 then Some(Read(D0, s)) else
    match TakeSigned(if mod == 1 then 1 else 4, s)
    case None => None
    case Some(d) => Some(Read(if mod == 1 then D8(d.v) else D32(d.v), d.rest))
  }

  /** ModRM.rm: a register, or a place in memory. */
  datatype RegMem = InReg(r: Reg) | InMem(m: Mem)

  datatype Operands = Operands(ext: nat, reg: Reg, rm: RegMem)

  /** Section 2.1.5: ModRM, SIB and displacement. What has no base register, or an address relative to the
      instruction pointer, is beyond this model. `ext` is ModRM.reg as an opcode extension. */
  function TakeOperands(rex: Rex, s: seq<Byte>): Option<Read<Operands>>
  {
    if s == [] then None else
    var mod, reg, rm := s[0] / 64, s[0] / 8 % 8, s[0] % 8;
    if mod == 3 then Some(Read(Operands(reg, RegOf(rex.r, reg), InReg(RegOf(rex.b, rm))), s[1..]))
    else if rm == 4 then
      (if |s| < 2 then None else
       var scale, index, base := s[1] / 64, s[1] / 8 % 8, s[1] % 8;
       if mod == 0 && base == 5 then None else
       match TakeDisp(mod, s[2..])
       case None => None
       case Some(d) =>
         var m := if index == 4 && !rex.x then Mem(RegOf(rex.b, base), d.v)
                  else MemX(RegOf(rex.b, base), RegOf(rex.x, index), scale, d.v);
         Some(Read(Operands(reg, RegOf(rex.r, reg), InMem(m)), d.rest)))
    else if mod == 0 && rm == 5 then None
    else
      match TakeDisp(mod, s[1..])
      case None => None
      case Some(d) => Some(Read(Operands(reg, RegOf(rex.r, reg), InMem(Mem(RegOf(rex.b, rm), d.v))), d.rest))
  }

  // ---------------------------------------------------------------- opcodes

  /** An instruction that goes on to the next; a jump by a displacement from the end of the instruction; a
      return through the stack; a jump through a register; the undefined instruction. */
  datatype Decoded = Op(i: Instr) | Jump(rel: int) | JumpIf(c: Cond, rel: int) | Return | JumpTo(r: Reg) | Undef

  /** The cells above rsp, which the model keeps apart from other memory. */
  predicate OnTop(m: Mem)
  {
    m.Mem? && m.base == RSP
  }

  /** Two register operands. The opcodes with bit 1 clear are `op Ev, Gv`: the destination is ModRM.rm; with it
      set they are `op Gv, Ev`: the destination is ModRM.reg. */
  function RegForm(op: Byte, w: bool, reg: Reg, rm: Reg): Option<Decoded>
  {
    match op
    case 0x01 => if w then Some(Op(Ar(Add64(rm, reg)))) else None
    case 0x03 => if w then Some(Op(Ar(Add64(reg, rm)))) else None
    case 0x29 => if w then Some(Op(Ar(Sub64(rm, reg)))) else None
    case 0x2B => if w then Some(Op(Ar(Sub64(reg, rm)))) else None
    case 0x31 => if !w && reg == rm then Some(Op(Mv(Zero32(rm)))) else None
    case 0x33 => if !w && reg == rm then Some(Op(Mv(Zero32(rm)))) else None
    case 0x39 => if !w then Some(Op(Cm(Cmp32(rm, reg)))) else None
    case 0x3B => if !w then Some(Op(Cm(Cmp32(reg, rm)))) else None
    case 0x85 => if reg != rm then None else Some(Op(Cm(if w then Test64(rm) else Test32(rm))))
    case 0x89 => Some(Op(Mv(if w then Mov64(rm, reg) else Mov32(rm, reg))))
    case 0x8B => Some(Op(Mv(if w then Mov64(reg, rm) else Mov32(reg, rm))))
    case _ => None
  }

  /** A register operand and a memory operand. */
  function MemForm(op: Byte, w: bool, reg: Reg, m: Mem): Option<Decoded>
  {
    match op
    case 0x03 => if w && OnTop(m) then Some(Op(St(AddTop(reg, m.disp)))) else None
    case 0x3B => if !w then Some(Op(Me(CmpRegMem32(reg, m)))) else None
    case 0x87 => if w && OnTop(m) && m.disp == D0 then Some(Op(St(XchgTop(reg)))) else None
    case 0x89 =>
      if !w then Some(Op(Me(Store32(m, reg))))
      else if OnTop(m) then Some(Op(St(StoreTop(m.disp, reg)))) else Some(Op(Me(Store64(m, reg))))
    case 0x8B =>
      if !w then Some(Op(Me(Load32(reg, m))))
      else if OnTop(m) then Some(Op(St(LoadTop(reg, m.disp)))) else Some(Op(Me(Load64(reg, m))))
    case 0x8D => if w then Some(Op(Mv(Lea(reg, m)))) else None
    case _ => None
  }

  /** The groups whose operation is in ModRM.reg and that have an immediate: 80 to 83, C0 and C1, C6 and C7; and
      the multiplication by an immediate. */
  predicate HasImm(op: Byte)
  {
    op in {0x69, 0x81, 0x83, 0xC1, 0xC7}
  }

  function ImmForm(op: Byte, w: bool, o: Operands, imm: nat): Option<Decoded>
  {
    match o.rm
    case InReg(rm) =>
      (match op
       case 0x69 =>
         if !w || o.reg != rm then None
         else if imm == 1032 then Some(Op(Ar(Imul64(rm, SlotSize))))
         else if imm == 1_000_000_000 then Some(Op(Ar(Imul64(rm, Giga)))) else None
       case 0x81 => if w && o.ext == 7 then Some(Op(Cm(CmpImm64(rm, imm)))) else None
       case 0x83 =>
         if !w then (if o.ext == 7 then Some(Op(Cm(CmpImm32(rm, imm)))) else None)
         else if rm != RSP || imm != 16 then None
         else if o.ext == 0 then Some(Op(St(AddRsp16)))
         else if o.ext == 5 then Some(Op(St(SubRsp16))) else None
       case 0xC1 => if w && o.ext == 4 && imm < 64 then Some(Op(Ar(Shl64(rm, imm)))) else None
       case _ => None)
    case InMem(m) =>
      (match op
       case 0x83 => if !w && o.ext == 7 then Some(Op(Me(CmpMemImm8(m, imm)))) else None
       case 0xC7 =>
         if o.ext != 0 then None
         else if !w then Some(Op(Me(StoreImm32(m, Num(imm)))))
         else if imm < 0x8000_0000 then Some(Op(Me(StoreImm64(m, imm)))) else None
       case _ => None)
  }

  /** Group 5: inc, dec and jmp. */
  function Group5(w: bool, ext: nat, rm: Reg): Option<Decoded>
  {
    match ext
    case 0 => Some(Op(Ar(if w then Inc64(rm) else Inc32(rm))))
    case 1 => if w then None else Some(Op(Ar(Dec32(rm))))
    case 4 => Some(JumpTo(rm))
    case _ => None
  }

  /** One-byte opcodes with ModRM. */
  function TakeForm(op: Byte, rex: Rex, s: seq<Byte>): Option<Read<Decoded>>
  {
    match TakeOperands(rex, s)
    case None => None
    case Some(o) =>
      if HasImm(op) then TakeImmForm(op, rex.w, o)
      else
        With(if op == 0xFF then (if o.v.rm.InReg? then Group5(rex.w, o.v.ext, o.v.rm.r) else None)
             else if o.v.rm.InReg? then RegForm(op, rex.w, o.v.reg, o.v.rm.r)
             else MemForm(op, rex.w, o.v.reg, o.v.rm.m),
             o.rest)
  }

  function TakeImmForm(op: Byte, w: bool, o: Read<Operands>): Option<Read<Decoded>>
  {
    match (if op == 0xC7 && !w then TakeImm(4, o.rest) else if op == 0xC1 then TakeImm(1, o.rest)
           else TakeSigned(if op == 0x83 then 1 else 4, o.rest))
    case None => None
    case Some(i) => With(ImmForm(op, w, o.v, i.v), i.rest)
  }

  function With(d: Option<Decoded>, rest: seq<Byte>): Option<Read<Decoded>>
  {
    match d case None => None case Some(d) => Some(Read(d, rest))
  }

  predicate HasNoModrm(op: Byte)
  {
    op in {0x25, 0x9C, 0x9D, 0xC3, 0xE9} || 0x50 <= op < 0x60 || 0xB8 <= op < 0xC0
  }

  /** One-byte opcodes without ModRM. */
  function TakePlain(op: Byte, rex: Rex, s: seq<Byte>): Option<Read<Decoded>>
  {
    if op == 0x9C then Some(Read(Op(St(Pushfq)), s))
    else if op == 0x9D then Some(Read(Op(St(Popfq)), s))
    else if op == 0xC3 then Some(Read(Return, s))
    else if 0x50 <= op < 0x58 then Some(Read(Op(St(Push(RegOf(rex.b, op - 0x50)))), s))
    else if 0x58 <= op < 0x60 then Some(Read(Op(St(Pop(RegOf(rex.b, op - 0x58)))), s))
    else if 0xB8 <= op < 0xC0 then
      (match TakeImm(if rex.w then 8 else 4, s)
       case None => None
       case Some(i) =>
         var r := RegOf(rex.b, op - 0xB8);
         Some(Read(Op(Mv(if rex.w then MovImm64(r, Num(i.v)) else MovImm32(r, i.v))), i.rest)))
    else if op == 0x25 then
      (match TakeImm(4, s)
       case None => None
       case Some(i) => if !rex.w && i.v == 0xFFF then Some(Read(Op(Ar(AndEaxFFF)), i.rest)) else None)
    else if op == 0xE9 then TakeRel(s, rel => Jump(rel))
    else None
  }

  /** A jump's displacement is signed. */
  function TakeRel(s: seq<Byte>, jump: int -> Decoded): Option<Read<Decoded>>
  {
    if |s| < 4 then None else Some(Read(jump(A.Signed32(s[..4])), s[4..]))
  }

  /** The opcodes after 0F. */
  function TakeTwoByte(rex: Rex, s: seq<Byte>): Option<Read<Decoded>>
  {
    if s == [] then None
    else if s[0] == 0x05 then Some(Read(Op(Syscall), s[1..]))
    else if s[0] == 0x0B then Some(Read(Undef, s[1..]))
    else if s[0] == 0x83 then TakeRel(s[1..], rel => JumpIf(AboveEqual, rel))
    else if s[0] == 0x84 then TakeRel(s[1..], rel => JumpIf(Equal, rel))
    else None
  }

  /** The same under a lock prefix. */
  function TakeLocked(rex: Rex, s: seq<Byte>): Option<Read<Decoded>>
  {
    if |s| < 2 || s[0] != 0x0F then None else
    match TakeOperands(rex, s[2..])
    case None => None
    case Some(o) =>
      if !o.v.rm.InMem? then None
      else if s[1] == 0xC1 && rex.w then Some(Read(Op(Me(LockXadd64(o.v.rm.m, o.v.reg))), o.rest))
      else if s[1] == 0xB1 && !rex.w then Some(Read(Op(Me(LockCmpxchg32(o.v.rm.m, o.v.reg))), o.rest))
      else None
  }

  function TakeOpcode(rex: Rex, s: seq<Byte>): Option<Read<Decoded>>
  {
    if s == [] then None
    else if s[0] == 0x0F then TakeTwoByte(rex, s[1..])
    else if HasNoModrm(s[0]) then TakePlain(s[0], rex, s[1..])
    else TakeForm(s[0], rex, s[1..])
  }

  /** The instruction at the head of a string. */
  function TakeInstr(s: seq<Byte>): Option<Read<Decoded>>
  {
    if s != [] && s[0] == 0xF0 then
      var rex := TakeRex(s[1..]); TakeLocked(rex.v, rex.rest)
    else
      var rex := TakeRex(s); TakeOpcode(rex.v, rex.rest)
  }

  // ---------------------------------------------------------------- what can be written so that it is read back

  /** A displacement that fits its field without a sign, and a base that its ModRM byte can say. */
  predicate DispOk(base: Reg, d: Disp)
  {
    match d
    case D0 => base != RBP && base != R13
    case D8(n) => n < 0x80
    case D32(n) => n < 0x8000_0000
  }

  predicate MemOk(m: Mem)
  {
    DispOk(m.base, m.disp) && (m.MemX? ==> m.index != RSP && m.shift < 4)
  }

  predicate Encodable(k: Consts, i: Instr)
  {
    match i
    case St(LoadTop(_, d)) => DispOk(RSP, d)
    case St(StoreTop(d, _)) => DispOk(RSP, d)
    case St(AddTop(_, d)) => DispOk(RSP, d)
    case Mv(MovImm64(_, v)) => Val(k, v) < 0x1_0000_0000_0000_0000
    case Mv(MovImm32(_, n)) => n < 0x1_0000_0000
    case Mv(Lea(_, m)) => MemOk(m)
    case Ar(Shl64(_, n)) => n < 64
    case Cm(CmpImm64(_, n)) => n < 0x8000_0000
    case Cm(CmpImm32(_, n)) => n < 0x80
    case Me(o) =>
      MemOk(o.m) && ((o.Load64? || o.Store64?) ==> !OnTop(o.m)) && (o.CmpMemImm8? ==> o.n < 0x80)
      && (o.StoreImm64? ==> o.n < 0x8000_0000) && (o.StoreImm32? ==> Val(k, o.imm) < 0x1_0000_0000)
    case _ => true
  }

  /** With its constants filled in. */
  function Concrete(k: Consts, i: Instr): Instr
  {
    match i
    case Mv(MovImm64(r, v)) => Mv(MovImm64(r, Num(Val(k, v))))
    case Me(StoreImm32(m, v)) => Me(StoreImm32(m, Num(Val(k, v))))
    case _ => i
  }

  /** That makes no difference to what it does, and nothing is left to be filled in. */
  lemma ConcreteRuns(k: Consts, any: Consts, i: Instr, s: Cpu, e: Input)
    ensures Exec(any, Concrete(k, i), s, e) == Exec(k, i, s, e)
  {
  }

  // ---------------------------------------------------------------- reading back, field by field

  lemma SameReg(r: Reg)
    ensures RegOf(No(r) >= 8, No(r) % 8) == r
  {
  }

  lemma RexBits(w: bool, r: bool, x: bool, b: bool)
    ensures var n := 0x40 + (if w then 8 else 0) + (if r then 4 else 0) + (if x then 2 else 0) + (if b then 1 else 0);
            (n / 8 % 2 == 1) == w && (n / 4 % 2 == 1) == r && (n / 2 % 2 == 1) == x && (n % 2 == 1) == b
  {
  }

  lemma HighBit(n: nat)
    requires n < 16
    ensures n / 8 == if n >= 8 then 1 else 0
  {
  }

  lemma RexBack(w: bool, reg: nat, x: nat, b: nat, tail: seq<Byte>)
    requires reg < 16 && x < 16 && b < 16 && tail != [] && !(0x40 <= tail[0] < 0x50)
    ensures TakeRex(RexOf(w, reg, x, b) + tail) == Read(Rex(w, reg >= 8, x >= 8, b >= 8), tail)
  {
    hide TakeRex;
    HighBit(reg);
    HighBit(x);
    HighBit(b);
    var rex := RexOf(w, reg, x, b);
    if rex == [] {
      assert rex + tail == tail;
      NoRex(tail);
    } else {
      RexIs(w, reg >= 8, x >= 8, b >= 8, rex[0], tail);
      assert rex == [rex[0]];
    }
  }

  lemma NoRex(tail: seq<Byte>)
    requires tail != [] && !(0x40 <= tail[0] < 0x50)
    ensures TakeRex(tail) == Read(Rex(false, false, false, false), tail)
  {
  }

  lemma RexIs(w: bool, r: bool, x: bool, b: bool, byte: Byte, tail: seq<Byte>)
    requires byte == 0x40 + (if w then 8 else 0) + (if r then 4 else 0) + (if x then 2 else 0) + (if b then 1 else 0)
    ensures TakeRex([byte] + tail) == Read(Rex(w, r, x, b), tail)
  {
    RexBits(w, r, x, b);
    assert ([byte] + tail)[1..] == tail;
  }

  lemma ImmBack(v: nat, n: nat, tail: seq<Byte>)
    requires v < Pow256(n)
    ensures TakeImm(n, LE(v, n) + tail) == Some(Read(v, tail))
  {
    hide LE, FromLE;
    LERoundTrips(v, n);
    assert (LE(v, n) + tail)[..n] == LE(v, n) && (LE(v, n) + tail)[n..] == tail;
  }

  lemma Widths()
    ensures Pow256(1) == 0x100 && Pow256(4) == 0x1_0000_0000 && Pow256(8) == 0x1_0000_0000_0000_0000
  {
  }

  lemma DispBack(base: Reg, d: Disp, tail: seq<Byte>)
    requires DispOk(base, d)
    ensures TakeDisp(ModOf(d), DispBytes(d) + tail) == Some(Read(d, tail))
  {
    hide LE, FromLE, TakeImm, Pow256;
    Widths();
    match d {
      case D0 => assert [] + tail == tail;
      case D8(n) => ImmBack(n, 1, tail);
      case D32(n) => ImmBack(n, 4, tail);
    }
  }

  /** ModRM's three fields. */
  lemma ModrmFields(mod: nat, reg: nat, rm: nat)
    requires mod < 4 && reg < 8 && rm < 8
    ensures var b := mod * 64 + reg * 8 + rm; b < 256 && b / 64 == mod && b / 8 % 8 == reg && b % 8 == rm
  {
  }

  lemma MemBack(rex: Rex, reg: nat, m: Mem, tail: seq<Byte>)
    requires reg < 16 && MemOk(m)
    requires rex.r == (reg >= 8) && rex.x == (IndexNum(m) >= 8) && rex.b == (No(m.base) >= 8)
    ensures TakeOperands(rex, MemBytes(reg, m) + tail)
         == Some(Read(Operands(reg % 8, RegOf(reg >= 8, reg % 8), InMem(m)), tail))
  {
    hide TakeOperands, MemBytes, DispOk, RegOf, No;
    if m.MemX? { IndexedBack(rex, reg, m, tail); } else { BasedBack(rex, reg, m, tail); }
  }

  lemma BasedBack(rex: Rex, reg: nat, m: Mem, tail: seq<Byte>)
    requires reg < 16 && MemOk(m) && m.Mem?
    requires rex.r == (reg >= 8) && !rex.x && rex.b == (No(m.base) >= 8)
    ensures TakeOperands(rex, MemBytes(reg, m) + tail)
         == Some(Read(Operands(reg % 8, RegOf(reg >= 8, reg % 8), InMem(m)), tail))
  {
    hide TakeDisp, DispBytes, RegOf, DispOk, No, ModOf;
    var s, d, low := MemBytes(reg, m) + tail, m.disp, No(m.base) % 8;
    SameReg(m.base);
    DispBack(m.base, d, tail);
    NoBaseFive(m.base, d);
    ModrmFields(ModOf(d), reg % 8, low);
    if low == 4 {
      assert s[2..] == DispBytes(d) + tail;
    } else {
      assert s[1..] == DispBytes(d) + tail;
    }
  }

  lemma IndexedBack(rex: Rex, reg: nat, m: Mem, tail: seq<Byte>)
    requires reg < 16 && MemOk(m) && m.MemX?
    requires rex.r == (reg >= 8) && rex.x == (No(m.index) >= 8) && rex.b == (No(m.base) >= 8)
    ensures TakeOperands(rex, MemBytes(reg, m) + tail)
         == Some(Read(Operands(reg % 8, RegOf(reg >= 8, reg % 8), InMem(m)), tail))
  {
    hide TakeDisp, DispBytes, RegOf, DispOk, No, ModOf;
    var s, d := MemBytes(reg, m) + tail, m.disp;
    SameReg(m.base);
    SameReg(m.index);
    DispBack(m.base, d, tail);
    NoBaseFive(m.base, d);
    IndexNotFour(m.index);
    ModrmFields(ModOf(d), reg % 8, 4);
    ModrmFields(m.shift, No(m.index) % 8, No(m.base) % 8);
    assert s[2..] == DispBytes(d) + tail;
  }

  lemma NoBaseFive(base: Reg, d: Disp)
    requires DispOk(base, d)
    ensures !(ModOf(d) == 0 && No(base) % 8 == 5) && ModOf(d) < 3
  {
  }

  lemma IndexNotFour(x: Reg)
    requires x != RSP
    ensures !(No(x) % 8 == 4 && No(x) < 8)
  {
  }

  lemma RegBack(rex: Rex, reg: nat, rm: nat, tail: seq<Byte>)
    requires reg < 16 && rm < 16 && rex.r == (reg >= 8) && rex.b == (rm >= 8)
    ensures TakeOperands(rex, [0xC0 + (reg % 8) * 8 + rm % 8] + tail)
         == Some(Read(Operands(reg % 8, RegOf(reg >= 8, reg % 8), InReg(RegOf(rm >= 8, rm % 8))), tail))
  {
    hide RegOf;
    var s := [0xC0 + (reg % 8) * 8 + rm % 8] + tail;
    ModrmFields(3, reg % 8, rm % 8);
    assert s[1..] == tail;
  }

  // ---------------------------------------------------------------- reading back, whole instructions

  predicate Opens(op: Byte)
  {
    !(0x40 <= op < 0x50) && op != 0x0F && op != 0xF0
  }

  /** The forms with ModRM, register and memory. */
  lemma RegFormBack(w: bool, op: Byte, reg: nat, rm: nat, tail: seq<Byte>)
    requires reg < 16 && rm < 16 && Opens(op) && !HasNoModrm(op)
    ensures var o := Read(Operands(reg % 8, RegOf(reg >= 8, reg % 8), InReg(RegOf(rm >= 8, rm % 8))), tail);
            TakeInstr(RR(w, [op], reg, rm) + tail) ==
            if HasImm(op) then TakeImmForm(op, w, o)
            else With(if op == 0xFF then Group5(w, o.v.ext, o.v.rm.r) else RegForm(op, w, o.v.reg, o.v.rm.r), tail)
  {
    hide TakeOperands, TakeRex, RegOf, RexOf, TakeImmForm, RegForm, HasNoModrm;
    var modrm := 0xC0 + (reg % 8) * 8 + rm % 8;
    var body := [op] + ([modrm] + tail);
    var rex := RexOf(w, reg, 0, rm);
    assert RR(w, [op], reg, rm) + tail == rex + body;
    RexBack(w, reg, 0, rm, body);
    RexNotLock(w, reg, 0, rm, body);
    RegBack(Rex(w, reg >= 8, false, rm >= 8), reg, rm, tail);
    assert body[1..] == [modrm] + tail;
  }

  lemma RexNotLock(w: bool, reg: nat, x: nat, b: nat, tail: seq<Byte>)
    requires reg < 16 && x < 16 && b < 16 && tail != [] && tail[0] != 0xF0
    ensures (RexOf(w, reg, x, b) + tail)[0] != 0xF0
  {
  }

  lemma MemFormBack(w: bool, op: Byte, reg: nat, m: Mem, tail: seq<Byte>)
    requires reg < 16 && MemOk(m) && Opens(op) && !HasNoModrm(op)
    ensures var o := Read(Operands(reg % 8, RegOf(reg >= 8, reg % 8), InMem(m)), tail);
            TakeInstr(RM([], w, [op], reg, m) + tail) ==
            if HasImm(op) then TakeImmForm(op, w, o)
            else if op == 0xFF then None else With(MemForm(op, w, o.v.reg, m), tail)
  {
    hide TakeOperands, TakeRex, RegOf, RexOf, TakeImmForm, MemForm, HasNoModrm, MemBytes, MemOk;
    var body := [op] + (MemBytes(reg, m) + tail);
    var rex := RexOf(w, reg, IndexNum(m), No(m.base));
    assert RM([], w, [op], reg, m) + tail == rex + body;
    RexBack(w, reg, IndexNum(m), No(m.base), body);
    RexNotLock(w, reg, IndexNum(m), No(m.base), body);
    MemBack(Rex(w, reg >= 8, IndexNum(m) >= 8, No(m.base) >= 8), reg, m, tail);
    assert body[1..] == MemBytes(reg, m) + tail;
  }

  lemma LockedBack(w: bool, op: Byte, reg: nat, m: Mem, tail: seq<Byte>)
    requires reg < 16 && MemOk(m)
    ensures TakeInstr(RM([0xF0], w, [0x0F, op], reg, m) + tail)
         == if op == 0xC1 && w then Some(Read(Op(Me(LockXadd64(m, RegOf(reg >= 8, reg % 8)))), tail))
            else if op == 0xB1 && !w then Some(Read(Op(Me(LockCmpxchg32(m, RegOf(reg >= 8, reg % 8)))), tail))
            else None
  {
    hide TakeOperands, TakeRex, RegOf, RexOf, MemBytes, MemOk;
    var body := [0x0F, op] + (MemBytes(reg, m) + tail);
    var rex := RexOf(w, reg, IndexNum(m), No(m.base));
    var s := RM([0xF0], w, [0x0F, op], reg, m) + tail;
    assert s == [0xF0] + (rex + body) && s[1..] == rex + body;
    RexBack(w, reg, IndexNum(m), No(m.base), body);
    MemBack(Rex(w, reg >= 8, IndexNum(m) >= 8, No(m.base) >= 8), reg, m, tail);
    assert body[2..] == MemBytes(reg, m) + tail;
  }

  /** The forms without ModRM. */
  lemma PlainBack(w: bool, op: Byte, b: nat, tail: seq<Byte>)
    requires b < 16 && HasNoModrm(op)
    ensures TakeInstr(RexOf(w, 0, 0, b) + [op] + tail) == TakePlain(op, Rex(w, false, false, b >= 8), tail)
  {
    hide TakeRex, RexOf, TakePlain;
    var body := [op] + tail;
    assert RexOf(w, 0, 0, b) + [op] + tail == RexOf(w, 0, 0, b) + body;
    RexBack(w, 0, 0, b, body);
    RexNotLock(w, 0, 0, b, body);
    assert body[1..] == tail;
  }

  lemma ImmFormBack(op: Byte, w: bool, o: Operands, v: nat, tail: seq<Byte>)
    requires HasImm(op)
    requires v < if op == 0xC7 && !w then 0x1_0000_0000 else if op == 0xC1 then 0x100 else if op == 0x83 then 0x80
                 else 0x8000_0000
    ensures var n := if op == 0x83 || op == 0xC1 then 1 else 4;
            TakeImmForm(op, w, Read(o, LE(v, n) + tail)) == With(ImmForm(op, w, o, v), tail)
  {
    hide LE, FromLE, TakeImm, ImmForm, Pow256;
    Widths();
    ImmBack(v, if op == 0x83 || op == 0xC1 then 1 else 4, tail);
  }

  ghost predicate ReadsBack(k: Consts, i: Instr, rest: seq<Byte>)
  {
    TakeInstr(Enc(k, i) + rest) == Some(Read(Op(Concrete(k, i)), rest))
  }

  lemma StackBack(k: Consts, o: StackOp, rest: seq<Byte>)
    requires Encodable(k, St(o))
    ensures ReadsBack(k, St(o), rest)
  {
    hide TakeInstr, RR, RM, RexOf, LE, TakeImmForm, RegOf, No;
    SameReg(RSP);
    RspIs();
    match o {
      case Pushfq => BareBack(0x9C, rest);
      case Popfq => BareBack(0x9D, rest);
      case Push(r) => SameReg(r); PlainBack(false, 0x50 + No(r) % 8, No(r), rest);
      case Pop(r) => SameReg(r); PlainBack(false, 0x58 + No(r) % 8, No(r), rest);
      case AddRsp16 => GroupBack(true, 0x83, 0, RSP, 16, rest);
      case SubRsp16 => GroupBack(true, 0x83, 5, RSP, 16, rest);
      case XchgTop(r) => SameReg(r); MemFormBack(true, 0x87, No(r), Top(D0), rest);
      case LoadTop(r, d) => SameReg(r); MemFormBack(true, 0x8B, No(r), Top(d), rest);
      case StoreTop(d, r) => SameReg(r); MemFormBack(true, 0x89, No(r), Top(d), rest);
      case AddTop(r, d) => SameReg(r); MemFormBack(true, 0x03, No(r), Top(d), rest);
    }
  }

  lemma RspIs()
    ensures No(RSP) == 4
  {
  }

  /** A group's operation on a register, with an immediate. */
  lemma GroupBack(w: bool, op: Byte, ext: nat, r: Reg, v: nat, rest: seq<Byte>)
    requires HasImm(op) && op != 0xC7 && ext < 8
    requires v < if op == 0xC1 then 0x100 else if op == 0x83 then 0x80 else 0x8000_0000
    ensures var n := if op == 0x83 || op == 0xC1 then 1 else 4;
            TakeInstr(RR(w, [op], ext, No(r)) + LE(v, n) + rest) ==
            With(ImmForm(op, w, Operands(ext, RegOf(false, ext), InReg(r)), v), rest)
  {
    hide TakeInstr, RR, LE, TakeImmForm, RegOf, No, ImmForm;
    var n := if op == 0x83 || op == 0xC1 then 1 else 4;
    SameReg(r);
    A.Assoc(RR(w, [op], ext, No(r)), LE(v, n), rest);
    RegFormBack(w, op, ext, No(r), LE(v, n) + rest);
    ImmFormBack(op, w, Operands(ext, RegOf(false, ext), InReg(r)), v, rest);
  }

  /** An opcode alone. */
  lemma BareBack(op: Byte, rest: seq<Byte>)
    requires HasNoModrm(op)
    ensures TakeInstr([op] + rest) == TakePlain(op, Rex(false, false, false, false), rest)
  {
    hide TakeInstr, TakePlain;
    PlainBack(false, op, 0, rest);
    assert RexOf(false, 0, 0, 0) + [op] + rest == [op] + rest;
  }

  /** Opcodes whose low bits name a register, with an immediate. */
  lemma MovImmBack(w: bool, r: Reg, v: nat, rest: seq<Byte>)
    requires v < if w then 0x1_0000_0000_0000_0000 else 0x1_0000_0000
    ensures TakeInstr(RexOf(w, 0, 0, No(r)) + [0xB8 + No(r) % 8] + LE(v, if w then 8 else 4) + rest)
         == Some(Read(Op(Mv(if w then MovImm64(r, Num(v)) else MovImm32(r, v))), rest))
  {
    hide TakeInstr, RexOf, LE, FromLE, TakeImm, RegOf, No, Pow256;
    var n := if w then 8 else 4;
    Widths();
    SameReg(r);
    A.Assoc(RexOf(w, 0, 0, No(r)) + [0xB8 + No(r) % 8], LE(v, n), rest);
    PlainBack(w, 0xB8 + No(r) % 8, No(r), LE(v, n) + rest);
    ImmBack(v, n, rest);
  }

  lemma MoveBack(k: Consts, o: MoveOp, rest: seq<Byte>)
    requires Encodable(k, Mv(o))
    ensures ReadsBack(k, Mv(o), rest)
  {
    hide TakeInstr, RR, RM, RexOf, LE, RegOf, No, MemOk;
    match o {
      case Mov64(d, s) => SameReg(d); SameReg(s); RegFormBack(true, 0x89, No(s), No(d), rest);
      case Mov32(d, s) => SameReg(d); SameReg(s); RegFormBack(false, 0x89, No(s), No(d), rest);
      case MovImm64(r, v) => MovImmBack(true, r, Val(k, v), rest);
      case MovImm32(r, n) => MovImmBack(false, r, n, rest);
      case Zero32(r) => SameReg(r); RegFormBack(false, 0x31, No(r), No(r), rest);
      case Lea(r, m) => SameReg(r); MemFormBack(true, 0x8D, No(r), m, rest);
    }
  }

  lemma ArithBack(k: Consts, o: ArithOp, rest: seq<Byte>)
    requires Encodable(k, Ar(o))
    ensures ReadsBack(k, Ar(o), rest)
  {
    hide TakeInstr, RR, RM, RexOf, LE, RegOf, No, TakeImm, FromLE, Pow256, TakeImmForm;
    match o {
      case Add64(d, s) => SameReg(d); SameReg(s); RegFormBack(true, 0x01, No(s), No(d), rest);
      case Sub64(d, s) => SameReg(d); SameReg(s); RegFormBack(true, 0x29, No(s), No(d), rest);
      case Shl64(r, n) => GroupBack(true, 0xC1, 4, r, n, rest);
      case Imul64(r, f) => ImulBack(r, if f.Giga? then 1_000_000_000 else 1032, rest);
      case AndEaxFFF => AndBack(rest);
      case Inc32(r) => SameReg(r); RegFormBack(false, 0xFF, 0, No(r), rest);
      case Dec32(r) => SameReg(r); RegFormBack(false, 0xFF, 1, No(r), rest);
      case Inc64(r) => SameReg(r); RegFormBack(true, 0xFF, 0, No(r), rest);
    }
  }

  lemma ImulBack(r: Reg, v: nat, rest: seq<Byte>)
    requires v < 0x8000_0000
    ensures TakeInstr(RR(true, [0x69], No(r), No(r)) + LE(v, 4) + rest)
         == With(ImmForm(0x69, true, Operands(No(r) % 8, r, InReg(r)), v), rest)
  {
    hide TakeInstr, RR, LE, TakeImmForm, RegOf, No, ImmForm;
    SameReg(r);
    A.Assoc(RR(true, [0x69], No(r), No(r)), LE(v, 4), rest);
    RegFormBack(true, 0x69, No(r), No(r), LE(v, 4) + rest);
    ImmFormBack(0x69, true, Operands(No(r) % 8, r, InReg(r)), v, rest);
  }

  lemma AndBack(rest: seq<Byte>)
    ensures TakeInstr([0x25] + LE(0xFFF, 4) + rest) == Some(Read(Op(Ar(AndEaxFFF)), rest))
  {
    hide TakeInstr, LE, FromLE, TakeImm, Pow256;
    Widths();
    A.Assoc([0x25], LE(0xFFF, 4), rest);
    BareBack(0x25, LE(0xFFF, 4) + rest);
    ImmBack(0xFFF, 4, rest);
  }

  lemma CompareBack(k: Consts, o: CompareOp, rest: seq<Byte>)
    requires Encodable(k, Cm(o))
    ensures ReadsBack(k, Cm(o), rest)
  {
    hide TakeInstr, RR, RexOf, LE, RegOf, No, TakeImmForm;
    match o {
      case Test64(r) => SameReg(r); RegFormBack(true, 0x85, No(r), No(r), rest);
      case Test32(r) => SameReg(r); RegFormBack(false, 0x85, No(r), No(r), rest);
      case Cmp32(a, b) => SameReg(a); SameReg(b); RegFormBack(false, 0x39, No(b), No(a), rest);
      case CmpImm64(r, n) => GroupBack(true, 0x81, 7, r, n, rest);
      case CmpImm32(r, n) => GroupBack(false, 0x83, 7, r, n, rest);
    }
  }

  /** A group's operation on memory, with an immediate. */
  lemma MemGroupBack(w: bool, op: Byte, ext: nat, m: Mem, v: nat, rest: seq<Byte>)
    requires (op == 0x83 || op == 0xC7) && ext < 8 && MemOk(m)
    requires v < if op == 0xC7 && !w then 0x1_0000_0000 else if op == 0x83 then 0x80 else 0x8000_0000
    ensures var n := if op == 0x83 then 1 else 4;
            TakeInstr(RM([], w, [op], ext, m) + LE(v, n) + rest) ==
            With(ImmForm(op, w, Operands(ext, RegOf(false, ext), InMem(m)), v), rest)
  {
    hide TakeInstr, RM, LE, TakeImmForm, RegOf, ImmForm, MemOk;
    var n := if op == 0x83 then 1 else 4;
    A.Assoc(RM([], w, [op], ext, m), LE(v, n), rest);
    MemFormBack(w, op, ext, m, LE(v, n) + rest);
    ImmFormBack(op, w, Operands(ext, RegOf(false, ext), InMem(m)), v, rest);
  }

  lemma MemoryBack(k: Consts, o: MemOp, rest: seq<Byte>)
    requires Encodable(k, Me(o))
    ensures ReadsBack(k, Me(o), rest)
  {
    hide TakeInstr, RM, RexOf, LE, RegOf, No, MemOk, TakeImmForm;
    match o {
      case Load64(r, m) => SameReg(r); MemFormBack(true, 0x8B, No(r), m, rest);
      case Load32(r, m) => SameReg(r); MemFormBack(false, 0x8B, No(r), m, rest);
      case Store64(m, r) => SameReg(r); MemFormBack(true, 0x89, No(r), m, rest);
      case Store32(m, r) => SameReg(r); MemFormBack(false, 0x89, No(r), m, rest);
      case StoreImm32(m, v) => MemGroupBack(false, 0xC7, 0, m, Val(k, v), rest);
      case StoreImm64(m, n) => MemGroupBack(true, 0xC7, 0, m, n, rest);
      case CmpMemImm8(m, n) => MemGroupBack(false, 0x83, 7, m, n, rest);
      case CmpRegMem32(r, m) => SameReg(r); MemFormBack(false, 0x3B, No(r), m, rest);
      case LockXadd64(m, r) => SameReg(r); LockedBack(true, 0xC1, No(r), m, rest);
      case LockCmpxchg32(m, r) => SameReg(r); LockedBack(false, 0xB1, No(r), m, rest);
    }
  }

  /** Every instruction that can be written in the fields it has is read back from its encoding, whatever follows:
      the same operation, operands in the same places, constants filled in. */
  lemma InstrReadsBack(k: Consts, i: Instr, rest: seq<Byte>)
    requires Encodable(k, i)
    ensures TakeInstr(Enc(k, i) + rest) == Some(Read(Op(Concrete(k, i)), rest))
  {
    hide TakeInstr, EncStack, EncMove, EncArith, EncCompare, EncMem, Encodable;
    match i {
      case St(o) => StackBack(k, o, rest);
      case Mv(o) => MoveBack(k, o, rest);
      case Ar(o) => ArithBack(k, o, rest);
      case Cm(o) => CompareBack(k, o, rest);
      case Me(o) => MemoryBack(k, o, rest);
      case Syscall => TwoByteBack(0x05, rest);
    }
  }

  lemma TwoByteBack(op: Byte, rest: seq<Byte>)
    ensures TakeInstr([0x0F, op] + rest) == TakeTwoByte(Rex(false, false, false, false), [op] + rest)
  {
    hide TakeTwoByte;
    var s := [0x0F, op] + rest;
    assert s[1..] == [op] + rest;
  }

  /** So are the ends of blocks, with the displacement after them. */
  lemma EndReadsBack(t: Term, rel: seq<Byte>, rest: seq<Byte>)
    requires !t.Fall? && |rel| == if HasRel(t) then 4 else 0
    ensures TakeInstr(OpBytes(t) + rel + rest)
         == Some(Read(match t
                      case Goto(_) => Jump(A.Signed32(rel))
                      case IfGoto(c, _) => JumpIf(c, A.Signed32(rel))
                      case RetTop => Return
                      case JumpReg(r) => JumpTo(r)
                      case _ => Undef, rest))
  {
    hide TakeInstr, RR, A.Signed32, RegOf, No;
    A.Assoc(OpBytes(t), rel, rest);
    assert |rel| == 4 ==> (rel + rest)[..4] == rel && (rel + rest)[4..] == rest;
    assert |rel| == 0 ==> rel + rest == rest;
    match t {
      case Goto(_) => BareBack(0xE9, rel + rest);
      case IfGoto(Equal, _) => TwoByteBack(0x84, rel + rest); assert ([0x84] + (rel + rest))[1..] == rel + rest;
      case IfGoto(AboveEqual, _) => TwoByteBack(0x83, rel + rest); assert ([0x83] + (rel + rest))[1..] == rel + rest;
      case RetTop => BareBack(0xC3, rest);
      case JumpReg(r) => SameReg(r); RegFormBack(false, 0xFF, 4, No(r), rest);
      case Trap => TwoByteBack(0x0B, rest); assert ([0x0B] + rest)[1..] == rest;
    }
  }
}
