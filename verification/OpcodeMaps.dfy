/** The opcode maps of the processor's manual, Intel SDM Volume 2, Appendix A, for 64-bit mode, and exactly
    where the decoder's tables agree with them. */
module OpcodeMaps {
  import opened Wrappers
  import opened X86
  import opened Decoder

  // ---------------------------------------------------------------- the manual's tables

  /** Immediate bytes: Z follows the operand size up to 4, V up to 8; Moffs is an address; Test is there for
      ModRM.reg 0 only. */
  datatype Immediate = NoImm | Fixed(n: nat) | Z | V | Moffs | Test(wide: bool)

  /** One entry of a map. Empty entries are undefined, invalid in 64-bit mode, or lead to a map beyond these
      two: 0F 38, 0F 3A, VEX and EVEX. */
  datatype Entry = Empty | Entry(modrm: bool, imm: Immediate)

  const PLAIN: Entry := Entry(false, NoImm)
  const RM: Entry := Entry(true, NoImm)

  /** Table A-2. */
  function OneByteMap(op: Byte): Entry
  {
    if op < 0x40 then
      (if op % 8 < 4 then RM else if op % 8 == 4 then Entry(false, Fixed(1))
       else if op % 8 == 5 then Entry(false, Z) else Empty)
    else if op < 0x60 then (if op < 0x50 then Empty else PLAIN)
    else if op < 0x70 then
      (if op == 0x63 then RM else if op < 0x68 then Empty
       else if op == 0x68 then Entry(false, Z) else if op == 0x69 then Entry(true, Z)
       else if op == 0x6A then Entry(false, Fixed(1)) else if op == 0x6B then Entry(true, Fixed(1)) else PLAIN)
    else if op < 0x80 then Entry(false, Fixed(1))
    else if op < 0x90 then
      (if op == 0x80 || op == 0x83 then Entry(true, Fixed(1)) else if op == 0x81 then Entry(true, Z)
       else if op == 0x82 then Empty else RM)
    else if op < 0xA0 then (if op == 0x9A then Empty else PLAIN)
    else if op < 0xB0 then
      (if op < 0xA4 then Entry(false, Moffs) else if op == 0xA8 then Entry(false, Fixed(1))
       else if op == 0xA9 then Entry(false, Z) else PLAIN)
    else if op < 0xC0 then (if op < 0xB8 then Entry(false, Fixed(1)) else Entry(false, V))
    else if op < 0xD0 then
      (if op == 0xC0 || op == 0xC1 || op == 0xC6 then Entry(true, Fixed(1)) else if op == 0xC7 then Entry(true, Z)
       else if op == 0xC2 || op == 0xCA then Entry(false, Fixed(2)) else if op == 0xC8 then Entry(false, Fixed(3))
       else if op == 0xCD then Entry(false, Fixed(1)) else if op in {0xC4, 0xC5, 0xCE} then Empty else PLAIN)
    else if op < 0xE0 then
      (if op < 0xD4 || op >= 0xD8 then RM else if op == 0xD7 then PLAIN else Empty)
    else if op < 0xF0 then
      (if op < 0xE8 || op == 0xEB then Entry(false, Fixed(1)) else if op < 0xEA then Entry(false, Fixed(4))
       else if op == 0xEA then Empty else PLAIN)
    else if op in {0xF0, 0xF2, 0xF3} then Empty
    else if op == 0xF6 || op == 0xF7 then Entry(true, Test(op == 0xF7))
    else if op >= 0xFE then RM
    else PLAIN
  }

  /** Table A-3: the opcodes after 0F. An entry that exists under some prefixes only is given for all. */
  function TwoByteMap(op: Byte): Entry
  {
    if op < 0x10 then
      (if op < 4 || op == 0x0D then RM else if op in {0x04, 0x0A, 0x0C, 0x0E, 0x0F} then Empty else PLAIN)
    else if op < 0x30 then (if 0x24 <= op < 0x28 then Empty else RM)
    else if op < 0x40 then (if op < 0x36 || op == 0x37 then PLAIN else Empty)
    else if op < 0x70 then RM
    else if op < 0x80 then
      (if op < 0x74 then Entry(true, Fixed(1)) else if op == 0x77 then PLAIN
       else if op == 0x7A || op == 0x7B then Empty else RM)
    else if op < 0x90 then Entry(false, Fixed(4))
    else if op < 0xA0 then RM
    else if op < 0xB0 then
      (if op in {0xA0, 0xA1, 0xA2, 0xA8, 0xA9, 0xAA} then PLAIN else if op == 0xA6 || op == 0xA7 then Empty
       else if op == 0xA4 || op == 0xAC then Entry(true, Fixed(1)) else RM)
    else if op == 0xBA || op in {0xC2, 0xC4, 0xC5, 0xC6} then Entry(true, Fixed(1))
    else if 0xC8 <= op < 0xD0 then PLAIN
    else RM
  }

  /** Table A-6, the groups of the one-byte map: encodings that it leaves empty. */
  predicate BlankInGroup(op: Byte, modrm: Byte)
  {
    var reg := Reg(modrm);
    || (op == 0x8F && reg != 0)
    || ((op == 0xC0 || op == 0xC1 || 0xD0 <= op < 0xD4) && reg == 6)
    || ((op == 0xC6 || op == 0xC7) && reg != 0 && modrm != 0xF8)
    || ((op == 0xF6 || op == 0xF7) && reg == 1)
    || (op == 0xFE && reg > 1)
    || (op == 0xFF && reg == 7)
  }

  function Reg(modrm: Byte): nat
  {
    modrm / 8 % 8
  }

  /** Section 2.1.1: lock and repeat, segments, operand size, address size; and section 2.2.1: REX. */
  const PREFIXES: set<Byte> := {0xF0, 0xF2, 0xF3} + {0x2E, 0x36, 0x3E, 0x26, 0x64, 0x65} + {0x66} + {0x67}

  predicate Prefix(b: Byte)
  {
    b in PREFIXES || 0x40 <= b < 0x50
  }

  function Leading(s: seq<Byte>): (n: nat)
    ensures n <= |s|
  {
    if s != [] && Prefix(s[0]) then 1 + Leading(s[1..]) else 0
  }

  /** Section 2.2.1: a REX prefix counts only right before the opcode. */
  predicate WideOperand(prefixes: seq<Byte>)
  {
    prefixes != [] && 0x48 <= prefixes[|prefixes| - 1] < 0x50
  }

  /** Of the REX prefixes anywhere among them the last has its W bit set. */
  ghost predicate LastRexWide(prefixes: seq<Byte>)
  {
    exists k :: 0 <= k < |prefixes| && 0x48 <= prefixes[k] < 0x50
                && forall j :: k < j < |prefixes| ==> !(0x40 <= prefixes[j] < 0x50)
  }

  function ImmBytes(imm: Immediate, prefixes: seq<Byte>, reg: nat): nat
  {
    var short := 0x66 in prefixes && !WideOperand(prefixes);
    match imm
    case NoImm => 0
    case Fixed(n) => n
    case Z => if short then 2 else 4
    case V => if WideOperand(prefixes) then 8 else if short then 2 else 4
    case Moffs => if 0x67 in prefixes then 4 else 8
    case Test(wide) => if reg != 0 then 0 else if !wide then 1 else if short then 2 else 4
  }

  /** Tables 2-2 and 2-3: the bytes of ModRM, SIB and displacement. */
  function AddressBytes(s: seq<Byte>): Option<nat>
  {
    if s == [] then None else
    var mod, rm := s[0] / 64, s[0] % 8;
    if mod == 3 then Some(1)
    else if rm == 4 then
      (if |s| < 2 then None
       else if mod == 1 then Some(3) else if mod == 2 then Some(6) else if s[1] % 8 == 5 then Some(6) else Some(2))
    else if mod == 1 then Some(2) else if mod == 2 then Some(5) else if rm == 5 then Some(5) else Some(1)
  }

  // ---------------------------------------------------------------- the head of an instruction

  /** The prefixes, the opcode, and what follows it. */
  datatype Head = Head(prefixes: seq<Byte>, two: bool, op: Byte, rest: seq<Byte>)

  function HeadOf(s: seq<Byte>): Option<Head>
  {
    var p := Leading(s);
    if p == |s| then None
    else if s[p] != 0x0F then Some(Head(s[..p], false, s[p], s[p + 1..]))
    else if p + 1 == |s| then None
    else Some(Head(s[..p], true, s[p + 1], s[p + 2..]))
  }

  function ModrmOf(h: Head): Byte
  {
    if h.rest == [] then 0 else h.rest[0]
  }

  function Map(h: Head): Entry
  {
    if h.two then TwoByteMap(h.op) else OneByteMap(h.op)
  }

  /** Bytes after the opcode, by the manual. */
  function Wanted(h: Head): Option<nat>
  {
    var e := Map(h);
    if e.Empty? then None
    else if !e.modrm then Some(ImmBytes(e.imm, h.prefixes, 0))
    else if !h.two && BlankInGroup(h.op, ModrmOf(h)) then None
    else match AddressBytes(h.rest)
      case None => None
      case Some(n) => Some(n + ImmBytes(e.imm, h.prefixes, Reg(ModrmOf(h))))
  }

  /** The whole instruction, when it is there and has no more than fifteen bytes (section 2.3.11). */
  function Whole(h: Head, more: Option<nat>): Option<nat>
  {
    if more.None? then None else
    var n := |h.prefixes| + (if h.two then 2 else 1) + more.value;
    if more.value <= |h.rest| && n <= 15 then Some(n) else None
  }

  /** The length of the instruction at the head of `s` by the manual. */
  function ManualLength(s: seq<Byte>): (n: Option<nat>)
    ensures n.Some? ==> 0 < n.value <= |s| && n.value <= 15
  {
    if HeadOf(s).None? then None else Whole(HeadOf(s).value, Wanted(HeadOf(s).value))
  }

  // ---------------------------------------------------------------- the decoder in the same terms

  /** Bytes after the opcode, by the decoder's tables. */
  function Taken(h: Head): Option<nat>
  {
    if !HasModrm(h.two, h.op) then Some(TakenImm(h, 0))
    else match AddressBytes(h.rest)
      case None => None
      case Some(n) => Some(n + TakenImm(h, RegField(ModrmOf(h))))
  }

  function TakenImm(h: Head, reg: nat): nat
  {
    if h.two then ImmLenTwoByte(h.op) else ImmLenOneByte(h.op, RexW(h.prefixes), reg)
  }

  lemma SamePrefixes(b: Byte)
    ensures Prefix(b) <==> IsPrefix(b)
  {
  }

  lemma {:induction false} SameCount(s: seq<Byte>)
    ensures Leading(s) == PrefixCount(s)
  {
    hide Prefix, IsPrefix;
    if s != [] {
      SamePrefixes(s[0]);
      if Prefix(s[0]) { SameCount(s[1..]); }
    }
  }

  lemma HighHalf(b: Byte)
    ensures IsRex(b) ==> (b / 8 % 2 == 1 <==> b >= 0x48)
  {
  }

  /** The decoder heeds the last REX prefix wherever it stands. */
  lemma {:induction false} LastRexIs(prefixes: seq<Byte>)
    ensures RexW(prefixes) <==> LastRexWide(prefixes)
    decreases |prefixes|
  {
    if prefixes != [] {
      var n := |prefixes| - 1;
      LastRexIs(prefixes[..n]);
      HighHalf(prefixes[n]);
      if !IsRex(prefixes[n]) {
        if RexW(prefixes) {
          var k :| 0 <= k < n && 0x48 <= prefixes[..n][k] < 0x50
                   && forall j :: k < j < n ==> !(0x40 <= prefixes[..n][j] < 0x50);
          assert forall j :: k < j < n ==> prefixes[..n][j] == prefixes[j];
          assert 0x48 <= prefixes[k] < 0x50;
        }
        if LastRexWide(prefixes) {
          var k :| 0 <= k <= n && 0x48 <= prefixes[k] < 0x50
                   && forall j :: k < j <= n ==> !(0x40 <= prefixes[j] < 0x50);
          assert 0x48 <= prefixes[..n][k] < 0x50;
        }
      } else if prefixes[n] >= 0x48 {
        assert 0x48 <= prefixes[n] < 0x50;
      }
    }
  }

  lemma AddressIsOperand(s: seq<Byte>)
    ensures AddressBytes(s).Some? && AddressBytes(s).value <= |s| <==> ParseOperand(s).Some?
    ensures ParseOperand(s).Some? ==> AddressBytes(s).value == |PrintOperand(ParseOperand(s).value)|
    ensures ParseOperand(s).Some? ==> ParseOperand(s).value.Modrm? && ParseOperand(s).value.modrm == s[0]
  {
  }

  lemma RestTakes(h: Head)
    ensures var r := ParseRest(h.prefixes, h.two, h.op, h.rest);
            && (r.Some? <==> Taken(h).Some? && Taken(h).value <= |h.rest|)
            && (r.Some? ==> |Print(r.value)| == |h.prefixes| + (if h.two then 2 else 1) + Taken(h).value)
  {
    hide ParseRest, ParseOperand, HasModrm, ImmLenOneByte, ImmLenTwoByte, RexW, AddressBytes, Print;
    if HasModrm(h.two, h.op) {
      AddressIsOperand(h.rest);
      if ParseOperand(h.rest).Some? {
        var o := ParseOperand(h.rest).value;
        OperandParsed(h.rest);
        RestCut(h.prefixes, h.two, h.op, h.rest, o, ImmLen(Insn(h.prefixes, h.two, h.op, o, [])));
      } else {
        NoOperandThere(h.prefixes, h.two, h.op, h.rest);
      }
    } else {
      NoOperand(NoModrm);
      RestCut(h.prefixes, h.two, h.op, h.rest, NoModrm, ImmLen(Insn(h.prefixes, h.two, h.op, NoModrm, [])));
    }
  }

  lemma LengthTakes(s: seq<Byte>)
    ensures LengthAt(s) == if HeadOf(s).None? then None else Whole(HeadOf(s).value, Taken(HeadOf(s).value))
  {
    hide ParseRest, Print, Taken, PrefixCount, Leading;
    SameCount(s);
    var p := PrefixCount(s);
    if p == |s| {
      OnlyPrefixes(s, p);
    } else if s[p] == 0x0F && p + 1 == |s| {
      OpcodeMissing(s, p);
    } else {
      var h := HeadOf(s).value;
      OpcodeCut(s, p, h.two, h.op, if h.two then p + 2 else p + 1);
      RestTakes(h);
    }
  }

  // ---------------------------------------------------------------- exactly where they agree

  /** Opcodes after 0F that the decoder has right; they are right whatever the prefixes. */
  predicate TwoByteRight(op: Byte)
  {
    || 0x05 <= op <= 0x09 || op == 0x0B || 0x10 <= op <= 0x1F || 0x28 <= op <= 0x35 || op == 0x37
    || 0x40 <= op <= 0x4F || op == 0x77 || 0x80 <= op <= 0xA3 || op == 0xA5 || 0xA8 <= op <= 0xAB
    || 0xAD <= op <= 0xB7 || 0xBA <= op <= 0xBF || 0xC8 <= op <= 0xCF
  }

  /** One-byte opcodes that the decoder has right whatever the prefixes, up to empty group entries. */
  predicate OneByteRight(op: Byte)
  {
    || (op < 0x40 && op % 8 < 4) || 0x50 <= op <= 0x5F || op == 0x63 || 0x6A <= op <= 0x80 || 0x83 <= op <= 0x99
    || 0x9B <= op <= 0x9F || 0xA4 <= op <= 0xA7 || 0xAA <= op <= 0xAF || 0xC0 <= op <= 0xC3 || op == 0xC6
    || 0xC8 <= op <= 0xCD || op == 0xCF || 0xD0 <= op <= 0xD3 || op == 0xD7 || op == 0xE8 || op == 0xE9
    || 0xEB <= op <= 0xEF || op == 0xF1 || op == 0xF4 || op == 0xF5 || op == 0xF6 || 0xF8 <= op
  }

  /** The decoder has this instruction right: its opcode is one of the above and not an empty group entry; or it
      has an immediate of the operand size, which is not 16 bits; or it is a 64-bit move of an immediate whose
      REX prefix is where it counts; or an address with the prefix for a 32-bit one. */
  ghost predicate TablesAgree(h: Head)
  {
    var short := 0x66 in h.prefixes && !WideOperand(h.prefixes);
    if h.two then TwoByteRight(h.op) else
    && !BlankInGroup(h.op, ModrmOf(h))
    && (|| OneByteRight(h.op)
        || (h.op in {0x68, 0x69, 0x81, 0xC7} && !short)
        || (h.op == 0xF7 && (Reg(ModrmOf(h)) == 0 ==> !short))
        || (0xB8 <= h.op <= 0xBF && !short && LastRexWide(h.prefixes) == WideOperand(h.prefixes))
        || (0xA0 <= h.op <= 0xA3 && 0x67 in h.prefixes))
  }

  /** What the decoder takes after the opcode of an instruction that it has wrong. An address form, and with it no
      immediate for the shifts by a register's count, blank group entries and VEX's and EVEX's first bytes; one
      byte, or four whatever the operand size, for immediates; four bytes of an eight-byte address; of a 64-bit
      move as the last REX prefix says. And nothing at all of the accumulator's immediates, 8-bit moves, x87,
      loops, string and port instructions with an immediate, and whatever else its tables do not list. */
  ghost function Misread(h: Head): Option<nat>
  {
    var reg := Reg(ModrmOf(h));
    if h.two then (if h.op == 0xA4 || h.op == 0xAC then AddressBytes(h.rest) else Some(0))
    else if h.op in {0x62, 0x8F, 0xC4, 0xC5, 0xF6, 0xFE, 0xFF} || 0xD0 <= h.op < 0xD4 || (h.op == 0xF7 && reg == 1) then
      AddressBytes(h.rest)
    else if h.op in {0x82, 0xC0, 0xC1, 0xC6} then Plus(AddressBytes(h.rest), 1)
    else if h.op in {0x69, 0x81, 0xC7, 0xF7} then Plus(AddressBytes(h.rest), 4)
    else if h.op == 0x68 || 0xA0 <= h.op < 0xA4 then Some(4)
    else if 0xB8 <= h.op < 0xC0 then Some(if LastRexWide(h.prefixes) then 8 else 4)
    else Some(0)
  }

  function Plus(n: Option<nat>, more: nat): Option<nat>
  {
    if n.None? then None else Some(n.value + more)
  }

  lemma AddressIsThere(s: seq<Byte>)
    ensures AddressBytes(s).Some? ==> AddressBytes(s).value >= 1
    ensures s == [] ==> AddressBytes(s).None?
  {
  }

  /** Right or wrong, this is what the decoder takes; and where it is wrong it is not what the manual wants. */
  ghost predicate Exact(h: Head)
  {
    && Taken(h) == (if TablesAgree(h) then Wanted(h) else Misread(h))
    && (!TablesAgree(h) ==> Taken(h) != Wanted(h) || Taken(h).None?)
  }

  lemma TwoByteExact(h: Head)
    requires h.two
    ensures Exact(h)
  {
    hide AddressBytes;
    AddressIsThere(h.rest);
  }

  lemma LowOpcodesExact(h: Head)
    requires !h.two && !Prefix(h.op) && h.op != 0x0F && h.op < 0xA0
    ensures Exact(h)
  {
    hide AddressBytes, RexW, WideOperand, LastRexWide;
    AddressIsThere(h.rest);
  }

  lemma HighOpcodesExact(h: Head)
    requires !h.two && !Prefix(h.op) && h.op >= 0xC0
    ensures Exact(h)
  {
    hide AddressBytes, RexW, WideOperand, LastRexWide;
    AddressIsThere(h.rest);
  }

  lemma MovesExact(h: Head)
    requires !h.two && 0xA0 <= h.op < 0xC0
    ensures Exact(h)
  {
    hide AddressBytes, RexW, WideOperand, LastRexWide;
    AddressIsThere(h.rest);
    WideIsLast(h.prefixes);
    LastRexIs(h.prefixes);
  }

  lemma WideIsLast(prefixes: seq<Byte>)
    ensures WideOperand(prefixes) ==> LastRexWide(prefixes)
  {
  }

  /** At the head of this string the tables agree. */
  ghost predicate Right(s: seq<Byte>)
  {
    HeadOf(s).Some? && TablesAgree(HeadOf(s).value)
  }

  /** The decoder's answer for every string, in the manual's terms: the manual's length where the tables agree, and
      otherwise the prefixes, the opcode and what it misreads after it. */
  lemma DecoderReads(s: seq<Byte>)
    ensures LengthAt(s) == match HeadOf(s)
                           case None => None
                           case Some(h) => Whole(h, if TablesAgree(h) then Wanted(h) else Misread(h))
  {
    hide LengthAt, Taken, Wanted, TablesAgree, Misread, HeadOf;
    LengthTakes(s);
    if HeadOf(s).Some? { HeadExact(s); }
  }

  lemma HeadExact(s: seq<Byte>)
    requires HeadOf(s).Some?
    ensures Exact(HeadOf(s).value)
  {
    hide Exact, Prefix, HeadOf;
    var h := HeadOf(s).value;
    HeadIsThere(s);
    if h.two { TwoByteExact(h); }
    else if h.op < 0xA0 { LowOpcodesExact(h); } else if h.op < 0xC0 { MovesExact(h); } else { HighOpcodesExact(h); }
  }

  /** The decoder's length is the manual's exactly when the tables agree on prefixes, opcode and ModRM, or
      when neither finds an instruction. */
  lemma LengthsAgree(s: seq<Byte>)
    ensures LengthAt(s) == ManualLength(s) <==> Right(s) || (LengthAt(s).None? && ManualLength(s).None?)
  {
    hide LengthAt, Taken, Wanted, TablesAgree, Misread, HeadOf;
    LengthTakes(s);
    if HeadOf(s).Some? { HeadExact(s); }
  }

  lemma {:induction false} LeadingStops(s: seq<Byte>)
    ensures Leading(s) < |s| ==> !Prefix(s[Leading(s)])
  {
    if s != [] && Prefix(s[0]) { LeadingStops(s[1..]); }
  }

  lemma HeadIsThere(s: seq<Byte>)
    requires HeadOf(s).Some?
    ensures var h := HeadOf(s).value; !h.two ==> !Prefix(h.op) && h.op != 0x0F
  {
    hide Leading, Prefix;
    LeadingStops(s);
  }

  // ---------------------------------------------------------------- runs of instructions

  function Length(manual: bool, s: seq<Byte>): (n: Option<nat>)
    ensures n.Some? ==> 0 < n.value <= |s| && n.value <= INSN_MAX
  {
    if manual then ManualLength(s) else LengthAt(s)
  }

  /** The lengths of the instructions up to at least `least` bytes; `whole` when they go that far. */
  datatype Cutting = Cutting(lens: seq<nat>, whole: bool)

  function Cut(manual: bool, s: seq<Byte>, least: int): Cutting
    decreases if least > 0 then least else 0
  {
    if least <= 0 then Cutting([], true) else
    match Length(manual, s)
    case None => Cutting([], false)
    case Some(n) => var c := Cut(manual, s[n..], least - n); Cutting([n] + c.lens, c.whole)
  }

  /** The tables agree on every instruction that the decoder meets on its way past `least` bytes. */
  ghost predicate AllRight(s: seq<Byte>, least: int)
    decreases if least > 0 then least else 0
  {
    least <= 0 || (LengthAt(s).None? && ManualLength(s).None?) ||
    (Right(s) && (LengthAt(s).Some? ==> AllRight(s[LengthAt(s).value..], least - LengthAt(s).value)))
  }

  /** The decoder cuts a stretch of code into instructions as the processor does exactly when the tables agree
      on every one it meets. */
  lemma {:induction false} CutsAgree(s: seq<Byte>, least: int)
    ensures Cut(false, s, least) == Cut(true, s, least) <==> AllRight(s, least)
    decreases if least > 0 then least else 0
  {
    hide LengthAt, ManualLength, Right;
    if least > 0 {
      LengthsAgree(s);
      if LengthAt(s).Some? && ManualLength(s).Some? {
        var m, n := LengthAt(s).value, ManualLength(s).value;
        var c, d := Cut(false, s[m..], least - m), Cut(true, s[n..], least - n);
        CutsAgree(s[m..], least - m);
        assert ([m] + c.lens)[0] == m && ([n] + d.lens)[0] == n;
        assert ([m] + c.lens)[1..] == c.lens && ([n] + d.lens)[1..] == d.lens;
      }
    }
  }

  /** The first n bytes are whole instructions of the manual's. */
  predicate ManualBoundary(s: seq<Byte>, n: nat)
    decreases n
  {
    n == 0 || (ManualLength(s).Some? && ManualLength(s).value <= n &&
               ManualBoundary(s[ManualLength(s).value..], n - ManualLength(s).value))
  }

  /** Up to the first boundary at or past `least`, the decoder's boundaries are the manual's. */
  lemma {:induction false} BoundariesAgree(s: seq<Byte>, least: int, n: nat, m: nat)
    requires AllRight(s, least) && Boundary(s, n) && m <= n
    requires forall k: nat :: least <= k < n ==> !Boundary(s, k)
    ensures Boundary(s, m) <==> ManualBoundary(s, m)
    decreases n
  {
    hide LengthAt, ManualLength, Right;
    LengthsAgree(s);
    if least <= 0 || n == 0 {
      assert n > 0 ==> !Boundary(s, 0);
    } else {
      var l := LengthAt(s).value;
      forall k: nat | least - l <= k < n - l
        ensures !Boundary(s[l..], k)
      {
        assert !Boundary(s, k + l);
      }
      if m >= l { BoundariesAgree(s[l..], least - l, n - l, m - l); }
    }
  }

  /** A patch length that the decoder finds is the one that the processor's instructions have, when the tables
      agree on those it meets. */
  lemma PatchLenIsReal(s: seq<Byte>, least: nat, n: nat)
    requires Boundary(s, n) && least <= n && forall k: nat :: least <= k < n ==> !Boundary(s, k)
    requires AllRight(s, least)
    ensures ManualBoundary(s, n) && forall k: nat :: least <= k < n ==> !ManualBoundary(s, k)
  {
    hide Boundary, ManualBoundary, AllRight;
    BoundariesAgree(s, least, n, n);
    forall k: nat | least <= k < n
      ensures !ManualBoundary(s, k)
    {
      BoundariesAgree(s, least, n, k);
    }
  }

  /** nop, and add eax, imm32 */
  const NOP: Byte := 0x90
  const ADD_EAX: Byte := 0x05

  lemma HeadIs(op: Byte, rest: seq<Byte>)
    requires !Prefix(op) && op != 0x0F
    ensures HeadOf([op] + rest) == Some(Head([], false, op, rest))
  {
    var s := [op] + rest;
    assert Leading(s) == 0 && s[..0] == [] && s[0 + 1..] == rest;
  }

  lemma NopLength(rest: seq<Byte>)
    ensures LengthAt([NOP] + rest) == ManualLength([NOP] + rest) == Some(1)
  {
    hide LengthAt, HeadOf, Misread, LastRexWide, AddressBytes;
    HeadIs(NOP, rest);
    DecoderReads([NOP] + rest);
  }

  /** The accumulator's immediate is five bytes with its opcode; the decoder sees one. */
  lemma AccumulatorImmediatesMissed(rest: seq<Byte>)
    requires |rest| >= 4
    ensures LengthAt([ADD_EAX] + rest) == Some(1) && ManualLength([ADD_EAX] + rest) == Some(5)
  {
    hide LengthAt, HeadOf, LastRexWide, AddressBytes;
    HeadIs(ADD_EAX, rest);
    DecoderReads([ADD_EAX] + rest);
  }

  lemma PastNop(rest: seq<Byte>, n: nat)
    ensures Boundary([NOP] + rest, n + 1) <==> Boundary(rest, n)
    ensures ManualBoundary([NOP] + rest, n + 1) <==> ManualBoundary(rest, n)
  {
    hide LengthAt, ManualLength;
    NopLength(rest);
    assert ([NOP] + rest)[1..] == rest;
  }

  lemma PastNops(rest: seq<Byte>, n: nat)
    ensures Boundary([NOP, NOP, NOP, NOP] + rest, n + 4) <==> Boundary(rest, n)
    ensures ManualBoundary([NOP, NOP, NOP, NOP] + rest, n + 4) <==> ManualBoundary(rest, n)
  {
    hide Boundary, ManualBoundary;
    var one, two, three := [NOP] + rest, [NOP] + ([NOP] + rest), [NOP] + ([NOP] + ([NOP] + rest));
    PastNop(rest, n);
    PastNop(one, n + 1);
    PastNop(two, n + 2);
    PastNop(three, n + 3);
    assert [NOP, NOP, NOP, NOP] + rest == [NOP] + three;
  }

  /** Otherwise it may lie inside an instruction: behind four nops, the decoder cuts `add eax, imm32` apart. */
  lemma CutInside(rest: seq<Byte>)
    requires |rest| >= 4
    ensures var s := [NOP, NOP, NOP, NOP] + ([ADD_EAX] + rest);
            Boundary(s, 5) && (forall k :: 5 <= k < 9 ==> !ManualBoundary(s, k)) && ManualBoundary(s, 9)
  {
    hide LengthAt, ManualLength;
    var s := [ADD_EAX] + rest;
    AccumulatorImmediatesMissed(rest);
    PastNops(s, 1);
    PastNops(s, 5);
    forall k | 5 <= k < 9
      ensures !ManualBoundary([NOP, NOP, NOP, NOP] + s, k)
    {
      PastNops(s, k - 4);
    }
  }
}
