/** The instruction length decoder and the search for a patch length. The grammar is the one the
    code's own tables describe, which is part of x86-64, not all of it. */
module Decoder {
  import opened Wrappers
  import opened X86

  // ---------------------------------------------------------------- tables

  predicate HasModrmOneByte(op: Byte)
  {
    || op <= 0x03 || 0x08 <= op <= 0x0B || 0x10 <= op <= 0x13 || 0x18 <= op <= 0x1B
    || 0x20 <= op <= 0x23 || 0x28 <= op <= 0x2B || 0x30 <= op <= 0x33 || 0x38 <= op <= 0x3B
    || 0x62 <= op <= 0x63 || op == 0x69 || op == 0x6B || 0x80 <= op <= 0x8F
    || 0xC0 <= op <= 0xC1 || 0xC4 <= op <= 0xC7 || 0xD0 <= op <= 0xD3 || 0xF6 <= op <= 0xF7 || op >= 0xFE
  }

  predicate HasModrmTwoByte(op: Byte)
  {
    || 0x10 <= op <= 0x1F || 0x28 <= op <= 0x2F || 0x40 <= op <= 0x4F || 0x90 <= op <= 0x9F
    || 0xA3 <= op <= 0xA5 || 0xAB <= op <= 0xAF || 0xB0 <= op <= 0xB7 || 0xBA <= op <= 0xBF
  }

  function ImmLenOneByte(op: Byte, rexW: bool, reg: nat): nat
  {
    if 0x70 <= op <= 0x7F || op == 0xEB then 1
    else if op == 0xE8 || op == 0xE9 || 0xA0 <= op <= 0xA3 then 4
    else if op == 0xC2 || op == 0xCA then 2
    else if op == 0xC8 then 3
    else if op == 0xCD || op == 0x6A then 1
    else if op == 0x68 then 4
    else if 0xB8 <= op <= 0xBF then (if rexW then 8 else 4)
    else if op == 0xC6 then 1
    else if op == 0xC7 then 4
    else if op == 0x80 || op == 0x82 || op == 0x83 || op == 0xC0 || op == 0xC1 || op == 0x6B then 1
    else if op == 0x81 || op == 0x69 then 4
    else if op == 0xF6 && reg == 0 then 1
    else if op == 0xF7 && reg == 0 then 4
    else 0
  }

  function ImmLenTwoByte(op: Byte): nat
  {
    if 0x80 <= op <= 0x8F then 4 else if op == 0xBA then 1 else 0
  }

  predicate IsRex(b: Byte)
  {
    0x40 <= b <= 0x4F
  }

  predicate IsLegacyPrefix(b: Byte)
  {
    b in {0x66, 0x67, 0xF0, 0xF2, 0xF3, 0x2E, 0x36, 0x3E, 0x26, 0x64, 0x65}
  }

  predicate IsPrefix(b: Byte)
  {
    IsLegacyPrefix(b) || IsRex(b)
  }

  // ---------------------------------------------------------------- grammar

  /** The address form that a ModRM byte opens. */
  datatype Operand = NoModrm | Modrm(modrm: Byte, sib: seq<Byte>, disp: seq<Byte>)

  /** Prefixes in any order, an optional 0x0F, the opcode, its address form, its immediate. */
  datatype Insn = Insn(prefixes: seq<Byte>, two: bool, opcode: Byte, operand: Operand, imm: seq<Byte>)

  function ModField(modrm: Byte): nat { modrm / 64 }
  function RegField(modrm: Byte): nat { modrm / 8 % 8 }
  function RmField(modrm: Byte): nat { modrm % 8 }

  /** The last REX prefix decides. */
  function RexW(prefixes: seq<Byte>): bool
  {
    if prefixes == [] then false else
    var b := prefixes[|prefixes| - 1];
    if IsRex(b) then b / 8 % 2 == 1 else RexW(prefixes[..|prefixes| - 1])
  }

  predicate HasModrm(two: bool, op: Byte)
  {
    if two then HasModrmTwoByte(op) else HasModrmOneByte(op)
  }

  predicate HasSib(modrm: Byte)
  {
    ModField(modrm) != 3 && RmField(modrm) == 4
  }

  function DispLen(modrm: Byte, sib: seq<Byte>): nat
  {
    (if |sib| == 1 && ModField(modrm) == 0 && sib[0] % 8 == 5 then 4 else 0) +
    (if ModField(modrm) == 0 && RmField(modrm) == 5 then 4
     else if ModField(modrm) == 1 then 1
     else if ModField(modrm) == 2 then 4
     else 0)
  }

  predicate WellFormedOperand(o: Operand)
  {
    o.Modrm? ==> |o.sib| == (if HasSib(o.modrm) then 1 else 0) && |o.disp| == DispLen(o.modrm, o.sib)
  }

  function ImmLen(i: Insn): nat
  {
    if i.two then ImmLenTwoByte(i.opcode)
    else ImmLenOneByte(i.opcode, RexW(i.prefixes), if i.operand.Modrm? then RegField(i.operand.modrm) else 0)
  }

  predicate WellFormed(i: Insn)
  {
    && (forall k :: 0 <= k < |i.prefixes| ==> IsPrefix(i.prefixes[k]))
    && (!i.two ==> !IsPrefix(i.opcode) && i.opcode != 0x0F)
    && (i.operand.Modrm? <==> HasModrm(i.two, i.opcode))
    && WellFormedOperand(i.operand)
    && |i.imm| == ImmLen(i)
  }

  function PrintOperand(o: Operand): seq<Byte>
  {
    if o.NoModrm? then [] else [o.modrm] + o.sib + o.disp
  }

  function PrintOpcode(i: Insn): seq<Byte>
  {
    if i.two then [0x0F, i.opcode] else [i.opcode]
  }

  function Print(i: Insn): seq<Byte>
  {
    i.prefixes + (PrintOpcode(i) + (PrintOperand(i.operand) + i.imm))
  }

  // ---------------------------------------------------------------- parsing

  function PrefixCount(s: seq<Byte>): (n: nat)
    ensures n <= |s|
    ensures forall k :: 0 <= k < n ==> IsPrefix(s[k])
    ensures n < |s| ==> !IsPrefix(s[n])
  {
    if s == [] || !IsPrefix(s[0]) then 0 else 1 + PrefixCount(s[1..])
  }

  function ParseOperand(s: seq<Byte>): Option<Operand>
  {
    if s == [] then None else
    var sibs := if HasSib(s[0]) then 1 else 0;
    if |s| < 1 + sibs then None else
    var sib := s[1..1 + sibs];
    var n := DispLen(s[0], sib);
    if |s| < 1 + sibs + n then None else Some(Modrm(s[0], sib, s[1 + sibs..1 + sibs + n]))
  }

  function ParseImm(prefixes: seq<Byte>, two: bool, op: Byte, o: Operand, s: seq<Byte>): Option<Insn>
  {
    var n := ImmLen(Insn(prefixes, two, op, o, []));
    if n > |s| then None else Some(Insn(prefixes, two, op, o, s[..n]))
  }

  function ParseRest(prefixes: seq<Byte>, two: bool, op: Byte, s: seq<Byte>): Option<Insn>
  {
    if !HasModrm(two, op) then ParseImm(prefixes, two, op, NoModrm, s) else
    match ParseOperand(s)
    case None => None
    case Some(o) =>
      if |PrintOperand(o)| > |s| then None else ParseImm(prefixes, two, op, o, s[|PrintOperand(o)|..])
  }

  function ParseOpcode(prefixes: seq<Byte>, s: seq<Byte>): Option<Insn>
  {
    if s == [] then None
    else if s[0] != 0x0F then ParseRest(prefixes, false, s[0], s[1..])
    else if |s| < 2 then None
    else ParseRest(prefixes, true, s[1], s[2..])
  }

  /** The instruction at the head of `s`, whatever follows it. */
  function Parse(s: seq<Byte>): Option<Insn>
  {
    ParseOpcode(s[..PrefixCount(s)], s[PrefixCount(s)..])
  }

  // ---------------------------------------------------------------- printing and parsing agree

  lemma Split<T>(a: seq<T>, b: seq<T>)
    ensures (a + b)[..|a|] == a && (a + b)[|a|..] == b
  {
  }

  lemma OperandRoundTrip(o: Operand, rest: seq<Byte>)
    requires o.Modrm? && WellFormedOperand(o)
    ensures ParseOperand(PrintOperand(o) + rest) == Some(o)
  {
    var s := PrintOperand(o) + rest;
    assert s[0] == o.modrm;
    assert s[1..1 + |o.sib|] == o.sib;
    assert s[1 + |o.sib|..1 + |o.sib| + |o.disp|] == o.disp;
  }

  lemma OperandParsed(s: seq<Byte>)
    requires ParseOperand(s).Some?
    ensures var o := ParseOperand(s).value;
            o.Modrm? && WellFormedOperand(o) && |PrintOperand(o)| <= |s| && PrintOperand(o) == s[..|PrintOperand(o)|]
  {
  }

  lemma ImmRoundTrip(i: Insn, rest: seq<Byte>)
    requires |i.imm| == ImmLen(i)
    ensures ParseImm(i.prefixes, i.two, i.opcode, i.operand, i.imm + rest) == Some(i)
  {
    hide ImmLenOneByte, ImmLenTwoByte, RexW;
    Split(i.imm, rest);
  }

  lemma RestRoundTrip(i: Insn, rest: seq<Byte>)
    requires WellFormed(i)
    ensures ParseRest(i.prefixes, i.two, i.opcode, PrintOperand(i.operand) + (i.imm + rest)) == Some(i)
  {
    hide ParseImm, ImmLen, HasModrm, ParseOperand, WellFormedOperand;
    ImmRoundTrip(i, rest);
    Split(PrintOperand(i.operand), i.imm + rest);
    if i.operand.Modrm? {
      OperandRoundTrip(i.operand, i.imm + rest);
    } else {
      assert [] + (i.imm + rest) == i.imm + rest;
    }
  }

  lemma OpcodeRoundTrip(i: Insn, rest: seq<Byte>)
    requires WellFormed(i)
    ensures ParseOpcode(i.prefixes, PrintOpcode(i) + (PrintOperand(i.operand) + (i.imm + rest))) == Some(i)
  {
    hide ParseRest, ImmLen, HasModrm, WellFormedOperand, PrintOperand;
    RestRoundTrip(i, rest);
    Split(PrintOpcode(i), PrintOperand(i.operand) + (i.imm + rest));
  }

  /** An instruction is found again in front of anything. */
  lemma PrintParses(i: Insn, rest: seq<Byte>)
    requires WellFormed(i)
    ensures Parse(Print(i) + rest) == Some(i)
  {
    hide ParseOpcode, ImmLen, HasModrm, WellFormedOperand, PrintOperand, PrefixCount;
    var body := PrintOpcode(i) + (PrintOperand(i.operand) + (i.imm + rest));
    var s := Print(i) + rest;
    assert s == i.prefixes + body;
    Split(i.prefixes, body);
    OpcodeRoundTrip(i, rest);
    assert body[0] == PrintOpcode(i)[0] && s[|i.prefixes|] == body[0] && !IsPrefix(body[0]);
    forall k | 0 <= k < |i.prefixes| ensures IsPrefix(s[k]) { assert s[k] == i.prefixes[k]; }
    CountIs(s, |i.prefixes|);
  }

  lemma CountIs(s: seq<Byte>, n: nat)
    requires n < |s| && !IsPrefix(s[n]) && forall k :: 0 <= k < n ==> IsPrefix(s[k])
    ensures PrefixCount(s) == n
  {
    hide IsPrefix;
  }

  lemma ImmPrints(prefixes: seq<Byte>, two: bool, op: Byte, o: Operand, s: seq<Byte>)
    requires ParseImm(prefixes, two, op, o, s).Some?
    ensures var i := ParseImm(prefixes, two, op, o, s).value;
            && i == Insn(prefixes, two, op, o, i.imm) && |i.imm| == ImmLen(i) && i.imm <= s
  {
    hide ImmLenOneByte, ImmLenTwoByte, RexW;
  }

  lemma Prefixes<T>(a: seq<T>, b: seq<T>, s: seq<T>)
    requires a <= s && b <= s[|a|..]
    ensures a + b <= s
  {
  }

  lemma RestPrints(prefixes: seq<Byte>, two: bool, op: Byte, s: seq<Byte>)
    requires ParseRest(prefixes, two, op, s).Some?
    ensures var i := ParseRest(prefixes, two, op, s).value;
            && i == Insn(prefixes, two, op, i.operand, i.imm) && |i.imm| == ImmLen(i)
            && (i.operand.Modrm? <==> HasModrm(two, op)) && WellFormedOperand(i.operand)
            && PrintOperand(i.operand) + i.imm <= s
  {
    hide ImmLen, HasModrm, ParseImm, ParseOperand, WellFormedOperand, PrintOperand;
    var i := ParseRest(prefixes, two, op, s).value;
    if HasModrm(two, op) {
      OperandParsed(s);
      var o := ParseOperand(s).value;
      ImmPrints(prefixes, two, op, o, s[|PrintOperand(o)|..]);
      Prefixes(PrintOperand(o), i.imm, s);
    } else {
      ImmPrints(prefixes, two, op, NoModrm, s);
      NoOperand(NoModrm);
      assert [] + i.imm == i.imm;
    }
  }

  lemma NoOperand(o: Operand)
    requires o.NoModrm?
    ensures PrintOperand(o) == [] && WellFormedOperand(o)
  {
  }

  lemma OpcodePrints(prefixes: seq<Byte>, s: seq<Byte>)
    requires ParseOpcode(prefixes, s).Some?
    ensures var i := ParseOpcode(prefixes, s).value;
            && i.prefixes == prefixes && |i.imm| == ImmLen(i)
            && (i.operand.Modrm? <==> HasModrm(i.two, i.opcode)) && WellFormedOperand(i.operand)
            && s != [] && i.two == (s[0] == 0x0F) && (!i.two ==> i.opcode == s[0])
            && PrintOpcode(i) + (PrintOperand(i.operand) + i.imm) <= s
  {
    hide ImmLen, HasModrm, ParseRest, WellFormedOperand, PrintOperand;
    var i := ParseOpcode(prefixes, s).value;
    if s[0] == 0x0F { RestPrints(prefixes, true, s[1], s[2..]); } else { RestPrints(prefixes, false, s[0], s[1..]); }
    Prefixes(PrintOpcode(i), PrintOperand(i.operand) + i.imm, s);
  }

  /** What is found is an instruction, and it is there. */
  lemma ParsePrints(s: seq<Byte>)
    requires Parse(s).Some?
    ensures WellFormed(Parse(s).value) && Print(Parse(s).value) <= s
  {
    hide ImmLen, HasModrm, ParseOpcode, WellFormedOperand, PrintOperand, PrintOpcode, PrefixCount;
    var i, p := Parse(s).value, PrefixCount(s);
    OpcodePrints(s[..p], s[p..]);
    Prefixes(s[..p], PrintOpcode(i) + (PrintOperand(i.operand) + i.imm), s);
  }

  /** The code is self-delimiting: at most one instruction starts a string. */
  lemma Unambiguous(i: Insn, j: Insn, s: seq<Byte>)
    requires WellFormed(i) && WellFormed(j) && Print(i) <= s && Print(j) <= s
    ensures i == j
  {
    hide Parse, Print, WellFormed;
    PrintParses(i, s[|Print(i)|..]);
    PrintParses(j, s[|Print(j)|..]);
    assert s == Print(i) + s[|Print(i)|..] == Print(j) + s[|Print(j)|..];
  }

  const INSN_MAX: nat := 15

  /** The length of the instruction at the head of `s`, if it is there in full and not too long. */
  function LengthAt(s: seq<Byte>): (n: Option<nat>)
    ensures n.Some? ==> 0 < n.value <= |s| && n.value <= INSN_MAX
  {
    match Parse(s)
    case None => None
    case Some(i) => ParsePrints(s); if |Print(i)| <= INSN_MAX then Some(|Print(i)|) else None
  }

  /** The decoder's answer in terms of the grammar alone: it succeeds exactly when some well-formed
      instruction of at most fifteen bytes is a prefix, and gives its length. */
  lemma LengthIsPrinted(s: seq<Byte>, n: nat)
    ensures LengthAt(s) == Some(n) <==>
              exists i :: WellFormed(i) && Print(i) <= s && |Print(i)| == n && n <= INSN_MAX
  {
    hide Print, Parse, WellFormed;
    if LengthAt(s) == Some(n) {
      ParsePrints(s);
      var i := Parse(s).value;
      assert WellFormed(i) && Print(i) <= s && |Print(i)| == n;
    }
    if i :| WellFormed(i) && Print(i) <= s && |Print(i)| == n && n <= INSN_MAX {
      PrintParses(i, s[|Print(i)|..]);
      assert s == Print(i) + s[|Print(i)|..];
    }
  }

  /** Bytes after the instruction do not matter. */
  lemma LengthIgnoresRest(s: seq<Byte>, rest: seq<Byte>)
    requires LengthAt(s).Some?
    ensures LengthAt(s + rest) == LengthAt(s)
  {
    hide Print, Parse, WellFormed;
    ParsePrints(s);
    var i := Parse(s).value;
    var tail := s[|Print(i)|..] + rest;
    PrintParses(i, tail);
    assert s == Print(i) + s[|Print(i)|..];
    assert s + rest == Print(i) + tail;
  }

  // ---------------------------------------------------------------- the decoder

  /** read_modrm_len: moves past the address form, or fails when it does not fit. `code` is all that may
      be read. */
  method ReadModrmLen(code: seq<Byte>, start: nat) returns (ok: bool, off: nat, modrm: Byte)
    requires start <= |code|
    ensures ok <==> ParseOperand(code[start..]).Some?
    ensures ok ==> var o := ParseOperand(code[start..]).value;
                   modrm == o.modrm && off == start + |PrintOperand(o)| <= |code|
  {
    off, modrm := start, 0;
    if off >= |code| {
      return false, off, modrm;
    }
    modrm := code[off];
    off := off + 1;
    var mod, rm := modrm / 64, modrm % 8;
    if mod != 3 && rm == 4 {
      if off >= |code| {
        return false, off, modrm;
      }
      var sib := code[off];
      off := off + 1;
      if mod == 0 && sib % 8 == 5 {
        off := off + 4;
      }
    }
    if mod == 0 && rm == 5 {
      off := off + 4;
    } else if mod == 1 {
      off := off + 1;
    } else if mod == 2 {
      off := off + 4;
    }
    ok := off <= |code|;
  }

  lemma PrefixMore(s: seq<Byte>, n: nat)
    requires n < |s| && IsPrefix(s[n])
    ensures RexW(s[..n + 1]) == if IsRex(s[n]) then s[n] / 8 % 2 == 1 else RexW(s[..n])
  {
    assert s[..n + 1][..n] == s[..n];
  }

  lemma NothingThere(s: seq<Byte>)
    ensures s == [] ==> LengthAt(s).None?
    ensures RexW([]) == false
  {
  }

  lemma OnlyPrefixes(s: seq<Byte>, n: nat)
    requires n <= |s| && forall k :: 0 <= k < n ==> IsPrefix(s[k])
    ensures n == |s| ==> LengthAt(s).None?
  {
    hide IsPrefix;
  }

  lemma OpcodeMissing(s: seq<Byte>, p: nat)
    requires p == PrefixCount(s) < |s| && s[p] == 0x0F
    ensures p + 1 == |s| ==> LengthAt(s).None?
  {
    hide PrefixCount, IsPrefix;
  }

  lemma NoOperandThere(prefixes: seq<Byte>, two: bool, op: Byte, rest: seq<Byte>)
    requires HasModrm(two, op) && ParseOperand(rest).None?
    ensures ParseRest(prefixes, two, op, rest).None?
  {
  }

  lemma OpcodeCut(code: seq<Byte>, p: nat, two: bool, op: Byte, off: nat)
    requires p == PrefixCount(code) < |code| && two == (code[p] == 0x0F)
    requires off == (if two then p + 2 else p + 1) <= |code| && op == code[off - 1]
    ensures Parse(code) == ParseRest(code[..p], two, op, code[off..])
  {
    hide ParseRest, PrefixCount;
    var s := code[p..];
    assert s[0] == code[p] && (two ==> s[1] == code[p + 1] && s[2..] == code[p + 2..]);
    assert s[1..] == code[p + 1..];
  }

  lemma RestCut(prefixes: seq<Byte>, two: bool, op: Byte, rest: seq<Byte>, o: Operand, n: nat)
    requires if HasModrm(two, op) then ParseOperand(rest) == Some(o) && |PrintOperand(o)| <= |rest| else o == NoModrm
    requires n == ImmLen(Insn(prefixes, two, op, o, []))
    ensures var r := ParseRest(prefixes, two, op, rest);
            && (r.Some? <==> |PrintOperand(o)| + n <= |rest|)
            && (r.Some? ==> |Print(r.value)| == |prefixes| + (if two then 2 else 1) + |PrintOperand(o)| + n)
  {
    hide ImmLenOneByte, ImmLenTwoByte, RexW, HasModrm, ParseOperand;
  }

  /** lp_x86_64_insn_len; None stands for EINVAL. */
  method InsnLen(code: seq<Byte>) returns (r: Option<nat>)
    ensures r == LengthAt(code)
  {
    hide HasModrmOneByte, HasModrmTwoByte, HasModrm, ImmLenOneByte, ImmLenTwoByte, RexW;
    hide Parse, ParseRest, ParseOperand, PrintOperand, Print, PrefixCount, WellFormedOperand;
    NothingThere(code);
    if |code| == 0 {
      return None;
    }
    var off := 0;
    var rexW := false;
    while off < |code|
      invariant 0 <= off <= |code| && rexW == RexW(code[..off])
      invariant forall k :: 0 <= k < off ==> IsPrefix(code[k])
    {
      var b := code[off];
      if IsLegacyPrefix(b) {
        PrefixMore(code, off);
        off := off + 1;
        continue;
      }
      if IsRex(b) {
        rexW := (b / 8) % 2 == 1;
        PrefixMore(code, off);
        off := off + 1;
        continue;
      }
      break;
    }
    ghost var p := off;
    OnlyPrefixes(code, off);
    if off >= |code| {
      return None;
    }
    CountIs(code, off);
    var opcode := code[off];
    off := off + 1;
    var two := false;
    if opcode == 0x0F {
      OpcodeMissing(code, p);
      if off >= |code| {
        return None;
      }
      two := true;
      opcode := code[off];
      off := off + 1;
    }
    var modrm := 0;
    ghost var rest, o := code[off..], NoModrm;
    assert Parse(code) == ParseRest(code[..p], two, opcode, rest) by { OpcodeCut(code, p, two, opcode, off); }
    if HasModrm(two, opcode) {
      var ok;
      ok, off, modrm := ReadModrmLen(code, off);
      if !ok {
        NoOperandThere(code[..p], two, opcode, rest);
        return None;
      }
      o := ParseOperand(rest).value;
      OperandParsed(rest);
    } else {
      NoOperand(o);
    }
    var immLen := if two then ImmLenTwoByte(opcode) else ImmLenOneByte(opcode, rexW, modrm / 8 % 8);
    RestCut(code[..p], two, opcode, rest, o, immLen);
    off := off + immLen;
    if off == 0 || off > |code| || off > 15 {
      return None;
    }
    return Some(off);
  }

  // ---------------------------------------------------------------- the patch length

  const WINDOW: nat := 32

  /** The first n bytes are whole instructions. */
  predicate Boundary(s: seq<Byte>, n: nat)
    decreases n
  {
    n == 0 || (LengthAt(s).Some? && LengthAt(s).value <= n && Boundary(s[LengthAt(s).value..], n - LengthAt(s).value))
  }

  /** Boundaries past a boundary are those of what follows it. */
  lemma {:induction false} BoundaryAfter(s: seq<Byte>, b: nat, m: nat)
    requires Boundary(s, b) && b <= m
    ensures b <= |s| && (Boundary(s, m) <==> Boundary(s[b..], m - b))
    decreases b
  {
    hide LengthAt;
    if b == 0 {
      assert s[0..] == s;
    } else {
      var n := LengthAt(s).value;
      BoundaryAfter(s[n..], b - n, m - n);
      assert s[n..][b - n..] == s[b..];
    }
  }

  lemma NextBoundary(s: seq<Byte>, b: nat)
    requires Boundary(s, b)
    ensures b <= |s|
    ensures LengthAt(s[b..]).None? ==> forall m :: m > b ==> !Boundary(s, m)
    ensures LengthAt(s[b..]).Some? ==>
              Boundary(s, b + LengthAt(s[b..]).value)
    ensures LengthAt(s[b..]).Some? ==>
              forall m :: b < m < b + LengthAt(s[b..]).value ==> !Boundary(s, m)
  {
    hide LengthAt;
    BoundaryAfter(s, b, b);
    forall m: nat | m > b
      ensures Boundary(s, m) <==> Boundary(s[b..], m - b)
    {
      BoundaryAfter(s, b, m);
    }
    if LengthAt(s[b..]).Some? {
      assert Boundary(s[b..], LengthAt(s[b..]).value);
    }
  }

  function PrintAll(code: seq<Insn>): seq<Byte>
  {
    if code == [] then [] else Print(code[0]) + PrintAll(code[1..])
  }

  predicate Program(code: seq<Insn>)
  {
    forall k :: 0 <= k < |code| ==> WellFormed(code[k]) && |Print(code[k])| <= INSN_MAX
  }

  /** Boundaries in terms of the grammar alone: the ends of programs that `s` starts with. */
  lemma BoundaryEndsProgram(s: seq<Byte>, n: nat)
    ensures Boundary(s, n) <==> exists c :: Program(c) && PrintAll(c) <= s && |PrintAll(c)| == n
  {
    hide Boundary, Program, PrintAll;
    if Boundary(s, n) {
      var c := Disassemble(s, n);
      assert Program(c) && PrintAll(c) <= s && |PrintAll(c)| == n;
    }
    if c :| Program(c) && PrintAll(c) <= s && |PrintAll(c)| == n {
      ProgramEnds(c, s);
    }
  }

  lemma {:induction false} Disassemble(s: seq<Byte>, n: nat) returns (code: seq<Insn>)
    requires Boundary(s, n)
    ensures Program(code) && PrintAll(code) <= s && |PrintAll(code)| == n
    decreases n
  {
    hide Parse, Print, WellFormed;
    if n == 0 {
      code := [];
    } else {
      ParsePrints(s);
      var i := Parse(s).value;
      var rest := Disassemble(s[|Print(i)|..], n - |Print(i)|);
      code := [i] + rest;
      assert code[1..] == rest;
      Prefixes(Print(i), PrintAll(rest), s);
    }
  }

  lemma {:induction false} ProgramEnds(code: seq<Insn>, s: seq<Byte>)
    requires Program(code) && PrintAll(code) <= s
    ensures Boundary(s, |PrintAll(code)|)
    decreases |code|
  {
    hide Parse, Print, WellFormed;
    if code != [] {
      var i, rest := code[0], PrintAll(code[1..]);
      var after := s[|Print(i)|..];
      Split(Print(i), rest);
      assert s[..|Print(i)|] == Print(i) && s == Print(i) + after;
      assert rest == s[|Print(i)|..|Print(i)| + |rest|] && rest <= after;
      PrintParses(i, after);
      PrintNonempty(i);
      ProgramEnds(code[1..], after);
    }
  }

  lemma PrintNonempty(i: Insn)
    ensures Print(i) != []
  {
  }

  /** Some instruction ends at least `least` and at most `most` bytes on. */
  ghost predicate EndsWithin(s: seq<Byte>, least: nat, most: nat)
  {
    exists n :: least <= n <= most && Boundary(s, n)
  }

  datatype PatchLen = Len(n: nat) | BadCode | TooLong

  /** lp_x86_64_calc_patch_len: the least instruction boundary at or past `minLen`, when there is one in the
      window. BadCode stands for EINVAL, TooLong for EOVERFLOW. */
  method CalcPatchLen(code: seq<Byte>, minLen: nat) returns (r: PatchLen)
    ensures r.Len? ==> Boundary(code, r.n) && minLen <= r.n <= minLen + INSN_MAX - 1 && r.n <= WINDOW
    ensures r.Len? ==> forall m :: minLen <= m < r.n ==> !Boundary(code, m)
    ensures r.Len? <==> minLen > 0 && EndsWithin(code, minLen, WINDOW)
    ensures r.TooLong? <==> minLen > 0 && !EndsWithin(code, minLen, WINDOW) && EndsWithin(code, WINDOW + 1, |code|)
  {
    hide LengthAt, Boundary;
    if minLen == 0 {
      return BadCode;
    }
    var total := 0;
    assert Boundary(code, 0) by { StartIsBoundary(code); }
    while total < minLen
      invariant Boundary(code, total) && total <= WINDOW && total <= minLen + INSN_MAX - 1
      invariant forall m :: minLen <= m < total ==> !Boundary(code, m)
      decreases minLen - total
    {
      NextBoundary(code, total);
      if total >= |code| {
        EndIsStuck(code, total);
        return BadCode;
      }
      var one := InsnLen(code[total..]);
      if one.None? {
        return BadCode;
      }
      total := total + one.value;
      BoundaryAfter(code, total, total);
      if total > WINDOW {
        return TooLong;
      }
    }
    return Len(total);
  }

  lemma StartIsBoundary(s: seq<Byte>)
    ensures Boundary(s, 0)
  {
  }

  lemma EndIsStuck(s: seq<Byte>, b: nat)
    requires b == |s|
    ensures LengthAt(s[b..]).None?
  {
    NothingThere(s[b..]);
  }
}
