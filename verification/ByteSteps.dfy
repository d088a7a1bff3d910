/** The processor on bytes: at every step it reads the instruction at its address in memory and carries it out.
    A block of code, assembled and put into memory, runs that way as it runs block by block. */
module ByteSteps {
  import opened Wrappers
  import opened X86
  import opened RemoteMem
  import opened Stubs
  import opened StubBytes
  import opened StubMachine
  import A = Assembler
  import D = Disassembler

  // ---------------------------------------------------------------- fetch and execute

  /** Up to n bytes from an address on, as far as they are mapped. */
  function Window(m: Memory, pc: int, n: nat): seq<Byte>
    decreases n
  {
    if n == 0 || pc !in m then [] else [m[pc]] + Window(m, pc + 1, n - 1)
  }

  /** An instruction has no more bytes (Intel SDM Volume 2, section 2.3.11). */
  const LONGEST: nat := 15

  /** What has come of it so far: the state, the accesses, and where control is; None is the undefined
      instruction's exception. */
  datatype Went = Went(s: Cpu, acc: seq<Access>, pc: Option<int>)

  /** Instructions read from bytes have their constants in them. */
  const BARE: Consts := Consts(0, 0, 0, 0, 0, 0)

  /** What an instruction does whose bytes end at `next`. */
  function Does(d: D.Decoded, next: int, s: Cpu, e: Input): Went
  {
    match d
    case Op(i) => var x := Exec(BARE, i, s, e); Went(x.s, x.acc, Some(next))
    case Jump(rel) => Went(s, [], Some(W64(next + rel)))
    case JumpIf(c, rel) => Went(s, [], Some(if X86.Holds(c, s.flags) then W64(next + rel) else next))
    case Return => Went(PopCell(s), [], Some(Head(s.stk)))
    case JumpTo(r) => Went(s, [], Some(Get(s.r, r)))
    case Undef => Went(s, [], None)
  }

  /** One instruction; None when the bytes are none that the model reads. */
  function StepAt(m: Memory, pc: int, s: Cpu, e: Input): Option<Went>
  {
    var bytes := Window(m, pc, LONGEST);
    match D.TakeInstr(bytes)
    case None => None
    case Some(d) => Some(Does(d.v, pc + (|bytes| - |d.rest|), s, e))
  }

  /** n instructions. */
  function Steps(m: Memory, pc: Option<int>, s: Cpu, e: Input, n: nat): Option<Went>
    decreases n
  {
    if n == 0 then Some(Went(s, [], pc)) else
    if pc.None? then None else
    match StepAt(m, pc.value, s, e)
    case None => None
    case Some(x) =>
      match Steps(m, x.pc, x.s, Later(e), n - 1)
      case None => None
      case Some(y) => Some(Went(y.s, x.acc + y.acc, y.pc))
  }

  /** Stretches of so many instructions, each with an input of its own. */
  function Feed(m: Memory, pc: Option<int>, s: Cpu, ns: seq<nat>, inps: seq<Input>): Option<Went>
    requires |ns| <= |inps|
    decreases |ns|
  {
    if ns == [] then Some(Went(s, [], pc)) else
    match Steps(m, pc, s, inps[0], ns[0])
    case None => None
    case Some(x) =>
      match Feed(m, x.pc, x.s, ns[1..], inps[1..])
      case None => None
      case Some(y) => Some(Went(y.s, x.acc + y.acc, y.pc))
  }

  // ---------------------------------------------------------------- one instruction

  ghost predicate Lies(m: Memory, pc: int, bytes: seq<Byte>)
  {
    forall x :: pc <= x < pc + |bytes| ==> x in m && m[x] == bytes[x - pc]
  }

  lemma {:induction false} WindowHas(m: Memory, pc: int, bytes: seq<Byte>, n: nat) returns (rest: seq<Byte>)
    requires |bytes| <= n && Lies(m, pc, bytes)
    ensures Window(m, pc, n) == bytes + rest
    decreases n
  {
    if bytes == [] {
      rest := Window(m, pc, n);
    } else {
      rest := WindowHas(m, pc + 1, bytes[1..], n - 1);
      assert bytes == [bytes[0]] + bytes[1..];
    }
  }

  lemma FetchesLies(m: Memory, at: Word, bytes: seq<Byte>)
    ensures Fetches(m, at, bytes) <==> Lies(m, at, bytes)
  {
    if Fetches(m, at, bytes) {
      forall x | at <= x < at + |bytes| ensures x in m && m[x] == bytes[x - at] {
        assert at + (x - at) in m && Slice(m, at, |bytes|)[x - at] == m[at + (x - at)];
      }
    }
    if Lies(m, at, bytes) {
      forall i | 0 <= i < |bytes| ensures m[at + i] == bytes[i] { assert m[at + i] == bytes[at + i - at]; }
      assert Slice(m, at, |bytes|) == bytes;
    }
  }

  lemma FetchesParts(m: Memory, at: Word, a: seq<Byte>, b: seq<Byte>)
    requires Fetches(m, at, a + b)
    ensures Fetches(m, at, a) && Fetches(m, at + |a|, b)
  {
    hide Fetches;
    FetchesLies(m, at, a + b);
    FetchesLies(m, at, a);
    FetchesLies(m, at + |a|, b);
  }

  lemma StepReads(m: Memory, pc: Word, bytes: seq<Byte>, d: D.Decoded, s: Cpu, e: Input)
    requires Fetches(m, pc, bytes) && |bytes| <= LONGEST
    requires forall rest :: D.TakeInstr(bytes + rest) == Some(D.Read(d, rest))
    ensures StepAt(m, pc, s, e) == Some(Does(d, pc + |bytes|, s, e))
  {
    hide D.TakeInstr, Does, Window, Fetches, Lies;
    FetchesLies(m, pc, bytes);
    var rest := WindowHas(m, pc, bytes, LONGEST);
    assert D.TakeInstr(bytes + rest) == Some(D.Read(d, rest));
  }

  lemma FormShort(pre: seq<Byte>, w: bool, op: seq<Byte>, reg: nat, m: Mem)
    requires reg < 16
    ensures |RM(pre, w, op, reg, m)| <= |pre| + |op| + 7
  {
  }

  lemma PairShort(w: bool, op: seq<Byte>, reg: nat, rm: nat)
    requires reg < 16 && rm < 16
    ensures |RR(w, op, reg, rm)| <= |op| + 2
  {
  }

  /** No instruction of the stubs is longer than the processor reads. */
  lemma EncShort(k: Consts, i: Instr)
    ensures |Enc(k, i)| <= LONGEST
  {
    hide RM, RR;
    forall pre, w, op, reg: nat, m | reg < 16 ensures |RM(pre, w, op, reg, m)| <= |pre| + |op| + 7 {
      FormShort(pre, w, op, reg, m);
    }
    forall w, op, reg: nat, rm: nat | reg < 16 && rm < 16 ensures |RR(w, op, reg, rm)| <= |op| + 2 {
      PairShort(w, op, reg, rm);
    }
  }

  lemma OpSteps(m: Memory, pc: Word, k: Consts, i: Instr, s: Cpu, e: Input)
    requires Fetches(m, pc, Enc(k, i)) && D.Encodable(k, i)
    ensures StepAt(m, pc, s, e) == Some(Went(Exec(k, i, s, e).s, Exec(k, i, s, e).acc, Some(pc + |Enc(k, i)|)))
  {
    hide Enc, Exec, D.TakeInstr, D.Encodable, D.Concrete, StepAt, Fetches;
    EncShort(k, i);
    forall rest ensures D.TakeInstr(Enc(k, i) + rest) == Some(D.Read(D.Op(D.Concrete(k, i)), rest)) {
      D.InstrReadsBack(k, i, rest);
    }
    D.ConcreteRuns(k, BARE, i, s, e);
    StepReads(m, pc, Enc(k, i), D.Op(D.Concrete(k, i)), s, e);
  }

  // ---------------------------------------------------------------- straight-line code

  function Count(c: Code): nat
    decreases c
  {
    match c case End => 0 case Do(_, rest) => 1 + Count(rest)
  }

  predicate AllEncodable(k: Consts, c: Code)
    decreases c
  {
    match c case End => true case Do(i, rest) => D.Encodable(k, i) && AllEncodable(k, rest)
  }

  /** n steps and then some. */
  lemma {:induction false} StepsOn(m: Memory, pc: Option<int>, s: Cpu, e: Input, k: Consts, c: Code, x: Went, n: nat)
    requires Steps(m, pc, s, e, Count(c)) == Some(x)
    ensures Steps(m, pc, s, e, Count(c) + n) ==
            match Steps(m, x.pc, x.s, Behind(c, e), n)
            case None => None
            case Some(y) => Some(Went(y.s, x.acc + y.acc, y.pc))
    decreases c
  {
    hide StepAt;
    if c.Do? {
      var first := StepAt(m, pc.value, s, e).value;
      var mid := Steps(m, first.pc, first.s, Later(e), Count(c.rest)).value;
      StepsOn(m, first.pc, first.s, Later(e), k, c.rest, mid, n);
      var last := Steps(m, x.pc, x.s, Behind(c, e), n);
      if last.Some? { A.Assoc(first.acc, mid.acc, last.value.acc); }
    } else {
      var last := Steps(m, x.pc, x.s, e, n);
      if last.Some? { assert [] + last.value.acc == last.value.acc; }
    }
  }

  /** Code in memory runs as code. */
  lemma {:induction false} CodeSteps(m: Memory, pc: Word, k: Consts, c: Code, s: Cpu, e: Input)
    requires Fetches(m, pc, EncCode(k, c)) && AllEncodable(k, c)
    ensures Steps(m, Some(pc), s, e, Count(c))
         == Some(Went(Run(k, c, s, e).s, Run(k, c, s, e).acc, Some(pc + |EncCode(k, c)|)))
    decreases c
  {
    hide StepAt, Enc, Exec, D.Encodable, Fetches;
    if c.Do? {
      FetchesParts(m, pc, Enc(k, c.i), EncCode(k, c.rest));
      OpSteps(m, pc, k, c.i, s, e);
      var x := Exec(k, c.i, s, e);
      CodeSteps(m, pc + |Enc(k, c.i)|, k, c.rest, x.s, Later(e));
      var y := Run(k, c.rest, x.s, Later(e));
      assert [] + y.acc == y.acc && x.acc + [] == x.acc;
    }
  }

  // ---------------------------------------------------------------- blocks

  /** The instructions of a block: its body and, unless it falls through, its end. */
  function CountBlock(x: Block): nat
  {
    Count(x.body) + if x.term.Fall? then 0 else 1
  }

  /** Where a place is, in an assembled program. */
  function AddrOf(k: Consts, stub: nat -> Block, base: Word, to: Place): Option<int>
  {
    match to
    case At(b) => Some(base + A.Offset(k, stub, b))
    case Landed(a) => Some(a)
    case Undefined => None
  }

  lemma EndShort(t: Term)
    ensures |OpBytes(t)| + A.RelSize(t) <= LONGEST
  {
  }

  function EndIs(t: Term, rel: seq<Byte>): D.Decoded
    requires |rel| == A.RelSize(t)
  {
    match t
    case Goto(_) => D.Jump(A.Signed32(rel))
    case IfGoto(c, _) => D.JumpIf(c, A.Signed32(rel))
    case RetTop => D.Return
    case JumpReg(r) => D.JumpTo(r)
    case _ => D.Undef
  }

  lemma EndReads(m: Memory, pc: Word, t: Term, rel: seq<Byte>, s: Cpu, e: Input)
    requires !t.Fall? && |rel| == A.RelSize(t) && Fetches(m, pc, OpBytes(t) + rel)
    ensures StepAt(m, pc, s, e) == Some(Does(EndIs(t, rel), pc + |OpBytes(t) + rel|, s, e))
  {
    hide D.TakeInstr, StepAt, Does, OpBytes, Fetches, A.Signed32;
    EndShort(t);
    forall rest ensures D.TakeInstr(OpBytes(t) + rel + rest) == Some(D.Read(EndIs(t, rel), rest)) {
      D.EndReadsBack(t, rel, rest);
    }
    StepReads(m, pc, OpBytes(t) + rel, EndIs(t, rel), s, e);
  }

  /** The end of a block of an assembled program takes the processor to where the block leads. */
  lemma EndSteps(m: Memory, base: Word, k: Consts, stub: nat -> Block, n: nat, b: nat, pc: Word, s: Cpu, e: Input)
    requires b < n && A.Offset(k, stub, n) < 0x8000_0000 && base + A.Offset(k, stub, n) < 0x1_0000_0000_0000_0000
    requires !stub(b).term.Fall? && (HasRel(stub(b).term) ==> A.Target(stub(b).term) <= n)
    requires Fetches(m, pc, OpBytes(stub(b).term) + A.RelOf(k, stub, b))
    requires pc + |OpBytes(stub(b).term) + A.RelOf(k, stub, b)| == base + A.Offset(k, stub, b + 1)
    ensures var f := Finish(stub(b).term, b, s);
            StepAt(m, pc, s, e) == Some(Went(f.0, [], AddrOf(k, stub, base, f.1)))
  {
    hide OpBytes, StepAt, Fetches, A.Offset, A.Signed32, X86.Holds;
    var t, rel := stub(b).term, A.RelOf(k, stub, b);
    EndReads(m, pc, t, rel, s, e);
    if HasRel(t) {
      RelReads(k, stub, n, b);
      A.OffsetMonotone(k, stub, A.Target(t), n);
    }
  }

  /** A displacement, read as the processor reads it, is the distance to the block it names. */
  lemma RelReads(k: Consts, stub: nat -> Block, n: nat, b: nat)
    requires b < n && HasRel(stub(b).term) && A.Target(stub(b).term) <= n && A.Offset(k, stub, n) < 0x8000_0000
    ensures A.Signed32(A.RelOf(k, stub, b)) == A.Offset(k, stub, A.Target(stub(b).term)) - A.Offset(k, stub, b + 1)
  {
    hide A.Offset, A.Signed32, A.Rel32;
    A.OffsetMonotone(k, stub, A.Target(stub(b).term), n);
    A.OffsetMonotone(k, stub, b + 1, n);
    A.Rel32RoundTrips(A.Offset(k, stub, A.Target(stub(b).term)), A.Offset(k, stub, b + 1));
  }

  /** An assembled program in memory: from the first byte of a block, the processor carries out the instructions it
      reads there as running the block says, and is then at the first byte of the block that comes next, or has
      left as the block leaves. */
  lemma BlockSteps(m: Memory, base: Word, k: Consts, stub: nat -> Block, n: nat, b: nat, s: Cpu, e: Input)
    requires b < n && A.Offset(k, stub, n) < 0x8000_0000 && base + A.Offset(k, stub, n) < 0x1_0000_0000_0000_0000
    requires HasRel(stub(b).term) ==> A.Target(stub(b).term) <= n
    requires AllEncodable(k, stub(b).body)
    requires Fetches(m, base + A.Offset(k, stub, b), A.BlockBytes(k, stub(b)) + A.RelOf(k, stub, b))
    ensures var out := RunBlock(k, stub(b), b, s, e);
            Steps(m, Some(base + A.Offset(k, stub, b)), s, e, CountBlock(stub(b))) ==
            Some(Went(out.s, out.acc, AddrOf(k, stub, base, out.to)))
  {
    hide StepAt, EncCode, OpBytes, Run, Fetches, AllEncodable, Finish, AddrOf, A.RelOf;
    var body, t, rel := stub(b).body, stub(b).term, A.RelOf(k, stub, b);
    var pc := base + A.Offset(k, stub, b);
    A.Assoc(EncCode(k, body), OpBytes(t), rel);
    FetchesParts(m, pc, EncCode(k, body), OpBytes(t) + rel);
    CodeSteps(m, pc, k, body, s, e);
    RelLength(k, stub, b);
    var x := Went(Run(k, body, s, e).s, Run(k, body, s, e).acc, Some(pc + |EncCode(k, body)|));
    if t.Fall? {
      FallsOn(k, stub, base, b, Run(k, body, s, e).s);
    } else {
      EndSteps(m, base, k, stub, n, b, pc + |EncCode(k, body)|, x.s, Behind(body, e));
      StepsOn(m, Some(pc), s, e, k, body, x, 1);
      assert x.acc + [] + [] == x.acc && x.acc + ([] + []) == x.acc;
    }
  }

  lemma RelLength(k: Consts, stub: nat -> Block, b: nat)
    ensures |A.RelOf(k, stub, b)| == A.RelSize(stub(b).term)
    ensures A.Offset(k, stub, b + 1) == A.Offset(k, stub, b) + |EncCode(k, stub(b).body)| + |OpBytes(stub(b).term)|
                                        + A.RelSize(stub(b).term)
    ensures stub(b).term.Fall? ==> A.Offset(k, stub, b + 1) == A.Offset(k, stub, b) + |EncCode(k, stub(b).body)|
  {
    hide EncCode;
  }

  lemma FallsOn(k: Consts, stub: nat -> Block, base: Word, b: nat, s: Cpu)
    ensures Finish(Fall, b, s) == (s, At(b + 1))
    ensures AddrOf(k, stub, base, At(b + 1)) == Some(base + A.Offset(k, stub, b + 1))
  {
  }

  /** A program whose jumps and ends stay within its n blocks. */
  ghost predicate Closed(stub: nat -> Block, n: nat)
  {
    forall b: nat :: b < n ==>
      var t := stub(b).term;
      (HasRel(t) ==> A.Target(t) < n) && (t.Fall? || t.IfGoto? ==> b + 1 < n)
  }

  ghost predicate Readable(k: Consts, stub: nat -> Block, n: nat)
  {
    forall b: nat :: b < n ==> AllEncodable(k, stub(b).body)
  }

  /** A block of an assembled program that is in memory as a whole. */
  lemma BlockOfSteps(m: Memory, base: Word, k: Consts, stub: nat -> Block, n: nat, b: nat, s: Cpu, e: Input)
    requires b < n && A.Offset(k, stub, n) < 0x8000_0000 && base + A.Offset(k, stub, n) < 0x1_0000_0000_0000_0000
    requires Closed(stub, n) && Readable(k, stub, n) && Fetches(m, base, A.Assembled(k, stub, n))
    ensures var out := RunBlock(k, stub(b), b, s, e);
            && Steps(m, Some(base + A.Offset(k, stub, b)), s, e, CountBlock(stub(b)))
               == Some(Went(out.s, out.acc, AddrOf(k, stub, base, out.to)))
            && (out.to.At? ==> out.to.b < n)
  {
    hide Fetches, AllEncodable, Steps, Run, A.BlockBytes, A.Asm, A.Offset, A.RelOf, AddrOf, X86.Holds;
    var code, lo, hi := A.Assembled(k, stub, n), A.Offset(k, stub, b), A.Offset(k, stub, b + 1);
    A.AsmAt(k, stub, A.Rels(k, stub, n), b);
    assert code == code[..lo] + code[lo..] && code[lo..] == code[lo..hi] + code[hi..];
    FetchesParts(m, base, code[..lo], code[lo..]);
    FetchesParts(m, base + lo, code[lo..hi], code[hi..]);
    BlockSteps(m, base, k, stub, n, b, s, e);
  }

  /** So a whole run of a stub, block by block, is the processor's run on the stub's bytes in memory. */
  lemma {:induction false} StubSteps(m: Memory, base: Word, k: Consts, stub: nat -> Block, n: nat, b: nat, s: Cpu,
                                     inps: seq<Input>) returns (ns: seq<nat>)
    requires b < n && A.Offset(k, stub, n) < 0x8000_0000 && base + A.Offset(k, stub, n) < 0x1_0000_0000_0000_0000
    requires Closed(stub, n) && Readable(k, stub, n) && Fetches(m, base, A.Assembled(k, stub, n))
    ensures |ns| <= |inps|
    ensures var out := RunStub(k, stub, b, s, inps);
            Feed(m, Some(base + A.Offset(k, stub, b)), s, ns, inps)
            == Some(Went(out.s, out.acc, AddrOf(k, stub, base, out.to)))
    decreases |inps|
  {
    hide Fetches, Readable, Closed, Steps, RunBlock, A.Assembled, A.Offset, Reply;
    if inps == [] {
      ns := [];
    } else {
      BlockOfSteps(m, base, k, stub, n, b, s, inps[0]);
      var x := RunBlock(k, stub(b), b, s, inps[0]);
      if x.to.At? {
        var rest := StubSteps(m, base, k, stub, n, x.to.b, x.s, inps[1..]);
        ns := [CountBlock(stub(b))] + rest;
        assert ns[1..] == rest;
      } else {
        ns := [CountBlock(stub(b))];
        assert x.acc + [] == x.acc && ns[1..] == [];
      }
    }
  }

  /** A jump by a displacement, alone. */
  lemma JumpSteps(m: Memory, pc: Word, rel: seq<Byte>, s: Cpu, e: Input)
    requires |rel| == 4 && Fetches(m, pc, [0xE9] + rel)
    ensures Steps(m, Some(pc), s, e, 1) == Some(Went(s, [], Some(W64(pc + 5 + A.Signed32(rel)))))
  {
    hide StepAt, Fetches, A.Signed32;
    EndReads(m, pc, Goto(0), rel, s, e);
    var to, none: seq<Access> := W64(pc + 5 + A.Signed32(rel)), [];
    assert Steps(m, Some(to), s, Later(e), 0) == Some(Went(s, none, Some(to))) && none + none == none;
  }

  /** Straight-line code with a return behind it. */
  lemma ReturnSteps(m: Memory, pc: Word, k: Consts, c: Code, s: Cpu, e: Input)
    requires Fetches(m, pc, A.BlockBytes(k, Block(c, RetTop))) && AllEncodable(k, c)
    ensures var out := RunBlock(k, Block(c, RetTop), 0, s, e);
            Steps(m, Some(pc), s, e, Count(c) + 1) == Some(Went(out.s, out.acc, Some(out.to.addr)))
  {
    hide StepAt, EncCode, OpBytes, Run, Fetches, AllEncodable;
    FetchesParts(m, pc, EncCode(k, c), OpBytes(RetTop));
    CodeSteps(m, pc, k, c, s, e);
    var x := Went(Run(k, c, s, e).s, Run(k, c, s, e).acc, Some(pc + |EncCode(k, c)|));
    assert OpBytes(RetTop) + [] == OpBytes(RetTop);
    EndReads(m, pc + |EncCode(k, c)|, RetTop, [], x.s, Behind(c, e));
    StepsOn(m, Some(pc), s, e, k, c, x, 1);
    assert x.acc + [] + [] == x.acc && x.acc + ([] + []) == x.acc;
  }

  // ---------------------------------------------------------------- the stubs

  /** Every constant fits the field that it is written to. */
  predicate Fit(k: Consts)
  {
    && k.config < 0x1_0000_0000_0000_0000 && k.shadow < 0x1_0000_0000_0000_0000 && k.retStub < 0x1_0000_0000_0000_0000
    && k.target < 0x1_0000_0000_0000_0000 && k.pid < 0x1_0000_0000 && k.probeId < 0x1_0000_0000
  }

  lemma StackFits(k: Consts, o: StackOp)
    requires StackArray(o) != []
    ensures D.Encodable(k, St(o))
  {
  }

  lemma MoveFits(k: Consts, o: MoveOp)
    requires MoveArray(o) != [] && Fit(k)
    ensures D.Encodable(k, Mv(o))
  {
  }

  lemma ArithFits(k: Consts, o: ArithOp)
    requires ArithArray(o) != []
    ensures D.Encodable(k, Ar(o))
  {
  }

  lemma CompareFits(k: Consts, o: CompareOp)
    requires CompareArray(o) != []
    ensures D.Encodable(k, Cm(o))
  {
  }

  lemma MemFits(k: Consts, o: MemOp)
    requires MemArray(o) != [] && Fit(k)
    ensures D.Encodable(k, Me(o))
  {
  }

  /** What the builder emits for an instruction it has an array for is read as that instruction. */
  lemma EmittedReadsBack(k: Consts, i: Instr, rest: seq<Byte>)
    requires Listed(i) && Fit(k)
    ensures D.Encodable(k, i)
    ensures D.TakeInstr(Flat(Emitted(k, i, Nil)) + rest) == Some(D.Read(D.Op(D.Concrete(k, i)), rest))
  {
    hide StackArray, MoveArray, ArithArray, CompareArray, MemArray, D.Encodable, D.TakeInstr, Emitted, Enc, D.Concrete;
    match i {
      case St(o) => StackFits(k, o);
      case Mv(o) => MoveFits(k, o);
      case Ar(o) => ArithFits(k, o);
      case Cm(o) => CompareFits(k, o);
      case Me(o) => MemFits(k, o);
      case Syscall => SyscallFits(k);
    }
    EmittedEncodes(k, i, Nil);
    assert Enc(k, i) + [] == Enc(k, i);
    D.InstrReadsBack(k, i, rest);
  }

  lemma SyscallFits(k: Consts)
    ensures D.Encodable(k, Syscall)
  {
  }

  lemma {:induction false} ListedFits(k: Consts, c: Code)
    requires AllListed(c) && Fit(k)
    ensures AllEncodable(k, c)
    decreases c
  {
    hide Listed, D.Encodable, Fit;
    if c.Do? {
      EmittedReadsBack(k, c.i, []);
      ListedFits(k, c.rest);
    }
  }

  lemma {:induction false} AppendEncodable(k: Consts, a: Code, b: Code)
    ensures AllEncodable(k, Append(a, b)) <==> AllEncodable(k, a) && AllEncodable(k, b)
    decreases a
  {
    hide D.Encodable;
    if a.Do? { AppendEncodable(k, a.rest, b); }
  }

  lemma PushesEncodable(k: Consts)
    ensures AllEncodable(k, PUSH_ALL) && AllEncodable(k, PUSH_LOW) && AllEncodable(k, PUSH_MID)
  {
    assert AllEncodable(k, PUSH_LOW) && AllEncodable(k, PUSH_RBP) && AllEncodable(k, PUSH_MID);
    assert AllEncodable(k, PUSH_HIGH);
    hide AllEncodable, PUSH_LOW, PUSH_RBP, PUSH_MID, PUSH_HIGH;
    AppendEncodable(k, PUSH_MID, PUSH_HIGH);
    AppendEncodable(k, PUSH_RBP, Append(PUSH_MID, PUSH_HIGH));
    AppendEncodable(k, PUSH_LOW, Append(PUSH_RBP, Append(PUSH_MID, PUSH_HIGH)));
  }

  lemma PopsEncodable(k: Consts)
    ensures AllEncodable(k, POP_ALL) && AllEncodable(k, Append(POP_MID, POP_LOW))
  {
    assert AllEncodable(k, POP_HIGH) && AllEncodable(k, POP_MID);
    assert AllEncodable(k, POP_RBP) && AllEncodable(k, POP_LOW);
    hide AllEncodable, POP_LOW, POP_RBP, POP_MID, POP_HIGH;
    AppendEncodable(k, POP_RBP, POP_LOW);
    AppendEncodable(k, POP_MID, Append(POP_RBP, POP_LOW));
    AppendEncodable(k, POP_HIGH, Append(POP_MID, Append(POP_RBP, POP_LOW)));
    AppendEncodable(k, POP_MID, POP_LOW);
  }

  /** Everything in the stubs can be read back. */
  lemma EntryEncodable(k: Consts, hasRet: bool, b: nat)
    requires Fit(k)
    ensures AllEncodable(k, EntryBlock(hasRet, b).body)
  {
    hide AllListed, AllEncodable, CodeSize, Append;
    Sizes();
    if b == 0 {
      PushesEncodable(k);
      ListedFits(k, CHECK);
      AppendEncodable(k, PUSH_ALL, CHECK);
    } else if b == EXIT {
      PopsEncodable(k);
    } else {
      ListedFits(k, EntryBlock(hasRet, b).body);
    }
  }

  lemma ReturnEncodable(k: Consts, b: nat)
    requires Fit(k)
    ensures AllEncodable(k, ReturnBlock(b).body)
  {
    hide AllListed, AllEncodable, CodeSize, Append;
    Sizes();
    if b == 0 {
      PushesEncodable(k);
      ListedFits(k, R_ASK);
      AppendEncodable(k, PUSH_MID, R_ASK);
      AppendEncodable(k, PUSH_LOW, Append(PUSH_MID, R_ASK));
    } else if b == 26 {
      PopsEncodable(k);
    } else {
      ListedFits(k, ReturnBlock(b).body);
    }
  }

  /** Both stubs are closed programs of instructions that can be read back. */
  lemma EntryStubReads(k: Consts, hasRet: bool)
    requires Fit(k)
    ensures Closed(EntryStub(hasRet), 38) && Readable(k, EntryStub(hasRet), 38)
  {
    hide AllEncodable, Fit;
    forall b: nat | b < 38 ensures AllEncodable(k, EntryStub(hasRet)(b).body) { EntryEncodable(k, hasRet, b); }
  }

  lemma ReturnStubReads(k: Consts)
    requires Fit(k)
    ensures Closed(ReturnStub(), 29) && Readable(k, ReturnStub(), 29)
  {
    hide AllEncodable, Fit;
    forall b: nat | b < 29 ensures AllEncodable(k, ReturnStub()(b).body) { ReturnEncodable(k, b); }
  }

  lemma ProbeFits(p: Probe)
    requires ValidProbe(p)
    ensures Fit(ConstsOf(p))
  {
  }
}
