/** The patched function does what the unpatched one does: entry jump, entry stub, copied prologue and
    jump back together take the caller's state to the place after the prologue, in the same state. */
module PatchedFunction {
  import opened Wrappers
  import opened X86
  import opened Stubs
  import opened StubMachine
  import opened EntryStubProof
  import RemoteMem
  import A = Assembler
  import B = ByteSteps
  import Patch
  import L = Layout
  import Protocol
  import StubRuns
  import Z = StubSizes

  /** Control and the processor's state. */
  datatype Where = Where(pc: X86.Word, s: Cpu)

  /** What a processor does with straight-line code: its address, its bytes, the state, the input. */
  type Processor = (X86.Word, seq<Byte>, Cpu, Input) -> Effect

  /** The stack once more cells were pushed onto it. */
  function Onto(cells: seq<int>, k: Stack): Stack
  {
    if cells == [] then k else Cell(cells[0], Onto(cells[1..], k))
  }

  /** Two states that differ in the return cell only: it holds `a` in one and `b` in the other. */
  ghost predicate SameButCell(s: Cpu, t: Cpu, a: int, b: int)
  {
    && s.r == t.r && s.flags == t.flags
    && exists cells, above :: s.stk == Onto(cells, Cell(a, above)) && t.stk == Onto(cells, Cell(b, above))
  }

  /** These bytes do the same wherever they lie. */
  ghost predicate PositionFree(cpu: Processor, code: seq<Byte>)
  {
    forall a: X86.Word, b: X86.Word, s: Cpu, e: Input :: cpu(a, code, s, e) == cpu(b, code, s, e)
  }

  /** These bytes neither read nor write the return cell. */
  ghost predicate Blind(cpu: Processor, code: seq<Byte>)
  {
    forall pc: X86.Word, r: Regs, flags: X86.Word, above: Stack, a: int, b: int, e: Input ::
      var x := cpu(pc, code, Cpu(r, flags, Cell(a, above)), e);
      var y := cpu(pc, code, Cpu(r, flags, Cell(b, above)), e);
      x.acc == y.acc && SameButCell(x.s, y.s, a, b)
  }

  /** One stretch of execution: as many instructions as named, read from memory one by one, in parts that each
      have an input; or that many bytes of other code. */
  datatype Move = Read(ns: seq<nat>, inps: seq<Input>) | Other(n: nat, e: Input)

  /** The move that the bytes in memory allow from `x` leads to `y`. Other code is whatever bytes are
      found at the address. */
  predicate Hop(m: RemoteMem.Memory, cpu: Processor, x: Where, v: Move, y: Where)
  {
    match v
    case Read(ns, inps) =>
      && |ns| <= |inps|
      && var r := B.Feed(m, Some(x.pc), x.s, ns, inps);
         r.Some? && r.value.pc == Some(y.pc) && r.value.s == y.s
    case Other(n, e) =>
      && RemoteMem.Mapped(m, x.pc, n)
      && y == Where(x.pc + n, cpu(x.pc, RemoteMem.Slice(m, x.pc, n), x.s, e).s)
  }

  /** The constants of the trampoline's jump: it goes to the place after the prologue. */
  function BackConsts(p: Probe, home: X86.Word): Consts
  {
    ConstsOf(p).(target := W64(home))
  }

  /** The runtime area and the entry of the function, as attaching leaves them; `code` is the prologue. */
  predicate Patched(m: RemoteMem.Memory, p: Probe, code: seq<Byte>, target: X86.Word)
  {
    && Patch.InReach(target, L.EntryStubAddr(p.base))
    && RemoteMem.Fetches(m, target, Patch.RelJmp(target, L.EntryStubAddr(p.base)))
    && RemoteMem.Fetches(m, L.EntryStubAddr(p.base), A.Assembled(ConstsOf(p), EntryStub(p.hasRet), 38))
    && RemoteMem.Fetches(m, L.TrampolineAddr(p.base),
               code + A.BlockBytes(BackConsts(p, target + |code|), Block(ABS_JUMP, RetTop)))
  }

  lemma FeedOnce(m: RemoteMem.Memory, cpu: Processor, pc: X86.Word, s: Cpu, e: Input, n: nat, x: B.Went, y: Where)
    requires B.Steps(m, Some(pc), s, e, n) == Some(x) && x.pc == Some(y.pc) && x.s == y.s
    ensures Hop(m, cpu, Where(pc, s), Read([n], [e]), y)
  {
    hide B.Steps;
    assert B.Feed(m, x.pc, x.s, [n][1..], [e][1..]) == Some(B.Went(x.s, [], x.pc));
  }

  lemma JumpHop(m: RemoteMem.Memory, p: Probe, cpu: Processor, code: seq<Byte>, target: X86.Word, s: Cpu, e: Input)
    requires ValidProbe(p) && Patched(m, p, code, target)
    ensures Hop(m, cpu, Where(target, s), Read([1], [e]), Where(L.EntryStubAddr(p.base), s))
  {
    hide LE, W32, Patch.Displacement, EntryBlock, A.Assembled, A.BlockBytes, A.Signed32, B.Steps, Hop;
    hide RemoteMem.Fetches;
    var to := L.EntryStubAddr(p.base);
    Patch.RelJmpLands(target, to);
    var rel := Patch.RelJmp(target, to)[1..];
    assert [0xE9] + rel == Patch.RelJmp(target, to);
    B.JumpSteps(m, target, rel, s, e);
    FeedOnce(m, cpu, target, s, e, 1, B.Went(s, [], Some(to)), Where(to, s));
  }

  lemma BackHop(m: RemoteMem.Memory, p: Probe, cpu: Processor, home: X86.Word, pc: X86.Word, s: Cpu, e: Input)
    requires home < Protocol.TWO64 && ValidProbe(p)
    requires RemoteMem.Fetches(m, pc, A.BlockBytes(BackConsts(p, home), Block(ABS_JUMP, RetTop)))
    ensures Hop(m, cpu, Where(pc, s), Read([4], [e]), Where(home, s))
  {
    hide Run, Exec, RemoteMem.Fetches, A.BlockBytes, B.Steps, Hop;
    StubRuns.RunAbsJump(BackConsts(p, home), s, e);
    BackReads(p, home);
    B.ReturnSteps(m, pc, BackConsts(p, home), ABS_JUMP, s, e);
    FeedOnce(m, cpu, pc, s, e, 4, B.Steps(m, Some(pc), s, e, 4).value, Where(home, s));
  }

  lemma BackReads(p: Probe, home: X86.Word)
    requires ValidProbe(p)
    ensures B.AllEncodable(BackConsts(p, home), ABS_JUMP) && B.Count(ABS_JUMP) == 3
  {
  }

  lemma OtherHop(m: RemoteMem.Memory, cpu: Processor, pc: X86.Word, code: seq<Byte>, s: Cpu, e: Input)
    requires RemoteMem.Fetches(m, pc, code)
    ensures Hop(m, cpu, Where(pc, s), Other(|code|, e), Where(pc + |code|, cpu(pc, code, s, e).s))
  {
    hide B.Feed;
  }

  lemma StubHop(m: RemoteMem.Memory, p: Probe, cpu: Processor, f: Frame, cell: nat, inps: seq<Input>)
    returns (ns: seq<nat>)
    requires ValidProbe(p)
    requires RemoteMem.Fetches(m, L.EntryStubAddr(p.base), A.Assembled(ConstsOf(p), EntryStub(p.hasRet), 38))
    requires (forall i :: 0 <= i < 6 ==> ArgsOf(f)[i] >= 0) && |inps| >= 2650
    requires ReadsInstalled(p, EntryStub(p.hasRet), 0, Cpu(f.r, f.flags, Cell(cell, f.above)), inps)
    ensures var s0 := Cpu(f.r, f.flags, Cell(cell, f.above));
            var ran := RunStub(ConstsOf(p), EntryStub(p.hasRet), 0, s0, inps);
            var a := AutoRun(p, Some(Protocol.StartEntry(ArgsOf(f))), cell, ran.replies);
            && a.e.None?
            && Hop(m, cpu, Where(L.EntryStubAddr(p.base), s0), Read(ns, inps),
                   Where(L.TrampolineAddr(p.base), Cpu(f.r, f.flags, Cell(a.cell, f.above))))
  {
    hide RunStub, AutoRun, EntryBlock, A.Assembled, A.BlockBytes, RunBlock, ReadsInstalled, RemoteMem.Fetches;
    hide A.Offset, B.Feed, B.Closed, B.Readable, B.Fit;
    var k, s0 := ConstsOf(p), Cpu(f.r, f.flags, Cell(cell, f.above));
    EntryStubIsTheAutomaton(p, f, cell, inps);
    B.ProbeFits(p);
    B.EntryStubReads(k, p.hasRet);
    Z.StubsFit(k);
    FirstOffset(k, EntryStub(p.hasRet));
    ns := B.StubSteps(m, L.EntryStubAddr(p.base), k, EntryStub(p.hasRet), 38, 0, s0, inps);
  }

  lemma FirstOffset(k: Consts, stub: nat -> Block)
    ensures A.Offset(k, stub, 0) == 0
  {
  }

  /** The patched function simulates the original, whatever processor runs the prologue. `m0` holds the prologue
      at the function's entry, `m` is patched. From the call, with any registers, flags and stack, and with
      enough inputs for the stub to run through, the processor reads from memory: the jump at the entry, the
      entry stub's instructions, `ns` of them to each input, the copied prologue, and the four instructions that
      jump back. So it reaches the place after the prologue, where the unpatched code gets in one move; and the
      two states differ at most in the return cell, which the automaton of the protocol decides. */
  lemma PatchedSimulates(m0: RemoteMem.Memory, m: RemoteMem.Memory, p: Probe, cpu: Processor, code: seq<Byte>,
                         target: X86.Word, f: Frame, cell: nat, inps: seq<Input>, e: Input, e': Input)
    returns (ns: seq<nat>)
    requires ValidProbe(p) && Patched(m, p, code, target) && RemoteMem.Fetches(m0, target, code)
    requires PositionFree(cpu, code) && Blind(cpu, code) && target + |code| < Protocol.TWO64
    requires (forall i :: 0 <= i < 6 ==> ArgsOf(f)[i] >= 0) && |inps| >= 2650
    requires ReadsInstalled(p, EntryStub(p.hasRet), 0, Cpu(f.r, f.flags, Cell(cell, f.above)), inps)
    ensures var s0 := Cpu(f.r, f.flags, Cell(cell, f.above));
            var ran := RunStub(ConstsOf(p), EntryStub(p.hasRet), 0, s0, inps);
            var a := AutoRun(p, Some(Protocol.StartEntry(ArgsOf(f))), cell, ran.replies);
            var s1 := Cpu(f.r, f.flags, Cell(a.cell, f.above));
            var n, home, stub, copy := |code|, target + |code|, L.EntryStubAddr(p.base), L.TrampolineAddr(p.base);
            var mine, theirs := cpu(copy, code, s1, e), cpu(target, code, s0, e);
            && Hop(m0, cpu, Where(target, s0), Other(n, e), Where(home, theirs.s))
            && Hop(m, cpu, Where(target, s0), Read([1], [e']), Where(stub, s0))
            && Hop(m, cpu, Where(stub, s0), Read(ns, inps), Where(copy, s1))
            && Hop(m, cpu, Where(copy, s1), Other(n, e), Where(copy + n, mine.s))
            && Hop(m, cpu, Where(copy + n, mine.s), Read([4], [e']), Where(home, mine.s))
            && a.e.None? && mine.acc == theirs.acc && SameButCell(mine.s, theirs.s, a.cell, cell)
  {
    hide RunStub, AutoRun, EntryBlock, A.Assembled, A.BlockBytes, SameButCell, ReadsInstalled, Hop, RemoteMem.Fetches;
    var s0 := Cpu(f.r, f.flags, Cell(cell, f.above));
    var home, copy := target + |code|, L.TrampolineAddr(p.base);
    var ran := RunStub(ConstsOf(p), EntryStub(p.hasRet), 0, s0, inps);
    var a := AutoRun(p, Some(Protocol.StartEntry(ArgsOf(f))), cell, ran.replies);
    var s1 := Cpu(f.r, f.flags, Cell(a.cell, f.above));
    OtherHop(m0, cpu, target, code, s0, e);
    JumpHop(m, p, cpu, code, target, s0, e');
    ns := StubHop(m, p, cpu, f, cell, inps);
    B.FetchesParts(m, copy, code, A.BlockBytes(BackConsts(p, home), Block(ABS_JUMP, RetTop)));
    OtherHop(m, cpu, copy, code, s1, e);
    BackHop(m, p, cpu, home, copy + |code|, cpu(copy, code, s1, e).s, e');
    assert cpu(copy, code, s0, e) == cpu(target, code, s0, e);
  }

  /** push rbp; mov rbp, rsp; sub rsp, 16 */
  const FRAME_SETUP: Code := Do(St(Push(RBP)), Do(Mv(Mov64(RBP, RSP)), Do(St(SubRsp16), End)))
  const FRAME_BYTES: seq<Byte> := [0x55, 0x48, 0x89, 0xE5, 0x48, 0x83, 0xEC, 0x10]

  /** The usual prologue qualifies on any processor that does with its bytes what they encode. */
  lemma FrameSetupQualifies(k: Consts, cpu: Processor)
    requires forall pc: X86.Word, s: Cpu, e: Input :: cpu(pc, FRAME_BYTES, s, e) == Run(k, FRAME_SETUP, s, e)
    ensures EncCode(k, FRAME_SETUP) == FRAME_BYTES && PositionFree(cpu, FRAME_BYTES) && Blind(cpu, FRAME_BYTES)
  {
    hide EncCode, Run;
    FrameSetupBytes(k);
    forall pc: X86.Word, r: Regs, flags: X86.Word, above: Stack, a: int, b: int, e: Input
      ensures var x := cpu(pc, FRAME_BYTES, Cpu(r, flags, Cell(a, above)), e);
              var y := cpu(pc, FRAME_BYTES, Cpu(r, flags, Cell(b, above)), e);
              x.acc == y.acc && SameButCell(x.s, y.s, a, b)
    {
      RunFrameSetup(k, r, flags, above, a, e);
      RunFrameSetup(k, r, flags, above, b, e);
    }
  }

  lemma FrameSetupBytes(k: Consts)
    ensures EncCode(k, FRAME_SETUP) == FRAME_BYTES
  {
    assert Enc(k, St(Push(RBP))) == [0x55];
    assert Enc(k, Mv(Mov64(RBP, RSP))) == [0x48, 0x89, 0xE5];
    assert Enc(k, St(SubRsp16)) == [0x48, 0x83, 0xEC, 0x10];
  }

  lemma RunFrameSetup(k: Consts, r: Regs, flags: X86.Word, above: Stack, a: int, e: Input)
    ensures var x := Run(k, FRAME_SETUP, Cpu(r, flags, Cell(a, above)), e);
            && x.acc == [] && x.s.stk == Onto([JunkA(Later(Later(e))), JunkB(Later(Later(e))), r.rbp], Cell(a, above))
            && x.s.r == r.(rbp := r.rsp - 8, rsp := r.rsp - 24) && x.s.flags == JunkC(Later(Later(e)))
  {
    var ja, jb := JunkA(Later(Later(e))), JunkB(Later(Later(e)));
    var cells, up := [ja, jb, r.rbp], Cell(a, above);
    assert cells[1..] == [jb, r.rbp] && cells[1..][1..] == [r.rbp] && cells[1..][1..][1..] == [];
    assert Onto(cells[1..][1..], up) == Cell(r.rbp, up);
    assert Onto(cells[1..], up) == Cell(jb, Cell(r.rbp, up));
  }
}
