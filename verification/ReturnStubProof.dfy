/** The return stub's code carries out the return automaton of the protocol, access by access, and
    resumes the program at the popped address with every register but r11 as the probed function
    left it. */
module ReturnStubProof {
  import opened X86
  import opened Stubs
  import opened StubRuns
  import opened ReturnStubRuns
  import opened StubMachine
  import P = Protocol
  import L = Layout

  /** The processor as the probed function returned; the return instruction has popped its cell. */
  datatype Frame = Frame(r: Regs, flags: X86.Word, above: Stack)

  function Enters(f: Frame): Cpu
  {
    Cpu(f.r, f.flags, f.above)
  }

  /** As the stub leaves it: r11, which a call may destroy, holds the address resumed at. */
  function Leaves(f: Frame, a: int): Cpu
  {
    Cpu(f.r.(r11 := a), f.flags, f.above)
  }

  predicate Unsaved(f: Frame, s: Cpu)
  {
    s.r.rbp == f.r.rbp && s.r.r13 == f.r.r13 && s.r.r14 == f.r.r14 && s.r.r15 == f.r.r15
  }

  predicate Kept(f: Frame, r11: int, s: Cpu)
  {
    s.stk == OnReturn(f.r, r11, f.flags, f.above) && s.r.rsp == f.r.rsp - 96 && Unsaved(f, s)
  }

  /** The same below two more cells, the timespec. */
  predicate Kept2(f: Frame, r11: int, s: Cpu)
  {
    && s.stk.Cell? && s.stk.up.Cell? && s.stk.up.up == OnReturn(f.r, r11, f.flags, f.above)
    && s.r.rsp == f.r.rsp - 112 && Unsaved(f, s)
  }

  lemma SavedResult(f: Frame, r11: int)
    ensures Peek(OnReturn(f.r, r11, f.flags, f.above), 10) == f.r.rax
  {
  }

  /** The processor at the start of block `b` when the automaton is at `o`. */
  ghost predicate Corr(p: Probe, f: Frame, b: nat, o: P.ReturnOutcome, s: Cpu)
  {
    && (o.Trap? ==> b == R_FALLBACK)
    && (o.Resume? ==> b == 26 && Kept(f, o.a, s))
    && (o.Go? ==>
          var r := o.r; var at := r.at;
          && (b < 26 || b == R_NEXT_AT) && r.retval == f.r.rax
          && (b == 0 ==> at.RTid? && s == Enters(f))
          && (0 < b <= 8 || b == 27 ==> Kept(f, f.r.r11, s))
          && (8 < b < 26 && b != 23 ==> Kept(f, r.a, s))
          && (b == 23 ==> Kept2(f, r.a, s))
          && (b == 1 ==> at.RScan? && r.idx == 0 && s.r.rax == r.tid)
          && (2 <= b <= 4 || b == 27 ==> at.RScan? && s.r.r8 == r.tid)
          && (1 <= b <= 5 || b == 27 ==> r.tid < P.TWO32 && s.r.r10 == L.ShadowAddr(p.base))
          && (b == 2 || b == 3 ==> s.r.rbx == r.idx <= 256)
          && (b == 4 || b == 27 ==> s.r.rbx + 1 == r.idx <= 256)
          && (b == 3 ==> r.idx < 256)
          && (5 <= b <= 8 ==> r.idx < 256 && s.r.r11 == SlotAddr(p, r.idx))
          && (b == 5 ==> at.RDepth?)
          && (b == 6 ==> at.RPop? && s.r.rcx == r.d + 1)
          && (b > 5 && b != 27 ==> r.d + 1 < P.TWO32)
          && (b == 7 ==> at.RLoadRet?)
          && (b == 7 || b == 8 ==> s.r.rcx == r.d)
          && (b == 8 ==> at.RLoadBuf? && s.r.rdx == r.a)
          && (9 <= b < 26 ==> r.idx < 256 && s.r.rbx == SlotAddr(p, r.idx) && s.r.r12 == r.d)
          && (b == 9 ==> at.RReserve? && s.r.r10 == L.EventsAddr(p.base))
          && (10 <= b < 26 ==> r.i < 4096 && s.r.r8 == RingAddr(p, r.i))
          && (b == 10 ==> at.RPid?)
          && (b == 11 ==> at.RLoadTid?)
          && (b == 12 ==> at.RPutTid? && s.r.rdx == r.v < P.TWO32)
          && (b == 13 ==> at.RProbe?)
          && (b == 14 ==> at.RKind?)
          && (15 <= b <= 20 ==> at.RArg? && r.j == b - 15)
          && (b == 21 ==> at.RRetval?)
          && (b == 22 ==> at.RClock?)
          && (b == 23 ==> at.RTs? && s.stk.v >= 0 && s.stk.up.v >= 0 && Nanos(s.stk.v, s.stk.up.v) == r.ts)
          && (b == 24 ==> at.RLoadTs?)
          && (b == 24 || b == 25 ==> s.r.rax == r.ts)
          && (b == 25 ==> at.RDuration? && s.r.rdx == r.v))
  }

  /** Blocks that touch nothing shared: the automaton waits. */
  predicate Waits(b: nat, r: P.Return)
  {
    b in {1, 4, 27} || (b == 2 && r.idx < 256)
  }

  /** One block against the automaton. */
  ghost predicate BlockOk(p: Probe, f: Frame, b: nat, r: P.Return, s: Cpu, inp: Input)
  {
    var out := RunBlock(ConstsOf(p), ReturnBlock(b), b, s, inp);
    var a := P.ReturnRequest(ConfigOf(p), r);
    && out.to.At?
    && (Waits(b, r) ==> out.acc == [] && Corr(p, f, out.to.b, P.Go(r), out.s))
    && (!Waits(b, r) ==>
          out.acc == Accesses(p, a) && Corr(p, f, out.to.b, P.ReturnNext(r, Answer(a, inp)), out.s))
  }

  ghost predicate BlockPre(p: Probe, f: Frame, b: nat, r: P.Return, s: Cpu, inp: Input)
  {
    && ValidProbe(p) && Corr(p, f, b, P.Go(r), s)
    && Installed(p, P.ReturnRequest(ConfigOf(p), r), inp)
  }

  lemma Block0(p: Probe, f: Frame, r: P.Return, s: Cpu, inp: Input)
    requires BlockPre(p, f, 0, r, s, inp)
    ensures BlockOk(p, f, 0, r, s, inp)
  {
    hide Run, Exec, MkFlags, ZF, CF;
    var k := ConstsOf(p);
    RunReturnPrologue(k, s, inp);
  }

  lemma Block1(p: Probe, f: Frame, r: P.Return, s: Cpu, inp: Input)
    requires BlockPre(p, f, 1, r, s, inp)
    ensures BlockOk(p, f, 1, r, s, inp)
  {
    hide Run, Exec, MkFlags, ZF, CF, OnReturn;
    var k := ConstsOf(p);
    RunIndex0(k, s, inp);
  }

  lemma Block2(p: Probe, f: Frame, r: P.Return, s: Cpu, inp: Input)
    requires BlockPre(p, f, 2, r, s, inp)
    ensures BlockOk(p, f, 2, r, s, inp)
  {
    hide Run, Exec, MkFlags, ZF, CF, OnReturn;
    var k := ConstsOf(p);
    RunBound(k, s, inp);
  }

  lemma Block3(p: Probe, f: Frame, r: P.Return, s: Cpu, inp: Input)
    requires BlockPre(p, f, 3, r, s, inp)
    ensures BlockOk(p, f, 3, r, s, inp)
  {
    hide Run, Exec, MkFlags, ZF, CF, OnReturn;
    var k := ConstsOf(p);
    RunReturnLook(k, s, inp);
  }

  lemma Block4(p: Probe, f: Frame, r: P.Return, s: Cpu, inp: Input)
    requires BlockPre(p, f, 4, r, s, inp)
    ensures BlockOk(p, f, 4, r, s, inp)
  {
  }

  lemma Block5(p: Probe, f: Frame, r: P.Return, s: Cpu, inp: Input)
    requires BlockPre(p, f, 5, r, s, inp)
    ensures BlockOk(p, f, 5, r, s, inp)
  {
    hide Run, Exec, MkFlags, ZF, CF, OnReturn;
    var k := ConstsOf(p);
    RunReturnDepth(k, s, inp);
  }

  lemma Block6(p: Probe, f: Frame, r: P.Return, s: Cpu, inp: Input)
    requires BlockPre(p, f, 6, r, s, inp)
    ensures BlockOk(p, f, 6, r, s, inp)
  {
    hide Run, Exec, MkFlags, ZF, CF, OnReturn;
    var k := ConstsOf(p);
    RunPushDepth(k, s, inp);
  }

  lemma Block7(p: Probe, f: Frame, r: P.Return, s: Cpu, inp: Input)
    requires BlockPre(p, f, 7, r, s, inp)
    ensures BlockOk(p, f, 7, r, s, inp)
  {
    hide Run, Exec, MkFlags, ZF, CF, OnReturn;
    var k := ConstsOf(p);
    RunReturnLoadRet(k, s, inp);
  }

  lemma Block8(p: Probe, f: Frame, r: P.Return, s: Cpu, inp: Input)
    requires BlockPre(p, f, 8, r, s, inp)
    ensures BlockOk(p, f, 8, r, s, inp)
  {
    hide Run, Exec, MkFlags, ZF, CF;
    var k := ConstsOf(p);
    RunReturnLoadBuf(k, s, inp);
  }

  lemma Block9(p: Probe, f: Frame, r: P.Return, s: Cpu, inp: Input)
    requires BlockPre(p, f, 9, r, s, inp)
    ensures BlockOk(p, f, 9, r, s, inp)
  {
    hide Run, Exec, MkFlags, ZF, CF, OnReturn;
    var k := ConstsOf(p);
    RunReturnReserve(k, s, inp);
  }

  lemma Block10(p: Probe, f: Frame, r: P.Return, s: Cpu, inp: Input)
    requires BlockPre(p, f, 10, r, s, inp)
    ensures BlockOk(p, f, 10, r, s, inp)
  {
    hide Run, Exec, MkFlags, ZF, CF, OnReturn;
    var k := ConstsOf(p);
    RunPutImm(k, s, inp);
  }

  lemma Block11(p: Probe, f: Frame, r: P.Return, s: Cpu, inp: Input)
    requires BlockPre(p, f, 11, r, s, inp)
    ensures BlockOk(p, f, 11, r, s, inp)
  {
    hide Run, Exec, MkFlags, ZF, CF, OnReturn;
    var k := ConstsOf(p);
    RunLoadTid(k, s, inp);
  }

  lemma Block12(p: Probe, f: Frame, r: P.Return, s: Cpu, inp: Input)
    requires BlockPre(p, f, 12, r, s, inp)
    ensures BlockOk(p, f, 12, r, s, inp)
  {
    hide Run, Exec, MkFlags, ZF, CF, OnReturn;
    var k := ConstsOf(p);
    RunPutTid(k, s, inp);
  }

  lemma Block13(p: Probe, f: Frame, r: P.Return, s: Cpu, inp: Input)
    requires BlockPre(p, f, 13, r, s, inp)
    ensures BlockOk(p, f, 13, r, s, inp)
  {
    hide Run, Exec, MkFlags, ZF, CF, OnReturn;
    var k := ConstsOf(p);
    RunPutImm(k, s, inp);
  }

  lemma Block14(p: Probe, f: Frame, r: P.Return, s: Cpu, inp: Input)
    requires BlockPre(p, f, 14, r, s, inp)
    ensures BlockOk(p, f, 14, r, s, inp)
  {
    hide Run, Exec, MkFlags, ZF, CF, OnReturn;
    var k := ConstsOf(p);
    RunPutImm(k, s, inp);
  }

  lemma Block15(p: Probe, f: Frame, r: P.Return, s: Cpu, inp: Input)
    requires BlockPre(p, f, 15, r, s, inp)
    ensures BlockOk(p, f, 15, r, s, inp)
  {
    hide Run, Exec, MkFlags, ZF, CF, OnReturn;
    var k := ConstsOf(p);
    RunReturnArgs(k, s, inp);
  }

  lemma Block16(p: Probe, f: Frame, r: P.Return, s: Cpu, inp: Input)
    requires BlockPre(p, f, 16, r, s, inp)
    ensures BlockOk(p, f, 16, r, s, inp)
  {
    hide Run, Exec, MkFlags, ZF, CF, OnReturn;
    var k := ConstsOf(p);
    RunReturnArgs(k, s, inp);
  }

  lemma Block17(p: Probe, f: Frame, r: P.Return, s: Cpu, inp: Input)
    requires BlockPre(p, f, 17, r, s, inp)
    ensures BlockOk(p, f, 17, r, s, inp)
  {
    hide Run, Exec, MkFlags, ZF, CF, OnReturn;
    var k := ConstsOf(p);
    RunReturnArgs(k, s, inp);
  }

  lemma Block18(p: Probe, f: Frame, r: P.Return, s: Cpu, inp: Input)
    requires BlockPre(p, f, 18, r, s, inp)
    ensures BlockOk(p, f, 18, r, s, inp)
  {
    hide Run, Exec, MkFlags, ZF, CF, OnReturn;
    var k := ConstsOf(p);
    RunReturnArgs(k, s, inp);
  }

  lemma Block19(p: Probe, f: Frame, r: P.Return, s: Cpu, inp: Input)
    requires BlockPre(p, f, 19, r, s, inp)
    ensures BlockOk(p, f, 19, r, s, inp)
  {
    hide Run, Exec, MkFlags, ZF, CF, OnReturn;
    var k := ConstsOf(p);
    RunReturnArgs(k, s, inp);
  }

  lemma Block20(p: Probe, f: Frame, r: P.Return, s: Cpu, inp: Input)
    requires BlockPre(p, f, 20, r, s, inp)
    ensures BlockOk(p, f, 20, r, s, inp)
  {
    hide Run, Exec, MkFlags, ZF, CF, OnReturn;
    var k := ConstsOf(p);
    RunReturnArgs(k, s, inp);
  }

  lemma Block21(p: Probe, f: Frame, r: P.Return, s: Cpu, inp: Input)
    requires BlockPre(p, f, 21, r, s, inp)
    ensures BlockOk(p, f, 21, r, s, inp)
  {
    hide Run, Exec, MkFlags, ZF, CF, OnReturn;
    var k := ConstsOf(p);
    RunReturnRetval(k, s, inp);
    SavedResult(f, r.a);
  }

  lemma Block22(p: Probe, f: Frame, r: P.Return, s: Cpu, inp: Input)
    requires BlockPre(p, f, 22, r, s, inp)
    ensures BlockOk(p, f, 22, r, s, inp)
  {
    hide Run, Exec, MkFlags, ZF, CF, OnReturn;
    var k := ConstsOf(p);
    RunReturnClock(k, s, inp);
  }

  lemma Block23(p: Probe, f: Frame, r: P.Return, s: Cpu, inp: Input)
    requires BlockPre(p, f, 23, r, s, inp)
    ensures BlockOk(p, f, 23, r, s, inp)
  {
    hide Run, Exec, MkFlags, ZF, CF, OnReturn;
    var k := ConstsOf(p);
    RunReturnTs(k, s, inp);
  }

  lemma Block24(p: Probe, f: Frame, r: P.Return, s: Cpu, inp: Input)
    requires BlockPre(p, f, 24, r, s, inp)
    ensures BlockOk(p, f, 24, r, s, inp)
  {
    hide Run, Exec, MkFlags, ZF, CF, OnReturn;
    var k := ConstsOf(p);
    RunReturnLoadTs(k, s, inp);
  }

  lemma Block25(p: Probe, f: Frame, r: P.Return, s: Cpu, inp: Input)
    requires BlockPre(p, f, 25, r, s, inp)
    ensures BlockOk(p, f, 25, r, s, inp)
  {
    hide Run, Exec, MkFlags, ZF, CF, OnReturn;
    var k := ConstsOf(p);
    RunReturnDuration(k, s, inp);
  }

  lemma Block27(p: Probe, f: Frame, r: P.Return, s: Cpu, inp: Input)
    requires BlockPre(p, f, 27, r, s, inp)
    ensures BlockOk(p, f, 27, r, s, inp)
  {
    hide Run, Exec, MkFlags, ZF, CF, OnReturn;
    var k := ConstsOf(p);
    RunNext(k, s, inp);
  }

  /** One block: it makes the access the automaton asks for, or none at all while the automaton waits. */
  lemma BlockStep(p: Probe, f: Frame, b: nat, r: P.Return, s: Cpu, inp: Input)
    requires BlockPre(p, f, b, r, s, inp)
    ensures BlockOk(p, f, b, r, s, inp)
  {
    hide BlockOk, RunBlock, ReturnBlock;
    if b == 0 { Block0(p, f, r, s, inp); }
    else if b == 1 { Block1(p, f, r, s, inp); }
    else if b == 2 { Block2(p, f, r, s, inp); }
    else if b == 3 { Block3(p, f, r, s, inp); }
    else if b == 4 { Block4(p, f, r, s, inp); }
    else if b == 5 { Block5(p, f, r, s, inp); }
    else if b == 6 { Block6(p, f, r, s, inp); }
    else if b == 7 { Block7(p, f, r, s, inp); }
    else if b == 8 { Block8(p, f, r, s, inp); }
    else if b == 9 { Block9(p, f, r, s, inp); }
    else if b == 10 { Block10(p, f, r, s, inp); }
    else if b == 11 { Block11(p, f, r, s, inp); }
    else if b == 12 { Block12(p, f, r, s, inp); }
    else if b == 13 { Block13(p, f, r, s, inp); }
    else if b == 14 { Block14(p, f, r, s, inp); }
    else if b == 15 { Block15(p, f, r, s, inp); }
    else if b == 16 { Block16(p, f, r, s, inp); }
    else if b == 17 { Block17(p, f, r, s, inp); }
    else if b == 18 { Block18(p, f, r, s, inp); }
    else if b == 19 { Block19(p, f, r, s, inp); }
    else if b == 20 { Block20(p, f, r, s, inp); }
    else if b == 21 { Block21(p, f, r, s, inp); }
    else if b == 22 { Block22(p, f, r, s, inp); }
    else if b == 23 { Block23(p, f, r, s, inp); }
    else if b == 24 { Block24(p, f, r, s, inp); }
    else if b == 25 { Block25(p, f, r, s, inp); }
    else if b == 27 { Block27(p, f, r, s, inp); }
  }

  // ---------------------------------------------------------------- termination

  /** An upper bound on the blocks still to run. */
  function BlocksLeft(o: P.ReturnOutcome, b: nat): int
  {
    if !o.Go? then 1
    else if b < 2 then 1100 - b
    else if 5 <= b < 26 then 30 - b
    else 4 * (256 - o.r.idx) + (if b == 2 then 30 else if b == 3 then 29 else if b == 4 then 32 else 31)
  }

  lemma SomeLeft(p: Probe, f: Frame, b: nat, o: P.ReturnOutcome, s: Cpu)
    requires Corr(p, f, b, o, s)
    ensures BlocksLeft(o, b) > 0
  {
    hide Kept, Kept2, Enters;
  }

  lemma BlockNearer(p: Probe, f: Frame, b: nat, r: P.Return, s: Cpu, inp: Input)
    requires Corr(p, f, b, P.Go(r), s) && BlockOk(p, f, b, r, s, inp)
    ensures var out := RunBlock(ConstsOf(p), ReturnBlock(b), b, s, inp);
            var a := P.ReturnRequest(ConfigOf(p), r);
            var next := if Waits(b, r) then P.Go(r) else P.ReturnNext(r, Answer(a, inp));
            BlocksLeft(next, out.to.b) < BlocksLeft(P.Go(r), b)
  {
    hide Run, Exec, Append, Kept, Kept2, Enters;
    var out := RunBlock(ConstsOf(p), ReturnBlock(b), b, s, inp);
    assert Leads(ReturnBlock(b).term, b, out.to);
  }

  // ---------------------------------------------------------------- whole runs

  /** The automaton on its own: the accesses it makes when they are answered by `replies`, and where it
      then stands. */
  datatype Auto = Auto(acc: seq<Access>, o: P.ReturnOutcome)

  function AutoRun(p: Probe, o: P.ReturnOutcome, replies: seq<X86.Word>): Auto
    decreases |replies|
  {
    if !o.Go? then Auto([], o) else
    var a := P.ReturnRequest(ConfigOf(p), o.r);
    if Silent(a) then Auto([], P.ReturnNext(o.r, 0))
    else if replies == [] then Auto([], o) else
    var y := AutoRun(p, P.ReturnNext(o.r, replies[0]), replies[1..]);
    Auto(Accesses(p, a) + y.acc, y.o)
  }

  lemma SilentIsLast(c: P.Config, r: P.Return, resp: X86.Word)
    requires Silent(P.ReturnRequest(c, r))
    ensures P.ReturnNext(r, resp).Trap?
  {
  }

  ghost predicate RanOk(p: Probe, f: Frame, o: P.ReturnOutcome, out: Ran)
  {
    var a := AutoRun(p, o, out.replies);
    && out.acc == a.acc && |out.replies| == |out.acc|
    && (out.to.Undefined? ==> a.o.Trap?)
    && (out.to.Landed? ==> a.o.Resume? && a.o.a == out.to.addr && out.s == Leaves(f, out.to.addr))
  }

  /** The only block that loads the buffer pointer. */
  lemma InstalledHere(p: Probe, f: Frame, b: nat, r: P.Return, s: Cpu, inps: seq<Input>)
    requires ValidProbe(p) && Corr(p, f, b, P.Go(r), s) && inps != []
    requires ReadsInstalled(p, ReturnStub(), b, s, inps)
    ensures Installed(p, P.ReturnRequest(ConfigOf(p), r), inps[0])
  {
    hide Run, Exec;
    if b == 8 {
      RunReturnLoadBuf(ConstsOf(p), s, inps[0]);
    }
  }

  lemma {:induction false} RunOk(p: Probe, f: Frame, b: nat, o: P.ReturnOutcome, s: Cpu, inps: seq<Input>)
    requires ValidProbe(p) && Corr(p, f, b, o, s)
    requires ReadsInstalled(p, ReturnStub(), b, s, inps)
    ensures RanOk(p, f, o, RunStub(ConstsOf(p), ReturnStub(), b, s, inps))
    ensures |inps| >= BlocksLeft(o, b) ==> !RunStub(ConstsOf(p), ReturnStub(), b, s, inps).to.At?
    decreases |inps|
  {
    hide Corr, ReturnBlock, RunBlock, Leaves, BlocksLeft;
    SomeLeft(p, f, b, o, s);
    if inps != [] {
      var x := RunBlock(ConstsOf(p), ReturnStub()(b), b, s, inps[0]);
      if !o.Go? {
        LeaveOk(p, f, b, o, s, inps);
      } else {
        InstalledHere(p, f, b, o.r, s, inps);
        BlockStep(p, f, b, o.r, s, inps[0]);
        BlockNearer(p, f, b, o.r, s, inps[0]);
        if Waits(b, o.r) {
          RunOk(p, f, x.to.b, o, x.s, inps[1..]);
          RunGoesOn(ConstsOf(p), ReturnStub(), b, s, inps);
        } else {
          StepOk(p, f, b, o.r, s, inps);
        }
      }
    }
  }

  /** The last block: the epilogue and the jump, or the undefined instruction. */
  lemma LeaveOk(p: Probe, f: Frame, b: nat, o: P.ReturnOutcome, s: Cpu, inps: seq<Input>)
    requires Corr(p, f, b, o, s) && inps != [] && !o.Go?
    ensures RanOk(p, f, o, RunStub(ConstsOf(p), ReturnStub(), b, s, inps))
    ensures !RunStub(ConstsOf(p), ReturnStub(), b, s, inps).to.At?
  {
    hide Run, Append, OnReturn;
    var k, e := ConstsOf(p), inps[0];
    if o.Resume? {
      RunReturnEpilogue(k, s, e, f.r, o.a, f.flags, f.above);
      assert RunBlock(k, ReturnBlock(26), 26, s, e) == Out(Leaves(f, o.a), [], Landed(o.a));
      assert RunStub(k, ReturnStub(), b, s, inps) == Ran(Leaves(f, o.a), [], [], Landed(o.a));
    } else {
      EmptyRun(k, s, e);
      assert RunStub(k, ReturnStub(), b, s, inps) == Ran(s, [], [], Undefined);
    }
  }

  lemma EmptyRun(k: Consts, s: Cpu, e: Input)
    ensures Run(k, End, s, e) == Effect(s, [])
  {
  }

  lemma StepOk(p: Probe, f: Frame, b: nat, r: P.Return, s: Cpu, inps: seq<Input>)
    requires ValidProbe(p) && inps != [] && !Waits(b, r)
    requires Corr(p, f, b, P.Go(r), s) && BlockOk(p, f, b, r, s, inps[0])
    requires ReadsInstalled(p, ReturnStub(), b, s, inps)
    ensures RanOk(p, f, P.Go(r), RunStub(ConstsOf(p), ReturnStub(), b, s, inps))
    ensures |inps| >= BlocksLeft(P.Go(r), b) ==> !RunStub(ConstsOf(p), ReturnStub(), b, s, inps).to.At?
    decreases |inps|, 0
  {
    hide ReturnBlock, RunBlock, Leaves, Corr, BlocksLeft, Answer, Accesses, ConstsOf, ConfigOf;
    hide P.ReturnNext, P.ReturnRequest, ValidProbe, Waits, RunStub;
    var x := RunBlock(ConstsOf(p), ReturnStub()(b), b, s, inps[0]);
    RunGoesOn(ConstsOf(p), ReturnStub(), b, s, inps);
    var a := P.ReturnRequest(ConfigOf(p), r);
    BlockNearer(p, f, b, r, s, inps[0]);
    RunOk(p, f, x.to.b, P.ReturnNext(r, Answer(a, inps[0])), x.s, inps[1..]);
    var y := RunStub(ConstsOf(p), ReturnStub(), x.to.b, x.s, inps[1..]);
    ReplyIsAnswer(p, a, inps[0]);
    if Silent(a) {
      SilentIsLast(ConfigOf(p), r, Answer(a, inps[0]));
      SilentIsLast(ConfigOf(p), r, 0);
    } else {
      var out := RunStub(ConstsOf(p), ReturnStub(), b, s, inps);
      assert out.replies == [Answer(a, inps[0])] + y.replies;
      assert out.replies[1..] == y.replies;
    }
  }

  /** The return stub from its first instruction, for every start state and whatever the environment
      answers: its accesses are those of the protocol's automaton for the result in rax; within 1100
      blocks it either meets the undefined instruction, just when the automaton traps, or is at the
      address that the automaton resumes at, with the flags, the stack and every register but r11 as
      the probed function left them. */
  lemma ReturnStubIsTheAutomaton(p: Probe, f: Frame, inps: seq<Input>)
    requires ValidProbe(p) && f.r.rax >= 0
    requires ReadsInstalled(p, ReturnStub(), 0, Enters(f), inps)
    ensures RanOk(p, f, P.Go(P.StartReturn(f.r.rax)), RunStub(ConstsOf(p), ReturnStub(), 0, Enters(f), inps))
    ensures |inps| >= 1100 ==> !RunStub(ConstsOf(p), ReturnStub(), 0, Enters(f), inps).to.At?
  {
    RunOk(p, f, 0, P.Go(P.StartReturn(f.r.rax)), Enters(f), inps);
  }
}
