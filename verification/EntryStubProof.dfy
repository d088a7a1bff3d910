/** The entry stub's code carries out the entry automaton of the protocol, access by access, and hands
    the trampoline the caller's registers, flags and stack. */
module EntryStubProof {
  import opened Wrappers
  import opened X86
  import opened Stubs
  import opened StubRuns
  import opened StubMachine
  import Protocol
  import L = Layout

  /** The processor as the probed function was called: the return cell is kept apart from the stack
      above it. */
  datatype Frame = Frame(r: Regs, flags: X86.Word, above: Stack)

  /** The six integer arguments, after section 3.2.3 of the System V AMD64 ABI. */
  function ArgsOf(f: Frame): seq<int>
  {
    [f.r.rdi, f.r.rsi, f.r.rdx, f.r.rcx, f.r.r8, f.r.r9]
  }

  predicate Untouched(f: Frame, cell: int, s: Cpu)
  {
    s == Cpu(f.r, f.flags, Cell(cell, f.above))
  }

  predicate Stacked(f: Frame, cell: int, s: Cpu)
  {
    s.stk == OnAll(f.r, f.flags, Cell(cell, f.above)) && s.r.rsp == f.r.rsp - 128
  }

  /** The same below two more cells, the timespec. */
  predicate Stacked2(f: Frame, cell: int, s: Cpu)
  {
    && s.stk.Cell? && s.stk.up.Cell? && s.stk.up.up == OnAll(f.r, f.flags, Cell(cell, f.above))
    && s.r.rsp == f.r.rsp - 144
  }

  lemma SavedArgs(f: Frame, rest: Stack)
    ensures var k := OnAll(f.r, f.flags, rest);
            && Peek(k, 9) == f.r.rdi && Peek(k, 10) == f.r.rsi && Peek(k, 11) == f.r.rdx
            && Peek(k, 12) == f.r.rcx && Peek(k, 7) == f.r.r8 && Peek(k, 6) == f.r.r9
  {
  }

  lemma SavedCell(f: Frame, cell: int, v: int)
    ensures Peek(OnAll(f.r, f.flags, Cell(cell, f.above)), 16) == cell
    ensures Poke(OnAll(f.r, f.flags, Cell(cell, f.above)), 16, v) == OnAll(f.r, f.flags, Cell(v, f.above))
  {
    var low := Cell(f.r.rbp, OnLow(f.r, f.flags, Cell(cell, f.above)));
    var low' := Cell(f.r.rbp, OnLow(f.r, f.flags, Cell(v, f.above)));
    assert Peek(low, 8) == cell && Poke(low, 8, v) == low';
    assert Peek(OnAll(f.r, f.flags, Cell(cell, f.above)), 16) == Peek(low, 8);
    assert Poke(OnHigh(f.r, OnMid(f.r, low)), 16, v) == OnHigh(f.r, OnMid(f.r, Poke(low, 8, v)));
  }

  /** The processor at the start of block `b` when the automaton is at `e`, or has left. */
  ghost predicate Corr(p: Probe, f: Frame, cell: int, b: nat, oe: Option<Protocol.Entry>, s: Cpu)
  {
    var rb := s.r.rbx;
    && b < ENTRY_BLOCKS
    && (oe.None? ==> b >= 18)
    && (oe.None? && b < EXIT ==> !p.hasRet && Stacked(f, cell, s))
    && (oe.None? && b == EXIT ==> Stacked(f, cell, s))
    && (oe.None? && b == 37 ==> Untouched(f, cell, s))
    && (oe.Some? ==>
          var e := oe.value; var at := e.at;
          && b < EXIT && e.args == ArgsOf(f)
          && (b == 0 ==> at.Check? && Untouched(f, cell, s))
          && (0 < b < 13 || b > 16 ==> Stacked(f, cell, s))
          && (13 <= b <= 16 ==> Stacked2(f, cell, s))
          && (b == 1 ==> at.LoadBuf? && s.r.r10 == L.ConfigAddr(p.base))
          && (b == 2 ==> at.Reserve? && s.r.r11 == L.EventsAddr(p.base))
          && (b > 2 ==> e.i < 4096 && s.r.r8 == RingAddr(p, e.i))
          && (b == 3 ==> at.PutPid?)
          && (b == 4 ==> at.PutProbe?)
          && (b == 5 ==> at.PutKind?)
          && (6 <= b <= 11 ==> at.PutArg? && e.j == b - 6)
          && (b == 12 ==> at.AskTid?)
          && (b == 13 ==> at.PutTid? && s.r.rax == e.v < Protocol.TWO32)
          && (b == 14 ==> at.AskClock?)
          && (b == 15 ==> at.PutTs? && s.stk.v >= 0 && s.stk.up.v >= 0 && Nanos(s.stk.v, s.stk.up.v) == e.ts)
          && (b == 16 ==> at.PutRetval?)
          && (b == 17 ==> at.PutDuration?)
          && (b >= 18 ==> p.hasRet)
          && (b in {18, 19, 20, 21, 23, 27, 35} ==> at.Scan?)
          && (b == 18 || b == 19 ==> e.idx == 0)
          && (b >= 19 ==> s.r.r9 == L.ShadowAddr(p.base))
          && (b in {20, 21, 22, 24, 25, 26} ==> rb == e.idx <= 256)
          && (b in {23, 27, 35} ==> rb + 1 == e.idx <= 256)
          && (b in {21, 22, 24, 25, 26} ==> e.idx < 256)
          && (b in {22, 24, 25, 26} || 28 <= b <= 34 ==> e.idx < 256 && s.r.r11 == SlotAddr(p, e.idx))
          && (b == 22 ==> at.CmpTid? && s.r.rcx == e.v < Protocol.TWO32)
          && (b == 24 ==> at.LoadTid?)
          && (b == 25 ==> at.Claim? && s.r.rax == 0 && s.r.rdx == e.v < Protocol.TWO32)
          && (b == 26 ==> at.CmpRace? && s.r.rax == e.v < Protocol.TWO32)
          && (b == 28 ==> at.Found?)
          && (b == 29 ==> at.LoadDepth?)
          && (30 <= b <= 33 ==> s.r.rcx == e.d < 64)
          && (b == 30 ==> at.SaveRet?)
          && (b == 31 ==> at.LoadTs?)
          && (b == 32 ==> at.SaveTs? && s.r.rdx == e.v)
          && (b == 33 ==> at.PushDepth?)
          && (b == 34 ==> at.Swap?))
  }

  /** Blocks that touch nothing shared: the automaton waits. */
  predicate Waits(b: nat, e: Protocol.Entry)
  {
    b in {18, 19, 23, 27, 35} || (b == 20 && e.idx < 256)
  }

  /** One block against the automaton. */
  ghost predicate BlockOk(p: Probe, f: Frame, cell: int, b: nat, e: Protocol.Entry, s: Cpu, inp: Input)
    requires cell >= 0
  {
    var out := RunBlock(ConstsOf(p), EntryBlock(p.hasRet, b), b, s, inp);
    var a := Protocol.EntryRequest(ConfigOf(p), e, cell);
    && out.to.At?
    && (Waits(b, e) ==> out.acc == [] && Corr(p, f, cell, out.to.b, Some(e), out.s))
    && (!Waits(b, e) ==>
          && out.acc == Accesses(p, a)
          && Corr(p, f, if a.Hook? then L.ReturnStubAddr(p.base) else cell, out.to.b,
                  Protocol.EntryNext(ConfigOf(p), e, Answer(a, inp)), out.s))
  }

  ghost predicate BlockPre(p: Probe, f: Frame, cell: int, b: nat, e: Protocol.Entry, s: Cpu, inp: Input)
  {
    && ValidProbe(p) && cell >= 0 && Corr(p, f, cell, b, Some(e), s)
    && Installed(p, Protocol.EntryRequest(ConfigOf(p), e, cell), inp)
  }

  lemma RunReserve(k: Consts, s: Cpu, e: Input)
    ensures var y := Run(k, Append(TICKET, Append(SCALE, EVENT)), s, e); var i := W64(e.v) % 4096;
            && y.acc == [Xadd(W64(s.r.r11), 1)] && y.s.stk == s.stk
            && y.s.r == s.r.(rax := i, r8 := W64(s.r.r11 + 88 * i + 16), r9 := W64(Scale(i, 3)))
  {
    hide Run, Append, Scale, Behind;
    RunAppend(k, TICKET, Append(SCALE, EVENT), s, e);
    RunTicket(k, s, e);
    var s1, e1 := Run(k, TICKET, s, e).s, Behind(TICKET, e);
    RunAppend(k, SCALE, EVENT, s1, e1);
    RunScale(k, s1, e1);
    ScaledTicket(s1.r.rax);
    RunEvent(k, Run(k, SCALE, s1, e1).s, Behind(SCALE, e1));
  }

  lemma Block0(p: Probe, f: Frame, cell: int, e: Protocol.Entry, s: Cpu, inp: Input)
    requires BlockPre(p, f, cell, 0, e, s, inp)
    ensures BlockOk(p, f, cell, 0, e, s, inp)
  {
    hide Run, Exec, MkFlags, ZF, CF, Behind;
    var k := ConstsOf(p);
    RunAppend(k, PUSH_ALL, CHECK, s, inp);
    RunPushAll(k, s, inp);
    RunCheck(k, Run(k, PUSH_ALL, s, inp).s, Behind(PUSH_ALL, inp));
  }

  lemma Block1(p: Probe, f: Frame, cell: int, e: Protocol.Entry, s: Cpu, inp: Input)
    requires BlockPre(p, f, cell, 1, e, s, inp)
    ensures BlockOk(p, f, cell, 1, e, s, inp)
  {
    hide Run, Exec, MkFlags, ZF, CF;
    var k := ConstsOf(p);
    RunLoadBuf(k, s, inp);
  }

  lemma Block2(p: Probe, f: Frame, cell: int, e: Protocol.Entry, s: Cpu, inp: Input)
    requires BlockPre(p, f, cell, 2, e, s, inp)
    ensures BlockOk(p, f, cell, 2, e, s, inp)
  {
    hide Run, Exec, MkFlags, ZF, CF;
    var k := ConstsOf(p);
    RunReserve(k, s, inp);
  }

  lemma Block3(p: Probe, f: Frame, cell: int, e: Protocol.Entry, s: Cpu, inp: Input)
    requires BlockPre(p, f, cell, 3, e, s, inp)
    ensures BlockOk(p, f, cell, 3, e, s, inp)
  {
    hide Run, Exec, MkFlags, ZF, CF;
    var k := ConstsOf(p);
    RunPutImm(k, s, inp);
  }

  lemma Block4(p: Probe, f: Frame, cell: int, e: Protocol.Entry, s: Cpu, inp: Input)
    requires BlockPre(p, f, cell, 4, e, s, inp)
    ensures BlockOk(p, f, cell, 4, e, s, inp)
  {
    hide Run, Exec, MkFlags, ZF, CF;
    var k := ConstsOf(p);
    RunPutImm(k, s, inp);
  }

  lemma Block5(p: Probe, f: Frame, cell: int, e: Protocol.Entry, s: Cpu, inp: Input)
    requires BlockPre(p, f, cell, 5, e, s, inp)
    ensures BlockOk(p, f, cell, 5, e, s, inp)
  {
    hide Run, Exec, MkFlags, ZF, CF;
    var k := ConstsOf(p);
    RunPutImm(k, s, inp);
  }

  lemma Block6(p: Probe, f: Frame, cell: int, e: Protocol.Entry, s: Cpu, inp: Input)
    requires BlockPre(p, f, cell, 6, e, s, inp)
    ensures BlockOk(p, f, cell, 6, e, s, inp)
  {
    hide Run, Exec, MkFlags, ZF, CF, OnAll, Peek;
    var k := ConstsOf(p);
    RunPutArgs(k, s, inp);
    SavedArgs(f, Cell(cell, f.above));
  }

  lemma Block7(p: Probe, f: Frame, cell: int, e: Protocol.Entry, s: Cpu, inp: Input)
    requires BlockPre(p, f, cell, 7, e, s, inp)
    ensures BlockOk(p, f, cell, 7, e, s, inp)
  {
    hide Run, Exec, MkFlags, ZF, CF, OnAll, Peek;
    var k := ConstsOf(p);
    RunPutArgs(k, s, inp);
    SavedArgs(f, Cell(cell, f.above));
  }

  lemma Block8(p: Probe, f: Frame, cell: int, e: Protocol.Entry, s: Cpu, inp: Input)
    requires BlockPre(p, f, cell, 8, e, s, inp)
    ensures BlockOk(p, f, cell, 8, e, s, inp)
  {
    hide Run, Exec, MkFlags, ZF, CF, OnAll, Peek;
    var k := ConstsOf(p);
    RunPutArgs(k, s, inp);
    SavedArgs(f, Cell(cell, f.above));
  }

  lemma Block9(p: Probe, f: Frame, cell: int, e: Protocol.Entry, s: Cpu, inp: Input)
    requires BlockPre(p, f, cell, 9, e, s, inp)
    ensures BlockOk(p, f, cell, 9, e, s, inp)
  {
    hide Run, Exec, MkFlags, ZF, CF, OnAll, Peek;
    var k := ConstsOf(p);
    RunPutMoreArgs(k, s, inp);
    SavedArgs(f, Cell(cell, f.above));
  }

  lemma Block10(p: Probe, f: Frame, cell: int, e: Protocol.Entry, s: Cpu, inp: Input)
    requires BlockPre(p, f, cell, 10, e, s, inp)
    ensures BlockOk(p, f, cell, 10, e, s, inp)
  {
    hide Run, Exec, MkFlags, ZF, CF, OnAll, Peek;
    var k := ConstsOf(p);
    RunPutMoreArgs(k, s, inp);
    SavedArgs(f, Cell(cell, f.above));
  }

  lemma Block11(p: Probe, f: Frame, cell: int, e: Protocol.Entry, s: Cpu, inp: Input)
    requires BlockPre(p, f, cell, 11, e, s, inp)
    ensures BlockOk(p, f, cell, 11, e, s, inp)
  {
    hide Run, Exec, MkFlags, ZF, CF, OnAll, Peek;
    var k := ConstsOf(p);
    RunPutMoreArgs(k, s, inp);
    SavedArgs(f, Cell(cell, f.above));
  }

  lemma Block12(p: Probe, f: Frame, cell: int, e: Protocol.Entry, s: Cpu, inp: Input)
    requires BlockPre(p, f, cell, 12, e, s, inp)
    ensures BlockOk(p, f, cell, 12, e, s, inp)
  {
    hide Run, Exec, MkFlags, ZF, CF;
    var k := ConstsOf(p);
    RunAskTid(k, s, inp);
  }

  lemma Block13(p: Probe, f: Frame, cell: int, e: Protocol.Entry, s: Cpu, inp: Input)
    requires BlockPre(p, f, cell, 13, e, s, inp)
    ensures BlockOk(p, f, cell, 13, e, s, inp)
  {
    hide Run, Exec, MkFlags, ZF, CF;
    var k := ConstsOf(p);
    RunPutTid(k, s, inp);
  }

  lemma Block14(p: Probe, f: Frame, cell: int, e: Protocol.Entry, s: Cpu, inp: Input)
    requires BlockPre(p, f, cell, 14, e, s, inp)
    ensures BlockOk(p, f, cell, 14, e, s, inp)
  {
    hide Run, Exec, MkFlags, ZF, CF;
    var k := ConstsOf(p);
    RunAskClock(k, s, inp);
  }

  lemma Block15(p: Probe, f: Frame, cell: int, e: Protocol.Entry, s: Cpu, inp: Input)
    requires BlockPre(p, f, cell, 15, e, s, inp)
    ensures BlockOk(p, f, cell, 15, e, s, inp)
  {
    hide Run, Exec, MkFlags, ZF, CF;
    var k := ConstsOf(p);
    RunPutTs(k, s, inp);
  }

  lemma Block16(p: Probe, f: Frame, cell: int, e: Protocol.Entry, s: Cpu, inp: Input)
    requires BlockPre(p, f, cell, 16, e, s, inp)
    ensures BlockOk(p, f, cell, 16, e, s, inp)
  {
    hide Run, Exec, MkFlags, ZF, CF;
    var k := ConstsOf(p);
    RunPutRetval(k, s, inp);
  }

  lemma Block17(p: Probe, f: Frame, cell: int, e: Protocol.Entry, s: Cpu, inp: Input)
    requires BlockPre(p, f, cell, 17, e, s, inp)
    ensures BlockOk(p, f, cell, 17, e, s, inp)
  {
    hide Run, Exec, MkFlags, ZF, CF;
    var k := ConstsOf(p);
    RunPutImm(k, s, inp);
  }

  lemma Block18(p: Probe, f: Frame, cell: int, e: Protocol.Entry, s: Cpu, inp: Input)
    requires BlockPre(p, f, cell, 18, e, s, inp)
    ensures BlockOk(p, f, cell, 18, e, s, inp)
  {
    hide Run, Exec, MkFlags, ZF, CF;
    var k := ConstsOf(p);
    RunShadow(k, s, inp);
  }

  lemma Block19(p: Probe, f: Frame, cell: int, e: Protocol.Entry, s: Cpu, inp: Input)
    requires BlockPre(p, f, cell, 19, e, s, inp)
    ensures BlockOk(p, f, cell, 19, e, s, inp)
  {
    hide Run, Exec, MkFlags, ZF, CF;
    var k := ConstsOf(p);
    RunIndex0(k, s, inp);
  }

  lemma Block20(p: Probe, f: Frame, cell: int, e: Protocol.Entry, s: Cpu, inp: Input)
    requires BlockPre(p, f, cell, 20, e, s, inp)
    ensures BlockOk(p, f, cell, 20, e, s, inp)
  {
    hide Run, Exec, MkFlags, ZF, CF;
    var k := ConstsOf(p);
    RunBound(k, s, inp);
  }

  lemma Block21(p: Probe, f: Frame, cell: int, e: Protocol.Entry, s: Cpu, inp: Input)
    requires BlockPre(p, f, cell, 21, e, s, inp)
    ensures BlockOk(p, f, cell, 21, e, s, inp)
  {
    hide Run, Exec, MkFlags, ZF, CF;
    var k := ConstsOf(p);
    RunLook(k, s, inp);
  }

  lemma Block22(p: Probe, f: Frame, cell: int, e: Protocol.Entry, s: Cpu, inp: Input)
    requires BlockPre(p, f, cell, 22, e, s, inp)
    ensures BlockOk(p, f, cell, 22, e, s, inp)
  {
    hide Run, Exec, MkFlags, ZF, CF;
    var k := ConstsOf(p);
    RunCmpTid(k, s, inp);
  }

  lemma Block23(p: Probe, f: Frame, cell: int, e: Protocol.Entry, s: Cpu, inp: Input)
    requires BlockPre(p, f, cell, 23, e, s, inp)
    ensures BlockOk(p, f, cell, 23, e, s, inp)
  {
  }

  lemma Block24(p: Probe, f: Frame, cell: int, e: Protocol.Entry, s: Cpu, inp: Input)
    requires BlockPre(p, f, cell, 24, e, s, inp)
    ensures BlockOk(p, f, cell, 24, e, s, inp)
  {
    hide Run, Exec, MkFlags, ZF, CF;
    var k := ConstsOf(p);
    RunLoadTid(k, s, inp);
  }

  lemma Block25(p: Probe, f: Frame, cell: int, e: Protocol.Entry, s: Cpu, inp: Input)
    requires BlockPre(p, f, cell, 25, e, s, inp)
    ensures BlockOk(p, f, cell, 25, e, s, inp)
  {
    hide Run, Exec, MkFlags, ZF, CF;
    var k := ConstsOf(p);
    RunClaim(k, s, inp);
  }

  lemma Block26(p: Probe, f: Frame, cell: int, e: Protocol.Entry, s: Cpu, inp: Input)
    requires BlockPre(p, f, cell, 26, e, s, inp)
    ensures BlockOk(p, f, cell, 26, e, s, inp)
  {
    hide Run, Exec, MkFlags, ZF, CF;
    var k := ConstsOf(p);
    RunCmpRace(k, s, inp);
  }

  lemma Block27(p: Probe, f: Frame, cell: int, e: Protocol.Entry, s: Cpu, inp: Input)
    requires BlockPre(p, f, cell, 27, e, s, inp)
    ensures BlockOk(p, f, cell, 27, e, s, inp)
  {
  }

  lemma Block28(p: Probe, f: Frame, cell: int, e: Protocol.Entry, s: Cpu, inp: Input)
    requires BlockPre(p, f, cell, 28, e, s, inp)
    ensures BlockOk(p, f, cell, 28, e, s, inp)
  {
    hide Run, Exec, MkFlags, ZF, CF;
    var k := ConstsOf(p);
    RunFound(k, s, inp);
  }

  lemma Block29(p: Probe, f: Frame, cell: int, e: Protocol.Entry, s: Cpu, inp: Input)
    requires BlockPre(p, f, cell, 29, e, s, inp)
    ensures BlockOk(p, f, cell, 29, e, s, inp)
  {
    hide Run, Exec, MkFlags, ZF, CF;
    var k := ConstsOf(p);
    RunLoadDepth(k, s, inp);
  }

  lemma Block30(p: Probe, f: Frame, cell: int, e: Protocol.Entry, s: Cpu, inp: Input)
    requires BlockPre(p, f, cell, 30, e, s, inp)
    ensures BlockOk(p, f, cell, 30, e, s, inp)
  {
    hide Run, Exec, MkFlags, ZF, CF;
    var k := ConstsOf(p);
    hide Peek, Poke, OnAll, Scale;
    RunSave(k, s, inp);
    SavedCell(f, cell, 0);
  }

  lemma Block31(p: Probe, f: Frame, cell: int, e: Protocol.Entry, s: Cpu, inp: Input)
    requires BlockPre(p, f, cell, 31, e, s, inp)
    ensures BlockOk(p, f, cell, 31, e, s, inp)
  {
    hide Run, Exec, MkFlags, ZF, CF;
    var k := ConstsOf(p);
    RunFound(k, s, inp);
  }

  lemma Block32(p: Probe, f: Frame, cell: int, e: Protocol.Entry, s: Cpu, inp: Input)
    requires BlockPre(p, f, cell, 32, e, s, inp)
    ensures BlockOk(p, f, cell, 32, e, s, inp)
  {
    hide Run, Exec, MkFlags, ZF, CF;
    var k := ConstsOf(p);
    hide Peek, Poke, OnAll, Scale;
    RunSave(k, s, inp);
  }

  lemma Block33(p: Probe, f: Frame, cell: int, e: Protocol.Entry, s: Cpu, inp: Input)
    requires BlockPre(p, f, cell, 33, e, s, inp)
    ensures BlockOk(p, f, cell, 33, e, s, inp)
  {
    hide Run, Exec, MkFlags, ZF, CF;
    var k := ConstsOf(p);
    RunPushDepth(k, s, inp);
  }

  lemma Block34(p: Probe, f: Frame, cell: int, e: Protocol.Entry, s: Cpu, inp: Input)
    requires BlockPre(p, f, cell, 34, e, s, inp)
    ensures BlockOk(p, f, cell, 34, e, s, inp)
  {
    hide Run, Exec, MkFlags, ZF, CF;
    var k := ConstsOf(p);
    RunHook(k, s, inp);
    SavedCell(f, cell, k.retStub);
  }

  lemma Block35(p: Probe, f: Frame, cell: int, e: Protocol.Entry, s: Cpu, inp: Input)
    requires BlockPre(p, f, cell, 35, e, s, inp)
    ensures BlockOk(p, f, cell, 35, e, s, inp)
  {
    hide Run, Exec, MkFlags, ZF, CF;
    var k := ConstsOf(p);
    RunNext(k, s, inp);
  }

  /** One block: it makes the access the automaton asks for, or none at all while the automaton waits. */
  lemma BlockStep(p: Probe, f: Frame, cell: int, b: nat, e: Protocol.Entry, s: Cpu, inp: Input)
    requires BlockPre(p, f, cell, b, e, s, inp)
    ensures BlockOk(p, f, cell, b, e, s, inp)
  {
    hide BlockOk, RunBlock, EntryBlock;
    assert b < EXIT;
    if b == 0 { Block0(p, f, cell, e, s, inp); }
    else if b == 1 { Block1(p, f, cell, e, s, inp); }
    else if b == 2 { Block2(p, f, cell, e, s, inp); }
    else if b == 3 { Block3(p, f, cell, e, s, inp); }
    else if b == 4 { Block4(p, f, cell, e, s, inp); }
    else if b == 5 { Block5(p, f, cell, e, s, inp); }
    else if b == 6 { Block6(p, f, cell, e, s, inp); }
    else if b == 7 { Block7(p, f, cell, e, s, inp); }
    else if b == 8 { Block8(p, f, cell, e, s, inp); }
    else if b == 9 { Block9(p, f, cell, e, s, inp); }
    else if b == 10 { Block10(p, f, cell, e, s, inp); }
    else if b == 11 { Block11(p, f, cell, e, s, inp); }
    else if b == 12 { Block12(p, f, cell, e, s, inp); }
    else if b == 13 { Block13(p, f, cell, e, s, inp); }
    else if b == 14 { Block14(p, f, cell, e, s, inp); }
    else if b == 15 { Block15(p, f, cell, e, s, inp); }
    else if b == 16 { Block16(p, f, cell, e, s, inp); }
    else if b == 17 { Block17(p, f, cell, e, s, inp); }
    else if b == 18 { Block18(p, f, cell, e, s, inp); }
    else if b == 19 { Block19(p, f, cell, e, s, inp); }
    else if b == 20 { Block20(p, f, cell, e, s, inp); }
    else if b == 21 { Block21(p, f, cell, e, s, inp); }
    else if b == 22 { Block22(p, f, cell, e, s, inp); }
    else if b == 23 { Block23(p, f, cell, e, s, inp); }
    else if b == 24 { Block24(p, f, cell, e, s, inp); }
    else if b == 25 { Block25(p, f, cell, e, s, inp); }
    else if b == 26 { Block26(p, f, cell, e, s, inp); }
    else if b == 27 { Block27(p, f, cell, e, s, inp); }
    else if b == 28 { Block28(p, f, cell, e, s, inp); }
    else if b == 29 { Block29(p, f, cell, e, s, inp); }
    else if b == 30 { Block30(p, f, cell, e, s, inp); }
    else if b == 31 { Block31(p, f, cell, e, s, inp); }
    else if b == 32 { Block32(p, f, cell, e, s, inp); }
    else if b == 33 { Block33(p, f, cell, e, s, inp); }
    else if b == 34 { Block34(p, f, cell, e, s, inp); }
    else if b == 35 { Block35(p, f, cell, e, s, inp); }
  }

  /** The end of the stub: the epilogue and the jump that preserves r11. */
  lemma ExitStep(p: Probe, f: Frame, cell: int, b: nat, s: Cpu, inp: Input)
    requires ValidProbe(p) && Corr(p, f, cell, b, None, s) && b < 37
    ensures var out := RunBlock(ConstsOf(p), EntryBlock(p.hasRet, b), b, s, inp);
            out.acc == [] && out.to == At(b + 1) && Corr(p, f, cell, b + 1, None, out.s)
  {
    hide Run, Exec, Append;
    if b == EXIT {
      RunPopAll(ConstsOf(p), s, inp, f.r, f.flags, Cell(cell, f.above));
    } else {
      EmptyBlock(p, b, s, inp);
    }
  }

  lemma EmptyBlock(p: Probe, b: nat, s: Cpu, inp: Input)
    requires 18 <= b < EXIT && !p.hasRet
    ensures RunBlock(ConstsOf(p), EntryBlock(p.hasRet, b), b, s, inp) == Out(s, [], At(b + 1))
  {
  }

  /** The r11-preserving absolute jump: control is at the trampoline and nothing else changed. */
  lemma AbsoluteJump(p: Probe, s: Cpu, inp: Input)
    requires ValidProbe(p)
    ensures RunBlock(ConstsOf(p), EntryBlock(p.hasRet, 37), 37, s, inp) == Out(s, [], Landed(L.TrampolineAddr(p.base)))
  {
    hide Run, Exec;
    RunAbsJump(ConstsOf(p), s, inp);
  }

  // ---------------------------------------------------------------- termination

  /** An upper bound on the blocks still to run. */
  function BlocksLeft(oe: Option<Protocol.Entry>, b: nat): int
  {
    if oe.None? || b >= EXIT then 38 - b
    else if 28 <= b <= 34 then 50 - b
    else if b < 20 then 2650 - b
    else 10 * (256 - oe.value.idx) +
         (if b == 20 then 30 else if b == 35 then 31 else if b == 23 || b == 27 then 32 else 50 - b)
  }

  lemma SomeLeft(p: Probe, f: Frame, cell: int, b: nat, oe: Option<Protocol.Entry>, s: Cpu)
    requires Corr(p, f, cell, b, oe, s)
    ensures BlocksLeft(oe, b) > 0
  {
    hide Stacked, Stacked2, Untouched;
  }

  lemma BlockNearer(p: Probe, f: Frame, cell: nat, b: nat, e: Protocol.Entry, s: Cpu, inp: Input)
    requires Corr(p, f, cell, b, Some(e), s) && BlockOk(p, f, cell, b, e, s, inp)
    ensures var out := RunBlock(ConstsOf(p), EntryBlock(p.hasRet, b), b, s, inp);
            var a := Protocol.EntryRequest(ConfigOf(p), e, cell);
            var next := if Waits(b, e) then Some(e) else Protocol.EntryNext(ConfigOf(p), e, Answer(a, inp));
            BlocksLeft(next, out.to.b) < BlocksLeft(Some(e), b)
  {
    hide Run, Exec, Append, Stacked, Stacked2, Untouched;
    var out := RunBlock(ConstsOf(p), EntryBlock(p.hasRet, b), b, s, inp);
    assert Leads(EntryBlock(p.hasRet, b).term, b, out.to);
  }

  // ---------------------------------------------------------------- whole runs

  /** The automaton on its own: the accesses it makes when they are answered by `replies`, where it
      then stands (None once it has left), and the return cell. */
  datatype Auto = Auto(acc: seq<Access>, e: Option<Protocol.Entry>, cell: nat)

  function AutoRun(p: Probe, oe: Option<Protocol.Entry>, cell: nat, replies: seq<X86.Word>): Auto
    decreases |replies|
  {
    if oe.None? then Auto([], None, cell) else
    var a := Protocol.EntryRequest(ConfigOf(p), oe.value, cell);
    if Silent(a) then Auto([], None, if a.Hook? then L.ReturnStubAddr(p.base) else cell)
    else if replies == [] then Auto([], oe, cell) else
    var y := AutoRun(p, Protocol.EntryNext(ConfigOf(p), oe.value, replies[0]), cell, replies[1..]);
    Auto(Accesses(p, a) + y.acc, y.e, y.cell)
  }

  /** A silent step is the automaton's last one. */
  lemma SilentIsLast(c: Protocol.Config, e: Protocol.Entry, cell: nat, resp: X86.Word)
    requires Silent(Protocol.EntryRequest(c, e, cell))
    ensures Protocol.EntryNext(c, e, resp).None?
  {
  }

  ghost predicate RanOk(p: Probe, f: Frame, oe: Option<Protocol.Entry>, cell: nat, out: Ran)
  {
    var a := AutoRun(p, oe, cell, out.replies);
    && out.acc == a.acc && |out.replies| == |out.acc|
    && !out.to.Undefined?
    && (out.to.Landed? ==> out.to.addr == L.TrampolineAddr(p.base) && a.e.None? && Untouched(f, a.cell, out.s))
  }

  /** The only block that loads the buffer pointer. */
  lemma InstalledHere(p: Probe, f: Frame, cell: nat, b: nat, e: Protocol.Entry, s: Cpu, inps: seq<Input>)
    requires ValidProbe(p) && Corr(p, f, cell, b, Some(e), s) && inps != []
    requires ReadsInstalled(p, EntryStub(p.hasRet), b, s, inps)
    ensures Installed(p, Protocol.EntryRequest(ConfigOf(p), e, cell), inps[0])
  {
    hide Run, Exec;
    if b == 1 {
      RunLoadBuf(ConstsOf(p), s, inps[0]);
    }
  }

  lemma {:induction false} RunOk(p: Probe, f: Frame, cell: nat, b: nat, oe: Option<Protocol.Entry>, s: Cpu,
                                 inps: seq<Input>)
    requires ValidProbe(p) && Corr(p, f, cell, b, oe, s)
    requires ReadsInstalled(p, EntryStub(p.hasRet), b, s, inps)
    ensures RanOk(p, f, oe, cell, RunStub(ConstsOf(p), EntryStub(p.hasRet), b, s, inps))
    ensures |inps| >= BlocksLeft(oe, b) ==> RunStub(ConstsOf(p), EntryStub(p.hasRet), b, s, inps).to.Landed?
    decreases |inps|
  {
    hide Corr, EntryBlock, RunBlock, Untouched, BlocksLeft;
    SomeLeft(p, f, cell, b, oe, s);
    if inps != [] {
      var x := RunBlock(ConstsOf(p), EntryStub(p.hasRet)(b), b, s, inps[0]);
      if oe.None? {
        LeaveOk(p, f, cell, b, s, inps);
      } else {
        InstalledHere(p, f, cell, b, oe.value, s, inps);
        BlockStep(p, f, cell, b, oe.value, s, inps[0]);
        BlockNearer(p, f, cell, b, oe.value, s, inps[0]);
        if Waits(b, oe.value) {
          RunOk(p, f, cell, x.to.b, oe, x.s, inps[1..]);
          RunGoesOn(ConstsOf(p), EntryStub(p.hasRet), b, s, inps);
        } else {
          StepOk(p, f, cell, b, oe.value, s, inps);
        }
      }
    }
  }

  lemma LeaveOk(p: Probe, f: Frame, cell: nat, b: nat, s: Cpu, inps: seq<Input>)
    requires ValidProbe(p) && Corr(p, f, cell, b, None, s) && inps != []
    requires ReadsInstalled(p, EntryStub(p.hasRet), b, s, inps)
    ensures RanOk(p, f, None, cell, RunStub(ConstsOf(p), EntryStub(p.hasRet), b, s, inps))
    ensures |inps| >= BlocksLeft(None, b) ==> RunStub(ConstsOf(p), EntryStub(p.hasRet), b, s, inps).to.Landed?
    decreases |inps|, 0
  {
    hide EntryBlock, RunBlock, Stacked;
    if b == 37 {
      AbsoluteJump(p, s, inps[0]);
      var y := RunBlock(ConstsOf(p), EntryStub(p.hasRet)(b), b, s, inps[0]);
      assert RunStub(ConstsOf(p), EntryStub(p.hasRet), b, s, inps) == Ran(s, [], [], Landed(L.TrampolineAddr(p.base)));
    } else {
      ExitStep(p, f, cell, b, s, inps[0]);
      var x := RunBlock(ConstsOf(p), EntryStub(p.hasRet)(b), b, s, inps[0]);
      RunOk(p, f, cell, x.to.b, None, x.s, inps[1..]);
    }
  }

  lemma StepOk(p: Probe, f: Frame, cell: nat, b: nat, e: Protocol.Entry, s: Cpu, inps: seq<Input>)
    requires ValidProbe(p) && inps != [] && !Waits(b, e)
    requires Corr(p, f, cell, b, Some(e), s) && BlockOk(p, f, cell, b, e, s, inps[0])
    requires ReadsInstalled(p, EntryStub(p.hasRet), b, s, inps)
    ensures RanOk(p, f, Some(e), cell, RunStub(ConstsOf(p), EntryStub(p.hasRet), b, s, inps))
    ensures |inps| >= BlocksLeft(Some(e), b) ==> RunStub(ConstsOf(p), EntryStub(p.hasRet), b, s, inps).to.Landed?
    decreases |inps|, 0
  {
    hide EntryBlock, RunBlock, Untouched, Corr, BlocksLeft, Answer, Accesses, ConstsOf, ConfigOf;
    hide Protocol.EntryNext, Protocol.EntryRequest, ValidProbe, Waits, RunStub;
    var x := RunBlock(ConstsOf(p), EntryStub(p.hasRet)(b), b, s, inps[0]);
    RunGoesOn(ConstsOf(p), EntryStub(p.hasRet), b, s, inps);
    var a := Protocol.EntryRequest(ConfigOf(p), e, cell);
    var cell' := if a.Hook? then L.ReturnStubAddr(p.base) else cell;
    var next := Protocol.EntryNext(ConfigOf(p), e, Answer(a, inps[0]));
    BlockNearer(p, f, cell, b, e, s, inps[0]);
    RunOk(p, f, cell', x.to.b, next, x.s, inps[1..]);
    var y := RunStub(ConstsOf(p), EntryStub(p.hasRet), x.to.b, x.s, inps[1..]);
    ReplyIsAnswer(p, a, inps[0]);
    if Silent(a) {
      SilentIsLast(ConfigOf(p), e, cell, Answer(a, inps[0]));
    } else {
      var out := RunStub(ConstsOf(p), EntryStub(p.hasRet), b, s, inps);
      assert out.replies == [Answer(a, inps[0])] + y.replies;
      assert out.replies[1..] == y.replies;
    }
  }

  /** The entry stub from its first instruction, for every start state and whatever the environment
      answers: its accesses are those of the protocol's automaton for the six arguments in registers,
      in the same order and with the same values; it never goes astray; it leaves within 2650 blocks;
      and then it is at the trampoline, with every register, the flags and the stack as they were,
      but for the return cell, which is as the automaton left it. */
  lemma EntryStubIsTheAutomaton(p: Probe, f: Frame, cell: nat, inps: seq<Input>)
    requires ValidProbe(p) && (forall i :: 0 <= i < 6 ==> ArgsOf(f)[i] >= 0)
    requires ReadsInstalled(p, EntryStub(p.hasRet), 0, Cpu(f.r, f.flags, Cell(cell, f.above)), inps)
    ensures RanOk(p, f, Some(Protocol.StartEntry(ArgsOf(f))), cell,
                  RunStub(ConstsOf(p), EntryStub(p.hasRet), 0, Cpu(f.r, f.flags, Cell(cell, f.above)), inps))
    ensures |inps| >= 2650 ==>
              RunStub(ConstsOf(p), EntryStub(p.hasRet), 0, Cpu(f.r, f.flags, Cell(cell, f.above)), inps).to.Landed?
  {
    RunOk(p, f, cell, 0, Some(Protocol.StartEntry(ArgsOf(f))), Cpu(f.r, f.flags, Cell(cell, f.above)), inps);
  }
}
