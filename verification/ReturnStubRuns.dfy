/** What each basic block of the return stub does to the processor, where the entry stub has no like. */
module ReturnStubRuns {
  import opened X86
  import opened Stubs
  import opened StubRuns

  /** What the return stub's prologue leaves above rsp: twelve cells, r11 the second from the top. */
  function OnReturn(r: Regs, r11: int, flags: Word, rest: Stack): Stack
  {
    OnMid(r.(r11 := r11), OnLow(r, flags, rest))
  }

  lemma RunReturnPrologue(k: Consts, s: Cpu, e: Input)
    ensures var y := Run(k, Append(PUSH_LOW, Append(PUSH_MID, R_ASK)), s, e);
            && y.acc == [SysGettid] && y.s.flags == s.flags
            && y.s.stk == OnReturn(s.r, s.r.r11, s.flags, s.stk)
            && y.s.r == s.r.(rsp := s.r.rsp - 96, rax := W32(e.v), rcx := y.s.r.rcx, r11 := y.s.r.r11,
                             r10 := W64(k.shadow))
  {
    hide Run, Append, Behind;
    RunAppend(k, PUSH_LOW, Append(PUSH_MID, R_ASK), s, e);
    RunPushLow(k, s, e);
    var s1, e1 := Run(k, PUSH_LOW, s, e).s, Behind(PUSH_LOW, e);
    RunAppend(k, PUSH_MID, R_ASK, s1, e1);
    RunPushMid(k, s1, e1);
    RunReturnAsk(k, Run(k, PUSH_MID, s1, e1).s, Behind(PUSH_MID, e1));
  }

  lemma RunReturnAsk(k: Consts, s: Cpu, e: Input)
    ensures var y := Run(k, R_ASK, s, e);
            && y.acc == [SysGettid] && y.s.flags == s.flags && y.s.stk == s.stk
            && y.s.r == s.r.(rax := W32(e.v), rcx := y.s.r.rcx, r11 := y.s.r.r11, r10 := W64(k.shadow))
  {
  }

  lemma RunReturnLoadRet(k: Consts, s: Cpu, e: Input)
    ensures Run(k, R_LOAD_RET, s, e)
         == Effect(s.(r := s.r.(rdx := W64(e.v))), [Rd(W64(s.r.r11 + s.r.rcx * 8 + 8), 8)])
  {
  }

  /** The popped address replaces the saved r11. */
  lemma RunReturnLoadBuf(k: Consts, s: Cpu, e: Input)
    requires s.stk.Cell? && s.stk.up.Cell?
    ensures Run(k, R_LOAD_BUF, s, e)
         == Effect(s.(stk := Cell(s.stk.v, Cell(s.r.rdx, s.stk.up.up)),
                      r := s.r.(rbx := s.r.r11, r12 := s.r.rcx, r10 := W64(e.v))), [Rd(W64(W64(k.config) + 8), 8)])
  {
  }

  lemma RunReturnReserve(k: Consts, s: Cpu, e: Input)
    ensures var y := Run(k, Append(R_TICKET, Append(SCALE, R_EVENT)), s, e); var i := W64(e.v) % 4096;
            && y.acc == [Xadd(W64(s.r.r10), 1)] && y.s.stk == s.stk
            && y.s.r == s.r.(rax := i, r8 := W64(s.r.r10 + 88 * i + 16), r9 := W64(Scale(i, 3)))
  {
    hide Run, Append, Scale, Behind;
    RunAppend(k, R_TICKET, Append(SCALE, R_EVENT), s, e);
    RunTicket(k, s, e);
    var s1, e1 := Run(k, R_TICKET, s, e).s, Behind(R_TICKET, e);
    RunAppend(k, SCALE, R_EVENT, s1, e1);
    RunScale(k, s1, e1);
    ScaledTicket(s1.r.rax);
    RunEvent(k, Run(k, SCALE, s1, e1).s, Behind(SCALE, e1));
  }

  lemma RunReturnArgs(k: Consts, s: Cpu, e: Input)
    ensures Run(k, R_ARG0, s, e) == Effect(s, [Wr(W64(s.r.r8 + 24), 8, 0)])
    ensures Run(k, R_ARG1, s, e) == Effect(s, [Wr(W64(s.r.r8 + 32), 8, 0)])
    ensures Run(k, R_ARG2, s, e) == Effect(s, [Wr(W64(s.r.r8 + 40), 8, 0)])
    ensures Run(k, R_ARG3, s, e) == Effect(s, [Wr(W64(s.r.r8 + 48), 8, 0)])
    ensures Run(k, R_ARG4, s, e) == Effect(s, [Wr(W64(s.r.r8 + 56), 8, 0)])
    ensures Run(k, R_ARG5, s, e) == Effect(s, [Wr(W64(s.r.r8 + 64), 8, 0)])
  {
  }

  lemma RunReturnRetval(k: Consts, s: Cpu, e: Input)
    ensures var v := Peek(s.stk, 10);
            Run(k, R_RETVAL, s, e) == Effect(s.(r := s.r.(rdx := v)), [Wr(W64(s.r.r8 + 72), 8, v)])
  {
  }

  lemma RunReturnClock(k: Consts, s: Cpu, e: Input)
    ensures var y := Run(k, R_CLOCK, s, e);
            && y.acc == [SysClock(0)] && y.s.stk == Cell(e.sec, Cell(e.nsec, s.stk))
            && y.s.r == s.r.(rax := 0, rcx := y.s.r.rcx, r11 := y.s.r.r11, rdi := 0, rsi := s.r.rsp - 16,
                             rsp := s.r.rsp - 16)
  {
  }

  lemma RunReturnTs(k: Consts, s: Cpu, e: Input)
    requires s.stk.Cell? && s.stk.up.Cell?
    ensures var y := Run(k, R_TS, s, e); var ts := W64(W64(1000000000 * s.stk.v) + s.stk.up.v);
            && y.acc == [Wr(W64(s.r.r8), 8, ts)] && y.s.r == s.r.(rax := ts, rsp := s.r.rsp + 16)
            && y.s.stk == s.stk.up.up
  {
  }

  lemma RunReturnLoadTs(k: Consts, s: Cpu, e: Input)
    ensures Run(k, R_LOAD_TS, s, e)
         == Effect(s.(r := s.r.(rdx := W64(e.v))), [Rd(W64(s.r.rbx + s.r.r12 * 8 + 520), 8)])
  {
  }

  lemma RunReturnDuration(k: Consts, s: Cpu, e: Input)
    ensures var y := Run(k, R_DURATION, s, e); var d := W64(s.r.rax - s.r.rdx);
            y.acc == [Wr(W64(s.r.r8 + 80), 8, d)] && y.s.r == s.r.(rax := d) && y.s.stk == s.stk
  {
  }

  /** The epilogue gives everything back but r11, which holds the address to go to. */
  lemma RunReturnEpilogue(k: Consts, s: Cpu, e: Input, r: Regs, r11: int, flags: Word, rest: Stack)
    requires s.stk == OnReturn(r, r11, flags, rest) && s.r.rsp == r.rsp - 96
    requires s.r.rbp == r.rbp && s.r.r13 == r.r13 && s.r.r14 == r.r14 && s.r.r15 == r.r15
    ensures Run(k, Append(POP_MID, POP_LOW), s, e) == Effect(Cpu(r.(r11 := r11), flags, rest), [])
  {
    hide Run, Append, Behind;
    RunAppend(k, POP_MID, POP_LOW, s, e);
    RunPopMid(k, s, e, r.(r11 := r11), OnLow(r, flags, rest));
    RunPopLow(k, Run(k, POP_MID, s, e).s, Behind(POP_MID, e), r, flags, rest);
  }
}
