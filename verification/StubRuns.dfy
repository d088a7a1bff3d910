/** What each basic block of the stubs does to the processor, one lemma a block. */
module StubRuns {
  import opened X86
  import opened Stubs

  lemma LowBits(x: nat)
    ensures W32(x) % 4096 == x % 4096
  {
  }

  /** The cells the entry stub's prologue leaves above rsp. */
  function OnLow(r: Regs, flags: Word, rest: Stack): Stack
  {
    Cell(r.rdi, Cell(r.rsi, Cell(r.rdx, Cell(r.rcx, Cell(r.rbx, Cell(r.rax, Cell(flags, rest)))))))
  }

  function OnMid(r: Regs, rest: Stack): Stack
  {
    Cell(r.r12, Cell(r.r11, Cell(r.r10, Cell(r.r9, Cell(r.r8, rest)))))
  }

  function OnHigh(r: Regs, rest: Stack): Stack
  {
    Cell(r.r15, Cell(r.r14, Cell(r.r13, rest)))
  }

  /** What the entry stub's prologue leaves above rsp. */
  function OnAll(r: Regs, flags: Word, rest: Stack): Stack
  {
    OnHigh(r, OnMid(r, Cell(r.rbp, OnLow(r, flags, rest))))
  }

  lemma RunPushLow(k: Consts, s: Cpu, e: Input)
    ensures Run(k, PUSH_LOW, s, e)
         == Effect(s.(r := s.r.(rsp := s.r.rsp - 56), stk := OnLow(s.r, s.flags, s.stk)), [])
  {
  }

  lemma RunPushRbp(k: Consts, s: Cpu, e: Input)
    ensures Run(k, PUSH_RBP, s, e) == Effect(s.(r := s.r.(rsp := s.r.rsp - 8), stk := Cell(s.r.rbp, s.stk)), [])
  {
  }

  lemma RunPushHigh(k: Consts, s: Cpu, e: Input)
    ensures Run(k, PUSH_HIGH, s, e) == Effect(s.(r := s.r.(rsp := s.r.rsp - 24), stk := OnHigh(s.r, s.stk)), [])
  {
  }

  lemma RunPushMid(k: Consts, s: Cpu, e: Input)
    ensures Run(k, PUSH_MID, s, e) == Effect(s.(r := s.r.(rsp := s.r.rsp - 40), stk := OnMid(s.r, s.stk)), [])
  {
  }

  lemma RunPushAll(k: Consts, s: Cpu, e: Input)
    ensures Run(k, PUSH_ALL, s, e)
         == Effect(s.(r := s.r.(rsp := s.r.rsp - 128), stk := OnAll(s.r, s.flags, s.stk)), [])
  {
    hide Run, Append, Behind;
    RunAppend(k, PUSH_LOW, Append(PUSH_RBP, Append(PUSH_MID, PUSH_HIGH)), s, e);
    RunPushLow(k, s, e);
    var s1, e1 := Run(k, PUSH_LOW, s, e).s, Behind(PUSH_LOW, e);
    RunAppend(k, PUSH_RBP, Append(PUSH_MID, PUSH_HIGH), s1, e1);
    RunPushRbp(k, s1, e1);
    var s2, e2 := Run(k, PUSH_RBP, s1, e1).s, Behind(PUSH_RBP, e1);
    RunAppend(k, PUSH_MID, PUSH_HIGH, s2, e2);
    RunPushMid(k, s2, e2);
    RunPushHigh(k, Run(k, PUSH_MID, s2, e2).s, Behind(PUSH_MID, e2));
  }

  lemma RunCheck(k: Consts, s: Cpu, e: Input)
    ensures var y := Run(k, CHECK, s, e);
            && y.acc == [Rd(W64(W64(k.config)), 4)] && y.s.stk == s.stk
            && y.s.r == s.r.(r10 := W64(k.config))
            && (ZF(y.s.flags) <==> W32(e.v) == 0)
  {
    MkFlagsRead(W32(e.v) == 0, W32(e.v) < 0);
  }

  lemma RunLoadBuf(k: Consts, s: Cpu, e: Input)
    ensures Run(k, LOAD_BUF, s, e) == Effect(s.(r := s.r.(r11 := W64(e.v))), [Rd(W64(s.r.r10 + 8), 8)])
  {
  }

  lemma RunTicket(k: Consts, s: Cpu, e: Input)
    ensures var y := Run(k, TICKET, s, e);
            && y.acc == [Xadd(W64(s.r.r11), 1)] && y.s.stk == s.stk
            && y.s.r == s.r.(rax := (W64(e.v)) % 4096)
    ensures var y := Run(k, R_TICKET, s, e);
            && y.acc == [Xadd(W64(s.r.r10), 1)] && y.s.stk == s.stk
            && y.s.r == s.r.(rax := (W64(e.v)) % 4096)
  {
    LowBits(W64(e.v));
  }

  lemma RunScale(k: Consts, s: Cpu, e: Input)
    ensures var y := Run(k, SCALE, s, e); var a := s.r.rax;
            && y.acc == [] && y.s.stk == s.stk
            && y.s.r == s.r.(r8 := W64(W64(W64(Scale(a, 6)) + W64(Scale(a, 4))) + W64(Scale(a, 3))),
                             r9 := W64(Scale(a, 3)))
  {
  }

  /** The three shifts add up to 88 times the masked ticket. */
  lemma ScaledTicket(a: nat)
    requires a < 4096
    ensures W64(W64(W64(Scale(a, 6)) + W64(Scale(a, 4))) + W64(Scale(a, 3))) == 88 * a
  {
  }

  lemma RunEvent(k: Consts, s: Cpu, e: Input)
    ensures Run(k, EVENT, s, e) == Effect(s.(r := s.r.(r8 := W64(s.r.r11 + s.r.r8 + 16))), [])
    ensures Run(k, R_EVENT, s, e) == Effect(s.(r := s.r.(r8 := W64(s.r.r10 + s.r.r8 + 16))), [])
  {
  }

  lemma RunPutImm(k: Consts, s: Cpu, e: Input)
    ensures Run(k, PUT_PID, s, e) == Effect(s, [Wr(W64(s.r.r8 + 8), 4, W32(k.pid))])
    ensures Run(k, PUT_PROBE, s, e) == Effect(s, [Wr(W64(s.r.r8 + 16), 4, W32(k.probeId))])
    ensures Run(k, PUT_ENTRY, s, e) == Effect(s, [Wr(W64(s.r.r8 + 20), 4, 1)])
    ensures Run(k, PUT_RETURN, s, e) == Effect(s, [Wr(W64(s.r.r8 + 20), 4, 2)])
    ensures Run(k, PUT_DURATION, s, e) == Effect(s, [Wr(W64(s.r.r8 + 80), 8, 0)])
  {
  }

  predicate MovesArg(k: Consts, c: Code, s: Cpu, e: Input, cell: nat, offset: nat)
  {
    Run(k, c, s, e) == Effect(s.(r := s.r.(rax := Peek(s.stk, cell))), [Wr(W64(s.r.r8 + offset), 8, Peek(s.stk, cell))])
  }

  lemma RunPutArgs(k: Consts, s: Cpu, e: Input)
    ensures MovesArg(k, PUT_ARG0, s, e, 9, 24) && MovesArg(k, PUT_ARG1, s, e, 10, 32)
    ensures MovesArg(k, PUT_ARG2, s, e, 11, 40)
  {
  }

  lemma RunPutMoreArgs(k: Consts, s: Cpu, e: Input)
    ensures MovesArg(k, PUT_ARG3, s, e, 12, 48)
    ensures MovesArg(k, PUT_ARG4, s, e, 7, 56) && MovesArg(k, PUT_ARG5, s, e, 6, 64)
  {
  }

  lemma RunAskTid(k: Consts, s: Cpu, e: Input)
    ensures var y := Run(k, ASK_TID, s, e);
            && y.acc == [SysGettid] && y.s.stk.Cell? && y.s.stk.up.Cell? && y.s.stk.up.up == s.stk
            && y.s.r == s.r.(rax := W32(e.v), rcx := y.s.r.rcx, r11 := y.s.r.r11, rsp := s.r.rsp - 16)
  {
  }

  lemma RunPutTid(k: Consts, s: Cpu, e: Input)
    ensures Run(k, PUT_TID, s, e) == Effect(s, [Wr(W64(s.r.r8 + 12), 4, W32(s.r.rax))])
    ensures Run(k, R_PUT_TID, s, e) == Effect(s, [Wr(W64(s.r.r8 + 12), 4, W32(s.r.rdx))])
  {
  }

  lemma RunAskClock(k: Consts, s: Cpu, e: Input)
    requires s.stk.Cell? && s.stk.up.Cell?
    ensures var y := Run(k, ASK_CLOCK, s, e);
            && y.acc == [SysClock(0)] && y.s.stk == Cell(e.sec, Cell(e.nsec, s.stk.up.up))
            && y.s.r == s.r.(rax := 0, rcx := y.s.r.rcx, r11 := y.s.r.r11, rdi := 0, rsi := s.r.rsp)
  {
  }

  lemma RunPutTs(k: Consts, s: Cpu, e: Input)
    requires s.stk.Cell? && s.stk.up.Cell?
    ensures var y := Run(k, PUT_TS, s, e); var ts := W64(W64(1000000000 * s.stk.v) + s.stk.up.v);
            y.acc == [Wr(W64(s.r.r8), 8, ts)] && y.s.r == s.r.(rax := ts) && y.s.stk == s.stk
  {
  }

  lemma RunPutRetval(k: Consts, s: Cpu, e: Input)
    requires s.stk.Cell? && s.stk.up.Cell?
    ensures var y := Run(k, PUT_RETVAL, s, e);
            && y.acc == [Wr(W64(s.r.r8 + 72), 8, 0)]
            && y.s.r == s.r.(rsp := s.r.rsp + 16) && y.s.stk == s.stk.up.up
  {
  }

  lemma RunShadow(k: Consts, s: Cpu, e: Input)
    ensures var y := Run(k, SHADOW, s, e);
            && y.acc == [] && y.s.r == s.r.(r9 := W64(k.shadow)) && y.s.stk == s.stk
            && (ZF(y.s.flags) <==> W64(k.shadow) == 0)
  {
    MkFlagsRead(W64(k.shadow) == 0, W64(k.shadow) < 0);
  }

  lemma RunIndex0(k: Consts, s: Cpu, e: Input)
    ensures var y := Run(k, INDEX0, s, e); y.acc == [] && y.s.r == s.r.(rbx := 0) && y.s.stk == s.stk
    ensures var y := Run(k, R_INDEX0, s, e);
            y.acc == [] && y.s.r == s.r.(r8 := W32(s.r.rax), rbx := 0) && y.s.stk == s.stk
  {
  }

  lemma RunNext(k: Consts, s: Cpu, e: Input)
    ensures var y := Run(k, NEXT, s, e);
            y.acc == [] && y.s.r == s.r.(rbx := W64(s.r.rbx + 1)) && y.s.stk == s.stk
  {
  }

  lemma RunBound(k: Consts, s: Cpu, e: Input)
    ensures var y := Run(k, BOUND, s, e);
            y.acc == [] && y.s.r == s.r && y.s.stk == s.stk && (CF(y.s.flags) <==> s.r.rbx < 256)
  {
    MkFlagsRead(s.r.rbx == 256, s.r.rbx < 256);
  }

  lemma RunLook(k: Consts, s: Cpu, e: Input)
    ensures var y := Run(k, LOOK, s, e); var slot := W64(s.r.r9 + W64(1032 * s.r.rbx));
            && y.acc == [Rd(W64(slot), 4)]
            && y.s.r == s.r.(r11 := slot, rcx := W32(e.v)) && y.s.stk == s.stk
            && (ZF(y.s.flags) <==> W32(e.v) == 0)
  {
    MkFlagsRead(W32(e.v) == 0, W32(e.v) < 0);
  }

  lemma RunReturnLook(k: Consts, s: Cpu, e: Input)
    ensures var y := Run(k, R_LOOK, s, e); var slot := W64(s.r.r10 + W64(1032 * s.r.rbx));
            && y.acc == [Rd(W64(slot), 4)]
            && y.s.r == s.r.(r11 := slot, rcx := W32(e.v)) && y.s.stk == s.stk
            && (ZF(y.s.flags) <==> W32(e.v) == W32(s.r.r8))
  {
    MkFlagsRead(W32(e.v) == W32(s.r.r8), W32(e.v) < W32(s.r.r8));
  }

  lemma RunCmpTid(k: Consts, s: Cpu, e: Input)
    ensures var y := Run(k, CMP_TID, s, e);
            && y.acc == [Rd(W64(s.r.r8 + 12), 4)] && y.s.r == s.r && y.s.stk == s.stk
            && (ZF(y.s.flags) <==> W32(s.r.rcx) == W32(e.v))
  {
    MkFlagsRead(W32(s.r.rcx) == W32(e.v), W32(s.r.rcx) < W32(e.v));
  }

  lemma RunCmpRace(k: Consts, s: Cpu, e: Input)
    ensures var y := Run(k, CMP_RACE, s, e);
            && y.acc == [Rd(W64(s.r.r8 + 12), 4)] && y.s.r == s.r && y.s.stk == s.stk
            && (ZF(y.s.flags) <==> W32(s.r.rax) == W32(e.v))
  {
    MkFlagsRead(W32(s.r.rax) == W32(e.v), W32(s.r.rax) < W32(e.v));
  }

  lemma RunLoadTid(k: Consts, s: Cpu, e: Input)
    ensures var y := Run(k, LOAD_TID, s, e);
            && y.acc == [Rd(W64(s.r.r8 + 12), 4)] && y.s.r == s.r.(rax := 0, rdx := W32(e.v)) && y.s.stk == s.stk
    ensures Run(k, R_LOAD_TID, s, e) == Effect(s.(r := s.r.(rdx := W32(e.v))), [Rd(W64(s.r.rbx), 4)])
  {
  }

  lemma RunClaim(k: Consts, s: Cpu, e: Input)
    requires s.r.rax == 0
    ensures var y := Run(k, CLAIM, s, e);
            && y.acc == [Cas(W64(s.r.r11), 0, W32(s.r.rdx))] && y.s.stk == s.stk
            && y.s.r == s.r.(rax := W32(e.v))
            && (ZF(y.s.flags) <==> W32(e.v) == 0)
  {
    MkFlagsRead(0 == W32(e.v), 0 < W32(e.v));
  }

  lemma RunFound(k: Consts, s: Cpu, e: Input)
    ensures Run(k, FOUND, s, e) == Effect(s.(r := s.r.(rax := W32(e.v))), [Rd(W64(s.r.r8 + 12), 4)])
    ensures Run(k, LOAD_TS, s, e) == Effect(s.(r := s.r.(rdx := W64(e.v))), [Rd(W64(s.r.r8), 8)])
  {
  }

  lemma RunLoadDepth(k: Consts, s: Cpu, e: Input)
    ensures var y := Run(k, LOAD_DEPTH, s, e);
            && y.acc == [Rd(W64(s.r.r11 + 4), 4)] && y.s.r == s.r.(rcx := W32(e.v)) && y.s.stk == s.stk
            && (CF(y.s.flags) <==> W32(e.v) < 64)
  {
    MkFlagsRead(W32(e.v) == 64, W32(e.v) < 64);
  }

  lemma RunReturnDepth(k: Consts, s: Cpu, e: Input)
    ensures var y := Run(k, R_DEPTH, s, e);
            && y.acc == [Rd(W64(s.r.r11 + 4), 4)] && y.s.r == s.r.(rcx := W32(e.v)) && y.s.stk == s.stk
            && (ZF(y.s.flags) <==> W32(e.v) == 0)
  {
    MkFlagsRead(W32(e.v) == 0, W32(e.v) < 0);
  }

  lemma RunSave(k: Consts, s: Cpu, e: Input)
    ensures var y := Run(k, SAVE_RET, s, e); var v := Peek(s.stk, 16);
            y == Effect(s.(r := s.r.(rdx := v)), [Wr(W64(s.r.r11 + s.r.rcx * 8 + 8), 8, v)])
    ensures Run(k, SAVE_TS, s, e) == Effect(s, [Wr(W64(s.r.r11 + s.r.rcx * 8 + 520), 8, s.r.rdx)])
  {
  }

  lemma RunPushDepth(k: Consts, s: Cpu, e: Input)
    ensures var y := Run(k, PUSH_DEPTH, s, e); var d := W32(s.r.rcx + 1);
            y.acc == [Wr(W64(s.r.r11 + 4), 4, W32(d))] && y.s.r == s.r.(rcx := d) && y.s.stk == s.stk
    ensures var y := Run(k, R_POP, s, e); var d := W32(s.r.rcx - 1);
            y.acc == [Wr(W64(s.r.r11 + 4), 4, W32(d))] && y.s.r == s.r.(rcx := d) && y.s.stk == s.stk
  {
  }

  lemma RunHook(k: Consts, s: Cpu, e: Input)
    ensures Run(k, HOOK, s, e)
         == Effect(s.(r := s.r.(rdx := W64(k.retStub)), stk := Poke(s.stk, 16, W64(k.retStub))), [])
  {
  }

  lemma RunPopLow(k: Consts, s: Cpu, e: Input, r: Regs, flags: Word, rest: Stack)
    requires s.stk == OnLow(r, flags, rest)
    ensures Run(k, POP_LOW, s, e)
         == Effect(Cpu(s.r.(rdi := r.rdi, rsi := r.rsi, rdx := r.rdx, rcx := r.rcx, rbx := r.rbx, rax := r.rax,
                            rsp := s.r.rsp + 56), flags, rest), [])
  {
  }

  lemma RunPopMid(k: Consts, s: Cpu, e: Input, r: Regs, rest: Stack)
    requires s.stk == OnMid(r, rest)
    ensures Run(k, POP_MID, s, e)
         == Effect(s.(r := s.r.(r12 := r.r12, r11 := r.r11, r10 := r.r10, r9 := r.r9, r8 := r.r8,
                                rsp := s.r.rsp + 40), stk := rest), [])
  {
  }

  lemma RunPopHigh(k: Consts, s: Cpu, e: Input, r: Regs, rest: Stack)
    requires s.stk == OnHigh(r, rest)
    ensures Run(k, POP_HIGH, s, e)
         == Effect(s.(r := s.r.(r15 := r.r15, r14 := r.r14, r13 := r.r13, rsp := s.r.rsp + 24), stk := rest), [])
  {
  }

  lemma RunPopRbp(k: Consts, s: Cpu, e: Input, rest: Stack, v: int)
    requires s.stk == Cell(v, rest)
    ensures Run(k, POP_RBP, s, e) == Effect(s.(r := s.r.(rbp := v, rsp := s.r.rsp + 8), stk := rest), [])
  {
  }

  /** The epilogue undoes the prologue. */
  lemma RunPopAll(k: Consts, s: Cpu, e: Input, r: Regs, flags: Word, rest: Stack)
    requires s.stk == OnAll(r, flags, rest) && s.r.rsp == r.rsp - 128
    ensures Run(k, POP_ALL, s, e) == Effect(Cpu(r, flags, rest), [])
  {
    hide Run, Append, Behind;
    var low := OnLow(r, flags, rest);
    RunAppend(k, POP_HIGH, Append(POP_MID, Append(POP_RBP, POP_LOW)), s, e);
    RunPopHigh(k, s, e, r, OnMid(r, Cell(r.rbp, low)));
    var s1, e1 := Run(k, POP_HIGH, s, e).s, Behind(POP_HIGH, e);
    RunAppend(k, POP_MID, Append(POP_RBP, POP_LOW), s1, e1);
    RunPopMid(k, s1, e1, r, Cell(r.rbp, low));
    var s2, e2 := Run(k, POP_MID, s1, e1).s, Behind(POP_MID, e1);
    RunAppend(k, POP_RBP, POP_LOW, s2, e2);
    RunPopRbp(k, s2, e2, low, r.rbp);
    RunPopLow(k, Run(k, POP_RBP, s2, e2).s, Behind(POP_RBP, e2), r, flags, rest);
  }

  lemma RunAbsJump(k: Consts, s: Cpu, e: Input)
    ensures Run(k, ABS_JUMP, s, e)
         == Effect(s.(r := s.r.(rsp := s.r.rsp - 8), stk := Cell(W64(k.target), s.stk)), [])
  {
  }
}
