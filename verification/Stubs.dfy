/** The two stubs as basic blocks. A block boundary is a jump, a jump target, or a place between two
    accesses to shared memory. */
module Stubs {
  import opened X86

  // ---------------------------------------------------------------- entry stub

  const PUSH_LOW: Code :=
    Do(St(Pushfq), Do(St(Push(RAX)), Do(St(Push(RBX)), Do(St(Push(RCX)), Do(St(Push(RDX)), Do(St(Push(RSI)),
    Do(St(Push(RDI)), End)))))))
  const PUSH_RBP: Code := Do(St(Push(RBP)), End)
  const PUSH_MID: Code :=
    Do(St(Push(R8)), Do(St(Push(R9)), Do(St(Push(R10)), Do(St(Push(R11)), Do(St(Push(R12)), End)))))
  const PUSH_HIGH: Code := Do(St(Push(R13)), Do(St(Push(R14)), Do(St(Push(R15)), End)))
  const PUSH_ALL: Code := Append(PUSH_LOW, Append(PUSH_RBP, Append(PUSH_MID, PUSH_HIGH)))
  const CHECK: Code := Do(Mv(MovImm64(R10, ConfigAddr)), Do(Me(CmpMemImm8(Mem(R10, D0), 0)), End))

  const LOAD_BUF: Code := Do(Me(Load64(R11, Mem(R10, D8(8)))), End)

  const TICKET: Code := Do(Mv(MovImm32(RAX, 1)), Do(Me(LockXadd64(Mem(R11, D0), RAX)), Do(Ar(AndEaxFFF), End)))

  /** r8 := 64 i + 16 i + 8 i, the ticket's distance from the first event. */
  const SCALE: Code :=
    Do(Mv(Mov64(R8, RAX)), Do(Ar(Shl64(R8, 6)), Do(Mv(Mov64(R9, RAX)), Do(Ar(Shl64(R9, 4)), Do(Ar(Add64(R8, R9)),
    Do(Mv(Mov64(R9, RAX)), Do(Ar(Shl64(R9, 3)), Do(Ar(Add64(R8, R9)), End))))))))
  const EVENT: Code := Do(Mv(Lea(R8, MemX(R11, R8, 0, D8(16)))), End)

  const PUT_PID: Code := Do(Me(StoreImm32(Mem(R8, D8(8)), PidImm)), End)
  const PUT_PROBE: Code := Do(Me(StoreImm32(Mem(R8, D8(16)), ProbeIdImm)), End)
  const PUT_ENTRY: Code := Do(Me(StoreImm32(Mem(R8, D8(20)), Num(1))), End)
  const PUT_ARG0: Code := Do(St(LoadTop(RAX, D8(72))), Do(Me(Store64(Mem(R8, D8(24)), RAX)), End))
  const PUT_ARG1: Code := Do(St(LoadTop(RAX, D8(80))), Do(Me(Store64(Mem(R8, D8(32)), RAX)), End))
  const PUT_ARG2: Code := Do(St(LoadTop(RAX, D8(88))), Do(Me(Store64(Mem(R8, D8(40)), RAX)), End))
  const PUT_ARG3: Code := Do(St(LoadTop(RAX, D8(96))), Do(Me(Store64(Mem(R8, D8(48)), RAX)), End))
  const PUT_ARG4: Code := Do(St(LoadTop(RAX, D8(56))), Do(Me(Store64(Mem(R8, D8(56)), RAX)), End))
  const PUT_ARG5: Code := Do(St(LoadTop(RAX, D8(48))), Do(Me(Store64(Mem(R8, D8(64)), RAX)), End))
  const ASK_TID: Code := Do(St(SubRsp16), Do(Mv(MovImm32(RAX, 186)), Do(Syscall, End)))
  const PUT_TID: Code := Do(Me(Store32(Mem(R8, D8(12)), RAX)), End)
  const ASK_CLOCK: Code := Do(Mv(MovImm32(RAX, 228)), Do(Mv(Zero32(RDI)), Do(Mv(Mov64(RSI, RSP)), Do(Syscall, End))))
  const PUT_TS: Code :=
    Do(St(LoadTop(RAX, D0)), Do(Ar(Imul64(RAX, Giga)), Do(St(AddTop(RAX, D8(8))),
    Do(Me(Store64(Mem(R8, D8(0)), RAX)), End))))
  const PUT_RETVAL: Code := Do(St(AddRsp16), Do(Me(StoreImm64(Mem(R8, D8(72)), 0)), End))
  const PUT_DURATION: Code := Do(Me(StoreImm64(Mem(R8, D8(80)), 0)), End)
  const SHADOW: Code := Do(Mv(MovImm64(R9, ShadowAddr)), Do(Cm(Test64(R9)), End))
  const INDEX0: Code := Do(Mv(Zero32(RBX)), End)
  const BOUND: Code := Do(Cm(CmpImm64(RBX, 256)), End)
  const LOOK: Code :=
    Do(Mv(Mov64(R11, RBX)), Do(Ar(Imul64(R11, SlotSize)), Do(Mv(Lea(R11, MemX(R9, R11, 0, D0))),
    Do(Me(Load32(RCX, Mem(R11, D0))),
    Do(Cm(Test32(RCX)), End)))))
  const CMP_TID: Code := Do(Me(CmpRegMem32(RCX, Mem(R8, D8(12)))), End)
  const LOAD_TID: Code := Do(Mv(Zero32(RAX)), Do(Me(Load32(RDX, Mem(R8, D8(12)))), End))
  const CLAIM: Code := Do(Me(LockCmpxchg32(Mem(R11, D0), RDX)), End)
  const CMP_RACE: Code := Do(Me(CmpRegMem32(RAX, Mem(R8, D8(12)))), End)
  const FOUND: Code := Do(Me(Load32(RAX, Mem(R8, D8(12)))), End)
  const LOAD_DEPTH: Code := Do(Me(Load32(RCX, Mem(R11, D8(4)))), Do(Cm(CmpImm32(RCX, 64)), End))
  const SAVE_RET: Code :=
    Do(St(LoadTop(RDX, D32(128))), Do(Me(Store64(MemX(R11, RCX, 3, D8(8)), RDX)), End))
  const LOAD_TS: Code := Do(Me(Load64(RDX, Mem(R8, D8(0)))), End)
  const SAVE_TS: Code := Do(Me(Store64(MemX(R11, RCX, 3, D32(520)), RDX)), End)
  const PUSH_DEPTH: Code := Do(Ar(Inc32(RCX)), Do(Me(Store32(Mem(R11, D8(4)), RCX)), End))
  const HOOK: Code := Do(Mv(MovImm64(RDX, RetStubAddr)), Do(St(StoreTop(D32(128), RDX)), End))
  const NEXT: Code := Do(Ar(Inc64(RBX)), End)
  const POP_HIGH: Code := Do(St(Pop(R15)), Do(St(Pop(R14)), Do(St(Pop(R13)), End)))
  const POP_MID: Code :=
    Do(St(Pop(R12)), Do(St(Pop(R11)), Do(St(Pop(R10)), Do(St(Pop(R9)), Do(St(Pop(R8)), End)))))
  const POP_RBP: Code := Do(St(Pop(RBP)), End)
  const POP_LOW: Code :=
    Do(St(Pop(RDI)), Do(St(Pop(RSI)), Do(St(Pop(RDX)), Do(St(Pop(RCX)), Do(St(Pop(RBX)), Do(St(Pop(RAX)),
    Do(St(Popfq), End)))))))
  const POP_ALL: Code := Append(POP_HIGH, Append(POP_MID, Append(POP_RBP, POP_LOW)))

  /** push r11; movabs r11, target; xchg [rsp], r11; ret */
  const ABS_JUMP: Code := Do(St(Push(R11)), Do(Mv(MovImm64(R11, JumpTarget)), Do(St(XchgTop(R11)), End)))

  const ENTRY_BLOCKS: nat := 38
  const LOOP: nat := 20
  const TRY_CLAIM: nat := 24
  const FOUND_AT: nat := 28
  const NEXT_AT: nat := 35
  const EXIT: nat := 36

  /** The entry stub; blocks 18 to 35 are there only when the probe wants returns. */
  function EntryBlock(hasRet: bool, b: nat): Block
  {
    if 18 <= b < EXIT && !hasRet then Block(End, Fall)
    else if b == 0 then Block(Append(PUSH_ALL, CHECK), IfGoto(Equal, EXIT))
    else if b == 1 then Block(LOAD_BUF, Fall)
    else if b == 2 then Block(Append(TICKET, Append(SCALE, EVENT)), Fall)
    else if b == 3 then Block(PUT_PID, Fall)
    else if b == 4 then Block(PUT_PROBE, Fall)
    else if b == 5 then Block(PUT_ENTRY, Fall)
    else if b == 6 then Block(PUT_ARG0, Fall)
    else if b == 7 then Block(PUT_ARG1, Fall)
    else if b == 8 then Block(PUT_ARG2, Fall)
    else if b == 9 then Block(PUT_ARG3, Fall)
    else if b == 10 then Block(PUT_ARG4, Fall)
    else if b == 11 then Block(PUT_ARG5, Fall)
    else if b == 12 then Block(ASK_TID, Fall)
    else if b == 13 then Block(PUT_TID, Fall)
    else if b == 14 then Block(ASK_CLOCK, Fall)
    else if b == 15 then Block(PUT_TS, Fall)
    else if b == 16 then Block(PUT_RETVAL, Fall)
    else if b == 17 then Block(PUT_DURATION, Fall)
    else if b == 18 then Block(SHADOW, IfGoto(Equal, EXIT))
    else if b == 19 then Block(INDEX0, Fall)
    else if b == 20 then Block(BOUND, IfGoto(AboveEqual, EXIT))
    else if b == 21 then Block(LOOK, IfGoto(Equal, TRY_CLAIM))
    else if b == 22 then Block(CMP_TID, IfGoto(Equal, FOUND_AT))
    else if b == 23 then Block(End, Goto(NEXT_AT))
    else if b == 24 then Block(LOAD_TID, Fall)
    else if b == 25 then Block(CLAIM, IfGoto(Equal, FOUND_AT))
    else if b == 26 then Block(CMP_RACE, IfGoto(Equal, FOUND_AT))
    else if b == 27 then Block(End, Goto(NEXT_AT))
    else if b == 28 then Block(FOUND, Fall)
    else if b == 29 then Block(LOAD_DEPTH, IfGoto(AboveEqual, EXIT))
    else if b == 30 then Block(SAVE_RET, Fall)
    else if b == 31 then Block(LOAD_TS, Fall)
    else if b == 32 then Block(SAVE_TS, Fall)
    else if b == 33 then Block(PUSH_DEPTH, Fall)
    else if b == 34 then Block(HOOK, Goto(EXIT))
    else if b == 35 then Block(NEXT, Goto(LOOP))
    else if b == 36 then Block(POP_ALL, Fall)
    else Block(ABS_JUMP, RetTop)
  }

  function EntryStub(hasRet: bool): nat -> Block
  {
    (b: nat) => EntryBlock(hasRet, b)
  }

  // ---------------------------------------------------------------- return stub

  const R_ASK: Code := Do(Mv(MovImm64(R10, ShadowAddr)), Do(Mv(MovImm32(RAX, 186)), Do(Syscall, End)))
  const R_INDEX0: Code := Do(Mv(Mov32(R8, RAX)), Do(Mv(Zero32(RBX)), End))
  const R_LOOK: Code :=
    Do(Mv(Mov64(R11, RBX)), Do(Ar(Imul64(R11, SlotSize)), Do(Mv(Lea(R11, MemX(R10, R11, 0, D0))),
    Do(Me(Load32(RCX, Mem(R11, D0))),
    Do(Cm(Cmp32(RCX, R8)), End)))))
  const R_DEPTH: Code := Do(Me(Load32(RCX, Mem(R11, D8(4)))), Do(Cm(Test32(RCX)), End))
  const R_POP: Code := Do(Ar(Dec32(RCX)), Do(Me(Store32(Mem(R11, D8(4)), RCX)), End))
  const R_LOAD_RET: Code := Do(Me(Load64(RDX, MemX(R11, RCX, 3, D8(8)))), End)
  const R_LOAD_BUF: Code :=
    Do(St(StoreTop(D8(8), RDX)), Do(Mv(Mov64(RBX, R11)), Do(Mv(Mov64(R12, RCX)), Do(Mv(MovImm64(R10, ConfigAddr)),
    Do(Me(Load64(R10, Mem(R10, D8(8)))), End)))))
  const R_TICKET: Code := Do(Mv(MovImm32(RAX, 1)), Do(Me(LockXadd64(Mem(R10, D0), RAX)), Do(Ar(AndEaxFFF), End)))
  const R_EVENT: Code := Do(Mv(Lea(R8, MemX(R10, R8, 0, D8(16)))), End)
  const R_LOAD_TID: Code := Do(Me(Load32(RDX, Mem(RBX, D0))), End)
  const R_PUT_TID: Code := Do(Me(Store32(Mem(R8, D8(12)), RDX)), End)
  const PUT_RETURN: Code := Do(Me(StoreImm32(Mem(R8, D8(20)), Num(2))), End)
  const R_ARG0: Code := Do(Me(StoreImm64(Mem(R8, D8(24)), 0)), End)
  const R_ARG1: Code := Do(Me(StoreImm64(Mem(R8, D8(32)), 0)), End)
  const R_ARG2: Code := Do(Me(StoreImm64(Mem(R8, D8(40)), 0)), End)
  const R_ARG3: Code := Do(Me(StoreImm64(Mem(R8, D8(48)), 0)), End)
  const R_ARG4: Code := Do(Me(StoreImm64(Mem(R8, D8(56)), 0)), End)
  const R_ARG5: Code := Do(Me(StoreImm64(Mem(R8, D8(64)), 0)), End)
  const R_RETVAL: Code := Do(St(LoadTop(RDX, D8(80))), Do(Me(Store64(Mem(R8, D8(72)), RDX)), End))
  const R_CLOCK: Code :=
    Do(St(SubRsp16), Do(Mv(MovImm32(RAX, 228)), Do(Mv(Zero32(RDI)), Do(Mv(Mov64(RSI, RSP)), Do(Syscall, End)))))
  const R_TS: Code :=
    Do(St(LoadTop(RAX, D0)), Do(Ar(Imul64(RAX, Giga)), Do(St(AddTop(RAX, D8(8))),
    Do(St(AddRsp16), Do(Me(Store64(Mem(R8, D8(0)), RAX)), End)))))
  const R_LOAD_TS: Code := Do(Me(Load64(RDX, MemX(RBX, R12, 3, D32(520)))), End)
  const R_DURATION: Code := Do(Ar(Sub64(RAX, RDX)), Do(Me(Store64(Mem(R8, D8(80)), RAX)), End))
  const R_LOOP: nat := 2
  const R_FOUND_AT: nat := 5
  const R_NEXT_AT: nat := 27
  const R_FALLBACK: nat := 28

  function ReturnBlock(b: nat): Block
  {
    if b == 0 then Block(Append(PUSH_LOW, Append(PUSH_MID, R_ASK)), Fall)
    else if b == 1 then Block(R_INDEX0, Fall)
    else if b == 2 then Block(BOUND, IfGoto(AboveEqual, R_FALLBACK))
    else if b == 3 then Block(R_LOOK, IfGoto(Equal, R_FOUND_AT))
    else if b == 4 then Block(End, Goto(R_NEXT_AT))
    else if b == 5 then Block(R_DEPTH, IfGoto(Equal, R_FALLBACK))
    else if b == 6 then Block(R_POP, Fall)
    else if b == 7 then Block(R_LOAD_RET, Fall)
    else if b == 8 then Block(R_LOAD_BUF, Fall)
    else if b == 9 then Block(Append(R_TICKET, Append(SCALE, R_EVENT)), Fall)
    else if b == 10 then Block(PUT_PID, Fall)
    else if b == 11 then Block(R_LOAD_TID, Fall)
    else if b == 12 then Block(R_PUT_TID, Fall)
    else if b == 13 then Block(PUT_PROBE, Fall)
    else if b == 14 then Block(PUT_RETURN, Fall)
    else if b == 15 then Block(R_ARG0, Fall)
    else if b == 16 then Block(R_ARG1, Fall)
    else if b == 17 then Block(R_ARG2, Fall)
    else if b == 18 then Block(R_ARG3, Fall)
    else if b == 19 then Block(R_ARG4, Fall)
    else if b == 20 then Block(R_ARG5, Fall)
    else if b == 21 then Block(R_RETVAL, Fall)
    else if b == 22 then Block(R_CLOCK, Fall)
    else if b == 23 then Block(R_TS, Fall)
    else if b == 24 then Block(R_LOAD_TS, Fall)
    else if b == 25 then Block(R_DURATION, Fall)
    else if b == 26 then Block(Append(POP_MID, POP_LOW), JumpReg(R11))
    else if b == 27 then Block(NEXT, Goto(R_LOOP))
    else Block(End, Trap)
  }

  function ReturnStub(): nat -> Block
  {
    (b: nat) => ReturnBlock(b)
  }
}
