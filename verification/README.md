# lightprobe: a verified model

lightprobe splices a probe into a running function. It overwrites the function's first bytes with a
jump, records an event in a ring, swaps the caller's return address for a return stub, and later
pops the real address from a shadow stack kept per thread. This project models that in Dafny 4.11
and proves what it is for: the probe is invisible to the program, the events are true, and taking
the probe away leaves nothing behind.

`dafny verify dfyconfig.toml` checks everything.

## What is modelled

**The protocol in the target.** `Protocol` has both stubs as automata whose every step makes at most
one access to shared memory, any number of threads, a controller that flips `enabled` at any step,
a clock that may even be set back, and the unprobed program beside them. `ProtocolInvariant`,
`ProtocolMemory`, `ProtocolEntry` and `ProtocolReturn` carry a rely/guarantee argument; its results
are in `ProtocolTheorem` (the probed world simulates the unprobed one), `ProtocolEvents`
(conservation, slots, durations, contents of the ring) and `ProtocolClock` (what a clock that is set
back does). Calls that enter the probed function by a jump in place of a return (tail calls) are part
of the model.

**The code.** `X86` gives the instructions that the builders emit, encodings and effects both.
`Stubs` writes the two stubs as basic blocks, `StubRuns` and `ReturnStubRuns` say what each block
does, and `EntryStubProof` and `ReturnStubProof` show that the code carries out the automata of
`Protocol` access by access and restores every register, the flags and the stack. `Assembler` puts
blocks into bytes and says what every displacement must be; `StubBytes` has the byte array of the
source for each instruction and shows that what is emitted for a block is its encoding; `Codegen` is the
code writer with its
placeholders and back-patching; `StubSizes` has the lengths and the fixup theorem for both stubs.
`Disassembler` goes the other way: it reads instructions from bytes by the manual's opcode tables and
operand columns, knows nothing of the encodings, and gets back what was meant. `ByteSteps` is the
processor that fetches, reads and carries out one instruction after the other, and runs an assembled
stub in memory as the stub's blocks say. `PatchedFunction` puts the entry jump, the stub, the copied
prologue and the jump back together, on those bytes.

**The control side.** `Layout` (the memory map), `Decoder` (instruction lengths and the patch
length), `OpcodeMaps` (the processor manual's own tables beside the decoder's), `Patch` (the five-byte
jump), `RemoteMem` (transfers and word loops), `RemoteSyscall` (the borrowed thread), `Install` (setting
up one runtime area), `ProbeTable` and `ProbeManager` (the table of sixteen descriptors and the memory
that mirrors it), `ProbeSession` (whole runs of it), `EventReader` (the window of the ring).

**Where the two meet.** `MemoryImage` shows that the target's bytes are an image of the protocol's
memory: every load, store, fetch-and-add and compare-and-swap of the stubs on bytes is the
protocol's, and an area as installed holds the protocol's first state. `ByteRun` carries that along
whole runs. `MachineRun` and `MachineTheorem` put everything together: any number of processors run the
stubs' code, block by block in any order, on the bytes of one installed area; every move of theirs is at
most one step of the protocol, so what the protocol promises holds of the machine code.

Kernel calls succeed or fail as they please; when they succeed they do what they say on mapped
bytes. Every request and its answer goes into a history (`RemoteMem.Tracee.log`), and the operations say
what they asked for and which answers they fail for. The symbol lookup, the syscall gadget and the clock are inputs.

## Assumptions

- Thread ids are 32-bit, not zero, and unique among live threads.
- Calls nest: a thread returns through its own return cells, innermost first, and ends only with no
  probed call outstanding. The program never returns to the address of the return stub of its own
  accord.
- No signal handler runs inside a stub on the same thread.
- A ticket is reserved only once the ticket 4096 before it is finished with (`Protocol.RingRoom`,
  asked for at the two reserving steps only): the entry stub reads its thread id and its time back
  from the ring.
- A probe is not detached while frames are outstanding.
- User addresses lie below 2^47; the stack does not wrap and does not overlap the runtime area.
- The prologue that is copied is position independent and leaves the return cell alone, and nothing
  jumps into the patched bytes.
- A stub's stack cells, and the memory that the program itself uses, are apart from the runtime area.

## Where the code differs from what one might expect

- `docs/member_a_runtime_layout.md:72` says CLOCK_MONOTONIC; the code asks for clock 0, which is
  CLOCK_REALTIME. When the clock is set back between entry and return the recorded duration is a
  number near 2^64; `ProtocolEvents.DurationsMatch` says exactly when, and `ProtocolClock.ClockSetBack`
  gives such a run for every pair of times.
- Names of 128 characters and more are stored cut to 127 but compared in full, so the check for a
  second probe on the same function never finds them (`ProbeTable.LookupMeetsStored`,
  `ProbeTable.AddKey`, `ProbeTable.LongNamesCollide`).
- The decoder's tables are not the processor's. `OpcodeMaps.LengthsAgree` says for every string of bytes
  when the two lengths agree: the predicate `OpcodeMaps.TablesAgree` on prefixes, opcode and ModRM, or no
  instruction by either. Among the rest are the accumulator forms 0x04 to 0x3D, 0xA8 and 0xA9, moves of a
  byte 0xB0 to 0xB7, x87 0xD8 to 0xDF, loops and port accesses 0xE0 to 0xE7, 64-bit absolute addresses
  0xA0 to 0xA3, 16-bit immediates behind 0x66, a REX.W that another prefix follows, most of the MMX and SSE
  rows after 0x0F, and everything in other maps. `OpcodeMaps.DecoderReads` says what the decoder takes for
  each of these. `OpcodeMaps.CutInside` shows a prologue whose saved part
  ends inside an instruction.
- `remote_syscall` on a thread that stands on the gadget itself reports success without having run
  the call: the int3 it plants is the first thing the thread meets (`RemoteSyscall.GadgetBlocked`).
  The call runs first exactly when the thread stands on neither byte of the syscall instruction
  (`RemoteSyscall.CallRunsFirst`).

## Model

| member | source | states |
|---|---|---|
| `ProtocolTheorem.TransparentReturns` | injector/trampoline_x86_64.c:583-691 | In every interleaving of threads, clock and enable/disable toggles, the calls and returns seen are those of the unprobed program: each return lands on the address its own call pushed, and no thread meets the undefined instruction or a wild address. |
| `ProtocolTheorem.StepKeeps` | injector/trampoline_x86_64.c:250-294 | One step of anybody shows only what the unprobed program could do, and keeps the relation between the two. |
| `ProtocolTheorem.Settle` | injector/trampoline_x86_64.c:193-245 | When one thread moves within its guarantee, every other thread's invariant still holds. |
| `ProtocolEntry.EntryKeeps` | injector/trampoline_x86_64.c:128-337 | Every step of the entry stub keeps the shared and the thread's own invariants, touches only its own slot and its own ticket, and never strays out of bounds. |
| `ProtocolReturn.ReturnKeeps` | injector/trampoline_x86_64.c:548-691 | The same for the return stub; its last step resumes at the top of the program's own stack of return addresses. |
| `ProtocolReturn.StubHasShadow` | injector/trampoline_x86_64.c:633-641 | A thread in the return stub owns a slot with something to pop, so neither fallback jump is taken. |
| `ProtocolInvariant.ThreadStable` | injector/trampoline_x86_64.c:169-178 | What other threads may do leaves a thread's invariant alone, its reads back from the ring included. |
| `ProtocolMemory.GuarRely` | injector/trampoline_x86_64.c:406-416 | What one thread guarantees is what every other relies on, given that tickets a lap apart are not in use together. |
| `ProtocolMemory.ReserveReturnKeeps` | injector/trampoline_x86_64.c:650-660 | Reserving a return ticket closes exactly the popped entry, after all later calls of the thread. |
| `ProtocolEvents.DepthCountsHookedCells` | injector/trampoline_x86_64.c:277-286 | Outside the stubs a slot's depth is the number of the thread's return cells that hold the stub's address, plus the calls entered by a jump. |
| `ProtocolEvents.SlotTableShape` | injector/trampoline_x86_64.c:193-245 | Claimed slots form a prefix and hold pairwise distinct threads; no depth exceeds 64. |
| `ProtocolEvents.ClaimsAreForever` | injector/trampoline_x86_64.c:226-232 | A claimed slot is never released or handed over, in any continuation of a run. |
| `ProtocolEvents.ScanFindsOwnSlot` | injector/trampoline_x86_64.c:555-581 | The return stub's scan ends at the one slot of its thread, which has exactly the thread's pending calls on it. |
| `ProtocolEvents.EventsConserved` | injector/trampoline_x86_64.c:403-468 | The write index counts entry and return events; at rest entry events are return events plus outstanding frames plus entries that were refused a push. |
| `ProtocolEvents.DurationsMatch` | injector/trampoline_x86_64.c:683-689 | A return event belongs to one entry event of its thread; its duration is the difference of the two times exactly when the clock reads no earlier at the return, and off by 2^64 otherwise. |
| `ProtocolEvents.MatchesAreUnique` | injector/trampoline_x86_64.c:639-643 | No two return events share an entry event. |
| `ProtocolEvents.InnerCallsNest` | injector/trampoline_x86_64.c:260-263 | A call that a thread enters while another of its calls is outstanding was refused a push or returns first, and with a clock that is never set back its interval lies inside the outer one's. |
| `ProtocolClock.ClockSetBack` | injector/trampoline_x86_64.c:683-689 | For every entry time and every earlier return time there is a run from the first state, one thread and one hooked call, that records the difference of the two times modulo 2^64. |
| `ProtocolEvents.EventContents` | injector/trampoline_x86_64.c:441-464 | A finished event carries its probe's ids, its thread, and its own call's arguments or result. |
| `ProtocolEvents.RingHoldsLastLap` | injector/trampoline_x86_64.c:406-416 | At rest the last 4096 log entries lie in the ring at their ticket modulo 4096. |
| `ProtocolEvents.RingShape` | injector/trampoline_x86_64.c:406-426 | The write index is the number of tickets modulo 2^64. |
| `ProtocolEvents.EntryBounded` | injector/trampoline_x86_64.c:193-308 | The entry stub ends within 1356 of its own steps whatever others do. |
| `ProtocolEvents.ReturnBounded` | injector/trampoline_x86_64.c:555-708 | The return stub ends within 300 of its own steps whatever others do. |
| `EntryStubProof.EntryStubIsTheAutomaton` | injector/trampoline_x86_64.c:365-482 | For every start state and every behaviour of the environment the entry stub's code makes the accesses of the protocol's automaton for rdi, rsi, rdx, rcx, r8, r9, in order and with its values, leaves within 2650 blocks, and hands the trampoline all registers, flags and stack unchanged but for the return cell. |
| `EntryStubProof.BlockStep` | injector/trampoline_x86_64.c:398-468 | Each block makes the one access the automaton asks for, with the address and value it asks for, or none. |
| `EntryStubProof.BlockNearer` | injector/trampoline_x86_64.c:193-308 | Each block brings the stub's end nearer. |
| `EntryStubProof.AbsoluteJump` | injector/trampoline_x86_64.c:44-61 | push, movabs, xchg, ret reach the target with every register, flag and stack cell as before. |
| `ReturnStubProof.ReturnStubIsTheAutomaton` | injector/trampoline_x86_64.c:484-733 | The same for the return stub: it resumes at the address the automaton popped with everything but r11 as the probed function left it, and meets the undefined instruction just when the automaton traps. |
| `ReturnStubProof.BlockStep` | injector/trampoline_x86_64.c:548-689 | Each block of the return stub against its automaton. |
| `StubRuns.RunPopAll` | injector/trampoline_x86_64.c:389-396 | The epilogue gives back what the prologue saved, in every register. |
| `ReturnStubRuns.RunReturnEpilogue` | injector/trampoline_x86_64.c:513-521 | The return stub's epilogue gives everything back but r11, which holds the address to go to. |
| `StubRuns.ScaledTicket` | injector/trampoline_x86_64.c:409-415 | The three shifts and two additions make 88 times the masked ticket. |
| `StubBytes.EmittedEncodes` | injector/trampoline_x86_64.c:379-476 | The array of each instruction, with the immediate behind it, is its encoding; what that encoding is read as, `Disassembler.InstrReadsBack` says. |
| `StubBytes.EntryWrites` | injector/trampoline_x86_64.c:379-476 | What is emitted for each block of the entry stub is the block's encoding. |
| `StubBytes.ReturnWrites` | injector/trampoline_x86_64.c:504-713 | The same for the return stub. |
| `StubBytes.SaveBytes` | injector/trampoline_x86_64.c:379-396 | The save and restore arrays of both stubs are the pushes and pops they claim to be. |
| `Disassembler.InstrReadsBack` | injector/trampoline_x86_64.c:379-691 | For every register, every address form and every constant that fits its field: reading an encoding by the manual's opcode tables, operand columns, REX bits, ModRM, SIB and displacement gives the very instruction, with the same source and destination, and leaves what follows it. |
| `Disassembler.EndReadsBack` | injector/trampoline_x86_64.c:313-334 | The jumps, the return, the jump through a register and the undefined instruction are read back likewise, a displacement as a signed number. |
| `Disassembler.ConcreteRuns` | injector/trampoline_x86_64.c:28-42 | Filling the probe's constants into an instruction changes nothing in what it does. |
| `ByteSteps.EmittedReadsBack` | injector/trampoline_x86_64.c:379-691 | What the builder emits for an instruction is read by the processor as that instruction: the duration is the return time less the entry time, not the other way round, and so for each of the rest. |
| `ByteSteps.CodeSteps` | injector/trampoline_x86_64.c:379-476 | Straight-line code in memory, read and carried out one instruction after the other, does what the code does and ends behind its last byte. |
| `ByteSteps.BlockSteps` | injector/trampoline_x86_64.c:313-334 | A block of an assembled program: the processor comes from its first byte to the first byte of the block that is next, along the displacement it reads, or leaves as the block leaves. |
| `ByteSteps.StubSteps` | injector/trampoline_x86_64.c:365-733 | A whole run of a stub by blocks, however long, is a run of the processor on the stub's bytes in memory, with the same accesses and the same end. |
| `Assembler.AsmPatch` | injector/trampoline_x86_64.c:313-334 | Writing over one placeholder changes that displacement and no other byte. |
| `Assembler.Rel32RoundTrips` | injector/trampoline_x86_64.c:313-314 | A displacement within 32 bits is read back, sign extended, as it was computed. |
| `Assembler.JumpsHit` | injector/trampoline_x86_64.c:313-334 | In any assembled program, for every jump: placeholder offset + 4 + displacement is the start of the block meant. |
| `StubSizes.EntryJumpsHit` | injector/trampoline_x86_64.c:313-334 | That holds of every jump of the entry stub, the loop's backward jump and the first jump to the epilogue included. |
| `StubSizes.ReturnJumpsHit` | injector/trampoline_x86_64.c:718-727 | And of every jump of the return stub. |
| `StubSizes.StubsFit` | include/runtime.h:12-13 | The stubs take 466 (281 without the hooking part) and 350 bytes, so they fit their 4096, and the trampoline its 128. |
| `Codegen.CodeWriter.EmitBytes` | injector/trampoline_x86_64.c:17-26 | Appends exactly these bytes, or fails with nothing changed just when they do not fit. |
| `Codegen.CodeWriter.EmitAll` | injector/trampoline_x86_64.c:181-186 | A chain of emits appends all its chunks, or stops just when they do not all fit. |
| `Codegen.CodeWriter.Patch` | injector/trampoline_x86_64.c:313-314 | Fills in one placeholder and leaves the rest of the buffer alone. |
| `Codegen.EmitPush` | injector/trampoline_x86_64.c:181-311 | The hooking part is emitted in full with its placeholders still open, and the offsets noted on the way are those of the labels and placeholders. |
| `Codegen.PatchPush` | injector/trampoline_x86_64.c:313-334 | The eleven fixups set the displacement of each of its jumps to its label. |
| `Codegen.BuildEntryStub` | injector/trampoline_x86_64.c:365-482 | Writes exactly the assembled entry stub and nothing behind it; fails with ENOSPC just when it does not fit. |
| `Codegen.BuildRetStub` | injector/trampoline_x86_64.c:484-733 | The same for the return stub, with EINVAL when there is no shadow stack. |
| `Codegen.BuildTrampoline` | injector/trampoline_x86_64.c:340-362 | The saved prologue byte for byte and the jump back; EINVAL for lengths outside 1..32, ENOSPC when it does not fit. |
| `Patch.RelJmpLands` | injector/patch_x86_64.c:10-22 | A jump in reach, forward or backward, goes exactly to its target. |
| `Patch.MakeRelJmp` | injector/patch_x86_64.c:10-22 | Fills the array just when the displacement fits 32 bits, else ERANGE with the array unchanged. |
| `Patch.ReadOriginalCode` | injector/patch_x86_64.c:24-53 | EINVAL without a transfer exactly when more than 32 bytes are wanted; the transfer's own error exactly when it fails; and once the 32 bytes are there, success exactly when an instruction ends between the wanted length (at least 5) and 32, with the least such run saved, 5 to 19 bytes for the jump alone, and else EINVAL; the overflow exits cannot be taken. |
| `Patch.PatchEntry` | injector/patch_x86_64.c:55-69 | EINVAL exactly when fewer than five bytes were saved, ERANGE exactly when the stub is out of reach, both without a transfer; else the transfer decides: all five bytes of the jump on success, a counted prefix on failure. |
| `Patch.RestoreEntry` | injector/patch_x86_64.c:71-80 | EINVAL exactly for lengths outside 1..32, without a transfer; else the transfer decides: exactly the saved bytes on success, a counted prefix of them on failure. |
| `PatchedFunction.PatchedSimulates` | injector/patch_x86_64.c:55-69 | On every processor that runs the prologue's bytes alike wherever they lie and does not let them touch the return cell: the processor, reading instruction by instruction from memory, goes by the entry jump, the entry stub, the bytes found in the trampoline and the jump back to the place after the prologue, where the unpatched bytes lead in one move, in the same state but for the return cell. |
| `PatchedFunction.FrameSetupQualifies` | injector/trampoline_x86_64.c:340-362 | The usual prologue, push rbp; mov rbp, rsp; sub rsp, 16, is one that this asks for. |
| `Install.InstallRuntime` | injector/probe_manager.c:57-129 | Success exactly when pid and length make sense and the last request was granted; then a fresh area holds configuration, empty ring, empty slot table, trampoline and both stubs; whatever happens, code and other areas are untouched. |
| `Install.SixWrites` | injector/probe_manager.c:107-126 | None of the six regions written disturbs another. |
| `Install.ConfigReads` | runtime/runtime_config.c:5-12 | The 24 bytes of the configuration read as enabled, the probe's id, and the addresses of the event buffer and the shadow stacks. |
| `Decoder.ReadModrmLen` | injector/instruction_x86_64.c:101-144 | Moves past ModRM, SIB and displacement, or fails just when they are not all there. |
| `Decoder.InsnLen` | injector/instruction_x86_64.c:146-209 | For every string of bytes, exactly the length that the grammar's parser finds at its head, or EINVAL; nothing behind the given bytes is read. `OpcodeMaps.DecoderReads` says the same in the manual's terms. |
| `Decoder.LengthIsPrinted` | injector/instruction_x86_64.c:176-208 | That answer in terms of the grammar: it succeeds exactly when a well-formed instruction of at most 15 bytes is a prefix, and gives its printed length. |
| `Decoder.LengthIgnoresRest` | injector/instruction_x86_64.c:202-208 | Bytes behind the instruction do not matter. |
| `Decoder.PrintParses` | injector/instruction_x86_64.c:161-200 | Every well-formed instruction is found again in front of any bytes. |
| `Decoder.ParsePrints` | injector/instruction_x86_64.c:161-200 | What is found is well formed, and its printed form is there. |
| `Decoder.Unambiguous` | injector/instruction_x86_64.c:161-200 | At most one instruction starts a string of bytes. |
| `OpcodeMaps.DecoderReads` | injector/instruction_x86_64.c:6-99 | For every string of bytes, without the decoder's own tables: the manual's length where the tables are right; elsewhere prefixes, opcode and, by class, nothing more (accumulator immediates, moves of a byte, x87, loops, ports, unlisted rows), four bytes of an address of eight, an immediate of one or of four bytes whatever the operand size, eight as the last REX prefix says, or the address form without its immediate. |
| `OpcodeMaps.LengthsAgree` | injector/instruction_x86_64.c:6-99 | For every string of bytes the decoder's length is that of the manual's opcode maps in 64-bit mode exactly when prefixes, opcode and ModRM are among those that the tables have right, or neither finds an instruction. |
| `OpcodeMaps.CutsAgree` | injector/instruction_x86_64.c:223-237 | The decoder cuts a stretch of code into the processor's instructions exactly when the tables are right about each one it meets. |
| `OpcodeMaps.PatchLenIsReal` | injector/instruction_x86_64.c:211-241 | Then the patch length found is the least boundary of the processor's own instructions. |
| `OpcodeMaps.AccumulatorImmediatesMissed` | injector/instruction_x86_64.c:44-88 | Otherwise it need not be: 0x05 is one byte long to this decoder and five bytes to the processor. |
| `OpcodeMaps.CutInside` | injector/instruction_x86_64.c:223-237 | Behind four nops the decoder's first boundary for a jump lies inside that instruction. |
| `Decoder.CalcPatchLen` | injector/instruction_x86_64.c:211-241 | The least instruction boundary at or past the minimum, at most 14 past it, exactly when there is one within 32 bytes; EOVERFLOW exactly when there is none but a later one; EINVAL for a minimum of 0 and when instructions end before that. |
| `Decoder.BoundaryEndsProgram` | injector/instruction_x86_64.c:223-237 | Boundaries are the ends of sequences of well-formed instructions. |
| `Layout.LayoutInit` | runtime/remote_layout.c:11-56 | Six regions in order, aligned to 16, disjoint and inside the area, at the offsets the other modules use. |
| `Layout.AlignUpIsLeastMultiple` | runtime/remote_layout.c:6-9 | Rounding up gives the least multiple at or above the value. |
| `Layout.ClearLowIsMask` | runtime/remote_layout.c:6-9 | On 64-bit words the mask is subtraction of the remainder. |
| `Layout.PlacesStayInRegion` | injector/trampoline_x86_64.c:200-205 | Every event and slot field that a stub addresses lies inside its own region. |
| `Layout.PlacesAreDisjoint` | injector/trampoline_x86_64.c:255-263 | No two different fields of ring and slot table overlap. |
| `Layout.ShiftsBuildEventOffset` | cli/cmd_events.c:154-157 | The stub's shifts and the reader's multiplication give the same offset. |
| `MemoryImage.AccessRefines` | injector/trampoline_x86_64.c:398-468 | Each load, store, lock xadd and lock cmpxchg, done on the target's bytes at the address the code uses, answers what the protocol's memory answers, with a value that fits its field, leaves bytes that hold what the protocol leaves, the ring's capacity included, and changes nothing outside the data regions. |
| `MemoryImage.StoreRefines` | include/runtime.h:16-38 | A store changes what its own field reads as, and no other field of configuration, ring or slot table. |
| `MemoryImage.InstalledIsInit` | injector/probe_manager.c:86-117 | The bytes as installed hold the protocol's first state: enabled, write index 0, capacity 4096, no slot claimed. |
| `ByteRun.StepHolds` | injector/trampoline_x86_64.c:398-468 | One step of anybody on bytes that hold a world: every value stored fits its field, and the bytes hold the next world. |
| `ByteRun.InstalledRunHolds` | injector/probe_manager.c:107-126 | The bytes reached by any run from an installed area hold the memory of the world reached, and the code is as installed. |
| `MachineRun.EntryMoves` | injector/trampoline_x86_64.c:365-482 | One block of the entry stub on shared bytes does to them what the automaton's step does, or nothing while the automaton waits. |
| `MachineRun.ReturnMoves` | injector/trampoline_x86_64.c:484-733 | The same for the return stub. |
| `MachineTheorem.RoomAgrees` | injector/trampoline_x86_64.c:406-416 | No processor using the ring slot that comes next is what the protocol asks of tickets a lap apart. |
| `MachineTheorem.MoveAdvances` | injector/trampoline_x86_64.c:365-733 | Every move of the machine, a call, a return or one block of a stub, is at most one step of the protocol, and shows what an unprobed program could. |
| `MachineTheorem.CodeIsTransparent` | injector/trampoline_x86_64.c:365-733 | Any number of processors running the two stubs' code in any interleaving on the bytes of an installed area: the calls and returns seen are an unprobed program's, nobody meets the undefined instruction or leaves a stub to a wrong place or with a wrong register, flag or stack cell, and the bytes always hold a world that the protocol reaches. |
| `MachineTheorem.BytesUnderCore` | injector/trampoline_x86_64.c:313-334 | At every point of a run, a processor in a stub that reads instruction by instruction from the bytes in memory at its address comes to the registers, flags and stack that the machine gives it after its block, by the same accesses, and to the address of the block that comes next or that it leaves for. |
| `MachineTheorem.NeverStuck` | injector/trampoline_x86_64.c:193-308 | A processor in a stub can always go on: its next block has an input that the bytes, the clock and the kernel answer. |
| `RemoteMem.Tracee.RemoteWrite` | controller/remote_mem_ptrace.c:124-231 | The kernel's answers decide: success exactly when one vector call wrote all, or answered -1 and every poke of a whole word and the peek and poke of the last part were granted; EIO exactly on a short vector call; the ptrace error exactly on a refused peek or poke. Success changes exactly the named bytes, for every length and alignment; failure leaves a written prefix, as long as those answers say. |
| `RemoteMem.Tracee.RemoteRead` | controller/remote_mem_ptrace.c:28-116 | The same for reading: one vector call, or a peek for each word begun; success fills the buffer with the target's bytes, failure a counted prefix of it. |
| `RemoteMem.WriteDecided` | controller/remote_mem_ptrace.c:148-230 | The same answers never lead to two outcomes or two counts. |
| `RemoteMem.PutAt` | controller/remote_mem_ptrace.c:206-227 | A write changes its own bytes and no others. |
| `RemoteMem.ReadAfterWrite` | controller/remote_mem_ptrace.c:74-116 | Reading back gives what was written. |
| `RemoteMem.WriteBack` | controller/remote_mem_ptrace.c:170-230 | Writing back what was read undoes any write to those bytes. |
| `RemoteMem.PutTail` | controller/remote_mem_ptrace.c:181-213 | The read-modify-write of the last word changes the new bytes only. |
| `RemoteSyscall.Target.RemoteSyscall` | controller/remote_syscall.c:40-164 | An exact account of every way out: the nine requests in order as far as the first that fails, which decides the error; then the undoing, nothing before the int3 was tried, byte and registers until the call has come back, the registers alone when the byte could not be put back; and which of the two were granted. So the registers are the caller's again whenever the last request was granted, the byte at rip whenever the request before it was; on success the call ran exactly once and memory differs by its effect and the eight bytes below rsp; after a failure with both undone the call ran at most once. |
| `RemoteSyscall.SettledWell` | controller/remote_syscall.c:26-38 | What that account comes to when the undoing came through. |
| `RemoteSyscall.SettledBack` | controller/remote_syscall.c:26-38 | What was undone can be told from the last two answers. |
| `RemoteSyscall.Target.Restore` | controller/remote_syscall.c:26-38 | Asks for the byte, unless there is none to put back, and then for the registers, whatever is answered to the first; each is put back exactly when that was granted. |
| `RemoteSyscall.GadgetRuns` | controller/remote_syscall.c:93-150 | From the gadget the thread runs the call, pops the pushed address and meets the int3, also when the int3 has replaced the gadget's ret. |
| `RemoteSyscall.GadgetBlocked` | controller/remote_syscall.c:82-112 | Standing on the gadget, the thread traps with no call run and the call's number as its result. |
| `RemoteSyscall.CallRunsFirst` | controller/remote_syscall.c:82-112 | The requested call is the first thing to run exactly when the original rip is neither the gadget's first nor its second byte. |
| `ProbeTable.LookupMeetsStored` | injector/probe_manager.c:203-222 | The search finds a name's stored form exactly when the name is shorter than 128. |
| `ProbeTable.AddKey` | injector/probe_manager.c:240-250 | After the search found nothing, a new entry keeps keys unique exactly when its name is shorter than 128 or its first 127 characters are nobody's name. |
| `ProbeTable.LongNamesCollide` | injector/probe_manager.c:213-222 | For every longer name, the search misses the entry it made. |
| `ProbeTable.AttachCode` | injector/patch_x86_64.c:55-69 | Code memory stays the original overlaid with one jump per live probe when a jump is added on a free stretch. |
| `ProbeTable.DetachCode` | injector/patch_x86_64.c:71-80 | And when a probe's saved bytes are put back, in any order. |
| `ProbeTable.EmptyTableRestores` | injector/probe_manager.c:303-328 | With no live probe the code is byte for byte the original. |
| `ProbeManager.Manager.constructor` | injector/probe_manager.c:131-138 | Sixteen empty descriptors, each with its own number. |
| `ProbeManager.Manager.Find` | injector/probe_manager.c:213-222 | The first match, or none exactly when there is none. |
| `ProbeManager.Manager.Alloc` | injector/probe_manager.c:193-211 | Fills the first free slot, or changes nothing when all are live. |
| `ProbeManager.Manager.Attach` | injector/probe_manager.c:240-301 | EEXIST exactly when the name is found and ENOSPC exactly when all slots are live, both with nothing changed or asked for; success fills the first free slot with address, library, name and flags of the request, saves the least run of whole instructions, installs a fresh area and writes the whole jump; any other failure frees the slot, leaves the code as it was but for the counted first bytes of a jump at the function's address, and has a cause: no symbol, threads not stopped, pid or address 0, a prologue that cannot be cut, an area out of reach, or a refused request; stopped threads are resumed either way. |
| `ProbeManager.Manager.Place` | injector/probe_manager.c:267-289 | Reading, installing and patching for one descriptor: all of it exactly when none of those causes is there, or all but the counted first bytes of the jump undone where it matters. |
| `ProbeManager.Manager.Detach` | injector/probe_manager.c:303-328 | Success puts all the saved bytes back, clears the slot, unmaps the area if the kernel grants that, and changes nothing else outside the area; it fails exactly when the threads cannot be stopped, no valid length was saved, or the write fails, with the table alone and exactly the counted first bytes put back. |
| `ProbeManager.Manager.SetEnabled` | injector/probe_manager.c:330-360 | Sets the flag in the table and in the target alike; ENOENT exactly without an area; fails exactly when the transfer does, with the table alone and exactly the counted first bytes of the flag written. |
| `ProbeManager.AttachStepMirrors` | injector/probe_manager.c:240-301 | An attach to a free stretch, or one that failed before writing to the code, carries the mirror of table and memory on; success leaves the probe as installed. |
| `ProbeManager.DetachStepMirrors` | injector/probe_manager.c:303-328 | So does a detach. |
| `ProbeManager.FlagStepMirrors` | injector/probe_manager.c:330-360 | So does setting a flag. |
| `ProbeManager.AttachMirrors` | injector/probe_manager.c:275-299 | The successful attach itself: area, saved bytes and jump added to what memory mirrors. |
| `ProbeManager.DetachMirrors` | injector/probe_manager.c:314-323 | A detach as a step on table and memory, its area unmapped or not. |
| `ProbeManager.FlagMirrors` | injector/probe_manager.c:25-38 | Setting one flag disturbs neither code nor the other probes. |
| `ProbeManager.AttachedIsPatched` | injector/probe_manager.c:275-291 | What a successful attach leaves is what the simulation theorem for patched functions asks for. |
| `ProbeManager.SavedCodeIsReal` | injector/patch_x86_64.c:24-53 | What it saved is whole instructions of the processor's, when the decoder's tables are right about each. |
| `ProbeSession.Session` | injector/probe_manager.c:240-360 | Running a list of operations is a chain of exactly these, each an attach, detach or flag step from the table and memory that the last one left, on the slot that the search gives. |
| `ProbeSession.ThreadsRunAgain` | injector/probe_manager.c:262-323 | Whatever the outcome of an operation, threads that it stopped it has resumed by its end. |
| `ProbeSession.RunKeepsOrder` | injector/probe_manager.c:193-222 | Every such run keeps the table in order, and all its names distinct when those attached are shorter than 128. |
| `ProbeSession.CleanRunMirrors` | injector/probe_manager.c:240-360 | After every run whose operations came through on free stretches or failed before writing, memory mirrors the table: the original code under one jump a live probe, the original bytes saved, flags as in the table. |
| `ProbeSession.CleanRunRestores` | injector/probe_manager.c:303-328 | If no probe is left the code is byte for byte what it was, whatever the order of operations. |
| `ProbeSession.TableIsMap` | injector/probe_manager.c:213-250 | For names shorter than 128 the table refines a map from names to flags: the probes left after any run, and which attaches are refused as existing and which other operations as unknown, are the map's. |
| `EventReader.ReadEvents` | cli/cmd_events.c:116-169 | Prints, for each sequence number of the window, the event in its slot; ENOENT exactly without a buffer, EINVAL exactly for a capacity out of bounds, a transfer's error exactly when the last transfer failed, with a correct beginning printed. |
| `EventReader.DecodesRing` | include/event.h:11-23 | The bytes of a slot decode to the event the stubs' stores put there. |
| `EventReader.PrintsEndOfLog` | cli/cmd_events.c:136-166 | After any run from an installed area that leaves nobody inside a stub, the header read has capacity 4096 and the log's length modulo 2^64, and what is printed is exactly the last min(total, limit) entries of the log, in order. |
| `EventReader.MachinePrintsEndOfLog` | cli/cmd_events.c:136-166 | The same of the bytes that processors running the stubs' code have reached. |

## Left out

- ProtocolTheorem.TransparentReturns: holds of runs that meet the assumptions above. A handler that
  re-enters a stub between its stores, a jump past a probed frame, and detaching under a frame are
  assumed away; one probe is modelled at a time.
- MachineTheorem.CodeIsTransparent: a block of a stub, which makes at most one access to shared memory, runs
  as a whole, with one input for its instructions; stacks are lists of cells apart from the shared bytes;
  memory is sequentially consistent.
- Disassembler.InstrReadsBack: reads the opcodes and operand forms that occur in the stubs, the trampoline and
  the jumps; negative displacements, addresses without a base register or relative to rip, and prefixes other
  than lock and REX are not read.
- PatchedFunction.PatchedSimulates: memory below rsp is not compared, because the jump back pushes
  there (section 3.2.2 of the System V AMD64 ABI); prologues whose effect depends on their address are
  excluded, because the bytes are copied as they are; the stack is a list of cells from rsp upwards.
- OpcodeMaps.LengthsAgree: entries of the second map that exist under some prefixes or for some ModRM.reg only
  are taken to exist for all; the maps behind 0F 38, 0F 3A, VEX and EVEX are not written out, and there the
  decoder counts as wrong.
- RemoteSyscall.Target.RemoteSyscall: does not say what runs for a thread standing on the gadget's second byte,
  because the planted byte makes another instruction there; a SIGTRAP stop is taken to be the int3's;
  the kernel's restart of a call that the thread was already in is not modelled.
- ProbeManager.Manager.Attach: that a failed attempt gives its mapping back is not claimed, because it does
  not; what the borrowed system call leaves outside code and live areas is not described.
- ProbeManager.AttachStepMirrors: asks for a stretch apart from those of the live probes, because the table knows
  functions by name only.
- RemoteMem.Tracee.RemoteWrite: a poke of one word is taken to happen whole or not at all.
- Resolution of symbols, scanning of maps and ELF files, the search for the gadget, attaching to and
  stopping threads: their answers are inputs.
- remote_mmap and remote_munmap: modelled by what they do to the target's memory, not as calls of the
  borrowed thread.
- The state file, command-line parsing (the reader's limit is taken as clamped to 4096 there), CSV and other
  printing.
- Page permissions, floating-point and vector state, instruction caches.
