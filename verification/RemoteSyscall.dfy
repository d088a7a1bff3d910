/** Running one system call in a borrowed thread: the controller plants an int3 under the thread's
    instruction pointer, pushes that address as a return address, and lets the thread run a
    syscall; ret gadget into it. */
module RemoteSyscall {
  import opened Wrappers
  import opened X86
  import opened RemoteMem

  datatype Call = Call(no: Word, a1: int, a2: int, a3: int, a4: int, a5: int, a6: int)

  /** What a system call does: a result, bytes that appear or change, bytes that go. */
  datatype Done = Done(ret: Word, puts: Memory, drops: set<int>)

  type KernelModel = (Memory, Call) -> Done

  function Applied(m: Memory, d: Done): Memory
  {
    (m - d.drops) + d.puts
  }

  predicate Spares(d: Done, x: int)
  {
    x !in d.puts && x !in d.drops
  }

  // ---------------------------------------------------------------- the borrowed thread, running

  /** The thread, its process's memory, and history: the system calls run so far. */
  datatype State = State(m: Memory, u: UserRegs, calls: seq<Call>)

  datatype Stepped = Next(s: State) | Trapped(s: State) | Strayed

  function CallOf(r: Regs): Call
  {
    Call(if r.rax >= 0 then r.rax else 0, r.rdi, r.rsi, r.rdx, r.r10, r.r8, r.r9)
  }

  /** One instruction: int3, ret and syscall; any other is beyond this model. */
  function Step(k: KernelModel, s: State): Stepped
  {
    var rip, r := s.u.rip, s.u.r;
    if rip !in s.m then Strayed
    else if s.m[rip] == 0xCC then Trapped(s.(u := s.u.(rip := rip + 1)))
    else if s.m[rip] == 0xC3 && Mapped(s.m, r.rsp, 8) then
      Next(s.(u := s.u.(rip := FromLE(Slice(s.m, r.rsp, 8)), r := r.(rsp := r.rsp + 8))))
    else if s.m[rip] == 0x0F && rip + 1 in s.m && s.m[rip + 1] == 0x05 then
      var d := k(s.m, CallOf(r));
      Next(State(Applied(s.m, d), s.u.(rip := rip + 2, r := r.(rax := d.ret, rcx := rip + 2, r11 := s.u.flags)),
                 s.calls + [CallOf(r)]))
    else Strayed
  }

  /** The state at the int3, if it comes within n instructions and nothing else happens before. */
  function ToTrap(k: KernelModel, s: State, n: nat): Option<State>
    decreases n
  {
    if n == 0 then None else
    match Step(k, s)
    case Strayed => None
    case Trapped(t) => Some(t)
    case Next(t) => ToTrap(k, t, n - 1)
  }

  /** The state after n instructions that neither trapped nor strayed. */
  function After(k: KernelModel, s: State, n: nat): Option<State>
    decreases n
  {
    if n == 0 then Some(s) else
    match Step(k, s)
    case Next(t) => After(k, t, n - 1)
    case _ => None
  }

  // ---------------------------------------------------------------- the tracer's view

  datatype Result = Success(ret: int) | Failure(e: Error)

  datatype Error = BadArgument | NoGadget | Ptrace | Memory(e: Errno) | Fault

  class Target {
    const t: Tracee
    const kernel: KernelModel
    var regs: UserRegs
    var calls: seq<Call>

    constructor (t: Tracee, kernel: KernelModel, regs: UserRegs)
      ensures this.t == t && this.kernel == kernel && this.regs == regs && calls == []
    {
      this.t := t;
      this.kernel := kernel;
      this.regs := regs;
      calls := [];
    }

    function Now(): State
      reads this, t
    {
      State(t.mem, regs, calls)
    }

    method GetRegs() returns (ok: bool, u: UserRegs)
      modifies t`log
      ensures ok ==> u == regs
      ensures t.log == old(t.log) + [GotRegs(ok)]
    {
      ok, u := *, regs;
      t.log := t.log + [GotRegs(ok)];
    }

    method SetRegs(u: UserRegs) returns (ok: bool)
      modifies this`regs, t`log
      ensures regs == if ok then u else old(regs)
      ensures t.log == old(t.log) + [PutRegs(u, ok)]
    {
      ok := *;
      if ok { regs := u; }
      t.log := t.log + [PutRegs(u, ok)];
    }

    /** PTRACE_CONT and waitpid. `trap` says that the thread stopped with SIGTRAP, which its own int3 is
        taken to be the only cause of; otherwise something else stopped it on the way, or it ended. */
    method ContAndWait() returns (ok: bool, trap: bool, ghost steps: nat)
      modifies this`regs, this`calls, t
      ensures t.log == old(t.log) + [Continued(ok, trap)]
      ensures !ok ==> Now() == old(Now())
      ensures ok && trap && ToTrap(kernel, old(Now()), 3).Some? ==> Now() == ToTrap(kernel, old(Now()), 3).value
      ensures ok && !trap && ToTrap(kernel, old(Now()), 3).Some? ==>
                steps <= 2 && After(kernel, old(Now()), steps) == Some(Now())
    {
      ok, trap, steps := *, *, 0;
      t.log := t.log + [Continued(ok, trap)];
      if !ok { return; }
      var s := Now();
      if ToTrap(kernel, s, 3).Some? {
        if trap {
          s := ToTrap(kernel, s, 3).value;
        } else {
          var j: nat := *;
          if j <= 2 && After(kernel, s, j).Some? {
            s := After(kernel, s, j).value;
            steps := j;
          }
        }
        t.mem, regs, calls := s.m, s.u, s.calls;
      } else {
        t.mem, regs, calls := *, *, *;
      }
    }

    /** restore_remote_state_best_effort, when all began in state `s`. The ghost results say which of the two
        steps came through, and what was asked for. */
    method Restore(pid: int, patched: Word, code: seq<Byte>, saved: UserRegs, ghost s: State)
      returns (ghost undo: Undo, ghost asked: seq<Response>)
      requires saved == s.u
      requires code != [] ==> patched == s.u.rip && s.u.rip in s.m && code == [s.m[s.u.rip]]
      modifies this`regs, t
      ensures Now() == Undone(s, old(Now()), undo) && t.log == old(t.log) + asked
      ensures if patched != 0 && code != [] then BothAsked(pid, s.u, asked, undo) else OneAsked(s.u, asked, undo)
    {
      hide Put, Undone, WriteGoes;
      ghost var e, done := EINVAL, 0;
      ghost var before := Now();
      asked := [];
      if patched != 0 && |code| > 0 {
        PutNothing(t.mem, patched, code[..0]);
        e, done, asked := t.RemoteWrite(pid, patched, code);
      }
      ghost var wrote := asked;
      var ok := SetRegs(saved);
      undo, asked := Undo(e == Fine, ok), asked + [PutRegs(saved, ok)];
      assert asked[..|wrote|] == wrote;
      UndoneIs(s, before, undo);
    }

    /** The end of a call that came back to the int3: its result, the byte under the int3, the registers. */
    method Collect(pid: int, code: seq<Byte>, saved: UserRegs, ghost s: State, ghost c: Call, ghost g: Word,
                   ghost front: seq<Response>)
      returns (r: Result, ghost undo: Undo, ghost asked: seq<Response>, ghost k: nat)
      requires saved == s.u && s.u.rip in s.m && code == [s.m[s.u.rip]] && s.u.rip != 0
      requires Went(pid, Script(s.u, c, g), 6, front)
      modifies this`regs, t
      ensures Now() == Undone(s, old(Now()), undo) && t.log == old(t.log) + asked
      ensures 6 <= k && Attempt(pid, s.u, c, g, k, front + asked, r, undo)
      ensures r.Success? ==> r.ret == old(regs).r.rax
    {
      hide Put, Undone, Went, Heard, WriteGoes, BothAsked, OneAsked, Armed;
      undo, asked, k := Undo(false, false), [], 6;
      ghost var mid, script := Now(), Script(s.u, c, g);
      var ok, u := GetRegs();
      HeardRegs(pid, ok);
      if !ok {
        ghost var more;
        undo, more := Restore(pid, saved.rip, code, saved, s);
        BreaksOff(pid, s.u, c, g, 6, front, [GotRegs(false)], Ptrace, more, undo);
        assert front + [GotRegs(false)] + more == front + ([GotRegs(false)] + more);
        return Failure(Ptrace), undo, [GotRegs(false)] + more, 6;
      }
      Through(pid, script, 6, front, [GotRegs(true)]);
      PutNothing(t.mem, saved.rip, code[..0]);
      var e;
      ghost var n, wrote;
      e, n, wrote := t.RemoteWrite(pid, saved.rip, code);
      HeardWrite(pid, saved.rip, 1, wrote, e, n);
      asked := [GotRegs(true)] + wrote;
      assert front + [GotRegs(true)] + wrote == front + asked;
      if e != Fine {
        ghost var more;
        undo, more := Restore(pid, 0, [], saved, s);
        BreaksOff(pid, s.u, c, g, 7, front + [GotRegs(true)], wrote, Memory(e), more, undo);
        assert front + (asked + more) == front + [GotRegs(true)] + wrote + more;
        return Failure(Memory(e)), undo, asked + more, 7;
      }
      Through(pid, script, 7, front + [GotRegs(true)], wrote);
      ok := SetRegs(saved);
      HeardSet(pid, saved, ok);
      undo := Undo(true, ok);
      UndoneIs(s, mid, undo);
      assert front + asked + [PutRegs(saved, ok)] == front + (asked + [PutRegs(saved, ok)]);
      if !ok {
        BreaksOff(pid, s.u, c, g, 8, front + asked, [PutRegs(saved, false)], Ptrace, [], undo);
        assert front + asked + [PutRegs(saved, false)] + [] == front + asked + [PutRegs(saved, false)];
        return Failure(Ptrace), undo, asked + [PutRegs(saved, false)], 8;
      }
      Through(pid, script, 8, front + asked, [PutRegs(saved, true)]);
      return Success(u.r.rax), undo, asked + [PutRegs(saved, true)], 9;
    }

    /** remote_syscall. `gadget` is what the search for `syscall; ret` found. Of the ghost results, `asked` is
        all that was asked for, with the answers; `k` is how many steps came through; `mid` is the state in which
        the outcome was settled; and `undo` says which of the two steps of undoing came through after that. */
    method RemoteSyscall(pid: int, gadget: Option<Word>, c: Call)
      returns (r: Result, ghost k: nat, ghost mid: State, ghost undo: Undo, ghost asked: seq<Response>)
      modifies this`regs, this`calls, t
      ensures Now() == Undone(old(Now()), mid, undo) && t.log == old(t.log) + asked
      ensures Settled(kernel, old(Now()), pid, gadget, c, r, k, mid, undo, asked)
      ensures LastTwo(asked) ==> undo == Undo(true, true)
      ensures asked != [] && !EndsRefused(asked) ==> regs == old(regs)
      ensures asked != [] && ByteAsked(asked) ==>
                old(regs).rip in old(t.mem) && OnlyByte(old(t.mem), t.mem, mid.m, old(regs).rip)
      ensures r.Success? && Clear(old(t.mem), gadget.value, old(regs)) ==>
                SuccessOk(kernel, c, gadget.value, old(Now()), Now(), r.ret)
      ensures r.Failure? && !Ran(k, r) && (k < 3 || undo.code) ==> OnlyBelow(old(t.mem), t.mem, old(regs))
      ensures r.Failure? && Ran(k, r) && undo == Undo(true, true) && Clear(old(t.mem), gadget.value, old(regs)) ==>
                FailureOk(kernel, c, gadget.value, old(Now()), Now())
    {
      hide Undone, Settled, SuccessOk, FailureOk, Clear, OnlyBelow, LastTwo, ByteAsked, Ran;
      ghost var s := Now();
      r, k, mid, undo, asked := Borrow(pid, gadget, c);
      SettledWell(kernel, s, pid, gadget, c, r, k, mid, undo, asked);
      SettledBack(kernel, s, pid, gadget, c, r, k, mid, undo, asked);
    }

    /** The steps of it. */
    method Borrow(pid: int, gadget: Option<Word>, c: Call)
      returns (r: Result, ghost k: nat, ghost mid: State, ghost undo: Undo, ghost asked: seq<Response>)
      modifies this`regs, this`calls, t
      ensures Now() == Undone(old(Now()), mid, undo) && t.log == old(t.log) + asked
      ensures Settled(kernel, old(Now()), pid, gadget, c, r, k, mid, undo, asked)
    {
      hide Undone, Put, LE, PlantedTo, Running, Armed, Mapped, ToTrap, After, Slice, Went, Heard, WriteGoes, ReadGoes,
        BothAsked, OneAsked;
      k, mid, undo, asked := 0, Now(), Undo(false, false), [];
      ghost var s0 := Now();
      NothingUndone(s0);
      if pid <= 0 { return Failure(BadArgument), 0, mid, undo, []; }
      if gadget.None? { return Failure(NoGadget), 0, mid, undo, []; }
      ghost var g := gadget.value;
      ghost var script := Script(s0.u, c, g);
      NothingYet(pid, script);
      var ok, saved := GetRegs();
      HeardRegs(pid, ok);
      if !ok {
        BreaksOff(pid, s0.u, c, g, 0, [], [GotRegs(false)], Ptrace, [], undo);
        assert [] + [GotRegs(false)] + [] == [GotRegs(false)];
        return Failure(Ptrace), 0, mid, undo, [GotRegs(false)];
      }
      Through(pid, script, 0, [], [GotRegs(true)]);
      assert [] + [GotRegs(true)] == [GotRegs(true)];
      var cell := new Byte[1](i => 0);
      var e;
      ghost var n, part;
      e, n, part := t.RemoteRead(pid, saved.rip, cell);
      HeardRead(pid, saved.rip, 1, part, e, n);
      if e != Fine {
        BreaksOff(pid, s0.u, c, g, 1, [GotRegs(true)], part, Memory(e), [], undo);
        assert [GotRegs(true)] + part + [] == [GotRegs(true)] + part;
        return Failure(Memory(e)), 1, mid, undo, [GotRegs(true)] + part;
      }
      Through(pid, script, 1, [GotRegs(true)], part);
      ByteAt(t.mem, saved.rip);
      r, k, mid, undo, asked := Plant(pid, cell[..], saved, gadget.value, c, s0, [GotRegs(true)] + part);
      asked := [GotRegs(true)] + part + asked;
    }

    /** The int3. */
    method Plant(pid: int, code: seq<Byte>, saved: UserRegs, gadget: Word, c: Call, ghost s: State,
                 ghost front: seq<Response>)
      returns (r: Result, ghost k: nat, ghost mid: State, ghost undo: Undo, ghost asked: seq<Response>)
      requires pid > 0 && saved == s.u && s.u.rip in s.m && code == [s.m[s.u.rip]] && s.u.rip != 0 && Now() == s
      requires Went(pid, Script(s.u, c, gadget), 2, front)
      modifies this`regs, this`calls, t
      ensures Now() == Undone(s, mid, undo) && t.log == old(t.log) + asked
      ensures Settled(kernel, s, pid, Some(gadget), c, r, k, mid, undo, front + asked)
    {
      hide Undone, Put, LE, PlantedTo, Running, Armed, Mapped, Slice, Went, Heard, WriteGoes, BothAsked, OneAsked;
      ghost var more := [];
      mid := s;
      PutNothing(t.mem, saved.rip, [0xCC][..0]);
      var e;
      ghost var n;
      e, n, asked := t.RemoteWrite(pid, saved.rip, [0xCC]);
      HeardWrite(pid, saved.rip, 1, asked, e, n);
      if e != Fine {
        undo, more := Restore(pid, saved.rip, code, saved, s);
        BreaksOff(pid, s.u, c, gadget, 2, front, asked, Memory(e), more, undo);
        assert front + (asked + more) == front + asked + more;
        return Failure(Memory(e)), 2, mid, undo, asked + more;
      }
      Through(pid, Script(s.u, c, gadget), 2, front, asked);
      r, k, mid, undo, more := Push(pid, code, saved, gadget, c, s, front + asked);
      assert front + asked + more == front + (asked + more);
      asked := asked + more;
    }

    /** The return address. */
    method Push(pid: int, code: seq<Byte>, saved: UserRegs, gadget: Word, c: Call, ghost s: State,
                ghost front: seq<Response>)
      returns (r: Result, ghost k: nat, ghost mid: State, ghost undo: Undo, ghost asked: seq<Response>)
      requires pid > 0 && saved == s.u && s.u.rip in s.m && code == [s.m[s.u.rip]] && s.u.rip != 0
      requires Now() == s.(m := Put(s.m, s.u.rip, [0xCC])) && Went(pid, Script(s.u, c, gadget), 3, front)
      modifies this`regs, this`calls, t
      ensures Now() == Undone(s, mid, undo) && t.log == old(t.log) + asked
      ensures Settled(kernel, s, pid, Some(gadget), c, r, k, mid, undo, front + asked)
    {
      hide Undone, Put, LE, PlantedTo, Running, Armed, Mapped, Slice, Went, Heard, WriteGoes, BothAsked, OneAsked;
      var rip, top := saved.rip, W64(saved.r.rsp - 8);
      ghost var more := [];
      SameKeys(s.m, rip, [0xCC], top);
      var e;
      ghost var n;
      e, n, asked := t.RemoteWrite(pid, top, LE(rip, 8));
      HeardWrite(pid, top, 8, asked, e, n);
      mid := Now();
      PlantedSoFar(s, c, gadget, mid, n);
      if e != Fine {
        undo, more := Restore(pid, rip, code, saved, s);
        BreaksOff(pid, s.u, c, gadget, 3, front, asked, Memory(e), more, undo);
        assert front + (asked + more) == front + asked + more;
        return Failure(Memory(e)), 3, mid, undo, asked + more;
      }
      Through(pid, Script(s.u, c, gadget), 3, front, asked);
      assert LE(rip, 8)[..n] == LE(rip, 8);
      r, k, mid, undo, more := Release(pid, code, saved, gadget, c, s, front + asked);
      assert front + asked + more == front + (asked + more);
      asked := asked + more;
    }

    /** The second half: the registers, the run and its end. */
    method Release(pid: int, code: seq<Byte>, saved: UserRegs, gadget: Word, c: Call, ghost s: State,
                   ghost front: seq<Response>)
      returns (r: Result, ghost k: nat, ghost mid: State, ghost undo: Undo, ghost asked: seq<Response>)
      requires pid > 0 && saved == s.u && Planted8(s) && code == [s.m[s.u.rip]] && s.u.rip != 0
      requires Now() == State(Put(Put(s.m, s.u.rip, [0xCC]), W64(s.u.r.rsp - 8), LE(s.u.rip, 8)), s.u, s.calls)
      requires Went(pid, Script(s.u, c, gadget), 4, front)
      modifies this`regs, this`calls, t
      ensures Now() == Undone(s, mid, undo) && t.log == old(t.log) + asked
      ensures Settled(kernel, s, pid, Some(gadget), c, r, k, mid, undo, front + asked)
    {
      hide Undone, Put, LE, PlantedTo, Running, Armed, Mapped, ToTrap, After, Slice, Went, Heard, WriteGoes,
        BothAsked, OneAsked;
      ghost var script, more := Script(s.u, c, gadget), [];
      assert LE(s.u.rip, 8)[..8] == LE(s.u.rip, 8);
      var armed := Armed(saved, c, gadget);
      var ok := SetRegs(armed);
      HeardSet(pid, armed, ok);
      mid := Now();
      PlantedSoFar(s, c, gadget, mid, 8);
      if !ok {
        undo, more := Restore(pid, saved.rip, code, saved, s);
        BreaksOff(pid, s.u, c, gadget, 4, front, [PutRegs(armed, false)], Ptrace, more, undo);
        assert front + ([PutRegs(armed, false)] + more) == front + [PutRegs(armed, false)] + more;
        return Failure(Ptrace), 4, mid, undo, [PutRegs(armed, false)] + more;
      }
      Through(pid, script, 4, front, [PutRegs(armed, true)]);
      asked := [PutRegs(armed, true)];
      ghost var start := Now();
      var trap;
      ghost var steps;
      ok, trap, steps := ContAndWait();
      HeardGo(pid, ok, trap);
      mid := Now();
      if !ok || !trap {
        if ok { RunningIs(kernel, s, c, gadget, start, mid, trap, steps); }
        undo, more := Restore(pid, saved.rip, code, saved, s);
        var err := if ok then Fault else Ptrace;
        BreaksOff(pid, s.u, c, gadget, 5, front + asked, [Continued(ok, trap)], err, more, undo);
        assert front + (asked + [Continued(ok, trap)] + more) == front + asked + [Continued(ok, trap)] + more;
        return Failure(err), 5, mid, undo, asked + [Continued(ok, trap)] + more;
      }
      RunningIs(kernel, s, c, gadget, start, mid, trap, steps);
      Through(pid, script, 5, front + asked, [Continued(true, true)]);
      asked := asked + [Continued(true, true)];
      assert front + [PutRegs(armed, true)] + [Continued(true, true)] == front + asked;
      r, undo, more, k := Collect(pid, code, saved, s, c, gadget, front + asked);
      assert front + asked + more == front + (asked + more);
      asked := asked + more;
    }
  }

  // ---------------------------------------------------------------- the account of an attempt

  /** One thing asked of the kernel: the registers, a byte or more read or written, the registers set, or the
      thread let run until it stops. */
  datatype Ask = Get | Load(addr: Word, len: nat) | Store(addr: Word, len: nat) | Set(u: UserRegs) | Go

  /** What an attempt asks for, in order. */
  function Script(u: UserRegs, c: Call, g: Word): (s: seq<Ask>)
    ensures |s| == 9
  {
    [Get, Load(u.rip, 1), Store(u.rip, 1), Store(W64(u.r.rsp - 8), 8), Set(Armed(u, c, g)), Go,
     Get, Store(u.rip, 1), Set(u)]
  }

  /** These requests and answers are what asking comes to, with this error. */
  ghost predicate Heard(pid: int, a: Ask, part: seq<Response>, e: Option<Error>)
  {
    match a
    case Get => part == [GotRegs(e.None?)] && e in {None, Some(Ptrace)}
    case Load(addr, len) => exists x, n :: ReadGoes(pid, addr, len, part, x, n) && e == Failed(x)
    case Store(addr, len) => exists x, n :: WriteGoes(pid, addr, len, part, x, n) && e == Failed(x)
    case Set(u) => part == [PutRegs(u, e.None?)] && e in {None, Some(Ptrace)}
    case Go => (part == [Continued(true, true)] && e == None) || (part == [Continued(true, false)] && e == Some(Fault))
               || (e == Some(Ptrace) && |part| == 1 && part[0].Continued? && !part[0].ok)
  }

  function Failed(x: Errno): Option<Error>
  {
    if x == Fine then None else Some(Memory(x))
  }

  /** The first k steps came through. */
  ghost predicate Went(pid: int, script: seq<Ask>, k: nat, asked: seq<Response>)
    decreases k
  {
    if k == 0 then asked == [] else
    k <= |script| && exists i: nat :: i <= |asked| && Went(pid, script, k - 1, asked[..i])
                                      && Heard(pid, script[k - 1], asked[i..], None)
  }

  /** The two steps of undoing, both asked for whatever is answered. */
  ghost predicate BothAsked(pid: int, u: UserRegs, asked: seq<Response>, undo: Undo)
  {
    exists i: nat, x, n :: i < |asked| && WriteGoes(pid, u.rip, 1, asked[..i], x, n) && undo.code == (x == Fine)
                           && asked[i..] == [PutRegs(u, undo.regs)]
  }

  /** Only the registers are asked for. */
  ghost predicate OneAsked(u: UserRegs, asked: seq<Response>, undo: Undo)
  {
    asked == [PutRegs(u, undo.regs)] && !undo.code
  }

  /** What is undone after k steps came through and the next did not: before anything was written, nothing;
      until the byte under the int3 is to be put back, that byte and the registers; when putting back the
      byte failed, the registers; and when that failed, nothing. */
  ghost predicate Undoing(pid: int, u: UserRegs, k: nat, asked: seq<Response>, undo: Undo)
  {
    if k < 2 then asked == [] && undo == Undo(false, false)
    else if k < 7 then BothAsked(pid, u, asked, undo)
    else if k == 7 then OneAsked(u, asked, undo)
    else asked == [] && undo == Undo(true, false)
  }

  /** The whole conversation: k steps of the script come through; if that is not all of it the next fails, with the
      error that is returned, and then comes the undoing. */
  ghost predicate Attempt(pid: int, u: UserRegs, c: Call, g: Word, k: nat, asked: seq<Response>, r: Result, undo: Undo)
  {
    var script := Script(u, c, g);
    if k >= 9 then k == 9 && Went(pid, script, 9, asked) && r.Success? && undo == Undo(true, true)
    else
      r.Failure? && exists i: nat, j: nat :: i <= j <= |asked| && Went(pid, script, k, asked[..i])
                                             && Heard(pid, script[k], asked[i..j], Some(r.e))
                                             && Undoing(pid, u, k, asked[j..], undo)
  }

  /** The thread has been let run. */
  predicate Ran(k: nat, r: Result)
  {
    k > 5 || (k == 5 && r == Failure(Fault))
  }

  /** All that one attempt may come to. */
  ghost predicate Settled(kernel: KernelModel, s: State, pid: int, gadget: Option<Word>, c: Call, r: Result, k: nat,
                          mid: State, undo: Undo, asked: seq<Response>)
  {
    if pid <= 0 || gadget.None? then
      r == Failure(if pid <= 0 then BadArgument else NoGadget) && k == 0 && mid == s && undo == Undo(false, false)
      && asked == []
    else
      && Attempt(pid, s.u, c, gadget.value, k, asked, r, undo)
      && (if Ran(k, r) then Planted8(s) && Running(kernel, s, c, gadget.value, mid, k > 5)
          else Planting(s, c, gadget.value, k, mid))
      && (k > 1 ==> s.u.rip in s.m && s.u.rip != 0)
      && (r.Success? ==> r.ret == mid.u.r.rax)
  }

  /** The cells that an attempt writes are there. */
  predicate Planted8(s: State)
  {
    s.u.rip in s.m && Mapped(s.m, W64(s.u.r.rsp - 8), 8)
  }

  /** The two steps of undoing: the byte under the int3, and the registers. */
  datatype Undo = Undo(code: bool, regs: bool)

  /** What undoing makes of a state `mid` when all began in state `s`. */
  function Undone(s: State, mid: State, undo: Undo): State
  {
    State(if undo.code && s.u.rip in s.m then Put(mid.m, s.u.rip, [s.m[s.u.rip]]) else mid.m,
          if undo.regs then s.u else mid.u, mid.calls)
  }

  /** The state after k steps, none of which let the thread run, and a failing one: as it was; or with the int3
      written and the first bytes of the return address, all of them once that step came through. */
  ghost predicate Planting(s: State, c: Call, g: Word, k: nat, mid: State)
  {
    if k < 3 then mid == s
    else PlantedBy(s, c, g, k == 5, k > 3, mid)
  }

  ghost predicate PlantedBy(s: State, c: Call, g: Word, armed: bool, whole: bool, mid: State)
  {
    exists n: nat :: PlantedTo(s, c, g, armed, mid, n) && (whole ==> n == 8)
  }

  ghost predicate PlantedTo(s: State, c: Call, g: Word, armed: bool, mid: State, n: nat)
  {
    && n <= 8 && mid.calls == s.calls && s.u.rip in s.m && Mapped(s.m, W64(s.u.r.rsp - 8), n)
    && mid.m == Put(Put(s.m, s.u.rip, [0xCC]), W64(s.u.r.rsp - 8), LE(s.u.rip, 8)[..n])
    && mid.u == if armed then Armed(s.u, c, g) else s.u
  }

  /** A state that the thread was seen in once let run from `s`: at the int3, or up to two instructions on. */
  ghost predicate Running(k: KernelModel, s: State, c: Call, g: Word, mid: State, trapped: bool)
  {
    var start := State(Put(Put(s.m, s.u.rip, [0xCC]), W64(s.u.r.rsp - 8), LE(s.u.rip, 8)), Armed(s.u, c, g), s.calls);
    ToTrap(k, start, 3).Some? ==>
      if trapped then ToTrap(k, start, 3) == Some(mid) else exists j: nat :: j <= 2 && After(k, start, j) == Some(mid)
  }

  /** The registers that start the call. */
  function Armed(u: UserRegs, c: Call, g: Word): UserRegs
  {
    UserRegs(u.r.(rsp := W64(u.r.rsp - 8), rax := c.no, rdi := c.a1, rsi := c.a2, rdx := c.a3,
                  r10 := c.a4, r8 := c.a5, r9 := c.a6), g, u.flags)
  }

  /** The bytes at the gadget, and the cells the call goes through, are apart. */
  predicate Clear(m: Memory, g: Word, u: UserRegs)
  {
    && Mapped(m, g, 3) && m[g] == 0x0F && m[g + 1] == 0x05 && m[g + 2] == 0xC3
    && 8 <= u.r.rsp < 0x1_0000_0000_0000_0000 && u.rip < 0x1_0000_0000_0000_0000
    && (u.rip < u.r.rsp - 8 || u.r.rsp <= u.rip) && (g + 3 <= u.r.rsp - 8 || u.r.rsp <= g)
  }

  /** The memory as the thread meets it. */
  function Planted(m: Memory, u: UserRegs): Memory
  {
    Put(Put(m, u.rip, [0xCC]), u.r.rsp - 8, LE(u.rip, 8))
  }

  /** The system call itself leaves the way back alone. */
  predicate Harmless(d: Done, g: Word, u: UserRegs)
  {
    Spares(d, u.rip) && Spares(d, g + 2) && forall i :: u.r.rsp - 8 <= i < u.r.rsp ==> Spares(d, i)
  }

  /** The memory that is left: the system call's effect, and the return address below the stack. */
  function Leftover(m: Memory, d: Done, u: UserRegs): Memory
  {
    Put(Applied(m, d), u.r.rsp - 8, LE(u.rip, 8))
  }

  /** On success: the call ran once and everything but eight bytes below the stack pointer and the call's
      own effect is as before; but when the thread stood at the gadget itself, no call ran at all. */
  ghost predicate SuccessOk(k: KernelModel, c: Call, g: Word, s: State, t: State, ret: int)
    requires Clear(s.m, g, s.u)
  {
    var d := k(Planted(s.m, s.u), c);
    && (s.u.rip != g && s.u.rip != g + 1 && Harmless(d, g, s.u) ==>
          ret == d.ret && t == State(Leftover(s.m, d, s.u), s.u, s.calls + [c]))
    && (s.u.rip == g ==> ret == c.no && t == State(Put(s.m, s.u.r.rsp - 8, LE(s.u.rip, 8)), s.u, s.calls))
  }

  /** Nothing but the eight bytes below the stack pointer has changed. */
  ghost predicate OnlyBelow(m: Memory, m': Memory, u: UserRegs)
  {
    var top := W64(u.r.rsp - 8);
    m'.Keys == m.Keys && forall x :: x in m && !(top <= x < top + 8) ==> m'[x] == m[x]
  }

  /** On failure after the thread ran, everything undone: registers as before, and at most one call. */
  ghost predicate FailureOk(k: KernelModel, c: Call, g: Word, s: State, t: State)
    requires Clear(s.m, g, s.u)
  {
    var d := k(Planted(s.m, s.u), c);
    s.u.rip != g && s.u.rip != g + 1 && Harmless(d, g, s.u) ==>
      && t.u == s.u && (t.calls == s.calls || t.calls == s.calls + [c])
      && t.m == Put(if t.calls == s.calls then s.m else Applied(s.m, d), s.u.r.rsp - 8, LE(s.u.rip, 8))
  }

  // ---------------------------------------------------------------- proofs

  lemma Unplanted(m: Memory, u: UserRegs, code: seq<Byte>, x: seq<Byte>)
    requires Mapped(m, u.rip, 1) && code == Slice(m, u.rip, 1)
    requires |x| <= 8 && Mapped(m, W64(u.r.rsp - 8), |x|)
    ensures OnlyBelow(m, Put(Put(Put(m, u.rip, [0xCC]), W64(u.r.rsp - 8), x), u.rip, code), u)
  {
    hide Put, Slice, W64;
    var top, rip := W64(u.r.rsp - 8), u.rip;
    var m1 := Put(m, rip, [0xCC]);
    var m2 := Put(m1, top, x);
    forall at: int
      ensures at in Put(m2, rip, code) <==> at in m
      ensures at in m && !(top <= at < top + 8) ==> Put(m2, rip, code)[at] == m[at]
    {
      PutAt(m, rip, [0xCC], at);
      PutAt(m1, top, x, at);
      PutAt(m2, rip, code, at);
    }
  }

  lemma AppliedSpares(m: Memory, d: Done, x: int)
    requires Spares(d, x)
    ensures x in Applied(m, d) <==> x in m
    ensures x in m ==> Applied(m, d)[x] == m[x]
  {
  }

  lemma StepTraps(k: KernelModel, s: State, n: nat)
    requires s.u.rip in s.m && s.m[s.u.rip] == 0xCC && n > 0
    ensures ToTrap(k, s, n) == Some(s.(u := s.u.(rip := s.u.rip + 1))) && After(k, s, n).None?
  {
  }

  lemma StepReturns(k: KernelModel, s: State, n: nat)
    requires s.u.rip in s.m && s.m[s.u.rip] == 0xC3 && Mapped(s.m, s.u.r.rsp, 8) && n > 0
    ensures var s' := s.(u := s.u.(rip := FromLE(Slice(s.m, s.u.r.rsp, 8)), r := s.u.r.(rsp := s.u.r.rsp + 8)));
            ToTrap(k, s, n) == ToTrap(k, s', n - 1) && After(k, s, n) == After(k, s', n - 1)
  {
    hide FromLE, Slice;
  }

  lemma StepCalls(k: KernelModel, s: State, n: nat)
    requires Mapped(s.m, s.u.rip, 2) && s.m[s.u.rip] == 0x0F && s.m[s.u.rip + 1] == 0x05 && n > 0
    ensures var d := k(s.m, CallOf(s.u.r));
            var s' := State(Applied(s.m, d), s.u.(rip := s.u.rip + 2, r := s.u.r.(rax := d.ret, rcx := s.u.rip + 2,
                            r11 := s.u.flags)), s.calls + [CallOf(s.u.r)]);
            ToTrap(k, s, n) == ToTrap(k, s', n - 1) && After(k, s, n) == After(k, s', n - 1)
  {
    hide Applied;
  }

  lemma CallIs(u: UserRegs, c: Call, g: Word)
    ensures CallOf(Armed(u, c, g).r) == c
  {
  }

  /** What can be seen of the borrowed thread on its way: at most one call, whose effect is in place
      from then on. */
  ghost predicate OnTheWay(pm: Memory, d: Done, c: Call, calls: seq<Call>, t: State)
  {
    (t.m == pm && t.calls == calls) || (t.m == Applied(pm, d) && t.calls == calls + [c])
  }

  /** From the gadget to the int3, when the int3 is not in the way. */
  lemma GadgetRuns(k: KernelModel, m: Memory, u: UserRegs, c: Call, g: Word, calls: seq<Call>)
    requires Clear(m, g, u) && u.rip != g && u.rip != g + 1 && u.rip in m && Mapped(m, u.r.rsp - 8, 8)
    requires Harmless(k(Planted(m, u), c), g, u)
    ensures var pm := Planted(m, u); var d := k(pm, c); var s := State(pm, Armed(u, c, g), calls);
            && ToTrap(k, s, 3).Some? && ToTrap(k, s, 3).value.u.r.rax == d.ret
            && ToTrap(k, s, 3).value.m == Applied(pm, d) && ToTrap(k, s, 3).value.calls == calls + [c]
            && forall j: nat | j <= 2 && After(k, s, j).Some? :: OnTheWay(pm, d, c, calls, After(k, s, j).value)
  {
    hide Planted, Applied, FromLE, LE, Slice, Step, Put;
    var pm := Planted(m, u);
    var d := k(pm, c);
    var s := State(pm, Armed(u, c, g), calls);
    PlantedBytes(m, u, g);
    CallIs(u, c, g);
    var s1 := State(Applied(pm, d), s.u.(rip := g + 2, r := s.u.r.(rax := d.ret, rcx := g + 2, r11 := s.u.flags)),
                    calls + [c]);
    StepCalls(k, s, 1);
    StepCalls(k, s, 2);
    StepCalls(k, s, 3);
    AppliedSpares(pm, d, g + 2);
    AppliedSpares(pm, d, u.rip);
    if u.rip == g + 2 {
      StepTraps(k, s1, 2);
      StepTraps(k, s1, 1);
    } else {
      ReturnsTo(m, u, d, g);
      StepReturns(k, s1, 2);
      StepReturns(k, s1, 1);
      var s2 := s1.(u := s1.u.(rip := u.rip, r := s1.u.r.(rsp := s1.u.r.rsp + 8)));
      StepTraps(k, s2, 1);
    }
  }

  lemma PlantedBytes(m: Memory, u: UserRegs, g: Word)
    requires Clear(m, g, u) && u.rip in m && Mapped(m, u.r.rsp - 8, 8)
    ensures var pm := Planted(m, u);
            && Mapped(pm, g, 3) && u.rip in pm && pm[u.rip] == 0xCC && Mapped(pm, u.r.rsp - 8, 8)
            && (u.rip != g ==> pm[g] == 0x0F) && (u.rip != g + 1 ==> pm[g + 1] == 0x05)
            && (u.rip != g + 2 ==> pm[g + 2] == 0xC3)
  {
  }

  /** The pushed address is what the gadget's ret pops. */
  lemma ReturnsTo(m: Memory, u: UserRegs, d: Done, g: Word)
    requires Clear(m, g, u) && u.rip in m && Mapped(m, u.r.rsp - 8, 8) && Harmless(d, g, u)
    ensures var m' := Applied(Planted(m, u), d);
            && Mapped(m', u.r.rsp - 8, 8) && FromLE(Slice(m', u.r.rsp - 8, 8)) == u.rip
  {
    hide Applied, LE, FromLE;
    var pm, top := Planted(m, u), u.r.rsp - 8;
    var m' := Applied(pm, d);
    forall i | top <= i < top + 8
      ensures i in m' && m'[i] == LE(u.rip, 8)[i - top]
    {
      AppliedSpares(pm, d, i);
    }
    assert Slice(m', top, 8) == LE(u.rip, 8);
    assert Pow256(8) == 0x1_0000_0000_0000_0000;
    LERoundTrips(u.rip, 8);
  }

  /** At the gadget itself the thread meets the int3 first. */
  lemma GadgetBlocked(k: KernelModel, m: Memory, u: UserRegs, c: Call, g: Word, calls: seq<Call>)
    requires Clear(m, g, u) && u.rip == g && Mapped(m, u.r.rsp - 8, 8)
    ensures var pm := Planted(m, u); var s := State(pm, Armed(u, c, g), calls);
            && ToTrap(k, s, 3).Some? && ToTrap(k, s, 3).value.u.r.rax == c.no
            && ToTrap(k, s, 3).value.m == pm && ToTrap(k, s, 3).value.calls == calls
  {
    hide Planted;
    PlantedBytes(m, u, g);
  }

  /** The thread runs the requested call first just when the int3 is in neither byte of the syscall. */
  lemma CallRunsFirst(k: KernelModel, m: Memory, u: UserRegs, c: Call, g: Word)
    requires Clear(m, g, u) && u.rip in m && Mapped(m, u.r.rsp - 8, 8)
    ensures var s := State(Planted(m, u), Armed(u, c, g), []);
            (Step(k, s).Next? && Step(k, s).s.calls == [c]) <==> u.rip !in {g, g + 1}
  {
    hide Planted, Applied;
    PlantedBytes(m, u, g);
    CallIs(u, c, g);
  }

  /** Putting the byte under the int3 back leaves the pushed address. */
  lemma ByteBack(m: Memory, u: UserRegs, code: seq<Byte>)
    requires 8 <= u.r.rsp && (u.rip < u.r.rsp - 8 || u.r.rsp <= u.rip)
    requires Mapped(m, u.rip, 1) && code == Slice(m, u.rip, 1)
    ensures Put(Planted(m, u), u.rip, code) == Put(m, u.r.rsp - 8, LE(u.rip, 8))
  {
    hide Put, LE;
    var m1 := Put(m, u.rip, [0xCC]);
    PutsCommute(m1, u.r.rsp - 8, LE(u.rip, 8), u.rip, code);
    WriteBack(m, u.rip, [0xCC], 1);
  }

  /** A write that the call's effect keeps clear of may as well come after it. */
  lemma PutApplied(m: Memory, d: Done, addr: int, x: seq<Byte>)
    requires forall i :: addr <= i < addr + |x| ==> Spares(d, i)
    ensures Applied(Put(m, addr, x), d) == Put(Applied(m, d), addr, x)
  {
    forall i | addr <= i < addr + |x|
      ensures i !in d.puts && i !in d.drops
    {
      assert Spares(d, i);
    }
  }

  lemma CallByteBack(m: Memory, d: Done, u: UserRegs, code: seq<Byte>)
    requires 8 <= u.r.rsp && (u.rip < u.r.rsp - 8 || u.r.rsp <= u.rip)
    requires Mapped(m, u.rip, 1) && code == Slice(m, u.rip, 1)
    requires Spares(d, u.rip) && forall i :: u.r.rsp - 8 <= i < u.r.rsp ==> Spares(d, i)
    ensures Put(Applied(Planted(m, u), d), u.rip, code) == Leftover(m, d, u)
  {
    hide Put, LE, Applied, Spares, Slice;
    PutApplied(Planted(m, u), d, u.rip, code);
    ByteBack(m, u, code);
    PutApplied(m, d, u.r.rsp - 8, LE(u.rip, 8));
  }

  lemma SuccessIs(k: KernelModel, m: Memory, u: UserRegs, c: Call, g: Word, calls: seq<Call>, code: seq<Byte>, t: State)
    requires Clear(m, g, u) && Mapped(m, u.rip, 1) && code == Slice(m, u.rip, 1) && Mapped(m, u.r.rsp - 8, 8)
    ensures var s := State(Planted(m, u), Armed(u, c, g), calls);
            (ToTrap(k, s, 3).Some? ==> ToTrap(k, s, 3) == Some(t)) ==>
              SuccessOk(k, c, g, State(m, u, calls), State(Put(t.m, u.rip, code), u, t.calls), t.u.r.rax)
  {
    hide Planted, Put, Slice, ToTrap, Armed, LE, Applied;
    var d := k(Planted(m, u), c);
    if u.rip == g {
      GadgetBlocked(k, m, u, c, g, calls);
      ByteBack(m, u, code);
    } else if u.rip != g + 1 && Harmless(d, g, u) {
      GadgetRuns(k, m, u, c, g, calls);
      CallByteBack(m, d, u, code);
    }
  }

  lemma FailureIs(k: KernelModel, m: Memory, u: UserRegs, c: Call, g: Word, calls: seq<Call>, code: seq<Byte>, t: State,
                  j: nat)
    requires Clear(m, g, u) && Mapped(m, u.rip, 1) && code == Slice(m, u.rip, 1) && Mapped(m, u.r.rsp - 8, 8)
    ensures var s := State(Planted(m, u), Armed(u, c, g), calls);
            (ToTrap(k, s, 3).Some? ==> ToTrap(k, s, 3) == Some(t) || (j <= 2 && After(k, s, j) == Some(t))) ==>
              FailureOk(k, c, g, State(m, u, calls), State(Put(t.m, u.rip, code), u, t.calls))
  {
    hide Planted, Put, Slice, ToTrap, After, Armed, LE, Applied;
    var d := k(Planted(m, u), c);
    if u.rip != g && u.rip != g + 1 && Harmless(d, g, u) {
      GadgetRuns(k, m, u, c, g, calls);
      CallByteBack(m, d, u, code);
      ByteBack(m, u, code);
    }
  }

  lemma PlantedIs(m: Memory, u: UserRegs, g: Word)
    requires Clear(m, g, u)
    ensures W64(u.r.rsp - 8) == u.r.rsp - 8
    ensures Put(Put(m, u.rip, [0xCC]), W64(u.r.rsp - 8), LE(u.rip, 8)) == Planted(m, u)
  {
  }

  lemma SameKeys(m: Memory, addr: int, x: seq<Byte>, at: int)
    requires Mapped(m, addr, |x|)
    ensures forall n: nat :: Mapped(Put(m, addr, x), at, n) <==> Mapped(m, at, n)
  {
    PutKeys(m, addr, x);
  }

  lemma ByteAt(m: Memory, x: Word)
    requires Mapped(m, x, 1)
    ensures x in m && Slice(m, x, 1) == [m[x]]
  {
  }

  lemma NothingUndone(s: State)
    ensures Undone(s, s, Undo(false, false)) == s
  {
  }

  lemma PlantedSoFar(s: State, c: Call, g: Word, mid: State, n: nat)
    requires n <= 8 && mid.calls == s.calls && s.u.rip in s.m && Mapped(s.m, W64(s.u.r.rsp - 8), n)
    requires mid.m == Put(Put(s.m, s.u.rip, [0xCC]), W64(s.u.r.rsp - 8), LE(s.u.rip, 8)[..n])
    ensures mid.u == s.u ==> PlantedTo(s, c, g, false, mid, n)
    ensures mid.u == Armed(s.u, c, g) ==> PlantedTo(s, c, g, true, mid, n)
  {
    hide Put, LE, Armed;
  }

  lemma UndoneIs(s: State, mid: State, undo: Undo)
    ensures s.u.rip in s.m ==>
              Undone(s, mid, undo) == State(if undo.code then Put(mid.m, s.u.rip, [s.m[s.u.rip]]) else mid.m,
                                            if undo.regs then s.u else mid.u, mid.calls)
    ensures !undo.code ==> Undone(s, mid, undo) == State(mid.m, if undo.regs then s.u else mid.u, mid.calls)
  {
  }

  lemma Unplants(s: State, c: Call, g: Word, armed: bool, mid: State, n: nat)
    requires PlantedTo(s, c, g, armed, mid, n)
    ensures forall on :: OnlyBelow(s.m, Undone(s, mid, Undo(true, on)).m, s.u)
  {
    hide Put, LE, OnlyBelow;
    ByteAt(s.m, s.u.rip);
    Unplanted(s.m, s.u, [s.m[s.u.rip]], LE(s.u.rip, 8)[..n]);
  }

  lemma NotRun(s: State, c: Call, g: Word, k: nat, mid: State, undo: Undo)
    requires Planting(s, c, g, k, mid) && (k < 3 || undo.code)
    ensures OnlyBelow(s.m, Undone(s, mid, undo).m, s.u)
  {
    hide PlantedTo, LE;
    if k >= 3 {
      var n: nat :| PlantedTo(s, c, g, k == 5, mid, n);
      Unplants(s, c, g, k == 5, mid, n);
    } else if s.u.rip in s.m {
      assert Put(s.m, s.u.rip, [s.m[s.u.rip]]) == s.m;
    }
  }

  lemma HasRun(k: KernelModel, s: State, c: Call, g: Word, mid: State, trapped: bool)
    requires Planted8(s) && Clear(s.m, g, s.u) && Running(k, s, c, g, mid, trapped)
    ensures trapped ==> SuccessOk(k, c, g, s, Undone(s, mid, Undo(true, true)), mid.u.r.rax)
    ensures FailureOk(k, c, g, s, Undone(s, mid, Undo(true, true)))
  {
    hide Put, LE, Armed, ToTrap, After, Clear, SuccessOk, FailureOk, Slice;
    ByteAt(s.m, s.u.rip);
    PlantedIs(s.m, s.u, g);
    var start, code := State(Planted(s.m, s.u), Armed(s.u, c, g), s.calls), [s.m[s.u.rip]];
    SuccessIs(k, s.m, s.u, c, g, s.calls, code, mid);
    if trapped || ToTrap(k, start, 3).None? {
      FailureIs(k, s.m, s.u, c, g, s.calls, code, mid, 0);
    } else {
      var j: nat :| j <= 2 && After(k, start, j) == Some(mid);
      FailureIs(k, s.m, s.u, c, g, s.calls, code, mid, j);
    }
  }

  lemma NothingYet(pid: int, script: seq<Ask>)
    ensures Went(pid, script, 0, [])
  {
  }

  lemma HeardRegs(pid: int, ok: bool)
    ensures Heard(pid, Get, [GotRegs(ok)], if ok then None else Some(Ptrace))
  {
  }

  lemma HeardSet(pid: int, u: UserRegs, ok: bool)
    ensures Heard(pid, Set(u), [PutRegs(u, ok)], if ok then None else Some(Ptrace))
  {
  }

  lemma HeardGo(pid: int, ok: bool, trap: bool)
    ensures Heard(pid, Go, [Continued(ok, trap)], if !ok then Some(Ptrace) else if !trap then Some(Fault) else None)
  {
  }

  lemma HeardRead(pid: int, addr: Word, len: nat, part: seq<Response>, x: Errno, n: nat)
    requires ReadGoes(pid, addr, len, part, x, n)
    ensures Heard(pid, Load(addr, len), part, Failed(x))
  {
    hide ReadGoes;
  }

  lemma HeardWrite(pid: int, addr: Word, len: nat, part: seq<Response>, x: Errno, n: nat)
    requires WriteGoes(pid, addr, len, part, x, n)
    ensures Heard(pid, Store(addr, len), part, Failed(x))
  {
    hide WriteGoes;
  }

  lemma Through(pid: int, script: seq<Ask>, k: nat, front: seq<Response>, part: seq<Response>)
    requires k < |script| && Went(pid, script, k, front) && Heard(pid, script[k], part, None)
    ensures Went(pid, script, k + 1, front + part)
  {
    hide Heard;
    assert (front + part)[..|front|] == front && (front + part)[|front|..] == part;
  }

  lemma BreaksOff(pid: int, u: UserRegs, c: Call, g: Word, k: nat, front: seq<Response>, part: seq<Response>, e: Error,
                  more: seq<Response>, undo: Undo)
    requires k < 9 && Went(pid, Script(u, c, g), k, front) && Heard(pid, Script(u, c, g)[k], part, Some(e))
    requires Undoing(pid, u, k, more, undo)
    ensures Attempt(pid, u, c, g, k, front + part + more, Failure(e), undo)
  {
    hide Heard, Went, Undoing;
    var asked, i, j := front + part + more, |front|, |front + part|;
    assert asked[..i] == front && asked[i..j] == part && asked[j..] == more;
  }

  /** A step that came through, or did not, ends as its answers do; a step that asks for nothing is a transfer
      at address 0. */
  lemma HeardEnds(pid: int, a: Ask, part: seq<Response>, e: Option<Error>)
    requires Heard(pid, a, part, e) && pid > 0
    ensures (a.Load? || a.Store?) && (a.addr == 0 || a.len == 0) <==> part == []
    ensures part != [] ==> (EndsRefused(part) <==> e.Some?) && (part[|part| - 1].PutRegs? <==> a.Set?)
  {
    hide WriteGoes, ReadGoes;
    match a {
      case Load(addr, len) =>
        var x, n :| ReadGoes(pid, addr, len, part, x, n) && e == Failed(x);
        ReadEnds(pid, addr, len, part, x, n);
      case Store(addr, len) =>
        var x, n :| WriteGoes(pid, addr, len, part, x, n) && e == Failed(x);
        WriteEnds(pid, addr, len, part, x, n);
      case _ =>
    }
  }

  lemma UndoingTells(pid: int, u: UserRegs, c: Call, g: Word, k: nat, asked: seq<Response>, i: nat, j: nat, e: Error,
                     undo: Undo)
    requires pid > 0 && k < 9 && i <= j <= |asked| && Went(pid, Script(u, c, g), k, asked[..i])
    requires k > 1 ==> u.rip != 0
    requires Heard(pid, Script(u, c, g)[k], asked[i..j], Some(e)) && Undoing(pid, u, k, asked[j..], undo)
    ensures LastTwo(asked) ==> undo == Undo(true, true)
    ensures asked != [] && !EndsRefused(asked) ==> undo.regs || k == 1
    ensures ByteAsked(asked) ==> k > 1 && undo.code
  {
    hide Heard, Went, WriteGoes;
    HeardEnds(pid, Script(u, c, g)[k], asked[i..j], Some(e));
    if k < 2 || k == 8 {
      assert asked[j..] == [] && j == |asked|;
      if k < 2 { FewAsked(pid, u, c, g, k, asked[..i]); }
      if i < j { assert asked[i..j][j - i - 1] == asked[|asked| - 1]; }
    } else if k == 7 {
      assert asked[i..j][j - i - 1] == asked[|asked| - 2] && asked[|asked| - 1] == asked[j..][0];
    } else {
      var n: nat, x, m :| n < |asked[j..]| && WriteGoes(pid, u.rip, 1, asked[j..][..n], x, m)
                          && undo.code == (x == Fine) && asked[j..][n..] == [PutRegs(u, undo.regs)];
      WriteEnds(pid, u.rip, 1, asked[j..][..n], x, m);
      assert asked[j..][n] == asked[|asked| - 1] && asked[j..][..n][n - 1] == asked[|asked| - 2];
    }
  }

  lemma FewAsked(pid: int, u: UserRegs, c: Call, g: Word, k: nat, front: seq<Response>)
    requires k < 2 && Went(pid, Script(u, c, g), k, front)
    ensures |front| == k
  {
    if k == 1 {
      var i: nat :| i <= |front| && Went(pid, Script(u, c, g), 0, front[..i]) && Heard(pid, Get, front[i..], None);
      assert front[..i] == [];
    }
  }

  lemma LastStep(pid: int, script: seq<Ask>, k: nat, asked: seq<Response>) returns (i: nat)
    requires k > 0 && Went(pid, script, k, asked)
    ensures k <= |script| && i <= |asked| && Heard(pid, script[k - 1], asked[i..], None)
  {
    hide Heard;
    i :| i <= |asked| && Went(pid, script, k - 1, asked[..i]) && Heard(pid, script[k - 1], asked[i..], None);
  }

  lemma LastOf(pid: int, u: UserRegs, c: Call, g: Word, asked: seq<Response>)
    requires Went(pid, Script(u, c, g), 9, asked)
    ensures asked != [] && asked[|asked| - 1] == PutRegs(u, true)
  {
    hide Went, Armed;
    var i := LastStep(pid, Script(u, c, g), 9, asked);
    assert asked[i..][0] == asked[|asked| - 1];
  }

  /** What the exact account of an attempt comes to when the undoing came through. */
  lemma SettledWell(kernel: KernelModel, s: State, pid: int, gadget: Option<Word>, c: Call, r: Result, k: nat,
                    mid: State, undo: Undo, asked: seq<Response>)
    requires Settled(kernel, s, pid, gadget, c, r, k, mid, undo, asked)
    ensures var t := Undone(s, mid, undo);
            && (r.Success? && Clear(s.m, gadget.value, s.u) ==> SuccessOk(kernel, c, gadget.value, s, t, r.ret))
            && (r.Failure? && !Ran(k, r) && (k < 3 || undo.code) ==> OnlyBelow(s.m, t.m, s.u))
            && (r.Failure? && Ran(k, r) && undo == Undo(true, true) && Clear(s.m, gadget.value, s.u) ==>
                  FailureOk(kernel, c, gadget.value, s, t))
  {
    hide Planting, Running, Undone, OnlyBelow, Clear, SuccessOk, FailureOk, Planted8, Went, Heard, Undoing;
    if gadget.Some? && pid > 0 {
      if !Ran(k, r) {
        if k < 3 || undo.code { NotRun(s, c, gadget.value, k, mid, undo); }
      } else if Clear(s.m, gadget.value, s.u) {
        HasRun(kernel, s, c, gadget.value, mid, k > 5);
      }
    } else {
      UndoneIs(s, mid, undo);
      assert Undone(s, mid, undo) == s by { NothingUndone(s); }
      assert OnlyBelow(s.m, s.m, s.u) by { OnlyBelowSelf(s.m, s.u); }
    }
  }

  lemma OnlyBelowSelf(m: Memory, u: UserRegs)
    ensures OnlyBelow(m, m, u)
  {
  }

  /** Both of the last two requests were granted, and the last was to set the registers. */
  predicate LastTwo(asked: seq<Response>)
  {
    ByteAsked(asked) && !EndsRefused(asked)
  }

  /** The last request was to set the registers, and the one before it was granted. */
  predicate ByteAsked(asked: seq<Response>)
  {
    |asked| >= 2 && asked[|asked| - 1].PutRegs? && !Refused(asked[|asked| - 2])
  }

  /** As `mid`, with the byte at x as it was at first. */
  ghost predicate OnlyByte(m: Memory, m': Memory, mid: Memory, x: Word)
    requires x in m
  {
    m' == Put(mid, x, [m[x]])
  }

  /** The conversation tells what was undone. */
  lemma SettledBack(kernel: KernelModel, s: State, pid: int, gadget: Option<Word>, c: Call, r: Result, k: nat,
                    mid: State, undo: Undo, asked: seq<Response>)
    requires Settled(kernel, s, pid, gadget, c, r, k, mid, undo, asked)
    ensures LastTwo(asked) ==> undo == Undo(true, true)
    ensures asked != [] && !EndsRefused(asked) ==> Undone(s, mid, undo).u == s.u
    ensures asked != [] && ByteAsked(asked) ==> s.u.rip in s.m && OnlyByte(s.m, Undone(s, mid, undo).m, mid.m, s.u.rip)
  {
    hide Running, Planted8, PlantedTo, Put, Went, Heard, Undoing;
    if gadget.Some? && pid > 0 {
      if k == 9 {
        LastOf(pid, s.u, c, gadget.value, asked);
      } else {
        var script := Script(s.u, c, gadget.value);
        var i: nat, j: nat :| i <= j <= |asked| && Went(pid, script, k, asked[..i])
                              && Heard(pid, script[k], asked[i..j], Some(r.e))
                              && Undoing(pid, s.u, k, asked[j..], undo);
        UndoingTells(pid, s.u, c, gadget.value, k, asked, i, j, r.e, undo);
      }
    }
  }

  lemma RunningIs(k: KernelModel, s0: State, c: Call, g: Word, s: State, mid: State, trap: bool, steps: nat)
    requires s == State(Put(Put(s0.m, s0.u.rip, [0xCC]), W64(s0.u.r.rsp - 8), LE(s0.u.rip, 8)),
                        Armed(s0.u, c, g), s0.calls)
    requires trap && ToTrap(k, s, 3).Some? ==> mid == ToTrap(k, s, 3).value
    requires !trap && ToTrap(k, s, 3).Some? ==> steps <= 2 && After(k, s, steps) == Some(mid)
    ensures Running(k, s0, c, g, mid, trap)
  {
    hide ToTrap, After, Put, LE, Armed;
  }
}
