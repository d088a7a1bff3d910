/** Any number of processors running the two stubs, block by block, on the bytes of one installed area:
    whatever their interleaving, the protocol simulates them, so the machine code returns transparently. */
module MachineRun {
  import opened Wrappers
  import opened RemoteMem
  import opened StubMachine
  import opened MemoryImage
  import opened ByteRun
  import X = X86
  import B = Stubs
  import D = StubRuns
  import F = ReturnStubRuns
  import P = Protocol
  import T = ProtocolTheorem
  import E = EntryStubProof
  import R = ReturnStubProof
  import L = Layout

  // ---------------------------------------------------------------- the machine

  /** One thread's processor. `cells` and `outer` are the return cells of the live calls of the probed
      function, innermost last; in the entry stub the innermost one is on the processor's stack. `f` is
      history: the state in which the stub was entered. Dead is a thread that met the undefined
      instruction, or left a stub to a wrong place or in a wrong state. */
  datatype Core =
    | Program(cells: seq<P.Addr>)
    | Entering(outer: seq<P.Addr>, f: E.Frame, b: nat, s: X.Cpu)
    | Returning(cells: seq<P.Addr>, g: R.Frame, b: nat, s: X.Cpu)
    | Dead

  type Cores = map<P.Tid, Core>

  datatype Machine = Machine(m: Memory, now: P.Word, cores: Cores)

  /** As the protocol's steps, with the processor's state at calls and returns; `Block` runs one block of
      a stub with one input. */
  datatype Move =
    | Toggle(v: P.Word)
    | Tick(now: P.Word)
    | Spawn(t: P.Tid)
    | Exit(t: P.Tid)
    | Call(t: P.Tid, ret: P.Addr, f: E.Frame)
    | Tail(t: P.Tid, f: E.Frame)
    | Ret(t: P.Tid, g: R.Frame)
    | Block(t: P.Tid, inp: X.Input)

  function RunCore(p: Probe, core: Core, inp: X.Input): X.Out
    requires core.Entering? || core.Returning?
  {
    if core.Entering? then X.RunBlock(ConstsOf(p), B.EntryBlock(p.hasRet, core.b), core.b, core.s, inp)
    else X.RunBlock(ConstsOf(p), B.ReturnBlock(core.b), core.b, core.s, inp)
  }

  /** The bytes after some accesses. */
  function After(m: Memory, acc: seq<X.Access>): Memory
    decreases |acc|
  {
    if acc == [] then m else After(OnBytes(m, acc[0]).0, acc[1..])
  }

  /** The input is what the bytes, the kernel's thread id and the clock answer to the accesses. */
  predicate Answered(m: Memory, t: P.Tid, now: P.Word, acc: seq<X.Access>, inp: X.Input)
    decreases |acc|
  {
    acc == [] || (
      && (var x := acc[0]; Reply(x, inp) == if x.SysGettid? then t else if x.SysClock? then now else OnBytes(m, x).1)
      && Answered(OnBytes(m, acc[0]).0, t, now, acc[1..], inp))
  }

  function NatOf(v: int): nat
  {
    if v >= 0 then v else 0
  }

  /** The block of the return stub that jumps back to the program. */
  const JUMP_BACK: nat := 26

  /** The address on the return stub's stack that it will jump to. */
  function Popped(s: X.Cpu): P.Addr
  {
    NatOf(X.Peek(s.stk, 1))
  }

  function NextCore(p: Probe, core: Core, inp: X.Input): Core
    requires core.Entering? || core.Returning?
  {
    var out := RunCore(p, core, inp);
    match out.to
    case At(b) =>
      if core.Entering? then Entering(core.outer, core.f, b, out.s) else Returning(core.cells, core.g, b, out.s)
    case Landed(a) =>
      if core.Entering? then
        var cell := NatOf(X.Head(out.s.stk));
        if a == L.TrampolineAddr(p.base) && E.Untouched(core.f, cell, out.s) then Program(core.outer + [cell]) else Dead
      else if out.s != R.Leaves(core.g, a) then Dead
      else if a == L.ReturnStubAddr(p.base) then
        Returning(core.cells, R.Frame(out.s.r, out.s.flags, out.s.stk), 0, out.s)
      else Program(core.cells)
    case Undefined => Dead
  }

  /** The ring slot that a processor in a stub is filling in or reading. */
  function Using(p: Probe, core: Core): Option<int>
  {
    match core
    case Entering(_, _, b, s) => if 3 <= b < (if p.hasRet then B.EXIT else 18) then Some(s.r.r8) else None
    case Returning(_, _, b, s) => if 10 <= b < JUMP_BACK then Some(s.r.r8) else None
    case _ => None
  }

  predicate Reserving(core: Core)
  {
    (core.Entering? && core.b == 2) || (core.Returning? && core.b == 9)
  }

  /** Nobody still uses the ring slot that the next ticket goes to. */
  ghost predicate Room(p: Probe, w: Machine)
  {
    var index := OnBytes(w.m, X.Rd(L.EventsAddr(p.base), 8)).1;
    forall u :: u in w.cores ==> Using(p, w.cores[u]) != Some(RingAddr(p, index % P.CAPACITY))
  }

  ghost predicate Possible(p: Probe, w: Machine, v: Move)
  {
    if v.Block? then MayRun(p, w, v.t, v.inp) else MayDo(p, w, v)
  }

  /** A block may run when its input is what its accesses would meet. */
  ghost predicate MayRun(p: Probe, w: Machine, t: P.Tid, inp: X.Input)
  {
    && t in w.cores && (w.cores[t].Entering? || w.cores[t].Returning?)
    && inp.v < P.TWO64 && Answered(w.m, t, w.now, RunCore(p, w.cores[t], inp).acc, inp)
    && (Reserving(w.cores[t]) ==> Room(p, w))
  }

  predicate MayDo(p: Probe, w: Machine, v: Move)
  {
    match v
    case Toggle(v) => v < P.TWO32
    case Tick(now) => now < P.TWO64
    case Spawn(t) => 0 < t < P.TWO32 && t !in w.cores
    case Exit(t) => t in w.cores && w.cores[t] == Program([])
    case Call(t, ret, f) =>
      && t in w.cores && w.cores[t].Program? && ret != L.ReturnStubAddr(p.base) && ret < P.TWO64 && WordArgs(f)
    case Tail(t, f) => t in w.cores && w.cores[t].Program? && w.cores[t].cells != [] && WordArgs(f)
    case Ret(t, g) => t in w.cores && w.cores[t].Program? && w.cores[t].cells != [] && 0 <= g.r.rax < P.TWO64
    case Block(_, _) => false
  }

  predicate WordArgs(f: E.Frame)
  {
    forall i :: 0 <= i < 6 ==> 0 <= E.ArgsOf(f)[i] < P.TWO64
  }

  function Called(f: E.Frame, cell: P.Addr): X.Cpu
  {
    X.Cpu(f.r, f.flags, X.Cell(cell, f.above))
  }

  function Do(p: Probe, w: Machine, v: Move): Machine
    requires Possible(p, w, v)
  {
    if v.Block? then DoBlock(p, w, v.t, v.inp) else DoOutside(p, w, v)
  }

  function DoBlock(p: Probe, w: Machine, t: P.Tid, inp: X.Input): Machine
    requires MayRun(p, w, t, inp)
  {
    w.(m := After(w.m, RunCore(p, w.cores[t], inp).acc), cores := w.cores[t := NextCore(p, w.cores[t], inp)])
  }

  function DoOutside(p: Probe, w: Machine, v: Move): Machine
    requires MayDo(p, w, v)
  {
    match v
    case Toggle(v) => w.(m := Put(w.m, L.AddrOf(p.base, P.Enabled), X.LE(v, 4)))
    case Tick(now) => w.(now := now)
    case Spawn(t) => w.(cores := w.cores[t := Program([])])
    case Exit(t) => w.(cores := w.cores - {t})
    case Call(t, ret, f) => w.(cores := w.cores[t := Entering(w.cores[t].cells, f, 0, Called(f, ret))])
    case Tail(t, f) =>
      var cells := w.cores[t].cells;
      w.(cores := w.cores[t := Entering(P.Front(cells), f, 0, Called(f, P.Last(cells)))])
    case Ret(t, g) =>
      var cells := w.cores[t].cells;
      w.(cores := w.cores[t := if P.Last(cells) == L.ReturnStubAddr(p.base)
                               then Returning(P.Front(cells), g, 0, R.Enters(g)) else Program(P.Front(cells))])
  }

  /** What a move shows to the program. */
  function Show(p: Probe, w: Machine, v: Move): seq<P.Seen>
    requires Possible(p, w, v)
  {
    if v.Block? then ShowBlock(p, w, v.t, v.inp) else ShowOutside(p, w, v)
  }

  function ShowBlock(p: Probe, w: Machine, t: P.Tid, inp: X.Input): seq<P.Seen>
    requires MayRun(p, w, t, inp)
  {
    var next := NextCore(p, w.cores[t], inp);
    if next.Dead? then [P.Killed(t)]
    else if w.cores[t].Returning? && next.Program? then [P.Returned(t, NatOf(RunCore(p, w.cores[t], inp).to.addr))]
    else []
  }

  function ShowOutside(p: Probe, w: Machine, v: Move): seq<P.Seen>
    requires MayDo(p, w, v)
  {
    match v
    case Spawn(t) => [P.Began(t)]
    case Exit(t) => [P.Ended(t)]
    case Call(t, ret, _) => [P.Called(t, ret)]
    case Ret(t, _) =>
      var a := P.Last(w.cores[t].cells);
      if a == L.ReturnStubAddr(p.base) then [] else [P.Returned(t, a)]
    case _ => []
  }

  ghost predicate PossibleAll(p: Probe, w: Machine, vs: seq<Move>)
    decreases |vs|
  {
    vs == [] || (Possible(p, w, vs[0]) && PossibleAll(p, Do(p, w, vs[0]), vs[1..]))
  }

  ghost function DoAll(p: Probe, w: Machine, vs: seq<Move>): Machine
    requires PossibleAll(p, w, vs)
    decreases |vs|
  {
    if vs == [] then w else DoAll(p, Do(p, w, vs[0]), vs[1..])
  }

  ghost function Trace(p: Probe, w: Machine, vs: seq<Move>): seq<P.Seen>
    requires PossibleAll(p, w, vs)
    decreases |vs|
  {
    if vs == [] then [] else Show(p, w, vs[0]) + Trace(p, Do(p, w, vs[0]), vs[1..])
  }

  // ---------------------------------------------------------------- the relation

  function Automaton(mode: P.Mode): Option<P.Entry>
  {
    if mode.InEntry? then Some(mode.e) else None
  }

  /** A processor and the protocol thread that simulates it. The thread is ahead while the processor runs
      through the end of a stub. */
  ghost predicate CoreRel(p: Probe, core: Core, th: P.Thread)
  {
    match core
    case Program(cells) => th.mode.User? && th.cells == cells
    case Entering(outer, f, b, s) =>
      && th.cells != [] && P.Front(th.cells) == outer && (th.mode.InEntry? || th.mode.User?)
      && E.Corr(p, f, P.Last(th.cells), b, Automaton(th.mode), s)
    case Returning(cells, g, b, s) =>
      && th.cells == cells && g.r.rax >= 0
      && if b == JUMP_BACK then
           R.Corr(p, g, b, P.Resume(Popped(s)), s) && th.mode == P.Land(ConfigOf(p), Popped(s), g.r.rax)
         else th.mode.InReturn? && R.Corr(p, g, b, P.Go(th.mode.r), s)
    case Dead => false
  }

  /** The protocol shows a return when its address has been loaded and the last event field stored; the
      processor is seen to return when it jumps. */
  function AheadOf(p: Probe, core: Core, plain: seq<P.Addr>): seq<P.Addr>
  {
    if core.Returning? && core.b == JUMP_BACK && Popped(core.s) != L.ReturnStubAddr(p.base)
    then plain + [Popped(core.s)] else plain
  }

  function Ahead(p: Probe, cores: Cores, pl: P.Plain): P.Plain
  {
    map t | t in pl :: if t in cores then AheadOf(p, cores[t], pl[t]) else pl[t]
  }

  ghost predicate Paired(p: Probe, w: Machine, pw: P.World)
  {
    && FitsWorld(pw) && w.now == pw.s.now && w.cores.Keys == pw.threads.Keys
    && forall t :: t in w.cores ==> CoreRel(p, w.cores[t], pw.threads[t])
  }

  ghost predicate Related(p: Probe, w: Machine, pw: P.World, pl: P.Plain)
  {
    T.Sim(ConfigOf(p), pw, pl) && Holds(w.m, p.base, ConfigOf(p), pw.s.m) && Paired(p, w, pw)
  }

  lemma Pairs(p: Probe, w: Machine, pw: P.World, pl: P.Plain)
    requires Related(p, w, pw, pl)
    ensures Paired(p, w, pw) && pl.Keys == w.cores.Keys
  {
  }

  // ---------------------------------------------------------------- one block

  lemma Answers(p: Probe, m: Memory, pm: P.Mem, t: P.Tid, now: P.Word, a: P.Action, inp: X.Input)
    requires Holds(m, p.base, ConfigOf(p), pm) && P.Safe(a) && FitsAction(a)
    requires Answered(m, t, now, Accesses(p, a), inp)
    ensures Answer(a, inp) == P.Perform(ConfigOf(p), pm, t, now, a).1
    ensures After(m, Accesses(p, a)) == OnAction(p, m, a)
  {
    hide Holds, FitsAction, OnBytes, Elsewhere, AnswerFits;
    ReplyIsAnswer(p, a, inp);
    if TouchesMemory(a) {
      AccessRefines(p, m, pm, t, now, a);
    } else if !Silent(a) {
      KernelLeaves(m, Accesses(p, a)[0]);
    }
    if !Silent(a) {
      assert Accesses(p, a)[1..] == [];
    }
  }

  lemma KernelLeaves(m: Memory, x: X.Access)
    requires x.SysGettid? || x.SysClock?
    ensures OnBytes(m, x).0 == m
  {
  }

  lemma BufferReads(p: Probe, m: Memory, pm: P.Mem, t: P.Tid, now: P.Word, inp: X.Input)
    requires Holds(m, p.base, ConfigOf(p), pm) && inp.v < P.TWO64
    requires Answered(m, t, now, [X.Rd(L.ConfigAddr(p.base) + 8, 8)], inp)
    ensures inp.v == L.EventsAddr(p.base)
  {
    hide Holds, Fits, OnBytes;
    AccessRefines(p, m, pm, t, now, P.Load(P.BufPtr));
    assert Accesses(p, P.Load(P.BufPtr))[0] == X.Rd(L.ConfigAddr(p.base) + 8, 8);
  }

  /** The only block that loads the buffer pointer finds the one installed. */
  lemma EntryInstalled(p: Probe, m: Memory, pm: P.Mem, t: P.Tid, now: P.Word, f: E.Frame, cell: P.Addr, b: nat,
                       e: P.Entry,
                       s: X.Cpu, inp: X.Input)
    requires ValidProbe(p) && E.Corr(p, f, cell, b, Some(e), s)
    requires Holds(m, p.base, ConfigOf(p), pm) && inp.v < P.TWO64
    requires Answered(m, t, now, X.RunBlock(ConstsOf(p), B.EntryBlock(p.hasRet, b), b, s, inp).acc, inp)
    ensures Installed(p, P.EntryRequest(ConfigOf(p), e, cell), inp)
  {
    hide X.Run, X.Exec, Holds, Answered;
    if b == 1 {
      D.RunLoadBuf(ConstsOf(p), s, inp);
      BufferReads(p, m, pm, t, now, inp);
    }
  }

  lemma ReturnInstalled(p: Probe, m: Memory, pm: P.Mem, t: P.Tid, now: P.Word, g: R.Frame, b: nat, r: P.Return,
                        s: X.Cpu, inp: X.Input)
    requires ValidProbe(p) && R.Corr(p, g, b, P.Go(r), s)
    requires Holds(m, p.base, ConfigOf(p), pm) && inp.v < P.TWO64
    requires Answered(m, t, now, X.RunBlock(ConstsOf(p), B.ReturnBlock(b), b, s, inp).acc, inp)
    ensures Installed(p, P.ReturnRequest(ConfigOf(p), r), inp)
  {
    hide X.Run, X.Exec, Holds, Answered;
    if b == 8 {
      F.RunReturnLoadBuf(ConstsOf(p), s, inp);
      BufferReads(p, m, pm, t, now, inp);
    }
  }

  /** What the automaton does on its thread's behalf when a block of the entry stub runs. */
  ghost predicate EntryMoved(p: Probe, m: Memory, t: P.Tid, core: Core, inp: X.Input, th: P.Thread, e: P.Entry,
                             s: P.Shared)
    requires core.Entering?
  {
    var acc, next := RunCore(p, core, inp).acc, NextCore(p, core, inp);
    if E.Waits(core.b, e) then After(m, acc) == m && CoreRel(p, next, th)
    else After(m, acc) == OnAction(p, m, NextAction(ConfigOf(p), th))
         && CoreRel(p, next, P.EntryStep(ConfigOf(p), t, th, e, s).0)
  }

  lemma EntryMoves(p: Probe, m: Memory, t: P.Tid, core: Core, inp: X.Input, th: P.Thread, e: P.Entry, s: P.Shared)
    requires ValidProbe(p) && core.Entering? && CoreRel(p, core, th) && th.mode == P.InEntry(e) && inp.v < P.TWO64
    requires Holds(m, p.base, ConfigOf(p), s.m) && FitsThread(th)
    requires Answered(m, t, s.now, RunCore(p, core, inp).acc, inp)
    requires E.Waits(core.b, e) || P.Safe(NextAction(ConfigOf(p), th))
    ensures EntryMoved(p, m, t, core, inp, th, e, s)
  {
    hide X.RunBlock, B.EntryBlock, Holds, E.Corr, FitsEntry, OnAction, FitsAction, Answered, After, ConfigOf;
    hide P.EntryRequest, P.EntryNext, P.EntryLog, P.Perform, Accesses, Answer, P.Safe, E.Waits;
    var cell := P.Last(th.cells);
    var a := P.EntryRequest(ConfigOf(p), e, cell);
    EntryInstalled(p, m, s.m, t, s.now, core.f, cell, core.b, e, core.s, inp);
    E.BlockStep(p, core.f, cell, core.b, e, core.s, inp);
    if E.Waits(core.b, e) {
      NothingAfter(m);
    } else {
      EntryStores(p, e, cell);
      Answers(p, m, s.m, t, s.now, a, inp);
      HookedCell(p, th, a);
    }
  }

  lemma NothingAfter(m: Memory)
    ensures After(m, []) == m
  {
  }

  lemma HookedCell(p: Probe, th: P.Thread, a: P.Action)
    requires th.cells != []
    ensures var cells := if a.Hook? then P.SetLast(th.cells, ConfigOf(p).retStub) else th.cells;
            && cells != [] && P.Front(cells) == P.Front(th.cells)
            && P.Last(cells) == if a.Hook? then L.ReturnStubAddr(p.base) else P.Last(th.cells)
  {
  }

  /** The end of the entry stub: the automaton has left already. */
  lemma EntryLeaves(p: Probe, m: Memory, core: Core, inp: X.Input, th: P.Thread)
    requires ValidProbe(p) && core.Entering? && CoreRel(p, core, th) && th.mode.User?
    ensures After(m, RunCore(p, core, inp).acc) == m && CoreRel(p, NextCore(p, core, inp), th)
  {
    hide X.RunBlock, B.EntryBlock, E.Stacked, E.Stacked2;
    var cell := P.Last(th.cells);
    if core.b == 37 {
      E.AbsoluteJump(p, core.s, inp);
      assert P.Front(th.cells) + [cell] == th.cells;
    } else {
      E.ExitStep(p, core.f, cell, core.b, core.s, inp);
    }
  }

  // ---------------------------------------------------------------- the return stub

  ghost predicate ReturnMoved(p: Probe, m: Memory, t: P.Tid, core: Core, inp: X.Input, th: P.Thread, r: P.Return,
                              s: P.Shared)
    requires core.Returning?
  {
    var acc, next := RunCore(p, core, inp).acc, NextCore(p, core, inp);
    var th' := P.ReturnStep(ConfigOf(p), t, th, r, s).0;
    && next.Returning?
    && if R.Waits(core.b, r) then After(m, acc) == m && CoreRel(p, next, th) && next.b != JUMP_BACK
       else
         && After(m, acc) == OnAction(p, m, NextAction(ConfigOf(p), th))
         && (!th'.mode.Crashed? ==> CoreRel(p, next, th'))
         && (!th'.mode.Crashed? ==>
               if r.at.RDuration? then next.b == JUMP_BACK && Popped(next.s) == r.a else next.b != JUMP_BACK)
  }

  lemma ReturnMoves(p: Probe, m: Memory, t: P.Tid, core: Core, inp: X.Input, th: P.Thread, r: P.Return, s: P.Shared)
    requires ValidProbe(p) && core.Returning? && core.b != JUMP_BACK && CoreRel(p, core, th) && th.mode == P.InReturn(r)
    requires inp.v < P.TWO64 && Holds(m, p.base, ConfigOf(p), s.m) && FitsThread(th)
    requires Answered(m, t, s.now, RunCore(p, core, inp).acc, inp)
    requires R.Waits(core.b, r) || P.Safe(NextAction(ConfigOf(p), th))
    ensures ReturnMoved(p, m, t, core, inp, th, r, s)
  {
    hide X.RunBlock, B.ReturnBlock, Holds, R.Corr, FitsReturn, OnAction, FitsAction, Answered, After, ConfigOf;
    hide P.ReturnRequest, P.ReturnNext, P.ReturnLog, P.Perform, Accesses, Answer, P.Safe, R.Waits;
    var a := P.ReturnRequest(ConfigOf(p), r);
    ReturnInstalled(p, m, s.m, t, s.now, core.g, core.b, r, core.s, inp);
    NotThere(p, core.g, core.b, r, core.s);
    R.BlockStep(p, core.g, core.b, r, core.s, inp);
    var out := RunCore(p, core, inp);
    if R.Waits(core.b, r) {
      NothingAfter(m);
      NotThere(p, core.g, out.to.b, r, out.s);
    } else {
      ReturnStores(p, r);
      Answers(p, m, s.m, t, s.now, a, inp);
      var o := P.ReturnNext(r, Answer(a, inp));
      ResumesAt(r, Answer(a, inp));
      match o {
        case Go(r') => NotThere(p, core.g, out.to.b, r', out.s);
        case Resume(b) => Waiting(p, core.g, out.to.b, b, out.s);
        case Trap =>
      }
    }
  }

  lemma ResumesAt(r: P.Return, resp: P.Word)
    ensures P.ReturnNext(r, resp).Resume? <==> r.at.RDuration?
    ensures r.at.RDuration? ==> P.ReturnNext(r, resp).a == r.a
  {
  }

  lemma NotThere(p: Probe, g: R.Frame, b: nat, r: P.Return, s: X.Cpu)
    requires R.Corr(p, g, b, P.Go(r), s)
    ensures b != JUMP_BACK && r.retval == g.r.rax
  {
    hide R.Kept, R.Kept2;
  }

  lemma Waiting(p: Probe, g: R.Frame, b: nat, a: P.Addr, s: X.Cpu)
    requires R.Corr(p, g, b, P.Resume(a), s)
    ensures b == JUMP_BACK && Popped(s) == a
  {
  }

  lemma ReturnLeaves(p: Probe, m: Memory, core: Core, inp: X.Input, th: P.Thread)
    requires ValidProbe(p) && core.Returning? && core.b == JUMP_BACK && CoreRel(p, core, th)
    ensures After(m, RunCore(p, core, inp).acc) == m && CoreRel(p, NextCore(p, core, inp), th)
    ensures RunCore(p, core, inp).to == X.Landed(Popped(core.s))
    ensures NextCore(p, core, inp).Program? <==> Popped(core.s) != L.ReturnStubAddr(p.base)
    ensures !NextCore(p, core, inp).Program? ==> NextCore(p, core, inp).Returning? && NextCore(p, core, inp).b == 0
  {
    hide X.Run, X.Append, F.OnReturn, Popped;
    var a := Popped(core.s);
    F.RunReturnEpilogue(ConstsOf(p), core.s, inp, core.g.r, a, core.g.flags, core.g.above);
    assert X.RunBlock(ConstsOf(p), B.ReturnBlock(26), 26, core.s, inp) == X.Out(R.Leaves(core.g, a), [], X.Landed(a));
  }
}
