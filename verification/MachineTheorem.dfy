/** The protocol simulates the machine: each move is at most one of its steps, so the machine code returns
    transparently and its bytes hold the protocol's memory. */
module MachineTheorem {
  import opened Wrappers
  import opened RemoteMem
  import opened StubMachine
  import opened MemoryImage
  import opened ByteRun
  import opened MachineRun
  import X = X86
  import A = Assembler
  import B = Stubs
  import F = ReturnStubRuns
  import P = Protocol
  import V = ProtocolInvariant
  import N = ProtocolMemory
  import T = ProtocolTheorem
  import Q = ProtocolEvents
  import S = ByteSteps
  import Z = StubSizes
  import E = EntryStubProof
  import R = ReturnStubProof
  import L = Layout
  import I = Install

  // ---------------------------------------------------------------- one move

  /** A processor in a stub whose automaton has reserved a ticket is using that ticket's ring slot. */
  lemma UsesSlot(p: Probe, core: Core, th: P.Thread, t: P.Tid, s: P.Shared, plain: seq<P.Addr>)
    requires CoreRel(p, core, th) && V.MemInv(ConfigOf(p), s) && V.ThreadInv(ConfigOf(p), t, th, s, plain)
    requires P.Held(th).Some?
    ensures Using(p, core) == Some(RingAddr(p, P.Held(th).value % P.CAPACITY))
  {
    hide V.OwnRecords, V.PendInv, V.Resolves, V.LogInv, V.NestInv, V.TimeInv, V.CountInv, V.RingInv, V.SlotInv;
    hide V.EntryWritten, V.ReturnWritten, V.Holding, E.Stacked, E.Stacked2, E.Untouched, R.Kept, R.Kept2;
    assert th.mode.InEntry? || th.mode.InReturn?;
  }

  lemma RoomAgrees(p: Probe, w: Machine, pw: P.World, pl: P.Plain)
    requires Related(p, w, pw, pl) && Room(p, w)
    ensures P.RingRoom(pw)
  {
    hide CoreRel, V.ThreadInv, Holds, OnBytes, Using, FitsWorld, T.DeadInv, P.Held, Fits;
    AccessRefines(p, w.m, pw.s.m, 0, 0, P.Load(P.WriteIndex));
    assert Accesses(p, P.Load(P.WriteIndex))[0] == X.Rd(L.EventsAddr(p.base), 8);
    var index := OnBytes(w.m, X.Rd(L.EventsAddr(p.base), 8)).1;
    IndexCounts(p, pw, pl);
    N.TicketMask(|pw.s.log|);
    forall u | u in pw.threads && P.Held(pw.threads[u]).Some?
      ensures P.Held(pw.threads[u]).value + P.CAPACITY != |pw.s.log|
    {
      var n := P.Held(pw.threads[u]).value;
      UsesSlot(p, w.cores[u], pw.threads[u], u, pw.s, pl[u]);
      N.AddLaps(n, 1);
      assert n % P.CAPACITY != index % P.CAPACITY;
    }
  }

  lemma IndexCounts(p: Probe, pw: P.World, pl: P.Plain)
    requires T.Sim(ConfigOf(p), pw, pl)
    ensures P.Read(ConfigOf(p), pw.s.m, P.WriteIndex) == |pw.s.log| % P.TWO64
  {
    hide V.ThreadInv, T.DeadInv;
  }

  /** The protocol may take its step, and it is a safe one. */
  ghost predicate Ready(c: P.Config, pw: P.World, t: P.Tid)
  {
    && P.Allowed(c, pw, P.Run(t)) && P.Safe(NextAction(c, pw.threads[t]))
    && !P.StubStep(c, t, pw.threads[t], pw.s).0.mode.Crashed?
  }

  lemma SafeStep(c: P.Config, pw: P.World, t: P.Tid, pl: P.Plain)
    requires T.Sim(c, pw, pl) && P.Allowed(c, pw, P.Run(t))
    ensures Ready(c, pw, t)
  {
    hide T.Sim, P.RingRoom, P.EntryRequest, P.ReturnRequest, P.Perform, P.EntryNext, P.ReturnNext, P.EntryLog;
    hide P.ReturnLog;
    hide P.Show, P.Safe;
    T.StepKeeps(c, pw, P.Run(t), pl);
    Alive(c, P.Apply(c, pw, P.Run(t)), t, P.PlainRun(pl, P.Show(c, pw, P.Run(t))).value);
    SkipIsSafe();
  }

  lemma RunAllowed(p: Probe, w: Machine, t: P.Tid, pw: P.World, pl: P.Plain)
    requires Related(p, w, pw, pl) && t in w.cores && (Reserving(w.cores[t]) ==> Room(p, w))
    requires pw.threads[t].mode.InEntry? || pw.threads[t].mode.InReturn?
    ensures Ready(ConfigOf(p), pw, t)
  {
    hide T.Sim, Holds, FitsWorld, Room, P.RingRoom, Ready, Reserving, CoreRel;
    if P.AtReserve(pw.threads[t]) {
      ReservesHere(p, w.cores[t], pw.threads[t]);
      RoomAgrees(p, w, pw, pl);
    }
    SafeStep(ConfigOf(p), pw, t, pl);
  }

  lemma ReservesHere(p: Probe, core: Core, th: P.Thread)
    requires CoreRel(p, core, th) && P.AtReserve(th)
    ensures Reserving(core)
  {
    hide E.Stacked, E.Stacked2, E.Untouched, R.Kept, R.Kept2;
  }

  lemma Alive(c: P.Config, pw: P.World, t: P.Tid, pl: P.Plain)
    requires T.Sim(c, pw, pl) && t in pw.threads
    ensures !pw.threads[t].mode.Crashed?
  {
    hide T.DeadInv, V.SlotInv, V.RingInv, V.LogInv, V.NestInv, V.TimeInv, V.CountInv, V.EntryInv, V.ReturnInv;
    hide V.OwnRecords, V.PendInv, V.Resolves;
    assert V.ThreadInv(c, t, pw.threads[t], pw.s, pl[t]);
  }

  ghost predicate OthersKept(w: Machine, cores: Cores, t: P.Tid)
  {
    forall u :: u != t ==> (u in cores <==> u in w.cores) && (u in cores ==> cores[u] == w.cores[u])
  }

  /** After the protocol's step `st` for a move of thread `t` alone, to which the machine went on to `w'`. */
  ghost predicate Follows(p: Probe, w: Machine, w': Machine, t: P.Tid, st: P.Step, pw: P.World)
    requires P.Allowed(ConfigOf(p), pw, st)
  {
    var pw' := P.Apply(ConfigOf(p), pw, st);
    && w'.m == BytesStep(p, w.m, pw, st) && w'.now == pw'.s.now && OthersKept(w, w'.cores, t)
    && (t in w'.cores <==> t in pw'.threads)
    && (t in w'.cores ==> CoreRel(p, w'.cores[t], pw'.threads[t]))
    && (forall u :: u != t ==> (u in pw'.threads <==> u in pw.threads))
    && (forall u :: u != t && u in pw.threads ==> pw'.threads[u] == pw.threads[u])
  }

  /** When a move is one step of the protocol, the two stay related. */
  lemma Settles(p: Probe, w: Machine, w': Machine, t: P.Tid, st: P.Step, pw: P.World, pl: P.Plain)
    requires ValidProbe(p) && Related(p, w, pw, pl) && P.Allowed(ConfigOf(p), pw, st) && Follows(p, w, w', t, st, pw)
    ensures var pl' := P.PlainRun(pl, P.Show(ConfigOf(p), pw, st));
            pl'.Some? && Related(p, w', P.Apply(ConfigOf(p), pw, st), pl'.value) && Elsewhere(w.m, w'.m, p.base)
  {
    hide T.Sim, CoreRel, Holds, FitsWorld, P.Apply, P.Allowed, BytesStep, Elsewhere, P.Show;
    T.StepKeeps(ConfigOf(p), pw, st, pl);
    StepHolds(p, w.m, pw, st);
  }

  /** A trace of at most one event, of thread `t`. */
  predicate Of(tr: seq<P.Seen>, t: P.Tid)
  {
    tr == [] || (|tr| == 1 && !tr[0].Killed? && tr[0].t == t)
  }

  lemma PlainOne(pl: P.Plain, tr: seq<P.Seen>, t: P.Tid)
    requires Of(tr, t)
    ensures P.PlainRun(pl, tr) == if tr == [] then Some(pl) else P.PlainStep(pl, tr[0])
  {
  }

  lemma AheadAt(p: Probe, cores: Cores, pl: P.Plain)
    requires pl.Keys == cores.Keys
    ensures Ahead(p, cores, pl).Keys == pl.Keys
    ensures forall u :: u in pl ==> Ahead(p, cores, pl)[u] == AheadOf(p, cores[u], pl[u])
  {
  }

  /** Two plain programs that agree on the thread that moves make the same step. */
  lemma StepAlike(pl: P.Plain, pl': P.Plain, a: P.Plain, a': P.Plain, l: P.Seen, t: P.Tid)
    requires !l.Killed? && l.t == t && P.PlainStep(pl, l) == Some(pl')
    requires a.Keys == pl.Keys && a'.Keys == pl'.Keys && (t in pl ==> a[t] == pl[t]) && (t in pl' ==> a'[t] == pl'[t])
    requires forall u :: u in a && u != t ==> u in a' && a'[u] == a[u]
    ensures P.PlainStep(a, l) == Some(a')
  {
    match l {
      case Began(_) => assert a' == a[t := []];
      case Ended(_) => assert a' == a - {t};
      case Called(_, ret) => assert a' == a[t := a[t] + [ret]];
      case Returned(_, to) => assert a' == a[t := P.Front(a[t])];
    }
  }

  /** What both show alike keeps the unprobed programs of both alike, as long as the thread that moves is
      not ahead. */
  lemma AheadKept(p: Probe, w: Machine, cores: Cores, t: P.Tid, tr: seq<P.Seen>, pl: P.Plain, pl': P.Plain)
    requires Of(tr, t) && P.PlainRun(pl, tr) == Some(pl') && pl.Keys == w.cores.Keys && pl'.Keys == cores.Keys
    requires OthersKept(w, cores, t)
    requires t in w.cores ==> AheadOf(p, w.cores[t], pl[t]) == pl[t]
    requires t in cores ==> AheadOf(p, cores[t], pl'[t]) == pl'[t]
    ensures P.PlainRun(Ahead(p, w.cores, pl), tr) == Some(Ahead(p, cores, pl'))
  {
    hide AheadOf, Ahead;
    PlainOne(pl, tr, t);
    var a, a' := Ahead(p, w.cores, pl), Ahead(p, cores, pl');
    PlainOne(a, tr, t);
    hide P.PlainRun;
    AheadAt(p, w.cores, pl);
    AheadAt(p, cores, pl');
    assert forall u :: u in a' && u != t ==> a'[u] == a[u];
    if tr != [] {
      StepAlike(pl, pl', a, a', tr[0], t);
    } else {
      assert a' == a;
    }
  }

  /** A move that showed `tr` is answered by the protocol's steps: the two stay related, and what both have
      shown keeps their unprobed programs alike. */
  ghost predicate Advances(p: Probe, w: Machine, w': Machine, tr: seq<P.Seen>, pw: P.World, pl: P.Plain,
                           steps: seq<P.Step>)
  {
    && P.Legal(ConfigOf(p), pw, steps)
    && var pl' := P.PlainRun(pl, P.Trace(ConfigOf(p), pw, steps));
    && pl'.Some? && Related(p, w', P.Exec(ConfigOf(p), pw, steps), pl'.value) && Elsewhere(w.m, w'.m, p.base)
    && P.PlainRun(Ahead(p, w.cores, pl), tr) == Some(Ahead(p, w'.cores, pl'.value))
  }

  lemma OneStep(c: P.Config, pw: P.World, st: P.Step)
    requires P.Allowed(c, pw, st)
    ensures P.Legal(c, pw, [st]) && P.Exec(c, pw, [st]) == P.Apply(c, pw, st)
    ensures P.Trace(c, pw, [st]) == P.Show(c, pw, st)
  {
    hide P.Allowed, P.Apply, P.Show;
    assert [st][1..] == [];
  }

  lemma Advance(p: Probe, w: Machine, w': Machine, tr: seq<P.Seen>, pw: P.World, pl: P.Plain, st: P.Step)
    requires P.Allowed(ConfigOf(p), pw, st)
    requires var pl' := P.PlainRun(pl, P.Show(ConfigOf(p), pw, st));
             && pl'.Some? && Related(p, w', P.Apply(ConfigOf(p), pw, st), pl'.value) && Elsewhere(w.m, w'.m, p.base)
             && P.PlainRun(Ahead(p, w.cores, pl), tr) == Some(Ahead(p, w'.cores, pl'.value))
    ensures Advances(p, w, w', tr, pw, pl, [st])
  {
    hide P.Allowed, P.Apply, P.Show, Related, P.Legal, P.Exec, P.Trace, P.PlainRun, Ahead, Elsewhere;
    OneStep(ConfigOf(p), pw, st);
  }

  lemma Stays(p: Probe, w: Machine, w': Machine, tr: seq<P.Seen>, pw: P.World, pl: P.Plain)
    requires Related(p, w', pw, pl) && w'.m == w.m
    requires P.PlainRun(Ahead(p, w.cores, pl), tr) == Some(Ahead(p, w'.cores, pl))
    ensures Advances(p, w, w', tr, pw, pl, [])
  {
    hide Related, Ahead;
    Untouched(w.m, p.base);
  }

  lemma StartsEntry(p: Probe, f: E.Frame, cell: P.Addr)
    requires WordArgs(f)
    ensures P.Arguments(E.ArgsOf(f)) && E.Corr(p, f, cell, 0, Some(P.StartEntry(E.ArgsOf(f))), Called(f, cell))
  {
  }

  lemma StartsReturn(p: Probe, g: R.Frame)
    requires g.r.rax >= 0
    ensures R.Corr(p, g, 0, P.Go(P.StartReturn(g.r.rax)), R.Enters(g))
  {
  }

  lemma SimKeys(c: P.Config, pw: P.World, pl: P.Plain)
    requires T.Sim(c, pw, pl)
    ensures pl.Keys == pw.threads.Keys
  {
  }

  /** The protocol's step for a move that is not a block. */
  function StepFor(v: Move): P.Step
    requires !v.Block? && (v.Call? || v.Tail? ==> WordArgs(v.f)) && (v.Ret? ==> v.g.r.rax >= 0)
  {
    match v
    case Toggle(v) => P.Toggle(v)
    case Tick(now) => P.Tick(now)
    case Spawn(t) => P.Spawn(t)
    case Exit(t) => P.Exit(t)
    case Call(t, ret, f) => P.Call(t, ret, E.ArgsOf(f))
    case Tail(t, f) => P.Tail(t, E.ArgsOf(f))
    case Ret(t, g) => P.Ret(t, g.r.rax)
  }

  function Mover(v: Move): P.Tid
  {
    match v case Toggle(_) => 0 case Tick(_) => 0 case Spawn(t) => t case Exit(t) => t case Call(t, _, _) => t
    case Tail(t, _) => t case Ret(t, _) => t case Block(t, _) => t
  }

  lemma OutsideAllowed(p: Probe, w: Machine, v: Move, pw: P.World)
    requires Paired(p, w, pw) && MayDo(p, w, v)
    ensures P.Allowed(ConfigOf(p), pw, StepFor(v)) && P.Show(ConfigOf(p), pw, StepFor(v)) == ShowOutside(p, w, v)
    ensures Of(ShowOutside(p, w, v), Mover(v)) && (Mover(v) in w.cores ==> w.cores[Mover(v)].Program?)
  {
    hide FitsThread, E.Corr, R.Corr;
    if v.Call? || v.Tail? { StartsEntry(p, v.f, 0); }
    if v.Exit? || v.Call? || v.Tail? || v.Ret? { assert CoreRel(p, w.cores[v.t], pw.threads[v.t]); }
  }

  lemma CallRel(p: Probe, outer: seq<P.Addr>, f: E.Frame, cell: P.Addr, th: P.Thread)
    requires WordArgs(f) && th.cells == outer + [cell] && th.mode == P.InEntry(P.StartEntry(E.ArgsOf(f)))
    ensures CoreRel(p, Entering(outer, f, 0, Called(f, cell)), th)
  {
    hide E.Corr, Called;
    StartsEntry(p, f, cell);
  }

  lemma RetRel(p: Probe, cells: seq<P.Addr>, g: R.Frame, th: P.Thread)
    requires g.r.rax >= 0 && th.cells == cells && th.mode == P.InReturn(P.StartReturn(g.r.rax))
    ensures CoreRel(p, Returning(cells, g, 0, R.Enters(g)), th)
  {
    hide R.Corr;
    StartsReturn(p, g);
  }

  lemma ProgramRel(p: Probe, cells: seq<P.Addr>, th: P.Thread)
    ensures CoreRel(p, Program(cells), th) <==> th.mode.User? && th.cells == cells
  {
  }

  lemma CallFollows(p: Probe, w: Machine, v: Move, pw: P.World)
    requires Paired(p, w, pw) && MayDo(p, w, v) && P.Allowed(ConfigOf(p), pw, StepFor(v)) && (v.Call? || v.Tail?)
    ensures Follows(p, w, DoOutside(p, w, v), v.t, StepFor(v), pw)
  {
    hide FitsWorld, CoreRel, P.StartEntry, Called, P.Arguments, WordArgs;
    var th, cells := P.Apply(ConfigOf(p), pw, StepFor(v)).threads[v.t], w.cores[v.t].cells;
    ProgramRel(p, cells, pw.threads[v.t]);
    if v.Call? {
      CallRel(p, cells, v.f, v.ret, th);
    } else {
      V.RefillCells(cells);
      CallRel(p, P.Front(cells), v.f, P.Last(cells), th);
    }
  }

  lemma OutsideFollows(p: Probe, w: Machine, v: Move, pw: P.World)
    requires Paired(p, w, pw) && MayDo(p, w, v) && P.Allowed(ConfigOf(p), pw, StepFor(v))
    ensures Follows(p, w, DoOutside(p, w, v), Mover(v), StepFor(v), pw)
  {
    hide FitsWorld, CoreRel, P.StartReturn;
    if v.Call? || v.Tail? {
      CallFollows(p, w, v, pw);
    } else if v.Ret? {
      var th, cells := P.Apply(ConfigOf(p), pw, StepFor(v)).threads[v.t], w.cores[v.t].cells;
      ProgramRel(p, cells, pw.threads[v.t]);
      ProgramRel(p, P.Front(cells), th);
      if P.Last(cells) == L.ReturnStubAddr(p.base) { RetRel(p, P.Front(cells), v.g, th); }
    } else if v.Spawn? {
      ProgramRel(p, [], P.Apply(ConfigOf(p), pw, StepFor(v)).threads[v.t]);
    }
  }

  // ---------------------------------------------------------------- blocks

  lemma AheadSame(p: Probe, w: Machine, w': Machine, t: P.Tid, tr: seq<P.Seen>, pw: P.World, pl: P.Plain, pw': P.World,
                  pl': P.Plain)
    requires Related(p, w, pw, pl) && Related(p, w', pw', pl') && OthersKept(w, w'.cores, t)
    requires Of(tr, t) && P.PlainRun(pl, tr) == Some(pl')
    requires t in w.cores ==> !w.cores[t].Returning? || w.cores[t].b != JUMP_BACK
    requires t in w'.cores ==> !w'.cores[t].Returning? || w'.cores[t].b != JUMP_BACK
    ensures P.PlainRun(Ahead(p, w.cores, pl), tr) == Some(Ahead(p, w'.cores, pl'))
  {
    hide T.Sim, Holds, FitsWorld, CoreRel, Popped, P.PlainRun;
    SimKeys(ConfigOf(p), pw, pl);
    SimKeys(ConfigOf(p), pw', pl');
    AheadKept(p, w, w'.cores, t, tr, pl, pl');
  }

  lemma OutsideAdvances(p: Probe, w: Machine, v: Move, pw: P.World, pl: P.Plain)
    requires ValidProbe(p) && Related(p, w, pw, pl) && MayDo(p, w, v)
    ensures P.Allowed(ConfigOf(p), pw, StepFor(v))
    ensures Advances(p, w, DoOutside(p, w, v), ShowOutside(p, w, v), pw, pl, [StepFor(v)])
  {
    hide Related, P.Allowed, P.Apply, P.Show, P.PlainRun, Ahead, Elsewhere, Advances, Follows, CoreRel, ShowOutside, Of;
    Pairs(p, w, pw, pl);
    OutsideAllowed(p, w, v, pw);
    OutsideFollows(p, w, v, pw);
    var w', t := DoOutside(p, w, v), Mover(v);
    Settles(p, w, w', t, StepFor(v), pw, pl);
    var pl' := P.PlainRun(pl, ShowOutside(p, w, v)).value;
    AheadSame(p, w, w', t, ShowOutside(p, w, v), pw, pl, P.Apply(ConfigOf(p), pw, StepFor(v)), pl');
    Advance(p, w, w', ShowOutside(p, w, v), pw, pl, StepFor(v));
  }

  /** A block that the automaton waits out, or that comes after it. */
  lemma StillRelated(p: Probe, w: Machine, w': Machine, t: P.Tid, next: Core, pw: P.World, pl: P.Plain)
    requires Related(p, w, pw, pl) && t in w.cores && CoreRel(p, next, pw.threads[t])
    requires w' == w.(cores := w.cores[t := next])
    ensures Related(p, w', pw, pl)
  {
    hide T.Sim, Holds, FitsWorld, CoreRel;
  }

  lemma BlockFollows(p: Probe, w: Machine, w': Machine, t: P.Tid, next: Core, pw: P.World)
    requires Paired(p, w, pw) && t in w.cores && Ready(ConfigOf(p), pw, t)
    requires CoreRel(p, next, P.StubStep(ConfigOf(p), t, pw.threads[t], pw.s).0)
    requires w' == w.(cores := w.cores[t := next], m := OnAction(p, w.m, NextAction(ConfigOf(p), pw.threads[t])))
    ensures Follows(p, w, w', t, P.Run(t), pw)
  {
    hide FitsWorld, CoreRel, OnAction, NextAction, P.Safe, P.RingRoom;
    StubKeepsTime(ConfigOf(p), t, pw.threads[t], pw.s);
    hide P.StubStep;
  }

  lemma StubKeepsTime(c: P.Config, t: P.Tid, th: P.Thread, s: P.Shared)
    ensures P.StubStep(c, t, th, s).1.now == s.now
  {
    hide P.EntryRequest, P.ReturnRequest, P.Perform, P.EntryNext, P.ReturnNext, P.EntryLog, P.ReturnLog, P.Safe;
  }

  /** What a block shows, and how far its processor's program is behind the protocol's: alike. */
  ghost predicate ShowsAlike(p: Probe, w: Machine, t: P.Tid, inp: X.Input, pl: P.Plain, pl': P.Plain)
    requires MayRun(p, w, t, inp)
  {
    P.PlainRun(Ahead(p, w.cores, pl), ShowBlock(p, w, t, inp)) == Some(Ahead(p, DoBlock(p, w, t, inp).cores, pl'))
  }

  lemma SilentBlock(p: Probe, w: Machine, t: P.Tid, inp: X.Input, pw: P.World, pl: P.Plain)
    requires Related(p, w, pw, pl) && MayRun(p, w, t, inp) && ShowsAlike(p, w, t, inp, pl, pl)
    requires After(w.m, RunCore(p, w.cores[t], inp).acc) == w.m
    requires CoreRel(p, NextCore(p, w.cores[t], inp), pw.threads[t])
    ensures Advances(p, w, DoBlock(p, w, t, inp), ShowBlock(p, w, t, inp), pw, pl, [])
  {
    hide Related, CoreRel, RunCore, NextCore, After, Advances, P.PlainRun, ShowBlock, Ahead, Answered, Room;
    var w' := DoBlock(p, w, t, inp);
    StillRelated(p, w, w', t, NextCore(p, w.cores[t], inp), pw, pl);
    Stays(p, w, w', ShowBlock(p, w, t, inp), pw, pl);
  }

  lemma SteppingBlock(p: Probe, w: Machine, t: P.Tid, inp: X.Input, pw: P.World, pl: P.Plain)
    requires ValidProbe(p) && Related(p, w, pw, pl) && MayRun(p, w, t, inp) && Ready(ConfigOf(p), pw, t)
    requires After(w.m, RunCore(p, w.cores[t], inp).acc) == OnAction(p, w.m, NextAction(ConfigOf(p), pw.threads[t]))
    requires CoreRel(p, NextCore(p, w.cores[t], inp), P.StubStep(ConfigOf(p), t, pw.threads[t], pw.s).0)
    requires var pl' := P.PlainRun(pl, P.Show(ConfigOf(p), pw, P.Run(t)));
             pl'.Some? ==> ShowsAlike(p, w, t, inp, pl, pl'.value)
    ensures Advances(p, w, DoBlock(p, w, t, inp), ShowBlock(p, w, t, inp), pw, pl, [P.Run(t)])
  {
    hide Related, CoreRel, RunCore, NextCore, After, Advances, P.PlainRun, P.Show, P.Apply, P.StubStep, ShowBlock;
    hide OnAction, NextAction, Follows, Answered, Room, Ahead, P.Safe, P.RingRoom;
    var w' := DoBlock(p, w, t, inp);
    Pairs(p, w, pw, pl);
    BlockFollows(p, w, w', t, NextCore(p, w.cores[t], inp), pw);
    Settles(p, w, w', t, P.Run(t), pw, pl);
    Advance(p, w, w', ShowBlock(p, w, t, inp), pw, pl, P.Run(t));
  }

  /** A block between two places where nobody is ahead, with nothing to show. */
  lemma QuietBlock(p: Probe, w: Machine, t: P.Tid, inp: X.Input, pw: P.World, pl: P.Plain, th: P.Thread)
    requires Related(p, w, pw, pl) && MayRun(p, w, t, inp) && CoreRel(p, NextCore(p, w.cores[t], inp), th)
    requires var core, next := w.cores[t], NextCore(p, w.cores[t], inp);
             core.Entering? || (core.b != JUMP_BACK && next.Returning? && next.b != JUMP_BACK)
    ensures ShowsAlike(p, w, t, inp, pl, pl) && ShowBlock(p, w, t, inp) == []
  {
    hide T.Sim, Holds, FitsWorld, RunCore, NextCore, After, Answered, Room, Ahead, P.PlainRun, E.Corr, R.Corr;
    var w' := DoBlock(p, w, t, inp);
    NextOfEntry(p, w.cores[t], inp);
    SimKeys(ConfigOf(p), pw, pl);
    PlainOne(pl, [], t);
    AheadKept(p, w, w'.cores, t, [], pl, pl);
  }

  lemma NextOfEntry(p: Probe, core: Core, inp: X.Input)
    requires core.Entering? || core.Returning?
    ensures core.Entering? ==> !NextCore(p, core, inp).Returning?
  {
    hide RunCore;
  }

  lemma EntryAdvances(p: Probe, w: Machine, t: P.Tid, inp: X.Input, pw: P.World, pl: P.Plain)
    returns (steps: seq<P.Step>)
    requires ValidProbe(p) && Related(p, w, pw, pl) && MayRun(p, w, t, inp) && w.cores[t].Entering?
    ensures Advances(p, w, DoBlock(p, w, t, inp), ShowBlock(p, w, t, inp), pw, pl, steps)
  {
    hide T.Sim, E.Corr, RunCore, NextCore, Answered, Room, Ready, After, Ahead, Advances, P.EntryStep, P.Show;
    hide ShowsAlike;
    hide P.PlainRun, ShowBlock, DoBlock, Holds, FitsThread, E.Waits;
    var core, th := w.cores[t], pw.threads[t];
    if th.mode.User? {
      EntryLeaves(p, w.m, core, inp, th);
      QuietBlock(p, w, t, inp, pw, pl, th);
      SilentBlock(p, w, t, inp, pw, pl);
      steps := [];
    } else {
      var e := th.mode.e;
      if !E.Waits(core.b, e) {
        RunAllowed(p, w, t, pw, pl);
        ReadyShows(ConfigOf(p), pw, t);
      }
      EntryMoves(p, w.m, t, core, inp, th, e, pw.s);
      if E.Waits(core.b, e) {
        QuietBlock(p, w, t, inp, pw, pl, th);
        SilentBlock(p, w, t, inp, pw, pl);
        steps := [];
      } else {
        QuietBlock(p, w, t, inp, pw, pl, P.EntryStep(ConfigOf(p), t, th, e, pw.s).0);
        PlainOne(pl, [], t);
        SteppingBlock(p, w, t, inp, pw, pl);
        steps := [P.Run(t)];
      }
    }
  }

  lemma ReadyShows(c: P.Config, pw: P.World, t: P.Tid)
    requires Ready(c, pw, t)
    ensures P.Safe(NextAction(c, pw.threads[t]))
    ensures P.Allowed(c, pw, P.Run(t))
    ensures pw.threads[t].mode.InEntry? ==> P.Show(c, pw, P.Run(t)) == []
    ensures pw.threads[t].mode.InReturn? && !pw.threads[t].mode.r.at.RDuration? ==> P.Show(c, pw, P.Run(t)) == []
  {
    hide P.EntryStep, P.ReturnStep, P.Safe;
  }

  lemma DurationLands(c: P.Config, pw: P.World, t: P.Tid, r: P.Return)
    requires Ready(c, pw, t) && pw.threads[t].mode == P.InReturn(r) && r.at.RDuration?
    ensures P.Show(c, pw, P.Run(t)) == if r.a == c.retStub then [] else [P.Returned(t, r.a)]
  {
    hide P.Perform, P.ReturnLog, P.Safe;
  }

  /** The protocol shows the return now, the processor with its jump. */
  lemma DurationShows(p: Probe, w: Machine, t: P.Tid, inp: X.Input, pw: P.World, pl: P.Plain, r: P.Return)
    requires Related(p, w, pw, pl) && MayRun(p, w, t, inp) && Ready(ConfigOf(p), pw, t)
    requires pw.threads[t].mode == P.InReturn(r) && r.at.RDuration?
    requires w.cores[t].Returning? && w.cores[t].b != JUMP_BACK
    requires var next := NextCore(p, w.cores[t], inp);
             next.Returning? && next.b == JUMP_BACK && Popped(next.s) == r.a
    ensures var pl' := P.PlainRun(pl, P.Show(ConfigOf(p), pw, P.Run(t)));
            pl'.Some? ==> ShowsAlike(p, w, t, inp, pl, pl'.value)
  {
    hide T.Sim, Holds, FitsWorld, RunCore, NextCore, After, Answered, Room, Ahead, CoreRel, Popped, P.Show, Ready;
    var w' := DoBlock(p, w, t, inp);
    SimKeys(ConfigOf(p), pw, pl);
    DurationLands(ConfigOf(p), pw, t, r);
    var tr := P.Show(ConfigOf(p), pw, P.Run(t));
    PlainOne(pl, tr, t);
    PlainOne(Ahead(p, w.cores, pl), [], t);
    hide P.PlainRun;
    var pl' := P.PlainRun(pl, tr);
    if pl'.Some? {
      AheadAt(p, w.cores, pl);
      AheadAt(p, w'.cores, pl'.value);
      if tr != [] { V.RefillCells(pl[t]); }
      assert Ahead(p, w'.cores, pl'.value) == Ahead(p, w.cores, pl);
    }
  }

  /** The processor shows the return that the protocol has shown already. */
  lemma JumpShows(p: Probe, w: Machine, t: P.Tid, inp: X.Input, pw: P.World, pl: P.Plain)
    requires ValidProbe(p) && Related(p, w, pw, pl) && MayRun(p, w, t, inp)
    requires w.cores[t].Returning? && w.cores[t].b == JUMP_BACK
    ensures ShowsAlike(p, w, t, inp, pl, pl)
  {
    hide T.Sim, Holds, FitsWorld, RunCore, NextCore, After, Answered, Room, Ahead, CoreRel, Popped;
    var core := w.cores[t];
    ReturnLeaves(p, w.m, core, inp, pw.threads[t]);
    var w', a := DoBlock(p, w, t, inp), Popped(core.s);
    SimKeys(ConfigOf(p), pw, pl);
    AheadAt(p, w.cores, pl);
    AheadAt(p, w'.cores, pl);
    var before, after := Ahead(p, w.cores, pl), Ahead(p, w'.cores, pl);
    if a == L.ReturnStubAddr(p.base) {
      PlainOne(before, [], t);
      assert after == before;
    } else {
      PlainOne(before, [P.Returned(t, a)], t);
      assert P.Front(before[t]) == pl[t];
      assert after == before[t := P.Front(before[t])];
    }
  }

  lemma ReturnAdvances(p: Probe, w: Machine, t: P.Tid, inp: X.Input, pw: P.World, pl: P.Plain)
    returns (steps: seq<P.Step>)
    requires ValidProbe(p) && Related(p, w, pw, pl) && MayRun(p, w, t, inp) && w.cores[t].Returning?
    ensures Advances(p, w, DoBlock(p, w, t, inp), ShowBlock(p, w, t, inp), pw, pl, steps)
  {
    hide T.Sim, R.Corr, RunCore, NextCore, Answered, Room, Ready, After, Ahead, Advances, P.ReturnStep, P.Show;
    hide ShowsAlike;
    hide P.PlainRun, ShowBlock, DoBlock, Holds, FitsThread, R.Waits, Popped;
    var core, th := w.cores[t], pw.threads[t];
    if core.b == JUMP_BACK {
      ReturnLeaves(p, w.m, core, inp, th);
      JumpShows(p, w, t, inp, pw, pl);
      SilentBlock(p, w, t, inp, pw, pl);
      steps := [];
    } else {
      var r := th.mode.r;
      if !R.Waits(core.b, r) {
        RunAllowed(p, w, t, pw, pl);
        ReadyShows(ConfigOf(p), pw, t);
      }
      ReturnMoves(p, w.m, t, core, inp, th, r, pw.s);
      if R.Waits(core.b, r) {
        QuietBlock(p, w, t, inp, pw, pl, th);
        SilentBlock(p, w, t, inp, pw, pl);
        steps := [];
      } else {
        ReadyAlive(ConfigOf(p), pw, t, r);
        if r.at.RDuration? {
          DurationShows(p, w, t, inp, pw, pl, r);
        } else {
          QuietBlock(p, w, t, inp, pw, pl, P.ReturnStep(ConfigOf(p), t, th, r, pw.s).0);
          PlainOne(pl, [], t);
        }
        SteppingBlock(p, w, t, inp, pw, pl);
        steps := [P.Run(t)];
      }
    }
  }

  lemma ReadyAlive(c: P.Config, pw: P.World, t: P.Tid, r: P.Return)
    requires Ready(c, pw, t) && pw.threads[t].mode == P.InReturn(r)
    ensures !P.ReturnStep(c, t, pw.threads[t], r, pw.s).0.mode.Crashed?
  {
    hide P.ReturnStep, P.Safe;
  }

  // ---------------------------------------------------------------- whole runs

  /** One move of the machine is at most one step of the protocol. */
  lemma MoveAdvances(p: Probe, w: Machine, v: Move, pw: P.World, pl: P.Plain) returns (steps: seq<P.Step>)
    requires ValidProbe(p) && Related(p, w, pw, pl) && Possible(p, w, v)
    ensures Advances(p, w, Do(p, w, v), Show(p, w, v), pw, pl, steps)
  {
    hide Related, Advances, Answered, Room, RunCore, NextCore, DoBlock, ShowBlock, MayDo, DoOutside, ShowOutside;
    if !v.Block? {
      OutsideAdvances(p, w, v, pw, pl);
      steps := [StepFor(v)];
    } else if w.cores[v.t].Entering? {
      steps := EntryAdvances(p, w, v.t, v.inp, pw, pl);
    } else {
      steps := ReturnAdvances(p, w, v.t, v.inp, pw, pl);
    }
  }

  lemma {:induction false} TraceAppend(c: P.Config, pw: P.World, a: seq<P.Step>, b: seq<P.Step>)
    requires P.Legal(c, pw, a) && P.Legal(c, P.Exec(c, pw, a), b)
    ensures P.Legal(c, pw, a + b)
    ensures P.Trace(c, pw, a + b) == P.Trace(c, pw, a) + P.Trace(c, P.Exec(c, pw, a), b)
    decreases |a|
  {
    hide P.Allowed, P.Apply, P.Show;
    Q.RunsOn(c, pw, a, b);
    if a == [] {
      assert a + b == b;
    } else {
      assert (a + b)[1..] == a[1..] + b;
      TraceAppend(c, P.Apply(c, pw, a[0]), a[1..], b);
    }
  }

  /** Two advances, one after the other. */
  lemma Chain(p: Probe, w: Machine, w1: Machine, w2: Machine, tr1: seq<P.Seen>, tr2: seq<P.Seen>, pw: P.World,
              pl: P.Plain,
              a: seq<P.Step>, b: seq<P.Step>)
    requires Advances(p, w, w1, tr1, pw, pl, a)
    requires Advances(p, w1, w2, tr2, P.Exec(ConfigOf(p), pw, a), P.PlainRun(pl, P.Trace(ConfigOf(p), pw, a)).value, b)
    ensures Advances(p, w, w2, tr1 + tr2, pw, pl, a + b)
  {
    hide Related, Ahead, P.Legal, P.Exec, P.Trace, P.PlainRun, Elsewhere;
    var c := ConfigOf(p);
    Q.RunsOn(c, pw, a, b);
    TraceAppend(c, pw, a, b);
    T.PlainAppend(pl, P.Trace(c, pw, a), P.Trace(c, P.Exec(c, pw, a), b));
    T.PlainAppend(Ahead(p, w.cores, pl), tr1, tr2);
    ElsewhereOn(w.m, w1.m, w2.m, p.base);
  }

  lemma Advanced(p: Probe, w: Machine, w': Machine, tr: seq<P.Seen>, pw: P.World, pl: P.Plain, steps: seq<P.Step>)
    requires Advances(p, w, w', tr, pw, pl, steps)
    ensures P.Legal(ConfigOf(p), pw, steps) && P.PlainRun(pl, P.Trace(ConfigOf(p), pw, steps)).Some?
    ensures Related(p, w', P.Exec(ConfigOf(p), pw, steps), P.PlainRun(pl, P.Trace(ConfigOf(p), pw, steps)).value)
    ensures Elsewhere(w.m, w'.m, p.base) && P.PlainRun(Ahead(p, w.cores, pl), tr).Some?
  {
    hide Related, Ahead, P.Legal, P.Exec, P.Trace, P.PlainRun, Elsewhere;
  }

  lemma {:induction false} RunAdvances(p: Probe, w: Machine, vs: seq<Move>, pw: P.World, pl: P.Plain)
    returns (steps: seq<P.Step>)
    requires ValidProbe(p) && Related(p, w, pw, pl) && PossibleAll(p, w, vs)
    ensures Advances(p, w, DoAll(p, w, vs), Trace(p, w, vs), pw, pl, steps)
    decreases |vs|
  {
    hide Related, Possible, Do, Show, Advances, P.Legal, P.Exec, P.Trace, P.PlainRun, Ahead;
    if vs == [] {
      PlainNothing(Ahead(p, w.cores, pl), pl);
      Stays(p, w, w, [], pw, pl);
      steps := [];
    } else {
      var a := MoveAdvances(p, w, vs[0], pw, pl);
      var w1, tr1 := Do(p, w, vs[0]), Show(p, w, vs[0]);
      Advanced(p, w, w1, tr1, pw, pl, a);
      var pw1, pl1 := P.Exec(ConfigOf(p), pw, a), P.PlainRun(pl, P.Trace(ConfigOf(p), pw, a)).value;
      var b := RunAdvances(p, w1, vs[1..], pw1, pl1);
      Chain(p, w, w1, DoAll(p, w1, vs[1..]), tr1, Trace(p, w1, vs[1..]), pw, pl, a, b);
      steps := a + b;
    }
  }

  lemma PlainNothing(a: P.Plain, b: P.Plain)
    ensures P.PlainRun(a, []) == Some(a)
  {
  }

  lemma Starts(p: Probe, m: Memory, target: X.Word, code: seq<X.Byte>, now: P.Word)
    requires I.Installed(m, p, target, code) && ValidProbe(p) && now < P.TWO64
    ensures Related(p, Machine(m, now, map[]), P.Init(1, now), map[]) && Ahead(p, map[], map[]) == map[]
  {
    hide I.Installed, T.Sim, Holds;
    InstalledIsInit(m, p, target, code, now);
    T.InitSim(ConfigOf(p), 1, now);
  }

  /** The machine code returns transparently. Start with the bytes of an installed area and no thread;
      let threads come and go, call the probed function, return from it or leave it by a jump, and let
      their processors run the stubs' blocks in any order on the shared bytes. Then what the program sees
      is what an unprobed program could do: nobody meets the undefined instruction or leaves a stub to a
      wrong place or in a wrong state, and every return goes to the address on top of its own calls. At
      every point the bytes hold the memory of a world that the protocol reaches, and the code is as
      installed. */
  lemma CodeIsTransparent(p: Probe, m: Memory, target: X.Word, code: seq<X.Byte>, now: P.Word, vs: seq<Move>)
    returns (steps: seq<P.Step>)
    requires I.Installed(m, p, target, code) && ValidProbe(p) && now < P.TWO64
    requires PossibleAll(p, Machine(m, now, map[]), vs)
    ensures P.PlainRun(map[], Trace(p, Machine(m, now, map[]), vs)).Some?
    ensures forall t :: P.Killed(t) !in Trace(p, Machine(m, now, map[]), vs)
    ensures P.Legal(ConfigOf(p), P.Init(1, now), steps)
    ensures var w, pw := DoAll(p, Machine(m, now, map[]), vs), P.Exec(ConfigOf(p), P.Init(1, now), steps);
            && Holds(w.m, p.base, ConfigOf(p), pw.s.m) && CodeIs(w.m, p, target, code)
            && Paired(p, w, pw)
  {
    hide *;
    var w0 := Machine(m, now, map[]);
    Starts(p, m, target, code, now);
    steps := RunAdvances(p, w0, vs, P.Init(1, now), map[]);
    var w, tr := DoAll(p, w0, vs), Trace(p, w0, vs);
    Advanced(p, w0, w, tr, P.Init(1, now), map[], steps);
    T.NobodyKilled(map[], tr);
    CodeKept(p, m, w.m, target, code);
    var pw := P.Exec(ConfigOf(p), P.Init(1, now), steps);
    Held(p, w, pw, P.PlainRun(map[], P.Trace(ConfigOf(p), P.Init(1, now), steps)).value);
  }

  lemma Held(p: Probe, w: Machine, pw: P.World, pl: P.Plain)
    requires Related(p, w, pw, pl)
    ensures Holds(w.m, p.base, ConfigOf(p), pw.s.m) && Paired(p, w, pw)
  {
  }

  lemma AllRest(p: Probe, w: Machine, pw: P.World)
    requires Paired(p, w, pw) && forall t :: t in w.cores ==> w.cores[t].Program?
    ensures Q.AtRest(pw)
  {
    hide FitsWorld, E.Corr, R.Corr;
    forall t | t in pw.threads ensures pw.threads[t].mode.User? {
      assert CoreRel(p, w.cores[t], pw.threads[t]);
    }
  }

  // ---------------------------------------------------------------- progress

  lemma Answerable(p: Probe, m: Memory, pm: P.Mem, t: P.Tid, now: P.Word, a: P.Action)
    requires Holds(m, p.base, ConfigOf(p), pm) && P.Safe(a) && FitsAction(a) && t < P.TWO32 && now < P.TWO64
    ensures var inp := X.Input(P.Perform(ConfigOf(p), pm, t, now, a).1, 0, now, X.Calm);
            inp.v < P.TWO64 && Answered(m, t, now, Accesses(p, a), inp) && Installed(p, a, inp)
  {
    hide Holds, FitsAction, OnBytes, Elsewhere, Fits;
    var v := P.Perform(ConfigOf(p), pm, t, now, a).1;
    Fits64(v);
    Fits32(v);
    if TouchesMemory(a) {
      AccessRefines(p, m, pm, t, now, a);
    }
    if !Silent(a) {
      assert Accesses(p, a)[1..] == [];
    }
  }

  lemma EntryInput(p: Probe, m: Memory, t: P.Tid, core: Core, th: P.Thread, s: P.Shared) returns (inp: X.Input)
    requires ValidProbe(p) && core.Entering? && CoreRel(p, core, th)
    requires Holds(m, p.base, ConfigOf(p), s.m) && FitsThread(th) && t < P.TWO32 && s.now < P.TWO64
    requires th.mode.InEntry? && !E.Waits(core.b, th.mode.e) ==> P.Safe(NextAction(ConfigOf(p), th))
    ensures inp.v < P.TWO64 && Answered(m, t, s.now, RunCore(p, core, inp).acc, inp)
  {
    hide X.RunBlock, B.EntryBlock, Holds, E.Corr, P.Perform, Accesses, FitsAction, E.Waits, FitsEntry;
    hide P.EntryRequest, P.Safe;
    var cell := P.Last(th.cells);
    inp := X.Input(L.EventsAddr(p.base), 0, 0, X.Calm);
    if th.mode.User? {
      if core.b == 37 {
        E.AbsoluteJump(p, core.s, inp);
      } else {
        LeavesBy(p, core, cell);
        E.ExitStep(p, core.f, cell, core.b, core.s, inp);
      }
    } else {
      var e := th.mode.e;
      if !E.Waits(core.b, e) {
        var a := P.EntryRequest(ConfigOf(p), e, cell);
        EntryStores(p, e, cell);
        Answerable(p, m, s.m, t, s.now, a);
        inp := X.Input(P.Perform(ConfigOf(p), s.m, t, s.now, a).1, 0, s.now, X.Calm);
      }
      E.BlockStep(p, core.f, cell, core.b, e, core.s, inp);
    }
  }

  lemma LeavesBy(p: Probe, core: Core, cell: P.Addr)
    requires core.Entering? && E.Corr(p, core.f, cell, core.b, None, core.s) && core.b != 37
    ensures core.b < 37
  {
    hide E.Stacked, E.Stacked2, E.Untouched;
  }

  lemma ReturnInput(p: Probe, m: Memory, t: P.Tid, core: Core, th: P.Thread, s: P.Shared) returns (inp: X.Input)
    requires ValidProbe(p) && core.Returning? && CoreRel(p, core, th)
    requires Holds(m, p.base, ConfigOf(p), s.m) && FitsThread(th) && t < P.TWO32 && s.now < P.TWO64
    requires core.b != JUMP_BACK && !R.Waits(core.b, th.mode.r) ==> P.Safe(NextAction(ConfigOf(p), th))
    ensures inp.v < P.TWO64 && Answered(m, t, s.now, RunCore(p, core, inp).acc, inp)
  {
    hide X.RunBlock, B.ReturnBlock, Holds, R.Corr, P.Perform, Accesses, FitsAction, R.Waits, FitsReturn;
    hide P.ReturnRequest, P.Safe;
    inp := X.Input(L.EventsAddr(p.base), 0, 0, X.Calm);
    if core.b == JUMP_BACK {
      JumpsQuietly(p, core, th, inp);
    } else {
      var r := th.mode.r;
      if !R.Waits(core.b, r) {
        var a := P.ReturnRequest(ConfigOf(p), r);
        ReturnStores(p, r);
        Answerable(p, m, s.m, t, s.now, a);
        inp := X.Input(P.Perform(ConfigOf(p), s.m, t, s.now, a).1, 0, s.now, X.Calm);
      }
      R.BlockStep(p, core.g, core.b, r, core.s, inp);
    }
  }

  lemma JumpsQuietly(p: Probe, core: Core, th: P.Thread, inp: X.Input)
    requires ValidProbe(p) && core.Returning? && core.b == JUMP_BACK && CoreRel(p, core, th)
    ensures RunCore(p, core, inp).acc == []
  {
    hide X.Run, X.Append, F.OnReturn, Popped;
    F.RunReturnEpilogue(ConstsOf(p), core.s, inp, core.g.r, Popped(core.s), core.g.flags, core.g.above);
  }

  /** A processor in a stub can always go on: some input is what its next block's accesses meet. */
  lemma NeverStuck(p: Probe, w: Machine, t: P.Tid, pw: P.World, pl: P.Plain) returns (inp: X.Input)
    requires ValidProbe(p) && Related(p, w, pw, pl) && t in w.cores && (w.cores[t].Entering? || w.cores[t].Returning?)
    requires Reserving(w.cores[t]) ==> Room(p, w)
    ensures MayRun(p, w, t, inp)
  {
    hide T.Sim, Holds, Room, Reserving, Answered, RunCore, Ready, FitsThread, E.Waits, R.Waits, E.Corr, R.Corr;
    hide NextAction, P.Safe;
    var core, th := w.cores[t], pw.threads[t];
    if th.mode.InEntry? || th.mode.InReturn? {
      RunAllowed(p, w, t, pw, pl);
      ReadyShows(ConfigOf(p), pw, t);
    }
    if core.Entering? {
      inp := EntryInput(p, w.m, t, core, th, pw.s);
    } else {
      inp := ReturnInput(p, w.m, t, core, th, pw.s);
    }
  }

  // ---------------------------------------------------------------- the bytes being run

  /** The stub that a processor is in: where it lies, its blocks, and how many they are. */
  function StubAddr(p: Probe, core: Core): X.Word
  {
    if core.Entering? then L.EntryStubAddr(p.base) else L.ReturnStubAddr(p.base)
  }

  function StubOf(p: Probe, core: Core): nat -> X.Block
  {
    if core.Entering? then B.EntryStub(p.hasRet) else B.ReturnStub()
  }

  lemma CoreInside(p: Probe, core: Core, th: P.Thread)
    requires CoreRel(p, core, th) && (core.Entering? || core.Returning?)
    ensures core.b < if core.Entering? then 38 else 29
  {
    hide E.Stacked, E.Stacked2, E.Untouched, R.Kept, R.Kept2;
  }

  /** The address of the block that a processor is about to run. */
  function PcOf(p: Probe, core: Core): X.Word
    requires core.Entering? || core.Returning?
  {
    StubAddr(p, core) + A.Offset(ConstsOf(p), StubOf(p, core), core.b)
  }

  /** What a processor in a stub does with the bytes it finds in memory: reading instruction by instruction from
      the address of its block, it comes, with this input, to the state that the machine gives it, by the accesses
      that the machine makes, and to the address of the block that it is in next, or to where it has left for. */
  lemma BytesUnderCore(p: Probe, w: Machine, t: P.Tid, pw: P.World, target: X.Word, code: seq<X.Byte>, inp: X.Input)
    requires ValidProbe(p) && Paired(p, w, pw) && CodeIs(w.m, p, target, code)
    requires t in w.cores && (w.cores[t].Entering? || w.cores[t].Returning?)
    ensures var core := w.cores[t]; var out, next := RunCore(p, core, inp), NextCore(p, core, inp);
            var r := S.Steps(w.m, Some(PcOf(p, core)), core.s, inp, S.CountBlock(StubOf(p, core)(core.b)));
            && r.Some? && r.value.s == out.s && r.value.acc == out.acc
            && (next.Entering? || next.Returning? ==> r.value.pc == Some(PcOf(p, next)))
            && (out.to.Landed? ==> r.value.pc == Some(out.to.addr)) && (out.to.Undefined? ==> r.value.pc == None)
  {
    hide FitsWorld, CoreRel, A.Asm, A.Offset, Fetches, B.EntryBlock, B.ReturnBlock, X.RunBlock, S.Steps;
    hide I.TrampolineBytes, S.Closed, S.Readable, S.Fit, S.CountBlock, E.Untouched, R.Leaves;
    var core, k, stub := w.cores[t], ConstsOf(p), StubOf(p, w.cores[t]);
    CoreInside(p, core, pw.threads[t]);
    S.ProbeFits(p);
    S.EntryStubReads(k, p.hasRet);
    S.ReturnStubReads(k);
    Z.StubsFit(k);
    S.BlockOfSteps(w.m, StubAddr(p, core), k, stub, if core.Entering? then 38 else 29, core.b, core.s, inp);
    FirstBlock(k);
  }

  lemma FirstBlock(k: X.Consts)
    ensures A.Offset(k, B.ReturnStub(), 0) == 0
  {
  }
}
