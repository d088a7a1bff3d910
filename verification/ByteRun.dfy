/** The target's bytes along a whole run of the protocol: every value the stubs store fits its place,
    so the bytes reached from an installed area hold the protocol's memory at every step. */
module ByteRun {
  import X86
  import opened RemoteMem
  import opened StubMachine
  import opened MemoryImage
  import P = Protocol
  import L = Layout
  import I = Install

  // ---------------------------------------------------------------- register sizes

  ghost predicate FitsEntry(e: P.Entry)
  {
    && P.Arguments(e.args) && e.v < P.TWO64 && e.ts < P.TWO64 && e.d <= P.DEPTH
    && (e.at.PutTid? || e.at.Claim? ==> e.v < P.TWO32)
  }

  ghost predicate FitsReturn(r: P.Return)
  {
    && r.retval < P.TWO64 && r.v < P.TWO64 && r.ts < P.TWO64 && r.d < P.TWO32
    && (r.at.RPutTid? ==> r.v < P.TWO32)
  }

  ghost predicate FitsThread(th: P.Thread)
  {
    && (forall i :: 0 <= i < |th.cells| ==> th.cells[i] < P.TWO64)
    && (th.mode.InEntry? ==> FitsEntry(th.mode.e))
    && (th.mode.InReturn? ==> FitsReturn(th.mode.r))
  }

  ghost predicate FitsWorld(w: P.World)
  {
    w.s.now < P.TWO64 && forall t :: t in w.threads ==> 0 < t < P.TWO32 && FitsThread(w.threads[t])
  }

  lemma EntryStores(p: Probe, e: P.Entry, cell: P.Addr)
    requires ValidProbe(p) && FitsEntry(e) && cell < P.TWO64
    ensures FitsAction(P.EntryRequest(ConfigOf(p), e, cell))
  {
    hide Fits;
    Words(p);
    if e.at.PutArg? || e.at.PutTs? || e.at.PutRetval? || e.at.PutDuration? || e.at.SaveRet? || e.at.SaveTs? {
      Fits64(if e.at.PutArg? && e.j < |e.args| then e.args[e.j] else if e.at.PutTs? then e.ts
             else if e.at.SaveRet? then cell else if e.at.SaveTs? then e.v else 0);
    } else {
      Fits32(if e.at.PutPid? then p.pid else if e.at.PutProbe? then p.probeId else if e.at.PutKind? then 1
             else if e.at.PushDepth? then e.d + 1 else e.v);
    }
  }

  lemma Words(p: Probe)
    requires ValidProbe(p)
    ensures ConfigOf(p).pid < P.TWO32 && ConfigOf(p).probeId < P.TWO32 && ConfigOf(p).retStub < P.TWO64
  {
  }

  lemma ReturnStores(p: Probe, r: P.Return)
    requires ValidProbe(p) && FitsReturn(r)
    ensures FitsAction(P.ReturnRequest(ConfigOf(p), r))
  {
    hide Fits;
    Words(p);
    if r.at.RArg? || r.at.RRetval? || r.at.RTs? || r.at.RDuration? {
      Fits64(if r.at.RRetval? then r.retval else if r.at.RTs? then r.ts
             else if r.at.RDuration? then P.Sub64(r.ts, r.v) else 0);
    } else {
      Fits32(if r.at.RPid? then p.pid else if r.at.RProbe? then p.probeId else if r.at.RKind? then 2
             else if r.at.RPop? then r.d else r.v);
    }
  }

  lemma EntryKeepsFit(p: Probe, e: P.Entry, cell: P.Addr, resp: P.Word)
    requires FitsEntry(e) && AnswerFits(P.EntryRequest(ConfigOf(p), e, cell), resp)
    ensures var next := P.EntryNext(ConfigOf(p), e, resp); next.Some? ==> FitsEntry(next.value)
  {
    hide Fits;
    Fits64(resp);
    Fits32(resp);
  }

  lemma ReturnKeepsFit(p: Probe, r: P.Return, resp: P.Word)
    requires FitsReturn(r) && AnswerFits(P.ReturnRequest(ConfigOf(p), r), resp)
    ensures var next := P.ReturnNext(r, resp); next.Go? ==> FitsReturn(next.r)
  {
    hide Fits;
    Fits64(resp);
    Fits32(resp);
  }

  // ---------------------------------------------------------------- one step

  /** What a thread asks for next. */
  function NextAction(c: P.Config, th: P.Thread): P.Action
  {
    match th.mode
    case InEntry(e) => if th.cells == [] then P.Skip else P.EntryRequest(c, e, P.Last(th.cells))
    case InReturn(r) => P.ReturnRequest(c, r)
    case _ => P.Skip
  }

  predicate TouchesMemory(a: P.Action)
  {
    a.Load? || a.Store? || a.FetchAdd? || a.CompareSwap?
  }

  /** What an action does to the bytes. */
  function OnAction(p: Probe, m: Memory, a: P.Action): Memory
  {
    if TouchesMemory(a) then OnBytes(m, Accesses(p, a)[0]).0 else m
  }

  /** What one step of a world does to the bytes. */
  function BytesStep(p: Probe, m: Memory, w: P.World, st: P.Step): Memory
    requires P.Allowed(ConfigOf(p), w, st)
  {
    match st
    case Toggle(v) => Put(m, L.AddrOf(p.base, P.Enabled), X86.LE(v, 4))
    case Run(t) =>
      var a := NextAction(ConfigOf(p), w.threads[t]);
      if P.Safe(a) then OnAction(p, m, a) else m
    case _ => m
  }

  /** Every action on bytes that hold the protocol's memory. */
  lemma ActionHolds(p: Probe, m: Memory, pm: P.Mem, t: P.Tid, now: P.Word, a: P.Action)
    requires Holds(m, p.base, ConfigOf(p), pm) && P.Safe(a) && FitsAction(a) && t < P.TWO32 && now < P.TWO64
    ensures var (pm', answer) := P.Perform(ConfigOf(p), pm, t, now, a); var m' := OnAction(p, m, a);
            Holds(m', p.base, ConfigOf(p), pm') && AnswerFits(a, answer) && Elsewhere(m, m', p.base)
  {
    hide Holds, FitsAction, OnBytes, Accesses, Elsewhere;
    if TouchesMemory(a) {
      AccessRefines(p, m, pm, t, now, a);
    } else {
      Untouched(m, p.base);
    }
  }

  ghost predicate StepOk(p: Probe, m: Memory, m': Memory, w': P.World)
  {
    Holds(m', p.base, ConfigOf(p), w'.s.m) && FitsWorld(w') && Elsewhere(m, m', p.base)
  }

  lemma EntryFits(p: Probe, m: Memory, t: P.Tid, th: P.Thread, e: P.Entry, s: P.Shared)
    requires Holds(m, p.base, ConfigOf(p), s.m) && ValidProbe(p) && FitsThread(th) && th.mode == P.InEntry(e)
    requires t < P.TWO32 && s.now < P.TWO64
    ensures var a := NextAction(ConfigOf(p), th); var m' := if P.Safe(a) then OnAction(p, m, a) else m;
            var (th', s') := P.EntryStep(ConfigOf(p), t, th, e, s);
            && FitsThread(th') && s'.now == s.now
            && Holds(m', p.base, ConfigOf(p), s'.m) && Elsewhere(m, m', p.base)
  {
    hide Holds, Elsewhere, FitsEntry, ConfigOf, P.EntryRequest, P.EntryNext, FitsAction, OnAction, P.Perform;
    hide P.EntryLog;
    hide P.Safe, AnswerFits;
    var c := ConfigOf(p);
    Words(p);
    Untouched(m, p.base);
    if th.cells != [] {
      EntryStores(p, e, P.Last(th.cells));
      var a := P.EntryRequest(c, e, P.Last(th.cells));
      if P.Safe(a) {
        ActionHolds(p, m, s.m, t, s.now, a);
        EntryKeepsFit(p, e, P.Last(th.cells), P.Perform(c, s.m, t, s.now, a).1);
      }
    } else {
      SkipIsSafe();
    }
  }

  lemma SkipIsSafe()
    ensures P.Safe(P.Skip) && forall p, m :: OnAction(p, m, P.Skip) == m
  {
  }

  lemma ReturnFits(p: Probe, m: Memory, t: P.Tid, th: P.Thread, r: P.Return, s: P.Shared)
    requires Holds(m, p.base, ConfigOf(p), s.m) && ValidProbe(p) && FitsThread(th) && th.mode == P.InReturn(r)
    requires t < P.TWO32 && s.now < P.TWO64
    ensures var a := NextAction(ConfigOf(p), th); var m' := if P.Safe(a) then OnAction(p, m, a) else m;
            var (th', s') := P.ReturnStep(ConfigOf(p), t, th, r, s);
            && FitsThread(th') && s'.now == s.now
            && Holds(m', p.base, ConfigOf(p), s'.m) && Elsewhere(m, m', p.base)
  {
    hide Holds, Elsewhere, FitsReturn, ConfigOf, P.ReturnRequest, P.ReturnNext, FitsAction, OnAction, P.Perform;
    hide P.ReturnLog;
    hide P.Safe, AnswerFits;
    var c := ConfigOf(p);
    Untouched(m, p.base);
    ReturnStores(p, r);
    var a := P.ReturnRequest(c, r);
    if P.Safe(a) {
      ActionHolds(p, m, s.m, t, s.now, a);
      ReturnKeepsFit(p, r, P.Perform(c, s.m, t, s.now, a).1);
      StartFits(r);
    }
  }

  lemma StartFits(r: P.Return)
    requires FitsReturn(r)
    ensures FitsReturn(P.StartReturn(r.retval))
  {
  }

  lemma CallFits(args: seq<P.Word>)
    requires P.Arguments(args)
    ensures FitsEntry(P.StartEntry(args))
  {
  }

  lemma RetFits(retval: P.Word)
    requires retval < P.TWO64
    ensures FitsReturn(P.StartReturn(retval))
  {
  }

  /** One step of a world and of its bytes. */
  lemma StepHolds(p: Probe, m: Memory, w: P.World, st: P.Step)
    requires Holds(m, p.base, ConfigOf(p), w.s.m) && FitsWorld(w) && ValidProbe(p) && P.Allowed(ConfigOf(p), w, st)
    ensures StepOk(p, m, BytesStep(p, m, w, st), P.Apply(ConfigOf(p), w, st))
  {
    hide Holds, Elsewhere, ConfigOf, FitsEntry, FitsReturn, P.EntryStep, P.ReturnStep, P.Arguments, X86.LE, OnAction;
    hide P.Safe;
    hide P.StartEntry, P.StartReturn, NextAction;
    Untouched(m, p.base);
    match st {
      case Toggle(v) => ToggleHolds(p, m, w.s.m, v);
      case Tick(_) =>
      case Spawn(_) =>
      case Exit(_) =>
      case Call(t, ret, args) => CallFits(args);
      case Tail(t, args) => CallFits(args);
      case Ret(t, retval) => RetFits(retval);
      case Run(t) =>
        var th := w.threads[t];
        match th.mode {
          case InEntry(e) => EntryFits(p, m, t, th, e, w.s);
          case InReturn(r) => ReturnFits(p, m, t, th, r, w.s);
        }
    }
  }

  lemma ToggleHolds(p: Probe, m: Memory, pm: P.Mem, v: P.Word)
    requires Holds(m, p.base, ConfigOf(p), pm) && v < P.TWO32
    ensures var m' := Put(m, L.AddrOf(p.base, P.Enabled), X86.LE(v, 4));
            Holds(m', p.base, ConfigOf(p), pm.(enabled := v)) && Elsewhere(m, m', p.base)
  {
    hide Holds, Elsewhere, X86.LE, Fits;
    Fits32(v);
    StoreHolds(m, p.base, ConfigOf(p), pm, P.Enabled, v);
  }

  // ---------------------------------------------------------------- whole runs

  /** The bytes after a run of the protocol. */
  function BytesRun(p: Probe, m: Memory, w: P.World, steps: seq<P.Step>): Memory
    requires P.Legal(ConfigOf(p), w, steps)
    decreases |steps|
  {
    if steps == [] then m else
    BytesRun(p, BytesStep(p, m, w, steps[0]), P.Apply(ConfigOf(p), w, steps[0]), steps[1..])
  }

  lemma ElsewhereOn(a: Memory, b: Memory, c: Memory, base: X86.Word)
    requires Elsewhere(a, b, base) && Elsewhere(b, c, base)
    ensures Elsewhere(a, c, base)
  {
  }

  /** Bytes that hold the world at the beginning of a run hold it at the end, and nothing outside the
      data regions has changed. */
  lemma {:induction false} RunHolds(p: Probe, m: Memory, w: P.World, steps: seq<P.Step>)
    requires Holds(m, p.base, ConfigOf(p), w.s.m) && FitsWorld(w) && ValidProbe(p) && P.Legal(ConfigOf(p), w, steps)
    ensures StepOk(p, m, BytesRun(p, m, w, steps), P.Exec(ConfigOf(p), w, steps))
    decreases |steps|
  {
    hide Holds, Elsewhere, FitsWorld, P.Allowed, P.Apply, BytesStep;
    if steps == [] {
      Untouched(m, p.base);
    } else {
      StepHolds(p, m, w, steps[0]);
      var m', w' := BytesStep(p, m, w, steps[0]), P.Apply(ConfigOf(p), w, steps[0]);
      RunHolds(p, m', w', steps[1..]);
      ElsewhereOn(m, m', BytesRun(p, m', w', steps[1..]), p.base);
    }
  }

  /** The bytes reached by any run from an installed area hold the memory of the world reached, every
      thread's registers fit where they will be stored, and the code is as installed. */
  lemma InstalledRunHolds(p: Probe, m: Memory, target: X86.Word, code: seq<X86.Byte>, now: P.Word, steps: seq<P.Step>)
    requires I.Installed(m, p, target, code) && ValidProbe(p) && now < P.TWO64
    requires P.Legal(ConfigOf(p), P.Init(1, now), steps)
    ensures var m' := BytesRun(p, m, P.Init(1, now), steps); var w := P.Exec(ConfigOf(p), P.Init(1, now), steps);
            Holds(m', p.base, ConfigOf(p), w.s.m) && FitsWorld(w) && CodeIs(m', p, target, code)
  {
    hide Holds, I.Installed, P.Legal, P.Exec, CodeIs, Elsewhere;
    InstalledIsInit(m, p, target, code, now);
    RunHolds(p, m, P.Init(1, now), steps);
    CodeKept(p, m, BytesRun(p, m, P.Init(1, now), steps), target, code);
  }

  /** The three pieces of code in the area. */
  ghost predicate CodeIs(m: Memory, p: Probe, target: X86.Word, code: seq<X86.Byte>)
  {
    && Fetches(m, L.TrampolineAddr(p.base), I.TrampolineBytes(p, target, code))
    && Fetches(m, L.EntryStubAddr(p.base), I.EntryBytes(p))
    && Fetches(m, L.ReturnStubAddr(p.base), I.ReturnBytes(p))
  }

  lemma StretchKept(m: Memory, m': Memory, base: X86.Word, at: X86.Word, bytes: seq<X86.Byte>)
    requires Elsewhere(m, m', base) && base + DATA <= at && Fetches(m, at, bytes)
    ensures Fetches(m', at, bytes)
  {
    assert forall i :: at <= i < at + |bytes| ==> i in m && i in m' && m'[i] == m[i];
    assert Slice(m', at, |bytes|) == Slice(m, at, |bytes|);
  }

  lemma CodeKept(p: Probe, m: Memory, m': Memory, target: X86.Word, code: seq<X86.Byte>)
    requires Elsewhere(m, m', p.base) && I.Installed(m, p, target, code)
    ensures CodeIs(m', p, target, code)
  {
    hide Elsewhere, Fetches, I.TrampolineBytes, I.EntryBytes, I.ReturnBytes, I.ConfigBytes, I.BufferBytes;
    StretchKept(m, m', p.base, L.TrampolineAddr(p.base), I.TrampolineBytes(p, target, code));
    StretchKept(m, m', p.base, L.EntryStubAddr(p.base), I.EntryBytes(p));
    StretchKept(m, m', p.base, L.ReturnStubAddr(p.base), I.ReturnBytes(p));
  }
}
