/** The probe protocol as a whole: it simulates the unprobed program, conserves events, and tells
    the truth about time. */
module ProtocolTheorem {
  import opened Protocol
  import opened ProtocolInvariant
  import opened ProtocolMemory
  import opened ProtocolEntry
  import opened ProtocolReturn

  // ---------------------------------------------------------------- simulation

  /** Nothing is left over from a thread that has gone. */
  ghost predicate DeadInv(w: World)
    requires |w.s.m.slots| == THREADS
  {
    && (forall k :: 0 <= k < THREADS && w.s.m.slots[k].tid !in w.threads ==> w.s.m.slots[k].depth == 0)
    && (forall n :: 0 <= n < |w.s.log| && w.s.log[n].tid !in w.threads ==>
          w.s.log[n].ev.Some? && (w.s.log[n].EntryRec? ==> IsUnhooked(w.s.log[n]) || IsClosed(w.s.log[n])))
  }

  /** A probed world and the state of the unprobed program it stands for. */
  ghost predicate Sim(c: Config, w: World, p: Plain)
  {
    && MemInv(c, w.s)
    && p.Keys == w.threads.Keys
    && (forall t :: t in w.threads ==> ThreadInv(c, t, w.threads[t], w.s, p[t]))
    && DeadInv(w)
  }

  lemma {:induction false} ZeroDepths(slots: seq<Slot>)
    requires forall k :: 0 <= k < |slots| ==> slots[k].depth == 0
    ensures SumDepth(slots) == 0
  {
    if slots != [] {
      ZeroDepths(Front(slots));
    }
  }

  lemma InitSim(c: Config, enabled: Word, now: Word)
    requires now < TWO64
    ensures Sim(c, Init(enabled, now), map[])
  {
    ZeroDepths(Init(enabled, now).s.m.slots);
  }

  /** What the controller and the clock do is within what every thread relies on. */
  lemma OutsideRely(c: Config, u: Tid, th: Thread, s: Shared, s': Shared, plain: seq<Addr>)
    requires MemInv(c, s) && ThreadInv(c, u, th, s, plain)
    requires s'.log == s.log && s'.m == s.m.(enabled := s'.m.enabled)
    requires s'.steady ==> s.steady && s.now <= s'.now
    ensures Rely(u, th, s, s')
  {
    hide OwnRecords, PendInv, Resolves, RingInv, LogInv, NestInv, TimeInv, CountInv;
  }

  lemma OutsideKeeps(c: Config, w: World, st: Step, p: Plain)
    requires Sim(c, w, p) && Allowed(c, w, st) && (st.Toggle? || st.Tick?)
    ensures Sim(c, Apply(c, w, st), p)
  {
    hide ThreadInv, SlotInv, RingInv, LogInv, NestInv, CountInv;
    var w' := Apply(c, w, st);
    assert MemInv(c, w'.s);
    forall t | t in w'.threads
      ensures ThreadInv(c, t, w'.threads[t], w'.s, p[t])
    {
      OutsideRely(c, t, w.threads[t], w.s, w'.s, p[t]);
      ThreadStable(c, t, w.threads[t], w.s, w'.s, p[t]);
    }
  }

  lemma SpawnThread(c: Config, w: World, t: Tid)
    requires MemInv(c, w.s) && DeadInv(w) && 0 < t < TWO32 && t !in w.threads
    ensures ThreadInv(c, t, Thread(User, [], 0, [], 0), w.s, [])
  {
    hide LogInv, NestInv, CountInv, TimeInv;
    assert Shadow(w.s.m.slots, t) == [] && DepthOf(w.s.m.slots, t) == 0;
  }

  lemma SpawnKeeps(c: Config, w: World, t: Tid, p: Plain)
    requires Sim(c, w, p) && Allowed(c, w, Spawn(t))
    ensures Sim(c, Apply(c, w, Spawn(t)), p[t := []])
  {
    hide ThreadInv, MemInv;
    SpawnThread(c, w, t);
  }

  lemma ExitDead(c: Config, w: World, t: Tid, plain: seq<Addr>)
    requires MemInv(c, w.s) && DeadInv(w) && t in w.threads && ThreadInv(c, t, w.threads[t], w.s, plain)
    requires w.threads[t].mode.User? && w.threads[t].cells == []
    ensures plain == [] && DeadInv(w.(threads := w.threads - {t}))
  {
    hide LogInv, NestInv, CountInv, TimeInv, RingInv;
    assert Shadow(w.s.m.slots, t) == [] && w.threads[t].pend == [];
    forall k | 0 <= k < THREADS && w.s.m.slots[k].tid == t
      ensures w.s.m.slots[k].depth == 0
    {
      HomeIs(t, w.s.m.slots, k);
    }
  }

  lemma ExitKeeps(c: Config, w: World, t: Tid, p: Plain)
    requires Sim(c, w, p) && Allowed(c, w, Exit(t))
    ensures p[t] == [] && Sim(c, Apply(c, w, Exit(t)), p - {t})
  {
    hide ThreadInv, MemInv;
    ExitDead(c, w, t, p[t]);
  }

  /** A step of the program itself changes its own thread only. */
  lemma OwnStep(c: Config, w: World, t: Tid, th': Thread, p: Plain, plain': seq<Addr>)
    requires Sim(c, w, p) && t in w.threads && ThreadInv(c, t, th', w.s, plain')
    ensures Sim(c, w.(threads := w.threads[t := th']), p[t := plain'])
  {
    hide ThreadInv, MemInv;
  }

  lemma UserRecords(c: Config, t: Tid, th: Thread, th': Thread, s: Shared, plain: seq<Addr>)
    requires MemInv(c, s) && ThreadInv(c, t, th, s, plain) && th.mode.User?
    requires Held(th').None? && th'.pend == th.pend && th'.popped == th.popped
    ensures OwnRecords(t, th', s.log)
  {
    hide PendInv, Resolves, MemInv;
  }

  lemma CallKeeps(c: Config, w: World, t: Tid, ret: Addr, args: seq<Word>, p: Plain)
    requires Sim(c, w, p) && Allowed(c, w, Call(t, ret, args))
    ensures Sim(c, Apply(c, w, Call(t, ret, args)), p[t := p[t] + [ret]])
  {
    hide OwnRecords, PendInv, Resolves, LogInv, NestInv, CountInv, TimeInv, DeadInv;
    var th := w.threads[t];
    var th' := th.(mode := InEntry(StartEntry(args)), cells := th.cells + [ret]);
    assert ThreadInv(c, t, th, w.s, p[t]);
    UserRecords(c, t, th, th', w.s, p[t]);
    CallResolves(c.retStub, th.cells, Shadow(w.s.m.slots, t), p[t], ret);
    OwnStep(c, w, t, th', p, p[t] + [ret]);
  }

  lemma TailKeeps(c: Config, w: World, t: Tid, args: seq<Word>, p: Plain)
    requires Sim(c, w, p) && Allowed(c, w, Tail(t, args))
    ensures Sim(c, Apply(c, w, Tail(t, args)), p)
  {
    hide OwnRecords, PendInv, Resolves, LogInv, NestInv, CountInv, TimeInv, DeadInv;
    var th := w.threads[t];
    var th' := th.(mode := InEntry(StartEntry(args)));
    assert ThreadInv(c, t, th, w.s, p[t]);
    UserRecords(c, t, th, th', w.s, p[t]);
    OwnStep(c, w, t, th', p, p[t]);
    assert p[t := p[t]] == p;
  }

  lemma RetKeeps(c: Config, w: World, t: Tid, retval: Word, p: Plain)
    requires Sim(c, w, p) && Allowed(c, w, Ret(t, retval))
    ensures Last(w.threads[t].cells) != c.retStub ==> p[t] != [] && Last(p[t]) == Last(w.threads[t].cells)
    ensures Sim(c, Apply(c, w, Ret(t, retval)), p[t := AfterLanding(c, Last(w.threads[t].cells), p[t])])
  {
    hide OwnRecords, PendInv, Resolves, LogInv, NestInv, CountInv, TimeInv, DeadInv;
    var th := w.threads[t];
    var a := Last(th.cells);
    var th' := th.(mode := Land(c, a, retval), cells := Front(th.cells));
    assert ThreadInv(c, t, th, w.s, p[t]);
    UserRecords(c, t, th, th', w.s, p[t]);
    RefillCells(th.cells);
    if a != c.retStub {
      ReturnResolves(c.retStub, Front(th.cells), Shadow(w.s.m.slots, t), p[t], a);
    }
    OwnStep(c, w, t, th', p, AfterLanding(c, a, p[t]));
  }

  /** One thread moved within its guarantee: everybody's invariant holds again. */
  lemma Settle(c: Config, w: World, t: Tid, th': Thread, s': Shared, p: Plain, plain': seq<Addr>)
    requires Sim(c, w, p) && t in w.threads
    requires StepOk(c, t, w.threads[t], w.s, th', s', plain')
    requires AtReserve(w.threads[t]) ==> RingRoom(w)
    ensures Sim(c, World(s', w.threads[t := th']), p[t := plain'])
  {
    hide ThreadInv, SlotInv, RingInv, LogInv, NestInv, CountInv, TimeInv;
    var w' := World(s', w.threads[t := th']);
    forall u | u in w'.threads
      ensures ThreadInv(c, u, w'.threads[u], w'.s, p[t := plain'][u])
    {
      if u != t {
        GuarRely(c, t, Held(w.threads[t]), u, w.threads[u], w.s, s', p[u]);
        ThreadStable(c, u, w.threads[u], w.s, s', p[u]);
      }
    }
    SettleDead(c, w, t, th', s');
  }

  lemma SettleDead(c: Config, w: World, t: Tid, th': Thread, s': Shared)
    requires MemInv(c, w.s) && MemInv(c, s') && DeadInv(w) && t in w.threads
    requires Guar(t, Held(w.threads[t]), w.s, s')
    ensures DeadInv(World(s', w.threads[t := th']))
  {
    hide RingInv, LogInv, NestInv, CountInv, TimeInv;
  }

  lemma RunKeeps(c: Config, w: World, t: Tid, p: Plain)
    requires Sim(c, w, p) && Allowed(c, w, Run(t))
    ensures PlainRun(p, Show(c, w, Run(t))).Some?
    ensures Sim(c, Apply(c, w, Run(t)), PlainRun(p, Show(c, w, Run(t))).value)
  {
    hide ThreadInv, MemInv, EntryStep, ReturnStep, StepOk;
    var th := w.threads[t];
    var (th', s') := StubStep(c, t, th, w.s);
    var plain' := p[t];
    assert p[t := p[t]] == p;
    match th.mode {
      case InEntry(e) =>
        EntryKeeps(c, t, th, e, w.s, p[t]);
      case InReturn(r) =>
        ReturnKeeps(c, t, th, r, w.s, p[t]);
        if r.at.RDuration? { plain' := AfterLanding(c, r.a, p[t]); }
    }
    Settle(c, w, t, th', s', p, plain');
  }

  /** Every step of the probed world shows what the unprobed program could do, and the two stay
      related. */
  lemma StepKeeps(c: Config, w: World, st: Step, p: Plain)
    requires Sim(c, w, p) && Allowed(c, w, st)
    ensures PlainRun(p, Show(c, w, st)).Some?
    ensures Sim(c, Apply(c, w, st), PlainRun(p, Show(c, w, st)).value)
  {
    hide Sim;
    match st {
      case Toggle(_) => OutsideKeeps(c, w, st, p);
      case Tick(_) => OutsideKeeps(c, w, st, p);
      case Spawn(t) => SpawnKeeps(c, w, t, p); KeysAgree(c, w, p);
      case Exit(t) => ExitKeeps(c, w, t, p); KeysAgree(c, w, p);
      case Call(t, ret, args) => CallKeeps(c, w, t, ret, args, p); KeysAgree(c, w, p);
      case Tail(t, args) => TailKeeps(c, w, t, args, p);
      case Ret(t, retval) =>
        KeysAgree(c, w, p);
        RetKeeps(c, w, t, retval, p);
        assert p[t := p[t]] == p;
      case Run(t) => RunKeeps(c, w, t, p);
    }
  }

  lemma KeysAgree(c: Config, w: World, p: Plain)
    requires Sim(c, w, p)
    ensures p.Keys == w.threads.Keys
  {
  }

  lemma {:induction false} PlainAppend(p: Plain, a: seq<Seen>, b: seq<Seen>)
    requires PlainRun(p, a).Some?
    ensures PlainRun(p, a + b) == PlainRun(PlainRun(p, a).value, b)
    decreases |a|
  {
    if a == [] {
      assert a + b == b;
    } else {
      assert (a + b)[0] == a[0] && (a + b)[1..] == a[1..] + b;
      PlainAppend(PlainStep(p, a[0]).value, a[1..], b);
    }
  }

  lemma {:induction false} RunSim(c: Config, w: World, steps: seq<Step>, p: Plain)
    requires Sim(c, w, p) && Legal(c, w, steps)
    ensures PlainRun(p, Trace(c, w, steps)).Some?
    ensures Sim(c, Exec(c, w, steps), PlainRun(p, Trace(c, w, steps)).value)
    decreases |steps|
  {
    hide Sim, Allowed, Apply, Show;
    if steps != [] {
      StepKeeps(c, w, steps[0], p);
      var q := PlainRun(p, Show(c, w, steps[0])).value;
      RunSim(c, Apply(c, w, steps[0]), steps[1..], q);
      PlainAppend(p, Show(c, w, steps[0]), Trace(c, Apply(c, w, steps[0]), steps[1..]));
    }
  }

  /** Transparent returns. Whatever the threads, the scheduler, the clock and the controller's toggles
      do, the calls and returns that the probed program shows are those of an unprobed program: every
      return lands on the address on top of the stack its own calls pushed, and no thread is killed. */
  lemma TransparentReturns(c: Config, enabled: Word, now: Word, steps: seq<Step>)
    requires now < TWO64 && Legal(c, Init(enabled, now), steps)
    ensures PlainRun(map[], Trace(c, Init(enabled, now), steps)).Some?
    ensures forall t :: Killed(t) !in Trace(c, Init(enabled, now), steps)
  {
    hide Init, Sim, Trace;
    InitSim(c, enabled, now);
    RunSim(c, Init(enabled, now), steps, map[]);
    NobodyKilled(map[], Trace(c, Init(enabled, now), steps));
  }

  lemma {:induction false} NobodyKilled(p: Plain, tr: seq<Seen>)
    requires PlainRun(p, tr).Some?
    ensures forall t :: Killed(t) !in tr
    decreases |tr|
  {
    if tr != [] {
      NobodyKilled(PlainStep(p, tr[0]).value, tr[1..]);
      assert tr == [tr[0]] + tr[1..];
    }
  }
}
