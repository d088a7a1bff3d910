/** Whole runs of the manager on one process: any sequence of attaches, detaches, enables and disables, with
    whatever outcome each of them has. */
module ProbeSession {
  import opened Wrappers
  import opened RemoteMem
  import opened ProbeTable
  import opened ProbeManager
  import I = Install
  import X86

  datatype Op =
    | Attach(spec: Spec, resolved: Option<X86.Word>)
    | Detach(name: string)
    | Enable(name: string)
    | Disable(name: string)

  datatype State = State(ds: Table, m: Memory)

  /** One operation as it went: its outcome, the slot it was about, the bytes it wrote to the function or flag
      in question, what it asked the kernel for, and the table and memory before and after. */
  datatype Turn = Turn(op: Op, o: Outcome, i: int, wrote: nat, asked: seq<Response>, before: State, after: State)

  predicate Meets(d: Desc, pid: int, name: string)
  {
    d.pid == pid && SameUpTo(d.name, name, MAX_NAME)
  }

  /** The slot that the search gives, -1 standing for none. */
  ghost predicate Sought(ds: Table, pid: int, name: string, i: int)
  {
    && -1 <= i < |ds|
    && (i >= 0 ==> Meets(ds[i], pid, name))
    && (forall j :: 0 <= j < (if i < 0 then |ds| else i) ==> !Meets(ds[j], pid, name))
  }

  /** What an operation may do. */
  ghost predicate OpStep(v: Turn, pid: int, code: set<int>)
  {
    var (ds, m, ds', m') := (v.before.ds, v.before.m, v.after.ds, v.after.m);
    match v.op
    case Attach(spec, resolved) =>
      spec.pid == pid && AttachStep(ds, m, spec, resolved, code, v.o, v.i, v.wrote, v.asked, ds', m')
    case Detach(name) => Sought(ds, pid, name, v.i) && DetachStep(ds, m, v.i, code, v.o, v.wrote, v.asked, ds', m')
    case Enable(name) => Sought(ds, pid, name, v.i) && FlagStep(ds, m, v.i, true, v.o, v.wrote, v.asked, ds', m')
    case Disable(name) => Sought(ds, pid, name, v.i) && FlagStep(ds, m, v.i, false, v.o, v.wrote, v.asked, ds', m')
  }

  /** The turns lead from one state to the other. */
  ghost predicate IsRun(trace: seq<Turn>, pid: int, code: set<int>, s: State, s': State)
    decreases |trace|
  {
    if trace == [] then s' == s else
    var v := trace[|trace| - 1];
    v.after == s' && OpStep(v, pid, code) && IsRun(trace[..|trace| - 1], pid, code, s, v.before)
  }

  /** The operation came through, an attach to a stretch of the code apart from those in use; or it failed
      before it wrote to the function or flag in question. */
  ghost predicate Clean(v: Turn, pid: int, code: set<int>)
  {
    if !Took(v.o) then v.wrote == 0
    else v.op.Attach? ==>
      && 0 <= v.i < |v.after.ds| && 0 <= v.after.ds[v.i].codeLen
      && Free(v.before.ds, pid, v.after.ds[v.i].target, v.after.ds[v.i].codeLen, code)
  }

  ghost predicate CleanRun(trace: seq<Turn>, pid: int, code: set<int>)
  {
    forall k :: 0 <= k < |trace| ==> Clean(trace[k], pid, code)
  }

  /** All that was asked for, in order. */
  function AllAsked(trace: seq<Turn>): seq<Response>
    decreases |trace|
  {
    if trace == [] then [] else AllAsked(trace[..|trace| - 1]) + trace[|trace| - 1].asked
  }

  predicate ShortNames(trace: seq<Turn>)
  {
    forall k :: 0 <= k < |trace| && trace[k].op.Attach? ==> |trace[k].op.spec.name| < MAX_NAME
  }

  predicate OnlyOf(ds: Table, pid: int)
  {
    forall i :: 0 <= i < |ds| && Live(ds[i]) ==> ds[i].pid == pid
  }

  predicate InOrder(ds: Table, pid: int)
  {
    Shape(ds) && KeysUnique(ds) && OnlyOf(ds, pid)
  }

  // ---------------------------------------------------------------- the runs there are

  /** Runs the operations in order; the ghost result is the run. */
  method Session(pm: Manager, t: Tracee, pid: int, ops: seq<Op>, ghost code: set<int>) returns (ghost trace: seq<Turn>)
    requires pm.Valid() && pid < 0x8000_0000 && forall k :: 0 <= k < |ops| && ops[k].Attach? ==> ops[k].spec.pid == pid
    modifies pm.table, t
    ensures pm.Valid() && |trace| == |ops| && forall k :: 0 <= k < |ops| ==> trace[k].op == ops[k]
    ensures IsRun(trace, pid, code, State(old(pm.table[..]), old(t.mem)), State(pm.table[..], t.mem))
    ensures t.log == old(t.log) + AllAsked(trace)
  {
    hide KeysUnique, Found, SameUpTo, AttachStep, DetachStep, FlagStep, Shape;
    trace := [];
    var k := 0;
    while k < |ops|
      invariant 0 <= k <= |ops| && pm.Valid() && |trace| == k
      invariant forall j :: 0 <= j < k ==> trace[j].op == ops[j]
      invariant IsRun(trace, pid, code, State(old(pm.table[..]), old(t.mem)), State(pm.table[..], t.mem))
      invariant t.log == old(t.log) + AllAsked(trace)
    {
      var op := ops[k];
      ghost var before := State(pm.table[..], t.mem);
      var o, i;
      ghost var wrote, asked;
      if op.Attach? {
        o, i, wrote, asked := pm.Attach(op.spec, op.resolved, t, code);
      } else {
        i := pm.Find(pid, op.name);
        Searched(pm.table[..], pid, op.name, i);
        if op.Detach? {
          o, wrote, asked := pm.Detach(i, t, code);
        } else {
          o, wrote, asked := pm.SetEnabled(i, op.Enable?, t);
        }
      }
      ghost var v := Turn(op, o, i, wrote, asked, before, State(pm.table[..], t.mem));
      assert (trace + [v])[..|trace|] == trace;
      trace := trace + [v];
      k := k + 1;
    }
  }

  lemma Searched(ds: Table, pid: int, name: string, i: int)
    requires -1 <= i < |ds| && (i < 0 <==> !Found(ds, pid, name)) && (i >= 0 ==> Meets(ds[i], pid, name))
    requires i >= 0 ==> forall j :: 0 <= j < i ==> !Meets(ds[j], pid, name)
    ensures Sought(ds, pid, name, i)
  {
  }

  // ---------------------------------------------------------------- what every run keeps

  lemma StepKeepsOrder(v: Turn, pid: int, code: set<int>)
    requires OpStep(v, pid, code) && InOrder(v.before.ds, pid)
    ensures InOrder(v.after.ds, pid)
    ensures KeysAllUnique(v.before.ds) && (v.op.Attach? ==> |v.op.spec.name| < MAX_NAME) ==> KeysAllUnique(v.after.ds)
  {
    hide Shape, KeysUnique, KeysAllUnique, Found, Hooked, Spoiled, I.Keeps, KeepSet, Put, SameUpTo,
      FailedTalk, TookTalk, FailedBack, Gone, WriteGoes;
    var (ds, m, ds', m') := (v.before.ds, v.before.m, v.after.ds, v.after.m);
    match v.op {
      case Attach(spec, resolved) => AttachKeeps(ds, m, spec, resolved, code, v.o, v.i, v.wrote, v.asked, ds', m');
      case Detach(_) => DetachKeeps(ds, m, v.i, code, v.o, v.wrote, v.asked, ds', m');
      case _ => FlagKeeps(ds, m, v.i, v.op.Enable?, v.o, v.wrote, v.asked, ds', m');
    }
  }

  lemma StepMirrors(v: Turn, pid: int, code: set<int>, orig: Memory)
    requires OpStep(v, pid, code) && pid > 0 && Clean(v, pid, code) && Mirrors(v.before.ds, pid, v.before.m, orig, code)
    ensures Mirrors(v.after.ds, pid, v.after.m, orig, code)
  {
    hide Mirrors, Free, AttachStep, DetachStep, FlagStep, SameUpTo;
    var (ds, m, ds', m') := (v.before.ds, v.before.m, v.after.ds, v.after.m);
    match v.op {
      case Attach(spec, resolved) =>
        AttachStepMirrors(ds, m, spec, resolved, code, v.o, v.i, v.wrote, v.asked, ds', m', orig);
      case Detach(_) => DetachStepMirrors(ds, m, v.i, code, v.o, v.wrote, v.asked, ds', m', pid, orig);
      case _ => FlagStepMirrors(ds, m, v.i, v.op.Enable?, v.o, v.wrote, v.asked, ds', m', pid, orig, code);
    }
  }

  /** Whatever happens, the table stays in order; and no two live probes have one name as long as the names
      attached are short enough for their field. */
  lemma {:induction false} RunKeepsOrder(trace: seq<Turn>, pid: int, code: set<int>, s: State, s': State)
    requires IsRun(trace, pid, code, s, s') && InOrder(s.ds, pid)
    ensures InOrder(s'.ds, pid)
    ensures KeysAllUnique(s.ds) && ShortNames(trace) ==> KeysAllUnique(s'.ds)
    decreases |trace|
  {
    hide InOrder, KeysAllUnique, OpStep;
    if trace != [] {
      var v := trace[|trace| - 1];
      RunKeepsOrder(trace[..|trace| - 1], pid, code, s, v.before);
      StepKeepsOrder(v, pid, code);
    }
  }

  /** After any clean run memory mirrors the table: code is the original under one jump a live probe, every live
      probe has the original bytes saved and an area of its own, whose flag is the table's. */
  lemma {:induction false} CleanRunMirrors(trace: seq<Turn>, pid: int, code: set<int>, s: State, s': State,
                                           orig: Memory)
    requires IsRun(trace, pid, code, s, s') && pid > 0 && CleanRun(trace, pid, code)
    requires Mirrors(s.ds, pid, s.m, orig, code)
    ensures Mirrors(s'.ds, pid, s'.m, orig, code)
    decreases |trace|
  {
    hide Mirrors, OpStep, Clean;
    if trace != [] {
      var v := trace[|trace| - 1];
      CleanRunMirrors(trace[..|trace| - 1], pid, code, s, v.before, orig);
      StepMirrors(v, pid, code, orig);
    }
  }

  /** So if no probe is left, the code is byte for byte what it was, whatever the order. */
  lemma CleanRunRestores(trace: seq<Turn>, pid: int, code: set<int>, s: State, s': State, orig: Memory)
    requires IsRun(trace, pid, code, s, s') && pid > 0 && CleanRun(trace, pid, code)
    requires Mirrors(s.ds, pid, s.m, orig, code)
    requires forall i :: 0 <= i < |s'.ds| ==> !Live(s'.ds[i])
    ensures forall x :: x in code ==> x in s'.m && x in orig && s'.m[x] == orig[x]
  {
    hide CodeInv, AreaInv, IsRun, CleanRun;
    CleanRunMirrors(trace, pid, code, s, s', orig);
    EmptyTableRestores(s'.ds, pid, s'.m, orig, code);
  }

  /** Whatever the outcome, an operation that stopped the threads has resumed them: after that it asks at most for
      the table to be saved. */
  lemma ThreadsRunAgain(v: Turn, pid: int, code: set<int>)
    requires OpStep(v, pid, code) && InOrder(v.before.ds, pid)
    requires v.asked != [] && v.asked[0] == Stopped(pid, true)
    ensures |v.asked| >= 2 && v.asked[|v.asked| - (if Took(v.o) then 2 else 1)] == Resumed(pid)
    ensures Took(v.o) ==> v.asked[|v.asked| - 1] == Saved(v.o.Done?)
  {
    hide InOrder, Shape, Found, Hooked, Spoiled, I.Keeps, KeepSet, Put, Gone, Hindered, Mapping, NewEntry, SameUpTo;
  }

  // ---------------------------------------------------------------- the table is a map

  /** The live names and whether each is enabled. */
  type Flags = map<string, bool>

  ghost predicate Shows(ds: Table, v: Flags)
  {
    && (forall i :: 0 <= i < |ds| && Live(ds[i]) ==> ds[i].name in v && v[ds[i].name] == ds[i].enabled)
    && (forall n :: n in v ==> exists i :: 0 <= i < |ds| && Live(ds[i]) && ds[i].name == n)
  }

  /** What an operation that came through does to the map. */
  function Next(f: Flags, v: Turn): Flags
  {
    if !Took(v.o) then f else
    match v.op
    case Attach(spec, _) => f[spec.name := true]
    case Detach(name) => f - {name}
    case Enable(name) => f[name := true]
    case Disable(name) => f[name := false]
  }

  function AfterAll(f: Flags, trace: seq<Turn>): Flags
    decreases |trace|
  {
    if trace == [] then f else Next(AfterAll(f, trace[..|trace| - 1]), trace[|trace| - 1])
  }

  /** An attach is refused as existing exactly when its name is in the map, the others as unknown exactly when
      theirs is not. */
  predicate Agrees(f: Flags, v: Turn)
  {
    match v.op
    case Attach(spec, _) => v.o.Exists? <==> spec.name in f
    case _ => v.o.Invalid? <==> v.op.name !in f
  }

  lemma FoundIsIn(ds: Table, pid: int, name: string, f: Flags)
    requires InOrder(ds, pid) && Shows(ds, f) && pid > 0
    ensures Found(ds, pid, name) <==> name in f
    ensures forall i :: 0 <= i < |ds| ==> (Meets(ds[i], pid, name) <==> Live(ds[i]) && ds[i].name == name)
  {
    hide SameUpTo, KeysUnique;
    forall i | 0 <= i < |ds|
      ensures SameUpTo(ds[i].name, name, MAX_NAME) <==> ds[i].name == name
    {
      SameUpToIsEqual(ds[i].name, name, MAX_NAME);
    }
    if Found(ds, pid, name) {
      var i :| 0 <= i < |ds| && ds[i].pid == pid && SameUpTo(ds[i].name, name, MAX_NAME);
      assert ds[i].name in f;
    }
  }

  /** Writing one slot writes one key, when keys are unique. */
  lemma ShowsSet(ds: Table, i: nat, d: Desc, pid: int, f: Flags)
    requires InOrder(ds, pid) && KeysAllUnique(ds) && Shows(ds, f) && i < |ds| && Live(d) && d.pid == pid
    requires if Live(ds[i]) then d.name == ds[i].name else d.name !in f
    ensures Shows(ds[i := d], f[d.name := d.enabled])
  {
    hide Shape, KeysUnique;
    var ds', f' := ds[i := d], f[d.name := d.enabled];
    forall j | 0 <= j < |ds'| && Live(ds'[j])
      ensures ds'[j].name in f' && f'[ds'[j].name] == ds'[j].enabled
    {
      if j != i && Live(ds[i]) { Apart(ds, i, j); }
    }
    forall n | n in f'
      ensures exists j :: 0 <= j < |ds'| && Live(ds'[j]) && ds'[j].name == n
    {
      if n == d.name { assert ds'[i].name == n; } else {
        var j :| 0 <= j < |ds| && Live(ds[j]) && ds[j].name == n;
        assert ds'[j].name == n;
      }
    }
  }

  lemma Apart(ds: Table, i: nat, j: nat)
    requires KeysAllUnique(ds) && i < |ds| && j < |ds| && i != j && Live(ds[i]) && Live(ds[j]) && ds[i].pid == ds[j].pid
    ensures ds[i].name != ds[j].name
  {
    if i < j { assert !SameKey(ds[i], ds[j]); } else { assert !SameKey(ds[j], ds[i]); }
  }

  lemma ShowsClear(ds: Table, i: nat, pid: int, f: Flags)
    requires InOrder(ds, pid) && KeysAllUnique(ds) && Shows(ds, f) && i < |ds|
    ensures Shows(ds[i := ZeroDesc()], if Live(ds[i]) then f - {ds[i].name} else f)
  {
    hide Shape, KeysUnique;
    var ds', f' := ds[i := ZeroDesc()], if Live(ds[i]) then f - {ds[i].name} else f;
    forall j | 0 <= j < |ds'| && Live(ds'[j])
      ensures ds'[j].name in f' && f'[ds'[j].name] == ds'[j].enabled
    {
      if Live(ds[i]) { Apart(ds, i, j); }
    }
    forall n | n in f'
      ensures exists j :: 0 <= j < |ds'| && Live(ds'[j]) && ds'[j].name == n
    {
      var j :| 0 <= j < |ds| && Live(ds[j]) && ds[j].name == n;
      assert ds'[j].name == n;
    }
  }

  lemma StepIsNext(v: Turn, pid: int, code: set<int>, f: Flags)
    requires OpStep(v, pid, code) && pid > 0
    requires InOrder(v.before.ds, pid) && KeysAllUnique(v.before.ds) && Shows(v.before.ds, f)
    requires v.op.Attach? ==> |v.op.spec.name| < MAX_NAME
    ensures Shows(v.after.ds, Next(f, v)) && Agrees(f, v)
  {
    hide Shape, KeysUnique, KeysAllUnique, OnlyOf, Found, Hooked, Spoiled, I.Keeps, KeepSet, Put, SameUpTo, Shows,
      FailedTalk, TookTalk, FailedBack, Gone, WriteGoes;
    var ds, ds', i := v.before.ds, v.after.ds, v.i;
    FoundIsIn(ds, pid, if v.op.Attach? then v.op.spec.name else v.op.name, f);
    if v.op.Attach? {
      if Took(v.o) { ShowsSet(ds, i, ds'[i], pid, f); }
      else if v.o.Failed? { ShowsClear(ds, i, pid, f); }
    } else {
      SoughtIsIn(ds, pid, v.op.name, i, f);
      if Took(v.o) {
        if v.op.Detach? { ShowsClear(ds, i, pid, f); } else { ShowsSet(ds, i, ds'[i], pid, f); }
      }
    }
  }

  lemma SoughtIsIn(ds: Table, pid: int, name: string, i: int, f: Flags)
    requires Sought(ds, pid, name, i) && InOrder(ds, pid) && Shows(ds, f) && pid > 0
    ensures if i < 0 then name !in f else Live(ds[i]) && ds[i].pid == pid && ds[i].name == name && name in f
  {
    hide SameUpTo, KeysUnique, Shape;
    FoundIsIn(ds, pid, name, f);
  }

  /** The table refines a finite map: when names fit their field, a run's outcomes and the live probes it leaves
      are those of a map from names to flags. */
  lemma {:induction false} TableIsMap(trace: seq<Turn>, pid: int, code: set<int>, s: State, s': State, f: Flags)
    requires IsRun(trace, pid, code, s, s') && pid > 0 && InOrder(s.ds, pid) && KeysAllUnique(s.ds) && ShortNames(trace)
    requires Shows(s.ds, f)
    ensures Shows(s'.ds, AfterAll(f, trace))
    ensures forall k :: 0 <= k < |trace| ==> Agrees(AfterAll(f, trace[..k]), trace[k])
    decreases |trace|
  {
    hide InOrder, KeysAllUnique, OpStep, Shows, Agrees, Next;
    if trace != [] {
      var front, v := trace[..|trace| - 1], trace[|trace| - 1];
      TableIsMap(front, pid, code, s, v.before, f);
      RunKeepsOrder(front, pid, code, s, v.before);
      StepIsNext(v, pid, code, AfterAll(f, front));
      forall k | 0 <= k < |trace|
        ensures Agrees(AfterAll(f, trace[..k]), trace[k])
      {
        assert k < |front| ==> front[..k] == trace[..k] && front[k] == trace[k];
      }
    }
  }
}
