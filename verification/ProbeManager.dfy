/** Attaching, detaching, enabling and disabling probes: the table of sixteen descriptors and the
    target memory that mirrors it. */
module ProbeManager {
  import opened Wrappers
  import opened X86
  import opened RemoteMem
  import opened ProbeTable
  import Patch
  import F = PatchedFunction
  import I = Install
  import L = Layout
  import M = StubMachine
  import O = OpcodeMaps

  datatype Spec = Spec(pid: int, lib: string, name: string, override: X86.Word, hasRet: bool)

  /** NotSaved: the operation has been carried out, but the state file could not be written. */
  datatype Outcome = Done | NotSaved | Exists | Full | Missing | Invalid | Failed

  predicate Took(o: Outcome)
  {
    o.Done? || o.NotSaved?
  }

  // ---------------------------------------------------------------- what an operation does

  /** The slot that a new entry goes to. */
  predicate FirstFree(ds: Table, i: int)
  {
    0 <= i < |ds| && !Live(ds[i]) && forall j :: 0 <= j < i ==> Live(ds[j])
  }

  /** The function's address: the caller's, or else what the symbol lookup gave. */
  function TargetOf(spec: Spec, resolved: Option<X86.Word>): Option<X86.Word>
  {
    if spec.override != 0 then Some(spec.override) else resolved
  }

  /** Attaching filled a free slot and changed no other. */
  ghost predicate NewEntry(ds: Table, ds': Table, i: int, spec: Spec, resolved: Option<X86.Word>)
  {
    && FirstFree(ds, i) && |ds'| == |ds| && ds' == ds[i := ds'[i]] && Live(ds'[i])
    && ds'[i].probeId == i && ds'[i].pid == spec.pid && ds'[i].enabled && ds'[i].hasRet == spec.hasRet
    && ds'[i].name == Stored(spec.name) && ds'[i].lib == Stored(spec.lib)
    && TargetOf(spec, resolved) == Some(ds'[i].target)
  }

  /** Memory with a descriptor's area set up and its prologue saved, just before the jump is written: as
      before in `keep`, the area new, the saved code the least run of whole instructions for the jump. */
  ghost predicate Prepared(m: Memory, m1: Memory, d: Desc, keep: set<int>)
  {
    && Patch.JUMP_SIZE <= d.codeLen <= 19 && |d.code| == Patch.ORIGINAL_MAX && d.pid > 0 && d.size == I.AREA
    && Mapped(m, d.target, Patch.ORIGINAL_MAX) && SavedCode(d) == Slice(m, d.target, d.codeLen)
    && LeastBoundary(Slice(m, d.target, Patch.ORIGINAL_MAX), d.codeLen)
    && I.Keeps(m, m1, keep) && M.ValidProbe(ProbeOf(d)) && Patch.InReach(d.target, L.EntryStubAddr(d.base))
    && I.Installed(m1, ProbeOf(d), d.target, SavedCode(d))
    && I.Covers(m1, d.base, I.AREA) && forall x :: d.base <= x < d.base + I.AREA ==> x !in m
  }

  ghost predicate LeastBoundary(window: seq<Byte>, n: nat)
  {
    Patch.D.Boundary(window, n) && forall k :: Patch.JUMP_SIZE <= k < n ==> !Patch.D.Boundary(window, k)
  }

  /** The whole jump is written. */
  ghost predicate Hooked(m: Memory, m': Memory, d: Desc, keep: set<int>)
  {
    exists m1 :: Prepared(m, m1, d, keep) && m' == Put(m1, d.target, JumpOf(d))
  }

  /** The first `wrote` bytes of a jump to some area's entry stub are written. */
  ghost predicate Spoiled(m: Memory, m': Memory, target: X86.Word, wrote: nat, keep: set<int>)
  {
    wrote < Patch.JUMP_SIZE && exists m1, base ::
      I.Keeps(m, m1, keep) && m' == Put(m1, target, Patch.RelJmp(target, L.EntryStubAddr(base))[..wrote])
  }

  /** No instruction of the function's first 32 bytes ends at 5 or later. */
  ghost predicate NoCut(m: Memory, target: X86.Word)
  {
    Mapped(m, target, Patch.ORIGINAL_MAX) &&
    !Patch.D.EndsWithin(Slice(m, target, Patch.ORIGINAL_MAX), Patch.JUMP_SIZE, Patch.ORIGINAL_MAX)
  }

  /** What an attempt to hook a function can fail for once the threads are stopped: arguments that no transfer
      takes, a prologue that cannot be cut, an area that came to lie too far away, or a refused request. */
  ghost predicate Hindered(m: Memory, pid: int, target: X86.Word, area: Option<X86.Word>, asked: seq<Response>)
  {
    || pid <= 0 || target == 0 || NoCut(m, target) || EndsRefused(asked)
    || (area.Some? && !Patch.InReach(target, L.EntryStubAddr(area.value)))
  }

  /** The area, if there is one, was mapped along the way. */
  predicate Mapping(area: Option<X86.Word>, asked: seq<Response>)
  {
    area.Some? ==> Mmapped(I.AREA, area) in asked
  }

  /** What attaching asks for when it fails with a target to go for: the threads stopped, then whatever it came to
      before it was hindered, and the threads resumed. */
  ghost predicate FailedTalk(m: Memory, pid: int, target: X86.Word, asked: seq<Response>)
  {
    asked == [Stopped(pid, false)] ||
    exists mid, area :: asked == [Stopped(pid, true)] + mid + [Resumed(pid)]
                        && Mapping(area, mid) && Hindered(m, pid, target, area, mid)
  }

  /** When it takes: nothing hindered it, and at last the table is saved. */
  ghost predicate TookTalk(m: Memory, d: Desc, saved: bool, asked: seq<Response>)
  {
    exists mid :: asked == [Stopped(d.pid, true)] + mid + [Resumed(d.pid), Saved(saved)]
                  && Mapping(Some(d.base), mid) && !Hindered(m, d.pid, d.target, Some(d.base), mid)
  }

  /** All that attaching may do to the table and to the process: `i` is the slot, `wrote` counts the bytes
      of the jump that it wrote into the function, `asked` is what it asked the kernel for. */
  ghost predicate AttachStep(ds: Table, m: Memory, spec: Spec, resolved: Option<X86.Word>, code: set<int>, o: Outcome,
                             i: int, wrote: nat, asked: seq<Response>, ds': Table, m': Memory)
  {
    var keep := KeepSet(ds, spec.pid, m, code);
    match o
    case Exists => Found(ds, spec.pid, spec.name) && wrote == 0 && asked == [] && ds' == ds && m' == m
    case Full =>
      && !Found(ds, spec.pid, spec.name) && (forall j :: 0 <= j < |ds| ==> Live(ds[j]))
      && wrote == 0 && asked == [] && ds' == ds && m' == m
    case Failed =>
      && !Found(ds, spec.pid, spec.name) && FirstFree(ds, i) && ds' == ds[i := ZeroDesc()]
      && (TargetOf(spec, resolved).None? ==> wrote == 0 && asked == [] && m' == m)
      && (TargetOf(spec, resolved).Some? ==>
            && Spoiled(m, m', TargetOf(spec, resolved).value, wrote, keep)
            && (asked == [Stopped(spec.pid, false)] ==> wrote == 0 && m' == m)
            && FailedTalk(m, spec.pid, TargetOf(spec, resolved).value, asked))
    case Missing => false
    case Invalid => false
    case _ =>
      && !Found(ds, spec.pid, spec.name) && wrote == Patch.JUMP_SIZE
      && NewEntry(ds, ds', i, spec, resolved) && Hooked(m, m', ds'[i], keep)
      && TookTalk(m, ds'[i], o.Done?, asked)
  }

  /** All that detaching slot `i` may do, -1 standing for no descriptor; `wrote` counts the bytes of the saved
      code that it put back. It fails only when the threads cannot be stopped, when the descriptor has no saved
      code, or when the write fails. */
  ghost predicate DetachStep(ds: Table, m: Memory, i: int, code: set<int>, o: Outcome, wrote: nat, asked: seq<Response>,
                             ds': Table, m': Memory)
    requires -1 <= i < |ds|
  {
    match o
    case Invalid => i < 0 && wrote == 0 && asked == [] && ds' == ds && m' == m
    case Failed =>
      && 0 <= i && ds' == ds && wrote <= |ds[i].code| && m' == Put(m, ds[i].target, ds[i].code[..wrote])
      && (asked == [Stopped(ds[i].pid, false)] ==> wrote == 0)
      && (asked != [Stopped(ds[i].pid, false)] ==> FailedBack(ds[i], wrote, asked))
    case Done => 0 <= i && TakenDown(ds, m, i, code, true, wrote, asked, ds', m')
    case NotSaved => 0 <= i && TakenDown(ds, m, i, code, false, wrote, asked, ds', m')
    case _ => false
  }

  ghost predicate FailedBack(d: Desc, wrote: nat, asked: seq<Response>)
  {
    if !(0 < d.codeLen <= Patch.ORIGINAL_MAX) then wrote == 0 && asked == [Stopped(d.pid, true), Resumed(d.pid)]
    else exists put, e :: WriteGoes(d.pid, d.target, d.codeLen, put, e, wrote) && e != Fine
                          && asked == [Stopped(d.pid, true)] + put + [Resumed(d.pid)]
  }

  /** The saved code is written back; then the area is unmapped if the kernel lets it; then the table is saved. */
  ghost predicate TakenDown(ds: Table, m: Memory, i: nat, code: set<int>, saved: bool, wrote: nat, asked: seq<Response>,
                            ds': Table, m': Memory)
    requires i < |ds|
  {
    var d := ds[i];
    && 0 < d.codeLen == wrote <= |d.code| && ds' == ds[i := ZeroDesc()]
    && (var back := Put(m, d.target, d.code[..wrote]); I.Keeps(back, m', KeepButArea(ds', d, back, code)))
    && exists put, gone :: WriteGoes(d.pid, d.target, d.codeLen, put, Fine, wrote) && Gone(d.base, d.size, gone, m')
                           && asked == [Stopped(d.pid, true)] + put + gone + [Resumed(d.pid), Saved(saved)]
  }

  /** An area is asked to be unmapped unless there is none; and if that is granted it is no longer there. */
  ghost predicate Gone(base: X86.Word, size: nat, gone: seq<Response>, m': Memory)
  {
    if base == 0 || size == 0 then gone == []
    else gone == [Unmapped(base, size, false)] ||
         (gone == [Unmapped(base, size, true)] && forall x :: base <= x < base + size ==> x !in m')
  }

  /** All that enabling or disabling may do. */
  ghost predicate FlagStep(ds: Table, m: Memory, i: int, on: bool, o: Outcome, wrote: nat, asked: seq<Response>,
                           ds': Table, m': Memory)
    requires -1 <= i < |ds|
  {
    match o
    case Invalid => i < 0 && wrote == 0 && asked == [] && ds' == ds && m' == m
    case Missing => 0 <= i && ds[i].base == 0 && wrote == 0 && asked == [] && ds' == ds && m' == m
    case Failed =>
      && 0 <= i && ds[i].base != 0 && wrote < 4 && ds' == ds && m' == Put(m, ds[i].base, FlagBytes(on)[..wrote])
      && exists e :: WriteGoes(ds[i].pid, ds[i].base, 4, asked, e, wrote) && e != Fine
    case Done => 0 <= i && Flagged(ds, m, i, on, true, wrote, asked, ds', m')
    case NotSaved => 0 <= i && Flagged(ds, m, i, on, false, wrote, asked, ds', m')
    case _ => false
  }

  ghost predicate Flagged(ds: Table, m: Memory, i: nat, on: bool, saved: bool, wrote: nat, asked: seq<Response>,
                          ds': Table, m': Memory)
    requires i < |ds|
  {
    && ds[i].base != 0 && wrote == 4
    && ds' == ds[i := ds[i].(enabled := on)] && m' == Put(m, ds[i].base, FlagBytes(on))
    && asked != [] && asked[|asked| - 1] == Saved(saved)
    && WriteGoes(ds[i].pid, ds[i].base, 4, asked[..|asked| - 1], Fine, wrote)
  }

  class Manager {
    const table: array<Desc>

    ghost predicate Valid()
      reads this, table
    {
      Shape(table[..]) && KeysUnique(table[..])
    }

    /** lp_probe_manager_init */
    constructor ()
      ensures Valid() && fresh(table) && table.Length == MAX_PROBES
      ensures forall i :: 0 <= i < table.Length ==> !Live(table[i]) && table[i] == ZeroDesc().(probeId := i)
    {
      table := new Desc[MAX_PROBES](i => ZeroDesc());
      new;
      for i := 0 to MAX_PROBES
        invariant forall j :: 0 <= j < i ==> table[j] == ZeroDesc().(probeId := j)
        invariant forall j :: i <= j < MAX_PROBES ==> table[j] == ZeroDesc()
      {
        table[i] := table[i].(probeId := i);
      }
    }

    /** lp_probe_manager_find: the first match, or -1. */
    method Find(pid: int, name: string) returns (i: int)
      requires Valid()
      ensures -1 <= i < table.Length && (i < 0 <==> !Found(table[..], pid, name))
      ensures i >= 0 ==> table[i].pid == pid && SameUpTo(table[i].name, name, MAX_NAME)
      ensures i >= 0 ==> forall j :: 0 <= j < i ==> !(table[j].pid == pid && SameUpTo(table[j].name, name, MAX_NAME))
    {
      i := 0;
      while i < MAX_PROBES
        invariant 0 <= i <= MAX_PROBES
        invariant forall j :: 0 <= j < i ==> !(table[j].pid == pid && SameUpTo(table[j].name, name, MAX_NAME))
      {
        if table[i].pid == pid && SameUpTo(table[i].name, name, MAX_NAME) {
          assert table[..][i] == table[i];
          return;
        }
        i := i + 1;
      }
      i := -1;
    }

    /** lp_probe_manager_alloc: the first free slot, filled in; or -1 when there is none. */
    method Alloc(spec: Spec) returns (i: int)
      requires Shape(table[..])
      modifies table
      ensures i < 0 ==> table[..] == old(table[..]) && forall j :: 0 <= j < table.Length ==> Live(table[j])
      ensures i >= 0 ==> FirstFree(old(table[..]), i)
      ensures i >= 0 ==> table[..] == old(table[..])[i := Started(spec, i)]
    {
      i := 0;
      while i < MAX_PROBES
        invariant 0 <= i <= MAX_PROBES && table[..] == old(table[..])
        invariant forall j :: 0 <= j < i ==> Live(table[j])
      {
        if table[i].pid == 0 {
          table[i] := ZeroDesc();
          table[i] := table[i].(probeId := i);
          table[i] := table[i].(pid := spec.pid);
          table[i] := table[i].(hasRet := spec.hasRet);
          table[i] := table[i].(enabled := true);
          table[i] := table[i].(lib := Stored(spec.lib));
          table[i] := table[i].(name := Stored(spec.name));
          assert table[i] == Started(spec, i);
          return;
        }
        i := i + 1;
      }
      i := -1;
    }

    /** lp_probe_manager_remove */
    method Remove(i: nat)
      requires i < table.Length
      modifies table
      ensures table[..] == old(table[..])[i := ZeroDesc()]
    {
      table[i] := ZeroDesc();
    }

    /** lp_probe_attach. `resolved` is what the symbol lookup gives. */
    method Attach(spec: Spec, resolved: Option<X86.Word>, t: Tracee, ghost code: set<int>)
      returns (o: Outcome, i: int, ghost wrote: nat, ghost asked: seq<Response>)
      requires Valid() && spec.pid < 0x8000_0000
      modifies table, t
      ensures Valid() && t.log == old(t.log) + asked
      ensures AttachStep(old(table[..]), old(t.mem), spec, resolved, code, o, i, wrote, asked, table[..], t.mem)
    {
      hide KeysUnique, Found, SameUpTo, I.Keeps, KeepSet, Put, Prepared, Patch.RelJmp, Spoiled, Hooked, FailedTalk;
      hide TookTalk, Hindered, Mapping;
      wrote, asked := 0, [];
      ghost var ds0, m0 := table[..], t.mem;
      i := Find(spec.pid, spec.name);
      if i >= 0 {
        return Exists, i, wrote, asked;
      }
      i := Alloc(spec);
      if i < 0 {
        return Full, i, wrote, asked;
      }
      Undone(ds0, i);
      if spec.override != 0 {
        table[i] := table[i].(target := spec.override);
      } else {
        if resolved.None? {
          Remove(i);
          assert table[..] == ds0[i := ZeroDesc()];
          return Failed, i, wrote, asked;
        }
        table[i] := table[i].(target := resolved.value);
      }
      ghost var keep := KeepSet(ds0, spec.pid, m0, code);
      KeepsSelf(ds0, spec.pid, m0, code);
      var stopped;
      stopped, wrote, asked := StopAndPlace(i, t, keep);
      if !stopped {
        Remove(i);
        assert table[..] == ds0[i := ZeroDesc()];
        return Failed, i, wrote, asked;
      }
      Sized(m0, t.mem, table[i], keep);
      Added(ds0, i, table[i], spec);
      assert table[..] == ds0[i := table[i]];
      var written := Save(t);
      TalkTook(m0, table[i], written, asked);
      asked := asked + [Saved(written)];
      o := if written then Done else NotSaved;
    }

    /** All that is done to the process, between stopping its threads and resuming them. */
    method StopAndPlace(i: nat, t: Tracee, ghost keep: set<int>)
      returns (ok: bool, ghost wrote: nat, ghost asked: seq<Response>)
      requires i < table.Length == MAX_PROBES && |table[i].code| == Patch.ORIGINAL_MAX && table[i].probeId == i
      requires table[i].pid < 0x8000_0000 && keep <= t.mem.Keys
      modifies table, t
      ensures t.log == old(t.log) + asked
      ensures table[..] == old(table[..])[i := table[i]]
      ensures table[i] == old(table[i]).(code := table[i].code, codeLen := table[i].codeLen, base := table[i].base,
                                         size := table[i].size)
      ensures ok ==> wrote == Patch.JUMP_SIZE && Hooked(old(t.mem), t.mem, table[i], keep)
      ensures ok ==> Placed(old(t.mem), table[i], asked)
      ensures !ok ==> Spoiled(old(t.mem), t.mem, table[i].target, wrote, keep)
      ensures !ok ==> FailedTalk(old(t.mem), table[i].pid, table[i].target, asked)
      ensures asked == [Stopped(table[i].pid, false)] ==> !ok && wrote == 0 && t.mem == old(t.mem)
    {
      hide I.Keeps, Hooked, Spoiled, Hindered, Mapping;
      wrote := 0;
      KeepsItself(t.mem, keep);
      SpoiledBy(t.mem, t.mem, table[i].target, keep);
      ok := t.StopAll(table[i].pid);
      asked := [Stopped(table[i].pid, ok)];
      if !ok { return; }
      ghost var mid, area;
      ok, wrote, mid, area := Place(i, t, keep);
      t.ResumeAll(table[i].pid);
      asked := asked + mid + [Resumed(table[i].pid)];
    }

    /** From reading the original code to writing the jump. */
    method Place(i: nat, t: Tracee, ghost keep: set<int>)
      returns (ok: bool, ghost wrote: nat, ghost asked: seq<Response>, ghost area: Option<X86.Word>)
      requires i < table.Length == MAX_PROBES && |table[i].code| == Patch.ORIGINAL_MAX && table[i].probeId == i
      requires table[i].pid < 0x8000_0000 && keep <= t.mem.Keys
      modifies table, t
      ensures t.log == old(t.log) + asked
      ensures table[..] == old(table[..])[i := table[i]]
      ensures table[i] == old(table[i]).(code := table[i].code, codeLen := table[i].codeLen, base := table[i].base,
                                         size := table[i].size)
      ensures ok <==> !Hindered(old(t.mem), table[i].pid, table[i].target, area, asked)
      ensures Mapping(area, asked) && (ok ==> area == Some(table[i].base))
      ensures ok ==> wrote == Patch.JUMP_SIZE && Hooked(old(t.mem), t.mem, table[i], keep)
      ensures !ok ==> Spoiled(old(t.mem), t.mem, table[i].target, wrote, keep)
    {
      hide I.Keeps, I.Installed, I.Covers, Put, Slice, Mapped, Patch.RelJmp, Patch.InReach, M.ValidProbe;
      hide Patch.D.Boundary, Patch.D.EndsWithin, Spoiled, ReadGoes, WriteGoes, Refused;
      wrote, area := 0, None;
      ghost var ds0, m0 := table[..], t.mem;
      KeepsItself(m0, keep);
      SpoiledBy(m0, m0, table[i].target, keep);
      var e, saved;
      ghost var got, more;
      e, saved, got, asked := Patch.ReadOriginalCode(t, table[i].pid, table[i].target, Patch.JUMP_SIZE);
      ReadHinders(table[i].pid, table[i].target, asked, got);
      if !e.Ok? { return false, wrote, asked, area; }
      CutThere(Slice(m0, table[i].target, Patch.ORIGINAL_MAX), |saved|);
      table[i] := table[i].(code := saved + table[i].code[|saved|..]);
      table[i] := table[i].(codeLen := |saved|);
      var base;
      ok, base, more := I.InstallRuntime(t, table[i].pid, table[i].probeId, table[i].hasRet, table[i].target,
                                         table[i].code, table[i].codeLen, keep);
      asked := asked + more;
      assert more != [] ==> asked[|asked| - 1] == more[|more| - 1];
      SpoiledBy(m0, t.mem, table[i].target, keep);
      if !ok { return false, wrote, asked, area; }
      table[i] := table[i].(base := base, size := I.AREA);
      assert table[i].code[..table[i].codeLen] == saved && more[0] in asked;
      SavedIs(m0, table[i].target, table[i].codeLen);
      assert table[..] == ds0[i := table[i]];
      ok, wrote, more := Hook(table[i], t, m0, keep);
      assert more != [] ==> (asked + more)[|asked + more| - 1] == more[|more| - 1];
      return ok, wrote, asked + more, Some(base);
    }

    /** The jump. */
    static method Hook(d: Desc, t: Tracee, ghost m0: Memory, ghost keep: set<int>)
      returns (ok: bool, ghost wrote: nat, ghost asked: seq<Response>)
      requires Patch.InReach(d.target, L.EntryStubAddr(d.base)) ==> Prepared(m0, t.mem, d, keep)
      requires I.Keeps(m0, t.mem, keep) && d.pid > 0 && d.target != 0 && d.codeLen >= Patch.JUMP_SIZE
      modifies t
      ensures t.log == old(t.log) + asked
      ensures if Patch.InReach(d.target, L.EntryStubAddr(d.base)) then asked != [] && (ok <==> !EndsRefused(asked))
              else !ok && asked == []
      ensures ok ==> wrote == Patch.JUMP_SIZE && Hooked(m0, t.mem, d, keep)
      ensures !ok ==> Spoiled(m0, t.mem, d.target, wrote, keep)
    {
      hide I.Keeps, Put, Patch.RelJmp, Patch.InReach, Prepared, Spoiled, WriteGoes, Refused, L.EntryStubAddr;
      ghost var m1 := t.mem;
      var e;
      e, wrote, asked := Patch.PatchEntry(t, d.pid, d.target, L.EntryStubAddr(d.base), d.codeLen);
      ok := e.Ok?;
      if Patch.InReach(d.target, L.EntryStubAddr(d.base)) {
        JumpHinders(d.pid, d.target, asked, wrote, e);
      }
      if ok {
        assert Patch.RelJmp(d.target, L.EntryStubAddr(d.base))[..5] == JumpOf(d);
      } else {
        SpoiledPart(m0, m1, d.target, d.base, wrote, keep);
      }
    }

    /** lp_probe_detach of slot `i`, -1 standing for no descriptor. */
    method Detach(i: int, t: Tracee, ghost code: set<int>)
      returns (o: Outcome, ghost wrote: nat, ghost asked: seq<Response>)
      requires Valid() && -1 <= i < table.Length
      modifies table, t
      ensures Valid() && t.log == old(t.log) + asked
      ensures DetachStep(old(table[..]), old(t.mem), i, code, o, wrote, asked, table[..], t.mem)
    {
      hide KeysUnique, I.Keeps, KeepSet, Put, WriteGoes, Gone;
      wrote, asked := 0, [];
      if i < 0 {
        return Invalid, wrote, asked;
      }
      var d := table[i];
      ghost var ds0, m0 := table[..], t.mem;
      PutNothing(m0, d.target, d.code[..0]);
      var stopped := t.StopAll(d.pid);
      if !stopped {
        return Failed, wrote, [Stopped(d.pid, false)];
      }
      var e;
      ghost var put, gone;
      e, wrote, put := Patch.RestoreEntry(t, d.pid, d.target, d.code, d.codeLen);
      if !e.Ok? {
        t.ResumeAll(d.pid);
        asked := [Stopped(d.pid, true)] + put + [Resumed(d.pid)];
        return Failed, wrote, asked;
      }
      WentSomewhere(d.pid, d.target, d.codeLen, put, e, wrote);
      ghost var keep := KeepButArea(ds0[i := ZeroDesc()], d, t.mem, code);
      KeepsSelf(ds0[i := ZeroDesc()], d.pid, t.mem, code);
      gone := Cleanup(t, d.pid, d.base, d.size, keep);
      t.ResumeAll(d.pid);
      Remove(i);
      SetSlot(ds0, i, ZeroDesc());
      var written := Save(t);
      asked := [Stopped(d.pid, true)] + put + gone + [Resumed(d.pid), Saved(written)];
      o := if written then Done else NotSaved;
    }

    /** lp_probe_enable and lp_probe_disable. */
    method SetEnabled(i: int, on: bool, t: Tracee) returns (o: Outcome, ghost wrote: nat, ghost asked: seq<Response>)
      requires Valid() && -1 <= i < table.Length
      modifies table, t
      ensures Valid() && t.log == old(t.log) + asked
      ensures FlagStep(old(table[..]), old(t.mem), i, on, o, wrote, asked, table[..], t.mem)
    {
      hide KeysUnique, Put, LE, WriteGoes;
      wrote, asked := 0, [];
      if i < 0 {
        return Invalid, wrote, asked;
      }
      var d := table[i];
      ghost var ds0 := table[..];
      if d.base == 0 {
        return Missing, wrote, asked;
      }
      var e;
      PutNothing(t.mem, d.base, FlagBytes(on)[..0]);
      e, wrote, asked := t.RemoteWrite(d.pid, d.base, FlagBytes(on));
      if e != Fine {
        return Failed, wrote, asked;
      }
      table[i] := table[i].(enabled := on);
      assert table[..] == ds0[i := d.(enabled := on)];
      SetSlot(ds0, i, d.(enabled := on));
      var written := Save(t);
      assert (asked + [Saved(written)])[..|asked|] == asked;
      asked := asked + [Saved(written)];
      o := if written then Done else NotSaved;
    }
  }

  /** lp_probe_manager_save */
  method Save(t: Tracee) returns (ok: bool)
    modifies t`log
    ensures t.log == old(t.log) + [Saved(ok)]
  {
    ok := *;
    t.log := t.log + [Saved(ok)];
  }

  /** The conversation of an attach that took, up to saving the table. */
  ghost predicate Placed(m: Memory, d: Desc, asked: seq<Response>)
  {
    exists mid :: asked == [Stopped(d.pid, true)] + mid + [Resumed(d.pid)]
                  && Mapping(Some(d.base), mid) && !Hindered(m, d.pid, d.target, Some(d.base), mid)
  }

  lemma TalkTook(m: Memory, d: Desc, saved: bool, asked: seq<Response>)
    requires Placed(m, d, asked)
    ensures TookTalk(m, d, saved, asked + [Saved(saved)])
  {
    hide Mapping, Hindered;
    var mid :| asked == [Stopped(d.pid, true)] + mid + [Resumed(d.pid)]
               && Mapping(Some(d.base), mid) && !Hindered(m, d.pid, d.target, Some(d.base), mid);
    assert asked + [Saved(saved)] == [Stopped(d.pid, true)] + mid + [Resumed(d.pid), Saved(saved)];
  }

  lemma ReadHinders(pid: int, target: X86.Word, asked: seq<Response>, got: Errno)
    requires exists n :: ReadGoes(pid, target, Patch.ORIGINAL_MAX, asked, got, n)
    ensures got != Fine <==> pid <= 0 || target == 0 || EndsRefused(asked)
    ensures pid <= 0 || target == 0 <==> asked == []
  {
    hide ReadGoes, Refused;
    var n :| ReadGoes(pid, target, Patch.ORIGINAL_MAX, asked, got, n);
    ReadEnds(pid, target, Patch.ORIGINAL_MAX, asked, got, n);
  }

  lemma JumpHinders(pid: int, target: X86.Word, asked: seq<Response>, wrote: nat, e: Patch.Error)
    requires exists w :: WriteGoes(pid, target, Patch.JUMP_SIZE, asked, w, wrote) && e == Patch.Went(w)
    requires pid > 0 && target != 0
    ensures asked != [] && (EndsRefused(asked) <==> !e.Ok?)
  {
    hide WriteGoes, Refused;
    var w :| WriteGoes(pid, target, Patch.JUMP_SIZE, asked, w, wrote) && e == Patch.Went(w);
    WriteEnds(pid, target, Patch.JUMP_SIZE, asked, w, wrote);
  }

  lemma WentSomewhere(pid: int, target: X86.Word, len: nat, asked: seq<Response>, e: Patch.Error, wrote: nat)
    requires exists w :: WriteGoes(pid, target, len, asked, w, wrote) && e == Patch.Went(w)
    ensures e.Ok? ==> pid > 0 && WriteGoes(pid, target, len, asked, Fine, wrote)
  {
    hide WriteGoes, Refused;
    var w :| WriteGoes(pid, target, len, asked, w, wrote) && e == Patch.Went(w);
    WriteEnds(pid, target, len, asked, w, wrote);
  }

  lemma CutThere(window: seq<Byte>, n: nat)
    requires Patch.D.Boundary(window, n) && Patch.JUMP_SIZE <= n <= Patch.ORIGINAL_MAX
    ensures Patch.D.EndsWithin(window, Patch.JUMP_SIZE, Patch.ORIGINAL_MAX)
  {
  }

  function Started(spec: Spec, i: nat): Desc
  {
    ZeroDesc().(probeId := i, pid := spec.pid, hasRet := spec.hasRet, enabled := true, lib := Stored(spec.lib),
                name := Stored(spec.name))
  }

  lemma KeepsSelf(ds: Table, pid: int, m: Memory, code: set<int>)
    ensures KeepSet(ds, pid, m, code) <= m.Keys
  {
  }

  lemma KeepsItself(m: Memory, keep: set<int>)
    requires keep <= m.Keys
    ensures I.Keeps(m, m, keep)
  {
  }

  /** Nothing of the jump is written yet. */
  lemma SpoiledBy(m: Memory, m': Memory, target: X86.Word, keep: set<int>)
    requires I.Keeps(m, m', keep)
    ensures Spoiled(m, m', target, 0, keep)
  {
    hide I.Keeps, Put, Patch.RelJmp;
    SpoiledPart(m, m', target, 0, 0, keep);
    PutNothing(m', target, Patch.RelJmp(target, L.EntryStubAddr(0))[..0]);
  }

  lemma SpoiledPart(m: Memory, m1: Memory, target: X86.Word, base: X86.Word, wrote: nat, keep: set<int>)
    requires I.Keeps(m, m1, keep) && wrote < Patch.JUMP_SIZE
    ensures Spoiled(m, Put(m1, target, Patch.RelJmp(target, L.EntryStubAddr(base))[..wrote]), target, wrote, keep)
  {
    hide I.Keeps, Put, Patch.RelJmp;
  }

  lemma Sized(m: Memory, m': Memory, d: Desc, keep: set<int>)
    requires Hooked(m, m', d, keep)
    ensures |d.code| == Patch.ORIGINAL_MAX && Patch.JUMP_SIZE <= d.codeLen <= 19 && d.pid > 0
  {
    hide I.Keeps, I.Installed, I.Covers, LeastBoundary;
  }

  lemma SavedIs(m: Memory, target: X86.Word, len: nat)
    requires len <= Patch.ORIGINAL_MAX && Mapped(m, target, Patch.ORIGINAL_MAX)
    ensures Mapped(m, target, len) && Slice(m, target, Patch.ORIGINAL_MAX)[..len] == Slice(m, target, len)
  {
  }

  /** A slot taken and given back. */
  lemma Undone(ds: Table, i: nat)
    requires Shape(ds) && KeysUnique(ds) && i < |ds| && !Live(ds[i])
    ensures Shape(ds[i := ZeroDesc()]) && KeysUnique(ds[i := ZeroDesc()])
  {
    SetSlot(ds, i, ZeroDesc());
  }

  lemma Added(ds: Table, i: nat, d: Desc, spec: Spec)
    requires Shape(ds) && KeysUnique(ds) && i < |ds| && !Live(ds[i]) && !Found(ds, spec.pid, spec.name)
    requires d.probeId == i && d.pid == spec.pid != 0 && d.name == Stored(spec.name) && |d.code| == Patch.ORIGINAL_MAX
    ensures Shape(ds[i := d]) && KeysUnique(ds[i := d])
    ensures KeysAllUnique(ds) && |spec.name| < MAX_NAME ==> KeysAllUnique(ds[i := d])
  {
    hide KeysUnique, KeysAllUnique, Found;
    AddKey(ds, i, d, spec.name);
  }

  /** A slot cleared or flagged keeps the table in order. */
  lemma SetSlot(ds: Table, i: nat, d: Desc)
    requires Shape(ds) && KeysUnique(ds) && i < |ds|
    requires |d.code| == Patch.ORIGINAL_MAX && |d.name| < MAX_NAME
    requires Live(d) ==> d.probeId == i && Live(ds[i]) && SameKey(d, ds[i])
    ensures Shape(ds[i := d]) && KeysUnique(ds[i := d])
    ensures KeysAllUnique(ds) ==> KeysAllUnique(ds[i := d])
  {
  }

  /** remote_munmap, whose failure is ignored. What it does elsewhere is outside `keep`. */
  method Cleanup(t: Tracee, pid: int, base: X86.Word, size: nat, ghost keep: set<int>)
    returns (ghost asked: seq<Response>)
    requires pid > 0 && keep <= t.mem.Keys && forall x :: x in keep ==> !(base <= x < base + size)
    modifies t
    ensures t.log == old(t.log) + asked && Gone(base, size, asked, t.mem)
    ensures I.Keeps(old(t.mem), t.mem, keep)
  {
    asked := [];
    if base == 0 || size == 0 {
      return;
    }
    var ok := *;
    if ok {
      t.mem := t.mem - Stretch(base, size);
    }
    asked := [Unmapped(base, size, ok)];
    t.log := t.log + asked;
  }

  // ---------------------------------------------------------------- target memory under attach and detach

  /** Everything that ties the table's entries for one process to its memory. */
  ghost predicate Mirrors(ds: Table, pid: int, m: Memory, orig: Memory, code: set<int>)
  {
    CodeInv(ds, pid, m, orig, code) && AreaInv(ds, pid, m, code)
  }

  function ProbeOf(d: Desc): M.Probe
  {
    M.Probe(d.base, if d.pid >= 0 then d.pid else 0, d.probeId, d.hasRet)
  }

  function SavedCode(d: Desc): seq<Byte>
  {
    if 0 <= d.codeLen <= |d.code| then d.code[..d.codeLen] else []
  }

  /** A live probe's area and jump as they were installed. */
  ghost predicate Attached(m: Memory, d: Desc)
  {
    && M.ValidProbe(ProbeOf(d)) && Patch.InReach(d.target, L.EntryStubAddr(d.base))
    && I.Installed(m, ProbeOf(d), d.target, SavedCode(d))
    && Fetches(m, d.target, JumpOf(d))
  }

  /** An attached probe is a patched function in the sense of its simulation theorem. */
  lemma AttachedIsPatched(m: Memory, d: Desc)
    requires Attached(m, d)
    ensures F.Patched(m, ProbeOf(d), SavedCode(d), d.target)
  {
    hide Fetches, LE, I.A.Assembled, I.A.BlockBytes;
    assert I.TrampolineConsts(ProbeOf(d), d.target, SavedCode(d))
        == F.BackConsts(ProbeOf(d), d.target + |SavedCode(d)|);
  }

  /** What an attach saves is whole instructions of the processor's own, and no more than the jump needs, when
      the decoder's tables agree with the manual's on each of them. */
  lemma SavedCodeIsReal(m: Memory, m1: Memory, d: Desc, keep: set<int>)
    requires Prepared(m, m1, d, keep) && O.AllRight(Slice(m, d.target, Patch.ORIGINAL_MAX), Patch.JUMP_SIZE)
    ensures SavedCode(d) == Slice(m, d.target, d.codeLen)
    ensures O.ManualBoundary(Slice(m, d.target, Patch.ORIGINAL_MAX), d.codeLen)
    ensures forall k: nat :: Patch.JUMP_SIZE <= k < d.codeLen ==>
              !O.ManualBoundary(Slice(m, d.target, Patch.ORIGINAL_MAX), k)
  {
    hide I.Keeps, I.Installed, I.Covers, Slice, O.AllRight, O.ManualBoundary, Patch.D.Boundary;
    O.PatchLenIsReal(Slice(m, d.target, Patch.ORIGINAL_MAX), Patch.JUMP_SIZE, d.codeLen);
  }

  lemma KeepsCode(ds: Table, pid: int, m: Memory, m': Memory, orig: Memory, code: set<int>)
    requires Others(ds, pid, m, orig, code) && I.Keeps(m, m', KeepSet(ds, pid, m, code))
    ensures I.Keeps(m, m', code)
  {
    hide Covered;
    forall x | x in code
      ensures x in m && x in m' && m'[x] == m[x]
    {
      assert x in KeepSet(ds, pid, m, code);
    }
  }

  /** What happens in a slot that is not a probe of this process, before or after, does not concern it. */
  lemma DeadSlot(ds: Table, i: nat, z: Desc, pid: int, m: Memory, orig: Memory, code: set<int>)
    requires Mirrors(ds, pid, m, orig, code) && i < |ds| && !Probes(ds[i], pid) && !Probes(z, pid)
    ensures Mirrors(ds[i := z], pid, m, orig, code)
  {
    hide AreaOk;
    CodeOf(ds, ds[i := z], pid, m, orig, code);
  }

  /** What a failed attempt leaves of the memory matters to nobody. */
  lemma UntouchedMirrors(ds: Table, pid: int, m: Memory, m': Memory, orig: Memory, code: set<int>)
    requires Mirrors(ds, pid, m, orig, code) && I.Keeps(m, m', KeepSet(ds, pid, m, code))
    ensures Mirrors(ds, pid, m', orig, code)
  {
    hide DescOk, AreaOk, KeepSet, I.Keeps;
    KeepsCode(ds, pid, m, m', orig, code);
    CodeKept(ds, pid, m, m', orig, code);
    AreaKept(ds, pid, m, m', code);
  }

  /** The whole of a successful attach. */
  lemma AttachMirrors(ds: Table, i: nat, d: Desc, pid: int, m0: Memory, m1: Memory, orig: Memory, code: set<int>)
    requires Mirrors(ds, pid, m0, orig, code) && i < |ds| && !Live(ds[i]) && Probes(d, pid) && pid > 0 && d.enabled
    requires Patch.JUMP_SIZE <= d.codeLen <= Patch.ORIGINAL_MAX == |d.code| && Free(ds, pid, d.target, d.codeLen, code)
    requires Mapped(m0, d.target, d.codeLen) && SavedCode(d) == Slice(m0, d.target, d.codeLen)
    requires I.Keeps(m0, m1, KeepSet(ds, pid, m0, code)) && d.size == I.AREA
    requires I.Installed(m1, ProbeOf(d), d.target, SavedCode(d)) && M.ValidProbe(ProbeOf(d))
    requires I.Covers(m1, d.base, I.AREA) && forall x :: d.base <= x < d.base + I.AREA ==> x !in m0
    requires Patch.InReach(d.target, L.EntryStubAddr(d.base))
    ensures Mirrors(ds[i := d], pid, Put(m1, d.target, JumpOf(d)), orig, code)
    ensures Attached(Put(m1, d.target, JumpOf(d)), d)
  {
    hide DescOk, KeepSet, I.Keeps, I.Installed, JumpOf, Put, Covered, InAreas, LE, M.ValidProbe, L.EntryStubAddr;
    UntouchedMirrors(ds, pid, m0, m1, orig, code);
    forall x | InRange(d, x)
      ensures x in orig && d.code[x - d.target] == orig[x]
    {
      FreeIsOriginal(ds, pid, m0, orig, code, d.target, d.codeLen, x);
      assert SavedCode(d)[x - d.target] == m0[x];
    }
    AttachCode(ds, i, d, pid, m1, orig, code);
    NewAreaOk(d, m0, m1, orig, ds, pid, code);
    AttachArea(ds, i, d, pid, m0, m1, code);
    AreaPutCode(ds[i := d], pid, m1, code, d.target, JumpOf(d));
    JumpApart(d, m0, orig, ds, pid, code);
    I.InstalledKept(m1, ProbeOf(d), d.target, SavedCode(d), d.target, JumpOf(d));
    I.FetchesPut(m1, d.target, JumpOf(d));
  }

  lemma NewAreaOk(d: Desc, m0: Memory, m1: Memory, orig: Memory, ds: Table, pid: int, code: set<int>)
    requires Others(ds, pid, m0, orig, code) && d.enabled && d.size == I.AREA && d.pid > 0
    requires I.Installed(m1, ProbeOf(d), d.target, SavedCode(d)) && M.ValidProbe(ProbeOf(d))
    requires I.Covers(m1, d.base, I.AREA) && forall x :: d.base <= x < d.base + I.AREA ==> x !in m0
    ensures AreaOk(d, m1, code)
  {
    hide I.Installed, Covered, LE;
    I.InstalledFlag(m1, ProbeOf(d), d.target, SavedCode(d));
    forall x | InArea(d, x) ensures x in m1 && x !in code { assert x !in m0; }
  }

  /** The jump is in the code, the area is not. */
  lemma JumpApart(d: Desc, m0: Memory, orig: Memory, ds: Table, pid: int, code: set<int>)
    requires Others(ds, pid, m0, orig, code) && forall x :: d.base <= x < d.base + I.AREA ==> x !in m0
    requires forall x :: InJump(d, x) ==> x in code
    ensures L.Apart(d.target, Patch.JUMP_SIZE, d.base, I.AREA)
  {
    hide Covered;
    forall x | InJump(d, x)
      ensures !InArea(d, x)
    {
    }
    var x := if d.target > d.base then d.target else d.base;
    assert InJump(d, x) ==> !InArea(d, x);
  }

  /** What taking down one area must leave alone. */
  ghost function KeepButArea(ds: Table, d: Desc, m: Memory, code: set<int>): set<int>
  {
    set x | x in KeepSet(ds, d.pid, m, code) && !(d.base <= x < d.base + d.size)
  }

  lemma DetachMirrors(ds: Table, i: nat, pid: int, m: Memory, m': Memory, orig: Memory, code: set<int>)
    requires Mirrors(ds, pid, m, orig, code) && i < |ds| && Probes(ds[i], pid) && 0 <= ds[i].codeLen <= |ds[i].code|
    requires var back := Put(m, ds[i].target, ds[i].code[..ds[i].codeLen]);
             I.Keeps(back, m', KeepButArea(ds[i := ZeroDesc()], ds[i], back, code))
    ensures Mirrors(ds[i := ZeroDesc()], pid, m', orig, code)
  {
    hide DescOk, Put, I.Keeps, KeepSet, Covered, InAreas;
    var d, ds' := ds[i], ds[i := ZeroDesc()];
    var back := Put(m, d.target, d.code[..d.codeLen]);
    DetachCode(ds, i, ZeroDesc(), pid, m, orig, code);
    RangeInCode(d, m, orig, code, ds, pid, i);
    AreaPutCode(ds, pid, m, code, d.target, d.code[..d.codeLen]);
    KeepRest(ds, i, pid, back, orig, code);
    KeepsCode(ds', pid, back, m', orig, code);
    CodeKept(ds', pid, back, m', orig, code);
    DetachArea(ds, i, ZeroDesc(), pid, back, m', code);
  }

  lemma RangeInCode(d: Desc, m: Memory, orig: Memory, code: set<int>, ds: Table, pid: int, i: nat)
    requires CodeInv(ds, pid, m, orig, code) && i < |ds| && d == ds[i] && Probes(d, pid)
    ensures forall x :: d.target <= x < d.target + d.codeLen ==> x in code
  {
    assert DescOk(d, m, orig, code);
    forall x | d.target <= x < d.target + d.codeLen ensures x in code { assert InRange(d, x); }
  }

  /** Nothing that is to stay lies in the area that goes. */
  lemma KeepRest(ds: Table, i: nat, pid: int, m: Memory, orig: Memory, code: set<int>)
    requires AreaInv(ds, pid, m, code) && i < |ds| && Probes(ds[i], pid)
    ensures KeepButArea(ds[i := ZeroDesc()], ds[i], m, code) == KeepSet(ds[i := ZeroDesc()], pid, m, code)
  {
    var ds', d := ds[i := ZeroDesc()], ds[i];
    assert AreaOk(d, m, code);
    hide FlagBytes;
    forall x | x in KeepSet(ds', pid, m, code)
      ensures !(d.base <= x < d.base + d.size)
    {
      assert InArea(d, x) ==> x !in code;
      if x !in code {
        var j :| 0 <= j < |ds'| && Probes(ds'[j], pid) && InArea(ds'[j], x);
        assert ds'[j] == ds[j] && L.Apart(ds[j].base, I.AREA, d.base, I.AREA);
      }
    }
  }

  lemma FlagMirrors(ds: Table, i: nat, on: bool, pid: int, m: Memory, orig: Memory, code: set<int>)
    requires Mirrors(ds, pid, m, orig, code) && i < |ds| && Probes(ds[i], pid)
    ensures Mirrors(ds[i := ds[i].(enabled := on)], pid, Put(m, ds[i].base, FlagBytes(on)), orig, code)
  {
    hide DescOk, Covered, JumpOf, Put, FlagBytes;
    var ds', m' := ds[i := ds[i].(enabled := on)], Put(m, ds[i].base, FlagBytes(on));
    FlagArea(ds, i, on, pid, m, code);
    FlagKeepsCode(ds, i, on, pid, m, orig, code);
    CodeKept(ds, pid, m, m', orig, code);
    CodeOf(ds, ds', pid, m', orig, code);
  }

  lemma FlagKeepsCode(ds: Table, i: nat, on: bool, pid: int, m: Memory, orig: Memory, code: set<int>)
    requires AreaInv(ds, pid, m, code) && i < |ds| && Probes(ds[i], pid) && Others(ds, pid, m, orig, code)
    ensures I.Keeps(m, Put(m, ds[i].base, FlagBytes(on)), code)
  {
    hide Covered, FlagBytes;
    assert AreaOk(ds[i], m, code);
    forall x | x in code ensures !(ds[i].base <= x < ds[i].base + 4) { assert InArea(ds[i], x) ==> x !in code; }
  }

  // ---------------------------------------------------------------- operations and the mirror

  /** An attach keeps the table in order; keys stay unique when the name fits its field. */
  lemma AttachKeeps(ds: Table, m: Memory, spec: Spec, resolved: Option<X86.Word>, code: set<int>, o: Outcome, i: int,
                    wrote: nat, asked: seq<Response>, ds': Table, m': Memory)
    requires Shape(ds) && KeysUnique(ds) && AttachStep(ds, m, spec, resolved, code, o, i, wrote, asked, ds', m')
    ensures Shape(ds') && KeysUnique(ds') && (KeysAllUnique(ds) && |spec.name| < MAX_NAME ==> KeysAllUnique(ds'))
  {
    hide KeysUnique, KeysAllUnique, Found, KeepSet, Hooked, Spoiled, FailedTalk, TookTalk;
    if Took(o) {
      Sized(m, m', ds'[i], KeepSet(ds, spec.pid, m, code));
      Added(ds, i, ds'[i], spec);
    } else if o.Failed? {
      SetSlot(ds, i, ZeroDesc());
    }
  }

  /** An attach to a free stretch of code, or one that failed before it wrote to the code, carries the mirror
      to the new table and the new memory. */
  lemma AttachStepMirrors(ds: Table, m: Memory, spec: Spec, resolved: Option<X86.Word>, code: set<int>, o: Outcome,
                          i: int, wrote: nat, asked: seq<Response>, ds': Table, m': Memory, orig: Memory)
    requires AttachStep(ds, m, spec, resolved, code, o, i, wrote, asked, ds', m')
    requires Mirrors(ds, spec.pid, m, orig, code)
    requires if Took(o) then Free(ds, spec.pid, ds'[i].target, ds'[i].codeLen, code) else wrote == 0
    ensures Mirrors(ds', spec.pid, m', orig, code) && (Took(o) ==> Attached(m', ds'[i]))
  {
    hide Mirrors, Free, Attached, Found, I.Keeps, KeepSet, Put, Patch.RelJmp, Prepared, JumpOf,
      FailedTalk, TookTalk;
    var keep := KeepSet(ds, spec.pid, m, code);
    if Took(o) {
      var m1 :| Prepared(m, m1, ds'[i], keep) && m' == Put(m1, ds'[i].target, JumpOf(ds'[i]));
      FromPrepared(ds, i, ds'[i], spec.pid, m, m1, orig, code);
    } else if o.Failed? {
      if TargetOf(spec, resolved).Some? {
        NothingSpoiled(m, m', TargetOf(spec, resolved).value, keep);
        UntouchedMirrors(ds, spec.pid, m, m', orig, code);
      }
      DeadSlot(ds, i, ZeroDesc(), spec.pid, m', orig, code);
    }
  }

  lemma NothingSpoiled(m: Memory, m': Memory, target: X86.Word, keep: set<int>)
    requires Spoiled(m, m', target, 0, keep)
    ensures I.Keeps(m, m', keep)
  {
    hide Patch.RelJmp, I.Keeps, Put;
    var m1, base :| I.Keeps(m, m1, keep) && m' == Put(m1, target, Patch.RelJmp(target, L.EntryStubAddr(base))[..0]);
    PutNothing(m1, target, Patch.RelJmp(target, L.EntryStubAddr(base))[..0]);
  }

  lemma FromPrepared(ds: Table, i: nat, d: Desc, pid: int, m: Memory, m1: Memory, orig: Memory, code: set<int>)
    requires Mirrors(ds, pid, m, orig, code) && i < |ds| && !Live(ds[i]) && Probes(d, pid) && d.enabled
    requires Prepared(m, m1, d, KeepSet(ds, pid, m, code)) && Free(ds, pid, d.target, d.codeLen, code)
    ensures Mirrors(ds[i := d], pid, Put(m1, d.target, JumpOf(d)), orig, code)
    ensures Attached(Put(m1, d.target, JumpOf(d)), d)
  {
    hide Mirrors, Free, Attached, I.Keeps, KeepSet, Put, JumpOf, I.Installed, I.Covers, LeastBoundary, Slice;
    AttachMirrors(ds, i, d, pid, m, m1, orig, code);
  }

  lemma DetachKeeps(ds: Table, m: Memory, i: int, code: set<int>, o: Outcome, wrote: nat, asked: seq<Response>,
                    ds': Table, m': Memory)
    requires Shape(ds) && KeysUnique(ds) && -1 <= i < |ds| && DetachStep(ds, m, i, code, o, wrote, asked, ds', m')
    ensures Shape(ds') && KeysUnique(ds') && (KeysAllUnique(ds) ==> KeysAllUnique(ds'))
  {
    hide KeysUnique, KeysAllUnique, KeepSet, I.Keeps, Gone, WriteGoes;
    if Took(o) {
      SetSlot(ds, i, ZeroDesc());
    }
  }

  /** A detach that came through, or failed before it wrote to the code, carries the mirror on. */
  lemma DetachStepMirrors(ds: Table, m: Memory, i: int, code: set<int>, o: Outcome, wrote: nat, asked: seq<Response>,
                          ds': Table, m': Memory, pid: int, orig: Memory)
    requires -1 <= i < |ds| && DetachStep(ds, m, i, code, o, wrote, asked, ds', m') && Mirrors(ds, pid, m, orig, code)
    requires (i >= 0 ==> Probes(ds[i], pid)) && (Took(o) || wrote == 0)
    ensures Mirrors(ds', pid, m', orig, code)
  {
    hide Mirrors, I.Keeps, KeepSet, Put, Gone, WriteGoes;
    if Took(o) {
      DetachMirrors(ds, i, pid, m, m', orig, code);
    } else if i >= 0 {
      PutNothing(m, ds[i].target, ds[i].code[..0]);
    }
  }

  lemma FlagKeeps(ds: Table, m: Memory, i: int, on: bool, o: Outcome, wrote: nat, asked: seq<Response>,
                  ds': Table, m': Memory)
    requires Shape(ds) && KeysUnique(ds) && -1 <= i < |ds| && FlagStep(ds, m, i, on, o, wrote, asked, ds', m')
    ensures Shape(ds') && KeysUnique(ds') && (KeysAllUnique(ds) ==> KeysAllUnique(ds'))
  {
    hide KeysUnique, KeysAllUnique, WriteGoes;
    if Took(o) {
      SetSlot(ds, i, ds[i].(enabled := on));
    }
  }

  /** So does setting a flag. */
  lemma FlagStepMirrors(ds: Table, m: Memory, i: int, on: bool, o: Outcome, wrote: nat, asked: seq<Response>,
                        ds': Table, m': Memory, pid: int, orig: Memory, code: set<int>)
    requires -1 <= i < |ds| && FlagStep(ds, m, i, on, o, wrote, asked, ds', m') && Mirrors(ds, pid, m, orig, code)
    requires (i >= 0 ==> Probes(ds[i], pid)) && (Took(o) || wrote == 0)
    ensures Mirrors(ds', pid, m', orig, code)
  {
    hide Mirrors, Put, FlagBytes, WriteGoes;
    if Took(o) {
      FlagMirrors(ds, i, on, pid, m, orig, code);
    } else if o.Failed? {
      PutNothing(m, ds[i].base, FlagBytes(on)[..0]);
    }
  }
}
