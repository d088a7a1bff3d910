/** The probe table as a value: its keys, the code memory it stands for, and the flags it mirrors. */
module ProbeTable {
  import opened X86
  import opened RemoteMem
  import L = Layout
  import Patch
  import I = Install

  const MAX_PROBES: nat := 16
  const MAX_NAME: nat := 128

  /** A descriptor; pid 0 marks a free slot. The addresses in the area follow from its base. */
  datatype Desc = Desc(probeId: nat, pid: int, target: X86.Word, base: X86.Word, size: nat, code: seq<Byte>,
                       codeLen: int, enabled: bool, hasRet: bool, lib: string, name: string)

  type Table = seq<Desc>

  predicate Live(d: Desc)
  {
    d.pid != 0
  }

  function ZeroDesc(): Desc
  {
    Desc(0, 0, 0, 0, 0, seq(Patch.ORIGINAL_MAX, i => 0), 0, false, false, "", "")
  }

  // ---------------------------------------------------------------- names

  /** strncmp(a, b, n) == 0 on strings without zero bytes. */
  predicate SameUpTo(a: string, b: string, n: nat)
  {
    n == 0 || (a == "" && b == "") || (a != "" && b != "" && a[0] == b[0] && SameUpTo(a[1..], b[1..], n - 1))
  }

  /** What snprintf leaves of a name in its field. */
  function Stored(name: string): (s: string)
    ensures |s| < MAX_NAME
  {
    if |name| < MAX_NAME then name else name[..MAX_NAME - 1]
  }

  lemma {:induction false} SameUpToIsEqual(a: string, b: string, n: nat)
    requires |a| < n
    ensures SameUpTo(a, b, n) <==> a == b
  {
    if a != "" && b != "" {
      SameUpToIsEqual(a[1..], b[1..], n - 1);
      assert a == [a[0]] + a[1..] && b == [b[0]] + b[1..];
    }
  }

  /** The search for a name finds its stored form just when the name fits its field. */
  lemma LookupMeetsStored(name: string)
    ensures SameUpTo(Stored(name), name, MAX_NAME) <==> |name| < MAX_NAME
  {
    SameUpToIsEqual(Stored(name), name, MAX_NAME);
  }

  // ---------------------------------------------------------------- the table itself

  predicate Shape(ds: Table)
  {
    && |ds| == MAX_PROBES
    && (forall i :: 0 <= i < |ds| ==> |ds[i].code| == Patch.ORIGINAL_MAX && |ds[i].name| < MAX_NAME)
    && (forall i :: 0 <= i < |ds| && Live(ds[i]) ==> ds[i].probeId == i)
  }

  predicate SameKey(d: Desc, e: Desc)
  {
    d.pid == e.pid && d.name == e.name
  }

  /** Two live descriptors with one key: only for stored names that fill their field. */
  predicate KeysUnique(ds: Table)
  {
    forall i, j :: 0 <= i < j < |ds| && Live(ds[i]) && Live(ds[j]) && SameKey(ds[i], ds[j]) ==>
      |ds[i].name| == MAX_NAME - 1
  }

  predicate KeysAllUnique(ds: Table)
  {
    forall i, j :: 0 <= i < j < |ds| && Live(ds[i]) && Live(ds[j]) ==> !SameKey(ds[i], ds[j])
  }

  /** The search that attach makes first. */
  predicate Found(ds: Table, pid: int, name: string)
  {
    exists i :: 0 <= i < |ds| && ds[i].pid == pid && SameUpTo(ds[i].name, name, MAX_NAME)
  }

  predicate Taken(ds: Table, pid: int, stored: string)
  {
    exists j :: 0 <= j < |ds| && Live(ds[j]) && ds[j].pid == pid && ds[j].name == stored
  }

  /** A new entry under a key that the search did not find: keys stay unique exactly when the name is
      short enough for its field, or its first 127 characters are nobody's name yet. */
  lemma AddKey(ds: Table, i: nat, d: Desc, name: string)
    requires Shape(ds) && i < |ds| && !Live(ds[i]) && Live(d) && d.name == Stored(name) && !Found(ds, d.pid, name)
    ensures KeysUnique(ds) ==> KeysUnique(ds[i := d])
    ensures KeysAllUnique(ds) ==> (KeysAllUnique(ds[i := d]) <==> |name| < MAX_NAME || !Taken(ds, d.pid, Stored(name)))
  {
    forall j | 0 <= j < |ds| && ds[j].pid == d.pid && ds[j].name == d.name && |name| < MAX_NAME
      ensures false
    {
      SameUpToIsEqual(ds[j].name, name, MAX_NAME);
    }
    if Taken(ds, d.pid, Stored(name)) {
      var j :| 0 <= j < |ds| && Live(ds[j]) && ds[j].pid == d.pid && ds[j].name == Stored(name);
      assert ds[i := d][i] == d && ds[i := d][j] == ds[j];
      if i < j { assert SameKey(ds[i := d][i], ds[i := d][j]); } else { assert SameKey(ds[i := d][j], ds[i := d][i]); }
    }
  }

  /** For longer names the guard does not bite: this table is one that attaching twice leads to. */
  lemma LongNamesCollide(name: string, d: Desc)
    requires |name| >= MAX_NAME && d.name == Stored(name) && Live(d)
    ensures var ds := seq(MAX_PROBES, i => ZeroDesc())[0 := d];
            !Found(ds, d.pid, name) && !KeysAllUnique(ds[1 := d])
  {
    LookupMeetsStored(name);
    var ds := seq(MAX_PROBES, i => ZeroDesc())[0 := d];
    var two := ds[1 := d];
    assert two[0] == two[1] == d && SameKey(two[0], two[1]);
  }

  // ---------------------------------------------------------------- code memory

  /** The bytes that a live probe has taken over. */
  predicate InRange(d: Desc, x: int)
  {
    d.target <= x < d.target + d.codeLen
  }

  predicate InJump(d: Desc, x: int)
  {
    d.target <= x < d.target + Patch.JUMP_SIZE
  }

  function JumpOf(d: Desc): (s: seq<Byte>)
    ensures |s| == Patch.JUMP_SIZE
  {
    Patch.RelJmp(d.target, L.EntryStubAddr(d.base))
  }

  predicate Probes(d: Desc, pid: int)
  {
    Live(d) && d.pid == pid
  }

  /** A live descriptor holds the original bytes it took over, and its jump is in place. */
  ghost predicate DescOk(d: Desc, m: Memory, orig: Memory, code: set<int>)
  {
    && Patch.JUMP_SIZE <= d.codeLen <= Patch.ORIGINAL_MAX == |d.code|
    && (forall x :: InRange(d, x) ==> x in code && x in orig && d.code[x - d.target] == orig[x])
    && (forall x :: InJump(d, x) ==> x in m && m[x] == JumpOf(d)[x - d.target])
  }

  predicate Covered(ds: Table, pid: int, x: int)
  {
    exists i :: 0 <= i < |ds| && Probes(ds[i], pid) && InJump(ds[i], x)
  }

  ghost predicate Others(ds: Table, pid: int, m: Memory, orig: Memory, code: set<int>)
  {
    forall x :: x in code ==> x in m && x in orig && (Covered(ds, pid, x) || m[x] == orig[x])
  }

  /** Code memory is the original overlaid with one jump per live probe, and every live descriptor
      holds original bytes. `code` is where the program's code lies. */
  ghost predicate CodeInv(ds: Table, pid: int, m: Memory, orig: Memory, code: set<int>)
  {
    && (forall i :: 0 <= i < |ds| && Probes(ds[i], pid) ==> DescOk(ds[i], m, orig, code))
    && (forall i, j :: 0 <= i < j < |ds| && Probes(ds[i], pid) && Probes(ds[j], pid) ==>
          L.Apart(ds[i].target, ds[i].codeLen, ds[j].target, ds[j].codeLen))
    && Others(ds, pid, m, orig, code)
  }

  /** With no probe left the code is byte for byte the original. */
  lemma EmptyTableRestores(ds: Table, pid: int, m: Memory, orig: Memory, code: set<int>)
    requires CodeInv(ds, pid, m, orig, code) && forall i :: 0 <= i < |ds| ==> !Probes(ds[i], pid)
    ensures forall x :: x in code ==> x in m && x in orig && m[x] == orig[x]
  {
    forall x | x in code
      ensures !Covered(ds, pid, x)
    {
    }
  }

  /** What happens outside the code does not matter to it. */
  lemma CodeKept(ds: Table, pid: int, m: Memory, m': Memory, orig: Memory, code: set<int>)
    requires CodeInv(ds, pid, m, orig, code) && I.Keeps(m, m', code)
    ensures CodeInv(ds, pid, m', orig, code)
  {
    hide JumpOf, Covered;
    forall i | 0 <= i < |ds| && Probes(ds[i], pid)
      ensures DescOk(ds[i], m', orig, code)
    {
      assert DescOk(ds[i], m, orig, code);
      forall x | InJump(ds[i], x) ensures x in m' && m'[x] == JumpOf(ds[i])[x - ds[i].target] {
        assert InRange(ds[i], x);
      }
    }
  }

  lemma CoveredBy(ds: Table, pid: int, x: int, i: nat)
    requires i < |ds| && Probes(ds[i], pid) && InJump(ds[i], x)
    ensures Covered(ds, pid, x)
  {
  }

  /** Nor do a descriptor's flag, or a slot of another process. */
  lemma CodeOf(ds: Table, ds': Table, pid: int, m: Memory, orig: Memory, code: set<int>)
    requires CodeInv(ds, pid, m, orig, code) && |ds'| == |ds|
    requires forall i :: 0 <= i < |ds| ==> Probes(ds'[i], pid) == Probes(ds[i], pid)
    requires forall i :: 0 <= i < |ds| && Probes(ds[i], pid) ==> ds'[i] == ds[i].(enabled := ds'[i].enabled)
    ensures CodeInv(ds', pid, m, orig, code)
  {
    forall i | 0 <= i < |ds'| && Probes(ds'[i], pid)
      ensures DescOk(ds'[i], m, orig, code)
    {
      SameButFlag(ds[i], ds'[i], m, orig, code);
    }
    hide DescOk;
    forall x | x in code && Covered(ds, pid, x)
      ensures Covered(ds', pid, x)
    {
      var i :| 0 <= i < |ds| && Probes(ds[i], pid) && InJump(ds[i], x);
      CoveredBy(ds', pid, x, i);
    }
  }

  lemma SameButFlag(d: Desc, d': Desc, m: Memory, orig: Memory, code: set<int>)
    requires d' == d.(enabled := d'.enabled) && DescOk(d, m, orig, code)
    ensures DescOk(d', m, orig, code)
  {
    assert JumpOf(d') == JumpOf(d);
    assert forall x :: InRange(d', x) == InRange(d, x) && InJump(d', x) == InJump(d, x);
  }

  /** The stretch of a new probe is in the code and apart from those of the live ones. */
  ghost predicate Free(ds: Table, pid: int, target: int, len: nat, code: set<int>)
  {
    && (forall x :: target <= x < target + len ==> x in code)
    && (forall i :: 0 <= i < |ds| && Probes(ds[i], pid) ==> L.Apart(ds[i].target, ds[i].codeLen, target, len))
  }

  lemma DescOkPut(d: Desc, m: Memory, orig: Memory, code: set<int>, addr: int, x: seq<Byte>)
    requires DescOk(d, m, orig, code) && L.Apart(d.target, d.codeLen, addr, |x|)
    ensures DescOk(d, Put(m, addr, x), orig, code)
  {
    hide JumpOf;
  }

  lemma NotCovered(ds: Table, pid: int, x: int)
    requires forall i :: 0 <= i < |ds| && Probes(ds[i], pid) ==> !InJump(ds[i], x)
    ensures !Covered(ds, pid, x)
  {
  }

  /** Code in a free stretch is original code. */
  lemma FreeIsOriginal(ds: Table, pid: int, m: Memory, orig: Memory, code: set<int>, target: int, len: nat, x: int)
    requires CodeInv(ds, pid, m, orig, code) && Free(ds, pid, target, len, code) && target <= x < target + len
    ensures x in m && x in orig && m[x] == orig[x]
  {
    hide Covered, JumpOf;
    forall i | 0 <= i < |ds| && Probes(ds[i], pid)
      ensures !InJump(ds[i], x)
    {
      assert DescOk(ds[i], m, orig, code);
    }
    NotCovered(ds, pid, x);
  }

  lemma AttachCode(ds: Table, i: nat, d: Desc, pid: int, m: Memory, orig: Memory, code: set<int>)
    requires CodeInv(ds, pid, m, orig, code) && i < |ds| && !Probes(ds[i], pid) && Probes(d, pid)
    requires Patch.JUMP_SIZE <= d.codeLen <= Patch.ORIGINAL_MAX == |d.code| && Free(ds, pid, d.target, d.codeLen, code)
    requires forall x :: InRange(d, x) ==> x in orig && d.code[x - d.target] == orig[x]
    ensures CodeInv(ds[i := d], pid, Put(m, d.target, JumpOf(d)), orig, code)
  {
    var ds', m' := ds[i := d], Put(m, d.target, JumpOf(d));
    hide JumpOf;
    forall j | 0 <= j < |ds'| && Probes(ds'[j], pid)
      ensures DescOk(ds'[j], m', orig, code)
    {
      if j != i { DescOkPut(ds[j], m, orig, code, d.target, JumpOf(d)); } else { FreshOk(d, m, orig, code); }
    }
    hide DescOk;
    forall x | x in code
      ensures x in m' && x in orig && (Covered(ds', pid, x) || m'[x] == orig[x])
    {
      if InJump(d, x) {
        CoveredBy(ds', pid, x, i);
      } else if Covered(ds, pid, x) {
        var j :| 0 <= j < |ds| && Probes(ds[j], pid) && InJump(ds[j], x);
        CoveredBy(ds', pid, x, j);
      }
    }
  }

  lemma FreshOk(d: Desc, m: Memory, orig: Memory, code: set<int>)
    requires Patch.JUMP_SIZE <= d.codeLen <= Patch.ORIGINAL_MAX == |d.code|
    requires forall x :: InRange(d, x) ==> x in code && x in orig && d.code[x - d.target] == orig[x]
    ensures DescOk(d, Put(m, d.target, JumpOf(d)), orig, code)
  {
    hide JumpOf;
  }

  lemma DetachOthers(ds: Table, i: nat, z: Desc, pid: int, m: Memory, orig: Memory, code: set<int>, back: seq<Byte>)
    requires Others(ds, pid, m, orig, code) && i < |ds| && !Live(z)
    requires |back| == ds[i].codeLen >= Patch.JUMP_SIZE
    requires forall x :: InRange(ds[i], x) ==> x in orig && back[x - ds[i].target] == orig[x]
    ensures Others(ds[i := z], pid, Put(m, ds[i].target, back), orig, code)
  {
    var d, ds', m' := ds[i], ds[i := z], Put(m, ds[i].target, back);
    hide Put;
    forall x | x in code
      ensures x in m' && x in orig && (Covered(ds', pid, x) || m'[x] == orig[x])
    {
      PutAt(m, d.target, back, x);
      if !InRange(d, x) && Covered(ds, pid, x) {
        var j :| 0 <= j < |ds| && Probes(ds[j], pid) && InJump(ds[j], x);
        CoveredBy(ds', pid, x, j);
      }
    }
  }

  lemma DetachCode(ds: Table, i: nat, z: Desc, pid: int, m: Memory, orig: Memory, code: set<int>)
    requires CodeInv(ds, pid, m, orig, code) && i < |ds| && Probes(ds[i], pid) && !Live(z)
    ensures 0 <= ds[i].codeLen <= |ds[i].code|
    ensures CodeInv(ds[i := z], pid, Put(m, ds[i].target, ds[i].code[..ds[i].codeLen]), orig, code)
  {
    hide JumpOf, Put, Others;
    var d, ds' := ds[i], ds[i := z];
    assert DescOk(d, m, orig, code);
    var back := d.code[..d.codeLen];
    assert forall x :: InRange(d, x) ==> back[x - d.target] == orig[x];
    DetachOthers(ds, i, z, pid, m, orig, code, back);
    hide DescOk;
    forall j | 0 <= j < |ds'| && Probes(ds'[j], pid)
      ensures DescOk(ds'[j], Put(m, d.target, back), orig, code)
    {
      assert L.Apart(ds[j].target, ds[j].codeLen, d.target, d.codeLen);
      DescOkPut(ds[j], m, orig, code, d.target, back);
    }
  }

  // ---------------------------------------------------------------- runtime areas and their flags

  function FlagBytes(on: bool): (s: seq<Byte>)
    ensures |s| == 4
  {
    LE(if on then 1 else 0, 4)
  }

  predicate InArea(d: Desc, x: int)
  {
    d.base <= x < d.base + I.AREA
  }

  /** A live probe has an area of its own outside the code, and its flag there is the one in the table. */
  ghost predicate AreaOk(d: Desc, m: Memory, code: set<int>)
  {
    && d.base > 0 && d.size == I.AREA
    && (forall x :: InArea(d, x) ==> x in m && x !in code)
    && (forall k :: 0 <= k < 4 ==> d.base + k in m && m[d.base + k] == FlagBytes(d.enabled)[k])
  }

  ghost predicate AreaInv(ds: Table, pid: int, m: Memory, code: set<int>)
  {
    && (forall i :: 0 <= i < |ds| && Probes(ds[i], pid) ==> AreaOk(ds[i], m, code))
    && (forall i, j :: 0 <= i < j < |ds| && Probes(ds[i], pid) && Probes(ds[j], pid) ==>
          L.Apart(ds[i].base, I.AREA, ds[j].base, I.AREA))
  }

  predicate InAreas(ds: Table, pid: int, x: int)
  {
    exists i :: 0 <= i < |ds| && Probes(ds[i], pid) && InArea(ds[i], x)
  }

  /** What attaching must leave alone: the code, and the areas in use. */
  ghost function KeepSet(ds: Table, pid: int, m: Memory, code: set<int>): set<int>
  {
    set x | x in m.Keys && (x in code || InAreas(ds, pid, x))
  }

  lemma AreaOkKept(d: Desc, m: Memory, m': Memory, code: set<int>)
    requires AreaOk(d, m, code) && forall x :: InArea(d, x) ==> x in m' && m'[x] == m[x]
    ensures AreaOk(d, m', code)
  {
    hide FlagBytes;
    forall k | 0 <= k < 4 ensures d.base + k in m' && m'[d.base + k] == FlagBytes(d.enabled)[k] {
      assert InArea(d, d.base + k);
    }
  }

  lemma AreaKept(ds: Table, pid: int, m: Memory, m': Memory, code: set<int>)
    requires AreaInv(ds, pid, m, code) && I.Keeps(m, m', KeepSet(ds, pid, m, code))
    ensures AreaInv(ds, pid, m', code)
  {
    forall i | 0 <= i < |ds| && Probes(ds[i], pid)
      ensures AreaOk(ds[i], m', code)
    {
      forall x | InArea(ds[i], x) ensures x in m' && m'[x] == m[x] {
        assert InAreas(ds, pid, x);
        assert x in KeepSet(ds, pid, m, code);
      }
      AreaOkKept(ds[i], m, m', code);
    }
  }

  /** A write to the code touches no area. */
  lemma AreaPutCode(ds: Table, pid: int, m: Memory, code: set<int>, addr: int, x: seq<Byte>)
    requires AreaInv(ds, pid, m, code) && forall i :: addr <= i < addr + |x| ==> i in code
    ensures AreaInv(ds, pid, Put(m, addr, x), code)
  {
    hide FlagBytes;
    forall i | 0 <= i < |ds| && Probes(ds[i], pid)
      ensures AreaOk(ds[i], Put(m, addr, x), code)
    {
      AreaOkKept(ds[i], m, Put(m, addr, x), code);
    }
  }

  /** A fresh area is apart from those in use. */
  lemma FreshApart(d: Desc, m: Memory, code: set<int>, base: int)
    requires AreaOk(d, m, code) && forall x :: base <= x < base + I.AREA ==> x !in m
    ensures L.Apart(d.base, I.AREA, base, I.AREA)
  {
    if !L.Apart(d.base, I.AREA, base, I.AREA) {
      var x := if base > d.base then base else d.base;
      assert InArea(d, x);
    }
  }

  lemma AttachArea(ds: Table, i: nat, d: Desc, pid: int, m: Memory, m': Memory, code: set<int>)
    requires AreaInv(ds, pid, m, code) && AreaInv(ds, pid, m', code)
    requires i < |ds| && !Probes(ds[i], pid) && Probes(d, pid) && AreaOk(d, m', code)
    requires forall x :: d.base <= x < d.base + I.AREA ==> x !in m
    ensures AreaInv(ds[i := d], pid, m', code)
  {
    forall j | 0 <= j < |ds| && Probes(ds[j], pid)
      ensures L.Apart(ds[j].base, I.AREA, d.base, I.AREA)
    {
      FreshApart(ds[j], m, code, d.base);
    }
    hide AreaOk;
  }

  /** Setting a flag in the table and in the area alike. */
  lemma FlagArea(ds: Table, i: nat, on: bool, pid: int, m: Memory, code: set<int>)
    requires AreaInv(ds, pid, m, code) && i < |ds| && Probes(ds[i], pid)
    ensures AreaInv(ds[i := ds[i].(enabled := on)], pid, Put(m, ds[i].base, FlagBytes(on)), code)
  {
    hide FlagBytes;
    var ds', m' := ds[i := ds[i].(enabled := on)], Put(m, ds[i].base, FlagBytes(on));
    forall j | 0 <= j < |ds'| && Probes(ds'[j], pid)
      ensures AreaOk(ds'[j], m', code)
    {
      if j != i { AreaOkKept(ds[j], m, m', code); } else { OwnFlag(ds[i], on, m, code); }
    }
    hide AreaOk;
  }

  lemma OwnFlag(d: Desc, on: bool, m: Memory, code: set<int>)
    requires AreaOk(d, m, code)
    ensures AreaOk(d.(enabled := on), Put(m, d.base, FlagBytes(on)), code)
  {
    hide FlagBytes;
    var d', m' := d.(enabled := on), Put(m, d.base, FlagBytes(on));
    forall x | InArea(d', x) ensures x in m' && x !in code { assert InArea(d, x); }
  }

  /** Dropping a probe, its area mapped or not. */
  lemma DetachArea(ds: Table, i: nat, z: Desc, pid: int, m: Memory, m': Memory, code: set<int>)
    requires AreaInv(ds, pid, m, code) && i < |ds| && !Live(z)
    requires I.Keeps(m, m', KeepSet(ds[i := z], pid, m, code))
    ensures AreaInv(ds[i := z], pid, m', code)
  {
    hide AreaOk;
    assert AreaInv(ds[i := z], pid, m, code);
    AreaKept(ds[i := z], pid, m, m', code);
  }
}
