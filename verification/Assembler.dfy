/** Putting a block program into bytes: offsets, holes for jump displacements, and what the
    displacements must be. */
module Assembler {
  import opened X86

  /** A block up to the displacement of its jump. */
  function BlockBytes(k: Consts, x: Block): seq<Byte>
  {
    EncCode(k, x.body) + OpBytes(x.term)
  }

  function RelSize(t: Term): nat
  {
    if HasRel(t) then 4 else 0
  }

  /** Where block `b` starts. */
  function Offset(k: Consts, stub: nat -> Block, b: nat): nat
  {
    if b == 0 then 0 else
    Offset(k, stub, b - 1) + |BlockBytes(k, stub(b - 1))| + RelSize(stub(b - 1).term)
  }

  /** The first |rels| blocks, each followed by the displacement given for it. */
  function Asm(k: Consts, stub: nat -> Block, rels: seq<seq<Byte>>): seq<Byte>
    decreases |rels|
  {
    if rels == [] then [] else
    var b := |rels| - 1;
    Asm(k, stub, rels[..b]) + BlockBytes(k, stub(b)) + rels[b]
  }

  ghost predicate Shaped(stub: nat -> Block, rels: seq<seq<Byte>>)
  {
    forall b: nat :: b < |rels| ==> |rels[b]| == RelSize(stub(b).term)
  }

  lemma {:induction false} AsmLength(k: Consts, stub: nat -> Block, rels: seq<seq<Byte>>)
    requires Shaped(stub, rels)
    ensures |Asm(k, stub, rels)| == Offset(k, stub, |rels|)
    decreases |rels|
  {
    if rels != [] {
      AsmLength(k, stub, rels[..|rels| - 1]);
    }
  }

  lemma {:induction false} OffsetMonotone(k: Consts, stub: nat -> Block, a: nat, b: nat)
    requires a <= b
    ensures Offset(k, stub, a) <= Offset(k, stub, b)
    decreases b - a
  {
    if a < b {
      OffsetMonotone(k, stub, a, b - 1);
    }
  }

  function Overwrite<T>(s: seq<T>, at: nat, v: seq<T>): seq<T>
    requires at + |v| <= |s|
  {
    s[..at] + v + s[at + |v|..]
  }

  lemma OverwriteLow<T>(low: seq<T>, high: seq<T>, at: nat, v: seq<T>)
    requires at + |v| <= |low|
    ensures Overwrite(low + high, at, v) == Overwrite(low, at, v) + high
  {
  }

  lemma OverwriteHigh<T>(low: seq<T>, high: seq<T>, v: seq<T>)
    requires |v| == |high|
    ensures Overwrite(low + high, |low|, v) == low + v
  {
  }

  lemma SliceLow<T>(low: seq<T>, high: seq<T>, a: nat, b: nat)
    requires a <= b <= |low|
    ensures (low + high)[a..b] == low[a..b]
  {
  }

  lemma SliceHigh<T>(low: seq<T>, high: seq<T>)
    ensures (low + high)[|low|..] == high
  {
  }

  lemma AsmSnoc(k: Consts, stub: nat -> Block, rels: seq<seq<Byte>>)
    requires Shaped(stub, rels) && rels != []
    ensures var b := |rels| - 1; var low := Asm(k, stub, rels[..b]); var here := BlockBytes(k, stub(b));
            && Asm(k, stub, rels) == low + here + rels[b] == low + (here + rels[b])
            && |low| == Offset(k, stub, b) && |low + here + rels[b]| == Offset(k, stub, b + 1)
  {
    hide BlockBytes;
    var b := |rels| - 1;
    AsmLength(k, stub, rels[..b]);
    Assoc(Asm(k, stub, rels[..b]), BlockBytes(k, stub(b)), rels[b]);
  }

  lemma Assoc<T>(a: seq<T>, b: seq<T>, c: seq<T>)
    ensures a + b + c == a + (b + c)
  {
  }

  lemma AsmExtend(k: Consts, stub: nat -> Block, rels: seq<seq<Byte>>, r: seq<Byte>)
    requires Shaped(stub, rels) && |r| == RelSize(stub(|rels|).term)
    ensures Shaped(stub, rels + [r])
    ensures Asm(k, stub, rels + [r]) == Asm(k, stub, rels) + BlockBytes(k, stub(|rels|)) + r
  {
    hide BlockBytes;
    assert (rels + [r])[..|rels|] == rels;
  }

  lemma OverwriteIs<T>(s: seq<T>, at: nat, v: seq<T>, t: seq<T>)
    requires at + |v| <= |s| == |t|
    requires forall i :: 0 <= i < |v| ==> t[at + i] == v[i]
    requires forall i :: 0 <= i < |s| && !(at <= i < at + |v|) ==> t[i] == s[i]
    ensures t == Overwrite(s, at, v)
  {
    assert forall i :: at <= i < at + |v| ==> t[i] == t[at + (i - at)];
  }

  /** Writing over one hole changes that displacement and nothing else. */
  lemma {:induction false} AsmPatch(k: Consts, stub: nat -> Block, rels: seq<seq<Byte>>, b: nat, v: seq<Byte>)
    requires Shaped(stub, rels) && b < |rels| && |v| == |rels[b]|
    ensures 0 <= Offset(k, stub, b + 1) - |v|
    ensures Offset(k, stub, b + 1) <= |Asm(k, stub, rels)|
    ensures Overwrite(Asm(k, stub, rels), Offset(k, stub, b + 1) - |v|, v) == Asm(k, stub, rels[b := v])
    decreases |rels|
  {
    hide Overwrite, Asm, Offset, BlockBytes;
    var n := |rels| - 1;
    var low, here := Asm(k, stub, rels[..n]), BlockBytes(k, stub(n));
    AsmSnoc(k, stub, rels);
    AsmSnoc(k, stub, rels[b := v]);
    if b == n {
      assert rels[b := v][..n] == rels[..n];
      OverwriteHigh(low + here, rels[n], v);
    } else {
      assert rels[b := v][..n] == rels[..n][b := v];
      AsmPatch(k, stub, rels[..n], b, v);
      OverwriteLow(low, here + rels[n], Offset(k, stub, b + 1) - |v|, v);
    }
  }

  // ---------------------------------------------------------------- displacements

  function Target(t: Term): nat
    requires HasRel(t)
  {
    match t case Goto(b) => b case IfGoto(_, b) => b
  }

  /** A 32-bit displacement from `from` to `to`. */
  function Rel32(to: int, from: int): seq<Byte>
  {
    LE(W32(to - from), 4)
  }

  function Join4(a: int, b: int, c: int, d: int): int
  {
    a + 256 * b + 65536 * c + 16777216 * d
  }

  /** What the processor reads: four bytes, sign extended. */
  function Signed32(s: seq<Byte>): int
    requires |s| == 4
  {
    var u := Join4(s[0], s[1], s[2], s[3]);
    if u >= 0x8000_0000 then u - 0x1_0000_0000 else u
  }

  lemma LE4(v: nat)
    requires v < 0x1_0000_0000
    ensures var s := LE(v, 4);
            && s == [v % 256, v / 256 % 256, v / 256 / 256 % 256, v / 256 / 256 / 256 % 256]
            && Join4(s[0], s[1], s[2], s[3]) == v
  {
    assert LE(v, 4) == [v % 256] + LE(v / 256, 3);
    assert LE(v / 256, 3) == [v / 256 % 256] + LE(v / 256 / 256, 2);
    assert LE(v / 256 / 256, 2) == [v / 256 / 256 % 256] + LE(v / 256 / 256 / 256, 1);
    assert LE(v / 256 / 256 / 256, 1) == [v / 256 / 256 / 256 % 256];
  }

  lemma Rel32RoundTrips(to: int, from: int)
    requires -0x8000_0000 <= to - from < 0x8000_0000
    ensures Signed32(Rel32(to, from)) == to - from
  {
    hide LE, Join4;
    var v := W32(to - from);
    assert v == if to < from then to - from + 0x1_0000_0000 else to - from;
    LE4(v);
  }

  /** The displacements of a whole program. */
  function RelOf(k: Consts, stub: nat -> Block, b: nat): seq<Byte>
  {
    var t := stub(b).term;
    if HasRel(t) then Rel32(Offset(k, stub, Target(t)), Offset(k, stub, b + 1)) else []
  }

  function Rels(k: Consts, stub: nat -> Block, n: nat): (r: seq<seq<Byte>>)
    ensures |r| == n && Shaped(stub, r)
  {
    seq(n, (b: nat) => RelOf(k, stub, b))
  }

  function Assembled(k: Consts, stub: nat -> Block, n: nat): seq<Byte>
  {
    Asm(k, stub, Rels(k, stub, n))
  }

  /** Block `b` lies at its offset, and its displacement right before the next block. */
  lemma {:induction false} AsmAt(k: Consts, stub: nat -> Block, rels: seq<seq<Byte>>, b: nat)
    requires Shaped(stub, rels) && b < |rels|
    ensures Offset(k, stub, b) <= Offset(k, stub, b + 1) <= |Asm(k, stub, rels)|
    ensures Asm(k, stub, rels)[Offset(k, stub, b)..Offset(k, stub, b + 1)] == BlockBytes(k, stub(b)) + rels[b]
    decreases |rels|
  {
    hide Asm, Offset, BlockBytes;
    var n := |rels| - 1;
    var low, here := Asm(k, stub, rels[..n]), BlockBytes(k, stub(n));
    AsmSnoc(k, stub, rels);
    OffsetMonotone(k, stub, b, b + 1);
    if b < n {
      AsmAt(k, stub, rels[..n], b);
      SliceLow(low, here + rels[n], Offset(k, stub, b), Offset(k, stub, b + 1));
    } else {
      SliceHigh(low, here + rels[n]);
    }
  }

  /** Every jump of an assembled program, forward or backward: the place after its displacement plus
      the displacement, read as the processor reads it, is the start of the block it names. */
  lemma JumpsHit(k: Consts, stub: nat -> Block, n: nat, b: nat)
    requires b < n && HasRel(stub(b).term) && Target(stub(b).term) <= n && Offset(k, stub, n) < 0x8000_0000
    ensures var code := Assembled(k, stub, n); var imm := Offset(k, stub, b + 1) - 4;
            && 0 <= imm && imm + 4 <= |code|
            && imm + 4 + Signed32(code[imm..imm + 4]) == Offset(k, stub, Target(stub(b).term))
  {
    hide Asm, BlockBytes, Offset, Signed32, Rel32;
    var code, rels := Assembled(k, stub, n), Rels(k, stub, n);
    var lo, hi := Offset(k, stub, b), Offset(k, stub, b + 1);
    AsmAt(k, stub, rels, b);
    var here := BlockBytes(k, stub(b));
    SliceHigh(here, rels[b]);
    assert |code[lo..hi]| == |here| + 4;
    assert code[lo..hi][hi - 4 - lo..] == code[hi - 4..hi];
    OffsetMonotone(k, stub, Target(stub(b).term), n);
    OffsetMonotone(k, stub, b + 1, n);
    Rel32RoundTrips(Offset(k, stub, Target(stub(b).term)), hi);
  }
}
