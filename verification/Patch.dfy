/** Redirecting a function to its entry stub: the five-byte jump, reading the code it will cover,
    writing it, and putting the original back. */
module Patch {
  import opened Wrappers
  import opened X86
  import opened RemoteMem
  import A = Assembler
  import D = Decoder

  const JUMP_SIZE: nat := 5
  const ORIGINAL_MAX: nat := 32

  /** A machine word as a signed number. */
  function S64(x: int): int
  {
    if W64(x) < 0x8000_0000_0000_0000 then W64(x) else W64(x) - 0x1_0000_0000_0000_0000
  }

  /** The displacement of a jump at `from` to `to`. */
  function Displacement(from: Word, to: Word): int
  {
    S64(to) - S64(from + JUMP_SIZE)
  }

  predicate InReach(from: Word, to: Word)
  {
    -0x8000_0000 <= Displacement(from, to) <= 0x7FFF_FFFF
  }

  /** jmp rel32 */
  function RelJmp(from: Word, to: Word): (s: seq<Byte>)
    ensures |s| == JUMP_SIZE
  {
    [0xE9] + LE(W32(Displacement(from, to)), 4)
  }

  /** Where a jmp rel32 at `at` goes. */
  function JumpsTo(at: Word, code: seq<Byte>): Option<Word>
  {
    if |code| == JUMP_SIZE && code[0] == 0xE9 then Some(W64(at + JUMP_SIZE + A.Signed32(code[1..]))) else None
  }

  /** The jump lands where it should, forward or backward, whenever the target is in reach. */
  lemma RelJmpLands(from: Word, to: Word)
    requires InReach(from, to) && to < 0x1_0000_0000_0000_0000
    ensures JumpsTo(from, RelJmp(from, to)) == Some(to)
  {
    hide LE, A.Signed32, S64;
    var d := Displacement(from, to);
    A.Rel32RoundTrips(d, 0);
    assert RelJmp(from, to)[1..] == A.Rel32(d, 0);
    SignedSum(from + JUMP_SIZE, to);
  }

  lemma SignedSum(a: nat, b: nat)
    requires b < 0x1_0000_0000_0000_0000
    ensures W64(a + (S64(b) - S64(a))) == b
  {
  }

  /** Success, ERANGE, EOVERFLOW, EINVAL, or what a transfer failed with. */
  datatype Error = Ok | OutOfReach | Overflow | Invalid | Remote(e: Errno)

  /** lp_x86_64_make_rel_jmp */
  method MakeRelJmp(from: Word, to: Word, out: array<Byte>) returns (e: Error)
    requires out.Length == JUMP_SIZE
    modifies out
    ensures e.Ok? <==> InReach(from, to)
    ensures e.Ok? ==> out[..] == RelJmp(from, to)
    ensures !e.Ok? ==> e == OutOfReach && out[..] == old(out[..])
  {
    var rel := S64(to) - S64(from + JUMP_SIZE);
    if rel < -0x8000_0000 || rel > 0x7FFF_FFFF {
      return OutOfReach;
    }
    out[0] := 0xE9;
    var bytes := LE(W32(rel), 4);
    forall i | 0 <= i < 4 {
      out[1 + i] := bytes[i];
    }
    assert out[..] == RelJmp(from, to);
    e := Ok;
  }

  /** lp_x86_64_read_original_code: the whole instructions that the jump will touch. For the jump alone
      they are 5 to 19 bytes. It fails only when too much is wanted, when the transfer fails, or when the window
      has no instruction ending where one is wanted; the overflow exits cannot be taken. */
  method ReadOriginalCode(t: Tracee, pid: int, target: Word, wanted: int)
    returns (e: Error, code: seq<Byte>, ghost got: Errno, ghost asked: seq<Response>)
    modifies t`log
    ensures t.log == old(t.log) + asked
    ensures if wanted > ORIGINAL_MAX then e == Invalid && asked == [] && got == EINVAL
            else exists n :: ReadGoes(pid, target, ORIGINAL_MAX, asked, got, n)
    ensures wanted <= ORIGINAL_MAX ==> (e == Remote(got) <==> got != Fine)
    ensures got == Fine ==>
              && Mapped(t.mem, target, ORIGINAL_MAX)
              && var window := Slice(t.mem, target, ORIGINAL_MAX);
              e == if D.EndsWithin(window, Least(wanted), ORIGINAL_MAX) then Ok else Invalid
    ensures e.Ok? ==>
              && Mapped(t.mem, target, ORIGINAL_MAX)
              && var window := Slice(t.mem, target, ORIGINAL_MAX);
              && Least(wanted) <= |code| <= ORIGINAL_MAX && code == window[..|code|] && D.Boundary(window, |code|)
              && forall m :: Least(wanted) <= m < |code| ==> !D.Boundary(window, m)
    ensures wanted <= JUMP_SIZE && e.Ok? ==> |code| <= 19
  {
    hide D.Boundary, Slice, ReadGoes;
    code, got, asked := [], EINVAL, [];
    var least := if wanted < JUMP_SIZE then JUMP_SIZE else wanted;
    if least > ORIGINAL_MAX {
      return Invalid, code, got, asked;
    }
    var window := new Byte[ORIGINAL_MAX](i => 0);
    var err;
    ghost var done;
    err, done, asked := t.RemoteRead(pid, target, window);
    got := err;
    if err != Fine {
      return Remote(err), code, got, asked;
    }
    var n := D.CalcPatchLen(window[..], least);
    match n {
      case BadCode => return Invalid, code, got, asked;
      case TooLong => return Overflow, code, got, asked;
      case Len(len) =>
        if len > ORIGINAL_MAX {
          return Overflow, code, got, asked;
        }
        return Ok, window[..len], got, asked;
    }
  }

  function Least(wanted: int): nat
  {
    if wanted < JUMP_SIZE then JUMP_SIZE else wanted
  }

  /** How the write that an answer of this module stands for went. */
  function Went(w: Errno): Error
  {
    if w == Fine then Ok else Remote(w)
  }

  /** lp_x86_64_patch_entry */
  method PatchEntry(t: Tracee, pid: int, target: Word, stub: Word, originalLen: int)
    returns (e: Error, ghost done: nat, ghost asked: seq<Response>)
    modifies t
    ensures t.log == old(t.log) + asked
    ensures e == Invalid <==> originalLen < JUMP_SIZE
    ensures e == OutOfReach <==> originalLen >= JUMP_SIZE && !InReach(target, stub)
    ensures if originalLen < JUMP_SIZE || !InReach(target, stub) then asked == [] && done == 0
            else exists w :: WriteGoes(pid, target, JUMP_SIZE, asked, w, done) && e == Went(w)
    ensures e.Ok? <==> done == JUMP_SIZE
    ensures done <= JUMP_SIZE && Mapped(old(t.mem), target, done)
    ensures t.mem == Put(old(t.mem), target, RelJmp(target, stub)[..done])
  {
    hide Put, LE, WriteGoes, Displacement;
    done, asked := 0, [];
    PutNothing(t.mem, target, RelJmp(target, stub)[..0]);
    if originalLen < JUMP_SIZE {
      return Invalid, 0, [];
    }
    var patch := new Byte[JUMP_SIZE](i => 0);
    e := MakeRelJmp(target, stub, patch);
    if !e.Ok? {
      return e, 0, [];
    }
    var w;
    w, done, asked := t.RemoteWrite(pid, target, patch[..]);
    e := Went(w);
  }

  /** lp_x86_64_restore_entry */
  method RestoreEntry(t: Tracee, pid: int, target: Word, code: seq<Byte>, originalLen: int)
    returns (e: Error, ghost done: nat, ghost asked: seq<Response>)
    requires |code| == ORIGINAL_MAX
    modifies t
    ensures t.log == old(t.log) + asked
    ensures e == Invalid <==> originalLen <= 0 || originalLen > ORIGINAL_MAX
    ensures if e == Invalid then asked == [] && done == 0
            else exists w :: WriteGoes(pid, target, originalLen, asked, w, done) && e == Went(w)
    ensures e.Ok? ==> done == originalLen && t.mem == Put(old(t.mem), target, code[..originalLen])
    ensures done <= ORIGINAL_MAX && t.mem == Put(old(t.mem), target, code[..done])
  {
    hide Put, WriteGoes;
    done, asked := 0, [];
    PutNothing(t.mem, target, code[..0]);
    if originalLen <= 0 || originalLen > ORIGINAL_MAX {
      return Invalid, 0, [];
    }
    var w;
    w, done, asked := t.RemoteWrite(pid, target, code[..originalLen]);
    assert code[..originalLen][..done] == code[..done];
    e := Went(w);
  }
}
