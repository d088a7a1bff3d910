/** Reading and writing a stopped process: the one-shot transfer, and word by word with a
    read-modify-write tail when the kernel refuses that. */
module RemoteMem {
  import opened Wrappers
  import opened X86

  /** The mapped bytes of a process. */
  type Memory = map<int, Byte>

  predicate Mapped(m: Memory, addr: int, len: nat)
  {
    forall i :: addr <= i < addr + len ==> i in m
  }

  function Slice(m: Memory, addr: int, len: nat): (s: seq<Byte>)
    requires Mapped(m, addr, len)
    ensures |s| == len && forall i :: 0 <= i < len ==> s[i] == m[addr + i]
  {
    seq(len, i requires 0 <= i < len => m[addr + i])
  }

  /** These bytes are at this address. */
  predicate Fetches(m: Memory, at: Word, bytes: seq<Byte>)
  {
    Mapped(m, at, |bytes|) && Slice(m, at, |bytes|) == bytes
  }

  function Stretch(addr: int, len: nat): (s: set<int>)
    ensures forall i :: i in s <==> addr <= i < addr + len
  {
    if len == 0 then {} else Stretch(addr, len - 1) + {addr + len - 1}
  }

  function Put(m: Memory, addr: int, bytes: seq<Byte>): Memory
  {
    map i | i in m.Keys + Stretch(addr, |bytes|) ::
      if addr <= i < addr + |bytes| then bytes[i - addr] else m[i]
  }

  // ---------------------------------------------------------------- laws

  /** A write changes its own bytes and no others. */
  lemma PutAt(m: Memory, addr: int, bytes: seq<Byte>, x: int)
    ensures addr <= x < addr + |bytes| ==> x in Put(m, addr, bytes) && Put(m, addr, bytes)[x] == bytes[x - addr]
    ensures !(addr <= x < addr + |bytes|) ==>
              (x in Put(m, addr, bytes) <==> x in m) && (x in m ==> Put(m, addr, bytes)[x] == m[x])
  {
  }

  /** Reading back gives what was written. */
  lemma ReadAfterWrite(m: Memory, addr: int, bytes: seq<Byte>)
    ensures Mapped(Put(m, addr, bytes), addr, |bytes|)
    ensures Slice(Put(m, addr, bytes), addr, |bytes|) == bytes
  {
  }

  /** Writing back what was read undoes any write to the same bytes. */
  lemma WriteBack(m: Memory, addr: int, bytes: seq<Byte>, n: nat)
    requires |bytes| <= n && Mapped(m, addr, n)
    ensures Put(Put(m, addr, bytes), addr, Slice(m, addr, n)) == m
  {
  }

  /** Writes to separate stretches commute. */
  lemma PutsCommute(m: Memory, a: int, x: seq<Byte>, b: int, y: seq<Byte>)
    requires a + |x| <= b || b + |y| <= a
    ensures Put(Put(m, a, x), b, y) == Put(Put(m, b, y), a, x)
  {
  }

  lemma PutConcat(m: Memory, addr: int, x: seq<Byte>, y: seq<Byte>)
    ensures Put(Put(m, addr, x), addr + |x|, y) == Put(m, addr, x + y)
  {
  }

  /** The tail: a word made of new bytes and of the old ones after them. */
  lemma PutTail(m: Memory, addr: int, x: seq<Byte>, n: nat)
    requires |x| <= n && Mapped(m, addr, n)
    ensures Put(m, addr, x + Slice(m, addr, n)[|x|..]) == Put(m, addr, x)
  {
  }

  lemma PutNothing(m: Memory, addr: int, x: seq<Byte>)
    requires x == []
    ensures Put(m, addr, x) == m
  {
  }

  lemma PutKeys(m: Memory, addr: int, x: seq<Byte>)
    requires Mapped(m, addr, |x|)
    ensures Put(m, addr, x).Keys == m.Keys
  {
  }

  // ---------------------------------------------------------------- what the kernel is asked

  datatype Errno = Fine | EINVAL | EIO | Kernel

  const WORD: nat := 8

  datatype UserRegs = UserRegs(r: Regs, rip: Word, flags: Word)

  /** One request to the kernel, and what it answered. A vector call answers a number of bytes, or -1. */
  datatype Response =
    | WroteV(addr: Word, len: nat, n: int)
    | ReadFromV(addr: Word, len: nat, n: int)
    | Peeked(addr: Word, ok: bool)
    | Poked(addr: Word, ok: bool)
    | GotRegs(ok: bool)
    | PutRegs(u: UserRegs, ok: bool)
    | Continued(ok: bool, trap: bool)         // resumed and waited for; whether it stopped with SIGTRAP
    | Mmapped(len: nat, base: Option<Word>)
    | Unmapped(addr: Word, len: nat, ok: bool)
    | Stopped(pid: int, ok: bool)             // all threads of a process
    | Resumed(pid: int)
    | Saved(ok: bool)                         // the state file

  predicate Refused(a: Response)
  {
    match a
    case WroteV(_, len, n) => n != len
    case ReadFromV(_, len, n) => n != len
    case Peeked(_, ok) => !ok
    case Poked(_, ok) => !ok
    case GotRegs(ok) => !ok
    case PutRegs(_, ok) => !ok
    case Continued(ok, trap) => !ok || !trap
    case Mmapped(_, base) => base.None?
    case Unmapped(_, _, ok) => !ok
    case Stopped(_, ok) => !ok
    case Resumed(_) => false
    case Saved(ok) => !ok
  }

  /** The last request was refused. */
  predicate EndsRefused(asked: seq<Response>)
  {
    asked != [] && Refused(asked[|asked| - 1])
  }

  /** What writing word by word asks for from an offset on, all of it granted: a poke for each whole word, and
      for the rest a peek and a poke. */
  function WriteWords(addr: Word, from: nat, len: nat): seq<Response>
    decreases len - from
  {
    if from >= len then []
    else if from + WORD <= len then [Poked(addr + from, true)] + WriteWords(addr, from + WORD, len)
    else [Peeked(addr + from, true), Poked(addr + from, true)]
  }

  /** The same for reading: a peek for each word begun. */
  function ReadWords(addr: Word, from: nat, len: nat): seq<Response>
    decreases len - from
  {
    if from >= len then [] else [Peeked(addr + from, true)] + ReadWords(addr, from + WORD, len)
  }

  /** As far as the first refusal, which is of request `k`. */
  predicate BrokenAt(asked: seq<Response>, all: seq<Response>, k: nat)
  {
    && k < |all| && (all[k].Peeked? || all[k].Poked?)
    && asked == all[..k] + [if all[k].Peeked? then Peeked(all[k].addr, false) else Poked(all[k].addr, false)]
  }

  /** Pokes granted among the first k requests. */
  function PokesIn(all: seq<Response>, k: nat): nat
    requires k <= |all|
  {
    if k == 0 then 0 else PokesIn(all, k - 1) + if all[k - 1].Poked? then 1 else 0
  }

  predicate BadTransfer(pid: int, addr: Word, len: nat)
  {
    pid <= 0 || addr == 0 || len == 0
  }

  /** The whole account of a write: which answers lead to which result, and how many bytes were written. */
  ghost predicate WriteGoes(pid: int, addr: Word, len: nat, asked: seq<Response>, e: Errno, done: nat)
  {
    if BadTransfer(pid, addr, len) then asked == [] && e == EINVAL && done == 0 else
    && asked != [] && asked[0].WroteV? && asked[0] == WroteV(addr, len, asked[0].n) && -1 <= asked[0].n <= len
    && var n, rest, all := asked[0].n, asked[1..], WriteWords(addr, 0, len);
    if n >= 0 then rest == [] && e == (if n == len then Fine else EIO) && done == n
    else (rest == all && e == Fine && done == len) ||
         (e == Kernel && exists k: nat :: BrokenAt(rest, all, k) && done == WORD * PokesIn(all, k))
  }

  /** The same of a read; `done` counts the bytes read. */
  ghost predicate ReadGoes(pid: int, addr: Word, len: nat, asked: seq<Response>, e: Errno, done: nat)
  {
    if BadTransfer(pid, addr, len) then asked == [] && e == EINVAL && done == 0 else
    && asked != [] && asked[0].ReadFromV? && asked[0] == ReadFromV(addr, len, asked[0].n) && -1 <= asked[0].n <= len
    && var n, rest, all := asked[0].n, asked[1..], ReadWords(addr, 0, len);
    if n >= 0 then rest == [] && e == (if n == len then Fine else EIO) && done == n
    else (rest == all && e == Fine && done == len) ||
         (e == Kernel && exists k: nat :: BrokenAt(rest, all, k) && done == WORD * k)
  }

  lemma {:induction false} WordsGranted(addr: Word, from: nat, len: nat)
    ensures forall i :: 0 <= i < |WriteWords(addr, from, len)| ==>
              var a := WriteWords(addr, from, len)[i]; !Refused(a) && (a.Peeked? || a.Poked?)
    ensures from < len ==> WriteWords(addr, from, len) != []
    decreases len - from
  {
    if from < len { WordsGranted(addr, from + WORD, len); }
  }

  lemma {:induction false} PeeksGranted(addr: Word, from: nat, len: nat)
    ensures forall i :: 0 <= i < |ReadWords(addr, from, len)| ==>
              var a := ReadWords(addr, from, len)[i]; !Refused(a) && a.Peeked?
    ensures from < len ==> ReadWords(addr, from, len) != []
    decreases len - from
  {
    if from < len { PeeksGranted(addr, from + WORD, len); }
  }

  /** How a write went can be told from the last answer; only a transfer that is refused unasked has none. */
  lemma WriteEnds(pid: int, addr: Word, len: nat, asked: seq<Response>, e: Errno, done: nat)
    requires WriteGoes(pid, addr, len, asked, e, done)
    ensures (asked == [] <==> BadTransfer(pid, addr, len)) && (asked == [] ==> e == EINVAL)
    ensures asked != [] ==> (EndsRefused(asked) <==> e != Fine) && !asked[|asked| - 1].PutRegs?
  {
    hide WriteWords, PokesIn;
    WordsGranted(addr, 0, len);
    if asked != [] && |asked| > 1 { assert asked[1..][|asked| - 2] == asked[|asked| - 1]; }
  }

  lemma ReadEnds(pid: int, addr: Word, len: nat, asked: seq<Response>, e: Errno, done: nat)
    requires ReadGoes(pid, addr, len, asked, e, done)
    ensures (asked == [] <==> BadTransfer(pid, addr, len)) && (asked == [] ==> e == EINVAL)
    ensures asked != [] ==> (EndsRefused(asked) <==> e != Fine) && !asked[|asked| - 1].PutRegs?
  {
    hide ReadWords;
    PeeksGranted(addr, 0, len);
    if asked != [] && |asked| > 1 { assert asked[1..][|asked| - 2] == asked[|asked| - 1]; }
  }

  /** The answers decide the outcome of a write, and how many bytes it wrote. */
  lemma WriteDecided(pid: int, addr: Word, len: nat, asked: seq<Response>, e: Errno, done: nat, e': Errno, done': nat)
    requires WriteGoes(pid, addr, len, asked, e, done) && WriteGoes(pid, addr, len, asked, e', done')
    ensures e == e' && done == done'
  {
    hide WriteWords, PokesIn;
    WriteEnds(pid, addr, len, asked, e, done);
    WriteEnds(pid, addr, len, asked, e', done');
    if e == Kernel && e' == Kernel {
      var all := WriteWords(addr, 0, len);
      var j: nat :| BrokenAt(asked[1..], all, j) && done == WORD * PokesIn(all, j);
      var k: nat :| BrokenAt(asked[1..], all, k) && done' == WORD * PokesIn(all, k);
      assert j == k == |asked| - 2;
    }
  }

  // ---------------------------------------------------------------- the calls

  /** A stopped process, and the history of what the kernel was asked about it. What the kernel answers is not
      determined; a call that succeeds does what it says on mapped bytes. */
  class Tracee {
    var mem: Memory
    ghost var log: seq<Response>

    constructor (mem: Memory)
      ensures this.mem == mem && log == []
    {
      this.mem := mem;
      log := [];
    }

    /** process_vm_writev of one stretch: the number of bytes written, or -1. */
    method WriteV(addr: Word, bytes: seq<Byte>) returns (n: int)
      modifies this
      ensures -1 <= n <= |bytes| && log == old(log) + [WroteV(addr, |bytes|, n)]
      ensures n >= 0 ==> Mapped(old(mem), addr, n) && mem == Put(old(mem), addr, bytes[..n])
      ensures n < 0 ==> mem == old(mem)
    {
      n := *;
      if 0 <= n <= |bytes| && forall i :: addr <= i < addr + n ==> i in mem {
        mem := Put(mem, addr, bytes[..n]);
      } else {
        n := -1;
      }
      log := log + [WroteV(addr, |bytes|, n)];
    }

    /** process_vm_readv of one stretch. */
    method ReadV(addr: Word, len: nat) returns (n: int, bytes: seq<Byte>)
      modifies this`log
      ensures -1 <= n <= len && log == old(log) + [ReadFromV(addr, len, n)]
      ensures n >= 0 ==> Mapped(mem, addr, n) && bytes == Slice(mem, addr, n)
    {
      n := *;
      bytes := [];
      if 0 <= n <= len && forall i :: addr <= i < addr + n ==> i in mem {
        bytes := Slice(mem, addr, n);
      } else {
        n := -1;
      }
      log := log + [ReadFromV(addr, len, n)];
    }

    /** PTRACE_PEEKDATA: eight bytes. */
    method Peek(addr: Word) returns (ok: bool, word: seq<Byte>)
      modifies this`log
      ensures |word| == WORD && log == old(log) + [Peeked(addr, ok)]
      ensures ok ==> Mapped(mem, addr, WORD) && word == Slice(mem, addr, WORD)
    {
      ok := *;
      word := seq(WORD, i => 255);
      if ok && forall i :: addr <= i < addr + WORD ==> i in mem {
        word := Slice(mem, addr, WORD);
      } else {
        ok := false;
      }
      log := log + [Peeked(addr, ok)];
    }

    /** PTRACE_POKEDATA: eight bytes. */
    method Poke(addr: Word, word: seq<Byte>) returns (ok: bool)
      requires |word| == WORD
      modifies this
      ensures log == old(log) + [Poked(addr, ok)]
      ensures ok ==> Mapped(old(mem), addr, WORD) && mem == Put(old(mem), addr, word)
      ensures !ok ==> mem == old(mem)
    {
      ok := *;
      if ok && forall i :: addr <= i < addr + WORD ==> i in mem {
        mem := Put(mem, addr, word);
      } else {
        ok := false;
      }
      log := log + [Poked(addr, ok)];
    }

    /** lp_stop_all_threads */
    method StopAll(pid: int) returns (ok: bool)
      modifies this`log
      ensures log == old(log) + [Stopped(pid, ok)]
    {
      ok := *;
      log := log + [Stopped(pid, ok)];
    }

    /** lp_resume_all_threads, whose answer nobody looks at. */
    method ResumeAll(pid: int)
      modifies this`log
      ensures log == old(log) + [Resumed(pid)]
    {
      log := log + [Resumed(pid)];
    }

    /** remote_write. On success exactly the named bytes have changed, whichever way they went; on failure a
        prefix has. The ghost result `asked` is what the kernel was asked for, and with its answers decides which
        of these it is: a vector call that wrote all, or one that was refused outright and then every peek and
        poke that the words need. */
    method RemoteWrite(pid: int, addr: Word, src: seq<Byte>)
      returns (e: Errno, ghost done: nat, ghost asked: seq<Response>)
      modifies this
      ensures log == old(log) + asked && WriteGoes(pid, addr, |src|, asked, e, done)
      ensures e == EINVAL <==> BadTransfer(pid, addr, |src|)
      ensures e == EIO || e == Kernel <==> EndsRefused(asked)
      ensures done <= |src| && mem == Put(old(mem), addr, src[..done]) && Mapped(old(mem), addr, done)
      ensures e == Fine ==> done == |src| && mem == Put(old(mem), addr, src)
      ensures e == EINVAL ==> done == 0 && mem == old(mem)
      ensures e == Kernel ==> done % WORD == 0
      ensures e != Fine && e != EINVAL ==> done < |src|
      ensures mem.Keys == old(mem).Keys
    {
      hide Put, Slice, WriteWords, PokesIn;
      done, asked := 0, [];
      PutNothing(mem, addr, src[..0]);
      if pid <= 0 || addr == 0 || |src| == 0 {
        return EINVAL, 0, [];
      }
      assert src[..|src|] == src;
      var n := WriteV(addr, src);
      if n >= 0 {
        PutKeys(old(mem), addr, src[..n]);
        return (if n == |src| then Fine else EIO), n, [WroteV(addr, |src|, n)];
      }
      var ok;
      ok, done, asked := WriteByWords(addr, src);
      asked := [WroteV(addr, |src|, -1)] + asked;
      assert asked[1..] == log[|old(log)| + 1..];
      return (if ok then Fine else Kernel), done, asked;
    }

    /** One turn of its loop: a whole word, or the last bytes with the old ones after them. */
    method WriteWord(addr: Word, part: seq<Byte>) returns (ok: bool, ghost asked: seq<Response>)
      requires 0 < |part| <= WORD
      modifies this
      ensures log == old(log) + asked
      ensures asked == if |part| == WORD then [Poked(addr, ok)]
                       else if |asked| == 1 then [Peeked(addr, ok)] else [Peeked(addr, true), Poked(addr, ok)]
      ensures |part| < WORD ==> (ok ==> |asked| == 2)
      ensures ok ==> Mapped(old(mem), addr, |part|) && mem == Put(old(mem), addr, part)
      ensures !ok ==> mem == old(mem)
      ensures mem.Keys == old(mem).Keys
    {
      hide Put, Slice;
      asked := [];
      var data := seq(WORD, j => 0);
      if |part| < WORD {
        ok, data := Peek(addr);
        asked := [Peeked(addr, ok)];
        if !ok { return; }
      }
      ok := Poke(addr, part + data[|part|..]);
      asked := asked + [Poked(addr, ok)];
      if ok {
        PokedPart(old(mem), addr, part, data);
        PutKeys(old(mem), addr, part);
      }
    }

    /** Its loop. */
    method WriteByWords(addr: Word, src: seq<Byte>) returns (ok: bool, ghost done: nat, ghost asked: seq<Response>)
      requires src != []
      modifies this
      ensures log == old(log) + asked && asked != []
      ensures ok ==> asked == WriteWords(addr, 0, |src|) && !EndsRefused(asked) && done == |src|
      ensures !ok ==> exists k: nat :: BrokenAt(asked, WriteWords(addr, 0, |src|), k)
                                       && done == WORD * PokesIn(WriteWords(addr, 0, |src|), k)
      ensures !ok ==> EndsRefused(asked) && done < |src| && done % WORD == 0
      ensures done <= |src| && mem == Put(old(mem), addr, src[..done]) && Mapped(old(mem), addr, done)
      ensures mem.Keys == old(mem).Keys
    {
      hide Put, Slice, WriteWords, PokesIn, BrokenAt, Refused;
      asked := [];
      PutNothing(mem, addr, src[..0]);
      ghost var all := WriteWords(addr, 0, |src|);
      var i := 0;
      NothingAsked(addr, |src|);
      while i < |src|
        invariant 0 <= i <= |src| && (i % WORD == 0 || i == |src|)
        invariant ToCome(all, asked, WriteWords(addr, i, |src|))
        invariant i < |src| ==> i == WORD * PokesIn(all, |asked|)
        invariant i > 0 ==> asked != [] && !EndsRefused(asked)
        invariant log == old(log) + asked
        invariant Mapped(old(mem), addr, i) && mem == Put(old(mem), addr, src[..i])
        invariant mem.Keys == old(mem).Keys
        decreases |src| - i
      {
        var part := src[i..if i + WORD > |src| then |src| else i + WORD];
        var wrote;
        ghost var one;
        wrote, one := WriteWord(addr + i, part);
        WordAsked(all, addr, i, |src|, asked, one, wrote);
        if !wrote {
          return false, i, asked + one;
        }
        asked := asked + one;
        PutConcat(old(mem), addr, src[..i], part);
        assert src[..i] + part == src[..i + |part|];
        i := i + |part|;
      }
      AllAsked(all, addr, i, |src|, asked);
      return true, |src|, asked;
    }

    /** remote_read. On failure a prefix of the buffer has been filled. */
    method RemoteRead(pid: int, addr: Word, dst: array<Byte>)
      returns (e: Errno, ghost done: nat, ghost asked: seq<Response>)
      modifies dst, this`log
      ensures log == old(log) + asked && ReadGoes(pid, addr, dst.Length, asked, e, done)
      ensures e == EINVAL <==> BadTransfer(pid, addr, dst.Length)
      ensures e == EIO || e == Kernel <==> EndsRefused(asked)
      ensures done <= dst.Length && Mapped(mem, addr, done) && dst[..done] == Slice(mem, addr, done)
      ensures dst[done..] == old(dst[..])[done..]
      ensures e == Fine ==> done == dst.Length && dst[..] == Slice(mem, addr, dst.Length)
      ensures e == EINVAL ==> done == 0
      ensures e == Kernel ==> done % WORD == 0
      ensures e != Fine && e != EINVAL ==> done < dst.Length
    {
      hide ReadWords, BrokenAt;
      done, asked := 0, [];
      if pid <= 0 || addr == 0 || dst.Length == 0 {
        return EINVAL, 0, [];
      }
      var n, got := ReadV(addr, dst.Length);
      if n >= 0 {
        forall j | 0 <= j < n { dst[j] := got[j]; }
        assert dst[..n] == got;
        return (if n == dst.Length then Fine else EIO), n, [ReadFromV(addr, dst.Length, n)];
      }
      var ok;
      ok, done, asked := ReadByWords(addr, dst);
      asked := [ReadFromV(addr, dst.Length, -1)] + asked;
      assert asked[1..] == log[|old(log)| + 1..];
      return (if ok then Fine else Kernel), done, asked;
    }

    /** Its loop. */
    method ReadByWords(addr: Word, dst: array<Byte>) returns (ok: bool, ghost done: nat, ghost asked: seq<Response>)
      requires dst.Length > 0
      modifies dst, this`log
      ensures log == old(log) + asked && asked != []
      ensures ok ==> asked == ReadWords(addr, 0, dst.Length) && !EndsRefused(asked) && done == dst.Length
      ensures !ok ==> exists k: nat :: BrokenAt(asked, ReadWords(addr, 0, dst.Length), k) && done == WORD * k
      ensures !ok ==> EndsRefused(asked) && done < dst.Length && done % WORD == 0
      ensures done <= dst.Length && Mapped(mem, addr, done) && dst[..done] == Slice(mem, addr, done)
      ensures dst[done..] == old(dst[..])[done..]
    {
      hide ReadWords, BrokenAt, PokesIn;
      asked := [];
      ghost var all := ReadWords(addr, 0, dst.Length);
      var i := 0;
      while i < dst.Length
        invariant 0 <= i <= dst.Length && (i % WORD == 0 || i == dst.Length)
        invariant ToCome(all, asked, ReadWords(addr, i, dst.Length))
        invariant i < dst.Length ==> i == WORD * |asked|
        invariant i == dst.Length ==> asked != [] && !Refused(asked[|asked| - 1])
        invariant log == old(log) + asked
        invariant Mapped(mem, addr, i) && dst[..i] == Slice(mem, addr, i)
        invariant dst[i..] == old(dst[..])[i..]
        decreases dst.Length - i
      {
        var size := if i + WORD > dst.Length then dst.Length - i else WORD;
        WordsRead(addr, i, dst.Length);
        ghost var after := ReadWords(addr, i + size, dst.Length);
        var got, data := Peek(addr + i);
        if !got {
          Breaks(all, asked, Peeked(addr + i, true), after);
          return false, i, asked + [Peeked(addr + i, false)];
        }
        GoesOn(all, asked, Peeked(addr + i, true), after);
        asked := asked + [Peeked(addr + i, true)];
        forall j | 0 <= j < size { dst[i + j] := data[j]; }
        i := i + size;
      }
      WordsRead(addr, i, dst.Length);
      return true, dst.Length, asked;
    }
  }

  /** What was asked for, all granted, and what is still to be asked for. */
  predicate ToCome(all: seq<Response>, asked: seq<Response>, after: seq<Response>)
  {
    all == asked + after
  }

  lemma WordsOf(addr: Word, from: nat, len: nat)
    ensures from >= len ==> WriteWords(addr, from, len) == []
    ensures from < len && from + WORD <= len ==>
              WriteWords(addr, from, len) == [Poked(addr + from, true)] + WriteWords(addr, from + WORD, len)
    ensures from < len && from + WORD > len ==>
              WriteWords(addr, from, len) == [Peeked(addr + from, true), Poked(addr + from, true)]
    ensures PokesIn(WriteWords(addr, from, len), 0) == 0
  {
  }

  lemma NothingAsked(addr: Word, len: nat)
    ensures ToCome(WriteWords(addr, 0, len), [], WriteWords(addr, 0, len)) && PokesIn(WriteWords(addr, 0, len), 0) == 0
  {
  }

  lemma AllAsked(all: seq<Response>, addr: Word, from: nat, len: nat, asked: seq<Response>)
    requires from >= len && ToCome(all, asked, WriteWords(addr, from, len))
    ensures asked == all
  {
  }

  /** One word's requests, granted or not, among all. */
  lemma WordAsked(all: seq<Response>, addr: Word, from: nat, len: nat, asked: seq<Response>, one: seq<Response>,
                  ok: bool)
    requires from < len && ToCome(all, asked, WriteWords(addr, from, len))
    requires one == if from + WORD <= len then [Poked(addr + from, ok)]
                    else if |one| == 1 then [Peeked(addr + from, ok)]
                    else [Peeked(addr + from, true), Poked(addr + from, ok)]
    requires from + WORD > len && ok ==> |one| == 2
    ensures ok ==> ToCome(all, asked + one, WriteWords(addr, if from + WORD > len then len else from + WORD, len))
    ensures ok ==> PokesIn(all, |asked + one|) == PokesIn(all, |asked|) + 1
    ensures ok ==> asked + one != [] && !EndsRefused(asked + one)
    ensures !ok ==> EndsRefused(asked + one) && exists k: nat :: BrokenAt(asked + one, all, k)
                                                                && PokesIn(all, k) == PokesIn(all, |asked|)
  {
    hide WriteWords, PokesIn, BrokenAt, ToCome;
    WordsOf(addr, from, len);
    WordsOf(addr, if from + WORD > len then len else from + WORD, len);
    var peek, poke := Peeked(addr + from, true), Poked(addr + from, true);
    var after := WriteWords(addr, if from + WORD > len then len else from + WORD, len);
    if from + WORD <= len {
      if ok { GoesOn(all, asked, poke, after); } else { Breaks(all, asked, poke, after); }
    } else {
      assert [peek] + [poke] == [peek, poke] && [poke] + after == [poke];
      if |one| == 1 {
        Breaks(all, asked, peek, [poke]);
      } else {
        GoesOn(all, asked, peek, [poke]);
        assert asked + one == asked + [peek] + one[1..];
        if ok { GoesOn(all, asked + [peek], poke, after); } else { Breaks(all, asked + [peek], poke, after); }
      }
    }
  }

  lemma WordsRead(addr: Word, from: nat, len: nat)
    ensures from >= len ==> ReadWords(addr, from, len) == []
    ensures from < len ==>
              var next := if from + WORD > len then len else from + WORD;
              ReadWords(addr, from, len) == [Peeked(addr + from, true)] + ReadWords(addr, next, len)
  {
  }

  /** The next request was granted. */
  lemma GoesOn(all: seq<Response>, asked: seq<Response>, a: Response, after: seq<Response>)
    requires ToCome(all, asked, [a] + after)
    ensures ToCome(all, asked + [a], after)
    ensures PokesIn(all, |asked| + 1) == PokesIn(all, |asked|) + if a.Poked? then 1 else 0
  {
    assert all[|asked|] == a;
  }

  /** The next request was refused. */
  lemma Breaks(all: seq<Response>, asked: seq<Response>, a: Response, after: seq<Response>)
    requires ToCome(all, asked, [a] + after) && (a.Peeked? || a.Poked?)
    ensures var no := if a.Peeked? then Peeked(a.addr, false) else Poked(a.addr, false);
            BrokenAt(asked + [no], all, |asked|) && EndsRefused(asked + [no])
  {
    assert all[|asked|] == a && all[..|asked|] == asked;
  }

  /** One word poked amounts to writing the new part only. */
  lemma PokedPart(m: Memory, addr: int, part: seq<Byte>, data: seq<Byte>)
    requires |data| == WORD && |part| <= WORD && Mapped(m, addr, WORD)
    requires |part| < WORD ==> data == Slice(m, addr, WORD)
    ensures Put(m, addr, part + data[|part|..]) == Put(m, addr, part)
  {
    if |part| == WORD {
      assert part + data[|part|..] == part;
    } else {
      PutTail(m, addr, part, WORD);
    }
  }
}
