/** How the protocol's actions look to the processor. */
module StubMachine {
  import opened X86
  import Protocol
  import L = Layout

  /** One installed probe, and the constants in its code. The entry stub's absolute jump goes to the
      trampoline. */
  datatype Probe = Probe(base: X86.Word, pid: X86.Word, probeId: X86.Word, hasRet: bool)

  /** User addresses lie below this. */
  const USER_TOP: nat := 0x8000_0000_0000

  predicate ValidProbe(p: Probe)
  {
    0 < p.base && p.base + 633008 <= USER_TOP && p.pid < Protocol.TWO32 && p.probeId < Protocol.TWO32
  }

  function ConstsOf(p: Probe): Consts
  {
    Consts(L.ConfigAddr(p.base), L.ShadowAddr(p.base), L.ReturnStubAddr(p.base), L.TrampolineAddr(p.base),
           p.pid, p.probeId)
  }

  function ConfigOf(p: Probe): Protocol.Config
  {
    Protocol.Config(p.pid, p.probeId, p.hasRet, L.ReturnStubAddr(p.base), L.EventsAddr(p.base))
  }

  /** The accesses by which the code carries out an action. The clock is clock 0, CLOCK_REALTIME. */
  function Accesses(p: Probe, a: Protocol.Action): seq<Access>
  {
    match a
    case Skip => []
    case GetTid => [SysGettid]
    case Clock => [SysClock(0)]
    case Hook => []
    case Load(loc) => [Rd(L.AddrOf(p.base, loc), L.WidthOf(loc))]
    case Store(loc, v) => [Wr(L.AddrOf(p.base, loc), L.WidthOf(loc), v)]
    case FetchAdd => [Xadd(L.AddrOf(p.base, Protocol.WriteIndex), 1)]
    case CompareSwap(k, v) => [Cas(L.AddrOf(p.base, Protocol.SlotTid(k)), 0, v)]
  }

  /** Nanoseconds as the stubs compute them from a timespec. */
  function Nanos(sec: X86.Word, nsec: X86.Word): X86.Word
  {
    W64(W64(1000000000 * sec) + nsec)
  }

  /** The protocol's answer behind the processor's input. */
  function Answer(a: Protocol.Action, e: Input): X86.Word
  {
    match a
    case GetTid => W32(e.v)
    case Clock => Nanos(e.sec, e.nsec)
    case Load(loc) => if L.WidthOf(loc) == 4 then W32(e.v) else W64(e.v)
    case FetchAdd => W64(e.v)
    case CompareSwap(_, _) => W32(e.v)
    case _ => 0
  }

  /** The configuration's buffer pointer reads as installed. */
  predicate Installed(p: Probe, a: Protocol.Action, e: Input)
  {
    a == Protocol.Load(Protocol.BufPtr) ==> e.v == L.EventsAddr(p.base)
  }

  function RingAddr(p: Probe, i: nat): X86.Word
  {
    L.EventsAddr(p.base) + 16 + 88 * i
  }

  function SlotAddr(p: Probe, k: nat): X86.Word
  {
    L.ShadowAddr(p.base) + 1032 * k
  }

  // ---------------------------------------------------------------- whole runs

  /** What the environment answered to one access. */
  function Reply(x: Access, e: Input): X86.Word
  {
    match x
    case Rd(_, width) => if width == 4 then W32(e.v) else W64(e.v)
    case Xadd(_, _) => W64(e.v)
    case Cas(_, _, _) => W32(e.v)
    case SysGettid => W32(e.v)
    case SysClock(_) => Nanos(e.sec, e.nsec)
    case _ => 0
  }

  predicate Silent(a: Protocol.Action)
  {
    a.Skip? || a.Hook?
  }

  /** An action that is not silent is one access, and its answer is the reply to that. */
  lemma ReplyIsAnswer(p: Probe, a: Protocol.Action, e: Input)
    ensures Silent(a) <==> Accesses(p, a) == []
    ensures !Silent(a) ==> |Accesses(p, a)| == 1 && Reply(Accesses(p, a)[0], e) == Answer(a, e)
  {
  }

  datatype Ran = Ran(s: Cpu, acc: seq<Access>, replies: seq<X86.Word>, to: Place)

  /** A stub from block `b`, fed one input a block, until the inputs end or it leaves. */
  function RunStub(k: Consts, stub: nat -> Block, b: nat, s: Cpu, inps: seq<Input>): Ran
    decreases |inps|
  {
    if inps == [] then Ran(s, [], [], At(b)) else
    var x := RunBlock(k, stub(b), b, s, inps[0]);
    var replies := seq(|x.acc|, i requires 0 <= i < |x.acc| => Reply(x.acc[i], inps[0]));
    if !x.to.At? then Ran(x.s, x.acc, replies, x.to) else
    var y := RunStub(k, stub, x.to.b, x.s, inps[1..]);
    Ran(y.s, x.acc + y.acc, replies + y.replies, y.to)
  }

  /** A block that goes on within the stub, with one access or none. */
  lemma RunGoesOn(k: Consts, stub: nat -> Block, b: nat, s: Cpu, inps: seq<Input>)
    requires inps != [] && RunBlock(k, stub(b), b, s, inps[0]).to.At?
    ensures var x := RunBlock(k, stub(b), b, s, inps[0]); var y := RunStub(k, stub, x.to.b, x.s, inps[1..]);
            && (x.acc == [] ==> RunStub(k, stub, b, s, inps) == y)
            && (|x.acc| == 1 ==>
                  RunStub(k, stub, b, s, inps) == Ran(y.s, x.acc + y.acc, [Reply(x.acc[0], inps[0])] + y.replies, y.to))
  {
    hide RunBlock, Reply;
    var x := RunBlock(k, stub(b), b, s, inps[0]);
    var y := RunStub(k, stub, x.to.b, x.s, inps[1..]);
    assert [] + y.acc == y.acc && [] + y.replies == y.replies;
  }

  /** Whenever the code reads the configuration's buffer pointer it finds the one installed. */
  ghost predicate ReadsInstalled(p: Probe, stub: nat -> Block, b: nat, s: Cpu, inps: seq<Input>)
    decreases |inps|
  {
    inps == [] ||
      var x := RunBlock(ConstsOf(p), stub(b), b, s, inps[0]);
      && (Rd(L.ConfigAddr(p.base) + 8, 8) in x.acc ==> inps[0].v == L.EventsAddr(p.base))
      && (x.to.At? ==> ReadsInstalled(p, stub, x.to.b, x.s, inps[1..]))
  }
}
