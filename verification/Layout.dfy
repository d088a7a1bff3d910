/** The runtime area in the target: where each region lies, and that every address a stub computes
    stays in its own one. */
module Layout {
  import opened Protocol

  const CONFIG_SIZE: nat := 24
  const EVENT_SIZE: nat := 88
  const HEADER_SIZE: nat := 16
  const BUFFER_SIZE: nat := HEADER_SIZE + CAPACITY * EVENT_SIZE
  const SLOT_SIZE: nat := 8 + 8 * DEPTH + 8 * DEPTH
  const SHADOW_SIZE: nat := THREADS * SLOT_SIZE
  const TRAMPOLINE_SIZE: nat := 128
  const STUB_SIZE: nat := 4096
  const ALIGN: nat := 16

  /** value rounded down by clearing the bits below a power of two. */
  function ClearLow(value: nat, align: nat): nat
    requires align > 0
  {
    value - value % align
  }

  function AlignUp(value: nat, align: nat): nat
    requires align > 0
  {
    ClearLow((value + (align - 1)) % TWO64, align)
  }

  /** On machine words, clearing the low four bits is what ClearLow says. */
  lemma ClearLowIsMask(value: bv64)
    ensures (value & !(16 - 1)) == value - value % 16
  {
  }

  /** The least multiple at or above the value. */
  lemma AlignUpIsLeastMultiple(value: nat, align: nat)
    requires 0 < align && value + align <= TWO64
    ensures AlignUp(value, align) == align * ((value + align - 1) / align)
    ensures value <= AlignUp(value, align) < value + align
  {
    var x := value + (align - 1);
    assert x == align * (x / align) + x % align;
  }

  /** One stretch of the area. */
  datatype Region = Region(offset: nat, size: nat)

  datatype Area = Area(base: Word, size: nat, config: Region, events: Region, shadow: Region,
                       trampoline: Region, entryStub: Region, returnStub: Region)

  function Regions(a: Area): seq<Region>
  {
    [a.config, a.events, a.shadow, a.trampoline, a.entryStub, a.returnStub]
  }

  /** In order, aligned, disjoint, and within the area. */
  ghost predicate Tiles(rs: seq<Region>, size: nat)
  {
    && (forall i :: 0 <= i < |rs| ==> rs[i].offset % ALIGN == 0 && rs[i].offset + rs[i].size <= size)
    && (forall i, j :: 0 <= i < j < |rs| ==> rs[i].offset + rs[i].size <= rs[j].offset)
  }

  /** Gives each region the next aligned offset. */
  method LayoutInit(base: Word) returns (a: Area)
    ensures a == AreaAt(base)
    ensures Tiles(Regions(a), a.size) && a.size % ALIGN == 0
  {
    var offset := 0;
    var config := Region(offset, CONFIG_SIZE);
    offset := AlignUp(offset + CONFIG_SIZE, ALIGN);
    var events := Region(offset, BUFFER_SIZE);
    assert offset == 32;
    offset := AlignUp(offset + BUFFER_SIZE, ALIGN);
    var shadow := Region(offset, SHADOW_SIZE);
    assert offset == 360496;
    offset := AlignUp(offset + SHADOW_SIZE, ALIGN);
    var trampoline := Region(offset, TRAMPOLINE_SIZE);
    assert offset == 624688;
    offset := AlignUp(offset + TRAMPOLINE_SIZE, ALIGN);
    var entryStub := Region(offset, STUB_SIZE);
    offset := AlignUp(offset + STUB_SIZE, ALIGN);
    var returnStub := Region(offset, STUB_SIZE);
    offset := AlignUp(offset + STUB_SIZE, ALIGN);
    a := Area(base, offset, config, events, shadow, trampoline, entryStub, returnStub);
    AreaTiles(base);
  }

  /** In order, aligned, disjoint, and within the area. */
  lemma AreaTiles(base: Word)
    ensures Tiles(Regions(AreaAt(base)), AreaAt(base).size)
  {
    var rs := Regions(AreaAt(base));
    assert |rs| == 6;
    assert rs[0] == Region(0, CONFIG_SIZE) && rs[1] == Region(32, BUFFER_SIZE);
    assert rs[2] == Region(360496, SHADOW_SIZE) && rs[3] == Region(624688, TRAMPOLINE_SIZE);
    assert rs[4] == Region(624816, STUB_SIZE) && rs[5] == Region(628912, STUB_SIZE);
  }

  /** The offsets are the same for every probe. */
  function AreaAt(base: Word): Area
  {
    Area(base, 633008, Region(0, CONFIG_SIZE), Region(32, BUFFER_SIZE), Region(360496, SHADOW_SIZE),
         Region(624688, TRAMPOLINE_SIZE), Region(624816, STUB_SIZE), Region(628912, STUB_SIZE))
  }

  function ConfigAddr(base: Word): Word { base }
  function EventsAddr(base: Word): Word { base + 32 }
  function ShadowAddr(base: Word): Word { base + 360496 }
  function TrampolineAddr(base: Word): Word { base + 624688 }
  function EntryStubAddr(base: Word): Word { base + 624816 }
  function ReturnStubAddr(base: Word): Word { base + 628912 }

  // ---------------------------------------------------------------- addresses of places

  function FieldOffset(f: Field): nat
  {
    match f
    case TimeStamp => 0
    case Pid => 8
    case ThreadId => 12
    case ProbeId => 16
    case Kind => 20
    case Arg(j) => 24 + 8 * j
    case Retval => 72
    case Duration => 80
  }

  function FieldWidth(f: Field): nat
  {
    match f
    case Pid => 4
    case ThreadId => 4
    case ProbeId => 4
    case Kind => 4
    case _ => 8
  }

  function AddrOf(base: Word, loc: Loc): Word
  {
    match loc
    case Enabled => ConfigAddr(base)
    case BufPtr => ConfigAddr(base) + 8
    case WriteIndex => EventsAddr(base)
    case Ring(i, f) => EventsAddr(base) + HEADER_SIZE + EVENT_SIZE * i + FieldOffset(f)
    case SlotTid(k) => ShadowAddr(base) + SLOT_SIZE * k
    case SlotDepth(k) => ShadowAddr(base) + SLOT_SIZE * k + 4
    case SlotRet(k, d) => ShadowAddr(base) + SLOT_SIZE * k + 8 + 8 * d
    case SlotTs(k, d) => ShadowAddr(base) + SLOT_SIZE * k + 520 + 8 * d
  }

  function WidthOf(loc: Loc): nat
  {
    match loc
    case Enabled => 4
    case Ring(_, f) => FieldWidth(f)
    case SlotTid(_) => 4
    case SlotDepth(_) => 4
    case _ => 8
  }

  function RegionOf(a: Area, loc: Loc): Region
  {
    match loc
    case Enabled => a.config
    case BufPtr => a.config
    case WriteIndex => a.events
    case Ring(_, _) => a.events
    case _ => a.shadow
  }

  /** Every place that exists lies inside its own region, so in the area. */
  lemma PlacesStayInRegion(base: Word, loc: Loc)
    requires InBounds(loc)
    ensures var r := RegionOf(AreaAt(base), loc);
            && base + r.offset <= AddrOf(base, loc)
            && AddrOf(base, loc) + WidthOf(loc) <= base + r.offset + r.size
            && r.offset + r.size <= AreaAt(base).size
  {
  }

  predicate Apart(a: int, m: int, b: int, n: int)
  {
    a + m <= b || b + n <= a
  }

  lemma FieldsApart(f: Field, g: Field)
    requires f != g && (f.Arg? ==> f.j < 6) && (g.Arg? ==> g.j < 6)
    ensures Apart(FieldOffset(f), FieldWidth(f), FieldOffset(g), FieldWidth(g))
  {
  }

  lemma FieldInside(f: Field)
    requires f.Arg? ==> f.j < 6
    ensures FieldOffset(f) + FieldWidth(f) <= EVENT_SIZE
  {
  }

  lemma RingApart(base: Word, x: Loc, y: Loc)
    requires InBounds(x) && InBounds(y) && x != y && x.Ring? && y.Ring?
    ensures Apart(AddrOf(base, x), WidthOf(x), AddrOf(base, y), WidthOf(y))
  {
    FieldInside(x.f);
    FieldInside(y.f);
    if x.i < y.i {
      assert EVENT_SIZE * x.i + EVENT_SIZE <= EVENT_SIZE * y.i;
    } else if y.i < x.i {
      assert EVENT_SIZE * y.i + EVENT_SIZE <= EVENT_SIZE * x.i;
    } else {
      FieldsApart(x.f, y.f);
    }
  }

  function SlotNumber(loc: Loc): nat
  {
    match loc
    case SlotTid(k) => k
    case SlotDepth(k) => k
    case SlotRet(k, _) => k
    case SlotTs(k, _) => k
    case _ => 0
  }

  predicate InSlot(loc: Loc)
  {
    loc.SlotTid? || loc.SlotDepth? || loc.SlotRet? || loc.SlotTs?
  }

  lemma SlotsApart(base: Word, x: Loc, y: Loc)
    requires InBounds(x) && InBounds(y) && x != y && InSlot(x) && InSlot(y)
    ensures Apart(AddrOf(base, x), WidthOf(x), AddrOf(base, y), WidthOf(y))
  {
    var i, j := SlotNumber(x), SlotNumber(y);
    if i < j {
      assert SLOT_SIZE * i + SLOT_SIZE <= SLOT_SIZE * j;
    } else if j < i {
      assert SLOT_SIZE * j + SLOT_SIZE <= SLOT_SIZE * i;
    }
  }

  /** Different places never overlap. */
  lemma PlacesAreDisjoint(base: Word, x: Loc, y: Loc)
    requires InBounds(x) && InBounds(y) && x != y
    ensures Apart(AddrOf(base, x), WidthOf(x), AddrOf(base, y), WidthOf(y))
  {
    if x.Ring? && y.Ring? {
      RingApart(base, x, y);
    } else if InSlot(x) && InSlot(y) {
      SlotsApart(base, x, y);
    } else {
      PlacesStayInRegion(base, x);
      PlacesStayInRegion(base, y);
    }
  }

  /** The stub builds 88 * index from three shifts; the reader multiplies. */
  lemma ShiftsBuildEventOffset(i: nat)
    requires i < CAPACITY
    ensures ((i * 64) % TWO64 + (i * 16) % TWO64) % TWO64 + (i * 8) % TWO64 == EVENT_SIZE * i
  {
  }
}
