/** The simulated NAND chip as an object: its state machine, its timer, its address latch,
    and the copy loops over its chunks. Seen from the driver it is the `hw` and the `cells`
    of `Chip`. */
module Nand {
  import opened Arith
  import opened Layout
  import opened Sectors
  import opened Addressing
  import opened Spec = Chip
  import opened Driver
  import opened Chunks

  // ---------------------------------------------------------------- pages in the bytes

  /** The page of four sectors at `base`. */
  function PageIn(bytes: seq<bv8>, base: nat): (r: PageBuf)
    requires base + PAGE_SIZE <= |bytes|
    ensures forall i :: 0 <= i < SECTORS ==> r[i] == bytes[base + 512 * i..base + 512 * i + 512]
  {
    [bytes[base..base + 512], bytes[base + 512..base + 1024], bytes[base + 1024..base + 1536],
        bytes[base + 1536..base + 2048]]
  }

  lemma SplicedSector(bytes: seq<bv8>, base: nat, s: nat, n: nat, page: seq<bv8>, i: nat)
    requires base + PAGE_SIZE <= |bytes| && |page| == PAGE_SIZE && s + n <= SECTORS && i < SECTORS
    ensures var bytes' := Splice(bytes, base + 512 * s, page[512 * s..512 * (s + n)]);
            bytes'[base + 512 * i..base + 512 * i + 512] ==
            if s <= i < s + n then page[512 * i..512 * i + 512] else bytes[base + 512 * i..base + 512 * i + 512]
  {
    var data, at := page[512 * s..512 * (s + n)], base + 512 * s;
    var bytes' := Splice(bytes, at, data);
    hide Splice;
    var y := base + 512 * i;
    var a, b := bytes'[y..y + 512], if s <= i < s + n then page[512 * i..512 * i + 512] else bytes[y..y + 512];
    assert |a| == |b|;
    forall k | 0 <= k < |a| ensures a[k] == b[k] {
      assert s <= i < s + n <==> at <= y + k < at + |data|;
      assert a[k] == bytes'[y + k];
    }
  }

  /** The bytes of sectors `s` up to `s + n` of a page buffer, spliced in at their place. */
  lemma SplicedPage(bytes: seq<bv8>, base: nat, s: nat, n: nat, page: seq<bv8>)
    requires base + PAGE_SIZE <= |bytes| && |page| == PAGE_SIZE && s + n <= SECTORS
    ensures var bytes' := Splice(bytes, base + 512 * s, page[512 * s..512 * (s + n)]);
            PageIn(bytes', base) == Overlay(PageIn(bytes, base), Stretch(s, n), PageIn(page, 0))
  {
    hide Splice;
    forall i | 0 <= i < SECTORS
      ensures PageIn(Splice(bytes, base + 512 * s, page[512 * s..512 * (s + n)]), base)[i]
           == Overlay(PageIn(bytes, base), Stretch(s, n), PageIn(page, 0))[i]
    {
      SplicedSector(bytes, base, s, n, page, i);
      hide Splice, PageIn, Overlay;
    }
  }

  lemma OtherPage(bytes: seq<bv8>, at: nat, data: seq<bv8>, base: nat)
    requires at + |data| <= |bytes| && base + PAGE_SIZE <= |bytes|
    requires base + PAGE_SIZE <= at || at + |data| <= base
    ensures PageIn(Splice(bytes, at, data), base) == PageIn(bytes, base)
  {
    var bytes' := Splice(bytes, at, data);
    forall i | 0 <= i < SECTORS
      ensures bytes'[base + 512 * i..base + 512 * i + 512] == bytes[base + 512 * i..base + 512 * i + 512]
    {
    }
  }

  // ---------------------------------------------------------------- where pages are

  /** The position of a page on its chip. */
  function Index(g: Geometry, loc: Loc): nat {
    PerDie(g) * loc.at.die + PerPlane(g) * loc.at.plane + g.pages * loc.block + loc.page
  }

  /** The offset of a page in the bytes of its chip. */
  function Base(g: Geometry, loc: Loc): nat { PAGE_SIZE * Index(g, loc) }

  predicate OnChip(g: Geometry, c: ChipAddr, loc: Loc) {
    InGeometry(g, loc) && loc.at.channel == c.channel && loc.at.chip == c.chip
  }

  lemma IndexBound(g: Geometry, c: ChipAddr, loc: Loc)
    requires Valid(g) && OnChip(g, c, loc)
    ensures Index(g, loc) < PerChip(g)
  {
    var x1 := g.pages * loc.block + loc.page;
    DigitBound(g.pages, loc.block, loc.page, g.blocks);
    var x2 := PerPlane(g) * loc.at.plane + x1;
    DigitBound(PerPlane(g), loc.at.plane, x1, g.planes);
    DigitBound(PerDie(g), loc.at.die, x2, g.dies);
  }

  lemma IndexInjective(g: Geometry, c: ChipAddr, a: Loc, b: Loc)
    requires Valid(g) && OnChip(g, c, a) && OnChip(g, c, b) && Index(g, a) == Index(g, b)
    ensures a == b
  {
    hide PerChannel, PerChip, PerDie, PerPlane;
    EncodeInjective(g, a, b);
  }

  lemma IndexIs(g: Geometry, loc: Loc)
    ensures Encode(g, loc) == PerChannel(g) * loc.at.channel + PerChip(g) * loc.at.chip + Index(g, loc)
  {
  }

  /** The pages of a chip lie one behind the other in the order of their numbers: the first at
      byte 0, each next page of the block, the first page of each next block, plane and die
      behind the last page before it. */
  lemma PlacedInOrder(g: Geometry, c: ChipAddr, loc: Loc)
    requires Valid(g) && OnChip(g, c, loc)
    ensures Base(g, Loc(PlaneAddr(c.channel, c.chip, 0, 0), 0, 0)) == 0
    ensures if OnChip(g, c, NextPage(g, loc)) then Base(g, NextPage(g, loc)) == Base(g, loc) + PAGE_SIZE
            else Base(g, loc) + PAGE_SIZE == PAGE_SIZE * PerChip(g)
  {
    hide PerPlane, PerDie, PerChip, PerChannel, PerDevice;
    var next := NextPage(g, loc);
    NumberedInOrder(g, loc);
    IndexIs(g, loc);
    IndexIs(g, next);
    if !OnChip(g, c, next) {
      LastOfChip(g, loc);
    }
  }

  /** A page whose next page is not on its chip has the last number of the chip. */
  lemma LastOfChip(g: Geometry, loc: Loc)
    requires Valid(g) && InGeometry(g, loc)
    requires loc.page + 1 >= g.pages && loc.block + 1 >= g.blocks && loc.at.plane + 1 >= g.planes
    requires loc.at.die + 1 >= g.dies
    ensures Index(g, loc) + 1 == PerChip(g)
  {
    Radices(g);
    Carry(g.pages, loc.block);
    Carry(PerPlane(g), loc.at.plane);
    Carry(PerDie(g), loc.at.die);
    hide PerPlane, PerDie, PerChip;
  }

  /** Different pages do not overlap. */
  lemma PagesApart(g: Geometry, c: ChipAddr, a: Loc, b: Loc)
    requires Valid(g) && OnChip(g, c, a) && OnChip(g, c, b) && a != b
    ensures Base(g, a) + PAGE_SIZE <= Base(g, b) || Base(g, b) + PAGE_SIZE <= Base(g, a)
  {
    hide Index;
    if Index(g, a) == Index(g, b) {
      IndexInjective(g, c, a, b);
    }
  }

  lemma BaseBound(g: Geometry, c: ChipAddr, loc: Loc)
    requires Valid(g) && OnChip(g, c, loc)
    ensures Base(g, loc) + PAGE_SIZE <= PAGE_SIZE * PerChip(g) && Base(g, loc) % PAGE_SIZE == 0
  {
    IndexBound(g, c, loc);
    hide Index, PerChip;
  }

  // ---------------------------------------------------------------- what the driver sees

  function Locs(g: Geometry, c: ChipAddr): set<Loc> {
    set d: nat, p: nat, b: nat, k: nat | d < g.dies && p < g.planes && b < g.blocks && k < g.pages
      :: Loc(PlaneAddr(c.channel, c.chip, d, p), b, k)
  }

  lemma LocsIs(g: Geometry, c: ChipAddr, loc: Loc)
    requires c.channel < g.channels && c.chip < g.chips
    ensures loc in Locs(g, c) <==> OnChip(g, c, loc)
  {
    if OnChip(g, c, loc) {
      assert loc == Loc(PlaneAddr(c.channel, c.chip, loc.at.die, loc.at.plane), loc.block, loc.page);
    }
  }

  ghost predicate HoldsChip(g: Geometry, c: ChipAddr, bytes: seq<bv8>) {
    Valid(g) && c.channel < g.channels && c.chip < g.chips && PAGE_SIZE * PerChip(g) <= |bytes|
  }

  /** The pages of the chip, as the driver's model has them. */
  ghost function Cells(g: Geometry, c: ChipAddr, bytes: seq<bv8>): map<Loc, PageBuf>
    requires HoldsChip(g, c, bytes)
  {
    map loc | loc in Locs(g, c) :: PageAtLoc(g, c, bytes, loc)
  }

  ghost function PageAtLoc(g: Geometry, c: ChipAddr, bytes: seq<bv8>, loc: Loc): PageBuf
    requires HoldsChip(g, c, bytes) && loc in Locs(g, c)
  {
    LocsIs(g, c, loc);
    BaseBound(g, c, loc);
    PageIn(bytes, Base(g, loc))
  }

  /** Splicing a run of sectors into the bytes of one page overlays that page with them, and
      touches no other page of the chip. */
  lemma ProgramCells(g: Geometry, c: ChipAddr, bytes: seq<bv8>, loc: Loc, s: nat, n: nat, page: seq<bv8>)
    requires HoldsChip(g, c, bytes) && loc in Locs(g, c) && |page| == PAGE_SIZE && s + n <= SECTORS
    ensures Base(g, loc) + 512 * s + 512 * n <= |bytes|
    ensures var bytes' := Splice(bytes, Base(g, loc) + 512 * s, page[512 * s..512 * (s + n)]);
            Cells(g, c, bytes') == Cells(g, c, bytes)[loc := Overlay(Cells(g, c, bytes)[loc], Stretch(s, n),
                PageIn(page, 0))]
  {
    hide Base, PerChip, Locs, Overlay, Stretch, Splice;
    LocsIs(g, c, loc);
    BaseBound(g, c, loc);
    var bytes' := Splice(bytes, Base(g, loc) + 512 * s, page[512 * s..512 * (s + n)]);
    SplicedPage(bytes, Base(g, loc), s, n, page);
    forall l | l in Locs(g, c) && l != loc ensures PageAtLoc(g, c, bytes', l) == PageAtLoc(g, c, bytes, l) {
      LocsIs(g, c, l);
      BaseBound(g, c, l);
      PagesApart(g, c, loc, l);
      OtherPage(bytes, Base(g, loc) + 512 * s, page[512 * s..512 * (s + n)], Base(g, l));
    }
  }

  lemma SliceSlice(bytes: seq<bv8>, base: nat, n: nat, lo: nat, hi: nat)
    requires base + n <= |bytes| && lo <= hi <= n
    ensures bytes[base..base + n][lo..hi] == bytes[base + lo..base + hi]
  {
    var a, b := bytes[base..base + n][lo..hi], bytes[base + lo..base + hi];
    assert |a| == |b|;
    forall k | 0 <= k < |a| ensures a[k] == b[k] {
    }
  }

  lemma PageSlice(bytes: seq<bv8>, base: nat)
    requires base + PAGE_SIZE <= |bytes|
    ensures PageIn(bytes[base..base + PAGE_SIZE], 0) == PageIn(bytes, base)
  {
    SliceSlice(bytes, base, PAGE_SIZE, 0, 512);
    SliceSlice(bytes, base, PAGE_SIZE, 512, 1024);
    SliceSlice(bytes, base, PAGE_SIZE, 1024, 1536);
    SliceSlice(bytes, base, PAGE_SIZE, 1536, 2048);
  }

  /** Copying a run of sectors of a page into a buffer overlays the buffer with the page. */
  lemma ReadCells(g: Geometry, c: ChipAddr, bytes: seq<bv8>, loc: Loc, s: nat, n: nat, buf: seq<bv8>)
    requires HoldsChip(g, c, bytes) && loc in Locs(g, c) && |buf| == PAGE_SIZE && s + n <= SECTORS
    ensures var o := Base(g, loc) + 512 * s;
            o + 512 * n <= |bytes| &&
            PageIn(Splice(buf, 512 * s, bytes[o..o + 512 * n]), 0) == Overlay(PageIn(buf, 0), Stretch(s, n),
                Cells(g, c, bytes)[loc])
  {
    hide Base, PerChip, Locs, Overlay, Stretch, Splice;
    LocsIs(g, c, loc);
    BaseBound(g, c, loc);
    var base := Base(g, loc);
    PageSlice(bytes, base);
    SplicedPage(buf, 0, s, n, bytes[base..base + PAGE_SIZE]);
    SliceSlice(bytes, base, PAGE_SIZE, 512 * s, 512 * (s + n));
  }

  /** On the way to chunk `t`, the loop skips a chunk exactly as long as it is not there. */
  lemma SkipOrHere(lens: seq<nat>, i: nat, t: nat, start: nat, offset: nat, total: nat)
    requires i <= t < |lens| && Before(lens, i) + offset == start && total > 0
    requires Before(lens, t) <= start && start + total <= Before(lens, t) + lens[t]
    ensures if lens[i] <= offset then i < t && Before(lens, i + 1) + (offset - lens[i]) == start
            else i == t && offset == start - Before(lens, t) && total <= lens[i] - offset
  {
    assert Before(lens, i + 1) == Before(lens, i) + lens[i];
    BeforeMono(lens, if i < t then i + 1 else i, t);
  }

  // ---------------------------------------------------------------- the chip

  class BusHw {
    var idle: bool
    var timer: bool
    var signal: bool

    constructor ()
      ensures idle && !timer && !signal
    {
      idle, timer, signal := true, false, false;
    }

    /** The bus timer: whatever was on the bus is through, and the driver is told. */
    method TimerCallback()
      requires timer
      modifies this
      ensures idle && !timer && signal
    {
      idle := true;
      timer, signal := false, true;
    }
  }

  class ChipHw {
    const g: Geometry
    const c: ChipAddr
    const chunks: seq<array<bv8>>
    var phase: Phase
    var latch: Loc
    var id: nat
    var timer: bool
    var signal: bool

    constructor (g: Geometry, c: ChipAddr, chunks: seq<array<bv8>>, latch: Loc)
      ensures this.g == g && this.c == c && this.chunks == chunks
      ensures phase == Idle && this.latch == latch && !timer && !signal
    {
      this.g, this.c, this.chunks := g, c, chunks;
      phase, this.latch, id, timer, signal := Idle, latch, 0, false, false;
    }

    ghost function Contents(): (r: seq<seq<bv8>>)
      reads chunks
      ensures |r| == |chunks| && forall i :: 0 <= i < |r| ==> r[i] == chunks[i][..]
    {
      ContentsOf(chunks)
    }

    ghost function Bytes(): seq<bv8>
      reads chunks
    {
      Flatten(Contents())
    }

    function Hw(): Spec.Nand
      reads this
    {
      Spec.Nand(phase, latch, id, timer, signal)
    }

    /** The chunks are separate, whole pages each, and hold the chip. */
    ghost predicate Valid()
      reads chunks
    {
      && (forall i, j :: 0 <= i < j < |chunks| ==> chunks[i] != chunks[j])
      && WholePages(Lens(Contents()))
      && HoldsChip(g, c, Bytes())
    }

    method CopyInChunk(i: nat, to: nat, src: array<bv8>, from: nat, n: nat)
      requires Valid() && i < |chunks| && to + n <= chunks[i].Length && from + n <= src.Length && src !in chunks
      modifies chunks
      ensures Contents() == old(Contents())[i := Splice(old(Contents())[i], to, src[from..from + n])]
    {
      Memcpy(chunks[i], to, src[from..from + n]);
    }

    /** The copy loop of a program: the bytes of the buffer go to the chunk they belong in. */
    method CopyToChunks(start: nat, total: nat, buf: array<bv8>, from: nat)
      requires Valid() && from + total <= buf.Length && buf !in chunks && start + total <= |Bytes()|
      requires total > 0 ==> InOneChunk(Lens(Contents()), start, total)
      modifies chunks
      ensures Valid() && Bytes() == Splice(old(Bytes()), start, buf[from..from + total])
    {
      hide Splice, Before, Flatten, HoldsChip, WholePages, Lens;
      ghost var cs, lens := Contents(), Lens(Contents());
      ghost var data := buf[from..from + total];
      ghost var t, done := 0, cs;
      if total > 0 {
        t, done := Target(cs, start, data);
      }
      var offset: nat, len: nat, i: nat := start, total, 0;
      BeforeZero(lens);
      while len != 0
        invariant len == 0 || len == total
        invariant len != 0 ==> i <= t < |lens| && Before(lens, i) + offset == start && Contents() == cs
        invariant len == 0 ==> Contents() == done
        decreases len, |chunks| - i
      {
        SkipOrHere(lens, i, t, start, offset, total);
        if chunks[i].Length <= offset {
          offset := offset - chunks[i].Length;
          i := i + 1;
          continue;
        }
        var nowLen, rest := len, chunks[i].Length - offset;
        if nowLen > offset + chunks[i].Length {
          nowLen := rest;
        }
        CopyInChunk(i, offset, buf, from, nowLen);
        offset := 0;
        len := len - nowLen;
        i := i + 1;
      }
      if total == 0 {
        SpliceNothing(Flatten(cs), start, data);
      }
      SameLens(cs, Contents());
      HoldsSame(g, c, Flatten(cs), Bytes());
    }

    /** The copy loop of a read: the bytes come from the chunk they are in. */
    method CopyFromChunks(start: nat, total: nat, buf: array<bv8>, to: nat)
      requires Valid() && to + total <= buf.Length && buf !in chunks && start + total <= |Bytes()|
      requires total > 0 ==> InOneChunk(Lens(Contents()), start, total)
      modifies buf
      ensures buf[..] == Splice(old(buf[..]), to, Bytes()[start..start + total])
    {
      hide Splice, Before, Flatten, HoldsChip, WholePages, Lens;
      ghost var cs, lens := Contents(), Lens(Contents());
      ghost var data, was := Flatten(cs)[start..start + total], buf[..];
      ghost var t := 0;
      if total > 0 {
        t := Source(cs, start, total);
      }
      var offset: nat, len: nat, i: nat := start, total, 0;
      BeforeZero(lens);
      while len != 0
        invariant len == 0 || len == total
        invariant len != 0 ==> i <= t < |lens| && Before(lens, i) + offset == start && buf[..] == was
        invariant len == 0 && total > 0 ==> buf[..] == Splice(was, to, data)
        invariant total == 0 ==> buf[..] == was
        decreases len, |chunks| - i
      {
        SkipOrHere(lens, i, t, start, offset, total);
        if chunks[i].Length <= offset {
          offset := offset - chunks[i].Length;
          i := i + 1;
          continue;
        }
        var nowLen, rest := len, chunks[i].Length - offset;
        if nowLen > offset + chunks[i].Length {
          nowLen := rest;
        }
        Memcpy(buf, to, chunks[i][offset..offset + nowLen]);
        offset := 0;
        len := len - nowLen;
        i := i + 1;
      }
      if total == 0 {
        SpliceNothing(was, to, data);
      }
    }

    // ---------------------------------------------------------------- commands

    /** Page accesses never straddle two chunks. */
    lemma AccessFine(loc: Loc, start: nat, len: nat)
      requires Valid() && OnChip(g, c, loc) && start + len <= PAGE_SIZE
      ensures Base(g, loc) + start + len <= |Bytes()|
      ensures len > 0 ==> InOneChunk(Lens(Contents()), Base(g, loc) + start, len)
    {
      hide Base, PerChip;
      BaseBound(g, c, loc);
      FlattenLength(Contents());
      if len > 0 {
        PageAccessInOneChunk(Lens(Contents()), Base(g, loc), start, len);
      }
    }

    /** What the driver sees in the cells. */
    ghost function Pages(): map<Loc, PageBuf>
      reads chunks
      requires Valid()
    {
      Cells(g, c, Bytes())
    }

    method ProgramPage(loc: Loc, start: nat, len: nat, buf: array<bv8>)
      requires Valid() && loc in Locs(g, c) && buf !in chunks && buf.Length == PAGE_SIZE
      requires start % 512 == 0 && len % 512 == 0 && start + len <= PAGE_SIZE
      modifies chunks
      ensures Valid() && loc in old(Pages()) && Base(g, loc) + start + len <= |old(Bytes())|
      ensures Bytes() == Splice(old(Bytes()), Base(g, loc) + start, buf[start..start + len])
      ensures Pages() == old(Pages())[loc := Overlay(old(Pages())[loc], Stretch(start / 512, len / 512),
              PageIn(buf[..], 0))]
    {
      hide Base, Flatten, WholePages, Lens, Locs, Overlay, Stretch, Splice, PageIn, InOneChunk, PageAtLoc, PerChip;
      ThereOn(loc);
      AccessFine(loc, start, len);
      ProgramCells(g, c, Bytes(), loc, start / 512, len / 512, buf[..]);
      assert buf[..][start..start + len] == buf[start..start + len];
      CopyToChunks(Base(g, loc) + start, len, buf, start);
    }

    /** A program: `len` bytes of the buffer from `start` on go to the page at `loc`. Refused
        while the bus or the chip is busy. */
    method WriteData(bus: BusHw, loc: Loc, start: nat, len: nat, buf: array<bv8>, id: nat) returns (code: int)
      requires Valid() && loc in Locs(g, c) && buf !in chunks && buf.Length == PAGE_SIZE
      requires start % 512 == 0 && len % 512 == 0 && start + len <= PAGE_SIZE
      modifies this, chunks, bus
      ensures Valid() && bus.signal == old(bus.signal) && loc in old(Pages())
      ensures Base(g, loc) + start + len <= |old(Bytes())|
      ensures if old(bus.idle && phase == Idle)
              then code == 0 && phase == Programming && latch == loc && this.id == id && timer && signal == old(signal)
                   && Bytes() == Splice(old(Bytes()), Base(g, loc) + start, buf[start..start + len])
              else code == -1 && Bytes() == old(Bytes())
      ensures if old(bus.idle && Accepts(Hw(), Programming, loc))
              then code == 0 && Hw() == Start(old(Hw()), Programming, loc, id) && !bus.idle && bus.timer
                   && Pages()
                      == old(Pages())[loc := Overlay(old(Pages())[loc], Stretch(start / 512, len / 512),
                                                     PageIn(buf[..], 0))]
              else code == -1 && Hw() == old(Hw()) && Pages() == old(Pages())
                   && bus.idle == old(bus.idle) && bus.timer == old(bus.timer)
    {
      hide Valid, Pages, Bytes, Locs, Overlay, Stretch, PageIn, Splice, Base;
      InPages(loc);
      Inside(loc, start, len);
      if !bus.idle || phase != Idle {
        return -1;
      }
      bus.idle := false;
      phase := Programming;
      this.id := id;
      ProgramPage(loc, start, len, buf);
      latch := loc;
      timer := true;
      bus.timer := true;
      return 0;
    }

    lemma Inside(loc: Loc, start: nat, len: nat)
      requires Valid() && loc in Locs(g, c) && start + len <= PAGE_SIZE
      ensures Base(g, loc) + start + len <= |Bytes()|
    {
      ThereOn(loc);
      AccessFine(loc, start, len);
    }

    lemma InPages(loc: Loc)
      requires Valid() && loc in Locs(g, c)
      ensures loc in Pages()
    {
    }

    method SendReadAddr(bus: BusHw, loc: Loc, id: nat) returns (code: int)
      modifies this, bus
      ensures bus.signal == old(bus.signal)
      ensures (code == 0) == old(bus.idle && phase == Idle)
      ensures code == 0 ==>
                phase == ReadAddr && latch == loc && this.id == id && timer && signal == old(signal)
      ensures if old(bus.idle && Accepts(Hw(), ReadAddr, loc))
              then code == 0 && Hw() == Start(old(Hw()), ReadAddr, loc, id) && !bus.idle && bus.timer
              else code == -1 && Hw() == old(Hw()) && bus.idle == old(bus.idle) && bus.timer == old(bus.timer)
    {
      if !bus.idle || phase != Idle {
        return -1;
      }
      bus.idle := false;
      phase, latch, this.id, timer := ReadAddr, loc, id, true;
      bus.timer := true;
      return 0;
    }

    method FetchPage(loc: Loc, start: nat, len: nat, buf: array<bv8>)
      requires Valid() && loc in Locs(g, c) && buf !in chunks && buf.Length == PAGE_SIZE
      requires start % 512 == 0 && len % 512 == 0 && start + len <= PAGE_SIZE
      modifies buf
      ensures Valid() && loc in Pages() && Bytes() == old(Bytes()) && Base(g, loc) + start + len <= |Bytes()|
      ensures buf[..] == Splice(old(buf[..]), start, Bytes()[Base(g, loc) + start..Base(g, loc) + start + len])
      ensures PageIn(buf[..], 0) == Overlay(PageIn(old(buf[..]), 0), Stretch(start / 512, len / 512), Pages()[loc])
    {
      hide Base, Flatten, WholePages, Lens, Locs, Overlay, Stretch, Splice, PageIn, InOneChunk, PageAtLoc, PerChip;
      InPages(loc);
      ThereOn(loc);
      AccessFine(loc, start, len);
      ReadCells(g, c, Bytes(), loc, start / 512, len / 512, buf[..]);
      CopyFromChunks(Base(g, loc) + start, len, buf, start);
    }

    /** The data half of a read: it must name the page that the address half latched. */
    method SendReadData(bus: BusHw, loc: Loc, start: nat, len: nat, buf: array<bv8>, id: nat) returns (code: int)
      requires Valid() && loc in Locs(g, c) && buf !in chunks && buf.Length == PAGE_SIZE
      requires start % 512 == 0 && len % 512 == 0 && start + len <= PAGE_SIZE
      modifies this, buf, bus
      ensures Valid() && bus.signal == old(bus.signal) && loc in Pages() && Pages() == old(Pages())
      ensures Base(g, loc) + start + len <= |Bytes()|
      ensures (code == 0) == old(bus.idle && phase == ReadAddr && latch == loc)
      ensures code == 0 ==>
                && phase == ReadData && latch == loc && this.id == id && timer && signal == old(signal)
                && buf[..] == Splice(old(buf[..]), start, Bytes()[Base(g, loc) + start..Base(g, loc) + start + len])
      ensures if old(bus.idle && Accepts(Hw(), ReadData, loc))
              then code == 0 && Hw() == Start(old(Hw()), ReadData, loc, id) && !bus.idle && bus.timer
                   && PageIn(buf[..], 0)
                      == Overlay(PageIn(old(buf[..]), 0), Stretch(start / 512, len / 512), Pages()[loc])
              else code == -1 && Hw() == old(Hw()) && buf[..] == old(buf[..])
                   && bus.idle == old(bus.idle) && bus.timer == old(bus.timer)
    {
      hide Valid, Pages, Bytes, Locs, Overlay, Stretch, PageIn, Splice, Base;
      InPages(loc);
      Inside(loc, start, len);
      if !bus.idle || phase != ReadAddr || loc != latch {
        return -1;
      }
      FetchPage(loc, start, len, buf);
      bus.idle := false;
      phase, this.id, timer := ReadData, id, true;
      bus.timer := true;
      return 0;
    }

    /** An erase is latched and timed; the bytes stay as they are. */
    method SendErase(bus: BusHw, loc: Loc, id: nat) returns (code: int)
      modifies this, bus
      ensures bus.signal == old(bus.signal)
      ensures (code == 0) == old(bus.idle && phase == Idle)
      ensures code == 0 ==>
                && phase == Erasing && latch == loc.(page := old(latch.page)) && this.id == id && timer
                && signal == old(signal)
      ensures if old(bus.idle && Accepts(Hw(), Erasing, loc))
              then code == 0 && Hw() == Start(old(Hw()), Erasing, loc, id) && !bus.idle && bus.timer
              else code == -1 && Hw() == old(Hw()) && bus.idle == old(bus.idle) && bus.timer == old(bus.timer)
    {
      if !bus.idle || phase != Idle {
        return -1;
      }
      bus.idle := false;
      phase, latch, this.id, timer := Erasing, loc.(page := latch.page), id, true;
      bus.timer := true;
      return 0;
    }

    /** The chip's timer: after a read address the chip waits for the data half, after
        anything else it is idle; the driver is told the number of the command. */
    method TimerCallback() returns (told: nat)
      requires timer
      modifies this
      ensures told == old(id) && Hw() == old(Hw()).(timer := false, signal := true,
              phase := if old(phase) == ReadAddr then ReadAddr else Idle)
    {
      match phase {
        case ReadAddr =>
        case _ => phase := Idle;
      }
      timer, signal := false, true;
      told := id;
    }

    lemma ThereOn(loc: Loc)
      requires Valid() && loc in Locs(g, c)
      ensures OnChip(g, c, loc)
    {
      LocsIs(g, c, loc);
    }
  }

  /** Where the bytes go, and what the chunks hold afterwards. */
  lemma Target(cs: seq<seq<bv8>>, start: nat, data: seq<bv8>) returns (t: nat, done: seq<seq<bv8>>)
    requires |data| > 0 && start + |data| <= |Flatten(cs)| && InOneChunk(Lens(cs), start, |data|)
    ensures t < |cs| && Before(Lens(cs), t) <= start && start + |data| <= Before(Lens(cs), t) + |cs[t]|
    ensures done == cs[t := Splice(cs[t], start - Before(Lens(cs), t), data)]
    ensures Flatten(done) == Splice(Flatten(cs), start, data)
  {
    var lens := Lens(cs);
    t :| t < |lens| && Before(lens, t) <= start && start + |data| <= Before(lens, t) + lens[t];
    FlattenSplice(cs, t, start - Before(lens, t), data);
    done := cs[t := Splice(cs[t], start - Before(lens, t), data)];
  }

  lemma Source(cs: seq<seq<bv8>>, start: nat, n: nat) returns (t: nat)
    requires n > 0 && start + n <= |Flatten(cs)| && InOneChunk(Lens(cs), start, n)
    ensures t < |cs| && Before(Lens(cs), t) <= start && start + n <= Before(Lens(cs), t) + |cs[t]|
    ensures cs[t][start - Before(Lens(cs), t)..start - Before(Lens(cs), t) + n] == Flatten(cs)[start..start + n]
  {
    var lens := Lens(cs);
    t :| t < |lens| && Before(lens, t) <= start && start + n <= Before(lens, t) + lens[t];
    FlattenSlice(cs, t, start - Before(lens, t), n);
  }

  lemma HoldsSame(g: Geometry, c: ChipAddr, a: seq<bv8>, b: seq<bv8>)
    requires |a| == |b|
    ensures HoldsChip(g, c, a) == HoldsChip(g, c, b)
  {
  }

  lemma BeforeZero(lens: seq<nat>)
    ensures Before(lens, 0) == 0
  {
  }
}
