/** The driver's code for one chip, as it runs: the fields it updates in place, its scanning
    loops and its queues, each method proved to do what the step functions of `Chip` say. */
module Driver {
  import opened Flash
  import opened Layout
  import opened Lists
  import opened Sectors
  import opened Addressing
  import opened Spec = Chip
  import opened ChipInv
  import opened ChipTake
  import opened ChipRuns
  import opened ChipSafety
  import opened ChipFinish
  import opened ChipHost
  import Device

  /** A map entry as it is stored: the bitmap and the physical page number. */
  datatype Mapped = Mapped(subPage: set<nat>, ppn: nat)

  /** The location a stored entry stands for. */
  function Locate(g: Geometry, ppn: nat): Loc {
    if Addressing.Valid(g) && ppn < PerDevice(g) then Detail(g, PerDevice(g), ppn).value
        else Loc(PlaneAddr(0, 0, 0, 0), 0, 0)
  }

  function Decoded(g: Geometry, table: map<nat, Mapped>): (r: map<nat, Entry>)
    ensures r.Keys == table.Keys
  {
    map l | l in table :: Entry(table[l].subPage, Locate(g, table[l].ppn))
  }

  /** Storing a page number stores the location: decoding undoes encoding. */
  lemma DecodedUpdate(g: Geometry, table: map<nat, Mapped>, l: nat, bits: set<nat>, loc: Loc)
    requires Addressing.Valid(g) && InGeometry(g, loc)
    ensures Decoded(g, table[l := Mapped(bits, Encode(g, loc))]) == Decoded(g, table)[l := Entry(bits, loc)]
  {
    hide Encode, Detail, PerDevice;
    DecodeEncode(g, PerDevice(g), loc);
  }

  /** A generous limit decodes as the exact one does. */
  lemma DetailAbove(g: Geometry, limit: nat, ppn: nat)
    requires Addressing.Valid(g) && ppn < PerDevice(g) <= limit
    ensures Detail(g, limit, ppn) == Some(Locate(g, ppn))
  {
  }

  /** A victim that is all stale stays the choice, however many blocks are left to scan. */
  lemma {:induction false} VictimFinal(blocks: seq<Block>, i: nat, n: nat, P: int)
    requires i <= n <= |blocks| && Victim(blocks, i).Some? && blocks[Victim(blocks, i).value].cnt.invalid == P
    requires forall b :: b in blocks ==> b.cnt.invalid <= P
    ensures Victim(blocks, n) == Victim(blocks, i)
  {
    if i < n {
      VictimFinal(blocks, i, n - 1, P);
    }
  }

  lemma CursorShape(cfg: Config, m: Spec.Chip, e: nat, k: nat)
    requires Shape(cfg, m) && e in m.cmds
    ensures Shape(cfg, m.(cmds := m.cmds[e := m.cmds[e].(stage := k)]))
  {
    hide PlanesShape, EntriesShape, SubsShape;
  }

  /** Sending a write: first the page is taken, then the transfer is made. */
  lemma SendWriteIs(cfg: Config, m: Spec.Chip, r: nat, idle: bool)
    requires Shape(cfg, m) && r in m.cmds && m.cmds[r].op == Write && m.cmds[r].load.OfSub?
    requires SubOf(m, r).loc.at in m.planes
    requires var at := SubOf(m, r).loc.at; var c := NextCell(m.planes[at]);
             Loc(at, c.block, c.page) in m.cells && Loc(at, c.block, c.page) in m.ages
    ensures var s := SubOf(m, r); var at := s.loc.at; var c := NextCell(m.planes[at]);
            var loc := Loc(at, c.block, c.page);
            var m0 := m.(phase := Programming);
            var m1 := PutSub(m0, r, s.(loc := loc)).(planes := m0.planes[at := AllocPage(cfg.pages, m0.planes[at])]);
            SendWrite(cfg, m, r, idle)
              == if idle && m.hw.phase == Idle
                 then m1.(hw := Start(m1.hw, Programming, loc, m.cmds[r].id),
                          cells := m1.cells[loc := Overlay(m1.cells[loc], Transferred(s.bits), s.buf)],
                          ages := m1.ages[loc := m1.ages[loc] + 1])
                 else m1
  {
    hide Shape, AllocPage, Transferred, Overlay, NextCell;
  }

  /** The relocation of page `s` starts with command `r`. */
  function RereadQueued(m: Spec.Chip, e: nat, k: nat, r: nat, s: Sub, id: nat): Spec.Chip
    requires e in m.cmds
  {
    m.(cmds := m.cmds[r := Command(Read, OfSub(s), id, false, Some(e), 0)]
                     [e := m.cmds[e].(stage := k, related := Some(r))],
       commands := m.commands + [r])
  }

  lemma RereadIs(cfg: Config, m: Spec.Chip, e: nat, k: nat, id: nat, scratch: PageBuf)
    requires Shape(cfg, m) && e in m.erases && e in m.cmds && m.cmds[e].op == Erase
    requires k < |VictimBlock(m, e).pages|
    ensures var at := m.cmds[e].load.at; var page := VictimBlock(m, e).pages[k];
            var r := if m.cmds[e].related.Some? then m.cmds[e].related.value else m.nextRef;
            var buf := if r in m.cmds && m.cmds[r].load.OfSub? then m.cmds[r].load.sub.buf else scratch;
            var m1 := if m.cmds[e].related.None? then m.(nextRef := m.nextRef + 1) else m;
            var s := Sub(page.lpn, page.state, buf, Loc(at, m.planes[at].eraseBlock, k), false, map[], 0, true);
            Reread(cfg, m, e, k, id, scratch) == RereadQueued(m1, e, k, r, s, id)
  {
    EraseTarget(cfg, m, e);
    RelatedOld(cfg, m, e);
    hide Shape;
  }

  lemma RelatedOld(cfg: Config, m: Spec.Chip, e: nat)
    requires Shape(cfg, m) && e in m.erases
    ensures e in m.cmds && (m.cmds[e].related.Some? ==> m.cmds[e].related.value != m.nextRef)
  {
    EraseTarget(cfg, m, e);
    hide Shape;
  }

  lemma RereadCursor(cfg: Config, m: Spec.Chip, e: nat, k: nat, id: nat, scratch: PageBuf)
    requires Shape(cfg, m) && e in m.erases && e in m.cmds && m.cmds[e].op == Erase && k < |VictimBlock(m, e).pages|
    requires var m' := m.(cmds := m.cmds[e := m.cmds[e].(stage := k)]); Shape(cfg, m')
    ensures var m' := m.(cmds := m.cmds[e := m.cmds[e].(stage := k)]);
            Reread(cfg, m', e, k, id, scratch) == Reread(cfg, m, e, k, id, scratch)
  {
    EraseTarget(cfg, m, e);
    RelatedOld(cfg, m, e);
    hide Shape;
    var c := m.cmds[e].(stage := k);
    var m' := m.(cmds := m.cmds[e := c]);
    var r := if c.related.Some? then c.related.value else m.nextRef;
    assert VictimBlock(m', e) == VictimBlock(m, e);
    Overwritten(m.cmds, e, c, r, Reread(cfg, m, e, k, id, scratch).cmds[r], c.(related := Some(r)));
  }

  lemma Overwritten(cmds: map<nat, Command>, e: nat, was: Command, r: nat, read: Command, c: Command)
    ensures cmds[e := was][r := read][e := c] == cmds[r := read][e := c]
  {
  }

  /** Releasing after the cursor has passed the last page is releasing. */
  lemma ReleaseCursor(m: Spec.Chip, e: nat, pages: seq<Page>)
    requires Release.requires(m, e) && VictimBlock(m, e).pages == pages
    requires m.cmds[e].related.Some? ==> m.cmds[e].related.value != e
    ensures var c := m.cmds[e].(stage := |pages|); var m' := m.(cmds := m.cmds[e := c]);
            m'.(cmds := (if c.related.Some? then m'.cmds - {c.related.value} else m'.cmds)[e := c.(related := None)])
              == Release(m, e)
  {
    var c := m.cmds[e].(stage := |pages|);
    var cmds' := m.cmds[e := c];
    if c.related.Some? {
      assert (cmds' - {c.related.value})[e := c.(related := None)] == Release(m, e).cmds;
    } else {
      assert cmds'[e := c.(related := None)] == Release(m, e).cmds;
    }
  }

  /** A visit that neither frees the erase nor queues anything changes nothing. */
  lemma EmptyVisit(cfg: Config, m: Spec.Chip, e: nat, id: nat, scratch: PageBuf)
    requires Shape(cfg, m) && e in m.erases && m.cmds[e].stage <= cfg.pages
    ensures var (m1, go) := ForErase(cfg, m, e, id, scratch); !go && m1.commands == [] ==> m1 == m
  {
    hide Shape;
  }

  /** Moving a stretch of a page moves the transfer of the bitmap. */
  lemma OverlayStretch(under: PageBuf, bits: set<nat>, start: int, len: nat, over: PageBuf)
    requires forall i: nat :: i < 64 ==> (i in Transferred(bits) <==> i in Stretch(start, len))
    ensures Overlay(under, Stretch(start, len), over) == Overlay(under, Transferred(bits), over)
  {
  }

  /** What the sending of command `r` looks at is there. */
  ghost predicate Sendable(cfg: Config, m: Spec.Chip, r: nat) {
    && r in m.cmds
    && (m.cmds[r].op == Write ==>
          && m.cmds[r].load.OfSub? && SubOf(m, r).loc.at in m.planes
          && var at := SubOf(m, r).loc.at; var pl := m.planes[at];
             && pl.active < |pl.blocks| && AllocPage(cfg.pages, pl).active < |pl.blocks|
             && var loc := Loc(at, NextCell(pl).block, NextCell(pl).page); loc in m.cells && loc in m.ages)
    && (m.cmds[r].op == Read ==> m.cmds[r].load.OfSub? && SubOf(m, r).loc in m.cells && SubOf(m, r).loc in m.ages)
    && (m.cmds[r].op == Erase ==> m.cmds[r].load.EraseAt? && m.cmds[r].load.at in m.planes)
  }

  lemma ShapeSendable(cfg: Config, m: Spec.Chip, r: nat)
    requires Shape(cfg, m) && r in m.cmds
    requires m.cmds[r].op == Write ==>
               && m.cmds[r].load.OfSub? && SubOf(m, r).loc.at in m.planes
               && var pl := m.planes[SubOf(m, r).loc.at];
                  pl.active < |pl.blocks| == cfg.blocks && AllocPage(cfg.pages, pl).active < cfg.blocks
                      && pl.blocks[pl.active].startWrite < cfg.pages
    ensures Sendable(cfg, m, r)
  {
    hide AllocPage, SubsShape, ListShape, EntriesShape;
    assert CommandShape(cfg, m.cmds[r]);
  }

  lemma DieThere(cfg: Config, m: Spec.Chip)
    requires Shape(cfg, m)
    ensures m.planes.Keys == cfg.addrs
  {
  }

  lemma DispatchSendable(cfg: Config, m: Spec.Chip, id: nat, scratch: PageBuf, junk: seq<PageBuf>)
    requires Roomy(cfg) && Inv(cfg, m) && MayDispatch(cfg, m)
    ensures Defined(cfg, m, Dispatches(id, scratch, junk)) && Inv(cfg, Next(cfg, m, Dispatches(id, scratch, junk)))
    ensures var (m1, r) := GetCommand(cfg, m, id, scratch);
            r.Some? ==> Sendable(cfg, m1, r.value) && Accepts(m.hw, KindOf(m1.cmds[r.value]), Target(m1, r.value))
  {
    hide Inv, Roomy, Shape, GetCommand, AllocPage, Sendable, Accepts, KindOf, Target, Dispatch;
    DispatchKeeps(cfg, m, id, scratch, junk);
    RoomBeforeProgram(cfg, m, id, scratch);
    SendAccepted(cfg, m, id, scratch);
    var (m1, r) := GetCommand(cfg, m, id, scratch);
    if r.Some? {
      ShapeSendable(cfg, m1, r.value);
    }
  }

  lemma QueueThere(cfg: Config, m: Spec.Chip)
    requires Shape(cfg, m)
    ensures forall i :: 0 <= i < |m.commands| ==>
            m.commands[i] in m.cmds && m.cmds[m.commands[i]].load.OfSub? && SubOf(m, m.commands[i]).lpn in m.entries
    ensures forall i :: 0 <= i < |m.erases| ==> m.erases[i] in m.cmds
  {
    forall i | 0 <= i < |m.commands| ensures m.commands[i] in m.cmds && m.cmds[m.commands[i]].load.OfSub?
        && SubOf(m, m.commands[i]).lpn in m.entries {
      assert CommandShape(cfg, m.cmds[m.commands[i]]);
    }
  }

  lemma DataBits(cfg: Config, m: Spec.Chip)
    requires Inv(cfg, m) && m.phase == ReadData && m.hw.signal && m.pending.None?
    ensures |m.incompletedR| == 1 && m.incompletedR[0] in m.cmds && m.cmds[m.incompletedR[0]].load.OfSub?
    ensures m.cmds[m.incompletedR[0]].related.None? ==> forall i :: i in SubOf(m, m.incompletedR[0]).bits ==>
            i < SECTORS
  {
    hide Inv, Shape, Reads, Writes, EraseQueue, Marked;
    ReadDataFacts(cfg, m);
    hide HostReadOk, Within;
    if m.cmds[m.incompletedR[0]].related.None? {
      HostBits(SubOf(m, m.incompletedR[0]), AllReads(m), AllWrites(m), m.cells, m.ages, m.store);
    }
  }

  lemma HostBits(s: Sub, q: seq<Sub>, w: seq<Sub>, cells: map<Loc, PageBuf>, ages: map<Loc, nat>, store: map<nat, Data>)
    requires HostReadOk(s, true, q, w, cells, ages, store)
    ensures forall i :: i in s.bits ==> i < SECTORS
  {
    hide Holds, Firm, Awaited;
  }

  lemma HomesMapped(cfg: Config, m: Spec.Chip, l: nat)
    requires Shape(cfg, m) && l in cfg.homes
    ensures l in m.entries && l in m.store
  {
  }

  lemma FewInvalid(cfg: Config, m: Spec.Chip, a: PlaneAddr)
    requires Inv(cfg, m) && a in m.planes
    ensures forall b :: b in m.planes[a].blocks ==> b.cnt.invalid <= cfg.pages
  {
    hide MapForward, MapBackward, Stored, Writes, Reads, EraseQueue, Marked, Room, Collecting, Burnt, InStep, Hosts,
         Shape;
    var pl := m.planes[a];
    var f := CellAt(Burning(m), a);
    assert PlaneExact(cfg.blocks, cfg.pages, pl, f);
    forall i | 0 <= i < |pl.blocks| ensures pl.blocks[i].cnt.invalid <= cfg.pages {
      BlockCountersNatural(cfg.pages, pl.blocks[i], BusyIn(f, i));
    }
  }

  lemma PendingPlane(cfg: Config, m: Spec.Chip)
    requires Shape(cfg, m) && m.pending.Some?
    ensures m.pending.value in m.planes
  {
  }

  lemma EraseTarget(cfg: Config, m: Spec.Chip, e: nat)
    requires Shape(cfg, m) && e in m.erases
    ensures e in m.cmds && m.cmds[e].load.EraseAt? && m.cmds[e].load.at in m.planes
    ensures m.planes[m.cmds[e].load.at].eraseBlock < |m.planes[m.cmds[e].load.at].blocks|
    ensures |VictimBlock(m, e).pages| == cfg.pages
    ensures m.cmds[e].related.Some? ==> m.cmds[e].related.value in m.cmds && m.cmds[e].related.value != e
    ensures m.nextRef !in m.cmds && m.cmds[e].op == Erase
  {
    assert CommandShape(cfg, m.cmds[e]);
    assert PlaneShape(cfg, m.planes[m.cmds[e].load.at]);
  }

  /** The sectors of a transfer of `len` sectors from `start` on. */
  function Stretch(start: int, len: nat): set<nat> {
    if start < 0 then {} else Span(start, start + len)
  }

  lemma RunTransferred(bits: set<nat>, start: int, len: nat, end: nat)
    requires start == -1 ==> len == 0 && end == 64 && forall k: nat :: k < end ==> k !in bits
    requires start != -1 ==> 0 <= start && start + len == end && len > 0 && (end == 64 || end !in bits)
    requires start != -1 ==> forall k: nat :: k < start ==> k !in bits
    requires start != -1 ==> forall k: nat :: start <= k < end ==> k in bits
    ensures forall i: nat :: i < 64 ==> (i in Transferred(bits) <==> i in Stretch(start, len))
  {
    forall i: nat | i < 64 ensures i in Transferred(bits) <==> i in Stretch(start, len) {
      if start != -1 && start <= i < end {
        assert !HoleBelow(bits, i);
      } else if start != -1 && end < i {
        assert start in bits && end !in bits;
        assert HoleBelow(bits, i);
      }
    }
  }

  /** The counters above the planes that one chip's operations move. */
  datatype Above = Above(chan: Counts, chip: Counts, dies: map<nat, Counts>)

  function Add(a: Above, die: nat, delta: Counts): Above {
    Above(Plus(a.chan, delta), Plus(a.chip, delta), a.dies[die := Plus(if die in a.dies then a.dies[die]
        else ZERO, delta)])
  }

  function MovedAbove(a: Above, moved: Option<(PlaneAddr, Counts)>): Above {
    if moved.Some? then Add(a, moved.value.0.die, moved.value.1) else a
  }

  /** Step `st` may happen in state `m` and leads to `m'`. */
  ghost predicate Takes(cfg: Config, m: Spec.Chip, st: Step, m': Spec.Chip) {
    Guard(cfg, m, st) && Defined(cfg, m, st) && m' == Next(cfg, m, st)
  }

  /** The plane whose counters step `st` moves, and by how much. */
  ghost function MovedBy(cfg: Config, m: Spec.Chip, st: Step): Option<(PlaneAddr, Counts)> {
    if Defined(cfg, m, st) then Device.Moved(cfg, m, st) else None
  }

  /** What other objects see of a chip object and of a channel object. */
  datatype ChipShot = ChipShot(m: Spec.Chip, cnt: Counts, dies: map<nat, Counts>)

  datatype ChannelShot = ChannelShot(ch: Device.Channel, cnt: Counts)

  class ChannelInfo {
    var idle: bool
    var busIdle: bool
    var timer: bool
    var signal: bool
    var cnt: Counts

    constructor (c: Counts)
      ensures idle && busIdle && !timer && !signal && cnt == c
    {
      idle, busIdle, timer, signal, cnt := true, true, false, false, c;
    }

    function View(): Device.Channel
      reads this
    {
      Device.Channel(idle, busIdle, timer, signal)
    }

    function Shot(): ChannelShot
      reads this
    {
      ChannelShot(View(), cnt)
    }
  }

  class ChipInfo {
    const g: Geometry
    const cfg: Config
    const channel: ChannelInfo
    /** Page numbers from here on are refused by the decoder. */
    const limit: nat

    var phase: Phase
    var cnt: Counts
    var dieCnt: map<nat, Counts>
    var commands: seq<nat>
    var incompletedR: seq<nat>
    var erases: seq<nat>
    var cmds: map<nat, Command>
    var nextRef: nat
    var rQueue: seq<Sub>
    var wQueue: seq<Sub>
    var rHand: seq<Sub>
    var wHand: seq<Sub>
    var pending: Option<PlaneAddr>
    var planes: map<PlaneAddr, Plane>
    var table: map<nat, Mapped>
    var hw: Nand
    var cells: map<Loc, PageBuf>
    // history, which no branch looks at
    var ages: map<Loc, nat>
    var store: map<nat, Data>

    constructor (g: Geometry, c: ChipAddr, split: bool, channel: ChannelInfo, limit: nat,
                 blank: map<PlaneAddr, Plane>, cells: map<Loc, PageBuf>, hw: Nand)
      requires Addressing.Valid(g) && PerDevice(g) <= limit && c.channel < g.channels && c.chip < g.chips
      ensures Valid()
      ensures this.g == g && this.cfg == ConfigOf(g, c, split) && this.channel == channel
      ensures planes == blank && this.cells == cells && this.hw == hw && phase == Idle
      ensures commands == [] && incompletedR == [] && erases == [] && cmds == map[] && rQueue == []
      ensures wQueue == [] && rHand == [] && wHand == [] && pending.None? && ages == map loc | loc in cells :: 0
      ensures table.Keys == cfg.homes.Keys && forall l :: l in table ==> table[l].subPage == {}
      ensures cnt == Counts(g.dies * (g.planes * PerPlane(g)), 0, 0)
      ensures forall d: nat :: d < g.dies ==> d in dieCnt && dieCnt[d] == Counts(g.planes * PerPlane(g), 0, 0)
      ensures store.Keys == cfg.homes.Keys && forall l :: l in store ==> store[l] == map[]
    {
      hide MapSize, Home, PerDevice, PerPlane, Threshold;
      this.g, this.cfg, this.channel, this.limit := g, ConfigOf(g, c, split), channel, limit;
      phase := Idle;
      cnt := Counts(g.dies * (g.planes * PerPlane(g)), 0, 0);
      dieCnt := map d | d in Span(0, g.dies) :: Counts(g.planes * PerPlane(g), 0, 0);
      commands, incompletedR, erases, cmds, nextRef := [], [], [], map[], 0;
      rQueue, wQueue, rHand, wHand, pending, planes := [], [], [], [], None, blank;
      table := map l | l in ConfigOf(g, c, split).homes :: Mapped({}, 0);
      this.hw, this.cells, this.ages := hw, cells, map loc | loc in cells :: 0;
      store := map l | l in ConfigOf(g, c, split).homes :: map[];
    }

    ghost predicate Valid()
      reads `dieCnt, `table
    {
      && Addressing.Valid(g) && PerDevice(g) <= limit
      && cfg.blocks == g.blocks && cfg.pages == g.pages
      && (forall a :: a in cfg.addrs ==> OnDevice(g, a))
      && (forall l :: l in cfg.homes ==> cfg.homes[l] == Home(g, l))
      && (forall d: nat :: d < g.dies ==> d in dieCnt)
      && (forall l :: l in table && table[l].subPage != {} ==> table[l].ppn < PerDevice(g))
    }

    /** The state that the step functions work on. */
    ghost function View(): Spec.Chip
      reads this
    {
      Spec.Chip(phase, commands, incompletedR, erases, cmds, nextRef, rQueue, wQueue, rHand, wHand,
                pending, planes, Decoded(g, table), hw, cells, ages, store)
    }

    ghost function Shot(): ChipShot
      reads this
    {
      ChipShot(View(), cnt, dieCnt)
    }

    function Sums(): Above
      reads `cnt, `dieCnt, channel`cnt
    {
      Above(channel.cnt, cnt, dieCnt)
    }

    // ---------------------------------------------------------------- pages

    /** Three of the four levels of counters; the plane's own are moved by the caller. */
    method Move(die: nat, delta: Counts)
      requires die in dieCnt
      modifies `cnt, `dieCnt, channel`cnt
      ensures Sums() == Add(old(Sums()), die, delta)
      ensures old(Valid()) ==> Valid()
    {
      channel.cnt := Plus(channel.cnt, delta);
      cnt := Plus(cnt, delta);
      dieCnt := dieCnt[die := Plus(dieCnt[die], delta)];
    }

    method AllocateLocationInPlane(at: PlaneAddr) returns (block: nat, page: nat)
      requires at in planes && at.die in dieCnt && planes[at].active < |planes[at].blocks|
      requires AllocPage(cfg.pages, planes[at]).active < |planes[at].blocks|
      modifies `planes, `cnt, `dieCnt, channel`cnt
      ensures Cell(block, page) == old(NextCell(planes[at]))
      ensures planes == old(planes)[at := AllocPage(cfg.pages, old(planes[at]))]
      ensures Sums() == Add(old(Sums()), at.die, Device.TAKEN)
      ensures old(Valid()) ==> Valid()
    {
      ghost var was := planes[at];
      Move(at.die, Device.TAKEN);
      var pl := planes[at];
      pl := pl.(cnt := Counts(pl.cnt.free - 1, pl.cnt.valid + 1, pl.cnt.invalid));
      block := pl.active;
      page := pl.blocks[block].startWrite;
      var blk := pl.blocks[block];
      blk := blk.(cnt := Counts(blk.cnt.free - 1, blk.cnt.valid + 1, blk.cnt.invalid));
      blk := blk.(startWrite := blk.startWrite + 1);
      pl := pl.(blocks := pl.blocks[block := blk]);
      if blk.cnt.free == 0 {
        var activeBlock: nat := pl.active;
        ghost var left: nat := |pl.blocks|;
        while pl.blocks[activeBlock].cnt.free != cfg.pages
          invariant activeBlock < |pl.blocks| && left <= |pl.blocks|
          invariant FreeBlockFrom(pl.blocks, cfg.pages, activeBlock, left) == AllocPage(cfg.pages, was).active
          decreases left
        {
          activeBlock := activeBlock + 1;
          if activeBlock == |pl.blocks| {
            activeBlock := 0;
          }
          left := left - 1;
        }
        pl := pl.(active := activeBlock);
      }
      planes := planes[at := pl];
    }

    method InvalidatePageAt(loc: Loc)
      requires loc.at in planes && loc.at.die in dieCnt && loc.block < |planes[loc.at].blocks|
      requires loc.page < |planes[loc.at].blocks[loc.block].pages|
      modifies `planes, `cnt, `dieCnt, channel`cnt
      ensures var m := old(View());
              View() == m.(planes := m.planes[loc.at := InvalidatePage(m.planes[loc.at], loc.block, loc.page)])
      ensures Sums() == Add(old(Sums()), loc.at.die, STALE)
      ensures old(Valid()) ==> Valid()
    {
      Move(loc.at.die, STALE);
      var pl := planes[loc.at];
      var blk := pl.blocks[loc.block];
      blk := blk.(cnt := Plus(blk.cnt, STALE));
      blk := blk.(pages := blk.pages[loc.page := blk.pages[loc.page].(state := {})]);
      pl := pl.(cnt := Plus(pl.cnt, STALE));
      planes := planes[loc.at := pl.(blocks := pl.blocks[loc.block := blk])];
    }

    method EraseBlockAt(at: PlaneAddr)
      requires at in planes && at.die in dieCnt && planes[at].eraseBlock < |planes[at].blocks|
      requires |planes[at].blocks[planes[at].eraseBlock].pages| == cfg.pages
      modifies `planes, `cnt, `dieCnt, channel`cnt
      ensures var m := old(View());
              View() == m.(planes := m.planes[at := EraseBlock(cfg.pages, m.planes[at], m.planes[at].eraseBlock)])
      ensures Sums() == Add(old(Sums()), at.die, Device.Erased(cfg.pages))
      ensures old(Valid()) ==> Valid()
    {
      Move(at.die, Device.Erased(cfg.pages));
      var pl := planes[at];
      var b := pl.eraseBlock;
      ghost var was := pl.blocks[b].pages;
      var pages := pl.blocks[b].pages;
      for i := 0 to cfg.pages
        invariant |pages| == |was|
        invariant forall p :: 0 <= p < i ==> pages[p] == was[p].(state := {})
        invariant forall p :: i <= p < |was| ==> pages[p] == was[p]
      {
        pages := pages[i := pages[i].(state := {})];
      }
      assert pages == Blank(was);
      pl := pl.(cnt := Plus(pl.cnt, Counts(cfg.pages, 0, 0 - cfg.pages)));
      planes := planes[at := pl.(blocks := pl.blocks[b := Block(Counts(cfg.pages, 0, 0), 0, pages)])];
    }

    // ---------------------------------------------------------------- the map

    method SetMapEntry(l: nat, bits: set<nat>, loc: Loc)
      requires Valid() && InGeometry(g, loc)
      modifies `table
      ensures Valid() && View() == old(View()).(entries := old(View().entries)[l := Entry(bits, loc)])
    {
      hide Encode, PerDevice, Locate;
      DecodedUpdate(g, table, l, bits, loc);
      DecodeEncode(g, PerDevice(g), loc);
      hide Decoded;
      table := table[l := Mapped(bits, Encode(g, loc))];
    }

    method CommitPageAt(loc: Loc, bits: set<nat>, lpn: nat)
      requires loc.at in planes && loc.block < |planes[loc.at].blocks|
      requires loc.page < |planes[loc.at].blocks[loc.block].pages|
      modifies `planes
      ensures var m := old(View());
              View() == m.(planes := m.planes[loc.at := CommitPage(m.planes[loc.at], loc.block, loc.page, bits, lpn)])
      ensures forall l :: old(HasPage(l)) ==> HasPage(l)
    {
      var pl := planes[loc.at];
      var blk := pl.blocks[loc.block];
      blk := blk.(pages := blk.pages[loc.page := Page(bits, lpn)]);
      planes := planes[loc.at := pl.(blocks := pl.blocks[loc.block := blk])];
    }

    predicate HasPage(loc: Loc)
      reads `planes
    {
      loc.at in planes && loc.block < |planes[loc.at].blocks| && loc.page < |planes[loc.at].blocks[loc.block].pages|
    }

    /** The map entry of a programmed page moves to it, the page it leaves becomes stale. */
    method UpdateMapAndInvalidatePage(s: Sub)
      requires Valid() && InGeometry(g, s.loc) && s.lpn in table && HasPage(s.loc)
      requires table[s.lpn].subPage != {} ==>
                 HasPage(Locate(g, table[s.lpn].ppn)) && Locate(g, table[s.lpn].ppn).at.die in dieCnt
      modifies `table, `planes, `cnt, `dieCnt, channel`cnt
      ensures Valid() && UpdateMap.requires(old(View()), s) && View() == UpdateMap(old(View()), s)
      ensures Sums() == if old(table[s.lpn].subPage) == {} then old(Sums())
                        else Add(old(Sums()), old(Locate(g, table[s.lpn].ppn)).at.die, STALE)
    {
      hide Valid, InvalidatePage, CommitPage, Locate, Decoded, InGeometry, Detail, PerDevice, Sums, Add;
      var pre := table[s.lpn];
      EntryIs(s.lpn);
      if pre.subPage != {} {
        ValidEntry(s.lpn);
      }
      SetMapEntry(s.lpn, s.bits, s.loc);
      CommitPageAt(s.loc, s.bits, s.lpn);
      if pre.subPage != {} {
        var prelocation := Detail(g, limit, pre.ppn).value;
        assert HasPage(prelocation);
        InvalidatePageAt(prelocation);
      }
    }

    lemma ValidEntry(l: nat)
      requires Valid() && l in table && table[l].subPage != {}
      ensures Addressing.Valid(g) && Detail(g, limit, table[l].ppn) == Some(Locate(g, table[l].ppn))
    {
      DetailAbove(g, limit, table[l].ppn);
    }

    // ---------------------------------------------------------------- collection

    /** The greedy scan for a victim; it stops early at a block that is all stale. */
    static method PickVictim(blocks: seq<Block>, pages: nat) returns (target: Option<nat>)
      requires forall b :: b in blocks ==> b.cnt.invalid <= pages
      ensures target == Victim(blocks, |blocks|)
    {
      target := None;
      var i := 0;
      while i < |blocks|
        invariant i <= |blocks| && target == Victim(blocks, i)
      {
        var b := blocks[i];
        if b.cnt.free == 0 && b.cnt.invalid != 0 && (target.None? || b.cnt.invalid > blocks[target.value].cnt.invalid) {
          target := Some(i);
          if b.cnt.invalid == pages {
            VictimFinal(blocks, i + 1, |blocks|, pages);
            break;
          }
        }
        i := i + 1;
      }
    }

    /** The victim is noted in the plane and an erase command for it is queued. */
    method QueueErase(at: PlaneAddr, victim: nat, id: nat)
      requires at in planes
      modifies `planes, `cmds, `nextRef, `erases
      ensures var m := old(View());
              View() == m.(planes := m.planes[at := m.planes[at].(eraseUsed := true, eraseBlock := victim)],
                           cmds := m.cmds[m.nextRef := Command(Erase, EraseAt(at), id, false, None, 0)],
                           nextRef := m.nextRef + 1, erases := m.erases + [m.nextRef])
    {
      hide Decoded;
      planes := planes[at := planes[at].(eraseBlock := victim, eraseUsed := true)];
      cmds := cmds[nextRef := Command(Erase, EraseAt(at), id, false, None, 0)];
      erases := erases + [nextRef];
      nextRef := nextRef + 1;
    }

    /** Start collecting when the plane runs low and has a victim. */
    method CheckAndCreateGc(id: nat)
      requires Valid() && Roomy(cfg) && Inv(cfg, View()) && pending.Some?
      modifies `pending, `planes, `cmds, `nextRef, `erases
      ensures Valid() && Takes(cfg, old(View()), Checks(id), View()) && Inv(cfg, View())
    {
      hide Decoded, Shape, Valid, Victim, Inv, Roomy;
      StepKeeps(cfg, View(), Checks(id));
      InvShape(cfg, View());
      PendingPlane(cfg, View());
      var at := pending.value;
      FewInvalid(cfg, View(), at);
      pending := None;
      if !planes[at].eraseUsed && planes[at].cnt.free <= cfg.threshold {
        var target := PickVictim(planes[at].blocks, cfg.pages);
        if target.Some? {
          QueueErase(at, target.value, id);
        }
      }
    }

    method AddReadWriteCmd(r: nat)
      modifies `commands
      ensures commands == old(commands) + [r]
    {
      commands := commands + [r];
    }

    /** The read half of a relocation is queued again as its write half. */
    method TurnToWrite(r: nat, id: nat)
      requires Valid() && r in cmds
      modifies `cmds, `commands
      ensures Valid() && View() == Rewrite(old(View()), r, id)
    {
      hide Decoded, Valid;
      cmds := cmds[r := cmds[r].(completed := false, id := id, op := Write, stage := 0)];
      AddReadWriteCmd(r);
    }

    /** The erase cursor moves on to the next live page. */
    method AdvanceCursor(e: nat, pages: seq<Page>)
      requires e in cmds && cmds[e].stage <= |pages|
      modifies `cmds
      ensures cmds == old(cmds)[e := old(cmds[e]).(stage := NextLive(pages, old(cmds[e].stage)))]
    {
      while cmds[e].stage < |pages|
        invariant e in cmds && cmds == old(cmds)[e := old(cmds[e]).(stage := cmds[e].stage)] && cmds[e].stage <= |pages|
        invariant NextLive(pages, cmds[e].stage) == NextLive(pages, old(cmds[e].stage))
        decreases |pages| - cmds[e].stage
      {
        if pages[cmds[e].stage].state != {} {
          break;
        }
        cmds := cmds[e := cmds[e].(stage := cmds[e].stage + 1)];
      }
    }

    /** The relocation of page `k` of the victim starts with a read. */
    method StartRead(e: nat, k: nat, id: nat, scratch: PageBuf)
      requires Valid() && Shape(cfg, View()) && e in erases && cmds[e].stage == k
      requires k < |VictimBlock(View(), e).pages|
      modifies `cmds, `nextRef, `commands
      ensures Valid() && View() == Reread(cfg, old(View()), e, k, id, scratch)
    {
      hide Decoded, Valid, Shape;
      EraseTarget(cfg, View(), e);
      RereadIs(cfg, View(), e, k, id, scratch);
      var at := cmds[e].load.at;
      var page := planes[at].blocks[planes[at].eraseBlock].pages[k];
      var r := nextRef;
      if cmds[e].related.None? {
        nextRef := nextRef + 1;
      } else {
        r := cmds[e].related.value;
      }
      var buf := scratch;
      if r in cmds && cmds[r].load.OfSub? {
        buf := cmds[r].load.sub.buf;
      }
      QueueRead(e, r, Sub(page.lpn, page.state, buf, Loc(at, planes[at].eraseBlock, k), false, map[], 0, true), id);
    }

    method QueueRead(e: nat, r: nat, s: Sub, id: nat)
      requires e in cmds && e != r
      modifies `cmds, `commands
      ensures View() == RereadQueued(old(View()), e, old(cmds[e].stage), r, s, id)
    {
      hide Decoded;
      cmds := cmds[r := Command(Read, OfSub(s), id, false, Some(e), 0)];
      cmds := cmds[e := cmds[e].(related := Some(r))];
      AddReadWriteCmd(r);
    }

    /** The cursor looks for a live page: with none left the erase is released. */
    method RelocateOrRelease(e: nat, id: nat, scratch: PageBuf) returns (go: bool)
      requires Valid() && Shape(cfg, View()) && e in erases && cmds[e].stage <= cfg.pages
      modifies `cmds, `nextRef, `commands
      ensures Valid() && NextLive.requires(VictimBlock(old(View()), e).pages, old(cmds[e].stage))
      ensures var k := NextLive(VictimBlock(old(View()), e).pages, old(cmds[e].stage));
              if k == cfg.pages then go && View() == Release(old(View()), e)
              else !go && View() == Reread(cfg, old(View()), e, k, id, scratch)
    {
      hide Decoded, Shape, Valid, Reread, Release, NextLive;
      EraseTarget(cfg, View(), e);
      var at := cmds[e].load.at;
      var target := planes[at].blocks[planes[at].eraseBlock];
      CursorShape(cfg, View(), e, NextLive(target.pages, cmds[e].stage));
      AdvanceCursor(e, target.pages);
      if cmds[e].stage == cfg.pages {
        ReleaseErase(e);
        ReleaseCursor(old(View()), e, target.pages);
        return true;
      }
      RereadCursor(cfg, old(View()), e, cmds[e].stage, id, scratch);
      StartRead(e, cmds[e].stage, id, scratch);
      return false;
    }

    /** The relocation command is freed and the erase has nothing to wait for. */
    method ReleaseErase(e: nat)
      requires e in cmds && (cmds[e].related.Some? ==> cmds[e].related.value != e)
      modifies `cmds
      ensures var m := old(View());
              View() == m.(cmds := (if m.cmds[e].related.Some? then m.cmds - {m.cmds[e].related.value} else m.cmds)
                                   [e := m.cmds[e].(related := None)])
    {
      if cmds[e].related.Some? {
        cmds := cmds - {cmds[e].related.value};
        cmds := cmds[e := cmds[e].(related := None)];
      }
    }

    /** One visit of the collector; answers whether the erase itself may go out. */
    method ForEraseVisit(e: nat, id: nat, scratch: PageBuf) returns (go: bool)
      requires Valid() && Shape(cfg, View()) && e in erases && cmds[e].stage <= cfg.pages
      modifies `cmds, `nextRef, `commands
      ensures Valid() && (View(), go) == ForErase(cfg, old(View()), e, id, scratch)
    {
      hide Decoded, Shape, Valid, Rewrite, Reread, Release;
      EraseTarget(cfg, View(), e);
      var at := cmds[e].load.at;
      if cmds[e].related.Some? && !cmds[cmds[e].related.value].completed {
        return false;
      }
      if cmds[e].related.Some? {
        if cmds[cmds[e].related.value].op == Read {
          TurnToWrite(cmds[e].related.value, id);
          return false;
        }
      } else if planes[at].blocks[planes[at].eraseBlock].cnt.invalid == cfg.pages {
        return true;
      }
      go := RelocateOrRelease(e, id, scratch);
    }

    // ---------------------------------------------------------------- dispatch

    method GetSubRequestsRead() returns (s: Option<Sub>)
      modifies `rQueue
      ensures if old(rQueue) == [] then s.None? && rQueue == []
              else s == Some(old(rQueue[0])) && rQueue == old(rQueue)[1..]
    {
      if rQueue == [] {
        return None;
      }
      s := Some(rQueue[0]);
      rQueue := rQueue[1..];
    }

    /** The first queued write that does not wait for a companion read is unlinked. */
    method GetSubRequestsWrite() returns (s: Option<Sub>)
      modifies `wQueue
      ensures var k := FirstReady(old(wQueue));
              if k == |old(wQueue)| then s.None? && wQueue == old(wQueue)
              else s == Some(old(wQueue)[k]) && wQueue == Without(old(wQueue), k)
    {
      var i := 0;
      while i < |wQueue| && wQueue[i].paired
        invariant i <= |wQueue| && FirstReady(wQueue) == i + FirstReady(wQueue[i..])
      {
        assert wQueue[i..][1..] == wQueue[i + 1..];
        i := i + 1;
      }
      if i == |wQueue| {
        return None;
      }
      s := Some(wQueue[i]);
      wQueue := wQueue[..i] + wQueue[i + 1..];
    }

    method GetCommandUsbssd(id: nat, scratch: PageBuf) returns (r: Option<nat>)
      requires Valid() && Shape(cfg, View())
      requires erases != [] ==> cmds[erases[0]].stage <= cfg.pages
      modifies `cmds, `nextRef, `commands, `rQueue, `wQueue
      ensures Valid() && (View(), r) == GetCommand(cfg, old(View()), id, scratch)
    {
      hide Shape, Valid, ForErase, TakeHost, Decoded;
      if incompletedR != [] {
        return Some(incompletedR[0]);
      }
      if erases != [] {
        EmptyVisit(cfg, View(), erases[0], id, scratch);
        var go := ForEraseVisit(erases[0], id, scratch);
        if go {
          return Some(erases[0]);
        }
      }
      if commands != [] {
        return Some(commands[0]);
      }
      r := TakeHostCommand(id);
    }

    /** A command for the next waiting sub-request, reads before writes. */
    method TakeHostCommand(id: nat) returns (r: Option<nat>)
      requires Valid() && Shape(cfg, View())
      modifies `cmds, `nextRef, `commands, `rQueue, `wQueue
      ensures Valid() && (View(), r) == TakeHost(cfg, old(View()), id)
    {
      hide Shape, Valid, FirstReady, Decoded;
      var s := GetSubRequestsRead();
      if s.Some? {
        r := NewCommand(Op.Read, s.value, id);
      } else {
        s := GetSubRequestsWrite();
        if s.None? {
          return None;
        }
        r := NewCommand(Op.Write, s.value, id);
      }
    }

    lemma EntryIs(l: nat)
      requires l in table
      ensures Decoded(g, table)[l] == Entry(table[l].subPage, Locate(g, table[l].ppn))
    {
    }

    method NewCommand(op: Op, s: Sub, id: nat) returns (r: Option<nat>)
      modifies `cmds, `nextRef, `commands
      ensures r == Some(old(nextRef)) && View() == Enqueue(old(View()), op, s, id)
    {
      hide Decoded;
      r := Some(nextRef);
      cmds := cmds[nextRef := Command(op, OfSub(s), id, false, None, 0)];
      commands := commands + [nextRef];
      nextRef := nextRef + 1;
    }

    // ---------------------------------------------------------------- the NAND chip

    /** The channel's half of a command that the NAND side accepts. */
    method TakeBus()
      modifies channel`busIdle, channel`timer
      ensures !channel.busIdle && channel.timer
    {
      channel.busIdle := false;
      channel.timer := true;
    }

    /** Programs `len` sectors from `start` on, unless channel or chip is busy. */
    method WriteData(loc: Loc, start: int, len: nat, buf: PageBuf, id: nat)
      requires loc in cells && loc in ages
      modifies `hw, `cells, `ages, channel`busIdle, channel`timer
      ensures var m := old(View()); var ok := old(channel.busIdle && hw.phase == Idle);
              && View() == (if ok then
                   m.(hw := Start(m.hw, Programming, loc, id), ages := m.ages[loc := m.ages[loc] + 1],
                      cells := m.cells[loc := Overlay(m.cells[loc], Stretch(start, len), buf)])
                 else m)
              && channel.busIdle == (old(channel.busIdle) && !ok) && channel.timer == (old(channel.timer) || ok)
    {
      hide Decoded, Stretch, Overlay;
      if !channel.busIdle || hw.phase != Idle {
        return;
      }
      TakeBus();
      hw := hw.(phase := Programming, latch := loc, id := id, timer := true);
      cells := cells[loc := Overlay(cells[loc], Stretch(start, len), buf)];
      ages := ages[loc := ages[loc] + 1];
    }

    method SendReadAddr(loc: Loc, id: nat)
      modifies `hw, channel`busIdle, channel`timer
      ensures if old(channel.busIdle && Accepts(hw, ReadAddr, loc))
              then hw == Start(old(hw), ReadAddr, loc, id) && !channel.busIdle && channel.timer
              else hw == old(hw) && channel.busIdle == old(channel.busIdle) && channel.timer == old(channel.timer)
    {
      if !channel.busIdle || hw.phase != Idle {
        return;
      }
      TakeBus();
      hw := hw.(phase := ReadAddr, latch := loc, id := id, timer := true);
    }

    /** The data half of a read, which must name the page that was latched. */
    method SendReadData(loc: Loc, start: int, len: nat, buf: PageBuf, id: nat) returns (data: PageBuf)
      requires loc in cells
      modifies `hw, channel`busIdle, channel`timer
      ensures if old(channel.busIdle && Accepts(hw, ReadData, loc))
              then hw == Start(old(hw), ReadData, loc, id) && !channel.busIdle && channel.timer
                   && data == Overlay(buf, Stretch(start, len), cells[loc])
              else hw == old(hw) && data == buf
                   && channel.busIdle == old(channel.busIdle) && channel.timer == old(channel.timer)
    {
      data := buf;
      if !channel.busIdle || hw.phase != ReadAddr || hw.latch != loc {
        return;
      }
      TakeBus();
      data := Overlay(buf, Stretch(start, len), cells[loc]);
      hw := hw.(phase := ReadData, id := id, timer := true);
    }

    /** An erase is timed and latched; what it leaves in the block is left open. */
    method SendEraseTo(loc: Loc, junk: seq<PageBuf>, id: nat)
      modifies `hw, `cells, `ages, channel`busIdle, channel`timer
      ensures if old(channel.busIdle && Accepts(hw, Erasing, loc))
              then hw == Start(old(hw), Erasing, loc, id) && !channel.busIdle && channel.timer
                   && cells == Scrambled(old(cells), loc.at, loc.block, junk)
                   && ages == Aged(old(ages), loc.at, loc.block, junk)
              else hw == old(hw) && cells == old(cells) && ages == old(ages)
                   && channel.busIdle == old(channel.busIdle) && channel.timer == old(channel.timer)
    {
      if !channel.busIdle || hw.phase != Idle {
        return;
      }
      TakeBus();
      hw := hw.(phase := Erasing, latch := loc.(page := hw.latch.page), id := id, timer := true);
      cells := Scrambled(cells, loc.at, loc.block, junk);
      ages := Aged(ages, loc.at, loc.block, junk);
    }

    // ---------------------------------------------------------------- sending

    /** The first run of set bits of a bitmap of 64: where it starts and how long it is. */
    static method FirstRun(bits: set<nat>) returns (start: int, len: nat)
      ensures forall i: nat :: i < 64 ==> (i in Transferred(bits) <==> i in Stretch(start, len))
    {
      start, len := -1, 0;
      var i: nat := 0;
      while i < 64
        invariant i <= 64
        invariant start == -1 ==> len == 0 && forall k: nat :: k < i ==> k !in bits
        invariant start != -1 ==> 0 <= start && start + len == i && len > 0
        invariant start != -1 ==> forall k: nat :: k < start ==> k !in bits
        invariant start != -1 ==> forall k: nat :: start <= k < i ==> k in bits
      {
        if i in bits {
          if start == -1 {
            start := i;
          }
          len := len + 1;
        } else if start != -1 {
          break;
        }
        i := i + 1;
      }
      RunTransferred(bits, start, len, i);
    }

    /** What the channel shows after a command was sent, accepted by the NAND side or not. */
    twostate predicate ChannelSent(accepted: bool)
      reads channel
    {
      && !channel.idle && channel.signal == old(channel.signal)
      && channel.busIdle == (old(channel.busIdle) && !accepted)
      && channel.timer == (old(channel.timer) || accepted)
    }

    method SetSub(r: nat, s: Sub)
      requires r in cmds
      modifies `cmds
      ensures View() == PutSub(old(View()), r, s)
    {
      cmds := cmds[r := cmds[r].(load := OfSub(s))];
    }

    method SetPhase(p: Phase)
      modifies `phase
      ensures View() == old(View()).(phase := p)
    {
      phase := p;
    }

    method AllocateIn(at: PlaneAddr) returns (block: nat, page: nat)
      requires CanTake(at)
      modifies `planes, `cnt, `dieCnt, channel`cnt
      ensures old(Valid()) ==> Valid()
      ensures var m := old(View());
              && at in m.planes && m.planes[at].active < |m.planes[at].blocks|
              && Cell(block, page) == NextCell(m.planes[at])
              && View() == m.(planes := m.planes[at := AllocPage(cfg.pages, m.planes[at])])
              && Sums() == Add(old(Sums()), at.die, Device.TAKEN)
    {
      hide Valid, AllocPage, Sums, Add, Decoded;
      block, page := AllocateLocationInPlane(at);
    }

    /** A page is allocated for the write `r` and noted in its sub-request. */
    method TakePage(r: nat)
      requires r in cmds && cmds[r].load.OfSub? && CanTake(cmds[r].load.sub.loc.at)
      modifies `cmds, `planes, `cnt, `dieCnt, channel`cnt
      ensures old(Valid()) ==> Valid()
      ensures r in cmds && cmds[r].load.OfSub? && cmds[r].load.sub.loc in cells && cmds[r].load.sub.loc in ages
      ensures var m := old(View()); var s := SubOf(m, r); var at := s.loc.at; var c := NextCell(m.planes[at]);
              && View() == PutSub(m, r, s.(loc := Loc(at, c.block, c.page)))
                             .(planes := m.planes[at := AllocPage(cfg.pages, m.planes[at])])
              && Sums() == Add(old(Sums()), at.die, Device.TAKEN)
    {
      hide Valid, AllocPage, Sums, Add, Decoded, Locate;
      var s := cmds[r].load.sub;
      var block, page := AllocateIn(s.loc.at);
      SetSub(r, s.(loc := Loc(s.loc.at, block, page)));
    }

    /** The transfer of a write: the first run of its sectors goes to the NAND chip. */
    method Program(s: Sub, id: nat)
      requires s.loc in cells && s.loc in ages
      modifies `hw, `cells, `ages, channel`idle, channel`busIdle, channel`timer
      ensures ChannelSent(old(channel.busIdle && hw.phase == Idle))
      ensures var m := old(View());
              View() == if old(channel.busIdle) && m.hw.phase == Idle
                        then m.(hw := Start(m.hw, Programming, s.loc, id),
                                cells := m.cells[s.loc := Overlay(m.cells[s.loc], Transferred(s.bits), s.buf)],
                                ages := m.ages[s.loc := m.ages[s.loc] + 1])
                        else m
    {
      hide Transferred, Stretch, Overlay, Start, Decoded;
      var start, len := FirstRun(s.bits);
      channel.idle := false;
      OverlayStretch(cells[s.loc], s.bits, start, len, s.buf);
      WriteData(s.loc, start, len, s.buf, id);
    }

    /** The transfer of the data half of a read. */
    method ReadOut(s: Sub, id: nat) returns (data: PageBuf, whole: bool)
      requires s.loc in cells && s.loc in ages
      modifies `hw, channel`idle, channel`busIdle, channel`timer
      ensures ChannelSent(old(channel.busIdle && Accepts(hw, ReadData, s.loc)))
      ensures if old(channel.busIdle && Accepts(hw, ReadData, s.loc))
              then View() == old(View()).(hw := Start(old(hw), ReadData, s.loc, id))
                  && data == Overlay(s.buf, Transferred(s.bits), cells[s.loc]) && whole == (ages[s.loc] == s.stamp)
              else View() == old(View()) && data == s.buf && whole == s.whole
    {
      hide Transferred, Stretch, Overlay, Start, Decoded;
      channel.idle := false;
      var start, len := FirstRun(s.bits);
      OverlayStretch(s.buf, s.bits, start, len, cells[s.loc]);
      whole := if channel.busIdle && hw.phase == ReadAddr && hw.latch == s.loc then ages[s.loc] == s.stamp else s.whole;
      data := SendReadData(s.loc, start, len, s.buf, id);
    }

    method SendWriteCommand(r: nat)
      requires Valid() && Shape(cfg, View()) && r in cmds && cmds[r].op == Write
      requires cmds[r].load.OfSub? && CanTake(cmds[r].load.sub.loc.at)
      modifies `phase, `cmds, `planes, `cnt, `dieCnt, `hw, `cells, `ages, channel
      ensures Valid() && View() == SendWrite(cfg, old(View()), r, old(channel.busIdle))
      ensures Sums() == Add(old(Sums()), old(cmds[r].load.sub.loc.at.die), Device.TAKEN)
      ensures ChannelSent(old(channel.busIdle && hw.phase == Idle))
    {
      hide Shape, Valid, Decoded, AllocPage, Transferred, Start, Overlay, Sums, Add, CanTake, SendWrite, NextCell;
      CellsThere(r);
      SendWriteIs(cfg, View(), r, channel.busIdle);
      SetPhase(Programming);
      TakePage(r);
      Program(cmds[r].load.sub, cmds[r].id);
    }

    lemma CellsThere(r: nat)
      requires r in cmds && cmds[r].load.OfSub? && CanTake(cmds[r].load.sub.loc.at)
      ensures var at := cmds[r].load.sub.loc.at;
              at in planes && planes[at].active < |planes[at].blocks|
              && Loc(at, NextCell(planes[at]).block, NextCell(planes[at]).page) in cells
              && Loc(at, NextCell(planes[at]).block, NextCell(planes[at]).page) in ages
    {
    }

    /** The address half of a read is sent. */
    method SendAddress(r: nat)
      requires r in cmds && cmds[r].load.OfSub?
      modifies `phase, `hw, channel`idle, channel`busIdle, channel`timer
      ensures var loc := cmds[r].load.sub.loc; var ok := old(channel.busIdle && Accepts(hw, ReadAddr, loc));
              && View() == old(View()).(phase := ReadAddr,
                                        hw := if ok then Start(old(hw), ReadAddr, loc, cmds[r].id) else old(hw))
              && ChannelSent(ok)
    {
      hide Decoded, Start;
      phase := ReadAddr;
      channel.idle := false;
      SendReadAddr(cmds[r].load.sub.loc, cmds[r].id);
    }

    /** The data half of a read is sent, and its data stored. */
    method FetchData(r: nat)
      requires r in cmds && cmds[r].load.OfSub? && cmds[r].load.sub.loc in cells && cmds[r].load.sub.loc in ages
      modifies `phase, `cmds, `hw, channel`idle, channel`busIdle, channel`timer
      ensures var s := old(cmds[r].load.sub); var m := old(View());
              var ok := old(channel.busIdle && Accepts(hw, ReadData, cmds[r].load.sub.loc));
              && View() == (if ok then
                   PutSub(m, r, s.(buf := Overlay(s.buf, Transferred(s.bits), m.cells[s.loc]),
                                   whole := m.ages[s.loc] == s.stamp))
                     .(phase := ReadData, hw := Start(m.hw, ReadData, s.loc, m.cmds[r].id))
                 else m.(phase := ReadData))
              && ChannelSent(ok)
    {
      hide Decoded, Transferred, Start, Overlay, Accepts;
      var s := cmds[r].load.sub;
      SetPhase(ReadData);
      var data, whole := ReadOut(s, cmds[r].id);
      assert cmds[r := cmds[r].(load := OfSub(s))] == cmds;
      SetSub(r, s.(buf := data, whole := whole));
    }

    method SendReadCommand(r: nat)
      requires Valid() && Shape(cfg, View()) && r in cmds && cmds[r].op == Read
      requires cmds[r].load.OfSub? && cmds[r].load.sub.loc in cells && cmds[r].load.sub.loc in ages
      modifies `phase, `cmds, `hw, channel`idle, channel`busIdle, channel`timer
      ensures Valid() && View() == SendRead(cfg, old(View()), r, old(channel.busIdle))
      ensures ChannelSent(old(channel.busIdle && Accepts(hw, if cmds[r].stage == 0 then ReadAddr
              else ReadData, cmds[r].load.sub.loc)))
    {
      hide Shape, Valid, Decoded, Transferred, Start, Overlay, Accepts, PutSub;
      if cmds[r].stage == 0 {
        SendAddress(r);
      } else {
        FetchData(r);
      }
    }

    method SendEraseCommand(r: nat, junk: seq<PageBuf>)
      requires Valid() && Shape(cfg, View()) && r in cmds && cmds[r].op == Erase
      requires cmds[r].load.EraseAt? && cmds[r].load.at in planes
      modifies `phase, `hw, `cells, `ages, channel`idle, channel`busIdle, channel`timer
      ensures Valid() && View() == SendErase(cfg, old(View()), r, junk, old(channel.busIdle))
      ensures ChannelSent(old(channel.busIdle && hw.phase == Idle))
    {
      hide Shape, Valid, Decoded, Scrambled, Aged, Start;
      channel.idle := false;
      phase := Erasing;
      var at := cmds[r].load.at;
      SendEraseTo(Loc(at, planes[at].eraseBlock, 0), junk, cmds[r].id);
    }

    /** A page can be taken in the plane, and a next one found. */
    predicate CanTake(at: PlaneAddr)
      reads `planes, `dieCnt, `cells, `ages
    {
      && at in planes && at.die in dieCnt && planes[at].active < |planes[at].blocks|
      && AllocPage(cfg.pages, planes[at]).active < |planes[at].blocks|
      && Loc(at, NextCell(planes[at]).block, NextCell(planes[at]).page) in cells
      && Loc(at, NextCell(planes[at]).block, NextCell(planes[at]).page) in ages
    }

    /** Everything the sending of `r` follows is there. */
    ghost predicate CanSend(r: nat)
      reads `cmds, `planes, `dieCnt, `cells, `ages
    {
      && r in cmds
      && (cmds[r].op == Write ==> cmds[r].load.OfSub? && CanTake(cmds[r].load.sub.loc.at))
      && (cmds[r].op == Read ==>
            cmds[r].load.OfSub? && cmds[r].load.sub.loc in cells && cmds[r].load.sub.loc in ages)
      && (cmds[r].op == Erase ==> cmds[r].load.EraseAt? && cmds[r].load.at in planes)
    }

    method SendCommand(r: nat, junk: seq<PageBuf>)
      requires Valid() && Shape(cfg, View()) && CanSend(r)
      modifies `phase, `cmds, `planes, `cnt, `dieCnt, `hw, `cells, `ages, channel
      ensures Valid() && View() == Send(cfg, old(View()), r, junk, old(channel.busIdle))
      ensures Sums() == MovedAbove(old(Sums()), Device.SentAt(old(View()), r))
      ensures ChannelSent(old(channel.busIdle && Accepts(hw, KindOf(cmds[r]), Target(View(), r))))
    {
      hide Shape, Valid, SendWrite, SendRead, SendErase, Add, Decoded, Sums;
      match cmds[r].op {
        case Write => SendWriteCommand(r);
        case Read => SendReadCommand(r);
        case Erase => SendEraseCommand(r, junk);
      }
    }

    lemma SendableIs(r: nat)
      requires Valid() && Shape(cfg, View()) && Sendable(cfg, View(), r)
      ensures CanSend(r)
    {
      hide AllocPage, NextCell, Decoded, Locate, Detail, Home, Shape;
      DieThere(cfg, View());
    }

    /** One round of dispatch for this chip: the next command, if any, is chosen and sent. */
    method AllocateCommand(id: nat, scratch: PageBuf, junk: seq<PageBuf>) returns (r: Option<nat>)
      requires Valid() && Roomy(cfg) && Inv(cfg, View()) && MayDispatch(cfg, View()) && channel.busIdle
      modifies this, channel
      ensures Valid() && Takes(cfg, old(View()), Dispatches(id, scratch, junk), View()) && Inv(cfg, View())
      ensures r.Some? <==> Device.Sends(cfg, old(View()), Dispatches(id, scratch, junk))
      ensures if r.Some? then ChannelSent(true) else channel.View() == old(channel.View())
      ensures Sums() == MovedAbove(old(Sums()), MovedBy(cfg, old(View()), Dispatches(id, scratch, junk)))
    {
      hide Shape, Valid, Roomy, Inv, GetCommand, Send, Add, Decoded, Sendable, CanSend, CanTake, Accepts, Target,
           KindOf;
      ghost var m := View();
      DispatchSendable(cfg, m, id, scratch, junk);
      r := GetCommandUsbssd(id, scratch);
      if r.Some? {
        SendableIs(r.value);
        SendCommand(r.value, junk);
      }
    }

    // ---------------------------------------------------------------- completion

    /** Finds the command with the reported number in a queue. */
    method GetEndCmd(q: seq<nat>, id: nat) returns (k: nat)
      requires forall i :: 0 <= i < |q| ==> q[i] in cmds
      requires EndIndex(View(), q, id) < |q|
      ensures k == EndIndex(View(), q, id)
    {
      k := 0;
      while cmds[q[k]].id != id
        invariant k < |q| && EndIndex(View(), q, id) == k + EndIndex(View(), q[k..], id)
        decreases |q| - k
      {
        assert q[k..][1..] == q[k + 1..];
        k := k + 1;
      }
    }

    method UnlinkCommand(k: nat)
      requires k < |commands|
      modifies `commands
      ensures View() == old(View()).(commands := Without(old(commands), k))
    {
      commands := commands[..k] + commands[k + 1..];
    }

    /** A finished host command is freed, a relocation is marked for the collector. */
    method RetireCommand(r: nat)
      requires r in cmds
      modifies `cmds
      ensures View() == Retire(old(View()), r)
    {
      if cmds[r].related.None? {
        cmds := cmds - {r};
      } else {
        cmds := cmds[r := cmds[r].(completed := true)];
      }
    }

    /** The host write `s` is done: its plane is to be checked. */
    method NoteWrite(s: Sub)
      requires s.lpn in store
      modifies `pending, `store
      ensures View() == old(View()).(pending := Some(s.loc.at),
              store := old(store)[s.lpn := Settled(s, old(store[s.lpn]))])
    {
      pending := Some(s.loc.at);
      store := store[s.lpn := Settled(s, store[s.lpn])];
    }

    lemma CommitFacts(r: nat)
      requires Valid() && Shape(cfg, View()) && r in cmds && cmds[r].op != Erase
      ensures cmds[r].load.OfSub?
      ensures var s := cmds[r].load.sub;
              && s.lpn in table && s.lpn in store && HasPage(s.loc) && InGeometry(g, s.loc)
              && (table[s.lpn].subPage != {} ==>
                    HasPage(Locate(g, table[s.lpn].ppn)) && Locate(g, table[s.lpn].ppn).at.die in dieCnt)
    {
      hide Locate, Decoded;
      Device.WriteTarget(cfg, View(), r);
      EntryIs(cmds[r].load.sub.lpn);
    }

    /** The command leaves its queue and the table, and a host write is noted. */
    method RetireWrite(k: nat, r: nat, s: Sub)
      requires k < |commands| && r in cmds && s.lpn in store
      modifies `phase, `commands, `cmds, `pending, `store
      ensures var m := old(View()); var m1 := Retire(m, r).(phase := Idle, commands := Without(m.commands, k));
              View() == if old(cmds[r]).related.Some? then m1
                        else m1.(pending := Some(s.loc.at), store := m.store[s.lpn := Settled(s, m.store[s.lpn])])
    {
      hide Decoded;
      SetPhase(Idle);
      UnlinkCommand(k);
      var moving := cmds[r].related.Some?;
      RetireCommand(r);
      if !moving {
        NoteWrite(s);
      }
    }

    /** A program is done: the map moves to its page and the command is retired. */
    method ProgramEnds(k: nat)
      requires Valid() && Shape(cfg, View()) && k < |commands| && hw.signal
      modifies `phase, `commands, `cmds, `table, `planes, `pending, `store, `cnt, `dieCnt, channel`cnt
      ensures Valid() && View() == EndProgram(cfg, old(View()), k)
      ensures old(commands[k] in cmds && cmds[commands[k]].load.OfSub? && cmds[commands[k]].load.sub.lpn in table)
      ensures var l := old(cmds[commands[k]].load.sub.lpn);
              Sums() == if old(table[l].subPage) == {} then old(Sums())
                        else Add(old(Sums()), old(Locate(g, table[l].ppn)).at.die, STALE)
    {
      hide Shape, Valid, Sums, Add, Decoded, Locate, InGeometry, HasPage;
      var r := commands[k];
      Device.EndCommandIs(cfg, View(), k);
      CommitFacts(r);
      var s := cmds[r].load.sub;
      UpdateMapAndInvalidatePage(s);
      RetireWrite(k, r, s);
    }

    /** The first half of a read is done: the command waits for its second half. */
    method ReadAddrEnds(k: nat)
      requires Valid() && Shape(cfg, View()) && k < |commands| && commands[k] in cmds
      modifies `phase, `commands, `incompletedR, `cmds
      ensures Valid() && View() == EndReadAddr(cfg, old(View()), k)
    {
      hide Shape, Valid, Decoded;
      var r := commands[k];
      phase := Idle;
      commands := commands[..k] + commands[k + 1..];
      incompletedR := incompletedR + [r];
      cmds := cmds[r := cmds[r].(stage := 1)];
    }

    /** Sector by sector, the waiting write `w` receives what it did not bring. */
    static method MergeInto(w: Sub, s: Sub) returns (r: Sub)
      requires forall i :: i in s.bits ==> i < SECTORS
      ensures r == Merge(w, s)
    {
      var bits, buf := w.bits, w.buf;
      var i: nat := 0;
      while i < 64
        invariant i <= 64
        invariant bits == w.bits + (set b | b in s.bits && b < i)
        invariant forall b :: 0 <= b < SECTORS ==>
                  buf[b] == if b < i && b in s.bits - w.bits then s.buf[b] else w.buf[b]
      {
        if i in s.bits && i !in bits {
          buf := buf[i := s.buf[i]];
          bits := bits + {i};
        }
        i := i + 1;
      }
      assert bits == w.bits + s.bits;
      assert buf == Overlay(w.buf, s.bits - w.bits, s.buf);
      r := w.(bits := bits, buf := buf, paired := false, whole := s.whole);
    }

    /** The write that waited for the read `s` is completed by it and freed to go. */
    static method MergeList(was: seq<Sub>, s: Sub) returns (q: seq<Sub>)
      requires forall i :: i in s.bits ==> i < SECTORS
      ensures q == MergeAll(was, s)
    {
      q := was;
      for i := 0 to |was|
        invariant |q| == |was|
        invariant forall j :: 0 <= j < i ==>
                  q[j] == if was[j].paired && was[j].lpn == s.lpn then Merge(was[j], s) else was[j]
        invariant forall j :: i <= j < |was| ==> q[j] == was[j]
      {
        if q[i].paired && q[i].lpn == s.lpn {
          var w := MergeInto(q[i], s);
          q := q[i := w];
        }
      }
      assert q == MergeAll(was, s);
    }

    /** The read `s` is over; the write that waits for it may still be on its way to the queue. */
    method SubRequestEnd(s: Sub)
      requires forall i :: i in s.bits ==> i < SECTORS
      modifies `wQueue, `wHand
      ensures View() == old(View()).(wQueue := MergeAll(old(wQueue), s), wHand := MergeAll(old(wHand), s))
    {
      hide MergeAll, Decoded;
      wQueue := MergeList(wQueue, s);
      wHand := MergeList(wHand, s);
    }

    method UnlinkIncomplete(k: nat)
      requires k < |incompletedR|
      modifies `incompletedR
      ensures View() == old(View()).(incompletedR := Without(old(incompletedR), k))
    {
      incompletedR := incompletedR[..k] + incompletedR[k + 1..];
    }

    /** The data of a read is there. */
    method ReadDataEnds(k: nat)
      requires Valid() && Shape(cfg, View()) && k < |incompletedR| && incompletedR[k] in cmds
      requires cmds[incompletedR[k]].load.OfSub?
      requires cmds[incompletedR[k]].related.None? ==> forall i :: i in cmds[incompletedR[k]].load.sub.bits ==>
               i < SECTORS
      modifies `phase, `incompletedR, `cmds, `wQueue, `wHand
      ensures Valid() && View() == EndReadData(cfg, old(View()), k)
    {
      hide Shape, Valid, Decoded, MergeAll;
      var r := incompletedR[k];
      var s := cmds[r].load.sub;
      var host := cmds[r].related.None?;
      SetPhase(Idle);
      UnlinkIncomplete(k);
      RetireCommand(r);
      if host && s.paired {
        SubRequestEnd(s);
      }
    }

    /** The erase is done: the block is free again and the plane may collect anew. */
    method EraseEnds(k: nat)
      requires Valid() && Shape(cfg, View()) && k < |erases|
      modifies `phase, `erases, `cmds, `planes, `cnt, `dieCnt, channel`cnt
      ensures Valid() && View() == EndErase(cfg, old(View()), k)
      ensures var m := old(View());
              && m.erases[k] in m.cmds && m.cmds[m.erases[k]].load.EraseAt?
              && Sums() == Add(old(Sums()), m.cmds[m.erases[k]].load.at.die, Device.Erased(cfg.pages))
    {
      var r := erases[k];
      EraseFacts(r);
      hide Shape, Valid, Decoded, Sums, Add, EraseBlock, Without;
      var at := cmds[r].load.at;
      SetPhase(Idle);
      EraseBlockAt(at);
      UnlinkErase(k, at);
    }

    method UnlinkErase(k: nat, at: PlaneAddr)
      requires k < |erases| && at in planes
      modifies `erases, `cmds, `planes
      ensures var m := old(View());
              View() == m.(planes := m.planes[at := m.planes[at].(eraseUsed := false)],
                           erases := Without(m.erases, k), cmds := m.cmds - {m.erases[k]})
    {
      hide Decoded;
      planes := planes[at := planes[at].(eraseUsed := false)];
      cmds := cmds - {erases[k]};
      erases := erases[..k] + erases[k + 1..];
    }

    lemma EraseFacts(r: nat)
      requires Valid() && Shape(cfg, View()) && r in erases
      ensures r in cmds && cmds[r].load.EraseAt? && cmds[r].load.at in planes && cmds[r].load.at.die in dieCnt
      ensures var pl := planes[cmds[r].load.at];
              pl.eraseBlock < |pl.blocks| && |pl.blocks[pl.eraseBlock].pages| == cfg.pages
    {
      EraseTarget(cfg, View(), r);
    }

    /** A program is done. */
    method WriteDone()
      requires Valid() && Defined(cfg, View(), Completes) && phase == Programming && hw.signal
      modifies `phase, `commands, `cmds, `table, `planes, `pending, `store, `cnt, `dieCnt, channel`cnt
      ensures Valid() && View().(hw := hw.(signal := false)) == Next(cfg, old(View()), Completes)
      ensures Sums() == MovedAbove(old(Sums()), MovedBy(cfg, old(View()), Completes))
    {
      hide Shape, Valid, Decoded, Sums, Add, EndProgram, Locate;
      QueueThere(cfg, View());
      var k := GetEndCmd(commands, hw.id);
      EntryIs(cmds[commands[k]].load.sub.lpn);
      ProgramEnds(k);
    }

    /** The address half of a read is done. */
    method ReadAddrDone()
      requires Valid() && Defined(cfg, View(), Completes) && phase == ReadAddr
      modifies `phase, `commands, `incompletedR, `cmds
      ensures Valid() && View().(hw := hw.(signal := false)) == Next(cfg, old(View()), Completes)
      ensures Sums() == MovedAbove(old(Sums()), MovedBy(cfg, old(View()), Completes))
    {
      hide Shape, Valid, Decoded, Sums, Add, EndReadAddr;
      QueueThere(cfg, View());
      var k := GetEndCmd(commands, hw.id);
      ReadAddrEnds(k);
    }

    /** The data half of a read is done. */
    method ReadDataDone()
      requires Valid() && Inv(cfg, View()) && Defined(cfg, View(), Completes) && phase == ReadData && hw.signal
      requires pending.None?
      modifies `phase, `incompletedR, `cmds, `wQueue, `wHand
      ensures Valid() && View().(hw := hw.(signal := false)) == Next(cfg, old(View()), Completes)
      ensures Sums() == MovedAbove(old(Sums()), MovedBy(cfg, old(View()), Completes))
    {
      hide Shape, Valid, Inv, Decoded, Sums, Add, EndReadData;
      DataBits(cfg, View());
      var k := GetEndCmd(incompletedR, hw.id);
      ReadDataEnds(k);
    }

    /** An erase is done. */
    method EraseDone()
      requires Valid() && Defined(cfg, View(), Completes) && phase == Erasing
      modifies `phase, `erases, `cmds, `planes, `cnt, `dieCnt, channel`cnt
      ensures Valid() && View().(hw := hw.(signal := false)) == Next(cfg, old(View()), Completes)
      ensures Sums() == MovedAbove(old(Sums()), MovedBy(cfg, old(View()), Completes))
    {
      hide Shape, Valid, Decoded, Sums, Add, EndErase;
      QueueThere(cfg, View());
      var k := GetEndCmd(erases, hw.id);
      EraseEnds(k);
    }

    method ClearSignal()
      modifies `hw
      ensures View() == old(View()).(hw := old(hw).(signal := false))
    {
      hw := hw.(signal := false);
    }

    /** The chip reports that it is done: the command is found by its number and finished as
        the chip's state says. */
    method RecvSignalBack()
      requires Valid() && Inv(cfg, View()) && hw.signal && pending.None?
      modifies this, channel`cnt
      ensures Valid() && Takes(cfg, old(View()), Completes, View()) && Inv(cfg, View())
      ensures Sums() == MovedAbove(old(Sums()), MovedBy(cfg, old(View()), Completes))
    {
      hide Shape, Valid, Inv, Decoded, Sums, MovedAbove, MovedBy, Complete;
      CompleteKeeps(cfg, View());
      FinishCommand();
      ClearSignal();
    }

    /** The command that is out is finished as the chip's state says. */
    method FinishCommand()
      requires Valid() && Inv(cfg, View()) && Defined(cfg, View(), Completes) && hw.signal && pending.None?
      modifies this, channel`cnt
      ensures Valid() && View().(hw := hw.(signal := false)) == Next(cfg, old(View()), Completes)
      ensures Sums() == MovedAbove(old(Sums()), MovedBy(cfg, old(View()), Completes))
    {
      hide Shape, Valid, Inv, Decoded, Sums, MovedAbove, MovedBy, Next;
      match phase {
        case Programming => WriteDone();
        case ReadAddr => ReadAddrDone();
        case ReadData => ReadDataDone();
        case Erasing => EraseDone();
      }
    }

    // ---------------------------------------------------------------- the host and the timer

    /** The NAND chip's timer: a read address leaves the chip waiting, everything else idle. */
    method TimerCallbackChip()
      requires Valid() && Roomy(cfg) && Inv(cfg, View()) && hw.timer
      modifies `hw
      ensures Valid() && Takes(cfg, old(View()), TimerFires, View()) && Inv(cfg, View())
    {
      hide Valid, Inv, Shape, Roomy, Decoded;
      StepKeeps(cfg, View(), TimerFires);
      var waiting := hw.phase == ReadAddr;
      SetTimer(if waiting then ReadAddr else Idle);
    }

    method SetTimer(p: Phase)
      modifies `hw
      ensures View() == old(View()).(hw := old(hw).(timer := false, signal := true, phase := p))
    {
      hw := hw.(phase := p);
      hw := hw.(timer := false, signal := true);
    }

    /** A request's writes are queued, one after the other, as one list. */
    method AddWritesToChip()
      requires Valid() && Roomy(cfg) && Inv(cfg, View())
      modifies `wQueue, `wHand
      ensures Valid() && Takes(cfg, old(View()), QueuesWrites, View()) && Inv(cfg, View())
      ensures wQueue == old(wQueue + wHand) && wHand == []
    {
      hide Valid, Inv, Shape, Roomy, Decoded;
      StepKeeps(cfg, View(), QueuesWrites);
      InvShape(cfg, View());
      while wHand != []
        invariant Valid() && wQueue + wHand == old(wQueue + wHand)
        invariant View() == old(View()).(wQueue := wQueue, wHand := wHand)
        decreases |wHand|
      {
        wQueue := wQueue + [wHand[0]];
        wHand := wHand[1..];
      }
    }

    /** And its reads after them. */
    method AddReadsToChip()
      requires Valid() && Roomy(cfg) && Inv(cfg, View())
      modifies `rQueue, `rHand
      ensures Valid() && Takes(cfg, old(View()), QueuesReads, View()) && Inv(cfg, View())
      ensures rQueue == old(rQueue + rHand) && rHand == []
    {
      hide Valid, Inv, Shape, Roomy, Decoded;
      StepKeeps(cfg, View(), QueuesReads);
      InvShape(cfg, View());
      while rHand != []
        invariant Valid() && rQueue + rHand == old(rQueue + rHand)
        invariant View() == old(View()).(rQueue := rQueue, rHand := rHand)
        decreases |rHand|
      {
        rQueue := rQueue + [rHand[0]];
        rHand := rHand[1..];
      }
    }

    lemma HomeIs(l: nat)
      requires Valid() && l in cfg.homes
      ensures Addressing.Valid(g) && cfg.homes[l] == Home(g, l)
    {
    }

    /** A read of page `l` is made, with the page the map names now. */
    method MakeRead(l: nat, bits: set<nat>, scratch: PageBuf, paired: bool)
      requires l in table && l in store
      modifies `rHand
      ensures View() == old(View()).(rHand := old(rHand) + [ReadFor(old(View()), l, bits, scratch, paired)])
      ensures |rHand| == |old(rHand)| + 1 && old(rHand) <= rHand && l in View().entries
      ensures var s := rHand[|rHand| - 1];
              && s.lpn == l && s.bits == bits && s.buf == scratch && s.loc == View().entries[l].loc
              && s.paired == paired
    {
      hide Decoded, Locate, Expected;
      EntryIs(l);
      var loc := Locate(g, table[l].ppn);
      rHand := rHand + [Sub(l, bits, scratch, loc, paired, Expected(store[l], bits),
                            if loc in ages then ages[loc] else 0, true)];
    }

    /** A write of page `l` is made; when it does not cover the mapped sectors, so is the
        companion read that it waits for. */
    method AllocateWrite(l: nat, bits: set<nat>, buf: PageBuf, scratch: PageBuf)
      requires Valid() && Roomy(cfg) && Inv(cfg, View()) && MayWrite(cfg, View(), l, bits)
      modifies `rHand, `wHand
      ensures Valid() && Takes(cfg, old(View()), HostWrites(l, bits, buf, scratch), View()) && Inv(cfg, View())
      ensures |wHand| == |old(wHand)| + 1 && old(wHand) <= wHand && l in View().entries
      ensures var s := wHand[|wHand| - 1];
              && s.lpn == l && s.bits == bits && s.buf == buf && s.paired == !(View().entries[l].subPage <= bits)
              && if s.paired
                 then |rHand| == |old(rHand)| + 1 && old(rHand) <= rHand && rHand[|rHand| - 1].lpn == l
                      && rHand[|rHand| - 1].bits == View().entries[l].subPage && rHand[|rHand| - 1].paired
                      && rHand[|rHand| - 1].loc == View().entries[l].loc
                 else rHand == old(rHand)
    {
      hide Valid, Inv, Shape, Roomy, Decoded, MayWrite, Home, Locate, HostData, ReadFor;
      StepKeeps(cfg, View(), HostWrites(l, bits, buf, scratch));
      InvShape(cfg, View());
      HomesMapped(cfg, View(), l);
      EntryIs(l);
      HomeIs(l);
      var mapped := table[l].subPage;
      var waits := mapped * bits != mapped;
      assert waits <==> !(mapped <= bits);
      var at := Home(g, l);
      if waits {
        MakeRead(l, mapped, scratch, true);
      }
      wHand := wHand + [Sub(l, bits, buf, Loc(at, 0, 0), waits, HostData(bits, buf), 0, true)];
    }

    method AllocateRead(l: nat, bits: set<nat>, scratch: PageBuf)
      requires Valid() && Roomy(cfg) && Inv(cfg, View()) && MayRead(cfg, View(), l, bits)
      modifies `rHand
      ensures Valid() && Takes(cfg, old(View()), HostReads(l, bits, scratch), View()) && Inv(cfg, View())
      ensures |rHand| == |old(rHand)| + 1 && old(rHand) <= rHand && l in View().entries
      ensures var s := rHand[|rHand| - 1];
              && s.lpn == l && s.bits == bits && s.buf == scratch && s.loc == View().entries[l].loc
              && !s.paired
    {
      hide Valid, Inv, Shape, Roomy, Decoded, MayRead, Home, Locate, ReadFor;
      StepKeeps(cfg, View(), HostReads(l, bits, scratch));
      InvShape(cfg, View());
      HomesMapped(cfg, View(), l);
      MakeRead(l, bits, scratch, false);
    }
  }
}
