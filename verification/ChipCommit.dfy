/** Completing a program keeps the invariant: the map moves to the new page and the page it
    leaves becomes stale. */
module ChipCommit {
  import opened Flash
  import opened Layout
  import opened Lists
  import opened Sectors
  import opened Chip
  import opened ChipInv
  import opened ChipWrite

  /** The plane after the page at `c` has become the home of `lpn`, and the page at `o`, if
      any, has become stale. */
  function Moved(pl: Plane, c: Cell, o: Cell, bits: set<nat>, lpn: nat): (r: Plane)
    requires c.Cell? && c.block < |pl.blocks| && c.page < |pl.blocks[c.block].pages|
    requires o.Cell? ==> o.block < |pl.blocks| && o.page < |pl.blocks[o.block].pages|
  {
    var pl1 := CommitPage(pl, c.block, c.page, bits, lpn);
    if o.Cell? then InvalidatePage(pl1, o.block, o.page) else pl1
  }

  /** Nothing but pages `c` and `o` changes. */
  lemma MovedPages(cfg: Config, pl: Plane, c: Cell, o: Cell, bits: set<nat>, lpn: nat)
    requires PlaneShape(cfg, pl) && c.Cell? && c.block < cfg.blocks && c.page < cfg.pages
    requires o.Cell? ==> o.block < cfg.blocks && o.page < cfg.pages && o != c
    ensures var pl' := Moved(pl, c, o, bits, lpn);
            && PlaneShape(cfg, pl') && pl'.eraseUsed == pl.eraseUsed && pl'.eraseBlock == pl.eraseBlock
            && pl'.blocks[c.block].pages[c.page] == Page(bits, lpn)
            && (o.Cell? ==> pl'.blocks[o.block].pages[o.page] == pl.blocks[o.block].pages[o.page].(state := {}))
            && (forall b, p :: 0 <= b < cfg.blocks && 0 <= p < cfg.pages && Cell(b, p) != c && Cell(b, p) != o ==>
                  pl'.blocks[b].pages[p] == pl.blocks[b].pages[p])
            && (forall b :: 0 <= b < cfg.blocks ==> pl'.blocks[b].startWrite == pl.blocks[b].startWrite)
            && (forall b :: 0 <= b < cfg.blocks ==>
                  pl'.blocks[b].cnt == if o.Cell? && o.block == b then Plus(pl.blocks[b].cnt, STALE)
                      else pl.blocks[b].cnt)
            && pl'.cnt == if o.Cell? then Plus(pl.cnt, STALE) else pl.cnt
  {
  }

  lemma MovedExact(cfg: Config, pl: Plane, c: Cell, o: Cell, bits: set<nat>, lpn: nat)
    requires PlaneShape(cfg, pl) && c.Cell? && c.block < cfg.blocks && c.page < cfg.pages && bits != {}
    requires PlaneExact(cfg.blocks, cfg.pages, pl, c)
    requires o.Cell? ==>
               o.block < cfg.blocks && o.page < cfg.pages && o != c && pl.blocks[o.block].pages[o.page].state != {}
    ensures PlaneExact(cfg.blocks, cfg.pages, Moved(pl, c, o, bits, lpn), NoCell)
  {
    hide PlaneExact;
    CommitKeepsExact(cfg.blocks, cfg.pages, pl, c, bits, lpn);
    if o.Cell? {
      InvalidateKeepsExact(cfg.blocks, cfg.pages, CommitPage(pl, c.block, c.page, bits, lpn), NoCell, o.block, o.page);
    }
  }

  // ---------------------------------------------------------------- the map and the page tables

  function OldCell(o: Entry): Cell {
    if o.subPage == {} then NoCell else Cell(o.loc.block, o.loc.page)
  }

  /** A sub-request whose program is complete: its page is in the plane of its logical page
      and not live yet. */
  ghost predicate Landed(cfg: Config, entries: map<nat, Entry>, planes: map<PlaneAddr, Plane>, s: Sub)
    requires PlanesShape(cfg, planes)
  {
    && s.lpn in cfg.homes && s.lpn in entries && s.bits != {}
    && InRange(cfg, s.loc) && s.loc.at == cfg.homes[s.lpn]
    && PageOf(planes, s.loc).state == {}
    && Exact(cfg, planes, Some(s.loc))
    && MapForward(cfg, entries, planes) && MapBackward(cfg, entries, planes)
  }

  function MovedPlanes(cfg: Config, entries: map<nat, Entry>,
        planes: map<PlaneAddr, Plane>, s: Sub): map<PlaneAddr, Plane>
    requires s.lpn in entries && s.loc.at in planes && s.loc.block < |planes[s.loc.at].blocks|
    requires s.loc.page < |planes[s.loc.at].blocks[s.loc.block].pages|
    requires var o := OldCell(entries[s.lpn]); o.Cell? ==>
               o.block < |planes[s.loc.at].blocks| && o.page < |planes[s.loc.at].blocks[o.block].pages|
  {
    planes[s.loc.at := Moved(planes[s.loc.at], Cell(s.loc.block, s.loc.page), OldCell(entries[s.lpn]), s.bits, s.lpn)]
  }

  /** The old home, when there is one, is another live page of the same plane. */
  lemma OldHome(cfg: Config, entries: map<nat, Entry>, planes: map<PlaneAddr, Plane>, s: Sub)
    requires PlanesShape(cfg, planes) && Landed(cfg, entries, planes, s)
    ensures var pl := planes[s.loc.at]; var c := Cell(s.loc.block, s.loc.page); var o := OldCell(entries[s.lpn]);
            && s.loc.at in cfg.addrs && PlaneShape(cfg, pl) && c.block < cfg.blocks && c.page < cfg.pages
            && (o.Cell? ==> o.block < cfg.blocks && o.page < cfg.pages && o != c && entries[s.lpn].loc.at == s.loc.at
                            && pl.blocks[o.block].pages[o.page] == Page(entries[s.lpn].subPage, s.lpn))
  {
    hide PlaneExact, Exact, MapBackward;
  }

  lemma MovedPlanesExact(cfg: Config, entries: map<nat, Entry>, planes: map<PlaneAddr, Plane>, s: Sub)
    requires PlanesShape(cfg, planes) && Landed(cfg, entries, planes, s)
    ensures var o := OldCell(entries[s.lpn]); o.Cell? ==>
               o.block < |planes[s.loc.at].blocks| && o.page < |planes[s.loc.at].blocks[o.block].pages|
    ensures var planes' := MovedPlanes(cfg, entries, planes, s);
            PlanesShape(cfg, planes') && Exact(cfg, planes', None)
  {
    hide PlaneExact, PlaneShape, MapBackward, MapForward, Moved;
    OldHome(cfg, entries, planes, s);
    var at := s.loc.at;
    var c := Cell(s.loc.block, s.loc.page);
    var o := OldCell(entries[s.lpn]);
    PlaneSizes(cfg, planes[at]);
    assert PlaneExact(cfg.blocks, cfg.pages, planes[at], CellAt(Some(s.loc), at));
    MovedPages(cfg, planes[at], c, o, s.bits, s.lpn);
    MovedExact(cfg, planes[at], c, o, s.bits, s.lpn);
    var planes' := MovedPlanes(cfg, entries, planes, s);
    forall a | a in planes' ensures PlaneExact(cfg.blocks, cfg.pages, planes'[a], CellAt(None, a)) {
      assert PlaneExact(cfg.blocks, cfg.pages, planes[a], CellAt(Some(s.loc), a));
    }
  }

  lemma MovedForward(cfg: Config, entries: map<nat, Entry>, planes: map<PlaneAddr, Plane>, s: Sub)
    requires PlanesShape(cfg, planes) && Landed(cfg, entries, planes, s)
    ensures var o := OldCell(entries[s.lpn]); o.Cell? ==>
               o.block < |planes[s.loc.at].blocks| && o.page < |planes[s.loc.at].blocks[o.block].pages|
    ensures var planes' := MovedPlanes(cfg, entries, planes, s); var entries' := entries[s.lpn := Entry(s.bits, s.loc)];
            PlanesShape(cfg, planes') && MapForward(cfg, entries', planes')
  {
    hide PlaneExact, Exact, Moved;
    OldHome(cfg, entries, planes, s);
    MovedPlanesExact(cfg, entries, planes, s);
    MovedPages(cfg, planes[s.loc.at], Cell(s.loc.block, s.loc.page), OldCell(entries[s.lpn]), s.bits, s.lpn);
    var planes' := MovedPlanes(cfg, entries, planes, s);
    var entries' := entries[s.lpn := Entry(s.bits, s.loc)];
    forall l | l in entries' && entries'[l].subPage != {}
      ensures PageOf(planes', entries'[l].loc) == Page(entries'[l].subPage, l)
    {
      if l != s.lpn {
        assert PageOf(planes, entries[l].loc) == Page(entries[l].subPage, l);
      }
    }
  }

  lemma MovedBackward(cfg: Config, entries: map<nat, Entry>, planes: map<PlaneAddr, Plane>, s: Sub)
    requires PlanesShape(cfg, planes) && Landed(cfg, entries, planes, s)
    ensures var o := OldCell(entries[s.lpn]); o.Cell? ==>
               o.block < |planes[s.loc.at].blocks| && o.page < |planes[s.loc.at].blocks[o.block].pages|
    ensures var planes' := MovedPlanes(cfg, entries, planes, s); var entries' := entries[s.lpn := Entry(s.bits, s.loc)];
            PlanesShape(cfg, planes') && MapBackward(cfg, entries', planes')
  {
    hide PlaneExact, Exact, Moved;
    OldHome(cfg, entries, planes, s);
    MovedPlanesExact(cfg, entries, planes, s);
    MovedPages(cfg, planes[s.loc.at], Cell(s.loc.block, s.loc.page), OldCell(entries[s.lpn]), s.bits, s.lpn);
    var planes' := MovedPlanes(cfg, entries, planes, s);
    var entries' := entries[s.lpn := Entry(s.bits, s.loc)];
    forall loc | InRange(cfg, loc) && PageOf(planes', loc).state != {}
      ensures var l := PageOf(planes', loc).lpn; l in entries' && entries'[l] == Entry(PageOf(planes', loc).state, loc)
    {
      if loc != s.loc {
        assert PageOf(planes', loc) == PageOf(planes, loc);
      }
    }
  }

  // ---------------------------------------------------------------- the whole step

  /** A chip whose program command has been reported complete. */
  ghost predicate ProgramDone(cfg: Config, m: Chip) {
    Inv(cfg, m) && m.phase == Programming && m.hw.signal && m.pending.None?
  }

  lemma BusyPage(cfg: Config, planes: map<PlaneAddr, Plane>, loc: Loc)
    requires PlanesShape(cfg, planes) && Exact(cfg, planes, Some(loc)) && InRange(cfg, loc)
    ensures PageOf(planes, loc).state == {}
  {
    assert PlaneExact(cfg.blocks, cfg.pages, planes[loc.at], CellAt(Some(loc), loc.at));
    assert BlockExact(cfg.pages, planes[loc.at].blocks[loc.block], BusyIn(CellAt(Some(loc), loc.at), loc.block));
  }

  /** The program command that is out, and the page it wrote. */
  ghost predicate ProgramOut(cfg: Config, m: Chip) {
    && m.phase == Programming && |m.commands| == 1 && m.incompletedR == []
    && var r := m.commands[0];
       && r in m.cmds && m.cmds[r].op == Write && m.cmds[r].load.OfSub? && !m.cmds[r].completed
       && Burning(m) == Some(SubOf(m, r).loc)
       && PlanesShape(cfg, m.planes) && Landed(cfg, m.entries, m.planes, SubOf(m, r))
       && m.cmds[r].id == m.hw.id
  }

  lemma ProgramFacts(cfg: Config, m: Chip)
    requires ProgramDone(cfg, m)
    ensures Shape(cfg, m) && ProgramOut(cfg, m) && !m.hw.timer && m.hw.phase == Idle
  {
    hide PlaneExact, Exact, PlaneShape, MapForward, MapBackward, Stored, Writes, Reads, EraseOk, Marked, Room,
         SubsShape, Dead;
    BusyPage(cfg, m.planes, SubOf(m, m.commands[0]).loc);
  }

  lemma ProgramSubs(cfg: Config, m: Chip)
    requires ProgramDone(cfg, m)
    ensures var r := m.commands[0];
            && r in m.cmds && m.cmds[r].load.OfSub?
            && var s := SubOf(m, r);
               && s.loc in m.cells && s.lpn in m.store && s.lpn in m.entries
               && Within(s.bits) && Written(m.cells[s.loc], s) && Firm(m.store[s.lpn])
               && (m.cmds[r].related.None? ==> HostWriteOk(cfg, s, AllWrites(m), m.store))
               && (m.cmds[r].related.Some? ==>
                     Holds(s.buf, s.bits, m.store[s.lpn]) && s.bits == m.store[s.lpn].Keys)
  {
    hide PlaneExact, Exact, PlaneShape, MapForward, MapBackward, Writes, Reads, EraseOk, Marked, Room,
         SubsShape, Dead, Within, Looked, Firm, Written, Holds;
  }

  /** What the store holds after the write of `s`. */
  function StoreAfter(m: Chip, s: Sub): map<nat, Data>
    requires s.lpn in m.store
  {
    m.store[s.lpn := Settled(s, m.store[s.lpn])]
  }

  /** What was transferred of a write is what is kept of it. */
  lemma SettledHolds(cell: PageBuf, s: Sub, was: Data)
    requires Within(s.bits) && s.bits == was.Keys + s.host.Keys
    requires Holds(s.buf, s.bits, Carried(s, was)) && Written(cell, s)
    ensures Settled(s, was).Keys == s.bits && Firm(Settled(s, was)) && Holds(cell, s.bits, Settled(s, was))
  {
    hide Transferred;
    assert Settled(s, was).Keys == s.bits;
  }

  /** A relocation keeps all there was to keep. */
  lemma MovedHolds(cell: PageBuf, s: Sub, data: Data)
    requires Within(s.bits) && s.bits == data.Keys && Firm(data) && Holds(s.buf, s.bits, data) && Written(cell, s)
    ensures Holds(cell, s.bits, data)
  {
    hide Transferred;
  }

  lemma MovedStored(m: Chip, s: Sub, d: Data)
    requires Stored(m.entries, m.cells, m.store) && s.lpn in m.store && s.loc in m.cells
    requires Within(s.bits) && d.Keys == s.bits && Firm(d) && Holds(m.cells[s.loc], s.bits, d)
    ensures Stored(m.entries[s.lpn := Entry(s.bits, s.loc)], m.cells, m.store[s.lpn := d])
  {
    hide Within, Holds, Firm;
  }

  /** The completed program, spelled out. */
  function Landing(cfg: Config, m: Chip, r: nat): Chip
    requires r in m.cmds && m.cmds[r].load.OfSub?
    requires var s := SubOf(m, r);
             && s.lpn in m.entries && s.lpn in m.store && s.loc.at in m.planes
                && s.loc.block < |m.planes[s.loc.at].blocks|
             && s.loc.page < |m.planes[s.loc.at].blocks[s.loc.block].pages|
             && var o := OldCell(m.entries[s.lpn]);
                o.Cell? ==> o.block < |m.planes[s.loc.at].blocks| && o.page < |m.planes[s.loc.at].blocks[o.block].pages|
  {
    var s := SubOf(m, r);
    var host := m.cmds[r].related.None?;
    m.(phase := Idle, commands := [],
       entries := m.entries[s.lpn := Entry(s.bits, s.loc)],
       planes := MovedPlanes(cfg, m.entries, m.planes, s),
       cmds := if host then m.cmds - {r} else m.cmds[r := m.cmds[r].(completed := true)],
       pending := if host then Some(s.loc.at) else m.pending,
       store := if host then StoreAfter(m, s) else m.store,
       hw := m.hw.(signal := false))
  }

  lemma LandingFits(cfg: Config, m: Chip)
    requires ProgramDone(cfg, m)
    ensures Shape(cfg, m) && EndIndex(m, EndQueue(m), m.hw.id) == 0 && m.commands == [m.commands[0]]
    ensures Landing.requires(cfg, m, m.commands[0]) && m.cmds[m.commands[0]].op == Write
    ensures var s := SubOf(m, m.commands[0]); m.entries[s.lpn].subPage != {} ==> m.entries[s.lpn].loc.at == s.loc.at
    ensures m.phase == Programming && m.pending.None?
  {
    hide Inv, PlaneExact, Exact, PlaneShape, MapForward, MapBackward, TableShape, ListShape;
    ProgramFacts(cfg, m);
    var s := SubOf(m, m.commands[0]);
    OldHome(cfg, m.entries, m.planes, s);
    PlaneSizes(cfg, m.planes[s.loc.at]);
  }

  /** The page moves within its plane, so one plane takes both changes. */
  lemma UpdateIsMove(cfg: Config, m: Chip, r: nat)
    requires r in m.cmds && m.cmds[r].load.OfSub? && Landing.requires(cfg, m, r)
    requires var s := SubOf(m, r); m.entries[s.lpn].subPage != {} ==> m.entries[s.lpn].loc.at == s.loc.at
    ensures UpdateMap.requires(m, SubOf(m, r))
    ensures var s := SubOf(m, r);
            UpdateMap(m, s) == m.(entries := m.entries[s.lpn := Entry(s.bits, s.loc)],
                planes := MovedPlanes(cfg, m.entries, m.planes, s))
  {
    hide CommitPage, InvalidatePage;
    var s := SubOf(m, r);
    assert MovedPlanes(cfg, m.entries, m.planes, s) == UpdateMap(m, s).planes;
  }

  lemma LandingIs(cfg: Config, m: Chip, r: nat)
    requires Shape(cfg, m) && m.phase == Programming && m.commands == [r]
    requires EndIndex(m, EndQueue(m), m.hw.id) == 0 && m.pending.None?
    requires r in m.cmds && m.cmds[r].load.OfSub? && Landing.requires(cfg, m, r) && UpdateMap.requires(m, SubOf(m, r))
    requires var s := SubOf(m, r);
             UpdateMap(m, s) == m.(entries := m.entries[s.lpn := Entry(s.bits, s.loc)],
                 planes := MovedPlanes(cfg, m.entries, m.planes, s))
    ensures Complete(cfg, m) == Landing(cfg, m, r)
  {
    hide Shape, UpdateMap, MovedPlanes, EndIndex;
    assert Without(m.commands, 0) == [];
  }

  lemma LandingDefined(cfg: Config, m: Chip)
    requires ProgramDone(cfg, m)
    ensures Shape(cfg, m) && EndIndex(m, EndQueue(m), m.hw.id) < |EndQueue(m)|
    ensures m.commands != [] && Landing.requires(cfg, m, m.commands[0])
    ensures Complete(cfg, m) == Landing(cfg, m, m.commands[0])
  {
    hide ProgramDone, Shape, UpdateMap, MovedPlanes, Complete, Landing, EndIndex;
    LandingFits(cfg, m);
    UpdateIsMove(cfg, m, m.commands[0]);
    LandingIs(cfg, m, m.commands[0]);
  }

  lemma LandingPlanes(cfg: Config, m: Chip)
    requires ProgramDone(cfg, m)
    ensures m.commands != [] && Landing.requires(cfg, m, m.commands[0])
    ensures var m' := Landing(cfg, m, m.commands[0]);
            && PlanesShape(cfg, m'.planes) && Exact(cfg, m'.planes, None)
            && MapForward(cfg, m'.entries, m'.planes) && MapBackward(cfg, m'.entries, m'.planes)
  {
    hide Inv, PlaneExact, Exact, PlaneShape, MapForward, MapBackward, TableShape, ListShape, Moved, Settled;
    LandingDefined(cfg, m);
    ProgramFacts(cfg, m);
    var s := SubOf(m, m.commands[0]);
    MovedPlanesExact(cfg, m.entries, m.planes, s);
    MovedForward(cfg, m.entries, m.planes, s);
    MovedBackward(cfg, m.entries, m.planes, s);
  }

  lemma LandingStored(cfg: Config, m: Chip)
    requires ProgramDone(cfg, m)
    ensures m.commands != [] && Landing.requires(cfg, m, m.commands[0])
    ensures var m' := Landing(cfg, m, m.commands[0]); Stored(m'.entries, m'.cells, m'.store)
  {
    hide Inv, Shape, MovedPlanes, Stored, Landed, ProgramDone, Settled, Carried, Holds, Firm, Written, Within, Complete;
    LandingDefined(cfg, m);
    ProgramSubs(cfg, m);
    ProgramStored(cfg, m);
    var s := SubOf(m, m.commands[0]);
    var cell := m.cells[s.loc];
    if m.cmds[m.commands[0]].related.None? {
      HostReady(cfg, s, AllWrites(m), m.store);
      SettledHolds(cell, s, m.store[s.lpn]);
      MovedStored(m, s, Settled(s, m.store[s.lpn]));
    } else {
      MovedHolds(cell, s, m.store[s.lpn]);
      MovedStored(m, s, m.store[s.lpn]);
      assert m.store[s.lpn := m.store[s.lpn]] == m.store;
    }
  }

  lemma HostReady(cfg: Config, s: Sub, w: seq<Sub>, store: map<nat, Data>)
    requires HostWriteOk(cfg, s, w, store)
    ensures s.lpn in store && s.bits == store[s.lpn].Keys + s.host.Keys && Within(s.bits)
    ensures Holds(s.buf, s.bits, Carried(s, store[s.lpn]))
  {
    hide Within, Holds;
  }

  lemma ProgramStored(cfg: Config, m: Chip)
    requires ProgramDone(cfg, m)
    ensures Stored(m.entries, m.cells, m.store)
  {
    hide Stored;
  }

  lemma LandingShape(cfg: Config, m: Chip)
    requires ProgramDone(cfg, m)
    ensures m.commands != [] && Landing.requires(cfg, m, m.commands[0])
    ensures Shape(cfg, Landing(cfg, m, m.commands[0]))
  {
    hide Inv, ProgramDone, Exact, MapForward, MapBackward, PlanesShape, MovedPlanes, TableShape, ListShape, SubsShape,
         Complete, SubShape, EndIndex, EndQueue, Settled;
    LandingDefined(cfg, m);
    ProgramFacts(cfg, m);
    LandingPlanes(cfg, m);
    LandingTables(cfg, m);
  }

  lemma LandingTables(cfg: Config, m: Chip)
    requires ProgramDone(cfg, m)
    ensures m.commands != [] && Landing.requires(cfg, m, m.commands[0])
    ensures var m' := Landing(cfg, m, m.commands[0]);
            TableShape(cfg, m'.cmds, m'.nextRef) && ListShape(m'.cmds, m'.commands, m'.incompletedR, m'.erases)
  {
    hide Inv, ProgramDone, Exact, MapForward, MapBackward, PlanesShape, MovedPlanes, SubsShape, EntriesShape,
         Complete, SubShape, EndIndex, EndQueue, Settled, EraseQueue, Marked, CommandShape;
    LandingDefined(cfg, m);
    ProgramFacts(cfg, m);
    ProgramRelated(cfg, m);
    RetiredCommand(cfg, m.cmds[m.commands[0]]);
  }

  lemma RetiredCommand(cfg: Config, c: Command)
    ensures CommandShape(cfg, c.(completed := true)) == CommandShape(cfg, c)
  {
  }

  /** A host command that is retired is one that no erase waits for. */
  lemma ProgramRelated(cfg: Config, m: Chip)
    requires ProgramDone(cfg, m)
    ensures m.commands != [] && m.commands[0] in m.cmds
    ensures m.cmds[m.commands[0]].related.None? ==>
              forall i :: 0 <= i < |m.erases| ==> m.erases[i] in m.cmds && m.cmds[m.erases[i]].related.None?
    ensures forall i :: 0 <= i < |m.erases| ==> m.erases[i] in m.cmds && m.erases[i] != m.commands[0]
  {
    hide PlaneExact, Exact, PlanesShape, MapForward, MapBackward, Stored, Writes, Reads, Looked, EraseOk, Room,
         SubsShape, EntriesShape, Within, Holds, Marked, Burnt, InStep, Hosts, Moving, Dead, Gone, TableShape;
  }

  // ---------------------------------------------------------------- queues after the program

  lemma StoreGrows(cfg: Config, w: seq<Sub>, store: map<nat, Data>, l: nat, d: Data)
    requires Writes(cfg, w, store) && l in store && forall i :: 0 <= i < |w| ==> w[i].lpn != l
    ensures Writes(cfg, w, store[l := d])
  {
    hide Holds, Within;
    var store' := store[l := d];
    forall i | 0 <= i < |w| ensures if w[i].paired then Waiting(w[i], store') else Ready(w[i], store') {
      assert if w[i].paired then Waiting(w[i], store) else Ready(w[i], store);
    }
  }

  lemma StoreGrowsReads(q: seq<Sub>, w: seq<Sub>, store: map<nat, Data>, l: nat, d: Data)
    requires Reads(q, w, store) && l in store && forall i :: 0 <= i < |w| ==> w[i].lpn != l
    ensures Reads(q, w, store[l := d])
  {
    hide Within, Firm;
    var store' := store[l := d];
    forall i | 0 <= i < |q| ensures ReadOk(q[i], w, store') {
      assert ReadOk(q[i], w, store);
    }
  }

  lemma LandingQueues(cfg: Config, m: Chip)
    requires ProgramDone(cfg, m)
    ensures m.commands != [] && Landing.requires(cfg, m, m.commands[0])
    ensures var m' := Landing(cfg, m, m.commands[0]);
            && Queues(m') && Hosts(cfg, m') && Burnt(m') && InStep(m') && Burning(m').None?
  {
    hide PlaneExact, Exact, PlaneShape, MapForward, MapBackward, Moved, Stored, Writes, Reads, EraseOk, Room,
         PlanesShape, Moving, SubShape, TableShape, ListShape, Within, Ready, Holds, Marked, Looked, Settled, Firm;
    LandingDefined(cfg, m);
    ProgramFacts(cfg, m);
  }

  lemma LandingSubs(cfg: Config, m: Chip)
    requires ProgramDone(cfg, m)
    ensures m.commands != [] && Landing.requires(cfg, m, m.commands[0])
    ensures var m' := Landing(cfg, m, m.commands[0]);
            && Writes(cfg, AllWrites(m'), m'.store) && Reads(AllReads(m'), AllWrites(m'), m'.store)
            && Looked(AllReads(m'), m'.cells, m'.ages)
  {
    hide Inv, Shape, MovedPlanes, Stored, Landed, ProgramDone, Settled, Holds, Firm, Written, Within, Complete,
         Writes, Reads, Looked, Ready;
    LandingDefined(cfg, m);
    ProgramSubs(cfg, m);
    ProgramLists(cfg, m);
    var s := SubOf(m, m.commands[0]);
    if m.cmds[m.commands[0]].related.None? {
      StoreGrows(cfg, AllWrites(m), m.store, s.lpn, Settled(s, m.store[s.lpn]));
      StoreGrowsReads(AllReads(m), AllWrites(m), m.store, s.lpn, Settled(s, m.store[s.lpn]));
    }
  }

  lemma ProgramLists(cfg: Config, m: Chip)
    requires ProgramDone(cfg, m)
    ensures Writes(cfg, AllWrites(m), m.store) && Reads(AllReads(m), AllWrites(m), m.store)
    ensures Looked(AllReads(m), m.cells, m.ages)
  {
    hide Shape, Exact, MapForward, MapBackward, Stored, Writes, Reads, Looked, Hosts, Burnt, EraseQueue, Marked,
         Collecting, Room, InStep, Queues;
  }

  // ---------------------------------------------------------------- collection after the program

  lemma MovedErase(cfg: Config, entries: map<nat, Entry>, planes: map<PlaneAddr, Plane>, s: Sub, c: Command)
    requires PlanesShape(cfg, planes) && Landed(cfg, entries, planes, s) && EraseOk(cfg, planes, c)
    requires c.load.at == s.loc.at ==> c.stage == 0 || s.loc.block != planes[s.loc.at].eraseBlock
    ensures var o := OldCell(entries[s.lpn]); o.Cell? ==>
               o.block < |planes[s.loc.at].blocks| && o.page < |planes[s.loc.at].blocks[o.block].pages|
    ensures EraseOk(cfg, MovedPlanes(cfg, entries, planes, s), c)
  {
    hide PlaneExact, Exact, Moved, MapForward, MapBackward;
    OldHome(cfg, entries, planes, s);
    MovedPages(cfg, planes[s.loc.at], Cell(s.loc.block, s.loc.page), OldCell(entries[s.lpn]), s.bits, s.lpn);
  }

  /** Which erase commands a completing program may touch, and how. */
  lemma ProgramAndErases(cfg: Config, m: Chip)
    requires ProgramDone(cfg, m)
    ensures m.commands != [] && m.commands[0] in m.cmds && m.cmds[m.commands[0]].load.OfSub?
    ensures EraseQueue(cfg, m.planes, m.cmds, m.erases) && Marked(m.planes, m.cmds, m.erases)
    ensures forall i :: 0 <= i < |m.erases| ==> m.erases[i] in m.cmds && m.erases[i] != m.commands[0]
    ensures var s := SubOf(m, m.commands[0]);
            s.loc.at in m.planes &&
            forall i :: 0 <= i < |m.erases| && m.cmds[m.erases[i]].load.EraseAt?
                        && m.cmds[m.erases[i]].load.at == s.loc.at ==>
              m.cmds[m.erases[i]].stage == 0 || s.loc.block != m.planes[s.loc.at].eraseBlock
  {
    hide PlaneExact, Exact, PlaneShape, MapForward, MapBackward, Stored, Writes, Reads, EraseOk, Room, SubsShape,
         Within, Ready, Holds, Marked, Burnt, InStep;
    ProgramFacts(cfg, m);
  }

  lemma LandingErases(cfg: Config, m: Chip)
    requires ProgramDone(cfg, m)
    ensures m.commands != [] && Landing.requires(cfg, m, m.commands[0])
    ensures var m' := Landing(cfg, m, m.commands[0]);
            EraseQueue(cfg, m'.planes, m'.cmds, m'.erases) && Marked(m'.planes, m'.cmds, m'.erases)
  {
    hide Inv, PlaneExact, Exact, PlaneShape, MapForward, MapBackward, Moved, EraseOk, PlanesShape, TableShape,
         ListShape, MovedPlanes, Marked, EraseQueue;
    LandingDefined(cfg, m);
    ProgramFacts(cfg, m);
    ProgramAndErases(cfg, m);
    var s := SubOf(m, m.commands[0]);
    var planes' := MovedPlanes(cfg, m.entries, m.planes, s);
    MovedQueue(cfg, m.entries, m.planes, s, m.cmds, m.erases);
    SameErases(cfg, planes', m.cmds, Landing(cfg, m, m.commands[0]).cmds, m.erases);
  }

  lemma MovedQueue(cfg: Config, entries: map<nat, Entry>, planes: map<PlaneAddr, Plane>, s: Sub,
        cmds: map<nat, Command>, erases: seq<nat>)
    requires PlanesShape(cfg, planes) && Landed(cfg, entries, planes, s)
    requires EraseQueue(cfg, planes, cmds, erases) && Marked(planes, cmds, erases)
    requires forall i :: 0 <= i < |erases| && erases[i] in cmds && cmds[erases[i]].load.EraseAt?
                         && cmds[erases[i]].load.at == s.loc.at ==>
               cmds[erases[i]].stage == 0 || s.loc.block != planes[s.loc.at].eraseBlock
    ensures var o := OldCell(entries[s.lpn]); o.Cell? ==>
               o.block < |planes[s.loc.at].blocks| && o.page < |planes[s.loc.at].blocks[o.block].pages|
    ensures var planes' := MovedPlanes(cfg, entries, planes, s);
            EraseQueue(cfg, planes', cmds, erases) && Marked(planes', cmds, erases)
  {
    hide PlaneExact, Exact, Moved, MapForward, MapBackward, PlaneShape;
    OldHome(cfg, entries, planes, s);
    PlaneSizes(cfg, planes[s.loc.at]);
    MovedPages(cfg, planes[s.loc.at], Cell(s.loc.block, s.loc.page), OldCell(entries[s.lpn]), s.bits, s.lpn);
    hide EraseOk;
    var planes' := MovedPlanes(cfg, entries, planes, s);
    forall i | 0 <= i < |erases| ensures EraseOk(cfg, planes', cmds[erases[i]]) {
      assert EraseOk(cfg, planes, cmds[erases[i]]);
      EraseIsErase(cfg, planes, cmds[erases[i]]);
      MovedErase(cfg, entries, planes, s, cmds[erases[i]]);
    }
  }

  lemma EraseIsErase(cfg: Config, planes: map<PlaneAddr, Plane>, c: Command)
    requires EraseOk(cfg, planes, c)
    ensures c.op == Erase && c.load.EraseAt? && c.load.at in planes
  {
  }

  /** The page a relocation came from is not live any more. */
  lemma LandingGone(cfg: Config, m: Chip)
    requires ProgramDone(cfg, m)
    ensures m.commands != [] && Landing.requires(cfg, m, m.commands[0])
    ensures m.cmds[m.commands[0]].related.Some? ==>
              && m.erases != [] && m.erases[0] in m.cmds && m.cmds[m.erases[0]].load.EraseAt?
              && m.cmds[m.erases[0]].load.at == SubOf(m, m.commands[0]).loc.at
              && Gone(Landing(cfg, m, m.commands[0]).planes[SubOf(m, m.commands[0]).loc.at], m.cmds[m.erases[0]].stage)
  {
    hide Inv, PlaneExact, Exact, MapForward, MapBackward, Moved, TableShape, ListShape, Marked, EraseQueue, EraseOk;
    LandingDefined(cfg, m);
    ProgramFacts(cfg, m);
    if m.cmds[m.commands[0]].related.Some? {
      MovingFrom(cfg, m);
      var s := SubOf(m, m.commands[0]);
      OldHome(cfg, m.entries, m.planes, s);
      MovedPages(cfg, m.planes[s.loc.at], Cell(s.loc.block, s.loc.page), OldCell(m.entries[s.lpn]), s.bits, s.lpn);
    }
  }

  /** Where a relocation in flight comes from. */
  lemma MovingFrom(cfg: Config, m: Chip)
    requires ProgramDone(cfg, m) && m.commands != [] && m.commands[0] in m.cmds && m.cmds[m.commands[0]].related.Some?
    ensures m.erases != [] && m.erases[0] in m.cmds && m.cmds[m.erases[0]].load.EraseAt?
    ensures m.cmds[m.commands[0]].load.OfSub?
    ensures var at := m.cmds[m.erases[0]].load.at; var s := SubOf(m, m.commands[0]);
            && at in m.planes && s.loc.at == at && s.lpn in m.entries && m.entries[s.lpn].subPage != {}
            && m.entries[s.lpn].loc == Loc(at, m.planes[at].eraseBlock, m.cmds[m.erases[0]].stage)
  {
    hide PlaneExact, Exact, MapForward, MapBackward, TableShape, Marked, EraseOk, Stored, Writes, Reads, Room, Hosts,
         InStep, Within;
    WithinIs(SubOf(m, m.commands[0]).bits);
  }

  lemma LandingCollecting(cfg: Config, m: Chip)
    requires ProgramDone(cfg, m)
    ensures m.commands != [] && Landing.requires(cfg, m, m.commands[0])
    ensures Collecting(cfg, Landing(cfg, m, m.commands[0]))
  {
    hide PlaneExact, Exact, PlaneShape, MapForward, MapBackward, Moved, Stored, Writes, Reads, EraseOk, Room,
         SubShape, TableShape, Within, Ready, Holds, Marked, Hosts, Dead, Moving, PlanesShape, Burnt, Gone;
    LandingDefined(cfg, m);
    ProgramFacts(cfg, m);
    LandingGone(cfg, m);
  }

  // ---------------------------------------------------------------- room after the program

  lemma MovedRoom(cfg: Config, pl: Plane, c: Cell, o: Cell, bits: set<nat>, lpn: nat, host: bool)
    requires PlaneShape(cfg, pl) && c.Cell? && c.block < cfg.blocks && c.page < cfg.pages
    requires o.Cell? ==> o.block < cfg.blocks && o.page < cfg.pages && o != c
    requires RoomAt(cfg, pl, true, !host, false)
    requires !host ==> pl.eraseUsed && o.Cell? && o.block == pl.eraseBlock
    ensures RoomAt(cfg, Moved(pl, c, o, bits, lpn), false, false, host)
  {
    hide Moved;
    MovedPages(cfg, pl, c, o, bits, lpn);
  }

  /** A relocation leaves the victim. */
  lemma LeavesVictim(cfg: Config, m: Chip)
    requires ProgramDone(cfg, m)
    ensures m.commands != [] && m.commands[0] in m.cmds && m.cmds[m.commands[0]].load.OfSub?
    ensures var s := SubOf(m, m.commands[0]);
            && s.loc.at in m.planes && s.lpn in m.entries
            && RoomAt(cfg, m.planes[s.loc.at], true, m.cmds[m.commands[0]].related.Some?, false)
            && (m.cmds[m.commands[0]].related.Some? ==>
                  m.planes[s.loc.at].eraseUsed && OldCell(m.entries[s.lpn]).Cell?
                      && OldCell(m.entries[s.lpn]).block == m.planes[s.loc.at].eraseBlock)
    ensures forall a :: a in m.planes && a != SubOf(m, m.commands[0]).loc.at ==>
            RoomAt(cfg, m.planes[a], false, false, false)
  {
    hide PlaneExact, Exact, PlaneShape, MapForward, MapBackward, Stored, Writes, Reads, SubsShape, Ready, Holds,
         Marked, Burnt, RoomAt, Hosts;
    ProgramFacts(cfg, m);
    var s := SubOf(m, m.commands[0]);
    assert RoomAt(cfg, m.planes[s.loc.at], CellAt(Burning(m), s.loc.at).Cell?, Relocating(m, s.loc.at),
        m.pending == Some(s.loc.at));
    if m.cmds[m.commands[0]].related.Some? {
      WithinIs(s.bits);
      assert EraseOk(cfg, m.planes, m.cmds[m.erases[0]]);
    }
  }

  lemma LandingRoom(cfg: Config, m: Chip)
    requires ProgramDone(cfg, m)
    ensures m.commands != [] && Landing.requires(cfg, m, m.commands[0])
    ensures Room(cfg, Landing(cfg, m, m.commands[0]))
  {
    hide Inv, PlaneExact, Exact, PlaneShape, MapForward, MapBackward, Moved, PlanesShape, TableShape, ListShape,
         RoomAt;
    LandingDefined(cfg, m);
    ProgramFacts(cfg, m);
    LeavesVictim(cfg, m);
    var s := SubOf(m, m.commands[0]);
    OldHome(cfg, m.entries, m.planes, s);
    MovedRoom(cfg, m.planes[s.loc.at], Cell(s.loc.block, s.loc.page), OldCell(m.entries[s.lpn]), s.bits, s.lpn,
        m.cmds[m.commands[0]].related.None?);
  }

  lemma EndProgramKeeps(cfg: Config, m: Chip)
    requires ProgramDone(cfg, m)
    ensures Shape(cfg, m) && EndIndex(m, EndQueue(m), m.hw.id) < |EndQueue(m)|
    ensures Inv(cfg, Complete(cfg, m))
  {
    LandingDefined(cfg, m);
    LandingShape(cfg, m);
    LandingPlanes(cfg, m);
    LandingStored(cfg, m);
    LandingQueues(cfg, m);
    LandingSubs(cfg, m);
    LandingErases(cfg, m);
    LandingCollecting(cfg, m);
    LandingRoom(cfg, m);
    hide *;
  }
}
