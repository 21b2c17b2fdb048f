/** Sending a program command keeps the invariant, for host writes and relocations alike. */
module ChipWrite {
  import opened Flash
  import opened Layout
  import opened Sectors
  import opened Chip
  import opened ChipInv

  function AllocLoc(pl: Plane, at: PlaneAddr): Loc
    requires pl.active < |pl.blocks|
  {
    Loc(at, NextCell(pl).block, NextCell(pl).page)
  }

  /** What an allocation does to a plane. */
  lemma AllocPlane(cfg: Config, pl: Plane)
    requires PlaneShape(cfg, pl) && PlaneExact(cfg.blocks, cfg.pages, pl, NoCell) && pl.cnt.free >= 2
    ensures var pl' := AllocPage(cfg.pages, pl); var c := NextCell(pl);
            && PlaneShape(cfg, pl') && PlaneExact(cfg.blocks, cfg.pages, pl', c)
            && pl'.eraseUsed == pl.eraseUsed && pl'.eraseBlock == pl.eraseBlock
            && pl'.cnt == Plus(pl.cnt, Counts(-1, 1, 0))
            && c.block < cfg.blocks && pl.blocks[c.block].startWrite < cfg.pages
            && c.page < cfg.pages && pl.blocks[c.block].pages[c.page].state == {}
            && (forall b :: 0 <= b < cfg.blocks ==> pl'.blocks[b].pages == pl.blocks[b].pages)
            && (forall b :: 0 <= b < cfg.blocks && pl.blocks[b].startWrite == cfg.pages ==>
               pl'.blocks[b] == pl.blocks[b])
  {
    AllocKeepsExact(cfg.blocks, cfg.pages, pl);
    hide PlaneExact;
    assert AllocPage(cfg.pages, pl).active < cfg.blocks by { SearchEnds(cfg.blocks, cfg.pages, pl); }
  }

  lemma AllocShape(cfg: Config, planes: map<PlaneAddr, Plane>, at: PlaneAddr)
    requires PlanesShape(cfg, planes) && Exact(cfg, planes, None) && at in planes && planes[at].cnt.free >= 2
    ensures var pl' := AllocPage(cfg.pages, planes[at]); var loc := AllocLoc(planes[at], at);
            && PlanesShape(cfg, planes[at := pl'])
            && InRange(cfg, loc) && PageOf(planes, loc).state == {}
            && Exact(cfg, planes[at := pl'], Some(loc))
  {
    hide PlaneExact, AllocPage;
    assert PlaneExact(cfg.blocks, cfg.pages, planes[at], CellAt(None, at));
    AllocPlane(cfg, planes[at]);
    var planes' := planes[at := AllocPage(cfg.pages, planes[at])];
    var loc := AllocLoc(planes[at], at);
    forall a | a in planes' ensures PlaneExact(cfg.blocks, cfg.pages, planes'[a], CellAt(Some(loc), a)) {
      assert PlaneExact(cfg.blocks, cfg.pages, planes[a], CellAt(None, a));
    }
  }

  /** No page-table entry changes. */
  ghost predicate SamePages(cfg: Config, planes: map<PlaneAddr, Plane>, planes': map<PlaneAddr, Plane>)
    requires PlanesShape(cfg, planes) && PlanesShape(cfg, planes')
  {
    forall loc :: InRange(cfg, loc) ==> PageOf(planes, loc) == PageOf(planes', loc)
  }

  lemma SamePagesMap(cfg: Config, entries: map<nat, Entry>,
        planes: map<PlaneAddr, Plane>, planes': map<PlaneAddr, Plane>)
    requires PlanesShape(cfg, planes) && PlanesShape(cfg, planes') && SamePages(cfg, planes, planes')
    requires MapForward(cfg, entries, planes) && MapBackward(cfg, entries, planes)
    ensures MapForward(cfg, entries, planes') && MapBackward(cfg, entries, planes')
  {
    forall loc | InRange(cfg, loc) && PageOf(planes', loc).state != {}
      ensures var l := PageOf(planes', loc).lpn; l in entries && entries[l] == Entry(PageOf(planes', loc).state, loc)
    {
      assert PageOf(planes, loc) == PageOf(planes', loc);
    }
  }

  lemma AllocMap(cfg: Config, entries: map<nat, Entry>, planes: map<PlaneAddr, Plane>, at: PlaneAddr)
    requires PlanesShape(cfg, planes) && Exact(cfg, planes, None) && at in planes && planes[at].cnt.free >= 2
    requires MapForward(cfg, entries, planes) && MapBackward(cfg, entries, planes)
    ensures var planes' := planes[at := AllocPage(cfg.pages, planes[at])];
            PlanesShape(cfg, planes') && MapForward(cfg, entries, planes') && MapBackward(cfg, entries, planes')
  {
    hide PlaneExact, AllocPage, MapForward, MapBackward;
    assert PlaneExact(cfg.blocks, cfg.pages, planes[at], CellAt(None, at));
    AllocPlane(cfg, planes[at]);
    SamePagesMap(cfg, entries, planes, planes[at := AllocPage(cfg.pages, planes[at])]);
  }

  /** A page nobody is mapped to can be overwritten. */
  lemma CellsKeepStored(cfg: Config, entries: map<nat, Entry>, planes: map<PlaneAddr, Plane>, cells: map<Loc, PageBuf>,
                        store: map<nat, Data>, loc: Loc, buf: PageBuf)
    requires PlanesShape(cfg, planes) && MapForward(cfg, entries, planes) && Stored(entries, cells, store)
    requires InRange(cfg, loc) && PageOf(planes, loc).state == {}
    ensures Stored(entries, cells[loc := buf], store)
  {
  }

  lemma AllocErases(cfg: Config, planes: map<PlaneAddr, Plane>, at: PlaneAddr,
        cmds: map<nat, Command>, erases: seq<nat>)
    requires PlanesShape(cfg, planes) && Exact(cfg, planes, None) && at in planes && planes[at].cnt.free >= 2
    requires EraseQueue(cfg, planes, cmds, erases) && Marked(planes, cmds, erases)
    ensures var planes' := planes[at := AllocPage(cfg.pages, planes[at])];
            EraseQueue(cfg, planes', cmds, erases) && Marked(planes', cmds, erases)
  {
    hide PlaneExact, AllocPage;
    assert PlaneExact(cfg.blocks, cfg.pages, planes[at], CellAt(None, at));
    AllocPlane(cfg, planes[at]);
    var planes' := planes[at := AllocPage(cfg.pages, planes[at])];
    forall i | 0 <= i < |erases| ensures EraseOk(cfg, planes', cmds[erases[i]]) {
      assert EraseOk(cfg, planes, cmds[erases[i]]);
    }
  }

  /** The erase queue only looks at its own commands. */
  lemma SameErases(cfg: Config, planes: map<PlaneAddr, Plane>,
        cmds: map<nat, Command>, cmds': map<nat, Command>, erases: seq<nat>)
    requires EraseQueue(cfg, planes, cmds, erases) && Marked(planes, cmds, erases)
    requires forall i :: 0 <= i < |erases| ==> erases[i] in cmds' && cmds'[erases[i]] == cmds[erases[i]]
    ensures EraseQueue(cfg, planes, cmds', erases) && Marked(planes, cmds', erases)
  {
    hide EraseOk;
  }

  lemma TableUpdate(cfg: Config, m: Chip, r: nat, c: Command)
    requires TableShape(cfg, m.cmds, m.nextRef) && ListShape(m.cmds, m.commands, m.incompletedR, m.erases)
    requires r in m.cmds && CommandShape(cfg, c) && c.op == m.cmds[r].op && c.related == m.cmds[r].related
    ensures TableShape(cfg, m.cmds[r := c], m.nextRef) && ListShape(m.cmds[r := c], m.commands, m.incompletedR,
            m.erases)
  {
  }

  // ---------------------------------------------------------------- the whole step

  /** Room for one more program; and with a threshold of three blocks, more than a block. */
  ghost predicate Ample(cfg: Config, pl: Plane) {
    && pl.cnt.free >= 2
    && (cfg.threshold >= 3 * cfg.pages + Slack(cfg) ==> pl.cnt.free > cfg.pages)
  }

  /** A chip about to send the program command `r`. */
  ghost predicate Poised(cfg: Config, m: Chip, r: nat) {
    && Shape(cfg, m)
    && m.phase == Idle && m.commands == [r] && m.incompletedR == [] && r in m.cmds
    && m.hw.phase == Idle && !m.hw.timer && !m.hw.signal
    && m.cmds[r].op == Write && !m.cmds[r].completed && m.cmds[r].stage == 0
    && Exact(cfg, m.planes, None)
    && MapForward(cfg, m.entries, m.planes) && MapBackward(cfg, m.entries, m.planes)
    && Stored(m.entries, m.cells, m.store)
    && Writes(cfg, AllWrites(m), m.store) && Reads(AllReads(m), AllWrites(m), m.store)
    && Looked(AllReads(m), m.cells, m.ages)
    && EraseQueue(cfg, m.planes, m.cmds, m.erases) && Marked(m.planes, m.cmds, m.erases)
    && (forall a :: a in m.planes ==> RoomAt(cfg, m.planes[a], false, false, m.pending == Some(a)))
    && (!cfg.split ==> m.pending.None?)
    && var s := SubOf(m, r);
       && Within(s.bits) && Ample(cfg, m.planes[s.loc.at])
       && if m.cmds[r].related.None? then
            m.erases == [] && !m.planes[s.loc.at].eraseUsed && HostWriteOk(cfg, s, AllWrites(m), m.store)
          else
            && m.erases != [] && m.planes[s.loc.at].eraseUsed
            && m.cmds[r].related == Some(m.erases[0]) && m.cmds[m.erases[0]].related == Some(r)
            && Moving(cfg, m, m.cmds[m.erases[0]], m.cmds[r])
  }

  /** What is known about the command about to be sent. */
  lemma PoisedCommand(cfg: Config, m: Chip, r: nat)
    requires Poised(cfg, m, r)
    ensures r in m.cmds && m.cmds[r].load.OfSub?
    ensures var s := SubOf(m, r);
            && s.lpn in cfg.homes && s.loc.at in m.planes && s.loc.at in cfg.addrs && Within(s.bits)
            && PlaneShape(cfg, m.planes[s.loc.at])
            && PlaneExact(cfg.blocks, cfg.pages, m.planes[s.loc.at], NoCell)
            && m.planes[s.loc.at].cnt.free >= 2
    ensures m.erases != [] ==> m.erases[0] in m.cmds && m.erases[0] != r && EraseOk(cfg, m.planes, m.cmds[m.erases[0]])
  {
    hide PlaneExact, MapForward, MapBackward, Marked, Stored, Writes, Reads, HostWriteOk, Exact, RoomAt, PlaneShape,
         EraseOk, Moving, Within;
    AtPlane(cfg, m.planes, SubOf(m, r).loc.at);
  }

  function Programmed(cfg: Config, m: Chip, r: nat): Chip
    requires Shape(cfg, m) && r in m.cmds && m.cmds[r].op == Write
  {
    var s := SubOf(m, r);
    var loc := AllocLoc(m.planes[s.loc.at], s.loc.at);
    var m1 := PutSub(m, r, s.(loc := loc));
    m1.(phase := Programming,
        planes := m.planes[s.loc.at := AllocPage(cfg.pages, m.planes[s.loc.at])],
        hw := Start(m.hw, Programming, loc, m.cmds[r].id),
        cells := if loc in m.cells then m.cells[loc := Overlay(m.cells[loc], Transferred(s.bits), s.buf)] else m.cells,
        ages := if loc in m.ages then m.ages[loc := m.ages[loc] + 1] else m.ages)
  }

  lemma ProgrammedIsSend(cfg: Config, m: Chip, r: nat)
    requires Poised(cfg, m, r)
    ensures SendWrite(cfg, m, r, true) == Programmed(cfg, m, r)
  {
    hide PlaneExact, AllocPage, MapForward, MapBackward, EraseQueue, Marked, Writes, Reads, RoomAt, Moving,
         HostWriteOk, Looked, Stored;
    var loc := ProgrammedAt(cfg, m, r);
  }

  /** Where the command about to be sent will be programmed. */
  lemma ProgrammedAt(cfg: Config, m: Chip, r: nat) returns (loc: Loc)
    requires Poised(cfg, m, r)
    ensures r in m.cmds && m.cmds[r].load.OfSub? && SubOf(m, r).loc.at in m.planes
    ensures var pl := m.planes[SubOf(m, r).loc.at]; pl.active < |pl.blocks| && loc == AllocLoc(pl, SubOf(m, r).loc.at)
    ensures InRange(cfg, loc) && loc in m.cells && loc in m.ages
    ensures PlanesShape(cfg, m.planes) && PageOf(m.planes, loc).state == {}
  {
    hide PlaneExact, AllocPage, MapForward, MapBackward, EraseQueue, Marked, Writes, Reads, RoomAt, Moving,
         HostWriteOk, Looked, Stored, Exact, EntriesShape, TableShape, ListShape, SubsShape;
    PoisedCommand(cfg, m, r);
    AllocShape(cfg, m.planes, SubOf(m, r).loc.at);
    loc := AllocLoc(m.planes[SubOf(m, r).loc.at], SubOf(m, r).loc.at);
  }

  lemma ProgrammedShape(cfg: Config, m: Chip, r: nat)
    requires Poised(cfg, m, r)
    ensures Shape(cfg, Programmed(cfg, m, r))
  {
    hide PlaneExact, AllocPage, MapForward, MapBackward, EraseQueue, Marked, Writes, Reads, RoomAt, Moving,
         HostWriteOk, Stored, PlanesShape, EntriesShape, TableShape, ListShape, SubsShape;
    PoisedCommand(cfg, m, r);
    ProgrammedIsSend(cfg, m, r);
    AllocShape(cfg, m.planes, SubOf(m, r).loc.at);
    TableUpdate(cfg, m, r, Programmed(cfg, m, r).cmds[r]);
  }

  lemma ProgrammedPlanes(cfg: Config, m: Chip, r: nat)
    requires Poised(cfg, m, r)
    ensures var m' := Programmed(cfg, m, r);
            && PlanesShape(cfg, m'.planes)
            && Exact(cfg, m'.planes, Burning(m'))
            && MapForward(cfg, m'.entries, m'.planes) && MapBackward(cfg, m'.entries, m'.planes)
            && Stored(m'.entries, m'.cells, m'.store)
            && EraseQueue(cfg, m'.planes, m'.cmds, m'.erases) && Marked(m'.planes, m'.cmds, m'.erases)
  {
    hide PlaneExact, AllocPage, MapForward, MapBackward, EraseQueue, Marked, Writes, Reads, RoomAt, Moving,
         HostWriteOk, Stored, Exact;
    var at := SubOf(m, r).loc.at;
    AllocShape(cfg, m.planes, at);
    AllocMap(cfg, m.entries, m.planes, at);
    AllocErases(cfg, m.planes, at, m.cmds, m.erases);
    var m' := Programmed(cfg, m, r);
    var loc := AllocLoc(m.planes[at], at);
    assert Burning(m') == Some(loc);
    CellsKeepStored(cfg, m.entries, m.planes, m.cells, m.store, loc,
        Overlay(m.cells[loc], Transferred(SubOf(m, r).bits), SubOf(m, r).buf));
    SameErases(cfg, m'.planes, m.cmds, m'.cmds, m.erases);
  }

  lemma ProgrammedCommands(cfg: Config, m: Chip, r: nat)
    requires Poised(cfg, m, r)
    ensures var m' := Programmed(cfg, m, r);
            Queues(m') && Hosts(cfg, m') && Burnt(m') && InStep(m')
  {
    hide PlaneExact, AllocPage, MapForward, MapBackward, EraseQueue, Marked, RoomAt, Stored, Exact, Moving;
    ProgrammedIsSend(cfg, m, r);
    var loc := ProgrammedAt(cfg, m, r);
    ProgrammedCell(m.cells[loc], SubOf(m, r));
  }

  lemma ProgrammedCell(cell: PageBuf, s: Sub)
    requires Within(s.bits)
    ensures s.bits != {} && forall loc :: Written(Overlay(cell, Transferred(s.bits), s.buf), s.(loc := loc))
  {
    WithinIs(s.bits);
    hide Transferred;
  }

  /** A page that is programmed is another page than before to the reads that name it. */
  lemma ProgrammedLooked(q: seq<Sub>, cells: map<Loc, PageBuf>, ages: map<Loc, nat>, loc: Loc, buf: PageBuf)
    requires Looked(q, cells, ages) && loc in cells && loc in ages
    ensures Looked(q, cells[loc := buf], ages[loc := ages[loc] + 1])
  {
    hide Holds;
    forall i | 0 <= i < |q| ensures Named(q[i], cells[loc := buf], ages[loc := ages[loc] + 1]) {
      assert Named(q[i], cells, ages);
    }
  }

  lemma ProgrammedSubs(cfg: Config, m: Chip, r: nat)
    requires Poised(cfg, m, r)
    ensures var m' := Programmed(cfg, m, r);
            && Writes(cfg, AllWrites(m'), m'.store) && Reads(AllReads(m'), AllWrites(m'), m'.store)
            && Looked(AllReads(m'), m'.cells, m'.ages)
  {
    hide PlaneExact, AllocPage, MapForward, MapBackward, EraseQueue, Marked, RoomAt, Stored, Exact, Moving, Writes,
         Reads, Looked, HostWriteOk, Transferred, Overlay, Shape;
    ProgrammedIsSend(cfg, m, r);
    var loc := ProgrammedAt(cfg, m, r);
    ProgrammedLooked(AllReads(m), m.cells, m.ages, loc, Programmed(cfg, m, r).cells[loc]);
  }

  lemma ProgrammedCollecting(cfg: Config, m: Chip, r: nat)
    requires Poised(cfg, m, r)
    ensures Collecting(cfg, Programmed(cfg, m, r))
  {
    hide PlaneExact, AllocPage, MapForward, MapBackward, Marked, RoomAt, Stored, Writes, Reads, HostWriteOk, Exact,
         EraseQueue, EntriesShape, TableShape, ListShape, SubsShape, PlaneShape, Within;
    PoisedCommand(cfg, m, r);
    ProgrammedIsSend(cfg, m, r);
    var at := SubOf(m, r).loc.at;
    AllocPlane(cfg, m.planes[at]);
  }

  lemma AtPlane(cfg: Config, planes: map<PlaneAddr, Plane>, at: PlaneAddr)
    requires Exact(cfg, planes, None) && at in planes
    ensures PlaneExact(cfg.blocks, cfg.pages, planes[at], NoCell)
  {
    hide PlaneExact;
    assert PlaneExact(cfg.blocks, cfg.pages, planes[at], CellAt(None, at));
  }

  lemma AllocRoom(cfg: Config, pl: Plane, host: bool, pending: bool)
    requires PlaneShape(cfg, pl) && PlaneExact(cfg.blocks, cfg.pages, pl, NoCell) && pl.cnt.free >= 2
    requires RoomAt(cfg, pl, false, false, pending)
    requires pl.eraseUsed == !host && (pl.eraseUsed ==> pl.blocks[pl.eraseBlock].startWrite == cfg.pages)
    ensures RoomAt(cfg, AllocPage(cfg.pages, pl), true, !host, pending)
  {
    hide PlaneExact, AllocPage;
    AllocPlane(cfg, pl);
  }

  lemma ProgrammedRoom(cfg: Config, m: Chip, r: nat)
    requires Poised(cfg, m, r)
    ensures Room(cfg, Programmed(cfg, m, r))
  {
    hide PlaneExact, AllocPage, MapForward, MapBackward, Marked, Stored, Writes, Reads, HostWriteOk, Exact, RoomAt,
         PlaneShape, EntriesShape, TableShape, ListShape, SubsShape;
    PoisedCommand(cfg, m, r);
    ProgrammedIsSend(cfg, m, r);
    var at := SubOf(m, r).loc.at;
    AllocRoom(cfg, m.planes[at], m.cmds[r].related.None?, m.pending == Some(at));
  }

  lemma SendWriteKeeps(cfg: Config, m: Chip, r: nat)
    requires Poised(cfg, m, r)
    ensures SendWrite(cfg, m, r, true) == Programmed(cfg, m, r) && Inv(cfg, Programmed(cfg, m, r))
  {
    ProgrammedIsSend(cfg, m, r);
    ProgrammedShape(cfg, m, r);
    ProgrammedPlanes(cfg, m, r);
    ProgrammedCommands(cfg, m, r);
    ProgrammedSubs(cfg, m, r);
    ProgrammedCollecting(cfg, m, r);
    ProgrammedRoom(cfg, m, r);
    hide *;
  }
}
