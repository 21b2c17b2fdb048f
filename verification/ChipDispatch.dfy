/** Dispatch keeps the invariant: which command goes out, and that it may. */
module ChipDispatch {
  import opened Flash
  import opened Layout
  import opened Sectors
  import opened Chip
  import opened ChipInv
  import opened ChipWrite
  import opened ChipRead

  // ---------------------------------------------------------------- erase

  /** A chip about to send the erase command at the head of its queue. */
  ghost predicate PoisedErase(cfg: Config, m: Chip) {
    && Shape(cfg, m)
    && m.phase == Idle && m.commands == [] && m.incompletedR == [] && m.erases != []
    && m.hw.phase == Idle && !m.hw.timer && !m.hw.signal
    && Exact(cfg, m.planes, None)
    && MapForward(cfg, m.entries, m.planes) && MapBackward(cfg, m.entries, m.planes)
    && Stored(m.entries, m.cells, m.store)
    && Writes(cfg, AllWrites(m), m.store) && Reads(AllReads(m), AllWrites(m), m.store)
    && Looked(AllReads(m), m.cells, m.ages)
    && EraseQueue(cfg, m.planes, m.cmds, m.erases) && Marked(m.planes, m.cmds, m.erases)
    && (forall a :: a in m.planes ==> RoomAt(cfg, m.planes[a], false, false, m.pending == Some(a)))
    && (!cfg.split ==> m.pending.None?)
    && m.cmds[m.erases[0]].related.None? && m.cmds[m.erases[0]].load.EraseAt? && m.cmds[m.erases[0]].load.at in m.planes
    && Dead(cfg, m.planes[m.cmds[m.erases[0]].load.at])
  }

  lemma ScrambleStored(cfg: Config, m: Chip, at: PlaneAddr, junk: seq<PageBuf>)
    requires PlanesShape(cfg, m.planes) && MapForward(cfg, m.entries, m.planes) && Stored(m.entries, m.cells, m.store)
    requires at in m.planes && Dead(cfg, m.planes[at])
    ensures Stored(m.entries, Scrambled(m.cells, at, m.planes[at].eraseBlock, junk), m.store)
  {
    hide Within, Holds, Firm, Looked, Named;
    var cells' := Scrambled(m.cells, at, m.planes[at].eraseBlock, junk);
    forall l | l in m.entries && m.entries[l].subPage != {}
        ensures cells'[m.entries[l].loc] == m.cells[m.entries[l].loc] {
      assert PageOf(m.planes, m.entries[l].loc).state != {};
    }
  }

  lemma SendEraseKeeps(cfg: Config, m: Chip, junk: seq<PageBuf>)
    requires PoisedErase(cfg, m)
    ensures Inv(cfg, SendErase(cfg, m, m.erases[0], junk, true))
  {
    hide PlaneExact, PlaneShape, MapForward, MapBackward, Marked, Stored, Writes, Reads, RoomAt, EntriesShape,
         TableShape, SubsShape, EraseOk, Within, ReadOk, Dead, Looked, Scrambled, Aged, ListShape, Exact, PlanesShape;
    var at := m.cmds[m.erases[0]].load.at;
    ScrambleStored(cfg, m, at, junk);
    ScrambleLooked(AllReads(m), m.cells, m.ages, at, m.planes[at].eraseBlock, junk);
    ScrambleKeys(cfg, m.cells, m.ages, at, m.planes[at].eraseBlock, junk);
  }

  lemma ScrambleKeys(cfg: Config, cells: map<Loc, PageBuf>, ages: map<Loc, nat>, at: PlaneAddr, b: nat,
        junk: seq<PageBuf>)
    requires forall loc :: InRange(cfg, loc) ==> loc in cells && loc in ages
    ensures forall loc :: InRange(cfg, loc) ==> loc in Scrambled(cells, at, b, junk) && loc in Aged(ages, at, b, junk)
  {
    hide InRange;
  }

  /** A page that an erase overwrites is another page than before to the reads that name it. */
  lemma ScrambleLooked(q: seq<Sub>, cells: map<Loc, PageBuf>, ages: map<Loc, nat>, at: PlaneAddr, b: nat,
        junk: seq<PageBuf>)
    requires Looked(q, cells, ages)
    ensures Looked(q, Scrambled(cells, at, b, junk), Aged(ages, at, b, junk))
  {
    hide Holds;
    forall i | 0 <= i < |q| ensures Named(q[i], Scrambled(cells, at, b, junk), Aged(ages, at, b, junk)) {
      assert Named(q[i], cells, ages);
    }
  }

  // ---------------------------------------------------------------- the collector's visit

  /** A chip on which the collector may look at its head erase command. */
  ghost predicate Visiting(cfg: Config, m: Chip) {
    && Inv(cfg, m) && m.phase == Idle && m.incompletedR == [] && m.erases != []
    && (cfg.split || m.pending.None?)
  }

  lemma VisitFacts(cfg: Config, m: Chip)
    requires Visiting(cfg, m)
    ensures var e := m.erases[0];
            && e in m.cmds && m.cmds[e].op == Erase && m.cmds[e].load.EraseAt? && m.cmds[e].load.at in m.planes
            && m.cmds[e].stage <= cfg.pages && e < m.nextRef
            && (m.cmds[e].related.Some? ==> m.cmds[e].related.value in m.cmds && m.cmds[e].related.value != e)
            && PlaneShape(cfg, m.planes[m.cmds[e].load.at])
            && PlaneExact(cfg.blocks, cfg.pages, m.planes[m.cmds[e].load.at], NoCell)
            && EraseOk(cfg, m.planes, m.cmds[e])
    ensures m.erases != [] && m.commands == [] && Burning(m).None? && Exact(cfg, m.planes, None)
    ensures m.hw.phase == Idle && !m.hw.timer && !m.hw.signal
    ensures forall a :: a in m.planes ==> RoomAt(cfg, m.planes[a], false, false, m.pending == Some(a))
  {
    hide PlaneExact, PlaneShape, MapForward, MapBackward, Marked, Stored, Writes, Reads, RoomAt, EntriesShape,
         SubsShape, Within, ReadOk, Dead, Moving, Hosts, SubShape;
    assert EraseOk(cfg, m.planes, m.cmds[m.erases[0]]);
    AtPlane(cfg, m.planes, m.cmds[m.erases[0]].load.at);
  }

  lemma VisitShape(cfg: Config, m: Chip)
    requires Visiting(cfg, m)
    ensures Shape(cfg, m) && m.incompletedR == [] && m.commands == []
  {
    hide Shape;
  }

  /** A live page of a block counts as valid. */
  lemma LiveCounts(cfg: Config, pl: Plane, f: Cell, b: nat, p: nat)
    requires PlaneShape(cfg, pl) && PlaneExact(cfg.blocks, cfg.pages, pl, f)
    requires b < cfg.blocks && p < cfg.pages && pl.blocks[b].pages[p].state != {}
    ensures pl.blocks[b].cnt.valid >= 1
  {
    assert BlockExact(cfg.pages, pl.blocks[b], BusyIn(f, b));
    assert p in Live(pl.blocks[b].pages);
  }

  /** While a victim still has a live page, its plane has a page to move it to. */
  lemma RelocationRoom(cfg: Config, pl: Plane, pending: bool)
    requires Roomy(cfg) && PlaneShape(cfg, pl)
    requires pl.eraseUsed && pl.blocks[pl.eraseBlock].cnt.valid >= 1
    requires RoomAt(cfg, pl, false, false, pending)
    ensures Ample(cfg, pl)
  {
  }

  lemma VisitRewrite(cfg: Config, m: Chip, id: nat)
    requires Roomy(cfg) && Visiting(cfg, m)
    requires m.cmds[m.erases[0]].related.Some? && m.cmds[m.erases[0]].related.value in m.cmds
    requires var g := m.cmds[m.cmds[m.erases[0]].related.value]; g.completed && g.op == Read
    ensures var g := m.cmds[m.erases[0]].related.value; Poised(cfg, Rewrite(m, g, id), g)
  {
    VisitFacts(cfg, m);
    RewritePlane(cfg, m);
    RewritePoised(cfg, m, id);
  }

  /** The page under relocation is live, so there is room to move it. */
  lemma RewritePlane(cfg: Config, m: Chip)
    requires Roomy(cfg) && Visiting(cfg, m)
    requires m.cmds[m.erases[0]].related.Some? && m.cmds[m.erases[0]].related.value in m.cmds
    requires var g := m.cmds[m.cmds[m.erases[0]].related.value]; g.completed && g.op == Read
    ensures var g := m.cmds[m.erases[0]].related.value;
            m.cmds[g].load.OfSub? && SubOf(m, g).loc.at in m.planes && Ample(cfg, m.planes[SubOf(m, g).loc.at])
  {
    hide *;
    VisitFacts(cfg, m);
    var at := m.cmds[m.erases[0]].load.at;
    MovingPage(cfg, m);
    VisitRoom(cfg, m, at);
    LiveCounts(cfg, m.planes[at], NoCell, m.planes[at].eraseBlock, m.cmds[m.erases[0]].stage);
    RelocationRoom(cfg, m.planes[at], m.pending == Some(at));
  }

  lemma VisitRoom(cfg: Config, m: Chip, at: PlaneAddr)
    requires Visiting(cfg, m) && at in m.planes && m.erases[0] in m.cmds && m.cmds[m.erases[0]].load == EraseAt(at)
    ensures RoomAt(cfg, m.planes[at], false, false, m.pending == Some(at))
    ensures m.planes[at].eraseUsed && m.planes[at].eraseBlock < cfg.blocks && PlaneShape(cfg, m.planes[at])
    ensures |m.planes[at].blocks| == cfg.blocks && |m.planes[at].blocks[m.planes[at].eraseBlock].pages| == cfg.pages
  {
    hide RoomAt, PlaneExact;
    VisitFacts(cfg, m);
    hide Inv;
  }

  lemma MovingPage(cfg: Config, m: Chip)
    requires Visiting(cfg, m)
    requires m.erases[0] in m.cmds && m.cmds[m.erases[0]].related.Some? && m.cmds[m.erases[0]].related.value in m.cmds
    requires var g := m.cmds[m.cmds[m.erases[0]].related.value]; g.completed && g.op == Read
    ensures m.cmds[m.erases[0]].load.EraseAt? && m.cmds[m.erases[0]].load.at in m.planes
    ensures m.cmds[m.cmds[m.erases[0]].related.value].load.OfSub?
    ensures SubOf(m, m.cmds[m.erases[0]].related.value).loc.at == m.cmds[m.erases[0]].load.at
    ensures var pl := m.planes[m.cmds[m.erases[0]].load.at]; var k := m.cmds[m.erases[0]].stage;
            && k < cfg.pages && pl.eraseBlock < |pl.blocks| && k < |pl.blocks[pl.eraseBlock].pages|
            && pl.blocks[pl.eraseBlock].pages[k].state != {}
  {
    hide PlaneExact, MapBackward, Marked, Stored, Writes, Reads, RoomAt, EntriesShape, SubsShape, TableShape,
         ListShape, Within, ReadOk, Dead, Hosts, EraseOk;
    var s := SubOf(m, m.cmds[m.erases[0]].related.value);
    WithinIs(s.bits);
    assert m.entries[s.lpn].subPage != {};
  }

  lemma RewriteShape(cfg: Config, m: Chip, g: nat, id: nat)
    requires Shape(cfg, m) && g in m.cmds && m.cmds[g].op == Read && m.incompletedR == []
    ensures Shape(cfg, Rewrite(m, g, id))
    ensures forall i :: 0 <= i < |m.erases| ==> m.erases[i] in m.cmds && m.erases[i] != g
  {
    hide PlanesShape, EntriesShape, SubsShape, InRange;
  }

  lemma RewritePoised(cfg: Config, m: Chip, id: nat)
    requires Visiting(cfg, m)
    requires m.cmds[m.erases[0]].related.Some? && m.cmds[m.erases[0]].related.value in m.cmds
    requires var g := m.cmds[m.erases[0]].related.value;
             && m.cmds[g].completed && m.cmds[g].op == Read
             && m.cmds[g].load.OfSub? && SubOf(m, g).loc.at in m.planes && Ample(cfg, m.planes[SubOf(m, g).loc.at])
    ensures var g := m.cmds[m.erases[0]].related.value; Poised(cfg, Rewrite(m, g, id), g)
  {
    hide PlaneExact, MapForward, MapBackward, Stored, Writes, Reads, RoomAt, Shape, Exact, Within, ReadOk, Dead,
         Hosts, EraseQueue, Marked, Ample, Holds;
    VisitFacts(cfg, m);
    var m' := Rewrite(m, m.cmds[m.erases[0]].related.value, id);
    RewriteShape(cfg, m, m.cmds[m.erases[0]].related.value, id);
    SameErases(cfg, m.planes, m.cmds, m'.cmds, m.erases);
  }

  /** No page of the head's victim from the cursor on is live. */
  ghost predicate Spent(m: Chip) {
    && m.erases != [] && m.erases[0] in m.cmds && m.cmds[m.erases[0]].load.EraseAt?
       && m.cmds[m.erases[0]].load.at in m.planes
    && var c := m.cmds[m.erases[0]]; var pl := m.planes[c.load.at];
       && pl.eraseBlock < |pl.blocks|
       && forall p :: c.stage <= p < |pl.blocks[pl.eraseBlock].pages| ==> pl.blocks[pl.eraseBlock].pages[p].state == {}
  }

  /** Then the erase can be released. */
  lemma VisitRelease(cfg: Config, m: Chip)
    requires Visiting(cfg, m)
    requires Spent(m)
    ensures PoisedErase(cfg, Release(m, m.erases[0]))
  {
    VisitFacts(cfg, m);
    ReleasedDead(cfg, m);
    ReleasedPoised(cfg, m);
  }

  /** A full block with nothing live in it is dead. */
  lemma DeadPlane(cfg: Config, planes: map<PlaneAddr, Plane>, c: Command)
    requires EraseOk(cfg, planes, c) && PlaneExact(cfg.blocks, cfg.pages, planes[c.load.at], NoCell)
    requires var pl := planes[c.load.at]; pl.eraseBlock < |pl.blocks|
    requires var pl := planes[c.load.at];
             forall p :: c.stage <= p < |pl.blocks[pl.eraseBlock].pages| ==>
                 pl.blocks[pl.eraseBlock].pages[p].state == {}
    ensures Dead(cfg, planes[c.load.at])
  {
    var pl := planes[c.load.at];
    assert BlockExact(cfg.pages, pl.blocks[pl.eraseBlock], BusyIn(NoCell, pl.eraseBlock));
    forall p | 0 <= p < |pl.blocks[pl.eraseBlock].pages| ensures pl.blocks[pl.eraseBlock].pages[p].state == {} {
      if p < c.stage { assert pl.blocks[pl.eraseBlock].pages[p].state == {}; }
    }
    DeadBlock(cfg.pages, pl.blocks[pl.eraseBlock]);
  }

  lemma ReleasedDead(cfg: Config, m: Chip)
    requires Visiting(cfg, m)
    requires Spent(m)
    ensures Dead(cfg, m.planes[m.cmds[m.erases[0]].load.at])
  {
    hide Visiting, Dead, EraseOk, PlaneExact, PlaneShape, Exact, RoomAt;
    VisitFacts(cfg, m);
    DeadPlane(cfg, m.planes, m.cmds[m.erases[0]]);
  }

  /** The head of the erase queue may be replaced by another command for the same plane. */
  lemma HeadUpdate(cfg: Config, planes: map<PlaneAddr, Plane>,
        cmds: map<nat, Command>, cmds': map<nat, Command>, erases: seq<nat>)
    requires EraseQueue(cfg, planes, cmds, erases) && Marked(planes, cmds, erases) && erases != []
    requires forall i :: 0 < i < |erases| ==> erases[i] in cmds' && cmds'[erases[i]] == cmds[erases[i]]
    requires erases[0] in cmds' && EraseOk(cfg, planes, cmds'[erases[0]])
             && cmds'[erases[0]].load == cmds[erases[0]].load
    ensures EraseQueue(cfg, planes, cmds', erases) && Marked(planes, cmds', erases)
  {
    hide EraseOk;
  }

  lemma ErasesDistinct(cfg: Config, planes: map<PlaneAddr, Plane>, cmds: map<nat, Command>, erases: seq<nat>)
    requires EraseQueue(cfg, planes, cmds, erases)
    ensures forall i :: 0 < i < |erases| ==> erases[i] != erases[0]
    ensures forall i :: 0 <= i < |erases| ==> erases[i] in cmds && cmds[erases[i]].op == Erase
  {
  }

  lemma TableRelease(cfg: Config, m: Chip)
    requires TableShape(cfg, m.cmds, m.nextRef) && ListShape(m.cmds, m.commands, m.incompletedR, m.erases)
    requires EraseQueue(cfg, m.planes, m.cmds, m.erases)
    requires m.commands == [] && m.incompletedR == [] && m.erases != []
    requires m.erases[0] in m.cmds && m.cmds[m.erases[0]].load.EraseAt? && m.cmds[m.erases[0]].load.at in m.planes
    requires m.planes[m.cmds[m.erases[0]].load.at].eraseBlock < |m.planes[m.cmds[m.erases[0]].load.at].blocks|
    ensures var m' := Release(m, m.erases[0]);
            TableShape(cfg, m'.cmds, m'.nextRef) && ListShape(m'.cmds, m'.commands, m'.incompletedR, m'.erases)
  {
    hide EraseOk, SubShape;
    ErasesDistinct(cfg, m.planes, m.cmds, m.erases);
  }

  lemma ReleasedPoised(cfg: Config, m: Chip)
    requires Visiting(cfg, m)
    requires Spent(m)
    requires Dead(cfg, m.planes[m.cmds[m.erases[0]].load.at])
    ensures PoisedErase(cfg, Release(m, m.erases[0]))
  {
    hide PlaneExact, MapForward, MapBackward, Stored, Writes, Reads, RoomAt, EntriesShape, SubsShape, PlanesShape,
         Within, ReadOk, Dead, Hosts, EraseOk, PlaneShape, Marked, EraseQueue, Exact, Collecting, TableShape,
         ListShape;
    VisitFacts(cfg, m);
    TableRelease(cfg, m);
    ReleasedQueue(cfg, m);
  }

  lemma ReleasedQueue(cfg: Config, m: Chip)
    requires Visiting(cfg, m)
    requires Spent(m)
    requires Dead(cfg, m.planes[m.cmds[m.erases[0]].load.at])
    ensures var m' := Release(m, m.erases[0]);
            EraseQueue(cfg, m'.planes, m'.cmds, m'.erases) && Marked(m'.planes, m'.cmds, m'.erases)
  {
    hide PlaneExact, MapForward, MapBackward, Stored, Writes, Reads, RoomAt, EntriesShape, SubsShape, PlanesShape,
         Exact, Within, ReadOk, Hosts, PlaneShape, Collecting, EraseQueue, Marked;
    VisitFacts(cfg, m);
    ErasesDistinct(cfg, m.planes, m.cmds, m.erases);
    HeadUpdate(cfg, m.planes, m.cmds, Release(m, m.erases[0]).cmds, m.erases);
  }

  // ---------------------------------------------------------------- the next page to move

  /** Page `k` of the head's victim is the first live one from the cursor on, and the last
      relocation is over. */
  ghost predicate NextUp(m: Chip, k: nat) {
    && m.erases != [] && m.erases[0] in m.cmds && m.cmds[m.erases[0]].load.EraseAt?
       && m.cmds[m.erases[0]].load.at in m.planes
    && var c := m.cmds[m.erases[0]]; var pl := m.planes[c.load.at];
       && pl.eraseBlock < |pl.blocks|
       && c.stage <= k < |pl.blocks[pl.eraseBlock].pages|
       && (forall p :: c.stage <= p < k ==> pl.blocks[pl.eraseBlock].pages[p].state == {})
       && pl.blocks[pl.eraseBlock].pages[k].state != {}
  }

  /** The logical page behind a live page of a victim. */
  lemma LivePage(cfg: Config, m: Chip, k: nat)
    requires Visiting(cfg, m) && NextUp(m, k)
    ensures var at := m.cmds[m.erases[0]].load.at; var pl := m.planes[at];
            var page := pl.blocks[pl.eraseBlock].pages[k];
            && at in cfg.addrs && pl.eraseBlock < cfg.blocks && k < cfg.pages
            && page.lpn in cfg.homes && cfg.homes[page.lpn] == at && page.lpn in m.entries && page.lpn in m.store
            && m.entries[page.lpn] == Entry(page.state, Loc(at, pl.eraseBlock, k)) && Within(page.state)
  {
    hide PlaneExact, Exact, Writes, Reads, RoomAt, SubsShape, TableShape, ListShape, Within, ReadOk, Hosts, EraseOk,
         Collecting, Marked, Holds;
    var at := m.cmds[m.erases[0]].load.at;
    var pl := m.planes[at];
    var loc := Loc(at, pl.eraseBlock, k);
    assert InRange(cfg, loc);
    assert PageOf(m.planes, loc) == pl.blocks[pl.eraseBlock].pages[k];
  }

  /** A read command `g` joins the table and becomes what erase command `e` waits for. */
  lemma RelocationTable(cfg: Config, cmds: map<nat, Command>, next: nat, next': nat, erases: seq<nat>, e: nat, g: nat,
        c: Command, k: nat)
    requires TableShape(cfg, cmds, next) && ListShape(cmds, [], [], erases) && erases != [] && e == erases[0]
    requires (forall i :: 0 < i < |erases| ==> erases[i] != e) && CommandShape(cfg, c) && c.op == Read
    requires g != e && (g == next || (g in cmds && cmds[g].op != Erase)) && next' >= next && g < next'
    ensures e in cmds
    ensures var cmds' := cmds[g := c][e := cmds[e].(stage := k, related := Some(g))];
            TableShape(cfg, cmds', next') && ListShape(cmds', [g], [], erases)
  {
    hide SubShape;
  }

  lemma RereadTable(cfg: Config, m: Chip, k: nat, id: nat, scratch: PageBuf)
    requires Visiting(cfg, m) && NextUp(m, k)
    ensures m.erases[0] in m.cmds && m.cmds[m.erases[0]].op == Erase
    ensures var m' := Reread(cfg, m, m.erases[0], k, id, scratch);
            TableShape(cfg, m'.cmds, m'.nextRef) && ListShape(m'.cmds, m'.commands, m'.incompletedR, m'.erases)
  {
    hide Inv, Visiting, PlaneExact, Exact, RoomAt, SubsShape, PlaneShape, EntriesShape, Within, EraseOk, EraseQueue,
         TableShape, ListShape, Dead;
    VisitFacts(cfg, m);
    VisitShape(cfg, m);
    VisitQueue(cfg, m);
    LivePage(cfg, m, k);
    ErasesDistinct(cfg, m.planes, m.cmds, m.erases);
    RelatedThere(cfg, m);
    var e := m.erases[0];
    var m' := Reread(cfg, m, e, k, id, scratch);
    var g := m'.commands[0];
    assert m'.commands == [g] && m'.incompletedR == [] && m'.erases == m.erases;
    assert m'.cmds == m.cmds[g := m'.cmds[g]][e := m.cmds[e].(stage := k, related := Some(g))];
    RelocationTable(cfg, m.cmds, m.nextRef, m'.nextRef, m.erases, e, g, m'.cmds[g], k);
  }

  lemma RelatedThere(cfg: Config, m: Chip)
    requires TableShape(cfg, m.cmds, m.nextRef) && ListShape(m.cmds, m.commands, m.incompletedR, m.erases)
    ensures m.nextRef !in m.cmds
    ensures forall i :: 0 <= i < |m.erases| && m.cmds[m.erases[i]].related.Some? ==>
              var g := m.cmds[m.erases[i]].related.value; g in m.cmds && m.cmds[g].op != Erase && g < m.nextRef
  {
    hide CommandShape;
  }

  lemma VisitQueue(cfg: Config, m: Chip)
    requires Visiting(cfg, m)
    ensures EraseQueue(cfg, m.planes, m.cmds, m.erases) && Marked(m.planes, m.cmds, m.erases)
  {
    hide EraseQueue, Marked;
  }

  lemma RereadQueue(cfg: Config, m: Chip, k: nat, id: nat, scratch: PageBuf)
    requires Visiting(cfg, m) && NextUp(m, k)
    ensures m.erases[0] in m.cmds && m.cmds[m.erases[0]].op == Erase
    ensures var m' := Reread(cfg, m, m.erases[0], k, id, scratch);
            EraseQueue(cfg, m'.planes, m'.cmds, m'.erases) && Marked(m'.planes, m'.cmds, m'.erases)
  {
    hide PlaneExact, Exact, Writes, Reads, RoomAt, SubsShape, PlanesShape, MapForward, MapBackward, Stored,
         EntriesShape, Within, ReadOk, Hosts, Collecting, Marked, Holds, EraseQueue, SubShape, PlaneShape;
    VisitFacts(cfg, m);
    LivePage(cfg, m, k);
    ErasesDistinct(cfg, m.planes, m.cmds, m.erases);
    HeadUpdate(cfg, m.planes, m.cmds, Reread(cfg, m, m.erases[0], k, id, scratch).cmds, m.erases);
  }

  lemma VisitReread(cfg: Config, m: Chip, k: nat, id: nat, scratch: PageBuf)
    requires Visiting(cfg, m) && NextUp(m, k)
    requires var r := m.cmds[m.erases[0]].related; r.Some? && r.value in m.cmds ==> m.cmds[r.value].completed
    ensures m.erases[0] in m.cmds && m.cmds[m.erases[0]].op == Erase
    ensures var m' := Reread(cfg, m, m.erases[0], k, id, scratch);
            m'.commands != [] && PoisedRead(cfg, m', m'.commands[0])
  {
    hide PlaneExact, Exact, Writes, Reads, RoomAt, SubsShape, PlanesShape, MapForward, MapBackward, Stored,
         EntriesShape, ListShape, TableShape, Within, ReadOk, Hosts, Collecting, Marked, Holds, EraseQueue, SubShape,
         PlaneShape, EraseOk;
    VisitFacts(cfg, m);
    LivePage(cfg, m, k);
    ErasesDistinct(cfg, m.planes, m.cmds, m.erases);
    RereadTable(cfg, m, k, id, scratch);
    RereadQueue(cfg, m, k, id, scratch);
  }
}
