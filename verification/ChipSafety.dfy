/** Consequences of the invariant that a maintainer would ask for by name. */
module ChipSafety {
  import opened Flash
  import opened Layout
  import opened Sectors
  import opened Chip
  import opened ChipInv
  import opened ChipWrite
  import opened ChipRead
  import opened ChipDispatch
  import opened ChipTake
  import opened ChipCommit
  import opened ChipHost
  import opened ChipRuns
  import opened ChipErase

  // ---------------------------------------------------------------- erasing

  /** From the moment an erase is sent until it completes, its block is full of stale pages and
      no logical page is mapped into it. */
  lemma NoLiveDataErased(cfg: Config, m: Chip)
    requires Inv(cfg, m) && m.phase == Erasing
    ensures m.erases != [] && m.erases[0] in m.cmds && m.cmds[m.erases[0]].load.EraseAt?
    ensures var at := m.cmds[m.erases[0]].load.at;
            && at in m.planes && m.planes[at].eraseBlock < |m.planes[at].blocks|
            && var v := m.planes[at].blocks[m.planes[at].eraseBlock];
               && v.cnt == Counts(0, 0, cfg.pages) && |v.pages| == cfg.pages
               && (forall p :: 0 <= p < cfg.pages ==> v.pages[p].state == {})
               && forall l :: l in m.entries && m.entries[l].subPage != {} ==>
                    !(m.entries[l].loc.at == at && m.entries[l].loc.block == m.planes[at].eraseBlock)
  {
    hide PlaneExact, MapBackward, Stored, Writes, Reads, Marked, Room, EntriesShape, SubsShape, Hosts, Burnt, InStep,
         Moving, Gone;
    assert EraseOk(cfg, m.planes, m.cmds[m.erases[0]]);
    var at := m.cmds[m.erases[0]].load.at;
    forall l | l in m.entries && m.entries[l].subPage != {}
      ensures !(m.entries[l].loc.at == at && m.entries[l].loc.block == m.planes[at].eraseBlock)
    {
      assert PageOf(m.planes, m.entries[l].loc).state != {};
    }
  }

  /** The erase's blind subtractions never underflow. */
  lemma EraseCountersNatural(cfg: Config, m: Chip)
    requires Inv(cfg, m) && m.phase == Erasing && m.hw.signal && m.pending.None?
    ensures m.erases != [] && m.erases[0] in m.cmds && m.cmds[m.erases[0]].load.EraseAt?
    ensures m.cmds[m.erases[0]].load.at in m.planes
    ensures m.planes[m.cmds[m.erases[0]].load.at].cnt.invalid >= cfg.pages
  {
    hide Inv, PlaneExact, Exact;
    EraseFacts(cfg, m);
    var pl := m.planes[m.cmds[m.erases[0]].load.at];
    PlaneSizes(cfg, pl);
    ErasedPlane(cfg, pl, NoCell);
    CountersNatural(cfg, Erased(cfg, pl), NoCell);
  }

  lemma CountersNatural(cfg: Config, pl: Plane, f: Cell)
    requires PlaneExact(cfg.blocks, cfg.pages, pl, f)
    ensures pl.cnt.free + pl.cnt.valid + pl.cnt.invalid == Cap(cfg.blocks, cfg.pages)
    ensures pl.cnt.free >= 0 && pl.cnt.valid >= 0 && pl.cnt.invalid >= 0
  {
    PlaneCountersNatural(cfg.pages, pl.blocks, f);
  }

  /** A plane is marked exactly when one erase command for it is queued or out, and never two. */
  lemma MarkedExactly(cfg: Config, m: Chip, a: PlaneAddr)
    requires Inv(cfg, m) && a in m.planes
    ensures forall i :: 0 <= i < |m.erases| ==> m.erases[i] in m.cmds
    ensures m.planes[a].eraseUsed <==> exists i :: 0 <= i < |m.erases| && m.cmds[m.erases[i]].load == EraseAt(a)
    ensures forall i, j :: 0 <= i < j < |m.erases| ==> m.cmds[m.erases[i]].load != m.cmds[m.erases[j]].load
  {
    hide PlaneExact, Exact, MapForward, MapBackward, Stored, Writes, Reads, Room, EntriesShape, SubsShape, Hosts,
         Burnt, InStep, Moving, Gone, Collecting, PlaneShape;
    assert forall i :: 0 <= i < |m.erases| ==> EraseOk(cfg, m.planes, m.cmds[m.erases[i]]);
  }

  /** While its erase command lives, the victim of a plane stays the same full block. */
  lemma VictimStays(cfg: Config, m: Chip, st: Step, a: PlaneAddr)
    requires Roomy(cfg) && Inv(cfg, m) && Guard(cfg, m, st) && a in m.planes && m.planes[a].eraseUsed
    ensures Defined(cfg, m, st) && a in Next(cfg, m, st).planes
    ensures Next(cfg, m, st).planes[a].eraseBlock == m.planes[a].eraseBlock
    ensures !Next(cfg, m, st).planes[a].eraseUsed ==> st.Completes? && m.phase == Erasing
  {
    hide Inv, Roomy, Shape, Complete, GetCommand, Send, MayWrite, MayRead, GcCheck;
    StepKeeps(cfg, m, st);
    if st.Completes? {
      CompleteVictims(cfg, m, a);
    } else if st.Dispatches? {
      SendVictims(cfg, m, st.id, st.scratch, st.junk, a);
    } else if st.Checks? {
      CheckVictims(cfg, m, st.id, a);
    }
  }

  lemma CheckVictims(cfg: Config, m: Chip, id: nat, a: PlaneAddr)
    requires Shape(cfg, m) && m.pending.Some? && a in m.planes && m.planes[a].eraseUsed
    ensures GcCheck(cfg, m, id).planes.Keys == m.planes.Keys && GcCheck(cfg, m, id).planes[a] == m.planes[a]
  {
  }

  lemma SendVictims(cfg: Config, m: Chip, id: nat, scratch: PageBuf, junk: seq<PageBuf>, a: PlaneAddr)
    requires Defined(cfg, m, Dispatches(id, scratch, junk)) && a in m.planes
    ensures var m' := Next(cfg, m, Dispatches(id, scratch, junk));
            && a in m'.planes && m'.planes[a].eraseBlock == m.planes[a].eraseBlock
               && m'.planes[a].eraseUsed == m.planes[a].eraseUsed
  {
    hide Shape, GetCommand, FreeBlockFrom, Transferred;
  }

  lemma CompleteVictims(cfg: Config, m: Chip, a: PlaneAddr)
    requires Inv(cfg, m) && m.hw.signal && m.pending.None? && a in m.planes
    ensures Defined(cfg, m, Completes)
    ensures var m' := Next(cfg, m, Completes);
            && a in m'.planes && m'.planes[a].eraseBlock == m.planes[a].eraseBlock
            && (m.phase != Erasing ==> m'.planes[a].eraseUsed == m.planes[a].eraseUsed)
  {
    hide Inv, Shape, EndProgram, EndReadAddr, EndReadData, EndErase, EndIndex;
    CompleteKeeps(cfg, m);
    if m.phase == Programming {
      LandingVictims(cfg, m, a);
    } else if m.phase == Erasing {
      EraseVictims(cfg, m, a);
    }
  }

  lemma LandingVictims(cfg: Config, m: Chip, a: PlaneAddr)
    requires ProgramDone(cfg, m) && a in m.planes
    ensures Defined(cfg, m, Completes)
    ensures var m' := Next(cfg, m, Completes);
            && a in m'.planes && m'.planes[a].eraseBlock == m.planes[a].eraseBlock
            && m'.planes[a].eraseUsed == m.planes[a].eraseUsed
  {
    hide Inv, Shape, Complete, EndIndex, EndQueue, StoreAfter;
    LandingDefined(cfg, m);
  }

  lemma EraseVictims(cfg: Config, m: Chip, a: PlaneAddr)
    requires Defined(cfg, m, Completes) && m.phase == Erasing && a in m.planes
    ensures var m' := Next(cfg, m, Completes); a in m'.planes && m'.planes[a].eraseBlock == m.planes[a].eraseBlock
  {
    EraseAtIs(cfg, m);
    hide Shape, Blank, EndIndex;
  }

  lemma EraseAtIs(cfg: Config, m: Chip)
    requires Shape(cfg, m)
    ensures forall i :: 0 <= i < |m.erases| ==> m.erases[i] in m.cmds && m.cmds[m.erases[i]].load.EraseAt?
    ensures forall i :: 0 <= i < |m.erases| ==> m.cmds[m.erases[i]].load.at in m.planes
  {
    hide PlaneShape, EntriesShape, SubsShape;
    forall i | 0 <= i < |m.erases|
      ensures m.cmds[m.erases[i]].load.EraseAt? && m.cmds[m.erases[i]].load.at in m.planes
    {
      assert CommandShape(cfg, m.cmds[m.erases[i]]);
    }
  }

  // ---------------------------------------------------------------- driver and NAND chip

  /** The location a command is sent to. */
  function Target(m: Chip, r: nat): Loc
    requires r in m.cmds && (m.cmds[r].load.EraseAt? ==> m.cmds[r].load.at in m.planes)
  {
    if m.cmds[r].load.EraseAt? then Loc(m.cmds[r].load.at, m.planes[m.cmds[r].load.at].eraseBlock, 0)
        else m.cmds[r].load.sub.loc
  }

  function KindOf(c: Command): Phase {
    match c.op
    case Write => Programming
    case Erase => Erasing
    case Read => if c.stage == 0 then ReadAddr else ReadData
  }

  /** Whatever is dispatched, the NAND chip is in a state that accepts it; the second half of a
      read names the address the chip has latched. */
  lemma SendAccepted(cfg: Config, m: Chip, id: nat, scratch: PageBuf)
    requires Roomy(cfg) && Inv(cfg, m) && MayDispatch(cfg, m)
    ensures Defined(cfg, m, Dispatches(id, scratch, []))
    ensures var (m1, r) := GetCommand(cfg, m, id, scratch);
            r.Some? ==>
              && r.value in m1.cmds && (m1.cmds[r.value].load.EraseAt? ==> m1.cmds[r.value].load.at in m1.planes)
              && Accepts(m.hw, KindOf(m1.cmds[r.value]), Target(m1, r.value))
  {
    hide Inv, Roomy, Shape, GetCommand, AnyPoised;
    DispatchKeeps(cfg, m, id, scratch, []);
    DispatchDefined(cfg, m, id, scratch);
    var (m1, r) := GetCommand(cfg, m, id, scratch);
    if r.Some? {
      if m.incompletedR != [] {
        HalfRead(cfg, m, r.value);
        DataArrives(cfg, m, r.value);
      } else {
        PoisedAccepts(cfg, m1, r.value);
      }
    }
  }

  lemma HalfRead(cfg: Config, m: Chip, r: nat)
    requires Inv(cfg, m) && m.phase == Idle && m.incompletedR == [r]
    ensures r in m.cmds && m.cmds[r].op == Read && m.cmds[r].stage == 1 && m.cmds[r].load.OfSub?
  {
    hide PlaneExact, Exact, MapForward, MapBackward, Stored, Writes, Reads, Marked, Room, EraseQueue, PlanesShape,
         EntriesShape, SubsShape, Hosts, Burnt, Collecting, InStep;
  }

  lemma PoisedAccepts(cfg: Config, m: Chip, r: nat)
    requires AnyPoised(cfg, m, r)
    ensures r in m.cmds && (m.cmds[r].load.EraseAt? ==> m.cmds[r].load.at in m.planes)
    ensures Accepts(m.hw, KindOf(m.cmds[r]), Target(m, r))
  {
    hide PlaneExact, Exact, MapForward, MapBackward, Stored, Writes, Reads, Marked, RoomAt, EraseOk, Moving,
         HostReadOk, HostWriteOk, EntriesShape, SubsShape, Dead, Ample, Within;
  }

  /** One command at a time: while the chip is busy its queues hold at most the command that is
      out, the reported number is that command's, and the completion finds it at the front. */
  lemma CompletionFindsItsCommand(cfg: Config, m: Chip)
    requires Inv(cfg, m) && m.phase != Idle
    ensures |m.commands| + |m.incompletedR| <= 1 && (m.phase == Erasing ==> m.commands == [] && m.incompletedR == [])
    ensures EndQueue(m) != [] && EndQueue(m)[0] in m.cmds && m.cmds[EndQueue(m)[0]].id == m.hw.id
    ensures forall i :: 0 <= i < |EndQueue(m)| ==> EndQueue(m)[i] in m.cmds
    ensures EndIndex(m, EndQueue(m), m.hw.id) == 0
    ensures m.cmds[EndQueue(m)[0]].op ==
            if m.phase == Programming then Write else if m.phase == Erasing then Erase else Read
  {
    hide PlaneExact, Exact, MapForward, MapBackward, Stored, Writes, Reads, Marked, Room, EraseQueue, PlanesShape,
         EntriesShape, SubsShape, Hosts, Burnt, Collecting;
  }

  // ---------------------------------------------------------------- room

  /** The active block has a free page, and if it is the last one the search for the next active
      block ends on a fully free one; with a threshold of three blocks more than a block's worth
      of pages is free. */
  ghost predicate HasRoom(cfg: Config, pl: Plane) {
    && pl.active < |pl.blocks| == cfg.blocks
    && (cfg.threshold >= 3 * cfg.pages + Slack(cfg) ==> pl.cnt.free > cfg.pages)
    && pl.blocks[pl.active].cnt.free >= 1 && pl.blocks[pl.active].startWrite < cfg.pages
    && AllocPage(cfg.pages, pl).active < cfg.blocks
    && (pl.blocks[pl.active].cnt.free == 1 ==>
          AllocPage(cfg.pages, pl).blocks[AllocPage(cfg.pages, pl).active].cnt.free == cfg.pages)
  }

  /** Before every program there is room: the search for a fully free block ends on one, and
      with a threshold of three blocks more than a block's worth of pages is free. */
  lemma RoomBeforeProgram(cfg: Config, m: Chip, id: nat, scratch: PageBuf)
    requires Roomy(cfg) && Inv(cfg, m) && MayDispatch(cfg, m)
    ensures Defined(cfg, m, Dispatches(id, scratch, []))
    ensures var (m1, r) := GetCommand(cfg, m, id, scratch);
            r.Some? && r.value in m1.cmds && m1.cmds[r.value].op == Write ==>
              && m1.cmds[r.value].load.OfSub? && m1.cmds[r.value].load.sub.loc.at in m.planes
              && HasRoom(cfg, m.planes[m1.cmds[r.value].load.sub.loc.at])
  {
    hide Inv, Roomy, Shape, GetCommand, AnyPoised, AllocPage;
    DispatchKeeps(cfg, m, id, scratch, []);
    DispatchDefined(cfg, m, id, scratch);
    var (m1, r) := GetCommand(cfg, m, id, scratch);
    if r.Some? && m1.cmds[r.value].op == Write {
      if m.incompletedR != [] {
        HalfRead(cfg, m, r.value);
      } else {
        PoisedWrite(cfg, m1, r.value);
        PoisedCommand(cfg, m1, r.value);
        AmpleSearch(cfg, m1.planes[SubOf(m1, r.value).loc.at]);
      }
    }
  }

  lemma PoisedWrite(cfg: Config, m: Chip, r: nat)
    requires AnyPoised(cfg, m, r) && r in m.cmds && m.cmds[r].op == Write
    ensures Poised(cfg, m, r) && m.cmds[r].load.OfSub? && SubOf(m, r).loc.at in m.planes
    ensures Ample(cfg, m.planes[SubOf(m, r).loc.at])
  {
    hide PlaneExact, Exact, MapForward, MapBackward, Stored, Writes, Reads, Marked, RoomAt, EraseQueue, Moving,
         HostReadOk, HostWriteOk, EntriesShape, SubsShape, Dead, Ample, Within;
  }

  lemma AmpleSearch(cfg: Config, pl: Plane)
    requires PlaneExact(cfg.blocks, cfg.pages, pl, NoCell) && Ample(cfg, pl)
    ensures pl.active < |pl.blocks| == cfg.blocks && pl.blocks[pl.active].cnt.free >= 1
    ensures pl.blocks[pl.active].startWrite < cfg.pages
    ensures cfg.threshold >= 3 * cfg.pages + Slack(cfg) ==> pl.cnt.free > cfg.pages
    ensures AllocPage(cfg.pages, pl).active < cfg.blocks
    ensures pl.blocks[pl.active].cnt.free == 1 ==>
              AllocPage(cfg.pages, pl).blocks[AllocPage(cfg.pages, pl).active].cnt.free == cfg.pages
  {
    SearchEnds(cfg.blocks, cfg.pages, pl);
    assert BlockExact(cfg.pages, pl.blocks[pl.active], BusyIn(NoCell, pl.active));
  }

  // ---------------------------------------------------------------- relocation

  /** A relocation under way is alone on its chip: until its program has completed, what is
      dispatched next is its own next step (or, at the end, the erase), and the map still
      names the page that was read. */
  lemma RelocationAlone(cfg: Config, m: Chip, id: nat, scratch: PageBuf)
    requires Roomy(cfg) && Inv(cfg, m) && MayDispatch(cfg, m) && m.erases != []
    requires m.erases[0] in m.cmds && m.cmds[m.erases[0]].related.Some? && m.cmds[m.erases[0]].related.value in m.cmds
    ensures Defined(cfg, m, Dispatches(id, scratch, []))
    ensures var (m1, r) := GetCommand(cfg, m, id, scratch);
            r.Some? && (r == m.cmds[m.erases[0]].related || r.value == m.erases[0])
    ensures var g := m.cmds[m.cmds[m.erases[0]].related.value];
            g.op == Read ==>
              && g.load.OfSub? && g.load.sub.lpn in m.entries
              && m.entries[g.load.sub.lpn] == Entry(g.load.sub.bits, g.load.sub.loc)
  {
    hide Inv, Roomy, Shape, GetCommand, Visiting;
    DispatchKeeps(cfg, m, id, scratch, []);
    RelocationMap(cfg, m);
    if m.incompletedR == [] {
      VisitingIs(cfg, m);
      VisitOwn(cfg, m, id, scratch);
    } else {
      HalfOwn(cfg, m, id, scratch);
    }
  }

  lemma VisitingIs(cfg: Config, m: Chip)
    requires Inv(cfg, m) && MayDispatch(cfg, m) && m.erases != [] && m.incompletedR == []
    ensures Visiting(cfg, m)
  {
    hide Inv;
  }

  /** The map still names the page a relocation reads. */
  lemma RelocationMap(cfg: Config, m: Chip)
    requires Inv(cfg, m) && m.erases != []
    requires m.erases[0] in m.cmds && m.cmds[m.erases[0]].related.Some? && m.cmds[m.erases[0]].related.value in m.cmds
    ensures var g := m.cmds[m.cmds[m.erases[0]].related.value];
            g.op == Read ==>
              && g.load.OfSub? && g.load.sub.lpn in m.entries
              && m.entries[g.load.sub.lpn] == Entry(g.load.sub.bits, g.load.sub.loc)
  {
    hide PlaneExact, Exact, MapForward, MapBackward, Stored, Writes, Reads, Marked, Room, EraseQueue, PlanesShape,
         EntriesShape, SubsShape, Hosts, Burnt, InStep, Queues, Shape;
  }

  lemma VisitOwn(cfg: Config, m: Chip, id: nat, scratch: PageBuf)
    requires Visiting(cfg, m)
    requires m.erases[0] in m.cmds && m.cmds[m.erases[0]].related.Some? && m.cmds[m.erases[0]].related.value in m.cmds
    ensures Shape(cfg, m) && m.cmds[m.erases[0]].stage <= cfg.pages
    ensures var (m1, r) := GetCommand(cfg, m, id, scratch);
            r.Some? && (r == m.cmds[m.erases[0]].related || r.value == m.erases[0])
  {
    hide Inv, Shape, Visiting, GetCommand, VictimBlock;
    VisitShape(cfg, m);
    var v := VisitCase(cfg, m, id, scratch);
    if v.Starts? { StartsOwn(cfg, m, v.k, id, scratch); }
  }

  lemma StartsOwn(cfg: Config, m: Chip, k: nat, id: nat, scratch: PageBuf)
    requires m.erases != [] && Reread.requires(cfg, m, m.erases[0], k, id, scratch) && m.commands == []
    requires m.cmds[m.erases[0]].related.Some?
    ensures Reread(cfg, m, m.erases[0], k, id, scratch).commands == [m.cmds[m.erases[0]].related.value]
  {
    hide Shape;
  }

  lemma HalfOwn(cfg: Config, m: Chip, id: nat, scratch: PageBuf)
    requires Inv(cfg, m) && m.phase == Idle && m.erases != [] && m.incompletedR != []
    requires m.erases[0] in m.cmds && m.cmds[m.erases[0]].related.Some? && m.cmds[m.erases[0]].related.value in m.cmds
    ensures Shape(cfg, m) && m.cmds[m.erases[0]].stage <= cfg.pages
    ensures GetCommand(cfg, m, id, scratch) == (m, m.cmds[m.erases[0]].related)
  {
    hide PlaneExact, Exact, MapForward, MapBackward, Stored, Writes, Reads, Marked, Room, EraseQueue, PlanesShape,
         EntriesShape, SubsShape, Hosts, Burnt, InStep, Moving, Dead, Gone;
    IdleFacts(cfg, m);
  }

  // ---------------------------------------------------------------- pages are written in order

  /** How the write position of one block may change in a step. */
  ghost predicate Appends(m: Chip, m': Chip, st: Step, a: PlaneAddr, b: nat)
    requires a in m.planes && a in m'.planes && b < |m.planes[a].blocks| && b < |m'.planes[a].blocks|
  {
    var s, s' := m.planes[a].blocks[b].startWrite, m'.planes[a].blocks[b].startWrite;
    || s' == s
    || (st.Dispatches? && s' == s + 1 && m'.phase == Programming && Burning(m') == Some(Loc(a, b, s)))
    || (st.Completes? && m.phase == Erasing && m.planes[a].eraseUsed && !m'.planes[a].eraseUsed
       && b == m.planes[a].eraseBlock && s' == 0)
  }

  lemma SendAppends(cfg: Config, m: Chip, r: nat, junk: seq<PageBuf>, id: nat, scratch: PageBuf, a: PlaneAddr, b: nat)
    requires Shape(cfg, m) && r in m.cmds && a in m.planes && b < cfg.blocks
    requires m.cmds[r].op == Write ==> m.commands == [r]
    ensures var m' := Send(cfg, m, r, junk, true);
            a in m'.planes && b < |m'.planes[a].blocks| && b < |m.planes[a].blocks|
                && Appends(m, m', Dispatches(id, scratch, junk), a, b)
  {
    hide ListShape, EntriesShape, SubsShape, FreeBlockFrom, Overlay, Transferred, Start, Accepts, Scrambled;
    assert CommandShape(cfg, m.cmds[r]);
  }

  lemma LandingAppends(cfg: Config, m: Chip, a: PlaneAddr, b: nat)
    requires ProgramDone(cfg, m) && a in m.planes && b < cfg.blocks
    ensures Defined(cfg, m, Completes)
    ensures var m' := Next(cfg, m, Completes);
            a in m'.planes && b < |m'.planes[a].blocks| && b < |m.planes[a].blocks|
            && m'.planes[a].blocks[b].startWrite == m.planes[a].blocks[b].startWrite
  {
    hide Inv, TableShape, ListShape, EntriesShape, SubsShape, Complete, Exact, MapForward, MapBackward, PlaneExact,
         PlaneShape, Moved;
    LandingDefined(cfg, m);
    ProgramFacts(cfg, m);
    var s := SubOf(m, m.commands[0]);
    OldHome(cfg, m.entries, m.planes, s);
    PlanesSized(cfg, m.planes, a);
    MovedPages(cfg, m.planes[s.loc.at], Cell(s.loc.block, s.loc.page), OldCell(m.entries[s.lpn]), s.bits, s.lpn);
    PlanesSized(cfg, m.planes, s.loc.at);
    PlaneSizes(cfg, Moved(m.planes[s.loc.at], Cell(s.loc.block, s.loc.page), OldCell(m.entries[s.lpn]), s.bits, s.lpn));
  }

  lemma PlanesSized(cfg: Config, planes: map<PlaneAddr, Plane>, a: PlaneAddr)
    requires PlanesShape(cfg, planes) && a in planes
    ensures |planes[a].blocks| == cfg.blocks
  {
  }

  lemma CompleteAppends(cfg: Config, m: Chip, a: PlaneAddr, b: nat)
    requires Inv(cfg, m) && m.hw.signal && m.pending.None? && a in m.planes && b < cfg.blocks
    ensures Defined(cfg, m, Completes)
    ensures var m' := Next(cfg, m, Completes);
            a in m'.planes && b < |m'.planes[a].blocks| && b < |m.planes[a].blocks| && Appends(m, m', Completes, a, b)
  {
    hide Inv, Shape, PlaneExact, Exact, MapForward, MapBackward, PlaneShape, MergeAll, Marked, EraseQueue, Writes,
         Reads, Blank;
    CompleteKeeps(cfg, m);
    InvSized(cfg, m, a);
    if m.phase == Programming {
      LandingAppends(cfg, m, a, b);
    } else if m.phase == Erasing {
      EraseMarked(cfg, m);
    }
  }

  lemma InvSized(cfg: Config, m: Chip, a: PlaneAddr)
    requires Inv(cfg, m) && a in m.planes
    ensures Shape(cfg, m) && |m.planes[a].blocks| == cfg.blocks
  {
    InvShape(cfg, m);
  }

  lemma EraseMarked(cfg: Config, m: Chip)
    requires Inv(cfg, m) && m.phase == Erasing
    ensures Shape(cfg, m)
    ensures forall i :: 0 <= i < |m.erases| ==>
              && m.erases[i] in m.cmds && m.cmds[m.erases[i]].load.EraseAt?
              && m.cmds[m.erases[i]].load.at in m.planes && m.planes[m.cmds[m.erases[i]].load.at].eraseUsed
  {
    hide PlaneExact, Exact, MapForward, MapBackward, Stored, Writes, Reads, Marked, Room, Collecting, EntriesShape,
         PlanesShape, SubsShape, Hosts, Burnt, InStep;
  }

  /** Pages are written in order and at most once between erases: a block's write position
      goes up by one, for the page that is sent to be programmed, goes back to 0 when the
      block's erase completes, and never changes otherwise. */
  lemma AppendOnly(cfg: Config, m: Chip, st: Step, a: PlaneAddr, b: nat)
    requires Roomy(cfg) && Inv(cfg, m) && Guard(cfg, m, st) && a in m.planes && b < cfg.blocks
    ensures Defined(cfg, m, st)
    ensures var m' := Next(cfg, m, st);
            a in m'.planes && b < |m'.planes[a].blocks| && b < |m.planes[a].blocks| && Appends(m, m', st, a, b)
  {
    hide Inv, Roomy, Shape, Complete, GetCommand, Send, Victim, MayWrite, MayRead, AnyPoised, Appends;
    StepKeeps(cfg, m, st);
    InvSized(cfg, m, a);
    if st.Completes? {
      CompleteAppends(cfg, m, a, b);
    } else if st.Dispatches? {
      DispatchAppends(cfg, m, st.id, st.scratch, st.junk, a, b);
    } else {
      StillAppends(m, Next(cfg, m, st), st, a, b);
    }
  }

  lemma StillAppends(m: Chip, m': Chip, st: Step, a: PlaneAddr, b: nat)
    requires a in m.planes && a in m'.planes && b < |m.planes[a].blocks| && m'.planes[a].blocks == m.planes[a].blocks
    ensures Appends(m, m', st, a, b)
  {
  }

  lemma DispatchAppends(cfg: Config, m: Chip, id: nat, scratch: PageBuf, junk: seq<PageBuf>, a: PlaneAddr, b: nat)
    requires Roomy(cfg) && Inv(cfg, m) && MayDispatch(cfg, m) && Defined(cfg, m, Dispatches(id, scratch, junk))
    requires a in m.planes && b < cfg.blocks && |m.planes[a].blocks| == cfg.blocks
    ensures var m' := Next(cfg, m, Dispatches(id, scratch, junk));
            a in m'.planes && b < |m'.planes[a].blocks| && Appends(m, m', Dispatches(id, scratch, junk), a, b)
  {
    hide Inv, Roomy, Shape, GetCommand, Send, AnyPoised;
    DispatchDefined(cfg, m, id, scratch);
    var (m1, r) := GetCommand(cfg, m, id, scratch);
    if r.Some? {
      if m.incompletedR != [] {
        HalfRead(cfg, m, r.value);
      } else {
        PoisedAlone(cfg, m1, r.value);
      }
      SendAppends(cfg, m1, r.value, junk, id, scratch, a, b);
    }
  }

  lemma PoisedAlone(cfg: Config, m: Chip, r: nat)
    requires AnyPoised(cfg, m, r)
    ensures Shape(cfg, m) && r in m.cmds && (m.cmds[r].op == Write ==> m.commands == [r])
  {
    hide PlaneExact, Exact, MapForward, MapBackward, Stored, Writes, Reads, Marked, RoomAt, EraseQueue, Moving,
         HostReadOk, HostWriteOk, EntriesShape, SubsShape, Dead, Ample, Within, PlanesShape, TableShape;
  }

  // ---------------------------------------------------------------- the tables, spelled out

  /** The map and the page tables are inverse to each other, apart from a page that is being
      programmed: mapped logical pages have pages of their own, in their own plane, that name
      them, and every live page is the current page of the logical page it names. */
  lemma MapAndPagesInverse(cfg: Config, m: Chip)
    requires Inv(cfg, m)
    ensures PlanesShape(cfg, m.planes) && MapForward(cfg, m.entries, m.planes) && MapBackward(cfg, m.entries, m.planes)
    ensures forall k, l :: k in m.entries && l in m.entries && k != l
                           && m.entries[k].subPage != {} && m.entries[l].subPage != {} ==>
              m.entries[k].loc != m.entries[l].loc
  {
    hide Exact, PlaneExact, PlaneShape, Stored, Writes, Reads, Hosts, Burnt, EraseQueue, Marked, Collecting, Room,
        InStep, EntriesShape,
         SubsShape, TableShape, ListShape, Queues;
  }

  /** The page being programmed is in its plane and not live yet. */
  lemma BurningIsBlank(cfg: Config, m: Chip)
    requires Inv(cfg, m) && Burning(m).Some?
    ensures PlanesShape(cfg, m.planes) && InRange(cfg, Burning(m).value)
            && PageOf(m.planes, Burning(m).value).state == {}
  {
    hide Exact, PlaneExact, PlaneShape, Stored, Writes, Reads, Hosts, Burnt, EraseQueue, Marked, Collecting, Room,
        InStep, EntriesShape,
         SubsShape, MapForward, MapBackward;
    assert CommandShape(cfg, m.cmds[m.commands[0]]);
    BusyPage(cfg, m.planes, Burning(m).value);
  }

  /** What the counters of every block mean at all times. Only the active block of a plane is
      partly written, and it always has a free page. */
  lemma BlocksCounted(cfg: Config, m: Chip, a: PlaneAddr, b: nat)
    requires Inv(cfg, m) && a in m.planes && b < cfg.blocks
    ensures |m.planes[a].blocks| == cfg.blocks && m.planes[a].active < cfg.blocks
    ensures var blk := m.planes[a].blocks[b];
            && blk.startWrite <= cfg.pages && blk.cnt.free == cfg.pages - blk.startWrite
            && blk.cnt.valid == |Live(blk.pages)| + One(Burning(m).Some? && Burning(m).value.at == a
               && Burning(m).value.block == b)
            && blk.cnt.free + blk.cnt.valid + blk.cnt.invalid == cfg.pages && blk.cnt.invalid >= 0
            && (b == m.planes[a].active ==> blk.startWrite < cfg.pages)
            && (b != m.planes[a].active ==> blk.startWrite == 0 || blk.startWrite == cfg.pages)
  {
    hide Shape, MapForward, MapBackward, Stored, Writes, Reads, Hosts, Burnt, EraseQueue, Marked, Collecting, Room,
        InStep, Queues;
    var f := CellAt(Burning(m), a);
    assert PlaneExact(cfg.blocks, cfg.pages, m.planes[a], f);
    BlockCountersNatural(cfg.pages, m.planes[a].blocks[b], BusyIn(f, b));
  }

  /** At most one command is out or half way through a read; none is out on an idle chip. */
  lemma OneCommandOut(cfg: Config, m: Chip)
    requires Inv(cfg, m)
    ensures |m.commands| + |m.incompletedR| <= 1 && (m.phase == Idle ==> m.commands == [])
  {
    hide Shape, Exact, MapForward, MapBackward, Stored, Writes, Reads, Hosts, Burnt, EraseQueue, Marked, Collecting,
        Room, InStep;
  }
}
