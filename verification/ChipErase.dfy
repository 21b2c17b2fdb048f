/** Completing an erase keeps the invariant. */
module ChipErase {
  import opened Flash
  import opened Layout
  import opened Sectors
  import opened Chip
  import opened ChipInv
  import opened ChipWrite

  ghost predicate EraseDone(cfg: Config, m: Chip) {
    Inv(cfg, m) && m.phase == Erasing && m.hw.signal && m.pending.None?
  }

  function Erased(cfg: Config, pl: Plane): (r: Plane)
    requires pl.eraseBlock < |pl.blocks|
  {
    EraseBlock(cfg.pages, pl, pl.eraseBlock).(eraseUsed := false)
  }

  /** Erasing a dead victim changes no page-table entry, and keeps the counters exact. */
  lemma ErasedPlane(cfg: Config, pl: Plane, f: Cell)
    requires cfg.pages > 0 && PlaneShape(cfg, pl) && PlaneExact(cfg.blocks, cfg.pages, pl, f) && Dead(cfg, pl)
    ensures var pl' := Erased(cfg, pl);
            && PlaneShape(cfg, pl') && PlaneExact(cfg.blocks, cfg.pages, pl', f)
            && !pl'.eraseUsed && pl'.cnt == Plus(pl.cnt, Counts(cfg.pages, 0, 0 - cfg.pages))
            && (forall b :: 0 <= b < cfg.blocks ==> pl'.blocks[b].pages == pl.blocks[b].pages)
  {
    EraseKeepsExact(cfg.blocks, cfg.pages, pl, f, pl.eraseBlock);
    assert Blank(pl.blocks[pl.eraseBlock].pages) == pl.blocks[pl.eraseBlock].pages;
  }

  lemma EraseFacts(cfg: Config, m: Chip)
    requires EraseDone(cfg, m)
    ensures Shape(cfg, m) && m.erases != [] && m.commands == [] && m.incompletedR == []
    ensures EndIndex(m, EndQueue(m), m.hw.id) == 0
    ensures m.erases[0] in m.cmds && m.cmds[m.erases[0]].load.EraseAt? && m.cmds[m.erases[0]].op == Erase
    ensures var at := m.cmds[m.erases[0]].load.at;
            && at in m.planes && PlaneShape(cfg, m.planes[at])
               && PlaneExact(cfg.blocks, cfg.pages, m.planes[at], NoCell)
            && Dead(cfg, m.planes[at]) && m.planes[at].eraseUsed
            && RoomAt(cfg, m.planes[at], false, false, false)
    ensures Burning(m).None? && Exact(cfg, m.planes, None)
    ensures !m.hw.timer && m.hw.phase == Idle
    ensures forall a :: a in m.planes ==> RoomAt(cfg, m.planes[a], false, false, false)
  {
    hide PlaneExact, PlaneShape, MapForward, MapBackward, Stored, Writes, Reads, RoomAt, EntriesShape, SubsShape,
         Marked, Within, Holds, Firm, Looked, Named, Moving, Dead;
    assert EraseOk(cfg, m.planes, m.cmds[m.erases[0]]);
    AtPlane(cfg, m.planes, m.cmds[m.erases[0]].load.at);
  }

  lemma ErasedPlanes(cfg: Config, m: Chip)
    requires EraseDone(cfg, m)
    ensures Shape(cfg, m) && EndIndex(m, EndQueue(m), m.hw.id) < |EndQueue(m)|
    ensures var m' := Complete(cfg, m);
            && PlanesShape(cfg, m'.planes) && Exact(cfg, m'.planes, None)
            && MapForward(cfg, m'.entries, m'.planes) && MapBackward(cfg, m'.entries, m'.planes)
  {
    hide PlaneExact, PlaneShape, MapForward, MapBackward, Stored, Writes, Reads, Room, EntriesShape, SubsShape,
         EraseBlock, Hosts, Burnt, InStep, EraseQueue, Marked, Within, Holds, Firm, Looked, Named, Dead, Collecting,
         TableShape,
         ListShape, Queues;
    EraseFacts(cfg, m);
    var at := m.cmds[m.erases[0]].load.at;
    ErasedPlane(cfg, m.planes[at], NoCell);
    var m' := Complete(cfg, m);
    PlaneSizes(cfg, m.planes[at]);
    assert m'.planes == m.planes[at := Erased(cfg, m.planes[at])];
    ErasedExact(cfg, m.planes, at);
    ErasedPages(cfg, m.planes, at);
    SamePagesMap(cfg, m.entries, m.planes, m'.planes);
  }

  lemma ErasedExact(cfg: Config, planes: map<PlaneAddr, Plane>, at: PlaneAddr)
    requires PlanesShape(cfg, planes) && Exact(cfg, planes, None) && at in planes
    requires planes[at].eraseBlock < |planes[at].blocks|
    requires PlaneShape(cfg, Erased(cfg, planes[at]))
    requires PlaneExact(cfg.blocks, cfg.pages, Erased(cfg, planes[at]), NoCell)
    ensures PlanesShape(cfg, planes[at := Erased(cfg, planes[at])])
    ensures Exact(cfg, planes[at := Erased(cfg, planes[at])], None)
  {
    hide PlaneExact, PlaneShape, Erased;
    var planes' := planes[at := Erased(cfg, planes[at])];
    forall a | a in planes' ensures PlaneExact(cfg.blocks, cfg.pages, planes'[a], CellAt(None, a)) {
      assert PlaneExact(cfg.blocks, cfg.pages, planes[a], CellAt(None, a));
    }
  }

  lemma ErasedPages(cfg: Config, planes: map<PlaneAddr, Plane>, at: PlaneAddr)
    requires PlanesShape(cfg, planes) && at in planes && planes[at].eraseBlock < |planes[at].blocks|
    requires PlaneShape(cfg, Erased(cfg, planes[at]))
    requires forall b :: 0 <= b < cfg.blocks && b < |planes[at].blocks| && b < |Erased(cfg, planes[at]).blocks| ==>
               Erased(cfg, planes[at]).blocks[b].pages == planes[at].blocks[b].pages
    ensures var planes' := planes[at := Erased(cfg, planes[at])];
            PlanesShape(cfg, planes') && SamePages(cfg, planes, planes')
  {
    hide Erased;
  }

  /** The queue without its head: the plane of the head is no longer marked. */
  lemma TailQueue(cfg: Config, planes: map<PlaneAddr, Plane>, cmds: map<nat, Command>, erases: seq<nat>, pl': Plane)
    requires EraseQueue(cfg, planes, cmds, erases) && Marked(planes, cmds, erases) && erases != []
    requires !pl'.eraseUsed
    ensures var e := erases[0];
            && e in cmds && cmds[e].load.EraseAt? && cmds[e].load.at in planes
            && EraseQueue(cfg, planes[cmds[e].load.at := pl'], cmds - {e}, erases[1..])
            && Marked(planes[cmds[e].load.at := pl'], cmds - {e}, erases[1..])
            && forall i :: 0 <= i < |erases[1..]| ==> Fresh(cmds[erases[1..][i]])
  {
    hide Fresh;
    var e := erases[0];
    assert EraseOk(cfg, planes, cmds[e]);
    var at := cmds[e].load.at;
    TailMarked(cfg, planes, cmds, erases, pl');
    hide Marked;
    var planes' := planes[at := pl'];
    var t := erases[1..];
    forall i | 0 <= i < |t| ensures t[i] in cmds - {e} && EraseOk(cfg, planes', cmds[t[i]]) {
      assert EraseOk(cfg, planes, cmds[erases[i + 1]]);
    }
  }

  lemma TailMarked(cfg: Config, planes: map<PlaneAddr, Plane>, cmds: map<nat, Command>, erases: seq<nat>, pl': Plane)
    requires Marked(planes, cmds, erases) && erases != [] && !pl'.eraseUsed
    requires forall i :: 0 <= i < |erases| ==> erases[i] in cmds && EraseOk(cfg, planes, cmds[erases[i]])
    requires forall j :: 0 < j < |erases| ==> cmds[erases[0]].load != cmds[erases[j]].load
    ensures var e := erases[0];
            e in cmds && cmds[e].load.EraseAt? && cmds[e].load.at in planes
            && Marked(planes[cmds[e].load.at := pl'], cmds - {e}, erases[1..])
  {
    var e := erases[0];
    assert EraseOk(cfg, planes, cmds[e]);
    var at := cmds[e].load.at;
    var planes' := planes[at := pl'];
    var t := erases[1..];
    forall a | a in planes' && planes'[a].eraseUsed
      ensures exists i :: 0 <= i < |t| && t[i] in cmds - {e} && (cmds - {e})[t[i]].load == EraseAt(a)
    {
      var i :| 0 <= i < |erases| && erases[i] in cmds && cmds[erases[i]].load == EraseAt(a);
      assert t[i - 1] == erases[i];
    }
  }

  lemma ErasedQueue(cfg: Config, m: Chip)
    requires EraseDone(cfg, m)
    ensures Shape(cfg, m) && EndIndex(m, EndQueue(m), m.hw.id) < |EndQueue(m)|
    ensures var m' := Complete(cfg, m);
            && EraseQueue(cfg, m'.planes, m'.cmds, m'.erases) && Marked(m'.planes, m'.cmds, m'.erases)
            && m'.erases == m.erases[1..] && m'.cmds == m.cmds - {m.erases[0]}
            && forall i :: 0 <= i < |m'.erases| ==>
               m'.erases[i] in m'.cmds && m'.erases[i] in m.cmds && Fresh(m'.cmds[m'.erases[i]])
  {
    hide PlaneExact, PlaneShape, MapForward, MapBackward, Stored, Writes, Reads, Room, EntriesShape, SubsShape,
         EraseBlock, Hosts, Burnt, InStep, EraseOk, Within, Holds, Firm, Looked, Named, Dead, Collecting, TableShape,
         ListShape, Queues,
         Marked, Exact;
    EraseFacts(cfg, m);
    var at := m.cmds[m.erases[0]].load.at;
    PlaneSizes(cfg, m.planes[at]);
    TailQueue(cfg, m.planes, m.cmds, m.erases, Erased(cfg, m.planes[at]));
    var m' := Complete(cfg, m);
    assert m'.erases == m.erases[1..];
    assert m'.planes == m.planes[at := Erased(cfg, m.planes[at])];
  }

  lemma ErasedShape(cfg: Config, m: Chip)
    requires EraseDone(cfg, m)
    ensures Shape(cfg, m) && EndIndex(m, EndQueue(m), m.hw.id) < |EndQueue(m)|
    ensures Shape(cfg, Complete(cfg, m))
  {
    hide PlaneExact, PlaneShape, MapForward, MapBackward, Stored, Writes, Reads, Room, EntriesShape, SubsShape,
         EraseBlock, Hosts, Burnt, InStep, EraseQueue, Marked, Within, Holds, Firm, Looked, Named, Dead, Collecting,
         Queues, Exact,
         PlanesShape, SubShape;
    EraseFacts(cfg, m);
    ErasedPlanes(cfg, m);
    ErasedQueue(cfg, m);
  }

  lemma ErasedRest(cfg: Config, m: Chip)
    requires EraseDone(cfg, m)
    ensures Shape(cfg, m) && EndIndex(m, EndQueue(m), m.hw.id) < |EndQueue(m)|
    ensures var m' := Complete(cfg, m);
            && Queues(m') && Hosts(cfg, m') && Burnt(m') && Collecting(cfg, m') && InStep(m') && Room(cfg, m')
               && Burning(m').None?
  {
    hide PlaneExact, PlaneShape, MapForward, MapBackward, Stored, Writes, Reads, EntriesShape, SubsShape, EraseBlock,
         EraseQueue, Marked, Within, Holds, Firm, Looked, Named, Exact, SubShape, TableShape, RoomAt, ListShape, Moving;
    EraseFacts(cfg, m);
    ErasedQueue(cfg, m);
    var at := m.cmds[m.erases[0]].load.at;
    PlaneSizes(cfg, m.planes[at]);
    ErasedRoom(cfg, m.planes[at]);
  }

  lemma ErasedRoom(cfg: Config, pl: Plane)
    requires PlaneShape(cfg, pl) && pl.eraseUsed && Dead(cfg, pl) && RoomAt(cfg, pl, false, false, false)
    ensures RoomAt(cfg, Erased(cfg, pl), false, false, false)
  {
  }

  lemma EndEraseKeeps(cfg: Config, m: Chip)
    requires EraseDone(cfg, m)
    ensures Shape(cfg, m) && EndIndex(m, EndQueue(m), m.hw.id) < |EndQueue(m)|
    ensures Inv(cfg, Complete(cfg, m))
  {
    hide PlaneExact, PlaneShape, MapForward, MapBackward, Stored, Writes, Reads, Room, EntriesShape, SubsShape,
         EraseBlock, Hosts, Burnt, InStep, EraseQueue, Marked, Within, Holds, Firm, Looked, Named, Dead, Collecting,
         Queues, Exact,
         PlanesShape, SubShape, Shape, TableShape, ListShape;
    EraseFacts(cfg, m);
    ErasedPlanes(cfg, m);
    ErasedShape(cfg, m);
    ErasedQueue(cfg, m);
    ErasedRest(cfg, m);
  }
}
