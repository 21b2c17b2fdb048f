/** The collection check keeps the invariant: whatever it decides, the plane has its room
    again. */
module ChipCheck {
  import opened Flash
  import opened Layout
  import opened Sectors
  import opened Chip
  import opened ChipInv
  import opened ChipWrite
  import opened ChipCount

  /** Between a host write and its collection check. */
  ghost predicate CheckDue(cfg: Config, m: Chip) {
    Roomy(cfg) && Inv(cfg, m) && m.pending.Some?
  }

  lemma CheckFacts(cfg: Config, m: Chip)
    requires CheckDue(cfg, m)
    ensures Shape(cfg, m) && m.pending.value in m.planes
    ensures var at := m.pending.value; var f := CellAt(Burning(m), at);
            && PlaneShape(cfg, m.planes[at]) && PlaneExact(cfg.blocks, cfg.pages, m.planes[at], f)
            && m.planes[at].cnt.valid <= |Homed(cfg, at)| + One(f.Cell?)
            && RoomAt(cfg, m.planes[at], f.Cell?, Relocating(m, at), true)
            && (Relocating(m, at) ==> m.planes[at].eraseUsed)
            && (!cfg.split ==> f.NoCell?)
            && |Homed(cfg, at)| + cfg.threshold <= Cap(cfg.blocks, cfg.pages)
  {
    hide PlaneExact, PlaneShape, MapForward, MapBackward, Stored, Writes, Reads, RoomAt, EntriesShape, SubsShape,
         Marked, Within, Holds, Firm, Looked, Named, Dead;
    var at := m.pending.value;
    assert PlaneExact(cfg.blocks, cfg.pages, m.planes[at], CellAt(Burning(m), at));
    ValidBound(cfg, m.entries, m.planes, Burning(m), at);
    if Relocating(m, at) {
      assert EraseOk(cfg, m.planes, m.cmds[m.erases[0]]);
    }
  }

  /** With the check done, the plane has its room again: either it has enough free pages,
      or it has a victim that gives them back. */
  lemma CheckRoom(cfg: Config, pl: Plane, f: Cell, homed: nat)
    requires cfg.pages > 0 && PlaneShape(cfg, pl) && PlaneExact(cfg.blocks, cfg.pages, pl, f)
    requires pl.cnt.valid <= homed + One(f.Cell?) && homed + cfg.threshold <= Cap(cfg.blocks, cfg.pages)
    requires !pl.eraseUsed && RoomAt(cfg, pl, f.Cell?, false, true) && (!cfg.split ==> f.NoCell?)
    ensures pl.cnt.free > cfg.threshold ==> RoomAt(cfg, pl, f.Cell?, false, false)
    ensures Victim(pl.blocks, |pl.blocks|).None? ==> RoomAt(cfg, pl, f.Cell?, false, false)
    ensures var v := Victim(pl.blocks, |pl.blocks|);
            v.Some? ==> RoomAt(cfg, pl.(eraseUsed := true, eraseBlock := v.value), f.Cell?, false, false)
  {
    var v := Victim(pl.blocks, |pl.blocks|);
    PlaneBlocks(cfg, pl, f);
    if v.None? {
      forall b | 0 <= b < cfg.blocks && pl.blocks[b].cnt.free == 0 ensures pl.blocks[b].cnt.invalid <= One(false) {
        assert !Collectable(pl.blocks[b]);
      }
      StaleBound(cfg, pl, f, false);
    } else {
      hide PlaneExact;
      if pl.blocks[v.value].cnt.invalid == 1 && f.Cell? {
        forall b | 0 <= b < cfg.blocks && pl.blocks[b].cnt.free == 0 ensures pl.blocks[b].cnt.invalid <= One(true) {
          assert pl.blocks[b].cnt.invalid != 0 ==> Collectable(pl.blocks[b]);
        }
        StaleBound(cfg, pl, f, true);
      }
    }
  }

  lemma PlaneBlocks(cfg: Config, pl: Plane, f: Cell)
    requires PlaneExact(cfg.blocks, cfg.pages, pl, f)
    ensures |pl.blocks| == cfg.blocks
    ensures forall b :: 0 <= b < cfg.blocks && pl.blocks[b].cnt.free == 0 ==>
              && pl.blocks[b].startWrite == cfg.pages
              && pl.blocks[b].cnt.valid + pl.blocks[b].cnt.invalid == cfg.pages
              && 0 <= pl.blocks[b].cnt.invalid
  {
    forall b | 0 <= b < cfg.blocks ensures 0 <= pl.blocks[b].cnt.invalid
        && pl.blocks[b].cnt.valid + pl.blocks[b].cnt.invalid == pl.blocks[b].startWrite
    {
      assert BlockExact(cfg.pages, pl.blocks[b], BusyIn(f, b));
      BlockCountersNatural(cfg.pages, pl.blocks[b], BusyIn(f, b));
    }
    assert forall b :: 0 <= b < cfg.blocks ==> BlockExact(cfg.pages, pl.blocks[b], BusyIn(f, b));
  }

  /** The chip once the check of plane `at` has found the victim `v`. */
  function Marking(m: Chip, at: PlaneAddr, v: nat, id: nat): Chip
    requires at in m.planes
  {
    m.(pending := None,
       planes := m.planes[at := m.planes[at].(eraseUsed := true, eraseBlock := v)],
       cmds := m.cmds[m.nextRef := Command(Erase, EraseAt(at), id, false, None, 0)],
       nextRef := m.nextRef + 1,
       erases := m.erases + [m.nextRef])
  }

  lemma CheckIs(cfg: Config, m: Chip, id: nat)
    requires CheckDue(cfg, m)
    ensures Shape(cfg, m) && m.pending.value in m.planes
    ensures var at := m.pending.value; var pl := m.planes[at]; var v := Victim(pl.blocks, |pl.blocks|);
            GcCheck(cfg, m, id) == if !pl.eraseUsed && pl.cnt.free <= cfg.threshold && v.Some?
                then Marking(m, at, v.value, id) else m.(pending := None)
  {
    hide Inv, PlaneExact, PlaneShape;
    CheckFacts(cfg, m);
  }

  lemma MarkExact(cfg: Config, pl: Plane, f: Cell, v: nat)
    requires PlaneShape(cfg, pl) && PlaneExact(cfg.blocks, cfg.pages, pl, f) && v < cfg.blocks
    ensures var pl' := pl.(eraseUsed := true, eraseBlock := v);
            PlaneShape(cfg, pl') && PlaneExact(cfg.blocks, cfg.pages, pl', f) && pl'.blocks == pl.blocks
  {
  }

  lemma MarkedExact(cfg: Config, planes: map<PlaneAddr, Plane>, f: Option<Loc>, at: PlaneAddr, v: nat)
    requires PlanesShape(cfg, planes) && Exact(cfg, planes, f) && at in planes && v < cfg.blocks
    ensures var planes' := planes[at := planes[at].(eraseUsed := true, eraseBlock := v)];
            PlanesShape(cfg, planes') && Exact(cfg, planes', f) && SamePages(cfg, planes, planes')
  {
    hide PlaneExact, PlaneShape;
    assert PlaneExact(cfg.blocks, cfg.pages, planes[at], CellAt(f, at));
    MarkExact(cfg, planes[at], CellAt(f, at), v);
    var planes' := planes[at := planes[at].(eraseUsed := true, eraseBlock := v)];
    forall a | a in planes' ensures PlaneExact(cfg.blocks, cfg.pages, planes'[a], CellAt(f, a)) {
      assert PlaneExact(cfg.blocks, cfg.pages, planes[a], CellAt(f, a));
    }
  }

  lemma MarkedQueue(cfg: Config, planes: map<PlaneAddr, Plane>,
        cmds: map<nat, Command>, erases: seq<nat>, at: PlaneAddr, v: nat, e: nat, id: nat)
    requires PlanesShape(cfg, planes) && EraseQueue(cfg, planes, cmds, erases) && Marked(planes, cmds, erases)
    requires at in planes
    requires !planes[at].eraseUsed && v < cfg.blocks && planes[at].blocks[v].startWrite == cfg.pages && e !in cmds
    ensures var planes' := planes[at := planes[at].(eraseUsed := true, eraseBlock := v)];
            var cmds' := cmds[e := Command(Erase, EraseAt(at), id, false, None, 0)];
            EraseQueue(cfg, planes', cmds', erases + [e]) && Marked(planes', cmds', erases + [e])
  {
    var planes' := planes[at := planes[at].(eraseUsed := true, eraseBlock := v)];
    var cmds' := cmds[e := Command(Erase, EraseAt(at), id, false, None, 0)];
    var es := erases + [e];
    forall i | 0 <= i < |es| ensures es[i] in cmds' && EraseOk(cfg, planes', cmds'[es[i]]) {
      if i < |erases| { assert EraseOk(cfg, planes, cmds[erases[i]]); }
    }
    forall i, j | 0 <= i < j < |es| ensures cmds'[es[i]].load.at != cmds'[es[j]].load.at {
      assert EraseOk(cfg, planes, cmds[erases[i]]);
    }
    hide EraseOk;
    forall a | a in planes' && planes'[a].eraseUsed
      ensures exists i :: 0 <= i < |es| && es[i] in cmds' && cmds'[es[i]].load == EraseAt(a)
    {
      if a == at {
        assert es[|erases|] == e;
      } else {
        var i :| 0 <= i < |erases| && erases[i] in cmds && cmds[erases[i]].load == EraseAt(a);
        assert es[i] == erases[i];
      }
    }
  }

  lemma MarkingPlanes(cfg: Config, m: Chip, v: nat, id: nat)
    requires CheckDue(cfg, m) && m.pending.value in m.planes && !m.planes[m.pending.value].eraseUsed
    requires Victim(m.planes[m.pending.value].blocks, |m.planes[m.pending.value].blocks|) == Some(v)
    ensures var m' := Marking(m, m.pending.value, v, id);
            && PlanesShape(cfg, m'.planes) && Exact(cfg, m'.planes, Burning(m))
            && MapForward(cfg, m'.entries, m'.planes) && MapBackward(cfg, m'.entries, m'.planes)
            && EraseQueue(cfg, m'.planes, m'.cmds, m'.erases) && Marked(m'.planes, m'.cmds, m'.erases)
  {
    hide PlaneExact, PlaneShape, MapForward, MapBackward, Stored, Writes, Reads, Room, EntriesShape, SubsShape,
         Collecting, Hosts, Burnt, InStep, EraseQueue, Marked, Exact, PlanesShape, ListShape, CommandShape, Queues;
    CheckFacts(cfg, m);
    var at := m.pending.value;
    PlaneBlocks(cfg, m.planes[at], CellAt(Burning(m), at));
    MarkedExact(cfg, m.planes, Burning(m), at, v);
    SamePagesMap(cfg, m.entries, m.planes, Marking(m, at, v, id).planes);
    MarkedQueue(cfg, m.planes, m.cmds, m.erases, at, v, m.nextRef, id);
  }

  lemma MarkingShape(cfg: Config, m: Chip, v: nat, id: nat)
    requires CheckDue(cfg, m) && m.pending.value in m.planes && !m.planes[m.pending.value].eraseUsed
    requires Victim(m.planes[m.pending.value].blocks, |m.planes[m.pending.value].blocks|) == Some(v)
    ensures Shape(cfg, Marking(m, m.pending.value, v, id))
  {
    hide PlaneExact, PlaneShape, MapForward, MapBackward, Stored, Writes, Reads, Room, EntriesShape, SubsShape,
         SubShape, Collecting, Hosts, Burnt, InStep, EraseQueue, Marked, Exact, PlanesShape, Queues;
    MarkingPlanes(cfg, m, v, id);
  }

  lemma MarkingRest(cfg: Config, m: Chip, v: nat, id: nat)
    requires CheckDue(cfg, m) && m.pending.value in m.planes && !m.planes[m.pending.value].eraseUsed
    requires Victim(m.planes[m.pending.value].blocks, |m.planes[m.pending.value].blocks|) == Some(v)
    ensures var m' := Marking(m, m.pending.value, v, id);
            Queues(m') && Hosts(cfg, m') && Burnt(m') && InStep(m') && Burning(m') == Burning(m)
  {
    hide PlaneExact, PlaneShape, MapForward, MapBackward, Stored, Writes, Reads, Room, EntriesShape, SubsShape,
         SubShape, Collecting, EraseQueue, Marked, Exact, PlanesShape, HostReadOk, HostWriteOk;
  }

  lemma MarkingCollecting(cfg: Config, m: Chip, v: nat, id: nat)
    requires CheckDue(cfg, m) && m.pending.value in m.planes && !m.planes[m.pending.value].eraseUsed
    requires Victim(m.planes[m.pending.value].blocks, |m.planes[m.pending.value].blocks|) == Some(v)
    ensures Collecting(cfg, Marking(m, m.pending.value, v, id))
  {
    hide PlaneExact, PlaneShape, MapForward, MapBackward, Stored, Writes, Reads, Room, EntriesShape, SubsShape,
         SubShape, Marked, Exact, PlanesShape, HostReadOk, HostWriteOk, Hosts, Burnt, InStep, Within, Holds, Firm,
         Looked, Named, Dead;
    if m.erases != [] {
      assert EraseOk(cfg, m.planes, m.cmds[m.erases[0]]);
    }
  }

  lemma MarkingRoom(cfg: Config, m: Chip, v: nat, id: nat)
    requires CheckDue(cfg, m) && m.pending.value in m.planes && !m.planes[m.pending.value].eraseUsed
    requires Victim(m.planes[m.pending.value].blocks, |m.planes[m.pending.value].blocks|) == Some(v)
    ensures Room(cfg, Marking(m, m.pending.value, v, id))
  {
    hide PlaneExact, PlaneShape, MapForward, MapBackward, Stored, Writes, Reads, EntriesShape, SubsShape, SubShape,
         RoomAt, Marked, Exact, PlanesShape, Hosts, Burnt, InStep, Collecting, EraseQueue;
    CheckFacts(cfg, m);
    MarkingRest(cfg, m, v, id);
    var at := m.pending.value;
    CheckRoom(cfg, m.planes[at], CellAt(Burning(m), at), |Homed(cfg, at)|);
  }

  lemma NoVictimKeeps(cfg: Config, m: Chip)
    requires CheckDue(cfg, m) && m.pending.value in m.planes
    requires var pl := m.planes[m.pending.value];
             pl.eraseUsed || pl.cnt.free > cfg.threshold || Victim(pl.blocks, |pl.blocks|).None?
    ensures Inv(cfg, m.(pending := None))
  {
    NoVictimRoom(cfg, m);
    CheckDropped(cfg, m);
    hide Shape, Exact, MapForward, MapBackward, Stored, Writes, Reads, Looked, EraseQueue, Marked, Hosts, Room,
         Burnt, InStep, Collecting, Queues, Burning, AllReads, AllWrites, Victim;
    Lists(m);
  }

  lemma Lists(m: Chip)
    ensures AllReads(m.(pending := None)) == AllReads(m) && AllWrites(m.(pending := None)) == AllWrites(m)
  {
  }

  lemma CheckDropped(cfg: Config, m: Chip)
    requires Inv(cfg, m)
    ensures var m' := m.(pending := None);
            Shape(cfg, m') && Queues(m') && Hosts(cfg, m') && Burnt(m') && Collecting(cfg, m') && InStep(m')
            && Burning(m') == Burning(m)
  {
    hide PlanesShape, EntriesShape, TableShape, ListShape, SubsShape, Exact, MapForward, MapBackward, Stored, Writes,
         Reads, Looked, EraseQueue, Marked, Room, HostReadOk, HostWriteOk, Written, Dead, Gone, Holds, Within;
  }

  lemma NoVictimRoom(cfg: Config, m: Chip)
    requires CheckDue(cfg, m) && m.pending.value in m.planes
    requires var pl := m.planes[m.pending.value];
             pl.eraseUsed || pl.cnt.free > cfg.threshold || Victim(pl.blocks, |pl.blocks|).None?
    ensures Room(cfg, m.(pending := None))
  {
    hide PlaneExact, PlaneShape, MapForward, MapBackward, Stored, Writes, Reads, EntriesShape, SubsShape, SubShape,
         RoomAt, Marked, Exact, PlanesShape, HostReadOk, HostWriteOk, EraseQueue, Within, Holds, Firm, Looked, Named,
         Dead, TableShape, ListShape, Hosts, Burnt, InStep, Collecting, Victim;
    CheckFacts(cfg, m);
    var at := m.pending.value;
    UsedRoom(cfg, m.planes[at], CellAt(Burning(m), at).Cell?, Relocating(m, at));
    if !m.planes[at].eraseUsed {
      CheckRoom(cfg, m.planes[at], CellAt(Burning(m), at), |Homed(cfg, at)|);
    }
  }

  lemma UsedRoom(cfg: Config, pl: Plane, burning: bool, relocating: bool)
    ensures pl.eraseUsed && RoomAt(cfg, pl, burning, relocating, true) ==> RoomAt(cfg, pl, burning, relocating, false)
  {
  }

  lemma CheckKeeps(cfg: Config, m: Chip, id: nat)
    requires CheckDue(cfg, m)
    ensures Shape(cfg, m) && Inv(cfg, GcCheck(cfg, m, id))
  {
    hide PlaneExact, PlaneShape, MapForward, MapBackward, Stored, Writes, Reads, EntriesShape, SubsShape, SubShape,
         Room, Marked, Exact, PlanesShape, Hosts, EraseQueue, Collecting, TableShape, ListShape, Queues, Burnt,
         InStep, Shape;
    CheckIs(cfg, m, id);
    var at := m.pending.value;
    var pl := m.planes[at];
    var v := Victim(pl.blocks, |pl.blocks|);
    if !pl.eraseUsed && pl.cnt.free <= cfg.threshold && v.Some? {
      MarkingPlanes(cfg, m, v.value, id);
      MarkingShape(cfg, m, v.value, id);
      MarkingRest(cfg, m, v.value, id);
      MarkingCollecting(cfg, m, v.value, id);
      MarkingRoom(cfg, m, v.value, id);
    } else {
      NoVictimKeeps(cfg, m);
    }
  }

  /** When collecting starts, and with which block: exactly when the plane is not being collected,
      is at or below the threshold and has a full block with a stale page; and then with the first
      of those that have most, as the last to be collected. */
  lemma CollectsExactly(cfg: Config, m: Chip, id: nat)
    requires Shape(cfg, m) && m.pending.Some? && m.pending.value in m.planes
    ensures var m', at, pl := GcCheck(cfg, m, id), m.pending.value, m.planes[m.pending.value];
            var starts := !pl.eraseUsed && pl.cnt.free <= cfg.threshold
                          && exists b: nat :: b < |pl.blocks| && Collectable(pl.blocks[b]);
            if starts then
              && at in m'.planes && m'.planes[at].eraseUsed && m'.erases == m.erases + [m.nextRef]
              && m.nextRef in m'.cmds && m'.cmds[m.nextRef].op == Erase && m'.cmds[m.nextRef].load == EraseAt(at)
              && BestVictim(pl.blocks, m'.planes[at].eraseBlock)
            else m'.planes == m.planes && m'.erases == m.erases
  {
    hide Shape, Victim, Collectable;
    var pl := m.planes[m.pending.value];
    var v := Victim(pl.blocks, |pl.blocks|);
    if v.Some? { VictimIsFirst(pl.blocks, |pl.blocks|); }
  }

  /** Block `v` is full and has most stale pages of all full blocks, and it is the first that has. */
  ghost predicate BestVictim(blocks: seq<Block>, v: nat) {
    && v < |blocks| && Collectable(blocks[v])
    && forall b :: 0 <= b < |blocks| && Collectable(blocks[b]) ==>
         && blocks[b].cnt.invalid <= blocks[v].cnt.invalid
         && (b < v ==> blocks[b].cnt.invalid < blocks[v].cnt.invalid)
  }
}
