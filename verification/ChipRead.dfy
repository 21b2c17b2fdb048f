/** Sending read and erase commands keeps the invariant. */
module ChipRead {
  import opened Flash
  import opened Sectors
  import opened Chip
  import opened ChipInv
  import opened ChipWrite

  // ---------------------------------------------------------------- first half of a read

  /** A chip about to send the read command `r`. */
  ghost predicate PoisedRead(cfg: Config, m: Chip, r: nat) {
    && Shape(cfg, m)
    && m.phase == Idle && m.commands == [r] && m.incompletedR == [] && r in m.cmds
    && m.hw.phase == Idle && !m.hw.timer && !m.hw.signal
    && m.cmds[r].op == Read && !m.cmds[r].completed && m.cmds[r].stage == 0
    && Exact(cfg, m.planes, None)
    && MapForward(cfg, m.entries, m.planes) && MapBackward(cfg, m.entries, m.planes)
    && Stored(m.entries, m.cells, m.store)
    && Writes(cfg, AllWrites(m), m.store) && Reads(AllReads(m), AllWrites(m), m.store)
    && Looked(AllReads(m), m.cells, m.ages)
    && EraseQueue(cfg, m.planes, m.cmds, m.erases) && Marked(m.planes, m.cmds, m.erases)
    && (forall a :: a in m.planes ==> RoomAt(cfg, m.planes[a], false, false, m.pending == Some(a)))
    && (!cfg.split ==> m.pending.None?)
    && if m.cmds[r].related.None? then
         m.erases == [] && HostReadOk(SubOf(m, r), false, AllReads(m), AllWrites(m), m.cells, m.ages, m.store)
       else
         && m.erases != []
         && m.cmds[r].related == Some(m.erases[0]) && m.cmds[m.erases[0]].related == Some(r)
         && Moving(cfg, m, m.cmds[m.erases[0]], m.cmds[r])
  }

  lemma SendReadKeeps(cfg: Config, m: Chip, r: nat)
    requires PoisedRead(cfg, m, r)
    ensures Inv(cfg, SendRead(cfg, m, r, true))
  {
    hide PlaneExact, PlaneShape, MapForward, MapBackward, Marked, Stored, Writes, Reads, RoomAt, EntriesShape,
         TableShape, SubsShape, EraseOk, Within, ReadOk;
  }

  // ---------------------------------------------------------------- second half

  lemma DataShape(cfg: Config, m: Chip, r: nat, b: PageBuf)
    requires Inv(cfg, m) && m.phase == Idle && m.incompletedR == [r]
    ensures m.cmds[r].load.OfSub?
    ensures forall w :: Shape(cfg, PutSub(m, r, SubOf(m, r).(buf := b, whole := w)))
  {
    hide PlaneExact, PlaneShape, MapForward, MapBackward, Marked, Stored, Writes, Reads, RoomAt, EntriesShape,
         SubsShape, EraseQueue, Within, ReadOk, Collecting, Hosts, PlanesShape;
    forall w ensures Shape(cfg, PutSub(m, r, SubOf(m, r).(buf := b, whole := w))) {
      TableUpdate(cfg, m, r, m.cmds[r].(load := OfSub(SubOf(m, r).(buf := b, whole := w))));
    }
  }

  /** The page a read names, and the data it brings in. */
  lemma DataArrives(cfg: Config, m: Chip, r: nat)
    requires Inv(cfg, m) && m.phase == Idle && m.incompletedR == [r]
    ensures m.cmds[r].load.OfSub?
    ensures var s := SubOf(m, r);
            && s.lpn in m.store && s.loc in m.cells && s.loc in m.ages
            && Arrives(m, r, Overlay(s.buf, Transferred(s.bits), m.cells[s.loc]))
            && m.hw.phase == ReadAddr && m.hw.latch == s.loc
  {
    hide PlaneExact, PlaneShape, MapForward, MapBackward, Marked, Writes, Reads, RoomAt, EntriesShape, SubsShape,
         EraseOk, PlanesShape, Looked, Transferred, Holds, Firm;
    var s := SubOf(m, r);
    if m.cmds[r].related.Some? {
      FirmArrives(m.cells[s.loc], s.buf, s.bits, m.store[s.lpn]);
    } else {
      if m.ages[s.loc] == s.stamp { FirmArrives(m.cells[s.loc], s.buf, s.bits, s.host); }
      FetchedIs(m.cells[s.loc], s);
    }
  }

  lemma FetchedIs(cell: PageBuf, s: Sub)
    requires Within(s.bits)
    ensures forall w :: Written(cell, s.(buf := Overlay(s.buf, Transferred(s.bits), cell), whole := w))
  {
    WithinIs(s.bits);
    hide Transferred;
  }

  /** What a transfer brings in is all there is to bring. */
  lemma FirmArrives(cell: PageBuf, buf: PageBuf, bits: set<nat>, data: Data)
    requires data.Keys == bits && Firm(data) && Holds(cell, bits, data)
    ensures Holds(Overlay(buf, Transferred(bits), cell), bits, data)
  {
    hide Transferred;
  }

  /** The buffer `b` is what read `r` should bring: the page that is relocated, or what the
      host may expect, unless the page has been programmed again. */
  ghost predicate Arrives(m: Chip, r: nat, b: PageBuf)
    requires r in m.cmds && m.cmds[r].load.OfSub?
  {
    var s := SubOf(m, r);
    if m.cmds[r].related.Some? then s.lpn in m.store && Holds(b, s.bits, m.store[s.lpn])
    else
      && s.loc in m.ages && (m.ages[s.loc] == s.stamp ==> Holds(b, s.bits, s.host))
      && s.loc in m.cells && forall w :: Written(m.cells[s.loc], s.(buf := b, whole := w))
  }

  /** What the chip is doing does not matter to its shape. */
  lemma SameShape(cfg: Config, m: Chip, m': Chip)
    requires Shape(cfg, m) && m' == m.(phase := m'.phase, hw := m'.hw)
    ensures Shape(cfg, m')
  {
    hide PlanesShape, EntriesShape, TableShape, ListShape, SubsShape;
  }

  lemma SendDataKeeps(cfg: Config, m: Chip, r: nat)
    requires Inv(cfg, m) && m.phase == Idle && m.incompletedR == [r]
    ensures Inv(cfg, SendRead(cfg, m, r, true))
  {
    hide Inv, Shape, Arrives, Overlay, Transferred;
    DataArrives(cfg, m, r);
    HalfStage(cfg, m, r);
    DataShape(cfg, m, r, Overlay(SubOf(m, r).buf, Transferred(SubOf(m, r).bits), m.cells[SubOf(m, r).loc]));
    SameShape(cfg, PutSub(m, r, Fetched(m, r).cmds[r].load.sub), Fetched(m, r));
    DataKeeps(cfg, m, r);
  }

  /** The data half of read `r` has been sent. */
  function Fetched(m: Chip, r: nat): Chip
    requires r in m.cmds && m.cmds[r].load.OfSub?
  {
    var s := SubOf(m, r);
    if s.loc in m.cells && s.loc in m.ages then
      PutSub(m, r, s.(buf := Overlay(s.buf, Transferred(s.bits), m.cells[s.loc]), whole := m.ages[s.loc] == s.stamp))
        .(phase := ReadData, hw := Start(m.hw, ReadData, s.loc, m.cmds[r].id))
    else m
  }

  ghost predicate FetchDue(cfg: Config, m: Chip, r: nat) {
    && Inv(cfg, m) && m.phase == Idle && m.incompletedR == [r] && r in m.cmds && m.cmds[r].load.OfSub?
    && var s := SubOf(m, r);
       && s.loc in m.cells && s.loc in m.ages && Arrives(m, r, Overlay(s.buf, Transferred(s.bits), m.cells[s.loc]))
       && m.hw.phase == ReadAddr && m.hw.latch == s.loc
  }

  lemma FetchedIsSend(cfg: Config, m: Chip, r: nat)
    requires FetchDue(cfg, m, r)
    ensures Shape(cfg, m) && m.cmds[r].op == Read && SendRead(cfg, m, r, true) == Fetched(m, r)
  {
    HalfStage(cfg, m, r);
    hide Inv, Shape, Arrives, Overlay, Transferred;
  }

  lemma HalfStage(cfg: Config, m: Chip, r: nat)
    requires Inv(cfg, m) && m.phase == Idle && m.incompletedR == [r]
    ensures Shape(cfg, m) && r in m.cmds && m.cmds[r].stage == 1 && m.cmds[r].op == Read && m.commands == []
  {
    hide Exact, MapForward, MapBackward, Stored, Writes, Reads, Looked, Hosts, Burnt, EraseQueue, Marked, Collecting,
         Room, InStep, PlanesShape, EntriesShape, SubsShape;
  }

  lemma FetchedRest(cfg: Config, m: Chip, r: nat)
    requires FetchDue(cfg, m, r)
    ensures var m' := Fetched(m, r);
            && Queues(m') && Burnt(m') && InStep(m') && Room(cfg, m') && Burning(m') == Burning(m)
            && EraseQueue(cfg, m'.planes, m'.cmds, m'.erases) && Marked(m'.planes, m'.cmds, m'.erases)
  {
    hide Shape, Exact, MapForward, MapBackward, Stored, Writes, Reads, Looked, Hosts, EraseQueue, Marked, Collecting,
         RoomAt, Arrives, Overlay, Transferred;
    HalfStage(cfg, m, r);
    HalfNotErase(cfg, m, r);
    SameErases(cfg, m.planes, m.cmds, Fetched(m, r).cmds, m.erases);
  }

  lemma HalfNotErase(cfg: Config, m: Chip, r: nat)
    requires Inv(cfg, m) && m.incompletedR == [r]
    ensures forall i :: 0 <= i < |m.erases| ==> m.erases[i] in m.cmds && m.erases[i] != r
  {
    hide Exact, MapForward, MapBackward, Stored, Writes, Reads, Looked, Hosts, Burnt, EraseQueue, Marked, Collecting,
         Room, InStep, PlanesShape, EntriesShape, SubsShape, TableShape, Queues;
    assert m.cmds[m.incompletedR[0]].op == Read;
  }

  lemma FetchedHosts(cfg: Config, m: Chip, r: nat)
    requires FetchDue(cfg, m, r)
    ensures Hosts(cfg, Fetched(m, r))
  {
    hide Shape, Exact, MapForward, MapBackward, Stored, Writes, Reads, Looked, EraseQueue, Marked, Collecting,
         Room, Overlay, Transferred, Burnt, InStep, Holds, Written, ReadOk;
    HalfStage(cfg, m, r);
    SameRead(m, r, AllWrites(m));
  }

  lemma SameRead(m: Chip, r: nat, w: seq<Sub>)
    requires r in m.cmds && m.cmds[r].load.OfSub?
    ensures forall b, h :: ReadOk(SubOf(m, r).(buf := b, whole := h), w, m.store) == ReadOk(SubOf(m, r), w, m.store)
  {
    hide Within, Firm, Awaited;
  }

  lemma FetchedCollecting(cfg: Config, m: Chip, r: nat)
    requires FetchDue(cfg, m, r)
    ensures Collecting(cfg, Fetched(m, r))
  {
    hide Shape, Exact, MapForward, MapBackward, Stored, Writes, Reads, Looked, EraseQueue, Marked, Hosts, Room,
         Overlay, Transferred, Burnt, InStep, Holds, Written, Dead, Gone, Within;
    HalfStage(cfg, m, r);
    HalfNotErase(cfg, m, r);
  }

  lemma DataKeeps(cfg: Config, m: Chip, r: nat)
    requires FetchDue(cfg, m, r) && Shape(cfg, Fetched(m, r))
    ensures Inv(cfg, SendRead(cfg, m, r, true))
  {
    FetchedIsSend(cfg, m, r);
    FetchedRest(cfg, m, r);
    FetchedHosts(cfg, m, r);
    FetchedCollecting(cfg, m, r);
    hide Shape, Exact, MapForward, MapBackward, Stored, Writes, Reads, Looked, EraseQueue, Marked, Hosts, Room,
         Overlay, Transferred, Burnt, InStep, Collecting, Queues, Burning, SendRead;
  }
}
