/** Completing reads and erases, and the collection check, keep the invariant. */
module ChipFinish {
  import opened Flash
  import opened Layout
  import opened Sectors
  import opened Chip
  import opened ChipInv
  import opened ChipWrite

  // ---------------------------------------------------------------- reads

  ghost predicate AddrDone(cfg: Config, m: Chip) {
    Inv(cfg, m) && m.phase == ReadAddr && m.hw.signal && m.pending.None?
  }

  lemma AddrFacts(cfg: Config, m: Chip)
    requires AddrDone(cfg, m)
    ensures Shape(cfg, m) && |m.commands| == 1 && m.incompletedR == [] && EndIndex(m, EndQueue(m), m.hw.id) == 0
    ensures m.commands[0] in m.cmds && m.cmds[m.commands[0]].op == Read && m.cmds[m.commands[0]].load.OfSub?
    ensures forall i :: 0 <= i < |m.erases| ==> m.erases[i] in m.cmds && m.erases[i] != m.commands[0]
    ensures EraseQueue(cfg, m.planes, m.cmds, m.erases) && Marked(m.planes, m.cmds, m.erases)
  {
    hide PlaneExact, PlaneShape, MapForward, MapBackward, Stored, Writes, Reads, Room, EntriesShape, SubsShape,
         EraseQueue, Marked, EraseOk, PlanesShape, Within, Holds, Firm, Looked, Named, Collecting, Hosts;
  }

  lemma AddrShaped(cfg: Config, m: Chip)
    requires AddrDone(cfg, m)
    ensures Shape(cfg, m) && EndIndex(m, EndQueue(m), m.hw.id) < |EndQueue(m)|
    ensures var m' := Complete(cfg, m);
            Shape(cfg, m') && EraseQueue(cfg, m'.planes, m'.cmds, m'.erases) && Marked(m'.planes, m'.cmds, m'.erases)
  {
    hide PlaneExact, PlaneShape, MapForward, MapBackward, Stored, Writes, Reads, Room, EntriesShape, SubsShape,
         SubShape, EraseQueue, Marked, EraseOk, PlanesShape, Within, Holds, Firm, Looked, Named, Collecting, Hosts,
         InStep, Exact;
    AddrFacts(cfg, m);
    var m' := Complete(cfg, m);
    SameErases(cfg, m.planes, m.cmds, m'.cmds, m.erases);
  }

  lemma AddrRest(cfg: Config, m: Chip)
    requires AddrDone(cfg, m)
    ensures Shape(cfg, m) && EndIndex(m, EndQueue(m), m.hw.id) < |EndQueue(m)|
    ensures var m' := Complete(cfg, m);
            && Queues(m') && Hosts(cfg, m') && Burnt(m') && Collecting(cfg, m') && InStep(m') && Room(cfg, m')
            && Exact(cfg, m'.planes, Burning(m'))
  {
    hide PlaneExact, PlaneShape, MapForward, MapBackward, Stored, Writes, Reads, RoomAt, EntriesShape, SubsShape,
         EraseQueue, Marked, EraseOk, PlanesShape, Within, Holds, Firm, Looked, Named, SubShape, TableShape, ReadOk,
         ListShape;
    AddrFacts(cfg, m);
  }

  lemma EndReadAddrKeeps(cfg: Config, m: Chip)
    requires AddrDone(cfg, m)
    ensures Shape(cfg, m) && EndIndex(m, EndQueue(m), m.hw.id) < |EndQueue(m)|
    ensures Inv(cfg, Complete(cfg, m))
  {
    hide PlaneExact, PlaneShape, MapForward, MapBackward, Stored, Writes, Reads, Room, EntriesShape, SubsShape,
         EraseQueue, Marked, PlanesShape, Hosts, InStep, SubShape, Burnt, Exact, TableShape, Collecting, Queues,
         ListShape, Shape;
    AddrFacts(cfg, m);
    AddrShaped(cfg, m);
    AddrRest(cfg, m);
  }

  /** A write that has received its companion's sectors carries the whole page, as far as the
      companion found it. */
  lemma MergedReady(w: Sub, s: Sub, store: map<nat, Data>)
    requires Waiting(w, store) && Brings(s, store) && w.lpn == s.lpn
    ensures Ready(Merge(w, s), store)
  {
    hide Within;
    var d := Carried(Merge(w, s), store[s.lpn]);
    assert Merge(w, s).bits == store[s.lpn].Keys + w.host.Keys;
    forall i | i in d ensures i < SECTORS && (d[i].Some? ==> Merge(w, s).buf[i] == d[i].value) {
      if i in w.host { assert i in w.bits; } else { assert i in s.bits; }
    }
  }

  /** What a companion read brings to its write. */
  ghost predicate Brings(s: Sub, store: map<nat, Data>) {
    && s.lpn in store && s.bits == store[s.lpn].Keys && (forall i :: i in s.bits ==> i < SECTORS)
    && (s.whole ==> Holds(s.buf, s.bits, store[s.lpn]))
  }

  lemma MergedWrites(cfg: Config, w: seq<Sub>, s: Sub, store: map<nat, Data>)
    requires Writes(cfg, w, store) && SubsShape(cfg, w) && Brings(s, store)
    ensures Writes(cfg, MergeAll(w, s), store) && SubsShape(cfg, MergeAll(w, s))
  {
    hide Waiting, Ready, Brings, InRange;
    var w' := MergeAll(w, s);
    forall i | 0 <= i < |w'|
      ensures if w'[i].paired then Waiting(w'[i], store) else Ready(w'[i], store)
      ensures SubShape(cfg, w'[i])
    {
      assert SubShape(cfg, w[i]);
      if w[i].paired && w[i].lpn == s.lpn { MergedReady(w[i], s, store); UnpairedMerge(w[i], s); }
    }
  }

  lemma MergedBoth(q: seq<Sub>, h: seq<Sub>, s: Sub)
    ensures MergeAll(q, s) + MergeAll(h, s) == MergeAll(q + h, s)
  {
  }

  lemma UnpairedMerge(w: Sub, s: Sub)
    ensures !Merge(w, s).paired
  {
  }

  lemma MergedReads(q: seq<Sub>, w: seq<Sub>, s: Sub, store: map<nat, Data>)
    requires Reads(q, w, store)
    requires forall i :: 0 <= i < |q| && q[i].paired ==> q[i].lpn != s.lpn
    ensures Reads(q, MergeAll(w, s), store)
  {
    hide Within, Firm;
    var w' := MergeAll(w, s);
    forall i | 0 <= i < |q| ensures ReadOk(q[i], w', store) {
      assert ReadOk(q[i], w, store);
      if q[i].paired {
        var j :| 0 <= j < |w| && w[j].lpn == q[i].lpn && w[j].paired;
        assert w'[j] == w[j];
      }
    }
  }

  lemma ReadDataFacts(cfg: Config, m: Chip)
    requires Inv(cfg, m) && m.phase == ReadData && m.hw.signal && m.pending.None?
    ensures Shape(cfg, m) && m.commands == [] && |m.incompletedR| == 1 && EndIndex(m, EndQueue(m), m.hw.id) == 0
    ensures var r := m.incompletedR[0];
            && r in m.cmds && m.cmds[r].load.OfSub? && m.cmds[r].op == Read
            && (m.cmds[r].related.None? ==>
                 HostReadOk(SubOf(m, r), true, AllReads(m), AllWrites(m), m.cells, m.ages, m.store))
            && (forall i :: 0 <= i < |m.erases| ==> m.erases[i] in m.cmds && m.erases[i] != r)
            && (m.cmds[r].related.None? ==> forall i :: 0 <= i < |m.erases| ==> m.cmds[m.erases[i]].related.None?)
    ensures Writes(cfg, AllWrites(m), m.store) && Reads(AllReads(m), AllWrites(m), m.store)
    ensures Looked(AllReads(m), m.cells, m.ages)
    ensures EraseQueue(cfg, m.planes, m.cmds, m.erases) && Marked(m.planes, m.cmds, m.erases)
  {
    hide PlaneExact, PlaneShape, MapForward, MapBackward, Stored, Writes, Reads, RoomAt, EntriesShape, SubsShape,
         Marked, EraseOk, PlanesShape, Within, Holds, Firm, Looked, Named, Moving, Dead;
  }

  lemma CompanionBrings(s: Sub, q: seq<Sub>, w: seq<Sub>, cells: map<Loc, PageBuf>, ages: map<Loc, nat>,
        store: map<nat, Data>)
    requires s.paired && HostReadOk(s, true, q, w, cells, ages, store)
    ensures Brings(s, store) && forall i :: 0 <= i < |q| && q[i].paired ==> q[i].lpn != s.lpn
  {
    hide Holds, Firm, Awaited;
  }

  lemma DataQueues(cfg: Config, m: Chip)
    requires Inv(cfg, m) && m.phase == ReadData && m.hw.signal && m.pending.None?
    ensures Shape(cfg, m) && EndIndex(m, EndQueue(m), m.hw.id) < |EndQueue(m)|
    ensures var m' := Complete(cfg, m);
            && Writes(cfg, AllWrites(m'), m'.store) && Reads(AllReads(m'), AllWrites(m'), m'.store)
            && Looked(AllReads(m'), m'.cells, m'.ages) && SubsShape(cfg, AllWrites(m')) && AllReads(m') == AllReads(m)
            && EraseQueue(cfg, m'.planes, m'.cmds, m'.erases) && Marked(m'.planes, m'.cmds, m'.erases)
  {
    hide Inv, PlaneExact, PlaneShape, Writes, Reads, EntriesShape, EraseQueue, Marked, EraseOk, PlanesShape, Within,
         Holds, SubsShape, TableShape;
    ReadDataFacts(cfg, m);
    var r := m.incompletedR[0];
    if m.cmds[r].related.None? && SubOf(m, r).paired {
      CompanionBrings(SubOf(m, r), AllReads(m), AllWrites(m), m.cells, m.ages, m.store);
      MergedBoth(m.wQueue, m.wHand, SubOf(m, r));
      MergedWrites(cfg, AllWrites(m), SubOf(m, r), m.store);
      MergedReads(AllReads(m), AllWrites(m), SubOf(m, r), m.store);
    }
    SameErases(cfg, m.planes, m.cmds, Complete(cfg, m).cmds, m.erases);
  }

  lemma DataShaped(cfg: Config, m: Chip)
    requires Inv(cfg, m) && m.phase == ReadData && m.hw.signal && m.pending.None?
    ensures Shape(cfg, m) && EndIndex(m, EndQueue(m), m.hw.id) < |EndQueue(m)|
    ensures Shape(cfg, Complete(cfg, m))
  {
    hide Inv, PlaneExact, MapForward, MapBackward, Stored, Writes, Reads, Looked, EntriesShape, SubsShape, Marked,
         EraseQueue, PlanesShape, SubShape, HostReadOk, MergeAll, AllReads, AllWrites, TableShape, ListShape;
    ReadDataFacts(cfg, m);
    DataQueues(cfg, m);
    DataTables(cfg, m);
  }

  /** The finished read leaves its queue, and the table or not. */
  lemma DataTables(cfg: Config, m: Chip)
    requires Inv(cfg, m) && m.phase == ReadData && m.hw.signal && m.pending.None?
    ensures Shape(cfg, m) && EndIndex(m, EndQueue(m), m.hw.id) < |EndQueue(m)|
    ensures var m' := Complete(cfg, m);
            TableShape(cfg, m'.cmds, m'.nextRef) && ListShape(m'.cmds, m'.commands, m'.incompletedR, m'.erases)
  {
    hide Inv, PlaneExact, MapForward, MapBackward, Stored, Writes, Reads, Looked, EntriesShape, SubsShape, Marked,
         EraseQueue, PlanesShape, SubShape, HostReadOk, MergeAll, AllReads, AllWrites, EndReadData;
    ReadDataFacts(cfg, m);
    var r := m.incompletedR[0];
    RetireTables(cfg, m, r);
    EndDataIs(cfg, m);
  }

  lemma EndDataIs(cfg: Config, m: Chip)
    requires Shape(cfg, m) && |m.incompletedR| == 1 && m.incompletedR[0] in m.cmds
    ensures var m' := EndReadData(cfg, m, 0);
            && m'.cmds == Retire(m, m.incompletedR[0]).cmds && m'.nextRef == m.nextRef
            && m'.commands == m.commands && m'.incompletedR == [] && m'.erases == m.erases
  {
    hide Shape, MergeAll;
  }

  lemma RetireTables(cfg: Config, m: Chip, r: nat)
    requires TableShape(cfg, m.cmds, m.nextRef) && ListShape(m.cmds, m.commands, m.incompletedR, m.erases)
    requires r in m.cmds && m.cmds[r].op != Erase && m.commands == []
    requires m.cmds[r].related.None? ==> forall i :: 0 <= i < |m.erases| ==> m.cmds[m.erases[i]].related.None?
    ensures var m' := Retire(m, r);
            TableShape(cfg, m'.cmds, m'.nextRef) && ListShape(m'.cmds, m'.commands, [], m'.erases)
  {
    hide CommandShape;
    assert CommandShape(cfg, m.cmds[r]);
    RetiredShape(cfg, m.cmds[r]);
  }

  lemma RetiredShape(cfg: Config, c: Command)
    requires CommandShape(cfg, c)
    ensures CommandShape(cfg, c.(completed := true))
  {
  }

  lemma DataRest(cfg: Config, m: Chip)
    requires Inv(cfg, m) && m.phase == ReadData && m.hw.signal && m.pending.None?
    ensures Shape(cfg, m) && EndIndex(m, EndQueue(m), m.hw.id) < |EndQueue(m)|
    ensures var m' := Complete(cfg, m);
            && Queues(m') && Hosts(cfg, m') && Burnt(m') && InStep(m') && Room(cfg, m')
            && Exact(cfg, m'.planes, Burning(m'))
  {
    hide PlaneExact, PlaneShape, MapForward, MapBackward, Stored, Writes, Reads, RoomAt, EntriesShape, SubsShape,
         EraseQueue, Marked, EraseOk, PlanesShape, Within, Holds, Firm, Looked, Named, SubShape, MergeAll, TableShape,
         Collecting, HostReadOk, AllReads, AllWrites, ListShape;
    ReadDataFacts(cfg, m);
  }

  lemma DataCollecting(cfg: Config, m: Chip)
    requires Inv(cfg, m) && m.phase == ReadData && m.hw.signal && m.pending.None?
    ensures Shape(cfg, m) && EndIndex(m, EndQueue(m), m.hw.id) < |EndQueue(m)|
    ensures Collecting(cfg, Complete(cfg, m))
  {
    hide Exact, Stored, Hosts, Room, InStep, Burnt, Marked, Writes, Reads, Looked, Collecting, EraseOk, PlanesShape,
         EntriesShape, SubsShape, AllReads, AllWrites, MergeAll, TableShape;
    ReadDataFacts(cfg, m);
    RetiredCollecting(cfg, m, Complete(cfg, m));
  }

  lemma RetiredCollecting(cfg: Config, m: Chip, m': Chip)
    requires Collecting(cfg, m) && m.phase == ReadData && m.commands == [] && |m.incompletedR| == 1
    requires m.incompletedR[0] in m.cmds && m.incompletedR[0] !in m.erases && m.cmds[m.incompletedR[0]].op == Read
    requires m'.phase == Idle && m'.commands == [] && m'.incompletedR == [] && m'.erases == m.erases
    requires m'.planes == m.planes && m'.entries == m.entries && m'.store == m.store
    requires m'.cmds == Retire(m, m.incompletedR[0]).cmds
    ensures Collecting(cfg, m')
  {
    hide Holds, Within, Gone, Dead;
  }

  lemma EndReadDataKeeps(cfg: Config, m: Chip)
    requires Inv(cfg, m) && m.phase == ReadData && m.hw.signal && m.pending.None?
    ensures Shape(cfg, m) && EndIndex(m, EndQueue(m), m.hw.id) < |EndQueue(m)|
    ensures Inv(cfg, Complete(cfg, m))
  {
    hide PlaneExact, PlaneShape, MapForward, MapBackward, Stored, Writes, Reads, Room, EntriesShape, SubsShape,
         EraseQueue, Marked, PlanesShape, Hosts, InStep, SubShape, MergeAll, Burnt, Exact, TableShape, Collecting,
         Queues, ListShape, Shape;
    ReadDataFacts(cfg, m);
    DataQueues(cfg, m);
    DataShaped(cfg, m);
    DataCollecting(cfg, m);
    DataRest(cfg, m);
  }
}
