/** Taking a waiting sub-request of the host, and dispatch as a whole. */
module ChipTake {
  import opened Flash
  import opened Layout
  import opened Lists
  import opened Sectors
  import opened Chip
  import opened ChipInv
  import opened ChipWrite
  import opened ChipRead
  import opened ChipDispatch

  /** A chip on which a host command may go out. */
  ghost predicate Free(cfg: Config, m: Chip) {
    && Inv(cfg, m) && m.phase == Idle && m.incompletedR == [] && m.erases == []
    && (cfg.split || m.pending.None?)
  }

  lemma {:induction false} CapOfOne(n: nat)
    ensures Cap(n, 1) == n
  {
    if n > 0 { CapOfOne(n - 1); }
  }

  /** A plane that is not being collected has room for one more host write. */
  lemma HostRoom(cfg: Config, a: PlaneAddr, pl: Plane, pending: bool)
    requires Roomy(cfg) && a in cfg.addrs && !pl.eraseUsed && (pending ==> cfg.split)
    requires RoomAt(cfg, pl, false, false, pending)
    ensures Ample(cfg, pl)
  {
    CapOfOne(cfg.blocks);
  }

  lemma FreeFacts(cfg: Config, m: Chip)
    requires Free(cfg, m)
    ensures m.planes.Keys == cfg.addrs && m.commands == [] && Burning(m).None? && Exact(cfg, m.planes, None)
    ensures m.hw.phase == Idle && !m.hw.timer && !m.hw.signal
    ensures forall a :: a in m.planes ==>
            RoomAt(cfg, m.planes[a], false, false, m.pending == Some(a)) && !m.planes[a].eraseUsed
  {
    hide PlaneExact, PlaneShape, MapForward, MapBackward, Stored, Writes, Reads, RoomAt, EntriesShape, SubsShape,
         Within, ReadOk, Dead, Moving, Hosts, SubShape, EraseOk, TableShape, ListShape, EraseQueue;
  }

  lemma EnqueueTable(cfg: Config, m: Chip, op: Op, s: Sub, id: nat)
    requires TableShape(cfg, m.cmds, m.nextRef) && ListShape(m.cmds, m.commands, m.incompletedR, m.erases)
    requires op != Erase && SubShape(cfg, s) && m.erases == [] && m.incompletedR == []
    ensures var m' := Enqueue(m, op, s, id);
            TableShape(cfg, m'.cmds, m'.nextRef) && ListShape(m'.cmds, m'.commands, m'.incompletedR, m'.erases)
  {
    hide SubShape;
  }

  /** Reads without the first of them. */
  lemma WithoutFirst(q: seq<Sub>, h: seq<Sub>, w: seq<Sub>, cells: map<Loc, PageBuf>, ages: map<Loc, nat>,
        store: map<nat, Data>)
    requires q != [] && Reads(q + h, w, store) && Looked(q + h, cells, ages)
    ensures Reads(q[1..] + h, w, store) && Looked(q[1..] + h, cells, ages)
    ensures HostReadOk(q[0], false, q[1..] + h, w, cells, ages, store)
  {
    hide ReadOk, Named;
    assert (q + h)[1..] == q[1..] + h;
    assert (q + h)[0] == q[0];
    hide Without;
    FirstOf(q + h, w, cells, ages, store);
  }

  lemma FirstOf(q: seq<Sub>, w: seq<Sub>, cells: map<Loc, PageBuf>, ages: map<Loc, nat>, store: map<nat, Data>)
    requires q != [] && Reads(q, w, store) && Looked(q, cells, ages)
    ensures Reads(q[1..], w, store) && Looked(q[1..], cells, ages)
    ensures HostReadOk(q[0], false, q[1..], w, cells, ages, store)
  {
    hide Within, Firm, Awaited, Holds;
    assert ReadOk(q[0], w, store);
    assert Named(q[0], cells, ages);
  }

  lemma WithoutFirstShape(cfg: Config, q: seq<Sub>, h: seq<Sub>)
    requires q != [] && SubsShape(cfg, q + h)
    ensures SubShape(cfg, q[0]) && SubsShape(cfg, q[1..] + h)
  {
    hide SubShape;
    assert (q + h)[1..] == q[1..] + h;
    assert (q + h)[0] == q[0];
  }

  lemma TakeRead(cfg: Config, m: Chip, id: nat)
    requires Free(cfg, m) && m.rQueue != []
    ensures var (m', r) := TakeHost(cfg, m, id); r == Some(m.nextRef) && PoisedRead(cfg, m', m.nextRef)
  {
    hide PlaneExact, PlaneShape, MapForward, MapBackward, Writes, Reads, Looked, RoomAt, PlanesShape, Exact,
         TableShape, ListShape, SubShape, SubsShape, Dead, Moving, Hosts, EraseOk, EraseQueue, Marked, Collecting,
         Stored, HostReadOk, EntriesShape;
    FreeFacts(cfg, m);
    var m' := TakeHost(cfg, m, id).0;
    WithoutFirstShape(cfg, m.rQueue, m.rHand);
    WithoutFirst(m.rQueue, m.rHand, AllWrites(m), m.cells, m.ages, m.store);
    EnqueueTable(cfg, m.(rQueue := m.rQueue[1..]), Read, m.rQueue[0], id);
    TakeErases(cfg, m, m'.cmds);
  }

  /** With no erase queued, the erase queue looks at no command. */
  lemma TakeErases(cfg: Config, m: Chip, cmds': map<nat, Command>)
    requires EraseQueue(cfg, m.planes, m.cmds, m.erases) && Marked(m.planes, m.cmds, m.erases) && m.erases == []
    ensures EraseQueue(cfg, m.planes, cmds', m.erases) && Marked(m.planes, cmds', m.erases)
  {
  }

  lemma TakeWrite(cfg: Config, m: Chip, id: nat)
    requires Roomy(cfg) && Free(cfg, m) && m.rQueue == [] && FirstReady(m.wQueue) < |m.wQueue|
    ensures var (m', r) := TakeHost(cfg, m, id); r == Some(m.nextRef) && Poised(cfg, m', m.nextRef)
  {
    hide PlaneExact, PlaneShape, MapForward, MapBackward, Writes, Reads, Looked, RoomAt, PlanesShape, Exact,
         TableShape, ListShape, SubShape, SubsShape, Dead, Moving, Hosts, EraseOk, EraseQueue, Marked, Collecting,
         Stored, EntriesShape, Roomy, Ready, Without, Ample, Within, HostWriteOk;
    FreeFacts(cfg, m);
    var k := FirstReady(m.wQueue);
    var s := m.wQueue[k];
    var m' := TakeHost(cfg, m, id).0;
    WithoutWrite(cfg, m.wQueue, m.wHand, AllReads(m), m.store, k);
    ReadyFacts(cfg, m, s);
    HostRoom(cfg, s.loc.at, m.planes[s.loc.at], m.pending == Some(s.loc.at));
    EnqueueTable(cfg, m.(wQueue := Without(m.wQueue, k)), Write, s, id);
    TakeErases(cfg, m, m'.cmds);
  }

  lemma ReadyFacts(cfg: Config, m: Chip, s: Sub)
    requires SubShape(cfg, s) && HostWriteOk(cfg, s, [], m.store) && PlanesShape(cfg, m.planes)
    ensures Within(s.bits) && s.loc.at in m.planes && s.loc.at in cfg.addrs
  {
    hide Within, Holds, PlaneShape;
  }

  /** A ready write taken out of the queue leaves the writes in order, and is alone on its page;
      the reads that are awaited still are. */
  lemma WithoutWrite(cfg: Config, q: seq<Sub>, h: seq<Sub>, r: seq<Sub>, store: map<nat, Data>, k: nat)
    requires k < |q| && !q[k].paired && Writes(cfg, q + h, store) && SubsShape(cfg, q + h) && Reads(r, q + h, store)
    ensures Writes(cfg, Without(q, k) + h, store) && SubsShape(cfg, Without(q, k) + h)
    ensures Reads(r, Without(q, k) + h, store) && SubShape(cfg, q[k])
    ensures HostWriteOk(cfg, q[k], Without(q, k) + h, store) && HostWriteOk(cfg, q[k], [], store)
  {
    hide Writes, SubsShape, Reads, SubShape, HostWriteOk;
    assert Without(q + h, k) == Without(q, k) + h;
    assert (q + h)[k] == q[k];
    WithoutOne(cfg, q + h, store, k);
    WithoutAwaited(r, q + h, store, k);
  }

  lemma WithoutOne(cfg: Config, q: seq<Sub>, store: map<nat, Data>, k: nat)
    requires k < |q| && !q[k].paired && Writes(cfg, q, store) && SubsShape(cfg, q)
    ensures Writes(cfg, Without(q, k), store) && SubsShape(cfg, Without(q, k)) && SubShape(cfg, q[k])
    ensures HostWriteOk(cfg, q[k], Without(q, k), store) && HostWriteOk(cfg, q[k], [], store)
  {
    hide Ready, Waiting, SubShape;
    var q' := Without(q, k);
    assert forall i :: 0 <= i < |q'| ==> q'[i] == q[if i < k then i else i + 1];
  }

  lemma WithoutAwaited(r: seq<Sub>, q: seq<Sub>, store: map<nat, Data>, k: nat)
    requires k < |q| && !q[k].paired && Reads(r, q, store)
    ensures Reads(r, Without(q, k), store)
  {
    hide Within, Firm;
    var q' := Without(q, k);
    forall i | 0 <= i < |r| ensures ReadOk(r[i], q', store) {
      assert ReadOk(r[i], q, store);
      if r[i].paired {
        var j :| 0 <= j < |q| && q[j].lpn == r[i].lpn && q[j].paired;
        assert q'[if j < k then j else j - 1] == q[j];
      }
    }
  }

  // ---------------------------------------------------------------- dispatch

  /** A chip about to send command `r`, whatever its kind. */
  ghost predicate AnyPoised(cfg: Config, m: Chip, r: nat) {
    || Poised(cfg, m, r)
    || PoisedRead(cfg, m, r)
    || (PoisedErase(cfg, m) && r == m.erases[0])
  }

  lemma PoisedKeeps(cfg: Config, m: Chip, r: nat, junk: seq<PageBuf>)
    requires AnyPoised(cfg, m, r)
    ensures Shape(cfg, m) && r in m.cmds && Inv(cfg, Send(cfg, m, r, junk, true))
  {
    hide Inv, Exact, MapForward, MapBackward, Stored, Writes, Reads, EraseQueue, Marked, RoomAt, Moving, HostWriteOk,
         HostReadOk, Dead, TableShape, EntriesShape, PlanesShape, SubsShape;
    if Poised(cfg, m, r) {
      SendWriteKeeps(cfg, m, r);
    } else if PoisedRead(cfg, m, r) {
      SendReadKeeps(cfg, m, r);
    } else {
      SendEraseKeeps(cfg, m, junk);
    }
  }

  /** When the collector may look, its last relocation step has completed. */
  lemma RelatedDone(cfg: Config, m: Chip)
    requires Visiting(cfg, m)
    ensures m.erases[0] in m.cmds
    ensures var r := m.cmds[m.erases[0]].related;
            r.Some? ==> r.value in m.cmds && m.cmds[r.value].completed && m.cmds[r.value].op != Erase
  {
    hide Exact, MapForward, MapBackward, Stored, Writes, Reads, EraseQueue, Marked, RoomAt, Moving, Dead, TableShape,
         EntriesShape, PlanesShape, SubsShape;
  }

  lemma StaleVictim(cfg: Config, m: Chip)
    requires Visiting(cfg, m) && m.erases[0] in m.cmds && m.cmds[m.erases[0]].op == Erase
    requires m.cmds[m.erases[0]].related.None?
    requires Shape(cfg, m) && VictimBlock(m, m.erases[0]).cnt.invalid == cfg.pages
    ensures PoisedErase(cfg, m)
  {
    hide Exact, MapForward, MapBackward, Stored, Writes, Reads, Marked, RoomAt, Moving, PlaneExact, PlaneShape,
         TableShape, EntriesShape, SubsShape, Hosts;
    VisitFacts(cfg, m);
    var pl := m.planes[m.cmds[m.erases[0]].load.at];
    PlaneFit(cfg, pl);
    BlockOfPlane(cfg, pl, pl.eraseBlock);
    AllStale(cfg.pages, pl.blocks[pl.eraseBlock], BusyIn(NoCell, pl.eraseBlock));
  }

  lemma BlockOfPlane(cfg: Config, pl: Plane, b: nat)
    requires PlaneExact(cfg.blocks, cfg.pages, pl, NoCell) && b < cfg.blocks
    ensures |pl.blocks| == cfg.blocks && BlockExact(cfg.pages, pl.blocks[b], BusyIn(NoCell, b))
    ensures |pl.blocks[b].pages| == cfg.pages
  {
  }

  /** What one visit of the collector does. */
  datatype Visit = Turns(g: nat) | Finds | Releases | Starts(k: nat)

  /** The four outcomes of a visit: the read of a relocation is turned into its write, the victim
      is found to be stale, the erase is released, or the next live page is read. */
  lemma VisitCase(cfg: Config, m: Chip, id: nat, scratch: PageBuf) returns (v: Visit)
    requires Visiting(cfg, m)
    ensures Shape(cfg, m) && m.erases[0] in m.cmds && m.cmds[m.erases[0]].stage <= cfg.pages
    ensures m.erases != [] && m.cmds[m.erases[0]].op == Erase && VictimBlock.requires(m, m.erases[0])
    ensures |VictimBlock(m, m.erases[0]).pages| == cfg.pages
    ensures var e := m.erases[0]; var c := m.cmds[e]; var got := GetCommand(cfg, m, id, scratch);
            match v
            case Turns(g) =>
              && c.related == Some(g) && g != e && g in m.cmds && m.cmds[g].completed && m.cmds[g].op == Read
              && got == (Rewrite(m, g, id), Some(g))
            case Finds => c.related.None? && VictimBlock(m, e).cnt.invalid == cfg.pages && got == (m, Some(e))
            case Releases => Spent(m) && got == (Release(m, e), Some(e))
            case Starts(k) =>
              && NextUp(m, k) && k < cfg.pages
              && (c.related.Some? ==>
                    && c.related.value != e && c.related.value in m.cmds
                    && m.cmds[c.related.value].completed && m.cmds[c.related.value].op == Write)
              && got == (Reread(cfg, m, e, k, id, scratch), Some(Reread(cfg, m, e, k, id, scratch).commands[0]))
  {
    hide PlaneExact, PlaneShape, Exact, EraseOk, RoomAt, Inv;
    VisitFacts(cfg, m);
    VisitShape(cfg, m);
    hide Visiting, Shape;
    var e := m.erases[0];
    var c := m.cmds[e];
    RelatedDone(cfg, m);
    PlaneFit(cfg, m.planes[c.load.at]);
    VisitGot(cfg, m, id, scratch);
    hide Rewrite, Release, GetCommand, Reread;
    if c.related.Some? && m.cmds[c.related.value].op == Read {
      v := Turns(c.related.value);
      RewriteFirst(m, c.related.value, id);
    } else if c.related.None? && VictimBlock(m, e).cnt.invalid == cfg.pages {
      v := Finds;
    } else {
      var k := NextLive(VictimBlock(m, e).pages, c.stage);
      if k == cfg.pages {
        v := Releases;
        ReleaseFirst(m, e);
      } else {
        v := Starts(k);
        RereadFirst(cfg, m, e, k, id, scratch);
      }
    }
  }

  /** A visit answers the erase, or the relocation it has queued. */
  lemma VisitGot(cfg: Config, m: Chip, id: nat, scratch: PageBuf)
    requires Shape(cfg, m) && m.erases != [] && m.erases[0] in m.cmds && m.cmds[m.erases[0]].stage <= cfg.pages
    requires m.incompletedR == []
    ensures var (m1, go) := ForErase(cfg, m, m.erases[0], id, scratch);
            go || m1.commands != [] ==>
              GetCommand(cfg, m, id, scratch) == (m1, Some(if go then m.erases[0] else m1.commands[0]))
  {
    hide Shape, ForErase, TakeHost;
  }

  lemma RereadFirst(cfg: Config, m: Chip, e: nat, k: nat, id: nat, scratch: PageBuf)
    requires Reread.requires(cfg, m, e, k, id, scratch)
    ensures Reread(cfg, m, e, k, id, scratch).commands != []
  {
    hide Shape;
  }

  lemma RewriteFirst(m: Chip, g: nat, id: nat)
    requires g in m.cmds && m.commands == []
    ensures Rewrite(m, g, id).commands == [g]
  {
  }

  lemma ReleaseFirst(m: Chip, e: nat)
    requires Release.requires(m, e)
    ensures Release(m, e).erases == m.erases
  {
  }

  /** The collector's visit always finds something to send. */
  lemma VisitPoised(cfg: Config, m: Chip, id: nat, scratch: PageBuf)
    requires Roomy(cfg) && Visiting(cfg, m)
    ensures Shape(cfg, m) && m.erases[0] in m.cmds && m.cmds[m.erases[0]].stage <= cfg.pages
    ensures var (m1, r) := GetCommand(cfg, m, id, scratch); r.Some? && AnyPoised(cfg, m1, r.value)
  {
    hide Roomy, PoisedErase, Poised, PoisedRead, Inv, Shape, Visiting, GetCommand, Reread, Release, Rewrite;
    var v := VisitCase(cfg, m, id, scratch);
    match v {
      case Turns(g) => VisitRewrite(cfg, m, id);
      case Finds => StaleVictim(cfg, m);
      case Releases => VisitRelease(cfg, m); ReleaseFirst(m, m.erases[0]);
      case Starts(k) => StartedPoised(cfg, m, k, id, scratch);
    }
  }

  lemma StartedPoised(cfg: Config, m: Chip, k: nat, id: nat, scratch: PageBuf)
    requires Visiting(cfg, m) && NextUp(m, k)
    requires var r := m.cmds[m.erases[0]].related; r.Some? && r.value in m.cmds ==> m.cmds[r.value].completed
    ensures Shape(cfg, m) && m.erases[0] in m.cmds && m.cmds[m.erases[0]].op == Erase
    ensures VictimBlock.requires(m, m.erases[0]) && k < |VictimBlock(m, m.erases[0]).pages|
    ensures var m' := Reread(cfg, m, m.erases[0], k, id, scratch);
            m'.commands != [] && AnyPoised(cfg, m', m'.commands[0])
  {
    hide PoisedRead, Poised, PoisedErase, Inv, Shape, Reread, PlaneExact, Exact, RoomAt, EraseOk;
    VisitShape(cfg, m);
    VisitReread(cfg, m, k, id, scratch);
    hide Visiting;
  }

  lemma PlaneFit(cfg: Config, pl: Plane)
    requires PlaneShape(cfg, pl)
    ensures pl.eraseBlock < |pl.blocks| == cfg.blocks && |pl.blocks[pl.eraseBlock].pages| == cfg.pages
  {
  }

  /** Dispatch may happen: the chip is idle and, unless steps may slip in between, no
      collection check is outstanding. */
  predicate MayDispatch(cfg: Config, m: Chip) {
    m.phase == Idle && (cfg.split || m.pending.None?)
  }

  lemma DispatchDefined(cfg: Config, m: Chip, id: nat, scratch: PageBuf)
    requires Roomy(cfg) && Inv(cfg, m) && MayDispatch(cfg, m)
    ensures m.erases != [] ==> m.erases[0] in m.cmds && m.cmds[m.erases[0]].stage <= cfg.pages
    ensures Shape(cfg, m) && |m.incompletedR| <= 1
    ensures var (m1, r) := GetCommand(cfg, m, id, scratch);
            if r.None? then m1 == m
            else if m.incompletedR != [] then m1 == m && m.incompletedR == [r.value]
            else AnyPoised(cfg, m1, r.value)
  {
    hide Inv, Roomy, Shape, AnyPoised, ForErase, TakeHost;
    IdleFacts(cfg, m);
    if m.incompletedR == [] {
      if m.erases != [] {
        VisitPoised(cfg, m, id, scratch);
      } else {
        TakePoised(cfg, m, id);
      }
    }
  }

  lemma TakePoised(cfg: Config, m: Chip, id: nat)
    requires Roomy(cfg) && Free(cfg, m)
    ensures Shape(cfg, m)
    ensures var (m1, r) := TakeHost(cfg, m, id); if r.None? then m1 == m else AnyPoised(cfg, m1, r.value)
  {
    hide Inv, Roomy, Shape, AnyPoised, Poised, PoisedRead;
    IdleFacts(cfg, m);
    if m.rQueue != [] {
      TakeRead(cfg, m, id);
    } else if FirstReady(m.wQueue) < |m.wQueue| {
      TakeWrite(cfg, m, id);
    }
    AnyPoisedIs(cfg, TakeHost(cfg, m, id).0, m.nextRef);
  }

  lemma AnyPoisedIs(cfg: Config, m: Chip, r: nat)
    ensures Poised(cfg, m, r) || PoisedRead(cfg, m, r) ==> AnyPoised(cfg, m, r)
  {
    hide Poised, PoisedRead;
  }

  lemma IdleFacts(cfg: Config, m: Chip)
    requires Inv(cfg, m) && m.phase == Idle
    ensures Shape(cfg, m) && m.commands == [] && |m.incompletedR| <= 1
    ensures m.erases != [] ==>
            m.erases[0] in m.cmds && m.cmds[m.erases[0]].op == Erase && m.cmds[m.erases[0]].stage <= cfg.pages
  {
    hide Exact, MapForward, MapBackward, Stored, Writes, Reads, Marked, Room, Hosts, Collecting, InStep, PlaneShape,
         TableShape, EntriesShape, SubsShape;
    if m.erases != [] { assert EraseOk(cfg, m.planes, m.cmds[m.erases[0]]); }
  }

  lemma DispatchKeeps(cfg: Config, m: Chip, id: nat, scratch: PageBuf, junk: seq<PageBuf>)
    requires Roomy(cfg) && Inv(cfg, m) && MayDispatch(cfg, m)
    ensures Shape(cfg, m)
    ensures m.erases != [] ==> m.erases[0] in m.cmds && m.cmds[m.erases[0]].stage <= cfg.pages
    ensures var (m1, r) := GetCommand(cfg, m, id, scratch); r.Some? ==> Shape(cfg, m1) && r.value in m1.cmds
    ensures Inv(cfg, Dispatch(cfg, m, id, scratch, junk, true))
  {
    DispatchDefined(cfg, m, id, scratch);
    var (m1, r) := GetCommand(cfg, m, id, scratch);
    if r.Some? {
      if m.incompletedR != [] {
        DataSend(cfg, m, r.value, junk);
      } else {
        PoisedKeeps(cfg, m1, r.value, junk);
      }
    }
    hide *;
  }

  lemma DataSend(cfg: Config, m: Chip, r: nat, junk: seq<PageBuf>)
    requires Inv(cfg, m) && m.phase == Idle && m.incompletedR == [r]
    ensures Shape(cfg, m) && r in m.cmds && Inv(cfg, Send(cfg, m, r, junk, true))
  {
    SendDataKeeps(cfg, m, r);
    hide Exact, MapForward, MapBackward, Stored, Writes, Reads, EraseQueue, Marked, Room, Moving, Hosts, Dead,
         TableShape, EntriesShape, PlanesShape, SubsShape, Collecting, SendRead, InStep;
  }
}
