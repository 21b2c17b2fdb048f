/** Submissions and the NAND timer keep the invariant. */
module ChipHost {
  import opened Flash
  import opened Layout
  import opened Sectors
  import opened Chip
  import opened ChipInv

  /** A host write of page `l` is made, queued or out. */
  predicate Outstanding(m: Chip, l: nat) {
    || (exists i :: 0 <= i < |AllWrites(m)| && AllWrites(m)[i].lpn == l)
    || (m.phase == Programming && HostOut(m).Some? && HostOut(m).value.lpn == l)
  }

  /** The host keeps one write per page outstanding. */
  ghost predicate MayWrite(cfg: Config, m: Chip, l: nat, bits: set<nat>) {
    l in cfg.homes && l in m.entries && !Outstanding(m, l) && Within(bits)
  }

  /** Reads are of pages that are mapped. */
  ghost predicate MayRead(cfg: Config, m: Chip, l: nat, bits: set<nat>) {
    l in cfg.homes && l in m.entries && m.entries[l].subPage != {} && Within(bits)
  }

  lemma HostDataKeys(bits: set<nat>, buf: PageBuf)
    requires Within(bits)
    ensures HostData(bits, buf).Keys == bits && Holds(buf, bits, HostData(bits, buf)) && Present(HostData(bits, buf))
  {
  }

  lemma NewWrite(m: Chip, l: nat, bits: set<nat>, buf: PageBuf, loc: Loc)
    requires l in m.entries && l in m.store && m.store[l].Keys == m.entries[l].subPage
    requires Within(bits) && (m.entries[l].subPage != {} ==> Within(m.entries[l].subPage))
    ensures var waits := !(m.entries[l].subPage <= bits);
            var w := Sub(l, bits, buf, loc, waits, HostData(bits, buf), 0, true);
            if waits then Waiting(w, m.store) else Ready(w, m.store)
  {
    HostDataKeys(bits, buf);
    var host := HostData(bits, buf);
    assert Within(m.store[l].Keys + host.Keys);
    if m.entries[l].subPage <= bits {
      assert m.entries[l].subPage + bits == bits;
      assert forall i :: i in bits ==> (m.store[l] + host)[i] == host[i];
    }
  }

  /** What a read is made with: the page the map names holds what it may expect. */
  lemma ReadForIs(m: Chip, l: nat, bits: set<nat>, scratch: PageBuf, paired: bool)
    requires Stored(m.entries, m.cells, m.store) && l in m.entries && m.entries[l].subPage != {} && Within(bits)
    requires m.entries[l].loc in m.ages
    ensures l in m.store
    ensures var s := ReadFor(m, l, bits, scratch, paired);
            && Within(s.bits) && s.host.Keys == s.bits && Firm(s.host) && Named(s, m.cells, m.ages)
            && (bits == m.entries[l].subPage ==> s.host == m.store[l])
  {
    hide Transferred;
  }

  lemma WriteQueueGrows(cfg: Config, q: seq<Sub>, w: Sub, store: map<nat, Data>)
    requires Writes(cfg, q, store) && (if w.paired then Waiting(w, store) else Ready(w, store))
    requires w.lpn in cfg.homes && w.loc.at == cfg.homes[w.lpn]
    requires forall i :: 0 <= i < |q| ==> q[i].lpn != w.lpn
    ensures Writes(cfg, q + [w], store)
  {
    hide Waiting, Ready;
  }

  lemma ReadQueueGrows(q: seq<Sub>, s: Sub, w: seq<Sub>, store: map<nat, Data>)
    requires Reads(q, w, store) && ReadOk(s, w, store)
    requires s.paired ==> forall i :: 0 <= i < |q| && q[i].paired ==> q[i].lpn != s.lpn
    ensures Reads(q + [s], w, store)
  {
    hide ReadOk;
  }

  lemma MoreAwaited(w: seq<Sub>, n: Sub, l: nat)
    ensures Awaited(w, l) ==> Awaited(w + [n], l)
    ensures n.paired && n.lpn == l ==> Awaited(w + [n], l)
  {
    if Awaited(w, l) {
      var i :| 0 <= i < |w| && w[i].lpn == l && w[i].paired;
      assert (w + [n])[i] == w[i];
    }
    assert (w + [n])[|w|] == n;
  }

  lemma ReadsWithMoreWrites(q: seq<Sub>, w: seq<Sub>, n: Sub, store: map<nat, Data>)
    requires Reads(q, w, store)
    ensures Reads(q, w + [n], store)
  {
    hide Within, Awaited;
    forall i | 0 <= i < |q| ensures ReadOk(q[i], w + [n], store) {
      assert ReadOk(q[i], w, store);
      MoreAwaited(w, n, q[i].lpn);
    }
  }

  /** What a step that makes sub-requests leaves of the lists. */
  ghost predicate ListsKept(cfg: Config, m: Chip) {
    && Writes(cfg, AllWrites(m), m.store) && Reads(AllReads(m), AllWrites(m), m.store)
    && Looked(AllReads(m), m.cells, m.ages)
    && SubsShape(cfg, AllReads(m)) && SubsShape(cfg, AllWrites(m))
  }

  lemma ListsIn(cfg: Config, m: Chip)
    requires Inv(cfg, m)
    ensures ListsKept(cfg, m) && Stored(m.entries, m.cells, m.store) && EntriesShape(cfg, m.entries, m.store)
    ensures forall l :: l in m.entries && m.entries[l].subPage != {} ==> m.entries[l].loc in m.ages
    ensures Shape(cfg, m)
  {
    hide PlaneExact, PlaneShape, MapForward, MapBackward, Exact, PlanesShape, Writes, Reads, Looked, Hosts, Burnt,
         EraseQueue, Marked, Collecting, Room, InStep, Queues, TableShape, ListShape, Stored, SubsShape;
  }

  lemma ReadListGrows(cfg: Config, m: Chip, s: Sub)
    requires ListsKept(cfg, m) && SubShape(cfg, s) && ReadOk(s, AllWrites(m), m.store) && Named(s, m.cells, m.ages)
    requires s.paired ==> forall i :: 0 <= i < |AllReads(m)| && AllReads(m)[i].paired ==> AllReads(m)[i].lpn != s.lpn
    ensures ListsKept(cfg, m.(rHand := m.rHand + [s]))
  {
    hide Writes, Reads, Named, SubShape, ReadOk;
    assert AllReads(m.(rHand := m.rHand + [s])) == AllReads(m) + [s];
    ReadQueueGrows(AllReads(m), s, AllWrites(m), m.store);
  }

  lemma WriteListGrows(cfg: Config, m: Chip, w: Sub)
    requires ListsKept(cfg, m) && SubShape(cfg, w) && (if w.paired then Waiting(w, m.store) else Ready(w, m.store))
    requires w.loc.at == cfg.homes[w.lpn]
    requires forall i :: 0 <= i < |AllWrites(m)| ==> AllWrites(m)[i].lpn != w.lpn
    ensures ListsKept(cfg, m.(wHand := m.wHand + [w]))
  {
    hide Writes, Reads, Looked, Waiting, Ready;
    assert AllWrites(m.(wHand := m.wHand + [w])) == AllWrites(m) + [w];
    WriteQueueGrows(cfg, AllWrites(m), w, m.store);
    ReadsWithMoreWrites(AllReads(m), AllWrites(m), w, m.store);
  }

  lemma SubmitQueues(cfg: Config, m: Chip, l: nat, bits: set<nat>, buf: PageBuf, scratch: PageBuf)
    requires Inv(cfg, m) && MayWrite(cfg, m, l, bits)
    ensures Shape(cfg, m) && ListsKept(cfg, SubmitWrite(cfg, m, l, bits, buf, scratch))
  {
    hide Inv, Shape, ListsKept, Stored, Within, Waiting, Ready, ReadFor, Named, Firm;
    ListsIn(cfg, m);
    var o := m.entries[l].subPage;
    MappedWithin(m, l);
    HomeShape(cfg, m, l);
    NewWrite(m, l, bits, buf, Loc(cfg.homes[l], 0, 0));
    var w := Sub(l, bits, buf, Loc(cfg.homes[l], 0, 0), !(o <= bits), HostData(bits, buf), 0, true);
    NotOutstanding(m, l);
    WriteListGrows(cfg, m, w);
    if w.paired {
      var m1 := m.(wHand := m.wHand + [w]);
      NoPairedRead(cfg, m, l);
      CompanionIs(cfg, m, w, l, scratch);
      assert AllReads(m1) == AllReads(m);
      ReadListGrows(cfg, m1, ReadFor(m, l, o, scratch, true));
    }
  }

  lemma NotOutstanding(m: Chip, l: nat)
    requires !Outstanding(m, l)
    ensures forall i :: 0 <= i < |AllWrites(m)| ==> AllWrites(m)[i].lpn != l
  {
  }

  lemma MappedWithin(m: Chip, l: nat)
    requires Stored(m.entries, m.cells, m.store) && l in m.entries
    ensures l in m.store && m.store[l].Keys == m.entries[l].subPage
    ensures m.entries[l].subPage != {} ==> Within(m.entries[l].subPage)
  {
    hide Within, Firm, Holds;
  }

  lemma HomeShape(cfg: Config, m: Chip, l: nat)
    requires Shape(cfg, m) && l in cfg.homes && l in m.entries
    ensures InRange(cfg, Loc(cfg.homes[l], 0, 0))
    ensures m.entries[l].subPage != {} ==> InRange(cfg, m.entries[l].loc)
  {
    hide PlanesShape, TableShape, ListShape, SubsShape;
  }

  /** The companion read of a write that is being made. */
  lemma CompanionIs(cfg: Config, m: Chip, w: Sub, l: nat, scratch: PageBuf)
    requires Stored(m.entries, m.cells, m.store) && l in m.entries && m.entries[l].subPage != {}
    requires m.entries[l].loc in m.ages && InRange(cfg, m.entries[l].loc) && l in cfg.homes
    requires w.paired && w.lpn == l
    ensures l in m.store
    ensures var s := ReadFor(m, l, m.entries[l].subPage, scratch, true);
            && SubShape(cfg, s) && s.paired && s.lpn == l && Named(s, m.cells, m.ages)
            && ReadOk(s, AllWrites(m) + [w], m.store) && ReadOk(s, AllWrites(m.(wHand := m.wHand + [w])), m.store)
  {
    hide Within, Firm, Named, Stored, InRange;
    MappedWithin(m, l);
    ReadForIs(m, l, m.entries[l].subPage, scratch, true);
    MoreAwaited(AllWrites(m), w, l);
    assert AllWrites(m.(wHand := m.wHand + [w])) == AllWrites(m) + [w];
  }

  /** Without a write of the page outstanding, no companion read of it is about. */
  lemma NoPairedRead(cfg: Config, m: Chip, l: nat)
    requires ListsKept(cfg, m) && !Outstanding(m, l)
    ensures forall i :: 0 <= i < |AllReads(m)| && AllReads(m)[i].paired ==> AllReads(m)[i].lpn != l
  {
    hide Within, Firm, Looked, Writes, SubsShape;
    forall i | 0 <= i < |AllReads(m)| && AllReads(m)[i].paired ensures AllReads(m)[i].lpn != l {
      assert ReadOk(AllReads(m)[i], AllWrites(m), m.store);
    }
  }

  lemma SubmitHosts(cfg: Config, m: Chip, l: nat, bits: set<nat>, buf: PageBuf, scratch: PageBuf)
    requires Inv(cfg, m) && MayWrite(cfg, m, l, bits)
    ensures Shape(cfg, m) && Hosts(cfg, SubmitWrite(cfg, m, l, bits, buf, scratch))
  {
    hide PlaneExact, PlaneShape, MapForward, MapBackward, Exact, PlanesShape, Writes, Reads, Burnt, EraseQueue,
         Marked, Collecting, Room, InStep, TableShape, ListShape, Within, Holds, Ready, Looked, Named, Firm, Stored;
    var m' := SubmitWrite(cfg, m, l, bits, buf, scratch);
    assert AllWrites(m') == AllWrites(m) + [m'.wHand[|m.wHand|]];
    assert AllReads(m') == if |m'.rHand| == |m.rHand| then AllReads(m) else AllReads(m) + [m'.rHand[|m.rHand|]];
    if HostOut(m).Some? && m.phase != Programming {
      var s := HostOut(m).value;
      MoreAwaited(AllWrites(m), m'.wHand[|m.wHand|], s.lpn);
      if s.paired { OutIsAwaited(m, s.lpn, l); }
    }
  }

  lemma OutIsAwaited(m: Chip, k: nat, l: nat)
    requires Awaited(AllWrites(m), k) && !Outstanding(m, l)
    ensures k != l
  {
  }

  lemma SubmitWriteKeeps(cfg: Config, m: Chip, l: nat, bits: set<nat>, buf: PageBuf, scratch: PageBuf)
    requires Inv(cfg, m) && MayWrite(cfg, m, l, bits)
    ensures Shape(cfg, m) && Inv(cfg, SubmitWrite(cfg, m, l, bits, buf, scratch))
  {
    SubmitQueues(cfg, m, l, bits, buf, scratch);
    SubmitHosts(cfg, m, l, bits, buf, scratch);
    OthersKeep(cfg, m, SubmitWrite(cfg, m, l, bits, buf, scratch));
    hide *;
  }

  /** The chip apart from its lists of sub-requests. */
  function Bare(m: Chip): Chip {
    m.(rQueue := [], wQueue := [], rHand := [], wHand := [])
  }

  /** Only the lists change. */
  lemma OthersKeep(cfg: Config, m: Chip, m': Chip)
    requires Inv(cfg, m) && Bare(m') == Bare(m) && ListsKept(cfg, m') && Hosts(cfg, m')
    ensures Inv(cfg, m')
  {
    assert m' == m.(rQueue := m'.rQueue, wQueue := m'.wQueue, rHand := m'.rHand, wHand := m'.wHand);
    SameShape(cfg, m, m');
    SameRest(cfg, m, m');
    SameCollecting(cfg, m, m');
    hide Shape, MapForward, MapBackward, Exact, Writes, EraseQueue, Marked, Queues, Burnt, Room, Collecting,
         Reads, Looked, Hosts, Stored, InStep, Burning, SubsShape;
  }

  lemma SameRest(cfg: Config, m: Chip, m': Chip)
    requires Inv(cfg, m)
    requires m' == m.(rQueue := m'.rQueue, wQueue := m'.wQueue, rHand := m'.rHand, wHand := m'.wHand)
    ensures Queues(m') && Burnt(m') && Room(cfg, m') && InStep(m') && Burning(m') == Burning(m)
  {
    hide Shape, MapForward, MapBackward, Exact, Writes, EraseQueue, Marked, Collecting, Reads, Looked, Hosts, Stored,
         RoomAt, Written;
  }

  lemma SameCollecting(cfg: Config, m: Chip, m': Chip)
    requires Inv(cfg, m)
    requires m' == m.(rQueue := m'.rQueue, wQueue := m'.wQueue, rHand := m'.rHand, wHand := m'.wHand)
    ensures Collecting(cfg, m')
  {
    hide Shape, MapForward, MapBackward, Exact, Writes, EraseQueue, Marked, Reads, Looked, Hosts, Stored, Room,
         Burnt, InStep, Queues, Moving, Dead, Gone;
    SameMoving(cfg, m, m');
  }

  lemma SameMoving(cfg: Config, m: Chip, m': Chip)
    requires m' == m.(rQueue := m'.rQueue, wQueue := m'.wQueue, rHand := m'.rHand, wHand := m'.wHand)
    ensures forall c, g :: Moving(cfg, m', c, g) == Moving(cfg, m, c, g)
  {
    hide Within, Holds;
  }

  lemma SameShape(cfg: Config, m: Chip, m': Chip)
    requires Inv(cfg, m) && ListsKept(cfg, m')
    requires m' == m.(rQueue := m'.rQueue, wQueue := m'.wQueue, rHand := m'.rHand, wHand := m'.wHand)
    ensures Shape(cfg, m')
  {
    ListsIn(cfg, m);
    hide Inv, PlanesShape, EntriesShape, TableShape, ListShape, SubsShape, Writes, Reads, Looked;
  }

  lemma SubmitReadKeeps(cfg: Config, m: Chip, l: nat, bits: set<nat>, scratch: PageBuf)
    requires Inv(cfg, m) && MayRead(cfg, m, l, bits)
    ensures Shape(cfg, m) && Inv(cfg, SubmitRead(cfg, m, l, bits, scratch))
  {
    hide Shape, Inv, ListsKept, Stored, Expected, Within, Firm, Named, Hosts, InRange;
    ListsIn(cfg, m);
    HomeShape(cfg, m, l);
    ReadForIs(m, l, bits, scratch, false);
    ReadListGrows(cfg, m, ReadFor(m, l, bits, scratch, false));
    ReadHosts(cfg, m, ReadFor(m, l, bits, scratch, false));
    OthersKeep(cfg, m, SubmitRead(cfg, m, l, bits, scratch));
  }

  /** Another host read does not disturb the command that is out. */
  lemma ReadHosts(cfg: Config, m: Chip, s: Sub)
    requires Inv(cfg, m) && !s.paired
    ensures Hosts(cfg, m.(rHand := m.rHand + [s]))
  {
    hide Shape, PlaneExact, MapForward, MapBackward, Exact, Writes, Reads, Burnt, EraseQueue,
         Marked, Collecting, Room, InStep, Within, Holds, Ready, Looked, Named, Firm, Stored, ReadOk;
    assert AllReads(m.(rHand := m.rHand + [s])) == AllReads(m) + [s];
  }

  /** Queueing a request's lists changes neither what is waiting nor its order. */
  lemma QueueWritesKeeps(cfg: Config, m: Chip)
    requires Inv(cfg, m)
    ensures Shape(cfg, m) && Inv(cfg, QueueWrites(m))
  {
    hide Inv, Shape, ListsKept, Hosts;
    ListsIn(cfg, m);
    assert AllWrites(QueueWrites(m)) == AllWrites(m);
    SameLists(cfg, m, QueueWrites(m));
  }

  lemma QueueReadsKeeps(cfg: Config, m: Chip)
    requires Inv(cfg, m)
    ensures Shape(cfg, m) && Inv(cfg, QueueReads(m))
  {
    hide Inv, Shape, ListsKept, Hosts;
    ListsIn(cfg, m);
    assert AllReads(QueueReads(m)) == AllReads(m);
    SameLists(cfg, m, QueueReads(m));
  }

  lemma SameLists(cfg: Config, m: Chip, m': Chip)
    requires Inv(cfg, m) && Bare(m') == Bare(m) && AllReads(m') == AllReads(m) && AllWrites(m') == AllWrites(m)
    ensures Inv(cfg, m')
  {
    ListsIn(cfg, m);
    assert m' == m.(rQueue := m'.rQueue, wQueue := m'.wQueue, rHand := m'.rHand, wHand := m'.wHand);
    SameHosts(cfg, m, m');
    hide Inv, Shape, Writes, Reads, Looked, Hosts, SubsShape;
    OthersKeep(cfg, m, m');
  }

  lemma SameHosts(cfg: Config, m: Chip, m': Chip)
    requires Inv(cfg, m) && AllReads(m') == AllReads(m) && AllWrites(m') == AllWrites(m)
    requires m' == m.(rQueue := m'.rQueue, wQueue := m'.wQueue, rHand := m'.rHand, wHand := m'.wHand)
    ensures Hosts(cfg, m')
  {
    hide Shape, PlaneExact, MapForward, MapBackward, Exact, Writes, Reads, Burnt, EraseQueue, Marked, Collecting,
         Room, InStep, Looked, Stored, HostReadOk, HostWriteOk;
  }

  lemma FireParts(cfg: Config, m: Chip)
    requires Inv(cfg, m) && m.hw.timer
    ensures Shape(cfg, Fire(m)) && Queues(Fire(m)) && InStep(Fire(m)) && Burnt(Fire(m))
  {
    hide PlanesShape, EntriesShape, TableShape, ListShape, SubsShape, Exact, MapForward, MapBackward, Stored, Writes,
         Reads, Hosts, EraseQueue, Marked, Collecting, Room;
  }

  lemma FireKeeps(cfg: Config, m: Chip)
    requires Inv(cfg, m) && m.hw.timer
    ensures Inv(cfg, Fire(m))
  {
    hide Shape, Queues, InStep, Burnt, MapForward, MapBackward, Exact, Writes, EraseQueue, Marked, RoomAt, Within,
         Holds, Dead, Reads, Looked, Awaited, ReadOk, Stored, Moving, Gone;
    FireParts(cfg, m);
    FireMoving(cfg, m);
  }

  lemma FireMoving(cfg: Config, m: Chip)
    ensures forall c, g :: Moving(cfg, Fire(m), c, g) == Moving(cfg, m, c, g)
  {
    hide Within, Holds, Firm, Looked, Named;
  }
}
