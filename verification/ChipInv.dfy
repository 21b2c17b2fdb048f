/** What every reachable state of a chip keeps. */
module ChipInv {
  import opened Flash
  import opened Layout
  import opened Sectors
  import opened Chip

  // ---------------------------------------------------------------- which configurations

  function Homed(cfg: Config, a: PlaneAddr): set<nat> {
    set l | l in cfg.homes && cfg.homes[l] == a
  }

  /** The extra room needed when a dispatch may slip in before the collection check. */
  function Slack(cfg: Config): nat { if cfg.split then cfg.blocks else 0 }

  /** A plane has room for its logical pages and the collection threshold, and the threshold
      is at least two blocks (and the slack). */
  ghost predicate Roomy(cfg: Config) {
    && ConfigShape(cfg)
    && cfg.threshold >= 2 * cfg.pages + Slack(cfg)
    && forall a :: a in cfg.addrs ==> |Homed(cfg, a)| + cfg.threshold <= Cap(cfg.blocks, cfg.pages)
  }

  // ---------------------------------------------------------------- the queues

  /** The one command that is out, or half way through a read. */
  function Current(m: Chip): Option<nat> {
    if m.commands != [] then Some(m.commands[0])
    else if m.incompletedR != [] then Some(m.incompletedR[0])
    else None
  }

  /** At most one command is outstanding, and it is where the chip's state says it is. */
  ghost predicate Queues(m: Chip) {
    && |m.commands| + |m.incompletedR| <= 1
    && (m.phase == Idle ==> m.commands == [])
    && (m.phase == Programming || m.phase == ReadAddr ==> |m.commands| == 1)
    && (m.phase == ReadData ==> |m.incompletedR| == 1)
    && (m.phase == Erasing ==> m.erases != [] && Current(m).None?)
    && (Current(m).Some? && Current(m).value in m.cmds ==>
          var c := m.cmds[Current(m).value];
          !c.completed && c.stage == |m.incompletedR| && c.op == if m.phase == Programming then Write else Read)
  }

  /** The page being programmed. */
  function Burning(m: Chip): Option<Loc> {
    if m.phase == Programming && m.commands != [] && m.commands[0] in m.cmds && m.cmds[m.commands[0]].load.OfSub?
    then Some(m.cmds[m.commands[0]].load.sub.loc) else None
  }

  function CellAt(f: Option<Loc>, a: PlaneAddr): Cell {
    if f.Some? && f.value.at == a then Cell(f.value.block, f.value.page) else NoCell
  }

  ghost predicate Exact(cfg: Config, planes: map<PlaneAddr, Plane>, f: Option<Loc>) {
    forall a :: a in planes ==> PlaneExact(cfg.blocks, cfg.pages, planes[a], CellAt(f, a))
  }

  // ---------------------------------------------------------------- the map

  function PageOf(planes: map<PlaneAddr, Plane>, loc: Loc): Page
    requires loc.at in planes && loc.block < |planes[loc.at].blocks|
    requires loc.page < |planes[loc.at].blocks[loc.block].pages|
  {
    planes[loc.at].blocks[loc.block].pages[loc.page]
  }

  /** Mapped logical pages sit in their own plane, on a page that names them. */
  ghost predicate MapForward(cfg: Config, entries: map<nat, Entry>, planes: map<PlaneAddr, Plane>)
    requires PlanesShape(cfg, planes)
  {
    forall l :: l in entries && entries[l].subPage != {} ==>
      && InRange(cfg, entries[l].loc)
      && l in cfg.homes && entries[l].loc.at == cfg.homes[l]
      && PageOf(planes, entries[l].loc) == Page(entries[l].subPage, l)
  }

  /** Every live page is the current page of the logical page it names. */
  ghost predicate MapBackward(cfg: Config, entries: map<nat, Entry>, planes: map<PlaneAddr, Plane>)
    requires PlanesShape(cfg, planes)
  {
    forall loc :: InRange(cfg, loc) && PageOf(planes, loc).state != {} ==>
      var l := PageOf(planes, loc).lpn;
      l in entries && entries[l] == Entry(PageOf(planes, loc).state, loc)
  }

  // ---------------------------------------------------------------- contents

  /** `buf` agrees with `data` on the sectors `bits`, as far as they are not lost. */
  ghost predicate Holds(buf: PageBuf, bits: set<nat>, data: Data) {
    forall i :: i in bits ==> i in data && i < SECTORS && (data[i].Some? ==> buf[i] == data[i].value)
  }

  /** No sector is kept that a transfer of the whole page would miss. */
  ghost predicate Firm(data: Data) {
    forall i :: i in data && data[i].Some? ==> i in Transferred(data.Keys)
  }

  /** Every mapped sector that is not lost reads back as what the host last wrote there. */
  ghost predicate Stored(entries: map<nat, Entry>, cells: map<Loc, PageBuf>, store: map<nat, Data>) {
    forall l :: l in entries ==>
      && l in store && store[l].Keys == entries[l].subPage && Firm(store[l])
      && (entries[l].subPage != {} ==>
            Within(entries[l].subPage) && entries[l].loc in cells
                && Holds(cells[entries[l].loc], entries[l].subPage, store[l]))
  }

  /** Nothing of `data` is lost. */
  ghost predicate Present(data: Data) {
    forall i :: i in data ==> data[i].Some?
  }

  /** A write that may go out carries the whole page it will become. */
  ghost predicate Ready(s: Sub, store: map<nat, Data>) {
    && s.lpn in store && !s.paired && Present(s.host)
    && s.bits == store[s.lpn].Keys + s.host.Keys
    && Within(s.bits)
    && Holds(s.buf, s.bits, Carried(s, store[s.lpn]))
  }

  /** A write that waits for its companion read. */
  ghost predicate Waiting(s: Sub, store: map<nat, Data>) {
    && s.lpn in store && s.paired && Present(s.host)
    && s.bits == s.host.Keys
    && Within(store[s.lpn].Keys + s.host.Keys)
    && Holds(s.buf, s.bits, s.host)
  }

  ghost predicate Writes(cfg: Config, q: seq<Sub>, store: map<nat, Data>) {
    && (forall i :: 0 <= i < |q| ==>
          && (if q[i].paired then Waiting(q[i], store) else Ready(q[i], store))
          && q[i].lpn in cfg.homes && q[i].loc.at == cfg.homes[q[i].lpn])
    && (forall i, j :: 0 <= i < j < |q| ==> q[i].lpn != q[j].lpn)
  }

  ghost predicate Awaited(q: seq<Sub>, l: nat) {
    exists i :: 0 <= i < |q| && q[i].lpn == l && q[i].paired
  }

  ghost predicate ReadOk(s: Sub, w: seq<Sub>, store: map<nat, Data>) {
    && s.lpn in store && Within(s.bits) && s.host.Keys == s.bits && Firm(s.host)
    && (s.paired ==> s.host == store[s.lpn] && Awaited(w, s.lpn))
  }

  /** While the page a read was given has not been programmed again, it holds what it held
      when the read was made. */
  ghost predicate Named(s: Sub, cells: map<Loc, PageBuf>, ages: map<Loc, nat>) {
    && s.loc in cells && s.loc in ages && s.stamp <= ages[s.loc]
    && (s.stamp == ages[s.loc] ==> Holds(cells[s.loc], s.bits, s.host))
  }

  ghost predicate Looked(q: seq<Sub>, cells: map<Loc, PageBuf>, ages: map<Loc, nat>) {
    forall i :: 0 <= i < |q| ==> Named(q[i], cells, ages)
  }

  ghost predicate Reads(q: seq<Sub>, w: seq<Sub>, store: map<nat, Data>) {
    && (forall i :: 0 <= i < |q| ==> ReadOk(q[i], w, store))
    && (forall i, j :: 0 <= i < j < |q| && q[i].paired && q[j].paired ==> q[i].lpn != q[j].lpn)
  }

  /** The host command that is out, if any. */
  function HostOut(m: Chip): Option<Sub> {
    if Current(m).Some? && Current(m).value in m.cmds && m.cmds[Current(m).value].related.None?
        && m.cmds[Current(m).value].load.OfSub?
    then Some(m.cmds[Current(m).value].load.sub) else None
  }

  ghost predicate HostWriteOk(cfg: Config, s: Sub, w: seq<Sub>, store: map<nat, Data>) {
    && s.lpn in cfg.homes && s.loc.at == cfg.homes[s.lpn]
    && Ready(s, store)
    && forall i :: 0 <= i < |w| ==> w[i].lpn != s.lpn
  }

  /** The sectors of `s` that are transferred are the same in its buffer and on the page. */
  ghost predicate Written(cell: PageBuf, s: Sub) {
    forall i :: i in Transferred(s.bits) ==> i < SECTORS && cell[i] == s.buf[i]
  }

  ghost predicate HostReadOk(s: Sub, arrived: bool, q: seq<Sub>, w: seq<Sub>, cells: map<Loc, PageBuf>,
        ages: map<Loc, nat>, store: map<nat, Data>) {
    && ReadOk(s, w, store)
    && (s.paired ==> forall i :: 0 <= i < |q| && q[i].paired ==> q[i].lpn != s.lpn)
    && (if arrived then
          && s.loc in ages && s.whole == (s.stamp == ages[s.loc]) && (s.whole ==> Holds(s.buf, s.bits, s.host))
          && s.loc in cells && Written(cells[s.loc], s)
        else Named(s, cells, ages))
  }

  ghost predicate Hosts(cfg: Config, m: Chip) {
    HostOut(m).Some? ==>
      if m.phase == Programming then HostWriteOk(cfg, HostOut(m).value, AllWrites(m), m.store)
      else HostReadOk(HostOut(m).value, m.phase == ReadData, AllReads(m), AllWrites(m), m.cells, m.ages, m.store)
  }

  /** What is being programmed, as far as it is transferred, is already in the cells. */
  ghost predicate Burnt(m: Chip) {
    m.phase == Programming && m.commands != [] && m.commands[0] in m.cmds && m.cmds[m.commands[0]].load.OfSub? ==>
      var s := m.cmds[m.commands[0]].load.sub;
      s.bits != {} && s.loc in m.cells && Written(m.cells[s.loc], s)
  }

  // ---------------------------------------------------------------- collection

  /** An erase command that is queued: its plane is marked, its victim is full, and
      nothing behind the cursor is live. */
  ghost predicate EraseOk(cfg: Config, planes: map<PlaneAddr, Plane>, c: Command) {
    && c.op == Erase && c.load.EraseAt? && c.load.at in planes
    && !c.completed && c.stage <= cfg.pages
    && var pl := planes[c.load.at];
       && pl.eraseUsed
       && pl.eraseBlock < |pl.blocks| && |pl.blocks[pl.eraseBlock].pages| == cfg.pages
       && pl.blocks[pl.eraseBlock].startWrite == cfg.pages
       && forall p :: 0 <= p < c.stage ==> pl.blocks[pl.eraseBlock].pages[p].state == {}
  }

  ghost predicate Fresh(c: Command) { c.related.None? && c.stage == 0 }

  ghost predicate EraseQueue(cfg: Config, planes: map<PlaneAddr, Plane>, cmds: map<nat, Command>, erases: seq<nat>) {
    && (forall i :: 0 <= i < |erases| ==> erases[i] in cmds && EraseOk(cfg, planes, cmds[erases[i]]))
    && (forall i :: 0 < i < |erases| ==> Fresh(cmds[erases[i]]))
    && (forall i, j :: 0 <= i < j < |erases| ==> cmds[erases[i]].load.at != cmds[erases[j]].load.at)
  }

  /** A marked plane has an erase command in the queue. */
  ghost predicate Marked(planes: map<PlaneAddr, Plane>, cmds: map<nat, Command>, erases: seq<nat>) {
    forall a :: a in planes && planes[a].eraseUsed ==>
      exists i :: 0 <= i < |erases| && erases[i] in cmds && cmds[erases[i]].load == EraseAt(a)
  }

  /** The relocation the head erase command has under way: the map still names the page it
      reads, and once the data is in, the buffer holds that page. */
  ghost predicate Moving(cfg: Config, m: Chip, c: Command, g: Command) {
    && c.load.EraseAt? && g.load.OfSub? && c.load.at in m.planes && c.stage < cfg.pages
    && var at := c.load.at; var s := g.load.sub;
       && s.lpn in cfg.homes && cfg.homes[s.lpn] == at && s.loc.at == at && s.host == map[] && !s.paired
       && s.lpn in m.entries && s.lpn in m.store
       && m.entries[s.lpn] == Entry(s.bits, Loc(at, m.planes[at].eraseBlock, c.stage)) && Within(s.bits)
       && (g.op == Read ==> s.loc == Loc(at, m.planes[at].eraseBlock, c.stage))
       && (g.op == Write && m.phase == Programming ==> s.loc.block != m.planes[at].eraseBlock)
       && (g.op == Write || g.completed || m.phase == ReadData ==> Holds(s.buf, s.bits, m.store[s.lpn]))
  }

  /** Page `k` of the victim is not live any more. */
  ghost predicate Gone(pl: Plane, k: nat) {
    pl.eraseBlock < |pl.blocks| && k < |pl.blocks[pl.eraseBlock].pages| ==>
        pl.blocks[pl.eraseBlock].pages[k].state == {}
  }

  ghost predicate Collecting(cfg: Config, m: Chip) {
    && (m.erases != [] && m.erases[0] in m.cmds ==>
          var c := m.cmds[m.erases[0]];
          && (c.related.Some? && c.related.value in m.cmds ==>
                var g := m.cmds[c.related.value];
                && g.related == Some(m.erases[0]) && g.op != Erase
                && (if g.completed then m.phase == Idle && Current(m).None? else Current(m) == c.related)
                && (g.op == Read || !g.completed ==> Moving(cfg, m, c, g))
                && (g.op == Write && g.completed && c.load.EraseAt? && c.load.at in m.planes ==>
                   Gone(m.planes[c.load.at], c.stage)))
          && (c.related.None? && c.stage != 0 ==> m.phase == Erasing)
          && (m.phase == Erasing && c.load.EraseAt? && c.load.at in m.planes ==>
                c.related.None? && Dead(cfg, m.planes[c.load.at])))
    && (Current(m).Some? && Current(m).value in m.cmds ==>
          var g := m.cmds[Current(m).value];
          if g.related.Some? then m.erases != [] && m.erases[0] in m.cmds && m.cmds[m.erases[0]].related == Current(m)
          else m.erases != [] && m.erases[0] in m.cmds ==> Fresh(m.cmds[m.erases[0]]))
  }

  /** The victim holds nothing live any more. */
  ghost predicate Dead(cfg: Config, pl: Plane) {
    && pl.eraseBlock < |pl.blocks|
    && pl.blocks[pl.eraseBlock].cnt == Counts(0, 0, cfg.pages)
    && forall p :: 0 <= p < |pl.blocks[pl.eraseBlock].pages| ==> pl.blocks[pl.eraseBlock].pages[p].state == {}
  }

  // ---------------------------------------------------------------- room

  /** The fewest free pages a plane has while nothing goes on in it. */
  function Floor(cfg: Config): int { cfg.threshold - cfg.pages + 1 - Slack(cfg) }

  /** A relocation has taken a page of plane `a` and not yet given one up. */
  predicate Relocating(m: Chip, a: PlaneAddr) {
    && Burning(m).Some? && Burning(m).value.at == a
    && m.cmds[m.commands[0]].related.Some?
  }

  ghost predicate RoomAt(cfg: Config, pl: Plane, burning: bool, relocating: bool, pending: bool) {
    if pl.eraseUsed then
      pl.eraseBlock < |pl.blocks| ==>
        pl.cnt.free + cfg.pages + One(relocating) - pl.blocks[pl.eraseBlock].cnt.valid >= Floor(cfg)
    else pl.cnt.free >= Floor(cfg) - One(burning) - One(pending)
  }

  ghost predicate Room(cfg: Config, m: Chip) {
    && (forall a :: a in m.planes ==>
          RoomAt(cfg, m.planes[a], CellAt(Burning(m), a).Cell?, Relocating(m, a), m.pending == Some(a)))
    && (!cfg.split && m.pending.Some? ==> m.phase == Idle && Current(m).None?)
  }

  // ---------------------------------------------------------------- the NAND chip

  /** Driver and NAND chip agree on what is going on. */
  ghost predicate InStep(m: Chip) {
    if m.phase == Idle then
      && !m.hw.timer && !m.hw.signal
      && (if m.incompletedR == [] then m.hw.phase == Idle
          else m.hw.phase == ReadAddr && m.incompletedR[0] in m.cmds && m.cmds[m.incompletedR[0]].load.OfSub? &&
               m.hw.latch == m.cmds[m.incompletedR[0]].load.sub.loc)
    else
      && m.hw.timer != m.hw.signal
      && (m.hw.timer ==> m.hw.phase == m.phase)
      && (m.hw.signal ==> m.hw.phase == if m.phase == ReadAddr then ReadAddr else Idle)
      && (EndQueue(m) != [] && EndQueue(m)[0] in m.cmds ==>
            && m.hw.id == m.cmds[EndQueue(m)[0]].id
            && (m.phase == ReadAddr && m.cmds[EndQueue(m)[0]].load.OfSub? ==>
               m.hw.latch == m.cmds[EndQueue(m)[0]].load.sub.loc))
  }

  ghost predicate Inv(cfg: Config, m: Chip) {
    && Shape(cfg, m)
    && Queues(m)
    && Exact(cfg, m.planes, Burning(m))
    && MapForward(cfg, m.entries, m.planes) && MapBackward(cfg, m.entries, m.planes)
    && Stored(m.entries, m.cells, m.store)
    && Writes(cfg, AllWrites(m), m.store) && Reads(AllReads(m), AllWrites(m), m.store)
    && Looked(AllReads(m), m.cells, m.ages)
    && Hosts(cfg, m) && Burnt(m)
    && EraseQueue(cfg, m.planes, m.cmds, m.erases) && Marked(m.planes, m.cmds, m.erases)
    && Collecting(cfg, m)
    && Room(cfg, m)
    && InStep(m)
  }

  lemma PlaneSizes(cfg: Config, pl: Plane)
    requires PlaneShape(cfg, pl)
    ensures |pl.blocks| == cfg.blocks && pl.eraseBlock < |pl.blocks|
    ensures forall b :: 0 <= b < cfg.blocks ==> |pl.blocks[b].pages| == cfg.pages
  {
  }
}
