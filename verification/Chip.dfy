/** One chip of the device: the driver's record of it (page map, planes, command queues)
    together with the NAND chip behind it, and the atomic steps that change the two.
    Chips share nothing but their channel, so a device is a family of these. */
module Chip {
  import opened Flash
  import opened Layout
  import opened Lists
  import opened Sectors

  /** The part of the device one chip is responsible for: its planes, the logical pages
      striped onto each of them, and the collection threshold. `split` says whether other
      critical sections may run between a completion and its collection check. */
  datatype Config = Config(blocks: nat, pages: nat, addrs: set<PlaneAddr>, homes: map<nat, PlaneAddr>,
                           threshold: nat, split: bool)

  datatype Phase = Idle | Programming | ReadAddr | ReadData | Erasing

  datatype Op = Read | Write | Erase

  /** The logical-to-physical map; an empty bitmap means the page is not mapped. */
  datatype Entry = Entry(subPage: set<nat>, loc: Loc)

  /** A sub-request. `paired` is set while a write waits for its companion read, and on
      that read.
      The other fields are history. `host` is what the host handed over with a write, and what
      the page held when a read was made. `stamp` is the age of the page a read was given, and
      `whole` says that the data of the read, or of the companion read of a write, was fetched
      while the page still had that age. */
  datatype Sub = Sub(lpn: nat, bits: set<nat>, buf: PageBuf, loc: Loc, paired: bool, host: Data,
                     stamp: nat, whole: bool)

  datatype Load = OfSub(sub: Sub) | EraseAt(at: PlaneAddr)

  /** `stage` is the driver's union of read stage and erase cursor. */
  datatype Command = Command(op: Op, load: Load, id: nat, completed: bool, related: Option<nat>, stage: nat)

  /** The NAND chip: what it is doing, the address it latched, the command it reports,
      and whether its timer is armed or its completion waits to be handled. */
  datatype Nand = Nand(phase: Phase, latch: Loc, id: nat, timer: bool, signal: bool)

  datatype Chip = Chip(
    phase: Phase,
    commands: seq<nat>, incompletedR: seq<nat>, erases: seq<nat>,
    cmds: map<nat, Command>, nextRef: nat,
    rQueue: seq<Sub>, wQueue: seq<Sub>,
    // the lists of the requests being cut: sub-requests made but not yet queued
    rHand: seq<Sub>, wHand: seq<Sub>,
    pending: Option<PlaneAddr>,
    planes: map<PlaneAddr, Plane>,
    entries: map<nat, Entry>,
    hw: Nand,
    cells: map<Loc, PageBuf>,
    // history: how often each page has been programmed (or overwritten by an erase), and what
    // the host last wrote to each mapped sector that the chip still has
    ages: map<Loc, nat>,
    store: map<nat, Data>)

  /** The reads, and the writes, that are made or queued. */
  function AllReads(m: Chip): seq<Sub> { m.rQueue + m.rHand }

  function AllWrites(m: Chip): seq<Sub> { m.wQueue + m.wHand }

  // ---------------------------------------------------------------- shape

  ghost predicate InRange(cfg: Config, loc: Loc) {
    loc.at in cfg.addrs && loc.block < cfg.blocks && loc.page < cfg.pages
  }

  ghost predicate PlaneShape(cfg: Config, pl: Plane) {
    && |pl.blocks| == cfg.blocks
    && pl.active < cfg.blocks
    && pl.eraseBlock < cfg.blocks
    && forall b :: 0 <= b < cfg.blocks ==> |pl.blocks[b].pages| == cfg.pages
  }

  ghost predicate SubShape(cfg: Config, s: Sub) {
    s.lpn in cfg.homes && InRange(cfg, s.loc)
  }

  ghost predicate ConfigShape(cfg: Config) {
    && cfg.pages > 0 && cfg.blocks > 0
    && forall l :: l in cfg.homes ==> cfg.homes[l] in cfg.addrs
  }

  ghost predicate PlanesShape(cfg: Config, planes: map<PlaneAddr, Plane>) {
    && planes.Keys == cfg.addrs
    && forall a :: a in planes ==> PlaneShape(cfg, planes[a])
  }

  ghost predicate EntriesShape(cfg: Config, entries: map<nat, Entry>, store: map<nat, Data>) {
    && entries.Keys == cfg.homes.Keys && store.Keys == cfg.homes.Keys
    && forall l :: l in entries && entries[l].subPage != {} ==> InRange(cfg, entries[l].loc)
  }

  ghost predicate CommandShape(cfg: Config, c: Command) {
    && (c.op == Erase ==> c.load.EraseAt? && c.load.at in cfg.addrs)
    && (c.op != Erase ==> c.load.OfSub? && SubShape(cfg, c.load.sub))
  }

  ghost predicate TableShape(cfg: Config, cmds: map<nat, Command>, nextRef: nat) {
    forall r :: r in cmds ==> r < nextRef && CommandShape(cfg, cmds[r])
  }

  ghost predicate ListShape(cmds: map<nat, Command>, commands: seq<nat>, incompletedR: seq<nat>, erases: seq<nat>) {
    && (forall i :: 0 <= i < |commands| ==> commands[i] in cmds && cmds[commands[i]].op != Erase)
    && (forall i :: 0 <= i < |incompletedR| ==> incompletedR[i] in cmds && cmds[incompletedR[i]].op == Read)
    && (forall i :: 0 <= i < |erases| ==> erases[i] in cmds && cmds[erases[i]].op == Erase)
    && (forall i :: 0 <= i < |erases| && cmds[erases[i]].related.Some? ==>
          cmds[erases[i]].related.value in cmds && cmds[cmds[erases[i]].related.value].op != Erase)
  }

  ghost predicate SubsShape(cfg: Config, q: seq<Sub>) {
    forall i :: 0 <= i < |q| ==> SubShape(cfg, q[i])
  }

  /** Every pointer leads somewhere and every array has its size. */
  ghost predicate Shape(cfg: Config, m: Chip) {
    && ConfigShape(cfg)
    && PlanesShape(cfg, m.planes)
    && EntriesShape(cfg, m.entries, m.store)
    && (forall loc :: InRange(cfg, loc) ==> loc in m.cells && loc in m.ages)
    && TableShape(cfg, m.cmds, m.nextRef)
    && ListShape(m.cmds, m.commands, m.incompletedR, m.erases)
    && SubsShape(cfg, AllReads(m)) && SubsShape(cfg, AllWrites(m))
    && (m.pending.Some? ==> m.pending.value in cfg.addrs)
  }

  // ---------------------------------------------------------------- talking to the NAND chip

  predicate Accepts(hw: Nand, kind: Phase, loc: Loc) {
    if kind == ReadData then hw.phase == ReadAddr && hw.latch == loc else hw.phase == Idle
  }

  function Start(hw: Nand, kind: Phase, loc: Loc, id: nat): Nand {
    hw.(phase := kind, id := id, timer := true,
        latch := if kind == ReadData then hw.latch
                 else if kind == Erasing then loc.(page := hw.latch.page)
                 else loc)
  }

  function SubOf(m: Chip, r: nat): Sub
    requires r in m.cmds && m.cmds[r].load.OfSub?
  {
    m.cmds[r].load.sub
  }

  function PutSub(m: Chip, r: nat, s: Sub): Chip
    requires r in m.cmds
  {
    m.(cmds := m.cmds[r := m.cmds[r].(load := OfSub(s))])
  }

  /** The driver allocates a page and programs it. When the NAND chip refuses the command
      (`chanIdle` false, or the chip busy) no data moves and no completion will come. */
  function SendWrite(cfg: Config, m: Chip, r: nat, chanIdle: bool): (r': Chip)
    requires Shape(cfg, m) && r in m.cmds && m.cmds[r].op == Write
    ensures r'.store == m.store && r'.entries == m.entries && r'.rQueue == m.rQueue && r'.wQueue == m.wQueue
    ensures r'.rHand == m.rHand && r'.wHand == m.wHand
    ensures r'.pending == m.pending
    ensures r'.erases == m.erases && r in r'.cmds && r'.cmds == m.cmds[r := m.cmds[r].(load := r'.cmds[r].load)]
    ensures r'.commands == m.commands && r'.incompletedR == m.incompletedR && r'.nextRef == m.nextRef
    ensures r'.phase == Programming
  {
    var s := SubOf(m, r);
    var pl := m.planes[s.loc.at];
    var loc := Loc(s.loc.at, NextCell(pl).block, NextCell(pl).page);
    var m1 := PutSub(m, r, s.(loc := loc)).(phase := Programming,
                 planes := m.planes[s.loc.at := AllocPage(cfg.pages, pl)]);
    if chanIdle && Accepts(m.hw, Programming, loc) && loc in m.cells && loc in m.ages then
      m1.(hw := Start(m.hw, Programming, loc, m.cmds[r].id),
          cells := m.cells[loc := Overlay(m.cells[loc], Transferred(s.bits), s.buf)],
          ages := m.ages[loc := m.ages[loc] + 1])
    else m1
  }

  function SendRead(cfg: Config, m: Chip, r: nat, chanIdle: bool): (r': Chip)
    requires Shape(cfg, m) && r in m.cmds && m.cmds[r].op == Read
    ensures r'.store == m.store && r'.entries == m.entries && r'.rQueue == m.rQueue && r'.wQueue == m.wQueue
    ensures r'.rHand == m.rHand && r'.wHand == m.wHand
    ensures r'.pending == m.pending
    ensures r'.erases == m.erases && r in r'.cmds && r'.cmds == m.cmds[r := m.cmds[r].(load := r'.cmds[r].load)]
    ensures r'.commands == m.commands && r'.incompletedR == m.incompletedR && r'.nextRef == m.nextRef
    ensures r'.phase == (if m.cmds[r].stage == 0 then ReadAddr else ReadData)
    ensures r'.planes == m.planes && r'.cells == m.cells && r'.ages == m.ages
  {
    var s := SubOf(m, r);
    if m.cmds[r].stage == 0 then
      m.(phase := ReadAddr,
         hw := if chanIdle && Accepts(m.hw, ReadAddr, s.loc) then Start(m.hw, ReadAddr, s.loc, m.cmds[r].id) else m.hw)
    else if chanIdle && Accepts(m.hw, ReadData, s.loc) then
      PutSub(m, r, s.(buf := Overlay(s.buf, Transferred(s.bits), m.cells[s.loc]), whole := m.ages[s.loc] == s.stamp))
        .(phase := ReadData, hw := Start(m.hw, ReadData, s.loc, m.cmds[r].id))
    else m.(phase := ReadData)
  }

  /** An erase may leave anything in the block. */
  function Scrambled(cells: map<Loc, PageBuf>, at: PlaneAddr, block: nat, junk: seq<PageBuf>): (r: map<Loc, PageBuf>)
    ensures r.Keys == cells.Keys
    ensures forall l :: l in cells && !(l.at == at && l.block == block) ==> r[l] == cells[l]
  {
    map l | l in cells :: if l.at == at && l.block == block && l.page < |junk| then junk[l.page] else cells[l]
  }

  function Aged(ages: map<Loc, nat>, at: PlaneAddr, block: nat, junk: seq<PageBuf>): (r: map<Loc, nat>)
    ensures r.Keys == ages.Keys
    ensures forall l :: l in ages ==>
              r[l] == if l.at == at && l.block == block && l.page < |junk| then ages[l] + 1 else ages[l]
  {
    map l | l in ages :: if l.at == at && l.block == block && l.page < |junk| then ages[l] + 1 else ages[l]
  }

  /** Where erase command `r` is sent. */
  function VictimLoc(m: Chip, r: nat): Loc
    requires r in m.cmds
  {
    if m.cmds[r].load.EraseAt? && m.cmds[r].load.at in m.planes
    then Loc(m.cmds[r].load.at, m.planes[m.cmds[r].load.at].eraseBlock, 0) else Loc(PlaneAddr(0, 0, 0, 0), 0, 0)
  }

  function SendErase(cfg: Config, m: Chip, r: nat, junk: seq<PageBuf>, chanIdle: bool): (r': Chip)
    requires Shape(cfg, m) && r in m.cmds && m.cmds[r].op == Erase
    ensures r'.store == m.store && r'.entries == m.entries && r'.rQueue == m.rQueue && r'.wQueue == m.wQueue
    ensures r'.rHand == m.rHand && r'.wHand == m.wHand
    ensures r'.pending == m.pending
    ensures r'.erases == m.erases && r in r'.cmds && r'.cmds == m.cmds[r := m.cmds[r].(load := r'.cmds[r].load)]
    ensures r'.commands == m.commands && r'.incompletedR == m.incompletedR && r'.nextRef == m.nextRef
    ensures r'.phase == Erasing && r'.planes == m.planes && r'.cmds == m.cmds
  {
    var loc := VictimLoc(m, r);
    if chanIdle && Accepts(m.hw, Erasing, loc) then
      m.(phase := Erasing, hw := Start(m.hw, Erasing, loc, m.cmds[r].id),
         cells := Scrambled(m.cells, loc.at, loc.block, junk), ages := Aged(m.ages, loc.at, loc.block, junk))
    else m.(phase := Erasing)
  }

  function Send(cfg: Config, m: Chip, r: nat, junk: seq<PageBuf>, chanIdle: bool): (r': Chip)
    requires Shape(cfg, m) && r in m.cmds
    ensures r'.store == m.store && r'.entries == m.entries && r'.rQueue == m.rQueue && r'.wQueue == m.wQueue
    ensures r'.rHand == m.rHand && r'.wHand == m.wHand
    ensures r'.pending == m.pending
    ensures r'.erases == m.erases && r in r'.cmds && r'.cmds == m.cmds[r := m.cmds[r].(load := r'.cmds[r].load)]
    ensures r'.commands == m.commands && r'.incompletedR == m.incompletedR && r'.nextRef == m.nextRef
    ensures r'.phase == match m.cmds[r].op
                        case Write => Programming
                        case Read => (if m.cmds[r].stage == 0 then ReadAddr else ReadData)
                        case Erase => Erasing
    ensures m.cmds[r].op != Write ==> r'.planes == m.planes
    ensures m.cmds[r].op == Read ==> r'.cells == m.cells && r'.ages == m.ages
    ensures m.cmds[r].op == Erase ==> r'.cmds == m.cmds
  {
    match m.cmds[r].op
    case Write => SendWrite(cfg, m, r, chanIdle)
    case Read => SendRead(cfg, m, r, chanIdle)
    case Erase => SendErase(cfg, m, r, junk, chanIdle)
  }

  // ---------------------------------------------------------------- choosing the next command

  /** The erase cursor: the first page at or after `k` that is live, or the end. */
  function NextLive(pages: seq<Page>, k: nat): (r: nat)
    requires k <= |pages|
    ensures k <= r <= |pages|
    ensures r < |pages| ==> pages[r].state != {}
    ensures forall p :: k <= p < r ==> pages[p].state == {}
    decreases |pages| - k
  {
    if k == |pages| || pages[k].state != {} then k else NextLive(pages, k + 1)
  }

  function VictimBlock(m: Chip, e: nat): Block
    requires e in m.cmds && m.cmds[e].load.EraseAt? && m.cmds[e].load.at in m.planes
    requires m.planes[m.cmds[e].load.at].eraseBlock < |m.planes[m.cmds[e].load.at].blocks|
  {
    var pl := m.planes[m.cmds[e].load.at];
    pl.blocks[pl.eraseBlock]
  }

  /** The read half of a relocation comes back as the write half. */
  function Rewrite(m: Chip, g: nat, id: nat): Chip
    requires g in m.cmds
  {
    m.(cmds := m.cmds[g := m.cmds[g].(completed := false, id := id, op := Write, stage := 0)],
       commands := m.commands + [g])
  }

  /** Start relocating page `k` of the victim of erase command `e`. */
  function Reread(cfg: Config, m: Chip, e: nat, k: nat, id: nat, scratch: PageBuf): Chip
    requires Shape(cfg, m) && e in m.cmds && m.cmds[e].op == Erase && k < |VictimBlock(m, e).pages|
  {
    var at := m.cmds[e].load.at;
    var page := VictimBlock(m, e).pages[k];
    var g := if m.cmds[e].related.Some? then m.cmds[e].related.value else m.nextRef;
    var buf := if g in m.cmds && m.cmds[g].load.OfSub? then m.cmds[g].load.sub.buf else scratch;
    var s := Sub(page.lpn, page.state, buf, Loc(at, m.planes[at].eraseBlock, k), false, map[], 0, true);
    m.(cmds := m.cmds[g := Command(Read, OfSub(s), id, false, Some(e), 0)]
                     [e := m.cmds[e].(stage := k, related := Some(g))],
       nextRef := if g == m.nextRef then m.nextRef + 1 else m.nextRef,
       commands := m.commands + [g])
  }

  /** Nothing live is left: the erase command is released. */
  function Release(m: Chip, e: nat): Chip
    requires e in m.cmds && m.cmds[e].load.EraseAt? && m.cmds[e].load.at in m.planes
    requires m.planes[m.cmds[e].load.at].eraseBlock < |m.planes[m.cmds[e].load.at].blocks|
  {
    var rest := if m.cmds[e].related.Some? then m.cmds - {m.cmds[e].related.value} else m.cmds;
    m.(cmds := rest[e := m.cmds[e].(stage := |VictimBlock(m, e).pages|, related := None)])
  }

  /** One visit of the collector for erase command `e`; the flag says that the erase
      itself may go out. */
  function ForErase(cfg: Config, m: Chip, e: nat, id: nat, scratch: PageBuf): (r': (Chip, bool))
    requires Shape(cfg, m) && e in m.erases
    requires m.cmds[e].stage <= cfg.pages
    ensures r'.0.erases == m.erases
    ensures r'.0.store == m.store && r'.0.entries == m.entries && r'.0.planes == m.planes
    ensures r'.0.cells == m.cells && r'.0.ages == m.ages && r'.0.hw == m.hw
    ensures r'.0.phase == m.phase && r'.0.pending == m.pending
    ensures r'.0.rHand == m.rHand && r'.0.wHand == m.wHand
  {
    var c := m.cmds[e];
    var blk := VictimBlock(m, e);
    if c.related.Some? && !m.cmds[c.related.value].completed then (m, false)
    else if c.related.Some? && m.cmds[c.related.value].op == Read then (Rewrite(m, c.related.value, id), false)
    else if c.related.None? && blk.cnt.invalid == cfg.pages then (m, true)
    else
      var k := NextLive(blk.pages, c.stage);
      if k == cfg.pages then (Release(m, e), true)
      else (Reread(cfg, m, e, k, id, scratch), false)
  }

  /** The first write that does not wait for a companion read. */
  function FirstReady(ws: seq<Sub>): (r: nat)
    ensures r <= |ws|
    ensures r < |ws| ==> !ws[r].paired
    ensures forall i :: 0 <= i < r ==> ws[i].paired
  {
    if ws == [] || !ws[0].paired then 0 else 1 + FirstReady(ws[1..])
  }

  function Enqueue(m: Chip, op: Op, s: Sub, id: nat): Chip {
    m.(cmds := m.cmds[m.nextRef := Command(op, OfSub(s), id, false, None, 0)],
       nextRef := m.nextRef + 1,
       commands := m.commands + [m.nextRef])
  }

  /** A new command for a waiting sub-request, reads first. Reads go to the page they were
      given when they were made; writes get their page when they are sent. */
  function TakeHost(cfg: Config, m: Chip, id: nat): (r': (Chip, Option<nat>))
    requires Shape(cfg, m)
    ensures r'.0.store == m.store && r'.0.entries == m.entries && r'.0.planes == m.planes
    ensures r'.0.cells == m.cells && r'.0.ages == m.ages && r'.0.hw == m.hw
    ensures r'.0.phase == m.phase && r'.0.pending == m.pending
    ensures r'.0.rHand == m.rHand && r'.0.wHand == m.wHand
  {
    if m.rQueue != [] then
      var s := m.rQueue[0];
      (Enqueue(m.(rQueue := m.rQueue[1..]), Read, s, id), Some(m.nextRef))
    else
      var k := FirstReady(m.wQueue);
      if k < |m.wQueue| then
        (Enqueue(m.(wQueue := Without(m.wQueue, k)), Write, m.wQueue[k], id), Some(m.nextRef))
      else (m, None)
  }

  /** A visit for the first erase command, if there is one. */
  function VisitFirst(cfg: Config, m: Chip, id: nat, scratch: PageBuf): (r': (Chip, bool))
    requires Shape(cfg, m)
    requires m.erases != [] ==> m.cmds[m.erases[0]].stage <= cfg.pages
    ensures r'.0.store == m.store && r'.0.entries == m.entries && r'.0.planes == m.planes
    ensures r'.0.cells == m.cells && r'.0.ages == m.ages && r'.0.hw == m.hw
    ensures r'.0.phase == m.phase && r'.0.pending == m.pending
    ensures r'.0.rHand == m.rHand && r'.0.wHand == m.wHand
  {
    if m.erases != [] then ForErase(cfg, m, m.erases[0], id, scratch) else (m, false)
  }

  function GetCommand(cfg: Config, m: Chip, id: nat, scratch: PageBuf): (r': (Chip, Option<nat>))
    requires Shape(cfg, m)
    requires m.erases != [] ==> m.cmds[m.erases[0]].stage <= cfg.pages
    ensures r'.0.store == m.store && r'.0.entries == m.entries && r'.0.planes == m.planes
    ensures r'.0.cells == m.cells && r'.0.ages == m.ages && r'.0.hw == m.hw
    ensures r'.0.phase == m.phase && r'.0.pending == m.pending
    ensures r'.0.rHand == m.rHand && r'.0.wHand == m.wHand
  {
    if m.incompletedR != [] then (m, Some(m.incompletedR[0]))
    else
      var (m1, go) := VisitFirst(cfg, m, id, scratch);
      if go && m.erases != [] then (m1, Some(m.erases[0]))
      else if m1.commands != [] then (m1, Some(m1.commands[0]))
      else TakeHost(cfg, m, id)
  }

  /** Dispatch on an idle chip. */
  function Dispatch(cfg: Config, m: Chip, id: nat, scratch: PageBuf, junk: seq<PageBuf>, chanIdle: bool): Chip
    requires Shape(cfg, m)
    requires m.erases != [] ==> m.cmds[m.erases[0]].stage <= cfg.pages
    requires var (m1, r) := GetCommand(cfg, m, id, scratch); r.Some? ==> Shape(cfg, m1) && r.value in m1.cmds
  {
    var (m1, r) := GetCommand(cfg, m, id, scratch);
    if r.Some? then Send(cfg, m1, r.value, junk, chanIdle) else m1
  }

  // ---------------------------------------------------------------- completion

  /** Where in a queue the command with the reported number is. */
  function EndIndex(m: Chip, q: seq<nat>, id: nat): (k: nat)
    requires forall i :: 0 <= i < |q| ==> q[i] in m.cmds
    ensures k <= |q|
    ensures k < |q| ==> m.cmds[q[k]].id == id
    ensures forall i :: 0 <= i < k ==> m.cmds[q[i]].id != id
  {
    if q == [] || m.cmds[q[0]].id == id then 0 else 1 + EndIndex(m, q[1..], id)
  }

  /** The map entry moves to the programmed page; the page it leaves becomes stale. */
  function UpdateMap(m: Chip, s: Sub): Chip
    requires s.lpn in m.entries
    requires s.loc.at in m.planes && s.loc.block < |m.planes[s.loc.at].blocks|
    requires s.loc.page < |m.planes[s.loc.at].blocks[s.loc.block].pages|
    requires var o := m.entries[s.lpn]; o.subPage != {} ==>
               o.loc.at in m.planes && o.loc.block < |m.planes[o.loc.at].blocks| &&
               o.loc.page < |m.planes[o.loc.at].blocks[o.loc.block].pages|
  {
    var o := m.entries[s.lpn];
    var planes1 := m.planes[s.loc.at := CommitPage(m.planes[s.loc.at], s.loc.block, s.loc.page, s.bits, s.lpn)];
    m.(entries := m.entries[s.lpn := Entry(s.bits, s.loc)],
       planes := if o.subPage == {} then planes1
                 else planes1[o.loc.at := InvalidatePage(planes1[o.loc.at], o.loc.block, o.loc.page)])
  }

  /** Old contents that were not saved. */
  function Forgotten(data: Data): Data {
    map i | i in data :: None
  }

  /** What a write puts on its page when the page held `was`: the host's sectors, and the old
      ones its companion brought. */
  function Carried(w: Sub, was: Data): Data {
    (if w.whole then was else Forgotten(was)) + w.host
  }

  /** What the page holds after the write: what was transferred of it. */
  function Settled(w: Sub, was: Data): Data {
    Kept(Carried(w, was), Transferred(w.bits))
  }

  /** Finish the command `r`: a host command leaves the table, a relocation is only marked. */
  function Retire(m: Chip, r: nat): Chip
    requires r in m.cmds
  {
    if m.cmds[r].related.None? then m.(cmds := m.cmds - {r})
    else m.(cmds := m.cmds[r := m.cmds[r].(completed := true)])
  }

  function EndProgram(cfg: Config, m: Chip, k: nat): (r': Chip)
    requires Shape(cfg, m) && k < |m.commands|
    ensures r'.phase == Idle && r'.rQueue == m.rQueue && r'.wQueue == m.wQueue && r'.erases == m.erases
    ensures r'.rHand == m.rHand && r'.wHand == m.wHand && r'.cells == m.cells && r'.ages == m.ages
  {
    var r := m.commands[k];
    var s := SubOf(m, r);
    var m1 := Retire(UpdateMap(m, s), r).(phase := Idle, commands := Without(m.commands, k));
    if m.cmds[r].related.Some? then m1
    else m1.(pending := Some(s.loc.at), store := m.store[s.lpn := Settled(s, m.store[s.lpn])])
  }

  function EndReadAddr(cfg: Config, m: Chip, k: nat): (r': Chip)
    requires Shape(cfg, m) && k < |m.commands|
    ensures r'.phase == Idle && r'.rQueue == m.rQueue && r'.wQueue == m.wQueue && r'.erases == m.erases
    ensures r'.rHand == m.rHand && r'.wHand == m.wHand && r'.cells == m.cells && r'.ages == m.ages
    ensures r'.store == m.store && r'.planes == m.planes
  {
    var r := m.commands[k];
    m.(phase := Idle, commands := Without(m.commands, k), incompletedR := m.incompletedR + [r],
       cmds := m.cmds[r := m.cmds[r].(stage := 1)])
  }

  /** The write that waited for the read `s` receives every sector it did not bring. */
  function Merge(w: Sub, s: Sub): Sub {
    w.(bits := w.bits + s.bits, buf := Overlay(w.buf, s.bits - w.bits, s.buf), paired := false, whole := s.whole)
  }

  function MergeAll(ws: seq<Sub>, s: Sub): (r: seq<Sub>)
    ensures |r| == |ws|
    ensures forall i :: 0 <= i < |r| ==> r[i] == if ws[i].paired && ws[i].lpn == s.lpn then Merge(ws[i], s) else ws[i]
  {
    seq(|ws|, i requires 0 <= i < |ws| => if ws[i].paired && ws[i].lpn == s.lpn then Merge(ws[i], s) else ws[i])
  }

  function EndReadData(cfg: Config, m: Chip, k: nat): (r': Chip)
    requires Shape(cfg, m) && k < |m.incompletedR|
    ensures r'.phase == Idle && r'.rQueue == m.rQueue && r'.erases == m.erases && r'.store == m.store
    ensures r'.planes == m.planes
    ensures r'.rHand == m.rHand && r'.cells == m.cells && r'.ages == m.ages
    ensures |r'.wQueue| == |m.wQueue| && |r'.wHand| == |m.wHand|
    ensures forall i :: 0 <= i < |m.wQueue| ==>
              r'.wQueue[i].lpn == m.wQueue[i].lpn && r'.wQueue[i].host == m.wQueue[i].host
    ensures forall i :: 0 <= i < |m.wHand| ==> r'.wHand[i].lpn == m.wHand[i].lpn && r'.wHand[i].host == m.wHand[i].host
  {
    var r := m.incompletedR[k];
    var s := SubOf(m, r);
    Retire(m, r).(phase := Idle, incompletedR := Without(m.incompletedR, k),
       wQueue := if m.cmds[r].related.None? && s.paired then MergeAll(m.wQueue, s) else m.wQueue,
       wHand := if m.cmds[r].related.None? && s.paired then MergeAll(m.wHand, s) else m.wHand)
  }

  function EndErase(cfg: Config, m: Chip, k: nat): (r': Chip)
    requires Shape(cfg, m) && k < |m.erases|
    ensures r'.phase == Idle && r'.rQueue == m.rQueue && r'.wQueue == m.wQueue && r'.store == m.store
    ensures r'.rHand == m.rHand && r'.wHand == m.wHand && r'.cells == m.cells && r'.ages == m.ages
  {
    var r := m.erases[k];
    var at := m.cmds[r].load.at;
    var pl := m.planes[at];
    m.(phase := Idle, erases := Without(m.erases, k), cmds := m.cmds - {r},
       planes := m.planes[at := EraseBlock(cfg.pages, pl, pl.eraseBlock).(eraseUsed := false)])
  }

  /** The queue a completion looks in. */
  function EndQueue(m: Chip): seq<nat> {
    match m.phase
    case Programming => m.commands
    case ReadAddr => m.commands
    case ReadData => m.incompletedR
    case Erasing => m.erases
    case Idle => []
  }

  /** The driver handles the chip's completion, which reports the number `hw.id`. */
  function Complete(cfg: Config, m: Chip): Chip
    requires Shape(cfg, m) && m.phase != Idle && EndIndex(m, EndQueue(m), m.hw.id) < |EndQueue(m)|
  {
    var k := EndIndex(m, EndQueue(m), m.hw.id);
    var m1 := match m.phase
      case Programming => EndProgram(cfg, m, k)
      case ReadAddr => EndReadAddr(cfg, m, k)
      case ReadData => EndReadData(cfg, m, k)
      case Erasing => EndErase(cfg, m, k);
    m1.(hw := m.hw.(signal := false))
  }

  // ---------------------------------------------------------------- the collection check

  /** After a host write: start collecting when the plane runs low and has a victim. */
  function GcCheck(cfg: Config, m: Chip, id: nat): (r': Chip)
    requires Shape(cfg, m) && m.pending.Some?
    ensures r'.rQueue == m.rQueue && r'.wQueue == m.wQueue && r'.rHand == m.rHand && r'.wHand == m.wHand
    ensures r'.phase == m.phase && r'.hw == m.hw && r'.cells == m.cells && r'.ages == m.ages
    ensures r'.commands == m.commands && r'.incompletedR == m.incompletedR
    ensures r'.erases == m.erases || r'.erases == m.erases + [m.nextRef]
    ensures forall r :: r in m.cmds && r != m.nextRef ==> r in r'.cmds && r'.cmds[r] == m.cmds[r]
  {
    var at := m.pending.value;
    var pl := m.planes[at];
    var m1 := m.(pending := None);
    if !pl.eraseUsed && pl.cnt.free <= cfg.threshold then
      match Victim(pl.blocks, |pl.blocks|)
      case None => m1
      case Some(v) =>
        m1.(planes := m.planes[at := pl.(eraseUsed := true, eraseBlock := v)],
            cmds := m.cmds[m.nextRef := Command(Erase, EraseAt(at), id, false, None, 0)],
            nextRef := m.nextRef + 1,
            erases := m.erases + [m.nextRef])
    else m1
  }

  // ---------------------------------------------------------------- the host

  function HostData(bits: set<nat>, buf: PageBuf): Data {
    map i | i in bits && i < SECTORS :: Some(buf[i])
  }

  /** What a read of the sectors `bits` may expect of a page that holds `data`: nothing of
      sectors that are not there, or not transferred. */
  function Expected(data: Data, bits: set<nat>): Data {
    map i | i in bits :: if i in data && i in Transferred(bits) then data[i] else None
  }

  /** A write of the sectors `bits` of page `l` is made. When it does not cover what is mapped,
      a companion read of the mapped sectors is made too and the write waits for it. */
  function SubmitWrite(cfg: Config, m: Chip, l: nat, bits: set<nat>, buf: PageBuf, scratch: PageBuf): Chip
    requires Shape(cfg, m) && l in cfg.homes
  {
    var waits := !(m.entries[l].subPage <= bits);
    var w := Sub(l, bits, buf, Loc(cfg.homes[l], 0, 0), waits, HostData(bits, buf), 0, true);
    m.(wHand := m.wHand + [w],
       rHand := if waits then m.rHand + [ReadFor(m, l, m.entries[l].subPage, scratch, true)] else m.rHand)
  }

  /** A read is given the page the map names when it is made. */
  function ReadFor(m: Chip, l: nat, bits: set<nat>, scratch: PageBuf, paired: bool): Sub
    requires l in m.entries && l in m.store
  {
    var loc := m.entries[l].loc;
    Sub(l, bits, scratch, loc, paired, Expected(m.store[l], bits), if loc in m.ages then m.ages[loc] else 0, true)
  }

  function SubmitRead(cfg: Config, m: Chip, l: nat, bits: set<nat>, scratch: PageBuf): Chip
    requires Shape(cfg, m) && l in cfg.homes
  {
    m.(rHand := m.rHand + [ReadFor(m, l, bits, scratch, false)])
  }

  /** A request's writes are queued as one list, and after them its reads. */
  function QueueWrites(m: Chip): Chip {
    m.(wQueue := m.wQueue + m.wHand, wHand := [])
  }

  function QueueReads(m: Chip): Chip {
    m.(rQueue := m.rQueue + m.rHand, rHand := [])
  }

  /** The NAND chip's timer fires. */
  function Fire(m: Chip): Chip {
    m.(hw := m.hw.(timer := false, signal := true,
                   phase := if m.hw.phase == ReadAddr then ReadAddr else Idle))
  }
}
