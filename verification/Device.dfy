/** The whole device: a family of chips, the channels they share, and the counters above
    the planes. A channel carries one command at a time; the chips behind it go on alone. */
module Device {
  import opened Flash
  import opened Layout
  import opened Lists
  import opened Sectors
  import opened Addressing
  import opened Counters
  import opened Chip
  import opened ChipInv
  import opened ChipRuns

  /** A channel: what the driver thinks of it, and the bus behind it. */
  datatype Channel = Channel(idle: bool, busIdle: bool, timer: bool, signal: bool)

  /** A channel that has just been given a command. */
  const BUSY := Channel(false, false, true, false)

  datatype Device = Device(chips: map<ChipAddr, Chip>, chans: map<nat, Channel>, tree: Tree)

  datatype DeviceStep =
    | OnChip(c: ChipAddr, st: Step)
    | ChannelFires(i: nat)
    | ChannelCompletes(i: nat)

  // ---------------------------------------------------------------- the page counters of a step

  const TAKEN := Counts(-1, 1, 0)

  function Erased(P: nat): Counts { Counts(P, 0, 0 - P) }

  /** The plane whose counters the sending of command `r` moves, and by how much. */
  function SentAt(m: Chip, r: nat): Option<(PlaneAddr, Counts)> {
    if r in m.cmds && m.cmds[r].op == Write && m.cmds[r].load.OfSub? then Some((SubOf(m, r).loc.at, TAKEN)) else None
  }

  /** And its completion. */
  function EndedAt(cfg: Config, m: Chip, r: nat): Option<(PlaneAddr, Counts)> {
    if r !in m.cmds then None
    else if m.phase == Programming && m.cmds[r].load.OfSub? && SubOf(m, r).lpn in m.entries then
      var o := m.entries[SubOf(m, r).lpn];
      if o.subPage == {} then None else Some((o.loc.at, STALE))
    else if m.phase == Erasing && m.cmds[r].load.EraseAt? then Some((m.cmds[r].load.at, Erased(cfg.pages)))
    else None
  }

  /** The plane whose counters a step moves, and by how much. */
  ghost function Moved(cfg: Config, m: Chip, st: Step): Option<(PlaneAddr, Counts)>
    requires Defined(cfg, m, st)
  {
    match st
    case Dispatches(id, scratch, _) =>
      var (m1, r) := GetCommand(cfg, m, id, scratch);
      if r.Some? then SentAt(m1, r.value) else None
    case Completes => EndedAt(cfg, m, EndQueue(m)[EndIndex(m, EndQueue(m), m.hw.id)])
    case _ => None
  }

  /** The chip's part of a step; `busIdle` matters only to a dispatch. */
  ghost function ChipNext(cfg: Config, m: Chip, st: Step, busIdle: bool): Chip
    requires Defined(cfg, m, st)
  {
    if st.Dispatches? then Dispatch(cfg, m, st.id, st.scratch, st.junk, busIdle)
    else Next(cfg, m, st)
  }

  /** A step moves the counters of one plane at most, and by that much. */
  ghost predicate CountsMove(m: Chip, m': Chip, moved: Option<(PlaneAddr, Counts)>) {
    && m'.planes.Keys == m.planes.Keys
    && (moved.Some? ==> moved.value.0 in m.planes)
    && forall a :: a in m.planes ==>
         m'.planes[a].cnt == if moved.Some? && moved.value.0 == a then Plus(m.planes[a].cnt, moved.value.1)
             else m.planes[a].cnt
  }

  lemma SendMoves(cfg: Config, m: Chip, r: nat, junk: seq<PageBuf>, busIdle: bool)
    requires Shape(cfg, m) && r in m.cmds
    ensures CountsMove(m, Send(cfg, m, r, junk, busIdle), SentAt(m, r))
  {
    hide Shape, SendWrite, SendRead, SendErase;
    if m.cmds[r].op == Write {
      WriteMoves(cfg, m, r, busIdle);
    }
  }

  lemma WriteMoves(cfg: Config, m: Chip, r: nat, busIdle: bool)
    requires Shape(cfg, m) && r in m.cmds && m.cmds[r].op == Write
    ensures CountsMove(m, SendWrite(cfg, m, r, busIdle), SentAt(m, r))
  {
    WriteTarget(cfg, m, r);
    AllocMoves(cfg.pages, m.planes[SubOf(m, r).loc.at]);
    hide Shape, AllocPage, NextCell, Transferred, Overlay, Accepts, Start;
  }

  lemma AllocMoves(P: nat, pl: Plane)
    requires pl.active < |pl.blocks|
    ensures AllocPage(P, pl).cnt == Plus(pl.cnt, TAKEN)
  {
  }

  lemma WriteTarget(cfg: Config, m: Chip, r: nat)
    requires Shape(cfg, m) && r in m.cmds && m.cmds[r].op != Erase
    ensures m.cmds[r].load.OfSub? && SubOf(m, r).lpn in m.entries
    ensures SubOf(m, r).loc.at in m.planes && PlaneShape(cfg, m.planes[SubOf(m, r).loc.at])
    ensures InRange(cfg, SubOf(m, r).loc)
    ensures m.entries[SubOf(m, r).lpn].subPage != {} ==>
              InRange(cfg, m.entries[SubOf(m, r).lpn].loc) && m.entries[SubOf(m, r).lpn].loc.at in m.planes
              && PlaneShape(cfg, m.planes[m.entries[SubOf(m, r).lpn].loc.at])
  {
    hide SubsShape, ListShape, PlaneShape;
    assert CommandShape(cfg, m.cmds[r]);
  }

  lemma ProgramMoves(cfg: Config, m: Chip, k: nat)
    requires Shape(cfg, m) && k < |m.commands|
    ensures m.commands[k] in m.cmds && m.cmds[m.commands[k]].op != Erase
    ensures m.phase == Programming ==> CountsMove(m, EndProgram(cfg, m, k), EndedAt(cfg, m, m.commands[k]))
  {
    hide Shape, Retire, Without, CommitPage, InvalidatePage, UpdateMap, InRange, PlaneShape;
    EndCommandIs(cfg, m, k);
    var r := m.commands[k];
    MapMoves(cfg, m, r);
    RetireMoves(UpdateMap(m, SubOf(m, r)), r);
  }

  lemma MapMoves(cfg: Config, m: Chip, r: nat)
    requires Shape(cfg, m) && r in m.cmds && m.cmds[r].op != Erase
    ensures m.cmds[r].load.OfSub?
    ensures UpdateMap.requires(m, SubOf(m, r)) && UpdateMap(m, SubOf(m, r)).cmds == m.cmds
    ensures m.phase == Programming ==> CountsMove(m, UpdateMap(m, SubOf(m, r)), EndedAt(cfg, m, r))
  {
    hide Shape, CommitPage, InvalidatePage, UpdateMap, CountsMove;
    WriteTarget(cfg, m, r);
    UpdateMoves(m, SubOf(m, r));
  }

  lemma UpdateMoves(m: Chip, s: Sub)
    requires UpdateMap.requires(m, s)
    ensures UpdateMap(m, s).cmds == m.cmds
    ensures var o := m.entries[s.lpn];
            CountsMove(m, UpdateMap(m, s), if o.subPage == {} then None else Some((o.loc.at, STALE)))
  {
    hide CommitPage, InvalidatePage;
    var o := m.entries[s.lpn];
    CommitMoves(m.planes[s.loc.at], s.loc.block, s.loc.page, s.bits, s.lpn);
    if o.subPage != {} {
      var planes1 := m.planes[s.loc.at := CommitPage(m.planes[s.loc.at], s.loc.block, s.loc.page, s.bits, s.lpn)];
      InvalidateMoves(planes1[o.loc.at], o.loc.block, o.loc.page);
    }
  }

  lemma EndCommandIs(cfg: Config, m: Chip, k: nat)
    requires Shape(cfg, m) && k < |m.commands|
    ensures m.commands[k] in m.cmds && m.cmds[m.commands[k]].op != Erase
  {
    hide PlanesShape, EntriesShape, TableShape, SubsShape;
  }

  lemma CommitMoves(pl: Plane, b: nat, p: nat, bits: set<nat>, lpn: nat)
    requires b < |pl.blocks| && p < |pl.blocks[b].pages|
    ensures CommitPage(pl, b, p, bits, lpn).cnt == pl.cnt
    ensures forall j :: 0 <= j < |pl.blocks| ==>
            |CommitPage(pl, b, p, bits, lpn).blocks[j].pages| == |pl.blocks[j].pages|
  {
  }

  lemma InvalidateMoves(pl: Plane, b: nat, p: nat)
    requires b < |pl.blocks| && p < |pl.blocks[b].pages|
    ensures InvalidatePage(pl, b, p).cnt == Plus(pl.cnt, STALE)
  {
  }

  lemma RetireMoves(m: Chip, r: nat)
    requires r in m.cmds
    ensures Retire(m, r).planes == m.planes
  {
  }

  lemma CompleteMoves(cfg: Config, m: Chip)
    requires Defined(cfg, m, Completes)
    ensures CountsMove(m, Complete(cfg, m), Moved(cfg, m, Completes))
  {
    hide Shape, EndProgram, EndReadAddr, EndReadData, EndErase, CountsMove, EndIndex, EndedAt, Moved;
    EndedIs(cfg, m);
    var k := EndIndex(m, EndQueue(m), m.hw.id);
    match m.phase {
      case Programming =>
        ProgramMoves(cfg, m, k);
        HandledMoves(m, EndProgram(cfg, m, k), Moved(cfg, m, Completes));
      case ReadAddr => SameCounts(m, Complete(cfg, m));
      case ReadData => SameCounts(m, Complete(cfg, m));
      case Erasing =>
        EraseMoves(cfg, m, k);
        HandledMoves(m, EndErase(cfg, m, k), Moved(cfg, m, Completes));
      case Idle =>
    }
  }

  lemma EndedIs(cfg: Config, m: Chip)
    requires Defined(cfg, m, Completes)
    ensures forall i :: 0 <= i < |EndQueue(m)| ==> EndQueue(m)[i] in m.cmds
    ensures Moved(cfg, m, Completes) == EndedAt(cfg, m, EndQueue(m)[EndIndex(m, EndQueue(m), m.hw.id)])
    ensures m.phase != Programming && m.phase != Erasing ==> Moved(cfg, m, Completes).None?
  {
    hide Shape, EndIndex;
    EndQueueIn(cfg, m);
  }

  lemma EndQueueIn(cfg: Config, m: Chip)
    requires Shape(cfg, m)
    ensures forall i :: 0 <= i < |EndQueue(m)| ==> EndQueue(m)[i] in m.cmds
  {
    hide PlanesShape, EntriesShape, TableShape, SubsShape;
  }

  lemma SameCounts(m: Chip, m': Chip)
    requires m'.planes == m.planes
    ensures CountsMove(m, m', None)
  {
  }

  lemma EraseMoves(cfg: Config, m: Chip, k: nat)
    requires Shape(cfg, m) && k < |m.erases| && m.phase == Erasing
    ensures CountsMove(m, EndErase(cfg, m, k), EndedAt(cfg, m, m.erases[k]))
  {
    hide PlaneShape, EntriesShape, SubsShape, Blank;
    assert CommandShape(cfg, m.cmds[m.erases[k]]);
  }

  lemma HandledMoves(m: Chip, m': Chip, moved: Option<(PlaneAddr, Counts)>)
    requires CountsMove(m, m', moved)
    ensures CountsMove(m, m'.(hw := m.hw.(signal := false)), moved)
  {
  }

  lemma StepMoves(cfg: Config, m: Chip, st: Step, busIdle: bool)
    requires Defined(cfg, m, st)
    ensures CountsMove(m, ChipNext(cfg, m, st, busIdle), Moved(cfg, m, st))
  {
    hide Send, GetCommand, Complete, Shape, SubOf;
    match st {
      case Dispatches(id, scratch, junk) =>
        var (m1, r) := GetCommand(cfg, m, id, scratch);
        if r.Some? {
          SendMoves(cfg, m1, r.value, junk, busIdle);
        }
      case Completes => CompleteMoves(cfg, m);
      case _ => OtherMoves(cfg, m, st);
    }
  }

  lemma OtherMoves(cfg: Config, m: Chip, st: Step)
    requires Defined(cfg, m, st) && !st.Dispatches? && !st.Completes?
    ensures CountsMove(m, Next(cfg, m, st), None)
  {
  }

  // ---------------------------------------------------------------- steps of the device

  ghost predicate DeviceGuard(g: Geometry, split: bool, d: Device, s: DeviceStep)
    requires Addressing.Valid(g)
  {
    match s
    case OnChip(c, st) =>
      && c in d.chips && c.channel in d.chans && Guard(ConfigOf(g, c, split), d.chips[c], st)
      && (st.Dispatches? ==> d.chans[c.channel].idle)
    case ChannelFires(i) => i in d.chans && d.chans[i].timer
    case ChannelCompletes(i) => i in d.chans && d.chans[i].signal
  }

  ghost predicate DeviceDefined(g: Geometry, split: bool, d: Device, s: DeviceStep)
    requires Addressing.Valid(g)
  {
    match s
    case OnChip(c, st) =>
      && c in d.chips && c.channel in d.chans && Defined(ConfigOf(g, c, split), d.chips[c], st)
      && var moved := Moved(ConfigOf(g, c, split), d.chips[c], st);
         moved.Some? ==>
              DieOf(moved.value.0) in d.tree.dies && ChipOf(moved.value.0) in d.tree.chips &&
              moved.value.0.channel in d.tree.chans
    case ChannelFires(i) => i in d.chans
    case ChannelCompletes(i) => i in d.chans
  }

  /** A command goes out over the channel. */
  ghost predicate Sends(cfg: Config, m: Chip, st: Step)
    requires Defined(cfg, m, st)
  {
    st.Dispatches? && GetCommand(cfg, m, st.id, st.scratch).1.Some?
  }

  ghost function DeviceNext(g: Geometry, split: bool, d: Device, s: DeviceStep): Device
    requires Addressing.Valid(g) && DeviceDefined(g, split, d, s)
  {
    match s
    case OnChip(c, st) =>
      var cfg, m, ch := ConfigOf(g, c, split), d.chips[c], d.chans[c.channel];
      var moved := Moved(cfg, m, st);
      Device(d.chips[c := ChipNext(cfg, m, st, ch.busIdle)],
             if !Sends(cfg, m, st) then d.chans
             else d.chans[c.channel := if ch.busIdle then BUSY else ch.(idle := false)],
             if moved.Some? then Shift(d.tree, moved.value.0, moved.value.1) else d.tree)
    case ChannelFires(i) => d.(chans := d.chans[i := d.chans[i].(busIdle := true, timer := false, signal := true)])
    case ChannelCompletes(i) => d.(chans := d.chans[i := d.chans[i].(idle := true, signal := false)])
  }

  // ---------------------------------------------------------------- what every state keeps

  /** The driver believes a channel idle only while its bus is, and nothing is under way. */
  ghost predicate ChannelOk(ch: Channel) {
    if ch.idle then ch.busIdle && !ch.timer && !ch.signal
    else ch.timer != ch.signal && ch.busIdle == ch.signal
  }

  function PlaneCnt(chips: map<ChipAddr, Chip>): PlaneAddr -> Counts {
    (a: PlaneAddr) => if ChipOf(a) in chips && a in chips[ChipOf(a)].planes then chips[ChipOf(a)].planes[a].cnt
        else ZERO
  }

  ghost predicate DeviceInv(g: Geometry, split: bool, d: Device) {
    && Addressing.Valid(g)
    && (forall c :: c in d.chips <==> HasChip(g, c))
    && (forall i: nat :: i in d.chans <==> i < g.channels)
    && (forall c :: c in d.chips ==> Inv(ConfigOf(g, c, split), d.chips[c]))
    && (forall i :: i in d.chans ==> ChannelOk(d.chans[i]))
    && Agree(g, PlaneCnt(d.chips), d.tree)
  }

  /** A tenth of a plane is at least two blocks, and the slack. */
  predicate Sized(g: Geometry, split: bool) {
    Addressing.Valid(g) && Threshold(g) >= 2 * g.pages + if split then g.blocks else 0
  }

  lemma PlanesOfChip(g: Geometry, split: bool, c: ChipAddr, m: Chip, a: PlaneAddr)
    requires Addressing.Valid(g) && HasChip(g, c) && Shape(ConfigOf(g, c, split), m)
    ensures a in m.planes ==> OnDevice(g, a) && ChipOf(a) == c
  {
  }

  lemma TreeFollows(g: Geometry, split: bool, d: Device, c: ChipAddr, m': Chip, moved: Option<(PlaneAddr, Counts)>)
    requires DeviceInv(g, split, d) && c in d.chips && Shape(ConfigOf(g, c, split), d.chips[c])
    requires CountsMove(d.chips[c], m', moved)
    ensures moved.Some? ==>
              DieOf(moved.value.0) in d.tree.dies && ChipOf(moved.value.0) in d.tree.chips &&
              moved.value.0.channel in d.tree.chans
    ensures Agree(g, PlaneCnt(d.chips[c := m']), if moved.Some? then Shift(d.tree, moved.value.0, moved.value.1)
            else d.tree)
  {
    hide Inv, Agree, Shape;
    var f, f' := PlaneCnt(d.chips), PlaneCnt(d.chips[c := m']);
    forall a | a in d.chips[c].planes ensures OnDevice(g, a) && ChipOf(a) == c {
      PlanesOfChip(g, split, c, d.chips[c], a);
    }
    if moved.Some? {
      assert Bumped(f, f', moved.value.0, moved.value.1);
      ShiftAgrees(g, f, f', d.tree, moved.value.0, moved.value.1);
      AgreeHas(g, f, d.tree, moved.value.0);
    } else {
      SameAgrees(g, f, f', d.tree);
    }
  }

  lemma AgreeHas(g: Geometry, f: PlaneAddr -> Counts, t: Tree, a: PlaneAddr)
    requires Agree(g, f, t) && OnDevice(g, a)
    ensures DieOf(a) in t.dies && ChipOf(a) in t.chips && a.channel in t.chans
  {
    assert HasDie(g, DieOf(a)) && HasChip(g, ChipOf(a));
  }

  lemma ChipFacts(g: Geometry, split: bool, d: Device, c: ChipAddr, st: Step)
    requires Sized(g, split) && DeviceInv(g, split, d) && DeviceGuard(g, split, d, OnChip(c, st))
    ensures c in d.chips && HasChip(g, c) && c.channel in d.chans && ChannelOk(d.chans[c.channel])
    ensures Roomy(ConfigOf(g, c, split)) && Inv(ConfigOf(g, c, split), d.chips[c])
    ensures Guard(ConfigOf(g, c, split), d.chips[c], st)
    ensures st.Dispatches? ==> d.chans[c.channel].idle && d.chans[c.channel].busIdle
  {
    hide Inv, Agree, Roomy, ConfigOf, Guard, Threshold;
    GeometryIsRoomy(g, c, split);
  }

  lemma Reassemble(g: Geometry, split: bool, d: Device, c: ChipAddr, m': Chip, chans': map<nat, Channel>, tree': Tree)
    requires DeviceInv(g, split, d) && c in d.chips && c.channel in d.chans && Inv(ConfigOf(g, c, split), m')
    requires chans' == d.chans || chans' == d.chans[c.channel := BUSY]
    requires Agree(g, PlaneCnt(d.chips[c := m']), tree')
    ensures DeviceInv(g, split, Device(d.chips[c := m'], chans', tree'))
  {
    hide Inv, Agree, ConfigOf, PlaneCnt;
  }

  lemma ChipStepKeeps(g: Geometry, split: bool, d: Device, c: ChipAddr, st: Step)
    requires Sized(g, split) && DeviceInv(g, split, d) && DeviceGuard(g, split, d, OnChip(c, st))
    ensures DeviceDefined(g, split, d, OnChip(c, st))
    ensures DeviceInv(g, split, DeviceNext(g, split, d, OnChip(c, st)))
    ensures DeviceNext(g, split, d, OnChip(c, st)).chips == d.chips[c := Next(ConfigOf(g, c, split), d.chips[c], st)]
  {
    hide DeviceInv, DeviceGuard, Sized, Roomy, Guard, Inv, Agree, Shape, ConfigOf, Defined, Moved, CountsMove,
         GetCommand, Dispatch, PlaneCnt, Next, Shift, HasChip, ChipNext;
    ChipFacts(g, split, d, c, st);
    SizedIs(g, split);
    var cfg, m := ConfigOf(g, c, split), d.chips[c];
    StepKeeps(cfg, m, st);
    InvShape(cfg, m);
    var b := d.chans[c.channel].busIdle;
    StepMoves(cfg, m, st, b);
    NextIs(cfg, m, st, b);
    var m' := ChipNext(cfg, m, st, b);
    TreeFollows(g, split, d, c, m', Moved(cfg, m, st));
    var d' := DeviceNext(g, split, d, OnChip(c, st));
    assert Sends(cfg, m, st) ==> d'.chans == d.chans[c.channel := BUSY];
    Reassemble(g, split, d, c, m', d'.chans, d'.tree);
  }

  lemma SizedIs(g: Geometry, split: bool)
    requires Sized(g, split)
    ensures Addressing.Valid(g)
  {
  }

  lemma NextIs(cfg: Config, m: Chip, st: Step, busIdle: bool)
    requires Defined(cfg, m, st) && (st.Dispatches? ==> busIdle)
    ensures ChipNext(cfg, m, st, busIdle) == Next(cfg, m, st)
  {
    hide Dispatch, Defined;
  }

  /** Every step that may happen on the device is defined and keeps its invariant. */
  lemma DeviceStepKeeps(g: Geometry, split: bool, d: Device, s: DeviceStep)
    requires Sized(g, split) && DeviceInv(g, split, d) && DeviceGuard(g, split, d, s)
    ensures DeviceDefined(g, split, d, s) && DeviceInv(g, split, DeviceNext(g, split, d, s))
  {
    hide Inv, Agree;
    if s.OnChip? {
      ChipStepKeeps(g, split, d, s.c, s.st);
    }
  }
}
