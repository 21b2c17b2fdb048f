/** Runs of one chip: every interleaving of submissions, dispatches, NAND timers,
    completions and collection checks, from a blank chip. */
module ChipRuns {
  import opened Flash
  import opened Layout
  import opened Sectors
  import opened Chip
  import opened ChipInv
  import opened ChipHost
  import opened ChipTake
  import opened ChipCommit
  import opened ChipFinish
  import opened ChipErase
  import opened ChipCheck

  datatype Step =
    | HostWrites(l: nat, bits: set<nat>, buf: PageBuf, scratch: PageBuf)
    | HostReads(l: nat, bits: set<nat>, scratch: PageBuf)
    | QueuesWrites
    | QueuesReads
    | Dispatches(id: nat, scratch: PageBuf, junk: seq<PageBuf>)
    | TimerFires
    | Completes
    | Checks(id: nat)

  /** When a step may happen. */
  ghost predicate Guard(cfg: Config, m: Chip, st: Step) {
    match st
    case HostWrites(l, bits, _, _) => MayWrite(cfg, m, l, bits)
    case HostReads(l, bits, _) => MayRead(cfg, m, l, bits)
    case QueuesWrites => true
    case QueuesReads => true
    case Dispatches(_, _, _) => MayDispatch(cfg, m)
    case TimerFires => m.hw.timer
    case Completes => m.hw.signal && m.pending.None?
    case Checks(_) => m.pending.Some?
  }

  /** When a step follows no dangling pointer and finds the command it looks for. */
  ghost predicate Defined(cfg: Config, m: Chip, st: Step) {
    && Shape(cfg, m)
    && match st
       case HostWrites(l, _, _, _) => l in cfg.homes
       case HostReads(l, _, _) => l in cfg.homes
       case QueuesWrites => true
       case QueuesReads => true
       case Dispatches(id, scratch, _) =>
         && (m.erases != [] ==> m.cmds[m.erases[0]].stage <= cfg.pages)
         && var (m1, r) := GetCommand(cfg, m, id, scratch); r.Some? ==> Shape(cfg, m1) && r.value in m1.cmds
       case TimerFires => true
       case Completes => m.phase != Idle && EndIndex(m, EndQueue(m), m.hw.id) < |EndQueue(m)|
       case Checks(_) => m.pending.Some?
  }

  ghost function Next(cfg: Config, m: Chip, st: Step): Chip
    requires Defined(cfg, m, st)
  {
    match st
    case HostWrites(l, bits, buf, scratch) => SubmitWrite(cfg, m, l, bits, buf, scratch)
    case HostReads(l, bits, scratch) => SubmitRead(cfg, m, l, bits, scratch)
    case QueuesWrites => QueueWrites(m)
    case QueuesReads => QueueReads(m)
    case Dispatches(id, scratch, junk) => Dispatch(cfg, m, id, scratch, junk, true)
    case TimerFires => Fire(m)
    case Completes => Complete(cfg, m)
    case Checks(id) => GcCheck(cfg, m, id)
  }

  lemma CompleteKeeps(cfg: Config, m: Chip)
    requires Inv(cfg, m) && m.hw.signal && m.pending.None?
    ensures Shape(cfg, m) && m.phase != Idle && EndIndex(m, EndQueue(m), m.hw.id) < |EndQueue(m)|
    ensures Inv(cfg, Complete(cfg, m))
  {
    SignalMeansBusy(cfg, m);
    hide Inv, Complete;
    if m.phase == Programming {
      EndProgramKeeps(cfg, m);
    } else if m.phase == ReadAddr {
      EndReadAddrKeeps(cfg, m);
    } else if m.phase == ReadData {
      EndReadDataKeeps(cfg, m);
    } else {
      EndEraseKeeps(cfg, m);
    }
  }

  lemma SignalMeansBusy(cfg: Config, m: Chip)
    requires Inv(cfg, m) && m.hw.signal
    ensures m.phase != Idle
  {
    hide Shape, Exact, MapForward, MapBackward, Stored, Writes, Reads, EraseQueue, Marked, Room, Hosts, Collecting;
  }

  /** Every step that may happen is defined and keeps the invariant. */
  lemma StepKeeps(cfg: Config, m: Chip, st: Step)
    requires Roomy(cfg) && Inv(cfg, m) && Guard(cfg, m, st)
    ensures Defined(cfg, m, st) && Inv(cfg, Next(cfg, m, st))
  {
    hide *;
    if st.HostWrites? || st.HostReads? || st.QueuesWrites? || st.QueuesReads? {
      ListStepKeeps(cfg, m, st);
    } else {
      WorkStepKeeps(cfg, m, st);
    }
  }

  lemma ListStepKeeps(cfg: Config, m: Chip, st: Step)
    requires Inv(cfg, m) && Guard(cfg, m, st)
    requires st.HostWrites? || st.HostReads? || st.QueuesWrites? || st.QueuesReads?
    ensures Defined(cfg, m, st) && Inv(cfg, Next(cfg, m, st))
  {
    hide Inv, Next, Defined, Guard;
    match st {
      case HostWrites(_, _, _, _) => WriteStepKeeps(cfg, m, st);
      case HostReads(_, _, _) => ReadStepKeeps(cfg, m, st);
      case _ => QueueStepKeeps(cfg, m, st);
    }
  }

  lemma WriteStepKeeps(cfg: Config, m: Chip, st: Step)
    requires Inv(cfg, m) && Guard(cfg, m, st) && st.HostWrites?
    ensures Defined(cfg, m, st) && Inv(cfg, Next(cfg, m, st))
  {
    hide Inv, Shape, SubmitWrite, MayWrite, Dispatch, Complete, GcCheck, GetCommand, EndIndex, EndQueue;
    InvShape(cfg, m);
    MayWriteHome(cfg, m, st.l, st.bits);
    SubmitWriteKeeps(cfg, m, st.l, st.bits, st.buf, st.scratch);
  }

  lemma ReadStepKeeps(cfg: Config, m: Chip, st: Step)
    requires Inv(cfg, m) && Guard(cfg, m, st) && st.HostReads?
    ensures Defined(cfg, m, st) && Inv(cfg, Next(cfg, m, st))
  {
    hide Inv, Shape, SubmitRead, MayRead, Dispatch, Complete, GcCheck, GetCommand, EndIndex, EndQueue;
    InvShape(cfg, m);
    MayReadHome(cfg, m, st.l, st.bits);
    SubmitReadKeeps(cfg, m, st.l, st.bits, st.scratch);
  }

  lemma QueueStepKeeps(cfg: Config, m: Chip, st: Step)
    requires Inv(cfg, m) && (st.QueuesWrites? || st.QueuesReads?)
    ensures Defined(cfg, m, st) && Inv(cfg, Next(cfg, m, st))
  {
    hide Inv, Shape, QueueWrites, QueueReads, Dispatch, Complete, GcCheck, GetCommand, EndIndex, EndQueue;
    InvShape(cfg, m);
    if st.QueuesWrites? { QueueWritesKeeps(cfg, m); } else { QueueReadsKeeps(cfg, m); }
  }

  lemma WorkStepKeeps(cfg: Config, m: Chip, st: Step)
    requires Roomy(cfg) && Inv(cfg, m) && Guard(cfg, m, st)
    requires !st.HostWrites? && !st.HostReads? && !st.QueuesWrites? && !st.QueuesReads?
    ensures Defined(cfg, m, st) && Inv(cfg, Next(cfg, m, st))
  {
    InvShape(cfg, m);
    hide Inv, Shape, Roomy, Complete, Dispatch, GcCheck, GetCommand, Fire;
    match st {
      case Dispatches(id, scratch, junk) => DispatchKeeps(cfg, m, id, scratch, junk);
      case TimerFires => FireKeeps(cfg, m);
      case Completes => CompleteKeeps(cfg, m);
      case Checks(id) => CheckKeeps(cfg, m, id);
    }
  }

  lemma InvShape(cfg: Config, m: Chip)
    requires Inv(cfg, m)
    ensures Shape(cfg, m)
  {
    hide Shape;
  }

  lemma MayWriteHome(cfg: Config, m: Chip, l: nat, bits: set<nat>)
    requires MayWrite(cfg, m, l, bits)
    ensures l in cfg.homes
  {
  }

  lemma MayReadHome(cfg: Config, m: Chip, l: nat, bits: set<nat>)
    requires MayRead(cfg, m, l, bits)
    ensures l in cfg.homes
  {
  }

  // ---------------------------------------------------------------- the blank chip

  ghost predicate BlankBlock(P: nat, b: Block) {
    && b.cnt == Counts(P, 0, 0) && b.startWrite == 0 && |b.pages| == P
    && forall p :: 0 <= p < P ==> b.pages[p].state == {}
  }

  ghost predicate BlankPlane(B: nat, P: nat, pl: Plane) {
    && |pl.blocks| == B && pl.active == 0 && !pl.eraseUsed && pl.eraseBlock < B
    && pl.cnt == Counts(Cap(B, P), 0, 0)
    && forall b :: 0 <= b < B ==> BlankBlock(P, pl.blocks[b])
  }

  /** A chip as it is set up: everything free, nothing mapped, nothing queued. */
  ghost predicate Init(cfg: Config, m: Chip) {
    && m.phase == Idle && m.commands == [] && m.incompletedR == [] && m.erases == [] && m.cmds == map[]
    && m.rQueue == [] && m.wQueue == [] && m.rHand == [] && m.wHand == [] && m.pending.None?
    && m.planes.Keys == cfg.addrs && (forall a :: a in m.planes ==> BlankPlane(cfg.blocks, cfg.pages, m.planes[a]))
    && m.entries.Keys == cfg.homes.Keys && (forall l :: l in m.entries ==> m.entries[l].subPage == {})
    && m.store.Keys == cfg.homes.Keys && (forall l :: l in m.store ==> m.store[l] == map[])
    && (forall loc :: InRange(cfg, loc) ==> loc in m.cells && loc in m.ages)
    && m.hw.phase == Idle && !m.hw.timer && !m.hw.signal
  }

  function BlankPlaneOf(cfg: Config): Plane {
    var block := Block(Counts(cfg.pages, 0, 0), 0, seq(cfg.pages, p => Page({}, 0)));
    Plane(Counts(Cap(cfg.blocks, cfg.pages), 0, 0), 0, false, 0, seq(cfg.blocks, b => block))
  }

  function PagesOf(cfg: Config): set<Loc> {
    set a, b: nat, p: nat | a in cfg.addrs && b < cfg.blocks && p < cfg.pages :: Loc(a, b, p)
  }

  /** A blank chip of a configuration. */
  function BlankChip(cfg: Config, buf: PageBuf, nowhere: Loc): Chip {
    Chip(Idle, [], [], [], map[], 0, [], [], [], [], None,
         map a | a in cfg.addrs :: BlankPlaneOf(cfg),
         map l | l in cfg.homes :: Entry({}, nowhere),
         Nand(Idle, nowhere, 0, false, false),
         map loc | loc in PagesOf(cfg) :: buf,
         map loc | loc in PagesOf(cfg) :: 0,
         map l | l in cfg.homes :: map[])
  }

  /** Every configuration has a chip to start from. */
  lemma BlankIsInit(cfg: Config, buf: PageBuf, nowhere: Loc)
    requires ConfigShape(cfg)
    ensures Init(cfg, BlankChip(cfg, buf, nowhere))
  {
  }

  lemma {:induction false} BlankTotal(P: nat, blocks: seq<Block>)
    requires forall b :: 0 <= b < |blocks| ==> blocks[b].cnt == Counts(P, 0, 0)
    ensures Total(BlockCounts(blocks)) == Counts(Cap(|blocks|, P), 0, 0)
  {
    if blocks != [] {
      var n := |blocks| - 1;
      assert BlockCounts(blocks)[..n] == BlockCounts(blocks[..n]);
      BlankTotal(P, blocks[..n]);
    }
  }

  lemma BlankExact(cfg: Config, pl: Plane)
    requires cfg.pages > 0 && cfg.blocks > 0 && BlankPlane(cfg.blocks, cfg.pages, pl)
    ensures PlaneShape(cfg, pl) && PlaneExact(cfg.blocks, cfg.pages, pl, NoCell)
  {
    BlankTotal(cfg.pages, pl.blocks);
    forall b | 0 <= b < cfg.blocks ensures BlockExact(cfg.pages, pl.blocks[b], BusyIn(NoCell, b)) {
      assert BlankBlock(cfg.pages, pl.blocks[b]);
      assert Live(pl.blocks[b].pages) == {};
    }
  }

  lemma BlankRoom(cfg: Config, a: PlaneAddr, pl: Plane)
    requires Roomy(cfg) && a in cfg.addrs && BlankPlane(cfg.blocks, cfg.pages, pl)
    ensures RoomAt(cfg, pl, false, false, false)
  {
  }

  lemma InitPlanes(cfg: Config, m: Chip)
    requires Roomy(cfg) && Init(cfg, m)
    ensures PlanesShape(cfg, m.planes) && Exact(cfg, m.planes, None) && MapBackward(cfg, m.entries, m.planes)
    ensures forall a :: a in m.planes ==> RoomAt(cfg, m.planes[a], false, false, false) && !m.planes[a].eraseUsed
  {
    hide PlaneExact, PlaneShape;
    forall a | a in m.planes
      ensures PlaneShape(cfg, m.planes[a]) && PlaneExact(cfg.blocks, cfg.pages, m.planes[a], CellAt(None, a))
      ensures RoomAt(cfg, m.planes[a], false, false, false)
    {
      BlankExact(cfg, m.planes[a]);
      BlankRoom(cfg, a, m.planes[a]);
    }
    forall loc | InRange(cfg, loc) ensures PageOf(m.planes, loc).state == {} {
      assert BlankPlane(cfg.blocks, cfg.pages, m.planes[loc.at]);
      assert BlankBlock(cfg.pages, m.planes[loc.at].blocks[loc.block]);
    }
  }

  lemma InitInv(cfg: Config, m: Chip)
    requires Roomy(cfg) && Init(cfg, m)
    ensures Inv(cfg, m)
  {
    InitPlanes(cfg, m);
    InitLists(cfg, m);
    InitQuiet(cfg, m);
    InitTables(cfg, m);
    InitUnmapped(cfg, m);
    hide PlanesShape, MapForward, MapBackward, Exact, EntriesShape, SubsShape, TableShape, ListShape, Writes, Reads,
         Looked, Stored, Roomy, Queues, Hosts, Burnt, EraseQueue, Marked, Collecting, Room, InStep, RoomAt, Init,
         ConfigShape, Burning, AllReads, AllWrites;
  }

  lemma InitUnmapped(cfg: Config, m: Chip)
    requires Init(cfg, m) && PlanesShape(cfg, m.planes)
    ensures MapForward(cfg, m.entries, m.planes) && Burning(m).None?
  {
    hide PlaneShape, BlankPlane, InRange;
  }

  lemma InitTables(cfg: Config, m: Chip)
    requires Init(cfg, m)
    ensures TableShape(cfg, m.cmds, m.nextRef) && ListShape(m.cmds, m.commands, m.incompletedR, m.erases)
    ensures (forall loc :: InRange(cfg, loc) ==> loc in m.cells && loc in m.ages) && m.pending.None?
  {
    hide BlankPlane, InRange;
  }

  lemma InitQuiet(cfg: Config, m: Chip)
    requires Init(cfg, m)
    requires forall a :: a in m.planes ==> RoomAt(cfg, m.planes[a], false, false, false) && !m.planes[a].eraseUsed
    ensures Queues(m) && Hosts(cfg, m) && Burnt(m) && Collecting(cfg, m) && Room(cfg, m) && InStep(m)
    ensures EraseQueue(cfg, m.planes, m.cmds, m.erases) && Marked(m.planes, m.cmds, m.erases)
  {
    hide BlankPlane, RoomAt, InRange, Moving, HostReadOk, HostWriteOk, Dead, EraseOk;
  }

  lemma InitLists(cfg: Config, m: Chip)
    requires Roomy(cfg) && Init(cfg, m)
    ensures ConfigShape(cfg) && EntriesShape(cfg, m.entries, m.store) && Stored(m.entries, m.cells, m.store)
    ensures SubsShape(cfg, AllReads(m)) && SubsShape(cfg, AllWrites(m))
    ensures Writes(cfg, AllWrites(m), m.store) && Reads(AllReads(m), AllWrites(m), m.store)
    ensures Looked(AllReads(m), m.cells, m.ages)
  {
    hide BlankPlane, Within, Ready, Waiting, ReadOk, Named, SubShape;
  }

  // ---------------------------------------------------------------- runs

  /** `states` is a run of the chip through `steps`. */
  ghost predicate Run(cfg: Config, states: seq<Chip>, steps: seq<Step>) {
    && |states| == |steps| + 1
    && Init(cfg, states[0])
    && forall i :: 0 <= i < |steps| ==>
         Guard(cfg, states[i], steps[i]) && Defined(cfg, states[i], steps[i])
             && states[i + 1] == Next(cfg, states[i], steps[i])
  }

  /** The invariant holds in every state of every run. */
  lemma {:induction false} RunKeeps(cfg: Config, states: seq<Chip>, steps: seq<Step>, n: nat)
    requires Roomy(cfg) && Run(cfg, states, steps) && n < |states|
    ensures Inv(cfg, states[n])
  {
    hide Inv, Next, Init, Guard, Defined;
    if n == 0 {
      InitInv(cfg, states[0]);
    } else {
      RunKeeps(cfg, states, steps, n - 1);
      StepKeeps(cfg, states[n - 1], steps[n - 1]);
    }
  }

  /** And no run gets stuck on a step that may happen. */
  lemma RunExtends(cfg: Config, states: seq<Chip>, steps: seq<Step>, st: Step)
    requires Roomy(cfg) && Run(cfg, states, steps) && Guard(cfg, states[|steps|], st)
    ensures Defined(cfg, states[|steps|], st)
    ensures Run(cfg, states + [Next(cfg, states[|steps|], st)], steps + [st])
  {
    hide Inv, Next, Init, Guard, Defined;
    RunKeeps(cfg, states, steps, |steps|);
    StepKeeps(cfg, states[|steps|], st);
  }
}
