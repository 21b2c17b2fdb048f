/** Collection makes progress and nothing else gets in its way; commands find the NAND chip
    ready and completions find the command that was sent. */
module ChipProgress {
  import opened Flash
  import opened Layout
  import opened Sectors
  import opened Chip
  import opened ChipInv
  import opened ChipDispatch
  import opened ChipTake
  import opened ChipCommit
  import opened ChipFinish
  import opened ChipHost
  import opened ChipRuns

  // ---------------------------------------------------------------- collection ends

  /** How much is left of the collection at the head of the queue: four visits or completions
      for every page the cursor has not passed. */
  function GcWork(P: nat, cmds: map<nat, Command>, erases: seq<nat>): nat {
    if erases == [] || erases[0] !in cmds || cmds[erases[0]].stage > P then 0
    else
      var c := cmds[erases[0]];
      4 * (P - c.stage) +
      if c.related.None? || c.related.value !in cmds then (if c.stage == P then 0 else 4)
      else
        var g := cmds[c.related.value];
        if g.op == Read then (if g.completed then 2 else 3) else (if g.completed then 0 else 1)
  }

  /** After a relocation has landed, the cursor has something to pass. */
  lemma LandedGone(cfg: Config, m: Chip)
    requires Visiting(cfg, m)
    requires m.erases[0] in m.cmds && m.cmds[m.erases[0]].related.Some? && m.cmds[m.erases[0]].related.value in m.cmds
    requires var g := m.cmds[m.cmds[m.erases[0]].related.value]; g.completed && g.op == Write
    ensures m.cmds[m.erases[0]].load.EraseAt? && m.cmds[m.erases[0]].load.at in m.planes
    ensures Gone(m.planes[m.cmds[m.erases[0]].load.at], m.cmds[m.erases[0]].stage)
  {
    hide PlaneExact, Exact, MapForward, MapBackward, Stored, Writes, Reads, Marked, Room, Moving, Dead, Gone,
         TableShape, EntriesShape, PlanesShape, SubsShape, Hosts, InStep;
    assert EraseOk(cfg, m.planes, m.cmds[m.erases[0]]);
  }

  /** From `m` to `m1` the head of the erase queue stays, and sending `r` either releases it
      or is the next step of its relocation, with less left to do. */
  ghost predicate Progress(cfg: Config, m: Chip, m1: Chip, r: nat) {
    && m1.erases == m.erases && m.erases != []
    && GcWork(cfg.pages, m1.cmds, m1.erases) <= GcWork(cfg.pages, m.cmds, m.erases)
    && (r == m.erases[0]
        || (GcWork(cfg.pages, m1.cmds, m1.erases) < GcWork(cfg.pages, m.cmds, m.erases)
            && m.erases[0] in m1.cmds && m1.cmds[m.erases[0]].related == Some(r)))
  }

  lemma RewriteProgress(cfg: Config, m: Chip, id: nat)
    requires m.erases != [] && m.erases[0] in m.cmds && m.cmds[m.erases[0]].stage <= cfg.pages
    requires var r := m.cmds[m.erases[0]].related;
             r.Some? && r.value in m.cmds && r.value != m.erases[0] && m.cmds[r.value].completed
                 && m.cmds[r.value].op == Read
    ensures var g := m.cmds[m.erases[0]].related.value; Progress(cfg, m, Rewrite(m, g, id), g)
  {
  }

  lemma RereadProgress(cfg: Config, m: Chip, k: nat, id: nat, scratch: PageBuf)
    requires Visiting(cfg, m) && NextUp(m, k)
    requires var r := m.cmds[m.erases[0]].related; r.Some? && r.value in m.cmds ==>
               m.cmds[r.value].completed && m.cmds[r.value].op == Write && m.cmds[m.erases[0]].stage < k
    ensures m.erases[0] in m.cmds && m.cmds[m.erases[0]].op == Erase && Shape(cfg, m)
    ensures var m1 := Reread(cfg, m, m.erases[0], k, id, scratch);
            m1.commands != [] && Progress(cfg, m, m1, m1.commands[0])
  {
    hide PlaneExact, Exact, PlaneShape, Inv, RoomAt;
    VisitFacts(cfg, m);
    VisitShape(cfg, m);
    LivePage(cfg, m, k);
    hide Visiting, Shape;
  }

  /** Every visit of the collector releases the erase or leaves less to do. */
  lemma VisitProgress(cfg: Config, m: Chip, id: nat, scratch: PageBuf)
    requires Visiting(cfg, m)
    ensures Shape(cfg, m) && m.erases[0] in m.cmds && m.cmds[m.erases[0]].stage <= cfg.pages
    ensures var (m1, r) := GetCommand(cfg, m, id, scratch); r.Some? && Progress(cfg, m, m1, r.value)
  {
    hide Inv, Shape, Visiting, GetCommand, Reread, Rewrite, Progress;
    var v := VisitCase(cfg, m, id, scratch);
    match v {
      case Turns(g) => RewriteProgress(cfg, m, id);
      case Finds => SameProgress(cfg, m, m, m.erases[0]);
      case Releases => ReleaseProgress(cfg, m);
      case Starts(k) =>
        if m.cmds[m.erases[0]].related.Some? { LandedGone(cfg, m); }
        RereadProgress(cfg, m, k, id, scratch);
    }
  }

  lemma SameProgress(cfg: Config, m: Chip, m1: Chip, r: nat)
    requires m.erases != [] && m1.erases == m.erases && m1.cmds == m.cmds && r == m.erases[0]
    ensures Progress(cfg, m, m1, r)
  {
  }

  lemma ReleaseProgress(cfg: Config, m: Chip)
    requires m.erases != [] && Release.requires(m, m.erases[0]) && |VictimBlock(m, m.erases[0]).pages| == cfg.pages
    ensures Progress(cfg, m, Release(m, m.erases[0]), m.erases[0])
  {
  }

  /** Sending a command does no collection work by itself. */
  lemma SendWork(cfg: Config, m: Chip, r: nat, junk: seq<PageBuf>)
    requires Shape(cfg, m) && r in m.cmds
    ensures var m' := Send(cfg, m, r, junk, true);
            m'.erases == m.erases && GcWork(cfg.pages, m'.cmds, m'.erases) == GcWork(cfg.pages, m.cmds, m.erases)
    ensures m.cmds[r].op == Erase ==> Send(cfg, m, r, junk, true).phase == Erasing
  {
    hide Shape, SendWrite, SendRead;
  }

  /** The head of the erase queue and its relocation, as a completion finds them. */
  lemma HeadFacts(cfg: Config, m: Chip)
    requires Inv(cfg, m) && m.erases != []
    ensures m.erases[0] in m.cmds && m.cmds[m.erases[0]].op == Erase && m.cmds[m.erases[0]].stage <= cfg.pages
    ensures Current(m).Some? ==>
              && Current(m).value in m.cmds && Current(m).value != m.erases[0]
              && (if m.cmds[Current(m).value].related.Some? then m.cmds[m.erases[0]].related == Current(m)
                 else m.cmds[m.erases[0]].related.None?)
              && !m.cmds[Current(m).value].completed
              && m.cmds[Current(m).value].op == if m.phase == Programming then Write else Read
  {
    hide PlaneExact, Exact, MapForward, MapBackward, Stored, Writes, Reads, Marked, Room, Moving, Dead, Gone,
         EraseOk, EntriesShape, PlanesShape, SubsShape, Hosts, InStep, Burnt;
    assert EraseOk(cfg, m.planes, m.cmds[m.erases[0]]);
    EraseStage(cfg, m.planes, m.cmds[m.erases[0]]);
  }

  lemma EraseStage(cfg: Config, planes: map<PlaneAddr, Plane>, c: Command)
    requires EraseOk(cfg, planes, c)
    ensures c.stage <= cfg.pages
  {
  }

  /** What a completion does to its command never adds collection work. */
  lemma RetireWork(P: nat, m: Chip, r: nat)
    requires r in m.cmds && m.erases != [] && m.erases[0] in m.cmds && r != m.erases[0]
             && m.cmds[m.erases[0]].stage <= P
    requires if m.cmds[r].related.Some? then m.cmds[m.erases[0]].related == Some(r)
             else m.cmds[m.erases[0]].related.None?
    ensures GcWork(P, Retire(m, r).cmds, m.erases) <= GcWork(P, m.cmds, m.erases)
    ensures GcWork(P, m.cmds[r := m.cmds[r].(stage := 1)], m.erases) == GcWork(P, m.cmds, m.erases)
  {
  }

  lemma CompleteProgress(cfg: Config, m: Chip)
    requires Inv(cfg, m) && m.hw.signal && m.pending.None? && m.erases != []
    ensures Defined(cfg, m, Completes)
    ensures var m' := Next(cfg, m, Completes);
            if m.phase == Erasing then m'.erases == m.erases[1..]
            else m'.erases == m.erases && GcWork(cfg.pages, m'.cmds, m'.erases) <= GcWork(cfg.pages, m.cmds, m.erases)
  {
    hide Inv, Shape, PlaneExact, Exact, MapForward, MapBackward, PlaneShape, MergeAll, EraseBlock, MovedPlanes,
         Marked, EraseQueue, Writes, Reads, Looked, HostReadOk, Settled, PlanesShape, StoreAfter;
    CompleteKeeps(cfg, m);
    HeadFacts(cfg, m);
    hide GcWork;
    if m.phase == Programming {
      LandingDefined(cfg, m);
      ProgramFacts(cfg, m);
      RetireWork(cfg.pages, m, m.commands[0]);
    } else if m.phase == ReadAddr {
      AddrFacts(cfg, m);
      RetireWork(cfg.pages, m, m.commands[0]);
    } else if m.phase == ReadData {
      ReadDataFacts(cfg, m);
      RetireWork(cfg.pages, m, m.incompletedR[0]);
    } else {
      EndEraseIndex(cfg, m);
    }
  }

  lemma EndEraseIndex(cfg: Config, m: Chip)
    requires Inv(cfg, m) && m.phase == Erasing && m.hw.signal
    ensures m.erases != [] && Shape(cfg, m) && EndIndex(m, EndQueue(m), m.hw.id) == 0
  {
    hide PlaneExact, Exact, MapForward, MapBackward, Stored, Writes, Reads, Marked, Room, EraseQueue, EntriesShape,
         PlanesShape, SubsShape, Hosts, Burnt, Collecting;
  }

  /** Collection terminates: no step leaves the head of the erase queue with more work, every
      visit of the collector leaves it with less or sends the erase, and it leaves the queue
      only when its erase completes. */
  lemma CollectionEnds(cfg: Config, m: Chip, st: Step)
    requires Roomy(cfg) && Inv(cfg, m) && Guard(cfg, m, st) && m.erases != []
    ensures Defined(cfg, m, st)
    ensures var m' := Next(cfg, m, st);
            if st.Completes? && m.phase == Erasing then m'.erases == m.erases[1..]
            else
              && m'.erases != [] && m'.erases[0] == m.erases[0]
              && GcWork(cfg.pages, m'.cmds, m'.erases) <= GcWork(cfg.pages, m.cmds, m.erases)
              && (st.Dispatches? && m.incompletedR == [] ==>
                    m'.phase == Erasing || GcWork(cfg.pages, m'.cmds, m'.erases) < GcWork(cfg.pages, m.cmds, m.erases))
    ensures GcWork(cfg.pages, m.cmds, m.erases) <= 4 * cfg.pages + 4
  {
    hide Inv, Roomy, Shape, Complete, Dispatch, GcCheck, MayWrite, MayRead, GcWork;
    StepKeeps(cfg, m, st);
    HeadFacts(cfg, m);
    if st.Completes? {
      CompleteProgress(cfg, m);
    } else if st.Dispatches? {
      DispatchProgress(cfg, m, st.id, st.scratch, st.junk);
    } else {
      OtherProgress(cfg, m, st);
    }
    WorkBounded(cfg, m);
  }

  lemma OtherProgress(cfg: Config, m: Chip, st: Step)
    requires Defined(cfg, m, st) && Inv(cfg, m) && m.erases != [] && m.erases[0] in m.cmds
    requires !st.Completes? && !st.Dispatches?
    ensures var m' := Next(cfg, m, st);
            && m'.erases != [] && m'.erases[0] == m.erases[0]
            && GcWork(cfg.pages, m'.cmds, m'.erases) == GcWork(cfg.pages, m.cmds, m.erases)
  {
    hide Inv, Shape, Next, Defined;
    InvTable(cfg, m);
    OtherHead(cfg, m, st);
  }

  /** Steps that neither send nor complete a command leave those there are alone. */
  lemma OtherHead(cfg: Config, m: Chip, st: Step)
    requires Defined(cfg, m, st) && m.erases != [] && m.nextRef !in m.cmds && !st.Completes? && !st.Dispatches?
    ensures var m' := Next(cfg, m, st);
            && m'.erases != [] && m'.erases[0] == m.erases[0]
            && forall r :: r in m.cmds ==> r in m'.cmds && m'.cmds[r] == m.cmds[r]
  {
    hide Shape, GcCheck, ReadFor, HostData;
  }

  /** The collector's visits between states `i` and `j` of a run that did not send an erase. */
  function Visits(states: seq<Chip>, steps: seq<Step>, i: nat, j: nat): nat
    requires i <= j <= |steps| && |states| == |steps| + 1
    decreases j
  {
    if i == j then 0
    else
      Visits(states, steps, i, j - 1) +
      if steps[j - 1].Dispatches? && states[j - 1].incompletedR == [] && states[j].phase != Erasing then 1 else 0
  }

  /** In a run, as long as no erase has completed, the collector is visited at most four
      times for each page of a block, and four times more, before an erase goes out. */
  lemma {:induction false} VisitsBounded(cfg: Config, states: seq<Chip>, steps: seq<Step>, i: nat, j: nat)
    requires Roomy(cfg) && Run(cfg, states, steps) && i <= j <= |steps| && states[i].erases != []
    requires forall k :: i <= k < j ==> !(steps[k].Completes? && states[k].phase == Erasing)
    ensures states[j].erases != [] && states[j].erases[0] == states[i].erases[0]
    ensures GcWork(cfg.pages, states[j].cmds, states[j].erases) + Visits(states, steps, i, j) <=
            GcWork(cfg.pages, states[i].cmds, states[i].erases) <= 4 * cfg.pages + 4
    decreases j
  {
    hide Inv, Roomy, GcWork, Next, Guard, Defined, Init;
    if i == j {
      RunKeeps(cfg, states, steps, i);
      WorkBounded(cfg, states[i]);
    } else {
      VisitsBounded(cfg, states, steps, i, j - 1);
      RunKeeps(cfg, states, steps, j - 1);
      CollectionEnds(cfg, states[j - 1], steps[j - 1]);
    }
  }

  lemma WorkBounded(cfg: Config, m: Chip)
    ensures GcWork(cfg.pages, m.cmds, m.erases) <= 4 * cfg.pages + 4
  {
  }

  lemma InvTable(cfg: Config, m: Chip)
    requires Inv(cfg, m)
    ensures m.nextRef !in m.cmds
    ensures m.erases != [] && m.erases[0] in m.cmds && m.cmds[m.erases[0]].related.Some? ==>
            m.cmds[m.erases[0]].related.value in m.cmds
  {
    hide PlaneExact, Exact, MapForward, MapBackward, Stored, Writes, Reads, Marked, Room, EraseQueue, EntriesShape,
         PlanesShape, SubsShape, Hosts, Burnt, Collecting, InStep, CommandShape;
  }

  lemma DispatchProgress(cfg: Config, m: Chip, id: nat, scratch: PageBuf, junk: seq<PageBuf>)
    requires Roomy(cfg) && Inv(cfg, m) && MayDispatch(cfg, m) && m.erases != []
    ensures Defined(cfg, m, Dispatches(id, scratch, junk))
    ensures var m' := Next(cfg, m, Dispatches(id, scratch, junk));
            && m'.erases == m.erases
            && GcWork(cfg.pages, m'.cmds, m'.erases) <= GcWork(cfg.pages, m.cmds, m.erases)
            && (m.incompletedR == [] ==>
                  m'.phase == Erasing || GcWork(cfg.pages, m'.cmds, m'.erases) < GcWork(cfg.pages, m.cmds, m.erases))
  {
    hide Inv, Roomy, Shape, Send, ForErase, TakeHost, GcWork;
    DispatchKeeps(cfg, m, id, scratch, junk);
    var (m1, r) := GetCommand(cfg, m, id, scratch);
    if r.Some? { SendWork(cfg, m1, r.value, junk); }
    if m.incompletedR == [] {
      VisitProgress(cfg, m, id, scratch);
      ReleaseIsErase(cfg, m, id, scratch);
    }
  }

  lemma ReleaseIsErase(cfg: Config, m: Chip, id: nat, scratch: PageBuf)
    requires Visiting(cfg, m)
    ensures Shape(cfg, m) && m.erases[0] in m.cmds && m.cmds[m.erases[0]].stage <= cfg.pages
    ensures var (m1, r) := GetCommand(cfg, m, id, scratch);
            r == Some(m.erases[0]) ==> m.erases[0] in m1.cmds && m1.cmds[m.erases[0]].op == Erase
  {
    hide Inv, Shape, Visiting, GetCommand, VictimBlock;
    var v := VisitCase(cfg, m, id, scratch);
  }
}
