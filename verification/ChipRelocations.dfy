/** Relocations: how many the collector starts before it sends the erase, and what the map says
    while one is under way. */
module ChipRelocations {
  import opened Flash
  import opened Layout
  import opened Sectors
  import opened Chip
  import opened ChipInv
  import opened ChipDispatch
  import opened ChipTake
  import opened ChipCommit
  import opened ChipFinish
  import opened ChipHost
  import opened ChipRuns
  import opened ChipProgress

  /** How many pages the collector may still have to move: those behind its cursor are done. */
  function GcStarts(P: nat, cmds: map<nat, Command>, erases: seq<nat>): nat {
    if erases == [] || erases[0] !in cmds then 0
    else
      var used := cmds[erases[0]].stage + One(cmds[erases[0]].related.Some?);
      if used <= P then P - used else 0
  }

  lemma RewriteStarts(P: nat, m: Chip, g: nat, id: nat)
    requires g in m.cmds && m.erases != [] && g != m.erases[0]
    ensures var m1 := Rewrite(m, g, id);
            && m1.erases == m.erases && g in m1.cmds && m1.cmds[g].op == Write
            && GcStarts(P, m1.cmds, m.erases) == GcStarts(P, m.cmds, m.erases)
  {
  }

  lemma RereadStarts(cfg: Config, m: Chip, k: nat, id: nat, scratch: PageBuf)
    requires Visiting(cfg, m) && NextUp(m, k) && m.erases[0] in m.cmds
    requires m.cmds[m.erases[0]].related.Some? ==> m.cmds[m.erases[0]].stage < k
    requires m.cmds[m.erases[0]].related.Some? ==> m.cmds[m.erases[0]].related.value != m.erases[0]
    ensures Shape(cfg, m) && m.cmds[m.erases[0]].op == Erase
    ensures var m1 := Reread(cfg, m, m.erases[0], k, id, scratch);
            m1.erases == m.erases
            && GcStarts(cfg.pages, m1.cmds, m1.erases) + 1 <= GcStarts(cfg.pages, m.cmds, m.erases)
  {
    hide PlaneExact, Exact, PlaneShape, Inv, RoomAt;
    VisitFacts(cfg, m);
    VisitShape(cfg, m);
    LivePage(cfg, m, k);
    hide Visiting, Shape;
  }

  /** A visit that starts a relocation leaves one less to start. */
  lemma VisitStarts(cfg: Config, m: Chip, id: nat, scratch: PageBuf)
    requires Visiting(cfg, m)
    ensures Shape(cfg, m) && m.erases[0] in m.cmds && m.cmds[m.erases[0]].stage <= cfg.pages
    ensures var (m1, r) := GetCommand(cfg, m, id, scratch);
            && r.Some? && m1.erases == m.erases
            && GcStarts(cfg.pages, m1.cmds, m1.erases) + One(r.value in m1.cmds && m1.cmds[r.value].op == Read)
                 <= GcStarts(cfg.pages, m.cmds, m.erases)
  {
    hide Inv, Shape, Visiting, GetCommand, Reread, Rewrite, GcStarts;
    var v := VisitCase(cfg, m, id, scratch);
    match v {
      case Turns(g) => RewriteStarts(cfg.pages, m, g, id);
      case Finds =>
      case Releases => ReleaseStarts(cfg, m);
      case Starts(k) =>
        if m.cmds[m.erases[0]].related.Some? { LandedGone(cfg, m); }
        RereadStarts(cfg, m, k, id, scratch);
    }
  }

  lemma ReleaseStarts(cfg: Config, m: Chip)
    requires m.erases != [] && Release.requires(m, m.erases[0]) && |VictimBlock(m, m.erases[0]).pages| == cfg.pages
    ensures var m1 := Release(m, m.erases[0]);
            m1.erases == m.erases && GcStarts(cfg.pages, m1.cmds, m1.erases) <= GcStarts(cfg.pages, m.cmds, m.erases)
  {
  }

  lemma SendStarts(cfg: Config, m: Chip, r: nat, junk: seq<PageBuf>)
    requires Shape(cfg, m) && r in m.cmds
    ensures var m' := Send(cfg, m, r, junk, true);
            && m'.erases == m.erases
            && GcStarts(cfg.pages, m'.cmds, m'.erases) == GcStarts(cfg.pages, m.cmds, m.erases)
            && (m'.phase == ReadAddr ==> m.cmds[r].op == Read)
  {
    hide Shape, AllocPage, Transferred, Overlay, Scrambled, Aged, Start, Accepts;
  }

  lemma DispatchStarts(cfg: Config, m: Chip, id: nat, scratch: PageBuf, junk: seq<PageBuf>)
    requires Roomy(cfg) && Inv(cfg, m) && MayDispatch(cfg, m) && m.erases != []
    ensures Defined(cfg, m, Dispatches(id, scratch, junk))
    ensures var m' := Next(cfg, m, Dispatches(id, scratch, junk));
            && m'.erases == m.erases
            && GcStarts(cfg.pages, m'.cmds, m'.erases) + One(m.incompletedR == [] && m'.phase == ReadAddr)
                 <= GcStarts(cfg.pages, m.cmds, m.erases)
  {
    hide Inv, Roomy, Shape, Send, GetCommand, GcStarts;
    DispatchKeeps(cfg, m, id, scratch, junk);
    DispatchDefined(cfg, m, id, scratch);
    if m.incompletedR == [] {
      VisitStarts(cfg, m, id, scratch);
    }
    var (m1, r) := GetCommand(cfg, m, id, scratch);
    if r.Some? { SendStarts(cfg, m1, r.value, junk); }
  }

  lemma RetireHead(m: Chip, r: nat, e: nat)
    requires r in m.cmds && e in m.cmds && r != e
    ensures e in Retire(m, r).cmds && Retire(m, r).cmds[e] == m.cmds[e]
  {
  }

  /** A completion leaves the head of the erase queue as it is, or takes it out. */
  lemma CompleteHead(cfg: Config, m: Chip)
    requires Inv(cfg, m) && m.hw.signal && m.pending.None? && m.erases != [] && m.phase != Erasing
    ensures Defined(cfg, m, Completes) && m.erases[0] in m.cmds
    ensures var m' := Next(cfg, m, Completes);
            m'.erases == m.erases && m.erases[0] in m'.cmds && m'.cmds[m.erases[0]] == m.cmds[m.erases[0]]
  {
    hide Inv, Shape, PlaneExact, Exact, MapForward, MapBackward, PlaneShape, MergeAll, EraseBlock, MovedPlanes,
         Marked, EraseQueue, Writes, Reads, Looked, Settled, HostReadOk;
    CompleteKeeps(cfg, m);
    HeadFacts(cfg, m);
    if m.phase == Programming {
      LandingDefined(cfg, m);
      ProgramFacts(cfg, m);
    } else if m.phase == ReadAddr {
      AddrFacts(cfg, m);
    } else {
      ReadDataFacts(cfg, m);
      RetireHead(m, m.incompletedR[0], m.erases[0]);
    }
  }

  lemma StepStarts(cfg: Config, m: Chip, st: Step)
    requires Roomy(cfg) && Inv(cfg, m) && Guard(cfg, m, st) && m.erases != []
    requires !(st.Completes? && m.phase == Erasing)
    ensures Defined(cfg, m, st)
    ensures var m' := Next(cfg, m, st);
            && m'.erases != [] && m'.erases[0] == m.erases[0]
            && GcStarts(cfg.pages, m'.cmds, m'.erases)
                 + One(st.Dispatches? && m.incompletedR == [] && m'.phase == ReadAddr)
                 <= GcStarts(cfg.pages, m.cmds, m.erases)
  {
    hide Inv, Roomy, Shape, Complete, Dispatch, GcCheck, MayWrite, MayRead;
    StepKeeps(cfg, m, st);
    HeadFacts(cfg, m);
    if st.Completes? {
      CompleteHead(cfg, m);
    } else if st.Dispatches? {
      DispatchStarts(cfg, m, st.id, st.scratch, st.junk);
    } else {
      OtherStarts(cfg, m, st);
    }
  }

  lemma OtherStarts(cfg: Config, m: Chip, st: Step)
    requires Defined(cfg, m, st) && Inv(cfg, m) && m.erases != [] && m.erases[0] in m.cmds
    requires !st.Completes? && !st.Dispatches?
    ensures var m' := Next(cfg, m, st);
            && m'.erases != [] && m'.erases[0] == m.erases[0]
            && GcStarts(cfg.pages, m'.cmds, m'.erases) == GcStarts(cfg.pages, m.cmds, m.erases)
  {
    hide Inv, Shape, Next, Defined;
    InvTable(cfg, m);
    OtherHead(cfg, m, st);
  }

  /** The relocations started between states `i` and `j` of a run. */
  function Starts(states: seq<Chip>, steps: seq<Step>, i: nat, j: nat): nat
    requires i <= j <= |steps| && |states| == |steps| + 1
    decreases j
  {
    if i == j then 0
    else
      Starts(states, steps, i, j - 1) +
      One(steps[j - 1].Dispatches? && states[j - 1].incompletedR == [] && states[j].phase == ReadAddr)
  }

  /** In a run, as long as no erase has completed, at most one relocation is started for each
      page of a block. */
  lemma {:induction false} RelocationsBounded(cfg: Config, states: seq<Chip>, steps: seq<Step>, i: nat, j: nat)
    requires Roomy(cfg) && Run(cfg, states, steps) && i <= j <= |steps| && states[i].erases != []
    requires forall k :: i <= k < j ==> !(steps[k].Completes? && states[k].phase == Erasing)
    ensures states[j].erases != [] && states[j].erases[0] == states[i].erases[0]
    ensures GcStarts(cfg.pages, states[j].cmds, states[j].erases) + Starts(states, steps, i, j) <=
            GcStarts(cfg.pages, states[i].cmds, states[i].erases) <= cfg.pages
    decreases j
  {
    hide Inv, Roomy, GcStarts, Next, Guard, Defined, Init;
    if i == j {
      StartsOfOne(cfg, states[i]);
    } else {
      RelocationsBounded(cfg, states, steps, i, j - 1);
      RunKeeps(cfg, states, steps, j - 1);
      StepStarts(cfg, states[j - 1], steps[j - 1]);
    }
  }

  lemma StartsOfOne(cfg: Config, m: Chip)
    ensures GcStarts(cfg.pages, m.cmds, m.erases) <= cfg.pages
  {
  }

  // ---------------------------------------------------------------- what the map says

  /** From the moment its read is queued until its program has completed, in every state in
      between, the map still names the victim's page that a relocation moves, with the bitmap
      it carries; no host write of that page is out, and what is being programmed is outside
      the victim. */
  lemma RelocationNamed(cfg: Config, m: Chip)
    requires Inv(cfg, m) && m.erases != []
    requires m.erases[0] in m.cmds && m.cmds[m.erases[0]].related.Some? && m.cmds[m.erases[0]].related.value in m.cmds
    ensures var c := m.cmds[m.erases[0]]; var g := m.cmds[c.related.value];
            g.op == Read || !g.completed ==>
              && c.load.EraseAt? && c.load.at in m.planes && g.load.OfSub? && g.load.sub.lpn in m.entries
              && m.entries[g.load.sub.lpn]
                   == Entry(g.load.sub.bits, Loc(c.load.at, m.planes[c.load.at].eraseBlock, c.stage))
              && HostOut(m).None?
              && (m.phase == Programming ==>
                    Current(m) == c.related && g.load.sub.loc.block != m.planes[c.load.at].eraseBlock)
  {
    hide PlaneExact, Exact, MapForward, MapBackward, Stored, Writes, Reads, Looked, Marked, Room, EraseQueue,
         PlanesShape, EntriesShape, SubsShape, Hosts, Burnt, InStep, Shape, Within, Holds;
  }
}
