/** Reads go to the page the map named when they were made. What such a read brings, exactly
    when it is the content of that moment, and why a read that is queued gets it. */
module ChipEarly {
  import opened Flash
  import opened Layout
  import opened Lists
  import opened Sectors
  import opened Chip
  import opened ChipInv
  import opened ChipWrite
  import opened ChipTake
  import opened ChipCommit
  import opened ChipErase
  import opened ChipHost
  import opened ChipRuns
  import opened ChipProgress
  import opened ChipSafety
  import opened ChipOrigin

  /** The block of `loc` is being erased. */
  predicate ErasingAt(m: Chip, loc: Loc) {
    && m.phase == Erasing && m.erases != [] && m.erases[0] in m.cmds && m.cmds[m.erases[0]].load == EraseAt(loc.at)
    && loc.at in m.planes && m.planes[loc.at].eraseBlock == loc.block
  }

  /** `loc` has been programmed since its block was last erased, and is not being erased. */
  predicate Intact(m: Chip, loc: Loc) {
    && loc.at in m.planes && loc.block < |m.planes[loc.at].blocks|
       && loc.page < m.planes[loc.at].blocks[loc.block].startWrite
    && loc in m.cells && !ErasingAt(m, loc)
  }

  /** A completing erase only touches the block it names. */
  lemma EraseEndsThere(cfg: Config, m: Chip, a: PlaneAddr)
    requires EraseDone(cfg, m) && a in m.planes && m.planes[a].eraseUsed
    ensures Shape(cfg, m) && EndIndex(m, EndQueue(m), m.hw.id) < |EndQueue(m)|
    ensures a in Complete(cfg, m).planes
    ensures !Complete(cfg, m).planes[a].eraseUsed ==>
            m.erases != [] && m.erases[0] in m.cmds && m.cmds[m.erases[0]].load == EraseAt(a)
  {
    hide Inv, Shape, PlaneExact, PlaneShape, Exact, Dead, RoomAt, Blank;
    EraseFacts(cfg, m);
  }

  lemma CompleteCells(cfg: Config, m: Chip)
    requires Defined(cfg, m, Completes)
    ensures Complete(cfg, m).cells == m.cells
  {
    hide Shape, MergeAll, EraseBlock, EndProgram;
    forall k: nat | k < |m.commands| ensures EndProgram(cfg, m, k).cells == m.cells {
      ProgramCells(cfg, m, k);
    }
  }

  lemma ProgramCells(cfg: Config, m: Chip, k: nat)
    requires Shape(cfg, m) && k < |m.commands|
    ensures EndProgram(cfg, m, k).cells == m.cells
  {
    hide Shape, CommitPage, InvalidatePage;
  }

  /** Sending a command writes to the next free page of a plane, or erases a block, and leaves
      every other page alone. */
  lemma SendCells(cfg: Config, m: Chip, r: nat, junk: seq<PageBuf>, loc: Loc)
    requires Shape(cfg, m) && r in m.cmds && Intact(m, loc)
    ensures loc in Send(cfg, m, r, junk, true).cells
    ensures Send(cfg, m, r, junk, true).cells[loc] == m.cells[loc]
      || (m.cmds[r].op == Erase && m.cmds[r].load == EraseAt(loc.at) && m.planes[loc.at].eraseBlock == loc.block
          && Send(cfg, m, r, junk, true).phase == Erasing)
  {
    hide Shape, SendRead, SendWrite, SendErase;
    if m.cmds[r].op == Write {
      WriteCells(cfg, m, r, loc);
    } else if m.cmds[r].op == Erase {
      EraseCells(cfg, m, r, junk, loc);
    }
  }

  lemma WriteCells(cfg: Config, m: Chip, r: nat, loc: Loc)
    requires Shape(cfg, m) && r in m.cmds && m.cmds[r].op == Write && Intact(m, loc)
    ensures var m' := SendWrite(cfg, m, r, true); loc in m'.cells && m'.cells[loc] == m.cells[loc]
  {
    WriteAtIs(cfg, m, r);
    hide Shape, AllocPage, Overlay, Transferred, Start, Accepts;
  }

  lemma EraseCells(cfg: Config, m: Chip, r: nat, junk: seq<PageBuf>, loc: Loc)
    requires Shape(cfg, m) && r in m.cmds && m.cmds[r].op == Erase && Intact(m, loc)
    ensures var m' := SendErase(cfg, m, r, junk, true);
            && loc in m'.cells && m.cmds[r].load.EraseAt?
            && (m'.cells[loc] == m.cells[loc]
                || (m.cmds[r].load == EraseAt(loc.at) && m.planes[loc.at].eraseBlock == loc.block))
  {
    EraseGoesTo(cfg, m, r);
    hide Shape, Start, Accepts, ErasingAt;
  }

  lemma WriteAtIs(cfg: Config, m: Chip, r: nat)
    requires Shape(cfg, m) && r in m.cmds && m.cmds[r].op == Write
    ensures m.cmds[r].load.OfSub? && SubOf(m, r).loc.at in m.planes
    ensures m.planes[SubOf(m, r).loc.at].active < |m.planes[SubOf(m, r).loc.at].blocks|
  {
    hide ListShape, EntriesShape, SubsShape;
    assert CommandShape(cfg, m.cmds[r]);
  }

  lemma EraseGoesTo(cfg: Config, m: Chip, r: nat)
    requires Shape(cfg, m) && r in m.cmds && m.cmds[r].op == Erase
    ensures m.cmds[r].load.EraseAt? && m.cmds[r].load.at in m.planes
  {
    hide ListShape, EntriesShape, SubsShape, PlaneShape;
    assert CommandShape(cfg, m.cmds[r]);
  }

  lemma PoisedErases(cfg: Config, m: Chip, r: nat)
    requires AnyPoised(cfg, m, r) && r in m.cmds && m.cmds[r].op == Erase
    ensures m.erases != [] && m.erases[0] == r
  {
    hide PlaneExact, Exact, MapForward, MapBackward, Stored, Writes, Reads, Marked, RoomAt, EraseOk, Moving,
         HostReadOk, HostWriteOk, EntriesShape, SubsShape, Dead, Ample, Within;
  }

  lemma DispatchCells(cfg: Config, m: Chip, id: nat, scratch: PageBuf, junk: seq<PageBuf>, loc: Loc)
    requires Roomy(cfg) && Inv(cfg, m) && MayDispatch(cfg, m) && Intact(m, loc)
    ensures Defined(cfg, m, Dispatches(id, scratch, junk))
    ensures var m' := Next(cfg, m, Dispatches(id, scratch, junk));
            loc in m'.cells && (m'.cells[loc] == m.cells[loc] || ErasingAt(m', loc))
  {
    hide Inv, Roomy, Shape, GetCommand, Send, AnyPoised;
    DispatchKeeps(cfg, m, id, scratch, junk);
    DispatchDefined(cfg, m, id, scratch);
    var (m1, r) := GetCommand(cfg, m, id, scratch);
    if r.Some? {
      SendCells(cfg, m1, r.value, junk, loc);
      SendVictims(cfg, m, id, scratch, junk, loc.at);
      if m.incompletedR != [] {
        HalfRead(cfg, m, r.value);
      } else if m1.cmds[r.value].op == Erase {
        PoisedErases(cfg, m1, r.value);
        SendKeepsLoad(cfg, m1, r.value, junk);
      }
    }
  }

  lemma SendKeepsLoad(cfg: Config, m: Chip, r: nat, junk: seq<PageBuf>)
    requires Shape(cfg, m) && r in m.cmds && m.cmds[r].op == Erase
    ensures Send(cfg, m, r, junk, true).cmds == m.cmds && Send(cfg, m, r, junk, true).planes == m.planes
  {
    hide Shape, Scrambled;
  }

  /** Whatever a step does, a programmed page keeps its data unless the step erases its block. */
  lemma StaysIntact(cfg: Config, m: Chip, st: Step, loc: Loc)
    requires Roomy(cfg) && Inv(cfg, m) && Guard(cfg, m, st) && InRange(cfg, loc) && Intact(m, loc)
    ensures Defined(cfg, m, st)
    ensures var m' := Next(cfg, m, st);
            ErasingAt(m', loc) || (Intact(m', loc) && m'.cells[loc] == m.cells[loc])
  {
    hide Inv, Roomy, Shape, Complete, Dispatch, Victim, MayWrite, MayRead;
    AppendOnly(cfg, m, st, loc.at, loc.block);
    if st.Dispatches? {
      DispatchCells(cfg, m, st.id, st.scratch, st.junk, loc);
    } else if st.Completes? {
      CompleteCells(cfg, m);
      if m.phase == Erasing && m.planes[loc.at].eraseUsed {
        EraseEndsThere(cfg, m, loc.at);
      }
    }
  }

  /** The page the map names is intact in every reachable state. */
  lemma MappedIsIntact(cfg: Config, m: Chip, l: nat)
    requires Inv(cfg, m) && l in m.entries && m.entries[l].subPage != {}
    ensures InRange(cfg, m.entries[l].loc) && Intact(m, m.entries[l].loc)
  {
    hide Inv, PlaneExact;
    var loc := m.entries[l].loc;
    MapAndPagesInverse(cfg, m);
    BlocksCounted(cfg, m, loc.at, loc.block);
    if m.phase == Erasing { NoLiveDataErased(cfg, m); }
    WrittenIfLive(cfg, m, loc);
    InvCells(cfg, m, loc);
  }

  lemma InvCells(cfg: Config, m: Chip, loc: Loc)
    requires Inv(cfg, m) && InRange(cfg, loc)
    ensures loc in m.cells
  {
    InvShape(cfg, m);
  }

  lemma WrittenIfLive(cfg: Config, m: Chip, loc: Loc)
    requires Inv(cfg, m) && InRange(cfg, loc) && PlanesShape(cfg, m.planes) && PageOf(m.planes, loc).state != {}
    ensures loc.page < m.planes[loc.at].blocks[loc.block].startWrite
  {
    hide Shape, MapForward, MapBackward, Stored, Writes, Reads, Hosts, Burnt, EraseQueue, Marked, Collecting, Room,
         InStep, Queues;
    var f := CellAt(Burning(m), loc.at);
    assert PlaneExact(cfg.blocks, cfg.pages, m.planes[loc.at], f);
    assert BlockExact(cfg.pages, m.planes[loc.at].blocks[loc.block], BusyIn(f, loc.block));
  }

  // ---------------------------------------------------------------- when a page gets new data

  /** The step sends a program to `loc`, or an erase that overwrites it. */
  predicate Rewrites(m': Chip, st: Step, loc: Loc) {
    && st.Dispatches?
    && ((m'.phase == Programming && Burning(m') == Some(loc)) || (ErasingAt(m', loc) && loc.page < |st.junk|))
  }

  lemma SendAges(cfg: Config, m: Chip, r: nat, junk: seq<PageBuf>, loc: Loc)
    requires Shape(cfg, m) && r in m.cmds && loc in m.ages && InRange(cfg, loc)
    requires m.cmds[r].op == Write ==> m.commands == [r] && m.hw.phase == Idle
    requires m.cmds[r].op == Erase ==> m.erases != [] && m.erases[0] == r && m.hw.phase == Idle
    ensures var m' := Send(cfg, m, r, junk, true);
            loc in m'.ages && m'.ages[loc] == m.ages[loc] + One(
              (m'.phase == Programming && Burning(m') == Some(loc)) || (ErasingAt(m', loc) && loc.page < |junk|))
  {
    hide Shape, SendRead, SendWrite, SendErase;
    if m.cmds[r].op == Write {
      WriteAges(cfg, m, r, loc);
    } else if m.cmds[r].op == Erase {
      EraseAges(cfg, m, r, junk, loc);
    }
  }

  lemma WriteAges(cfg: Config, m: Chip, r: nat, loc: Loc)
    requires Shape(cfg, m) && r in m.cmds && m.cmds[r].op == Write && m.commands == [r] && m.hw.phase == Idle
    requires loc in m.ages && InRange(cfg, loc)
    ensures var m' := SendWrite(cfg, m, r, true);
            loc in m'.ages && m'.ages[loc] == m.ages[loc] + One(Burning(m') == Some(loc))
  {
    WriteAtIs(cfg, m, r);
    RangeCells(cfg, m, loc);
    hide Shape, AllocPage, Overlay, Transferred;
  }

  lemma RangeCells(cfg: Config, m: Chip, loc: Loc)
    requires Shape(cfg, m) && InRange(cfg, loc)
    ensures loc in m.cells && loc in m.ages
  {
    hide PlanesShape, EntriesShape, TableShape, ListShape, SubsShape;
  }

  lemma EraseAges(cfg: Config, m: Chip, r: nat, junk: seq<PageBuf>, loc: Loc)
    requires Shape(cfg, m) && r in m.cmds && m.cmds[r].op == Erase && m.erases != [] && m.erases[0] == r
    requires m.hw.phase == Idle && loc in m.ages && InRange(cfg, loc)
    ensures var m' := SendErase(cfg, m, r, junk, true);
            loc in m'.ages && m'.ages[loc] == m.ages[loc] + One(ErasingAt(m', loc) && loc.page < |junk|)
  {
    EraseGoesTo(cfg, m, r);
    PlaneThere(cfg, m, loc.at);
    hide Shape;
  }

  lemma PlaneThere(cfg: Config, m: Chip, a: PlaneAddr)
    requires Shape(cfg, m) && a in cfg.addrs
    ensures a in m.planes
  {
    hide PlaneShape, EntriesShape, TableShape, ListShape, SubsShape;
  }

  lemma PoisedAges(cfg: Config, m: Chip, r: nat)
    requires AnyPoised(cfg, m, r)
    ensures Shape(cfg, m) && r in m.cmds && m.hw.phase == Idle && m.phase == Idle
    ensures m.cmds[r].op == Write ==> m.commands == [r]
    ensures m.cmds[r].op == Erase ==> m.erases != [] && m.erases[0] == r
  {
    hide PlaneExact, Exact, MapForward, MapBackward, Stored, Writes, Reads, Looked, Marked, RoomAt, EraseOk, Moving,
         HostReadOk, HostWriteOk, EntriesShape, SubsShape, Dead, Ample, Within, PlanesShape, TableShape;
  }

  lemma DispatchAges(cfg: Config, m: Chip, id: nat, scratch: PageBuf, junk: seq<PageBuf>, loc: Loc)
    requires Roomy(cfg) && Inv(cfg, m) && MayDispatch(cfg, m) && InRange(cfg, loc) && loc in m.ages
    ensures Defined(cfg, m, Dispatches(id, scratch, junk))
    ensures var m' := Next(cfg, m, Dispatches(id, scratch, junk));
            loc in m'.ages && m'.ages[loc] == m.ages[loc] + One(Rewrites(m', Dispatches(id, scratch, junk), loc))
  {
    hide Inv, Roomy, Shape, GetCommand, Send, AnyPoised, ErasingAt;
    DispatchKeeps(cfg, m, id, scratch, junk);
    DispatchDefined(cfg, m, id, scratch);
    var (m1, r) := GetCommand(cfg, m, id, scratch);
    if r.Some? {
      if m.incompletedR != [] {
        HalfRead(cfg, m, r.value);
      } else {
        PoisedAges(cfg, m1, r.value);
      }
      SendAges(cfg, m1, r.value, junk, loc);
    } else {
      NotErasing(m, loc);
    }
  }

  lemma NotErasing(m: Chip, loc: Loc)
    requires m.phase == Idle
    ensures !ErasingAt(m, loc)
  {
  }

  /** A page's age counts how often it got new data. */
  lemma AgeCounts(cfg: Config, m: Chip, st: Step, loc: Loc)
    requires Roomy(cfg) && Inv(cfg, m) && Guard(cfg, m, st) && InRange(cfg, loc)
    ensures Defined(cfg, m, st) && loc in m.ages && loc in Next(cfg, m, st).ages
    ensures Next(cfg, m, st).ages[loc] == m.ages[loc] + One(Rewrites(Next(cfg, m, st), st, loc))
  {
    hide Inv, Roomy, Shape, Complete, Dispatch, Victim, MayWrite, MayRead, Burning, ErasingAt;
    StepKeeps(cfg, m, st);
    InvAges(cfg, m, loc);
    if st.Dispatches? {
      DispatchAges(cfg, m, st.id, st.scratch, st.junk, loc);
    } else if st.Completes? {
      CompleteAges(cfg, m);
    }
  }

  lemma InvAges(cfg: Config, m: Chip, loc: Loc)
    requires Inv(cfg, m) && InRange(cfg, loc)
    ensures loc in m.ages
  {
    InvShape(cfg, m);
  }

  lemma CompleteAges(cfg: Config, m: Chip)
    requires Defined(cfg, m, Completes)
    ensures Complete(cfg, m).ages == m.ages && Complete(cfg, m).cells == m.cells
  {
    hide Shape, EndProgram, EndReadAddr, EndReadData, EndErase;
  }

  /** No step from `i` to `j` gives the page `loc` new data. */
  ghost predicate Untouched(states: seq<Chip>, steps: seq<Step>, i: nat, j: nat, loc: Loc)
    requires i <= j < |states| == |steps| + 1
  {
    forall k :: i <= k < j ==> !Rewrites(states[k + 1], steps[k], loc)
  }

  lemma {:induction false} RunAges(cfg: Config, states: seq<Chip>, steps: seq<Step>, i: nat, j: nat, loc: Loc)
    requires Roomy(cfg) && Run(cfg, states, steps) && i <= j < |states| && InRange(cfg, loc)
    ensures loc in states[i].ages && loc in states[j].ages && states[i].ages[loc] <= states[j].ages[loc]
    ensures states[i].ages[loc] == states[j].ages[loc] <==> Untouched(states, steps, i, j, loc)
  {
    hide Inv, Roomy, Next, Init, Guard, Defined, Rewrites;
    RunKeeps(cfg, states, steps, j);
    InvAges(cfg, states[j], loc);
    if i < j {
      RunAges(cfg, states, steps, i, j - 1, loc);
      RunKeeps(cfg, states, steps, j - 1);
      AgeCounts(cfg, states[j - 1], steps[j - 1], loc);
      assert Untouched(states, steps, i, j, loc) <==>
               Untouched(states, steps, i, j - 1, loc) && !Rewrites(states[j], steps[j - 1], loc);
    }
  }

  // ---------------------------------------------------------------- what a read brings

  /** A host read that is out, with its data. */
  lemma ReadOut(cfg: Config, m: Chip)
    requires Inv(cfg, m) && m.phase == ReadData && HostOut(m).Some?
    ensures var s := HostOut(m).value;
            && InRange(cfg, s.loc) && s.loc in m.ages && s.whole == (s.stamp == m.ages[s.loc])
            && (s.whole ==> Holds(s.buf, s.bits, s.host))
            && s.loc in m.cells && Written(m.cells[s.loc], s)
  {
    hide Exact, MapForward, MapBackward, PlanesShape, EntriesShape, ListShape, SubsShape, Writes, Reads, Looked,
         EraseQueue, Marked, Room, Collecting, Burnt, InStep, Queues, Stored, Holds, Firm, ReadOk;
    assert CommandShape(cfg, m.cmds[Current(m).value]);
  }

  /** A sub-request was made, and has been made, queued or out ever since. */
  lemma {:induction false} LastMade(cfg: Config, states: seq<Chip>, steps: seq<Step>, n: nat, t: Ticket)
    returns (k: nat)
    requires Roomy(cfg) && Run(cfg, states, steps) && n < |states| && Carries(states[n], t)
    ensures k < n && Makes(states[k], steps[k], t) && forall j :: k < j <= n ==> Carries(states[j], t)
  {
    hide Inv, Roomy, Next, Makes, Guard, Defined;
    k := 0;
    if n == 0 {
      WasMade(cfg, states, steps, 0, t);
      assert false;
    } else {
      hide Init, Carries;
      RunKeeps(cfg, states, steps, n - 1);
      StepCarries(cfg, states[n - 1], steps[n - 1], t);
      if Makes(states[n - 1], steps[n - 1], t) {
        k := n - 1;
      } else {
        k := LastMade(cfg, states, steps, n - 1, t);
      }
    }
  }

  /** The read `s` has the page and the sectors that `st` asks for: those of the host's read, or for
      a companion all that is mapped of the page the host writes. */
  predicate AskedBy(m: Chip, st: Step, s: Sub) {
    if s.paired then
      && st.HostWrites? && st.l == s.lpn && s.lpn in m.entries && s.bits == m.entries[s.lpn].subPage
      && !(s.bits <= st.bits)
    else st.HostReads? && st.l == s.lpn && st.bits == s.bits
  }

  /** A host read brings what its page held when it was made: every sector it asked for that was
      mapped and is not lost. It does so whenever the page got no new data in between, and
      exactly then its data is taken for whole. */
  lemma ReadDelivers(cfg: Config, states: seq<Chip>, steps: seq<Step>, n: nat) returns (k: nat)
    requires Roomy(cfg) && Run(cfg, states, steps) && n < |states|
    requires states[n].phase == ReadData && HostOut(states[n]).Some?
    ensures k < n && Makes(states[k], steps[k], TicketOf(HostOut(states[n]).value, true))
    ensures forall j :: k < j <= n ==> Carries(states[j], TicketOf(HostOut(states[n]).value, true))
    ensures var s := HostOut(states[n]).value;
            && s.whole == Untouched(states, steps, k, n, s.loc)
            && s.lpn in states[k].entries && s.loc == states[k].entries[s.lpn].loc
            && AskedBy(states[k], steps[k], s)
            && s.lpn in states[k].store && s.host == Expected(states[k].store[s.lpn], s.bits)
            && (s.whole ==> Holds(s.buf, s.bits, s.host))
            && s.loc in states[n].cells && Written(states[n].cells[s.loc], s)
  {
    hide Inv, Roomy, Next, Init, Guard, Defined, Untouched, Run, Expected, Holds, Written;
    RunLengths(cfg, states, steps);
    var s := HostOut(states[n]).value;
    var t := TicketOf(s, true);
    assert Carries(states[n], t);
    k := LastMade(cfg, states, steps, n, t);
    RunKeeps(cfg, states, steps, n);
    ReadOut(cfg, states[n]);
    RunAges(cfg, states, steps, k, n, s.loc);
  }

  lemma RunLengths(cfg: Config, states: seq<Chip>, steps: seq<Step>)
    requires Run(cfg, states, steps)
    ensures |states| == |steps| + 1
  {
  }

  // ---------------------------------------------------------------- what can spoil a read

  /** The step sends a host write. */
  predicate SendsHostWrite(m': Chip, st: Step) {
    st.Dispatches? && m'.phase == Programming && HostOut(m').Some?
  }

  /** As long as no host write is sent nothing is programmed at `loc`: it is programmed already, or
      its block is being erased, or its plane is not being collected and will not be. */
  predicate Sheltered(m: Chip, loc: Loc) {
    || Intact(m, loc)
    || ErasingAt(m, loc)
    || (loc.at in m.planes && !m.planes[loc.at].eraseUsed && m.pending.None?
        && !(m.phase == Programming && HostOut(m).Some?))
  }

  /** What is programmed is a host write, or is in a plane that is being collected. */
  lemma ProgramsMarked(cfg: Config, m: Chip, id: nat, scratch: PageBuf)
    requires Roomy(cfg) && Inv(cfg, m) && MayDispatch(cfg, m)
    ensures Defined(cfg, m, Dispatches(id, scratch, []))
    ensures var m' := Next(cfg, m, Dispatches(id, scratch, []));
            m'.phase == Programming && HostOut(m').None? ==>
              && Burning(m').Some? && Burning(m').value.at in m.planes && m.planes[Burning(m').value.at].eraseUsed
  {
    hide Inv, Roomy, Shape, GetCommand, Send, AnyPoised, ErasingAt, ForErase;
    DispatchKeeps(cfg, m, id, scratch, []);
    DispatchDefined(cfg, m, id, scratch);
    var (m1, r) := GetCommand(cfg, m, id, scratch);
    if r.Some? {
      if m.incompletedR != [] {
        HalfRead(cfg, m, r.value);
        SendCarries(cfg, m1, r.value, []);
      } else if m.erases == [] {
        IdleFacts(cfg, m);
        TakesHost(cfg, m, id, scratch);
        SendCarries(cfg, m1, r.value, []);
      } else {
        VisitErases(cfg, m, id, scratch);
        PoisedSends(cfg, m1, r.value);
      }
    }
  }

  lemma TakesHost(cfg: Config, m: Chip, id: nat, scratch: PageBuf)
    requires Shape(cfg, m) && m.incompletedR == [] && m.erases == [] && m.commands == []
    ensures var (m1, r) := GetCommand(cfg, m, id, scratch);
            r.Some? ==>
              && m1.commands == [r.value] && r.value in m1.cmds && m1.cmds[r.value].op != Erase
              && m1.cmds[r.value].related.None? && m1.cmds[r.value].load.OfSub?
  {
    hide Shape, TakeHost;
    HostTaken(cfg, m, id);
  }

  lemma HostTaken(cfg: Config, m: Chip, id: nat)
    requires Shape(cfg, m) && m.commands == []
    ensures var (m1, r) := TakeHost(cfg, m, id);
            r.Some? ==>
              && m1.commands == [r.value] && r.value in m1.cmds && m1.cmds[r.value].op != Erase
              && m1.cmds[r.value].related.None? && m1.cmds[r.value].load.OfSub?
  {
    hide Shape, FirstReady, Enqueue;
    if m.rQueue != [] {
      Enqueued(m.(rQueue := m.rQueue[1..]), Read, m.rQueue[0], id);
    } else if FirstReady(m.wQueue) < |m.wQueue| {
      var k := FirstReady(m.wQueue);
      Enqueued(m.(wQueue := Without(m.wQueue, k)), Write, m.wQueue[k], id);
    }
  }

  lemma Enqueued(m: Chip, op: Op, s: Sub, id: nat)
    requires m.commands == [] && op != Erase
    ensures var m1, r := Enqueue(m, op, s, id), m.nextRef;
            && m1.commands == [r] && r in m1.cmds && m1.cmds[r].op != Erase
            && m1.cmds[r].related.None? && m1.cmds[r].load.OfSub?
  {
  }

  /** While a read waits in the queue or is out no host write is sent: the dispatch may send half a
      read, a step of the collector on a marked plane, or the read itself. */
  lemma WaitingDispatch(cfg: Config, m: Chip, id: nat, scratch: PageBuf)
    requires Roomy(cfg) && Inv(cfg, m) && MayDispatch(cfg, m)
    requires m.rQueue != [] || HostOut(m).Some?
    ensures Defined(cfg, m, Dispatches(id, scratch, []))
    ensures !SendsHostWrite(Next(cfg, m, Dispatches(id, scratch, [])), Dispatches(id, scratch, []))
  {
    hide Inv, Roomy, Shape, GetCommand, Send, AnyPoised, ErasingAt, ForErase;
    DispatchKeeps(cfg, m, id, scratch, []);
    DispatchDefined(cfg, m, id, scratch);
    var (m1, r) := GetCommand(cfg, m, id, scratch);
    if r.Some? {
      if m.incompletedR != [] {
        HalfRead(cfg, m, r.value);
        SendCarries(cfg, m1, r.value, []);
      } else if m.erases == [] {
        IdleFacts(cfg, m);
        OutIsHalf(m);
        FirstIsRead(cfg, m, id, scratch);
        SendCarries(cfg, m1, r.value, []);
      } else {
        VisitErases(cfg, m, id, scratch);
        PoisedSends(cfg, m1, r.value);
      }
    } else {
      NothingPrograms(m);
    }
  }

  lemma NothingPrograms(m: Chip)
    requires m.phase == Idle
    ensures !(m.phase == Programming && HostOut(m).Some?)
  {
  }

  lemma OutIsHalf(m: Chip)
    requires m.commands == [] && m.incompletedR == []
    ensures HostOut(m).None?
  {
  }

  lemma FirstIsRead(cfg: Config, m: Chip, id: nat, scratch: PageBuf)
    requires Shape(cfg, m) && m.incompletedR == [] && m.erases == [] && m.commands == [] && m.rQueue != []
    ensures var (m1, r) := GetCommand(cfg, m, id, scratch);
            r.Some? ==> r.value in m1.cmds && m1.cmds[r.value].op == Read
  {
    hide Shape;
  }

  lemma VisitErases(cfg: Config, m: Chip, id: nat, scratch: PageBuf)
    requires Inv(cfg, m) && MayDispatch(cfg, m) && m.incompletedR == [] && m.erases != []
    ensures Shape(cfg, m) && m.erases[0] in m.cmds && m.cmds[m.erases[0]].stage <= cfg.pages
    ensures GetCommand(cfg, m, id, scratch).0.erases == m.erases
  {
    hide Inv;
    VisitLists(cfg, m, id, scratch);
  }

  /** With an erase queued, what is programmed is a relocation in the plane of the first erase. */
  lemma PoisedSends(cfg: Config, m: Chip, r: nat)
    requires AnyPoised(cfg, m, r) && m.erases != []
    ensures Shape(cfg, m) && r in m.cmds
    ensures var m' := Send(cfg, m, r, [], true);
            m'.phase == Programming ==>
              && HostOut(m').None? && Burning(m').Some? && Burning(m').value.at in m.planes
              && m.planes[Burning(m').value.at].eraseUsed
  {
    hide Shape, AnyPoised, Poised, Send;
    PoisedOut(cfg, m, r);
    if m.cmds[r].op == Erase {
      SendEraseOut(cfg, m, r, []);
      SendErasePhase(cfg, m, r);
    } else {
      SendCarries(cfg, m, r, []);
      if m.cmds[r].op == Write {
        PoisedWrite(cfg, m, r);
        PoisedPlane(cfg, m, r);
        SendWriteSpot(cfg, m, r);
      }
    }
  }

  lemma SendErasePhase(cfg: Config, m: Chip, r: nat)
    requires Shape(cfg, m) && r in m.cmds && m.cmds[r].op == Erase
    ensures Send(cfg, m, r, [], true).phase == Erasing
  {
    hide Shape, Scrambled, Aged;
  }

  lemma PoisedPlane(cfg: Config, m: Chip, r: nat)
    requires Poised(cfg, m, r) && m.erases != []
    ensures r in m.cmds && m.cmds[r].load.OfSub?
    ensures SubOf(m, r).loc.at in m.planes && m.planes[SubOf(m, r).loc.at].eraseUsed
  {
    hide PlaneExact, Exact, MapForward, MapBackward, Stored, Writes, Reads, Looked, EraseQueue, Marked, RoomAt, Moving,
         HostWriteOk, Ample, EntriesShape, PlaneShape, SubsShape, Within;
    assert CommandShape(cfg, m.cmds[r]);
  }

  lemma SendWriteSpot(cfg: Config, m: Chip, r: nat)
    requires Shape(cfg, m) && r in m.cmds && m.cmds[r].op == Write && m.commands == [r] && m.cmds[r].load.OfSub?
    ensures SubOf(m, r).loc.at in m.planes
    ensures m.planes[SubOf(m, r).loc.at].active < |m.planes[SubOf(m, r).loc.at].blocks|
    ensures Burning(Send(cfg, m, r, [], true)) == Some(AllocLoc(m.planes[SubOf(m, r).loc.at], SubOf(m, r).loc.at))
  {
    hide AllocPage, Transferred, Overlay, EntriesShape, SubsShape, ListShape;
    assert CommandShape(cfg, m.cmds[r]);
  }

  /** No program goes to a page that holds data. */
  lemma DispatchSpares(cfg: Config, m: Chip, id: nat, scratch: PageBuf, loc: Loc)
    requires Roomy(cfg) && Inv(cfg, m) && MayDispatch(cfg, m) && Intact(m, loc)
    ensures Defined(cfg, m, Dispatches(id, scratch, []))
    ensures var m' := Next(cfg, m, Dispatches(id, scratch, [])); !(m'.phase == Programming && Burning(m') == Some(loc))
  {
    hide Inv, Roomy, Shape, GetCommand, Send, AnyPoised, ErasingAt, Poised, Burning;
    DispatchKeeps(cfg, m, id, scratch, []);
    DispatchDefined(cfg, m, id, scratch);
    var (m1, r) := GetCommand(cfg, m, id, scratch);
    if r.Some? {
      if m.incompletedR != [] {
        HalfRead(cfg, m, r.value);
        SendCarries(cfg, m1, r.value, []);
      } else {
        PoisedOut(cfg, m1, r.value);
        if m1.cmds[r.value].op == Erase {
          SendErasePhase(cfg, m1, r.value);
        } else {
          SendCarries(cfg, m1, r.value, []);
          if m1.cmds[r.value].op == Write { SendWriteSpot(cfg, m1, r.value); }
        }
      }
    }
  }

  /** An erase that is out stays out until it completes. */
  lemma ErasingStep(cfg: Config, m: Chip, st: Step, loc: Loc)
    requires Roomy(cfg) && Inv(cfg, m) && Guard(cfg, m, st) && ErasingAt(m, loc)
    ensures Defined(cfg, m, st) && !st.Dispatches? && Sheltered(Next(cfg, m, st), loc)
    ensures !st.Completes? ==> ErasingAt(Next(cfg, m, st), loc)
  {
    hide Inv, Roomy, Shape, Complete, Dispatch, GcCheck, MayWrite, MayRead, Burning, HostOut;
    StepKeeps(cfg, m, st);
    EraseMarked(cfg, m);
    if st.Completes? {
      EraseEndsAt(cfg, m, loc.at);
    } else if st.Checks? {
      CheckVictims(cfg, m, st.id, loc.at);
      CheckErasing(cfg, m, st.id);
    }
  }

  lemma CheckErasing(cfg: Config, m: Chip, id: nat)
    requires Inv(cfg, m) && m.pending.Some? && m.phase == Erasing
    ensures Shape(cfg, m)
    ensures var m' := GcCheck(cfg, m, id);
            && m'.phase == Erasing && m.erases != [] && m'.erases != [] && m'.erases[0] == m.erases[0]
            && m.erases[0] in m.cmds && m.erases[0] in m'.cmds && m'.cmds[m.erases[0]] == m.cmds[m.erases[0]]
  {
    hide Inv, Shape, Victim;
    InvTable(cfg, m);
    EraseMarked(cfg, m);
    ErasingHead(cfg, m);
  }

  lemma ErasingHead(cfg: Config, m: Chip)
    requires Inv(cfg, m) && m.phase == Erasing
    ensures m.erases != [] && m.erases[0] in m.cmds
  {
    hide Exact, MapForward, MapBackward, Stored, Writes, Reads, Looked, Marked, Room, PlanesShape, EntriesShape,
         SubsShape, Hosts, Burnt, InStep, Collecting, EraseQueue, TableShape;
  }

  /** When the erase completes, its plane is no longer marked, no check is due and nothing is out. */
  lemma EraseEndsAt(cfg: Config, m: Chip, a: PlaneAddr)
    requires EraseDone(cfg, m) && a in m.planes && m.erases != [] && m.erases[0] in m.cmds
    requires m.cmds[m.erases[0]].load == EraseAt(a)
    ensures Defined(cfg, m, Completes)
    ensures var m' := Next(cfg, m, Completes);
            m'.phase == Idle && a in m'.planes && !m'.planes[a].eraseUsed && m'.pending.None?
  {
    hide Inv, Shape, PlaneExact, PlaneShape, Exact, Dead, RoomAt, Blank;
    EraseFacts(cfg, m);
  }

  /** Completions neither mark a plane nor make a check due, apart from those of host writes. */
  lemma CompleteUnmarked(cfg: Config, m: Chip, a: PlaneAddr)
    requires Inv(cfg, m) && Guard(cfg, m, Completes) && a in m.planes && !m.planes[a].eraseUsed
    requires !(m.phase == Programming && HostOut(m).Some?)
    ensures Defined(cfg, m, Completes)
    ensures var m' := Next(cfg, m, Completes);
            m'.phase == Idle && a in m'.planes && !m'.planes[a].eraseUsed && m'.pending.None?
  {
    hide Inv, Shape, PlaneExact, Exact, MapForward, MapBackward, PlaneShape, MergeAll, Marked, EraseQueue, Writes,
         Reads, Looked, Blank, Complete;
    CompleteKeeps(cfg, m);
    if m.phase == Erasing {
      EraseUnmarks(cfg, m, a);
    } else {
      CompleteVictims(cfg, m, a);
      if m.phase == Programming { RelocationEnds(cfg, m); } else { ReadEnds(cfg, m); }
    }
  }

  lemma EraseUnmarks(cfg: Config, m: Chip, a: PlaneAddr)
    requires EraseDone(cfg, m) && a in m.planes && !m.planes[a].eraseUsed
    ensures Defined(cfg, m, Completes)
    ensures var m' := Next(cfg, m, Completes);
            m'.phase == Idle && a in m'.planes && !m'.planes[a].eraseUsed && m'.pending.None?
  {
    hide Inv, Shape, PlaneExact, PlaneShape, Exact, Dead, RoomAt, Blank;
    EraseFacts(cfg, m);
  }

  lemma RelocationEnds(cfg: Config, m: Chip)
    requires ProgramDone(cfg, m) && HostOut(m).None?
    ensures Defined(cfg, m, Completes) && Next(cfg, m, Completes).pending.None? && Next(cfg, m, Completes).phase == Idle
  {
    hide Inv, Shape, MovedPlanes, Complete, StoreAfter, EndIndex, EndQueue;
    LandingDefined(cfg, m);
    RelocationOut(cfg, m);
  }

  lemma RelocationOut(cfg: Config, m: Chip)
    requires ProgramDone(cfg, m) && HostOut(m).None?
    ensures m.commands != [] && m.commands[0] in m.cmds && m.cmds[m.commands[0]].related.Some?
  {
    hide MapForward, MapBackward, Stored, Writes, Reads, Looked, Hosts, Burnt, EraseQueue, Marked,
         Collecting, Room, InStep, Exact, PlanesShape, EntriesShape, SubsShape;
    assert CommandShape(cfg, m.cmds[m.commands[0]]);
  }

  lemma ReadEnds(cfg: Config, m: Chip)
    requires Defined(cfg, m, Completes) && m.pending.None? && (m.phase == ReadAddr || m.phase == ReadData)
    ensures Next(cfg, m, Completes).pending.None? && Next(cfg, m, Completes).phase == Idle
  {
    hide Shape, MergeAll;
  }

  lemma UnmarkedStep(cfg: Config, m: Chip, st: Step, loc: Loc)
    requires Roomy(cfg) && Inv(cfg, m) && Guard(cfg, m, st)
    requires loc.at in m.planes && !m.planes[loc.at].eraseUsed && m.pending.None?
    requires !(m.phase == Programming && HostOut(m).Some?)
    requires st.Dispatches? ==> st.junk == []
    ensures Defined(cfg, m, st)
    ensures !SendsHostWrite(Next(cfg, m, st), st) ==>
              Sheltered(Next(cfg, m, st), loc) && !Rewrites(Next(cfg, m, st), st, loc)
  {
    hide Inv, Roomy, Shape, Complete, Dispatch, GcCheck, MayWrite, MayRead, ErasingAt, Burning, Intact;
    StepKeeps(cfg, m, st);
    if st.Dispatches? {
      ProgramsMarked(cfg, m, st.id, st.scratch);
      SendVictims(cfg, m, st.id, st.scratch, [], loc.at);
      DispatchPending(cfg, m, st.id, st.scratch);
    } else if st.Completes? {
      CompleteUnmarked(cfg, m, loc.at);
    }
  }

  lemma DispatchPending(cfg: Config, m: Chip, id: nat, scratch: PageBuf)
    requires Defined(cfg, m, Dispatches(id, scratch, []))
    ensures Next(cfg, m, Dispatches(id, scratch, [])).pending == m.pending
  {
    hide Shape, GetCommand, Send;
  }

  /** As long as no host write is sent, a sheltered page stays sheltered and gets no new data,
      whatever is relocated, erased or checked, when erases leave the bytes alone as the
      driver's do. */
  lemma ShelterStep(cfg: Config, m: Chip, st: Step, loc: Loc)
    requires Roomy(cfg) && Inv(cfg, m) && Guard(cfg, m, st) && InRange(cfg, loc) && Sheltered(m, loc)
    requires st.Dispatches? ==> st.junk == []
    ensures Defined(cfg, m, st)
    ensures !SendsHostWrite(Next(cfg, m, st), st) ==>
              Sheltered(Next(cfg, m, st), loc) && !Rewrites(Next(cfg, m, st), st, loc)
  {
    hide Inv, Roomy, Shape, Next, MayWrite, MayRead, ErasingAt, Burning, HostOut, Intact;
    StepKeeps(cfg, m, st);
    if Intact(m, loc) {
      StaysIntact(cfg, m, st, loc);
      if st.Dispatches? { DispatchSpares(cfg, m, st.id, st.scratch, loc); }
    } else if ErasingAt(m, loc) {
      ErasingStep(cfg, m, st, loc);
    } else {
      UnmarkedStep(cfg, m, st, loc);
    }
  }

  /** No erase in the steps from `i` to `j` overwrites the bytes of its block. */
  ghost predicate Gentle(steps: seq<Step>, i: nat, j: nat)
    requires i <= j <= |steps|
  {
    forall k :: i <= k < j && steps[k].Dispatches? ==> steps[k].junk == []
  }

  /** No step from `i` to `j` sends a host write. */
  ghost predicate NoHostWrite(states: seq<Chip>, steps: seq<Step>, i: nat, j: nat)
    requires i <= j < |states| == |steps| + 1
  {
    forall k :: i <= k < j ==> !SendsHostWrite(states[k + 1], steps[k])
  }

  /** Over any stretch of a run in which no host write is sent a sheltered page keeps its data. */
  lemma {:induction false} ShelteredUntouched(
      cfg: Config, states: seq<Chip>, steps: seq<Step>, i: nat, j: nat, loc: Loc)
    requires Roomy(cfg) && Run(cfg, states, steps) && i <= j < |states| && InRange(cfg, loc)
    requires Sheltered(states[i], loc) && Gentle(steps, i, j) && NoHostWrite(states, steps, i, j)
    ensures Sheltered(states[j], loc) && Untouched(states, steps, i, j, loc)
  {
    hide Inv, Roomy, Next, Init, Guard, Defined, Rewrites, Sheltered, SendsHostWrite;
    if i < j {
      ShelteredUntouched(cfg, states, steps, i, j - 1, loc);
      RunKeeps(cfg, states, steps, j - 1);
      ShelterStep(cfg, states[j - 1], steps[j - 1], loc);
    }
  }

  /** Whatever carries a read has it in hand, or in the queue or out, where it holds up host writes. */
  lemma CarriedHolds(cfg: Config, m: Chip, st: Step, t: Ticket)
    requires Roomy(cfg) && Inv(cfg, m) && Guard(cfg, m, st) && (st.Dispatches? ==> st.junk == [])
    requires Carries(m, t) && t.ReadTicket? && !Queued(m.rHand, true, t)
    ensures Defined(cfg, m, st) && !SendsHostWrite(Next(cfg, m, st), st)
  {
    hide Inv, Roomy, Next, Guard, Defined, HostOut;
    StepKeeps(cfg, m, st);
    if st.Dispatches? {
      IdleGuard(cfg, m, st);
      assert m.rQueue == [] ==> AllReads(m) == m.rHand;
      WaitingDispatch(cfg, m, st.id, st.scratch);
    }
  }

  lemma IdleGuard(cfg: Config, m: Chip, st: Step)
    requires Guard(cfg, m, st) && st.Dispatches?
    ensures MayDispatch(cfg, m)
  {
  }

  /** Only a host write that is sent while a read is in hand can spoil it. A read that has its data
      at `n` was made at `k`; when no step in between sends a host write while the read is made but
      not yet queued, it brings what its page held at `k`, relocated and erased or not. */
  lemma QueuedReadDelivers(cfg: Config, states: seq<Chip>, steps: seq<Step>, n: nat) returns (k: nat)
    requires Roomy(cfg) && Run(cfg, states, steps) && n < |states|
    requires states[n].phase == ReadData && HostOut(states[n]).Some?
    ensures k < n && Makes(states[k], steps[k], TicketOf(HostOut(states[n]).value, true))
    ensures forall j :: k < j <= n ==> Carries(states[j], TicketOf(HostOut(states[n]).value, true))
    ensures var s := HostOut(states[n]).value;
            Gentle(steps, k, n)
            && (forall j :: k < j < n && Queued(states[j].rHand, true, TicketOf(s, true)) ==>
                  !SendsHostWrite(states[j + 1], steps[j])) ==>
            && s.whole && s.lpn in states[k].store && s.host == Expected(states[k].store[s.lpn], s.bits)
            && Holds(s.buf, s.bits, s.host)
  {
    hide Inv, Roomy, Next, Init, Defined, Untouched, Run, Expected, Holds, Intact, Rewrites, ErasingAt, Carries, Makes,
         Queued, SendsHostWrite, Guard, Written;
    RunLengths(cfg, states, steps);
    k := ReadDelivers(cfg, states, steps, n);
    var s := HostOut(states[n]).value;
    var t := TicketOf(s, true);
    if Gentle(steps, k, n)
      && forall j :: k < j < n && Queued(states[j].rHand, true, t) ==> !SendsHostWrite(states[j + 1], steps[j]) {
      RunSteps(cfg, states, steps);
      forall j | k <= j < n ensures !SendsHostWrite(states[j + 1], steps[j]) {
        RunKeeps(cfg, states, steps, j);
        if j == k {
          MakesSendsNothing(states[k], steps[k], states[k + 1], t);
        } else if !Queued(states[j].rHand, true, t) {
          CarriedHolds(cfg, states[j], steps[j], t);
        }
      }
      RunKeeps(cfg, states, steps, k);
      RunKeeps(cfg, states, steps, n);
      ReadOut(cfg, states[n]);
      MadeMapped(cfg, states[k], steps[k], t);
      MappedIsIntact(cfg, states[k], s.lpn);
      IntactSheltered(states[k], s.loc);
      ShelteredUntouched(cfg, states, steps, k, n, s.loc);
    }
  }

  lemma RunSteps(cfg: Config, states: seq<Chip>, steps: seq<Step>)
    requires Run(cfg, states, steps)
    ensures |states| == |steps| + 1
    ensures forall j :: 0 <= j < |steps| ==>
              && Guard(cfg, states[j], steps[j]) && Defined(cfg, states[j], steps[j])
              && states[j + 1] == Next(cfg, states[j], steps[j])
  {
    hide Init, Guard, Defined, Next;
  }

  lemma MakesSendsNothing(m: Chip, st: Step, m': Chip, t: Ticket)
    requires Makes(m, st, t)
    ensures !SendsHostWrite(m', st)
  {
  }

  lemma IntactSheltered(m: Chip, loc: Loc)
    requires Intact(m, loc)
    ensures Sheltered(m, loc)
  {
    hide Intact;
  }

  lemma MadeMapped(cfg: Config, m: Chip, st: Step, t: Ticket)
    requires Inv(cfg, m) && Guard(cfg, m, st) && Makes(m, st, t) && t.ReadTicket?
    ensures t.lpn in m.entries && t.lpn in m.store && m.entries[t.lpn].loc == t.loc
    ensures t.host == Expected(m.store[t.lpn], t.bits)
    ensures m.entries[t.lpn].subPage != {}
    ensures t.loc in m.ages ==> t.stamp == m.ages[t.loc]
  {
    hide Inv, Expected;
  }
}
