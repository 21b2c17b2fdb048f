/** Every request ends. As long as anything is made, queued, out or being collected there is a step
    of the driver or of the NAND chip that brings the end nearer, and when nothing is submitted any
    more only so many of them are left, whatever their order. */
module ChipDrain {
  import opened Flash
  import opened Sectors
  import opened Chip
  import opened ChipInv
  import opened ChipTake
  import opened ChipRuns
  import opened ChipProgress
  import opened ChipSafety
  import opened ChipOrigin
  import opened ChipWaiting
  import opened ChipEarly
  import opened ChipOrder
  import opened ChipRequests

  // ---------------------------------------------------------------- what is left

  /** The steps left of the command that is out: timer, completion, and for the address half of a
      read the same again for its data. */
  function OutLeft(m: Chip): nat {
    match m.phase
    case Idle => if m.incompletedR != [] then 3 else 0
    case ReadAddr => if m.hw.timer then 5 else 4
    case _ => if m.hw.timer then 2 else 1
  }

  /** What one collection can take, from its check on. */
  function EraseLeft(cfg: Config): nat { 6 * (4 * cfg.pages + 4) + 3 }

  function Weigh(inHand: nat, queued: nat, each: nat): nat { inHand * (each + 1) + queued * each }

  function GcLeft(cfg: Config, m: Chip): nat {
    if m.erases == [] then 0
    else
      6 * GcWork(cfg.pages, m.cmds, m.erases) + (if m.phase == Erasing then 0 else 3)
        + Weigh(0, |m.erases| - 1, EraseLeft(cfg))
  }

  /** Finished host writes ask for a check, and the check for a collection. */
  function ChecksLeft(cfg: Config, m: Chip): nat {
    (if m.phase == Programming && HostOut(m).Some? then EraseLeft(cfg) + 1 else 0)
    + (if m.pending.Some? then EraseLeft(cfg) + 1 else 0)
  }

  function ReadsLeft(m: Chip): nat { Weigh(|m.rHand|, |m.rQueue|, 6) }

  function WritesLeft(cfg: Config, m: Chip): nat { Weigh(|m.wHand|, |m.wQueue|, EraseLeft(cfg) + 4) }

  /** How many steps are left at most when nothing more is submitted. */
  function Left(cfg: Config, m: Chip): nat {
    OutLeft(m) + GcLeft(cfg, m) + ChecksLeft(cfg, m) + ReadsLeft(m) + WritesLeft(cfg, m)
  }

  lemma WeighNone(each: nat)
    ensures Weigh(0, 0, each) == 0
  {
  }

  lemma WeighMoved(a: nat, b: nat, each: nat)
    ensures Weigh(0, b + a, each) + a == Weigh(a, b, each)
  {
    assert (b + a) * each == b * each + a * each;
    assert a * (each + 1) == a * each + a;
  }

  lemma WeighTaken(a: nat, b: nat, each: nat)
    requires b > 0
    ensures Weigh(a, b - 1, each) + each == Weigh(a, b, each)
  {
    assert b * each == (b - 1) * each + each;
  }

  // ---------------------------------------------------------------- dispatch

  predicate SameLists(m: Chip, m': Chip) {
    |m'.rHand| == |m.rHand| && |m'.wHand| == |m.wHand| && |m'.rQueue| == |m.rQueue| && |m'.wQueue| == |m.wQueue|
  }

  lemma SameListsLeft(cfg: Config, m: Chip, m': Chip)
    requires SameLists(m, m')
    ensures ReadsLeft(m') == ReadsLeft(m) && WritesLeft(cfg, m') == WritesLeft(cfg, m)
  {
  }

  /** The second half of a read goes out. */
  lemma HalfDrains(cfg: Config, m: Chip, id: nat, scratch: PageBuf)
    requires Roomy(cfg) && Inv(cfg, m) && MayDispatch(cfg, m) && m.incompletedR != []
    ensures Defined(cfg, m, Dispatches(id, scratch, []))
    ensures var m' := Next(cfg, m, Dispatches(id, scratch, []));
            SameLists(m, m') && m'.phase == ReadData && m'.pending == m.pending && m'.erases == m.erases
  {
    hide Inv, Roomy, Shape, Send, AnyPoised, TakeHost, ForErase;
    DispatchKeeps(cfg, m, id, scratch, []);
    DispatchDefined(cfg, m, id, scratch);
    HalfRead(cfg, m, m.incompletedR[0]);
  }

  /** The collector's turn. */
  lemma VisitDrains(cfg: Config, m: Chip, id: nat, scratch: PageBuf)
    requires Roomy(cfg) && Inv(cfg, m) && MayDispatch(cfg, m) && m.incompletedR == [] && m.erases != []
    ensures Defined(cfg, m, Dispatches(id, scratch, []))
    ensures var m' := Next(cfg, m, Dispatches(id, scratch, []));
            && SameLists(m, m') && m'.phase != Idle && m'.pending == m.pending && m'.erases == m.erases
            && (m'.phase == Programming ==> HostOut(m').None?)
  {
    hide Inv, Roomy, Shape, Send, AnyPoised, TakeHost, ForErase, HostOut;
    DispatchKeeps(cfg, m, id, scratch, []);
    DispatchDefined(cfg, m, id, scratch);
    var (m1, r) := GetCommand(cfg, m, id, scratch);
    VisitLists(cfg, m, id, scratch);
    VisitProgress(cfg, m, id, scratch);
    PoisedSends(cfg, m1, r.value);
  }

  /** The host's turn: a read or a ready write goes out, if there is one. */
  lemma HostDrains(cfg: Config, m: Chip, id: nat, scratch: PageBuf)
    requires Roomy(cfg) && Inv(cfg, m) && MayDispatch(cfg, m) && m.incompletedR == [] && m.erases == []
    ensures Defined(cfg, m, Dispatches(id, scratch, []))
    ensures var m' := Next(cfg, m, Dispatches(id, scratch, []));
            && m'.pending == m.pending && m'.erases == []
            && if m.rQueue != [] then
                 && |m'.rQueue| == |m.rQueue| - 1 && |m'.rHand| == |m.rHand| && |m'.wQueue| == |m.wQueue|
                 && |m'.wHand| == |m.wHand| && m'.phase != Idle && m'.phase != Programming
               else if FirstReady(m.wQueue) < |m.wQueue| then
                 && |m'.wQueue| == |m.wQueue| - 1 && |m'.wHand| == |m.wHand| && |m'.rQueue| == |m.rQueue|
                 && |m'.rHand| == |m.rHand| && m'.phase == Programming
               else m' == m
  {
    hide Inv, Roomy, Shape, Send, AnyPoised, FirstReady, TakeHost;
    DispatchKeeps(cfg, m, id, scratch, []);
    DispatchDefined(cfg, m, id, scratch);
    IdleFacts(cfg, m);
    TakeCounts(cfg, m, id);
  }

  lemma TakeCounts(cfg: Config, m: Chip, id: nat)
    requires Shape(cfg, m)
    ensures var (m1, r) := TakeHost(cfg, m, id);
            && m1.pending == m.pending && m1.erases == m.erases && m1.rHand == m.rHand && m1.wHand == m.wHand
            && if m.rQueue != [] then
                 && r.Some? && r.value in m1.cmds && m1.cmds[r.value].op == Read && m1.cmds[r.value].stage == 0
                 && |m1.rQueue| == |m.rQueue| - 1 && m1.wQueue == m.wQueue
               else if FirstReady(m.wQueue) < |m.wQueue| then
                 && r.Some? && r.value in m1.cmds && m1.cmds[r.value].op == Write
                 && |m1.wQueue| == |m.wQueue| - 1 && m1.rQueue == m.rQueue
               else m1 == m && r.None?
  {
    hide Shape, FirstReady;
  }

  /** A dispatch that sends something brings the end nearer. */
  lemma DispatchDrains(cfg: Config, m: Chip, id: nat, scratch: PageBuf)
    requires Roomy(cfg) && Inv(cfg, m) && MayDispatch(cfg, m)
    ensures Defined(cfg, m, Dispatches(id, scratch, []))
    ensures var m' := Next(cfg, m, Dispatches(id, scratch, [])); m' == m || Left(cfg, m') < Left(cfg, m)
    ensures m.incompletedR != [] || m.erases != [] || m.rQueue != [] || FirstReady(m.wQueue) < |m.wQueue| ==>
              Left(cfg, Next(cfg, m, Dispatches(id, scratch, []))) < Left(cfg, m)
  {
    hide Inv, Roomy, Shape, Next, Weigh, GcWork, HostOut, FirstReady;
    if m.incompletedR != [] {
      HalfDrains(cfg, m, id, scratch);
      if m.erases != [] { DispatchProgress(cfg, m, id, scratch, []); }
      SameListsLeft(cfg, m, Next(cfg, m, Dispatches(id, scratch, [])));
    } else if m.erases != [] {
      VisitDrains(cfg, m, id, scratch);
      DispatchProgress(cfg, m, id, scratch, []);
      SameListsLeft(cfg, m, Next(cfg, m, Dispatches(id, scratch, [])));
    } else {
      HostDrains(cfg, m, id, scratch);
      if m.rQueue != [] {
        WeighTaken(|m.rHand|, |m.rQueue|, 6);
      } else if FirstReady(m.wQueue) < |m.wQueue| {
        WeighTaken(|m.wHand|, |m.wQueue|, EraseLeft(cfg) + 4);
      }
    }
  }

  // ---------------------------------------------------------------- the other steps

  lemma CompleteLists(cfg: Config, m: Chip)
    requires Inv(cfg, m) && Guard(cfg, m, Completes)
    ensures Defined(cfg, m, Completes) && m.phase != Idle
    ensures var m' := Next(cfg, m, Completes);
            && SameLists(m, m') && m'.phase == Idle
            && (m'.incompletedR != [] ==> m.phase == ReadAddr)
            && (m.erases == [] ==> m'.erases == [])
  {
    hide Inv, Shape, MergeAll, EndProgram, EndReadAddr, EndReadData, EndErase;
    CompleteKeeps(cfg, m);
    CompletesShort(cfg, m);
    if m.phase == ReadData { DataLeaves(cfg, m); } else { OthersLeave(cfg, m); }
  }

  lemma DataLeaves(cfg: Config, m: Chip)
    requires Defined(cfg, m, Completes) && m.phase == ReadData && |m.incompletedR| == 1
    ensures Next(cfg, m, Completes).incompletedR == []
  {
    hide Shape, MergeAll;
  }

  lemma OthersLeave(cfg: Config, m: Chip)
    requires Defined(cfg, m, Completes) && m.phase != ReadData
    ensures var m' := Next(cfg, m, Completes);
            && (m.phase != ReadAddr ==> m'.incompletedR == m.incompletedR)
            && (m.erases == [] ==> m'.erases == [])
  {
    hide Shape, CommitPage, InvalidatePage, EraseBlock, Settled;
  }

  lemma CompletesShort(cfg: Config, m: Chip)
    requires Inv(cfg, m) && m.hw.signal
    ensures m.phase != Idle && (m.phase == ReadData ==> |m.incompletedR| == 1)
    ensures m.phase == Programming || m.phase == Erasing ==> m.incompletedR == []
    ensures m.phase == Erasing ==> m.erases != []
    ensures !m.hw.timer
  {
    hide PlaneExact, Exact, MapForward, MapBackward, Stored, Writes, Reads, Looked, Marked, Room, EraseQueue, Shape,
         Hosts, Burnt, Collecting;
  }

  /** Only a finished host write asks for a check. */
  lemma CompletePending(cfg: Config, m: Chip)
    requires Inv(cfg, m) && Guard(cfg, m, Completes)
    ensures Defined(cfg, m, Completes)
    ensures Next(cfg, m, Completes).pending.Some? ==> m.phase == Programming && HostOut(m).Some?
  {
    hide Inv, Shape, UpdateMap, MergeAll, EraseBlock, Settled, Complete, HostOut;
    CompleteKeeps(cfg, m);
    CompletesShort(cfg, m);
    if m.phase == Programming {
      if HostOut(m).None? { RelocationEnds(cfg, m); }
    } else if m.phase == Erasing {
      ErasePending(cfg, m);
    } else {
      ReadEnds(cfg, m);
    }
  }

  lemma ErasePending(cfg: Config, m: Chip)
    requires Defined(cfg, m, Completes) && m.phase == Erasing && m.pending.None?
    ensures Next(cfg, m, Completes).pending.None?
  {
    hide Shape, EraseBlock;
  }

  lemma CompleteDrains(cfg: Config, m: Chip)
    requires Roomy(cfg) && Inv(cfg, m) && Guard(cfg, m, Completes)
    ensures Defined(cfg, m, Completes) && Left(cfg, Next(cfg, m, Completes)) < Left(cfg, m)
  {
    hide Inv, Roomy, Shape, Next, Weigh, GcWork, HostOut, Guard;
    CompleteLists(cfg, m);
    CompletePending(cfg, m);
    CompletesGuard(cfg, m);
    CompletesShort(cfg, m);
    var m' := Next(cfg, m, Completes);
    SameListsLeft(cfg, m, m');
    if m.erases != [] {
      CollectionEnds(cfg, m, Completes);
      SameQueue(cfg, m);
      WorkBounded(cfg, m');
      if m.phase == Erasing && |m.erases| > 1 {
        WeighTaken(0, |m.erases| - 1, EraseLeft(cfg));
      }
    }
  }

  lemma CompletesGuard(cfg: Config, m: Chip)
    requires Guard(cfg, m, Completes)
    ensures m.hw.signal && m.pending.None?
  {
  }

  lemma SameQueue(cfg: Config, m: Chip)
    requires Inv(cfg, m) && Guard(cfg, m, Completes)
    ensures Defined(cfg, m, Completes)
    ensures m.phase != Erasing ==> |Next(cfg, m, Completes).erases| == |m.erases|
  {
    hide Inv, Shape, UpdateMap, MergeAll, EraseBlock, Settled;
    CompleteKeeps(cfg, m);
  }

  /** A check trades what it may cost for a collection, or for nothing. */
  lemma CheckDrains(cfg: Config, m: Chip, id: nat)
    requires Roomy(cfg) && Inv(cfg, m) && Guard(cfg, m, Checks(id))
    ensures Defined(cfg, m, Checks(id)) && Left(cfg, Next(cfg, m, Checks(id))) < Left(cfg, m)
  {
    hide Inv, Roomy, Shape, Next, Weigh, GcLeft, EraseLeft, HostOut;
    StepKeeps(cfg, m, Checks(id));
    CheckCounts(cfg, m, id);
    CheckOut(cfg, m, id);
    SameListsLeft(cfg, m, Next(cfg, m, Checks(id)));
    CheckWork(cfg, m, id);
  }

  /** A check asks for one collection at most. */
  lemma CheckWork(cfg: Config, m: Chip, id: nat)
    requires Roomy(cfg) && Inv(cfg, m) && Guard(cfg, m, Checks(id))
    ensures Defined(cfg, m, Checks(id))
    ensures GcLeft(cfg, Next(cfg, m, Checks(id))) <= GcLeft(cfg, m) + EraseLeft(cfg)
  {
    hide Inv, Roomy, Shape, Next, Weigh, GcWork, HostOut;
    StepKeeps(cfg, m, Checks(id));
    CheckCounts(cfg, m, id);
    var m' := Next(cfg, m, Checks(id));
    WorkBounded(cfg, m');
    if m.erases != [] {
      CollectionEnds(cfg, m, Checks(id));
      if |m'.erases| > |m.erases| { WeighTaken(0, |m'.erases| - 1, EraseLeft(cfg)); }
    } else {
      WeighNone(EraseLeft(cfg));
    }
  }

  lemma CheckCounts(cfg: Config, m: Chip, id: nat)
    requires Shape(cfg, m) && m.pending.Some?
    ensures Defined(cfg, m, Checks(id)) && Next(cfg, m, Checks(id)) == GcCheck(cfg, m, id)
    ensures var m' := GcCheck(cfg, m, id);
            && SameLists(m, m') && m'.phase == m.phase && m'.hw == m.hw && m'.incompletedR == m.incompletedR
            && m'.pending.None? && |m.erases| <= |m'.erases| <= |m.erases| + 1
  {
    hide Shape, Victim;
  }

  lemma TimerDrains(cfg: Config, m: Chip)
    requires Roomy(cfg) && Inv(cfg, m) && Guard(cfg, m, TimerFires)
    ensures Defined(cfg, m, TimerFires) && Left(cfg, Next(cfg, m, TimerFires)) < Left(cfg, m)
  {
    hide Inv, Roomy, Shape, Weigh, GcWork;
    StepKeeps(cfg, m, TimerFires);
    TimerBusy(cfg, m);
    SameListsLeft(cfg, m, Fire(m));
  }

  lemma TimerBusy(cfg: Config, m: Chip)
    requires Inv(cfg, m) && m.hw.timer
    ensures m.phase != Idle
  {
    hide PlaneExact, Exact, MapForward, MapBackward, Stored, Writes, Reads, Looked, Marked, Room, EraseQueue, Shape,
         Hosts, Burnt, Collecting, Queues;
  }

  /** Queueing what is in hand brings it nearer. */
  lemma WritesDrain(cfg: Config, m: Chip)
    ensures if m.wHand != [] then Left(cfg, QueueWrites(m)) < Left(cfg, m) else QueueWrites(m) == m
  {
    hide Weigh, GcWork, EraseLeft;
    if m.wHand == [] {
      assert m.wQueue + [] == m.wQueue;
    } else {
      WeighMoved(|m.wHand|, |m.wQueue|, EraseLeft(cfg) + 4);
      SameOut(cfg, m, QueueWrites(m));
      hide OutLeft, GcLeft, ChecksLeft;
    }
  }

  lemma ReadsDrain(cfg: Config, m: Chip)
    ensures if m.rHand != [] then Left(cfg, QueueReads(m)) < Left(cfg, m) else QueueReads(m) == m
  {
    hide Weigh, GcWork, EraseLeft;
    if m.rHand == [] {
      assert m.rQueue + [] == m.rQueue;
    } else {
      WeighMoved(|m.rHand|, |m.rQueue|, 6);
      SameOut(cfg, m, QueueReads(m));
      hide OutLeft, GcLeft, ChecksLeft;
    }
  }

  lemma SameOut(cfg: Config, m: Chip, m': Chip)
    requires m' == QueueWrites(m) || m' == QueueReads(m)
    ensures OutLeft(m') == OutLeft(m) && GcLeft(cfg, m') == GcLeft(cfg, m) && ChecksLeft(cfg, m') == ChecksLeft(cfg, m)
  {
    hide GcWork;
  }

  /** Every step that submits nothing does nothing or brings the end nearer. */
  lemma StepDrains(cfg: Config, m: Chip, st: Step)
    requires Roomy(cfg) && Inv(cfg, m) && Guard(cfg, m, st) && !Submits(st) && (st.Dispatches? ==> st.junk == [])
    ensures Defined(cfg, m, st) && (Next(cfg, m, st) == m || Left(cfg, Next(cfg, m, st)) < Left(cfg, m))
  {
    hide Inv, Roomy, Shape, Complete, Dispatch, GcCheck, Fire, Left, QueueWrites, QueueReads;
    StepKeeps(cfg, m, st);
    match st {
      case Dispatches(id, scratch, _) => DispatchDrains(cfg, m, id, scratch);
      case TimerFires => TimerDrains(cfg, m);
      case Completes => CompleteDrains(cfg, m);
      case Checks(id) => CheckDrains(cfg, m, id);
      case QueuesWrites => WritesDrain(cfg, m);
      case _ => ReadsDrain(cfg, m);
    }
  }

  // ---------------------------------------------------------------- no deadlock

  /** Nothing is made, queued, out or being collected, and no check is due. */
  predicate Done(m: Chip) {
    && m.phase == Idle && m.rHand == [] && m.rQueue == [] && m.wHand == [] && m.wQueue == [] && m.incompletedR == []
    && m.erases == [] && m.pending.None?
  }

  lemma WaitsForSomething(cfg: Config, m: Chip)
    requires Inv(cfg, m) && AllAccompanied(m) && m.phase == Idle && m.rHand == [] && m.rQueue == []
    requires m.wQueue != [] && m.incompletedR == []
    ensures FirstReady(m.wQueue) < |m.wQueue|
  {
    hide Inv;
    IdleFacts(cfg, m);
    assert AllWrites(m)[0] == m.wQueue[0];
    assert AllReads(m) == [];
  }

  /** As long as anything is left to do, some step that submits nothing may happen and brings the end
      nearer. */
  lemma NoDeadlock(cfg: Config, m: Chip, scratch: PageBuf) returns (st: Step)
    requires Roomy(cfg) && Inv(cfg, m) && AllAccompanied(m) && !Done(m)
    ensures Guard(cfg, m, st) && Defined(cfg, m, st) && !Submits(st) && (st.Dispatches? ==> st.junk == [])
    ensures Left(cfg, Next(cfg, m, st)) < Left(cfg, m)
  {
    hide Inv, Roomy, Shape, Complete, Dispatch, GcCheck, Fire, Left, AllAccompanied, FirstReady;
    if m.pending.Some? {
      st := Checks(0);
      CheckDrains(cfg, m, 0);
    } else if m.phase != Idle {
      BusyChip(cfg, m);
      if m.hw.timer {
        st := TimerFires;
        TimerDrains(cfg, m);
      } else {
        st := Completes;
        CompleteDrains(cfg, m);
      }
    } else if m.wHand != [] || m.rHand != [] {
      st := if m.wHand != [] then QueuesWrites else QueuesReads;
      StepKeeps(cfg, m, st);
      WritesDrain(cfg, m);
      ReadsDrain(cfg, m);
    } else {
      st := Dispatches(0, scratch, []);
      if m.incompletedR == [] && m.erases == [] && m.rQueue == [] { WaitsForSomething(cfg, m); }
      DispatchDrains(cfg, m, 0, scratch);
    }
  }

  lemma BusyChip(cfg: Config, m: Chip)
    requires Inv(cfg, m) && m.phase != Idle
    ensures m.hw.timer || m.hw.signal
  {
    hide PlaneExact, Exact, MapForward, MapBackward, Stored, Writes, Reads, Looked, Marked, Room, EraseQueue, Shape,
         Hosts, Burnt, Collecting, Queues;
  }

  // ---------------------------------------------------------------- runs

  /** In a stretch of a run in which nothing is submitted, only so many steps do anything. */
  function Effective(states: seq<Chip>, i: nat, j: nat): nat
    requires i <= j < |states|
    decreases j
  {
    if i == j then 0 else Effective(states, i, j - 1) + if states[j] == states[j - 1] then 0 else 1
  }

  lemma {:induction false} RunDrains(cfg: Config, states: seq<Chip>, steps: seq<Step>, i: nat, j: nat)
    requires Roomy(cfg) && Run(cfg, states, steps) && i <= j < |states| && Gentle(steps, i, j)
    requires forall k :: i <= k < j ==> !Submits(steps[k])
    ensures Effective(states, i, j) + Left(cfg, states[j]) <= Left(cfg, states[i])
    decreases j
  {
    hide Inv, Roomy, Next, Guard, Defined, Init, Left;
    if i < j {
      RunDrains(cfg, states, steps, i, j - 1);
      RunKeeps(cfg, states, steps, j - 1);
      StepDrains(cfg, states[j - 1], steps[j - 1]);
    }
  }

  /** From every state of every run, steps that submit nothing lead to one in which everything is done. */
  lemma {:induction false} RunStops(cfg: Config, states: seq<Chip>, steps: seq<Step>, scratch: PageBuf)
    returns (states': seq<Chip>, steps': seq<Step>)
    requires Roomy(cfg) && Run(cfg, states, steps)
    ensures Run(cfg, states', steps') && states <= states' && steps <= steps'
    ensures forall k :: |steps| <= k < |steps'| ==> !Submits(steps'[k])
    ensures Done(states'[|steps'|]) && |steps'| - |steps| <= Left(cfg, states[|steps|])
    decreases Left(cfg, states[|steps|])
  {
    hide Inv, Roomy, Next, Guard, Defined, Init, Left, Done, AllAccompanied, Submits;
    var m := states[|steps|];
    if Done(m) {
      states', steps' := states, steps;
    } else {
      RunKeeps(cfg, states, steps, |steps|);
      WaitersAccompanied(cfg, states, steps, |steps|);
      var st := NoDeadlock(cfg, m, scratch);
      RunExtends(cfg, states, steps, st);
      hide Run;
      states', steps' := RunStops(cfg, states + [Next(cfg, m, st)], steps + [st], scratch);
      assert steps'[|steps|] == st;
    }
  }

  /** What is submitted before a stretch without submissions is all that was submitted after it. */
  lemma {:induction false} NoneMade(states: seq<Chip>, steps: seq<Step>, states': seq<Chip>, steps': seq<Step>, n: nat)
    requires |states| == |steps| + 1 && |states'| == |steps'| + 1 && states <= states' && steps <= steps'
    requires forall k :: |steps| <= k < |steps'| ==> !Submits(steps'[k])
    requires n <= |steps'|
    ensures var i := if n < |steps| then n else |steps|;
            && ReadsMade(states', steps', n) == ReadsMade(states, steps, i)
            && WritesMade(states', steps', n) == WritesMade(states, steps, i)
  {
    hide MadeReads, MadeWrites, Submits;
    if n > 0 {
      NoneMade(states, steps, states', steps', n - 1);
      if n <= |steps| {
        assert states'[n - 1] == states[n - 1] && steps'[n - 1] == steps[n - 1];
      } else {
        MakesNothing(states'[n - 1], steps'[n - 1]);
      }
    }
  }

  lemma MakesNothing(m: Chip, st: Step)
    requires !Submits(st)
    ensures MadeReads(m, st) == [] && MadeWrites(st) == []
  {
  }

  lemma NothingLeft(cfg: Config, m: Chip)
    requires Inv(cfg, m) && Done(m)
    ensures ReadLine(m) == [] && WriteLine(m) == [] && OutWrite(m) == []
  {
    hide Inv;
    IdleFacts(cfg, m);
  }

  /** Every request ends: from every state of every run steps that submit nothing, no more of them
      than the measure says, lead to a state in which everything is done; by then every read that
      was ever made has been out with its data and finished, once and in the order of making, and
      so has every write been finished. */
  lemma RunEnds(cfg: Config, states: seq<Chip>, steps: seq<Step>, scratch: PageBuf)
    returns (states': seq<Chip>, steps': seq<Step>)
    requires Roomy(cfg) && Run(cfg, states, steps)
    ensures Run(cfg, states', steps') && states <= states' && steps <= steps'
    ensures forall k :: |steps| <= k < |steps'| ==> !Submits(steps'[k])
    ensures Done(states'[|steps'|]) && |steps'| - |steps| <= Left(cfg, states[|steps|])
    ensures |states| == |steps| + 1 && |states'| == |steps'| + 1
    ensures ReadsDone(states', steps', |steps'|) == ReadsMade(states, steps, |steps|)
    ensures WritesDone(states', steps', |steps'|) == WritesMade(states, steps, |steps|)
  {
    hide Inv, Roomy, Next, Guard, Defined, Init, Left, Done, ReadLine, WriteLine, OutWrite, Submits, Run, ReadsDone,
         ReadsMade, WritesDone, WritesMade;
    states', steps' := RunStops(cfg, states, steps, scratch);
    var n := |steps'|;
    RunLengths(cfg, states, steps);
    RunLengths(cfg, states', steps');
    RunKeeps(cfg, states', steps', n);
    NothingLeft(cfg, states'[n]);
    ReadsInOrder(cfg, states', steps', n);
    WritesConserved(cfg, states', steps', n);
    NoneMade(states, steps, states', steps', n);
  }
}
