/** No sub-request is lost, none is made twice, and they keep their order: reads are finished in
    the order in which they were made, each once, and of the queued writes that may go the one
    made first is sent. */
module ChipOrder {
  import opened Flash
  import opened Lists
  import opened Sectors
  import opened Chip
  import opened ChipInv
  import opened ChipDispatch
  import opened ChipTake
  import opened ChipHost
  import opened ChipRuns
  import opened ChipSafety
  import opened ChipTheorems
  import opened ChipOrigin
  import opened ChipEarly

  function Tickets(q: seq<Sub>, read: bool): (r: seq<Ticket>)
    ensures |r| == |q| && forall i :: 0 <= i < |q| ==> r[i] == TicketOf(q[i], read)
  {
    seq(|q|, i requires 0 <= i < |q| => TicketOf(q[i], read))
  }

  /** The host read, and the host write, that is out. */
  function OutRead(m: Chip): seq<Ticket> {
    if HostOut(m).Some? && m.phase != Programming then [TicketOf(HostOut(m).value, true)] else []
  }

  function OutWrite(m: Chip): seq<Ticket> {
    if HostOut(m).Some? && m.phase == Programming then [TicketOf(HostOut(m).value, false)] else []
  }

  /** The reads on the chip: the one that is out, then those queued, then those made. */
  function ReadLine(m: Chip): seq<Ticket> { OutRead(m) + Tickets(AllReads(m), true) }

  /** The writes queued, then those made. */
  function WriteLine(m: Chip): seq<Ticket> { Tickets(AllWrites(m), false) }

  function MadeReads(m: Chip, st: Step): seq<Ticket> {
    match st
    case HostReads(l, bits, _) => if l in m.entries && l in m.store then [ReadOf(m, l, bits, false)] else []
    case HostWrites(l, bits, _, _) =>
      if l in m.entries && l in m.store && !(m.entries[l].subPage <= bits)
      then [ReadOf(m, l, m.entries[l].subPage, true)] else []
    case _ => []
  }

  function MadeWrites(st: Step): seq<Ticket> {
    if st.HostWrites? then [WriteTicket(st.l, HostData(st.bits, st.buf))] else []
  }

  /** The read that this step finishes: it is out and has its data. */
  function FinishedReads(m: Chip, st: Step): seq<Ticket> {
    if st.Completes? && m.phase == ReadData then OutRead(m) else []
  }

  function FinishedWrites(m: Chip, st: Step): seq<Ticket> {
    if st.Completes? && m.phase == Programming then OutWrite(m) else []
  }

  /** Reads leave the line at its head, when they are finished, and join it at its end, when they
      are made; nothing else changes it. */
  ghost predicate ReadsKept(m: Chip, st: Step, m': Chip) {
    FinishedReads(m, st) + ReadLine(m') == ReadLine(m) + MadeReads(m, st)
  }

  /** Write `k` is the first of the queue that does not wait. */
  predicate FirstToGo(m: Chip, k: nat) {
    k < |m.wQueue| && !m.wQueue[k].paired && forall i :: 0 <= i < k ==> m.wQueue[i].paired
  }

  ghost predicate WriteGoes(m: Chip, m': Chip, k: nat) {
    && FirstToGo(m, k) && OutWrite(m) == []
    && WriteLine(m') == Without(WriteLine(m), k) && OutWrite(m') == [WriteLine(m)[k]]
  }

  /** A write is sent when it is the first of the queue that does not wait, and then it is out;
      writes join the line at its end, when they are made; one that is out stays out until it is
      finished. */
  ghost predicate WritesKept(m: Chip, st: Step, m': Chip) {
    if SendsHostWrite(m', st) then exists k: nat :: WriteGoes(m, m', k)
    else
      && WriteLine(m') == WriteLine(m) + MadeWrites(st)
      && FinishedWrites(m, st) + OutWrite(m') == OutWrite(m)
  }

  ghost predicate Kept(m: Chip, st: Step, m': Chip) { ReadsKept(m, st, m') && WritesKept(m, st, m') }

  lemma TicketsOne(q: seq<Sub>, s: Sub, read: bool)
    ensures Tickets(q + [s], read) == Tickets(q, read) + [TicketOf(s, read)]
  {
    hide TicketOf;
  }

  lemma TicketsWithout(q: seq<Sub>, h: seq<Sub>, k: nat, read: bool)
    requires k < |q|
    ensures Tickets(Without(q, k) + h, read) == Without(Tickets(q + h, read), k)
    ensures Tickets(q + h, read)[k] == TicketOf(q[k], read)
  {
    hide TicketOf;
    var a, b := Tickets(Without(q, k) + h, read), Without(Tickets(q + h, read), k);
    assert |a| == |b|;
    forall i | 0 <= i < |a| ensures a[i] == b[i] {
      assert (Without(q, k) + h)[i] == (q + h)[if i < k then i else i + 1];
    }
  }

  lemma TicketsSame(q: seq<Sub>, q': seq<Sub>, read: bool)
    requires |q'| == |q| && forall i :: 0 <= i < |q| ==> TicketOf(q'[i], read) == TicketOf(q[i], read)
    ensures Tickets(q', read) == Tickets(q, read)
  {
    hide TicketOf;
  }

  // ---------------------------------------------------------------- dispatch

  /** Nothing is out before a dispatch but a read half way through. */
  lemma NothingOut(m: Chip)
    requires m.commands == [] && m.incompletedR == []
    ensures OutRead(m) == [] && OutWrite(m) == []
  {
  }

  /** A host sub-request that is taken and sent is out afterwards. */
  lemma TakenIsOut(cfg: Config, m: Chip, r: nat, junk: seq<PageBuf>)
    requires Shape(cfg, m) && r in m.cmds && m.cmds[r].op != Erase && m.cmds[r].related.None? && m.commands == [r]
    ensures m.cmds[r].load.OfSub?
    ensures var m' := Send(cfg, m, r, junk, true);
            if m.cmds[r].op == Write then OutWrite(m') == [TicketOf(m.cmds[r].load.sub, false)] && OutRead(m') == []
            else OutRead(m') == [TicketOf(m.cmds[r].load.sub, true)] && OutWrite(m') == []
  {
    hide Shape, Send, TicketOf;
    SendCarries(cfg, m, r, junk);
  }

  /** What a dispatch takes from the queues. */
  lemma Takes(cfg: Config, m: Chip, id: nat)
    requires Shape(cfg, m) && m.commands == []
    ensures var (m1, r) := TakeHost(cfg, m, id);
            if m.rQueue != [] then
              && r.Some? && m1.commands == [r.value] && r.value in m1.cmds && m1.cmds[r.value].op == Read
              && m1.cmds[r.value].related.None? && m1.cmds[r.value].load == OfSub(m.rQueue[0])
              && AllReads(m1) == Without(m.rQueue, 0) + m.rHand && AllWrites(m1) == AllWrites(m)
            else
              var k := FirstReady(m.wQueue);
              if k < |m.wQueue| then
                && r.Some? && m1.commands == [r.value] && r.value in m1.cmds && m1.cmds[r.value].op == Write
                && m1.cmds[r.value].related.None? && m1.cmds[r.value].load == OfSub(m.wQueue[k])
                && AllReads(m1) == AllReads(m) && AllWrites(m1) == Without(m.wQueue, k) + m.wHand
              else r.None? && m1 == m
  {
    hide Shape, FirstReady, Without;
    if m.rQueue != [] { WithoutHead(m.rQueue); }
  }

  lemma FreeKeeps(cfg: Config, m: Chip, st: Step)
    requires Roomy(cfg) && Free(cfg, m) && st.Dispatches?
    ensures Defined(cfg, m, st) && Kept(m, st, Next(cfg, m, st))
  {
    hide Inv, Roomy, Shape, TakeHost, Send, AnyPoised, Free, TicketOf, AllReads, AllWrites, OutRead, OutWrite,
         FirstReady, Without, Kept;
    FreeIs(cfg, m);
    FreeFacts(cfg, m);
    DispatchKeeps(cfg, m, st.id, st.scratch, st.junk);
    Takes(cfg, m, st.id);
    NothingOut(m);
    var (m1, r) := GetCommand(cfg, m, st.id, st.scratch);
    if r.Some? {
      TakenIsOut(cfg, m1, r.value, st.junk);
      SendLists(cfg, m1, r.value, st.junk);
    }
    TakenKept(m, st, Next(cfg, m, st));
  }

  lemma TakenKept(m: Chip, st: Step, m': Chip)
    requires st.Dispatches? && OutRead(m) == [] && OutWrite(m) == []
    requires var k := FirstReady(m.wQueue);
             if m.rQueue != [] then
               && AllReads(m') == Without(m.rQueue, 0) + m.rHand && OutRead(m') == [TicketOf(m.rQueue[0], true)]
               && AllWrites(m') == AllWrites(m) && OutWrite(m') == []
             else if k < |m.wQueue| then
               && AllReads(m') == AllReads(m) && OutRead(m') == []
               && AllWrites(m') == Without(m.wQueue, k) + m.wHand && OutWrite(m') == [TicketOf(m.wQueue[k], false)]
             else m' == m
    ensures Kept(m, st, m')
  {
    hide TicketOf, HostOut;
    var k := FirstReady(m.wQueue);
    if m.rQueue != [] {
      TicketsWithout(m.rQueue, m.rHand, 0, true);
    } else if k < |m.wQueue| {
      TicketsWithout(m.wQueue, m.wHand, k, false);
      assert WriteGoes(m, m', k);
    }
  }

  /** A step that leaves all lines alone. */
  lemma SameKept(m: Chip, st: Step, m': Chip)
    requires AllReads(m') == AllReads(m) && AllWrites(m') == AllWrites(m)
    requires OutRead(m') == OutRead(m) && OutWrite(m') == OutWrite(m)
    requires !st.Completes? && !st.HostReads? && !st.HostWrites? && !SendsHostWrite(m', st)
    ensures Kept(m, st, m')
  {
    hide Tickets, AllReads, AllWrites, OutRead, OutWrite, SendsHostWrite;
  }

  lemma VisitKeeps(cfg: Config, m: Chip, st: Step)
    requires Roomy(cfg) && Visiting(cfg, m) && st.Dispatches?
    ensures Defined(cfg, m, st) && Kept(m, st, Next(cfg, m, st))
  {
    hide Inv, Roomy, Shape, GetCommand, Send, AnyPoised, TicketOf, AllReads, AllWrites, HostOut, Kept, Visiting;
    VisitBare(cfg, m);
    DispatchKeeps(cfg, m, st.id, st.scratch, st.junk);
    VisitPoised(cfg, m, st.id, st.scratch);
    VisitLists(cfg, m, st.id, st.scratch);
    var (m1, r) := GetCommand(cfg, m, st.id, st.scratch);
    PoisedOut(cfg, m1, r.value);
    PoisedCarries(cfg, m1, r.value, st.junk);
    SendLists(cfg, m1, r.value, st.junk);
    NothingOut(m);
    SameKept(m, st, Next(cfg, m, st));
  }

  lemma VisitBare(cfg: Config, m: Chip)
    requires Visiting(cfg, m)
    ensures Inv(cfg, m) && MayDispatch(cfg, m) && m.erases != [] && m.commands == [] && m.incompletedR == []
  {
    hide Inv;
    IdleFacts(cfg, m);
  }

  lemma HalfKeeps(cfg: Config, m: Chip, st: Step)
    requires Inv(cfg, m) && m.phase == Idle && m.incompletedR != [] && st.Dispatches? && Defined(cfg, m, st)
    ensures Kept(m, st, Next(cfg, m, st))
  {
    hide Inv, Shape, Send, ForErase, TakeHost, TicketOf, AllReads, AllWrites, Kept;
    IdleFacts(cfg, m);
    HalfRead(cfg, m, m.incompletedR[0]);
    SendCarries(cfg, m, m.incompletedR[0], st.junk);
    SendLists(cfg, m, m.incompletedR[0], st.junk);
    SameKept(m, st, Next(cfg, m, st));
  }

  lemma DispatchOrder(cfg: Config, m: Chip, st: Step)
    requires Roomy(cfg) && Inv(cfg, m) && MayDispatch(cfg, m) && st.Dispatches?
    ensures Defined(cfg, m, st) && Kept(m, st, Next(cfg, m, st))
  {
    hide Inv, Roomy, Shape, Dispatch, Kept, GetCommand;
    DispatchKeeps(cfg, m, st.id, st.scratch, st.junk);
    if m.incompletedR != [] { HalfKeeps(cfg, m, st); }
    else if m.erases != [] { VisitKeeps(cfg, m, st); }
    else { FreeKeeps(cfg, m, st); }
  }

  // ---------------------------------------------------------------- the other steps

  /** A completion finishes what is out, unless that is the address half of a read. */
  lemma CompleteOrder(cfg: Config, m: Chip)
    requires Inv(cfg, m) && m.hw.signal && m.pending.None?
    ensures Defined(cfg, m, Completes) && Kept(m, Completes, Next(cfg, m, Completes))
  {
    hide Inv, Shape, Complete, TicketOf, HostOut, AllReads, AllWrites;
    CompleteKeeps(cfg, m);
    CompleteOut(cfg, m);
    if m.phase == ReadAddr { AddrOut(cfg, m); }
    if m.phase == Erasing { ErasingNone(cfg, m); }
    SignalMeansBusy(cfg, m);
    CompleteTickets(cfg, m);
  }

  lemma ErasingNone(cfg: Config, m: Chip)
    requires Inv(cfg, m) && m.phase == Erasing
    ensures HostOut(m).None?
  {
    hide Shape, Exact, MapForward, MapBackward, Stored, Writes, Reads, Looked, Hosts, Burnt, EraseQueue, Marked,
         Collecting, Room, InStep;
  }

  lemma CompleteTickets(cfg: Config, m: Chip)
    requires Defined(cfg, m, Completes)
    ensures Tickets(AllReads(Next(cfg, m, Completes)), true) == Tickets(AllReads(m), true)
    ensures Tickets(AllWrites(Next(cfg, m, Completes)), false) == Tickets(AllWrites(m), false)
  {
    hide Shape, EndProgram, EndReadAddr, EndReadData, EndErase;
    var m' := Complete(cfg, m);
    TicketsSame(AllReads(m), AllReads(m'), true);
    TicketsSame(AllWrites(m), AllWrites(m'), false);
  }

  lemma CheckOrder(cfg: Config, m: Chip, st: Step)
    requires Inv(cfg, m) && m.pending.Some? && Shape(cfg, m) && st.Checks?
    ensures Kept(m, st, GcCheck(cfg, m, st.id))
  {
    hide Inv, Shape, GcCheck, TicketOf, AllReads, AllWrites, HostOut;
    CheckOut(cfg, m, st.id);
    SameKept(m, st, GcCheck(cfg, m, st.id));
  }

  lemma SameOut(m: Chip, m': Chip)
    requires m'.commands == m.commands && m'.incompletedR == m.incompletedR && m'.cmds == m.cmds && m'.phase == m.phase
    ensures OutRead(m') == OutRead(m) && OutWrite(m') == OutWrite(m)
  {
    hide TicketOf;
  }

  /** A submission puts what it makes at the end of the lines. */
  lemma SubmitOrder(cfg: Config, m: Chip, st: Step)
    requires Defined(cfg, m, st) && (st.HostWrites? || st.HostReads?) && st.l in m.entries && st.l in m.store
    ensures Kept(m, st, Next(cfg, m, st))
  {
    hide Shape, HostData, Expected, Tickets, OutRead, OutWrite;
    var m' := Next(cfg, m, st);
    assert OutRead(m') == OutRead(m) && OutWrite(m') == OutWrite(m) by { SameOut(m, m'); }
    if |m'.rHand| > |m.rHand| {
      var s := m'.rHand[|m.rHand|];
      assert AllReads(m') == AllReads(m) + [s];
      TicketsOne(AllReads(m), s, true);
    }
    if |m'.wHand| > |m.wHand| {
      var s := m'.wHand[|m.wHand|];
      assert AllWrites(m') == AllWrites(m) + [s];
      TicketsOne(AllWrites(m), s, false);
    }
  }

  lemma QueueOrder(m: Chip, st: Step, m': Chip)
    requires (st.QueuesWrites? && m' == QueueWrites(m)) || (st.QueuesReads? && m' == QueueReads(m))
             || (st.TimerFires? && m' == Fire(m))
    ensures Kept(m, st, m')
  {
    hide TicketOf;
    assert AllReads(m') == AllReads(m) && AllWrites(m') == AllWrites(m);
    SameKept(m, st, m');
  }

  /** Every step keeps all sub-requests of the host, in their order, but for the one it finishes. */
  lemma StepKeepsAll(cfg: Config, m: Chip, st: Step)
    requires Roomy(cfg) && Inv(cfg, m) && Guard(cfg, m, st)
    ensures Defined(cfg, m, st)
    ensures ReadsKept(m, st, Next(cfg, m, st)) && WritesKept(m, st, Next(cfg, m, st))
  {
    hide Inv, Roomy, Shape, ReadsKept, WritesKept, Complete, Dispatch, GetCommand, MayWrite, MayRead;
    StepKeeps(cfg, m, st);
    if st.Dispatches? {
      DispatchOrder(cfg, m, st);
    } else if st.Completes? {
      CompleteOrder(cfg, m);
    } else if st.Checks? {
      CheckOrder(cfg, m, st);
    } else if st.HostWrites? || st.HostReads? {
      SubmitKeys(cfg, m, st);
      SubmitOrder(cfg, m, st);
    } else {
      QueueOrder(m, st, Next(cfg, m, st));
    }
  }

  // ---------------------------------------------------------------- checks and numbers

  /** A collection check is due after a host write has completed, for the plane it was written to,
      and at no other time. */
  lemma ChecksDue(cfg: Config, m: Chip, st: Step)
    requires Roomy(cfg) && Inv(cfg, m) && Guard(cfg, m, st)
    ensures Defined(cfg, m, st)
    ensures Next(cfg, m, st).pending
              == if Finished(m, st).Some? then Some(Finished(m, st).value.loc.at)
                 else if st.Checks? then None else m.pending
  {
    hide Inv, Roomy, Shape, Dispatch, MayWrite, MayRead, ReadFor, Victim, Complete, GcCheck;
    StepKeeps(cfg, m, st);
    if st.Completes? {
      CompleteDue(cfg, m);
    } else if st.Checks? {
      CheckClears(cfg, m, st.id);
    } else if st.Dispatches? {
      DispatchDue(cfg, m, st.id, st.scratch, st.junk);
    }
  }

  lemma CheckClears(cfg: Config, m: Chip, id: nat)
    requires Shape(cfg, m) && m.pending.Some?
    ensures GcCheck(cfg, m, id).pending.None?
  {
    hide Shape, Victim;
  }

  lemma DispatchDue(cfg: Config, m: Chip, id: nat, scratch: PageBuf, junk: seq<PageBuf>)
    requires Dispatch.requires(cfg, m, id, scratch, junk, true)
    ensures Dispatch(cfg, m, id, scratch, junk, true).pending == m.pending
  {
    hide Shape, GetCommand, Send;
  }

  lemma CompleteDue(cfg: Config, m: Chip)
    requires Inv(cfg, m) && m.hw.signal && m.pending.None? && Defined(cfg, m, Completes)
    ensures Complete(cfg, m).pending == if Finished(m, Completes).Some? then Some(HostOut(m).value.loc.at) else None
  {
    hide Inv, Shape, CommitPage, InvalidatePage, MergeAll, EraseBlock, Settled;
    if m.phase == Programming { ProgramFront(cfg, m); }
  }

  /** The write that is out is the one the completion finds. */
  lemma ProgramFront(cfg: Config, m: Chip)
    requires Inv(cfg, m) && m.phase == Programming
    ensures |m.commands| == 1 && m.commands[0] in m.cmds && m.cmds[m.commands[0]].load.OfSub?
  {
    hide PlaneExact, Exact, MapForward, MapBackward, Stored, Writes, Reads, Looked, Hosts, Burnt, EraseQueue, Marked,
         Collecting, Room, InStep, PlanesShape, EntriesShape, SubsShape;
    assert CommandShape(cfg, m.cmds[m.commands[0]]);
  }

  lemma HalfTaken(cfg: Config, m: Chip, id: nat, scratch: PageBuf)
    requires GetCommand.requires(cfg, m, id, scratch) && m.incompletedR != []
    ensures GetCommand(cfg, m, id, scratch).0 == m
  {
    hide Shape, ForErase, TakeHost;
  }

  lemma IdleVisits(cfg: Config, m: Chip)
    requires Inv(cfg, m) && MayDispatch(cfg, m) && m.phase == Idle && m.incompletedR == [] && m.erases != []
    ensures Visiting(cfg, m)
  {
    hide Inv;
  }

  lemma RereadNumber(cfg: Config, m: Chip, e: nat, k: nat, id: nat, scratch: PageBuf)
    requires Reread.requires(cfg, m, e, k, id, scratch) && e < m.nextRef && m.cmds[e].related != Some(e)
    ensures var m1 := Reread(cfg, m, e, k, id, scratch);
            m1.erases == m.erases
            && forall r :: r in m1.commands && r !in m.commands ==> r in m1.cmds && m1.cmds[r].id == id
  {
    hide Shape, VictimBlock;
  }

  lemma HostTakenNumber(cfg: Config, m: Chip, id: nat, scratch: PageBuf)
    requires GetCommand.requires(cfg, m, id, scratch) && m.incompletedR == [] && m.erases == [] && m.commands == []
    ensures var m1 := GetCommand(cfg, m, id, scratch).0;
            && m1.erases == m.erases
            && forall r :: r in m1.commands ==> r in m1.cmds && m1.cmds[r].id == id
  {
    hide Shape, FirstReady, TakeHost;
    HostNumber(cfg, m, id);
  }

  lemma HostNumber(cfg: Config, m: Chip, id: nat)
    requires Shape(cfg, m) && m.commands == []
    ensures var m1 := TakeHost(cfg, m, id).0;
            && m1.erases == m.erases
            && forall r :: r in m1.commands ==> r in m1.cmds && m1.cmds[r].id == id
  {
    hide Shape, FirstReady, Without, Enqueue;
    if m.rQueue != [] {
      EnqueuedNumber(m.(rQueue := m.rQueue[1..]), Read, m.rQueue[0], id);
    } else if FirstReady(m.wQueue) < |m.wQueue| {
      var k := FirstReady(m.wQueue);
      EnqueuedNumber(m.(wQueue := Without(m.wQueue, k)), Write, m.wQueue[k], id);
    }
  }

  lemma EnqueuedNumber(m: Chip, op: Op, s: Sub, id: nat)
    requires m.commands == []
    ensures var m1 := Enqueue(m, op, s, id);
            m1.erases == m.erases && m1.commands == [m.nextRef] && m.nextRef in m1.cmds && m1.cmds[m.nextRef].id == id
  {
  }

  /** Every command that is queued carries the number drawn for it. */
  lemma NumbersDrawn(cfg: Config, m: Chip, st: Step)
    requires Roomy(cfg) && Inv(cfg, m) && Guard(cfg, m, st) && (st.Dispatches? || st.Checks?)
    ensures Defined(cfg, m, st)
    ensures var m' := Next(cfg, m, st);
            forall r :: (r in m'.commands && r !in m.commands) || (r in m'.erases && r !in m.erases) ==>
              r in m'.cmds && m'.cmds[r].id == st.id
  {
    hide Inv, Roomy, Shape, Dispatch, Victim, GcCheck, GetCommand;
    StepKeeps(cfg, m, st);
    if st.Checks? {
      CheckNumber(cfg, m, st.id);
    } else {
      DispatchKeeps(cfg, m, st.id, st.scratch, st.junk);
      SentNumber(cfg, m, st.id, st.scratch, st.junk);
      TakenNumber(cfg, m, st.id, st.scratch);
    }
  }

  lemma CheckNumber(cfg: Config, m: Chip, id: nat)
    requires Shape(cfg, m) && m.pending.Some?
    ensures var m' := GcCheck(cfg, m, id);
            && m'.commands == m.commands
            && forall r :: r in m'.erases && r !in m.erases ==> r in m'.cmds && m'.cmds[r].id == id
  {
    hide Shape, Victim;
  }

  /** Sending changes no number and no queue. */
  lemma SentNumber(cfg: Config, m: Chip, id: nat, scratch: PageBuf, junk: seq<PageBuf>)
    requires Dispatch.requires(cfg, m, id, scratch, junk, true)
    ensures var m1, m' := GetCommand(cfg, m, id, scratch).0, Dispatch(cfg, m, id, scratch, junk, true);
            && m'.commands == m1.commands && m'.erases == m1.erases && m'.cmds.Keys == m1.cmds.Keys
            && forall r :: r in m1.cmds ==> m'.cmds[r].id == m1.cmds[r].id
  {
    hide Shape, GetCommand;
    var (m1, r) := GetCommand(cfg, m, id, scratch);
    if r.Some? { SendKeepsNumber(cfg, m1, r.value, junk); }
  }

  lemma SendKeepsNumber(cfg: Config, m: Chip, r: nat, junk: seq<PageBuf>)
    requires Shape(cfg, m) && r in m.cmds
    ensures var m' := Send(cfg, m, r, junk, true);
            && m'.commands == m.commands && m'.erases == m.erases && m'.cmds.Keys == m.cmds.Keys
            && forall q :: q in m.cmds ==> m'.cmds[q].id == m.cmds[q].id
  {
    hide Shape, AllocPage, Overlay, Transferred, Scrambled, Aged;
  }

  lemma TakenNumber(cfg: Config, m: Chip, id: nat, scratch: PageBuf)
    requires Roomy(cfg) && Inv(cfg, m) && MayDispatch(cfg, m) && GetCommand.requires(cfg, m, id, scratch)
    ensures var m1 := GetCommand(cfg, m, id, scratch).0;
            && m1.erases == m.erases
            && forall r :: r in m1.commands && r !in m.commands ==> r in m1.cmds && m1.cmds[r].id == id
  {
    hide Inv, Roomy, Shape, GetCommand, VictimBlock, NextUp, Spent;
    IdleFacts(cfg, m);
    if m.incompletedR != [] {
      HalfTaken(cfg, m, id, scratch);
    } else if m.erases != [] {
      IdleVisits(cfg, m);
      VisitFacts(cfg, m);
      var v := VisitCase(cfg, m, id, scratch);
      if v.Starts? { RereadNumber(cfg, m, m.erases[0], v.k, id, scratch); }
    } else {
      HostTakenNumber(cfg, m, id, scratch);
    }
  }

  // ---------------------------------------------------------------- runs

  /** The reads made, and those finished, up to state `n`, each in order. */
  function ReadsMade(states: seq<Chip>, steps: seq<Step>, n: nat): seq<Ticket>
    requires n < |states| == |steps| + 1
  {
    if n == 0 then [] else ReadsMade(states, steps, n - 1) + MadeReads(states[n - 1], steps[n - 1])
  }

  function ReadsDone(states: seq<Chip>, steps: seq<Step>, n: nat): seq<Ticket>
    requires n < |states| == |steps| + 1
  {
    if n == 0 then [] else ReadsDone(states, steps, n - 1) + FinishedReads(states[n - 1], steps[n - 1])
  }

  /** The writes made, and those finished, with how often. */
  function WritesMade(states: seq<Chip>, steps: seq<Step>, n: nat): multiset<Ticket>
    requires n < |states| == |steps| + 1
  {
    if n == 0 then multiset{} else WritesMade(states, steps, n - 1) + multiset(MadeWrites(steps[n - 1]))
  }

  function WritesDone(states: seq<Chip>, steps: seq<Step>, n: nat): multiset<Ticket>
    requires n < |states| == |steps| + 1
  {
    if n == 0 then multiset{}
    else WritesDone(states, steps, n - 1) + multiset(FinishedWrites(states[n - 1], steps[n - 1]))
  }

  /** Reads are finished in the order in which they were made: those finished, the one that is out,
      those queued and those in hand are, one behind the other, all that were ever made. */
  lemma {:induction false} ReadsInOrder(cfg: Config, states: seq<Chip>, steps: seq<Step>, n: nat)
    requires Roomy(cfg) && Run(cfg, states, steps) && n < |states|
    ensures |states| == |steps| + 1
    ensures ReadsDone(states, steps, n) + ReadLine(states[n]) == ReadsMade(states, steps, n)
  {
    hide Inv, Roomy, Next, Guard, Defined, MadeReads, FinishedReads, ReadLine;
    if n == 0 {
      NoneAtFirst(cfg, states[0]);
    } else {
      hide Init;
      ReadsInOrder(cfg, states, steps, n - 1);
      RunKeeps(cfg, states, steps, n - 1);
      StepKeepsAll(cfg, states[n - 1], steps[n - 1]);
      var a, b, c := ReadsDone(states, steps, n - 1), FinishedReads(states[n - 1], steps[n - 1]), ReadLine(states[n]);
      assert (a + b) + c == a + (b + c);
    }
  }

  lemma NoneAtFirst(cfg: Config, m: Chip)
    requires Init(cfg, m)
    ensures ReadLine(m) == [] && WriteLine(m) == [] && OutWrite(m) == []
  {
  }

  /** And so many writes as were made are finished, out, queued or in hand. */
  lemma {:induction false} WritesConserved(cfg: Config, states: seq<Chip>, steps: seq<Step>, n: nat)
    requires Roomy(cfg) && Run(cfg, states, steps) && n < |states|
    ensures |states| == |steps| + 1
    ensures WritesDone(states, steps, n) + multiset(OutWrite(states[n])) + multiset(WriteLine(states[n]))
              == WritesMade(states, steps, n)
  {
    hide Inv, Roomy, Next, Guard, Defined, MadeWrites, FinishedWrites, WriteLine, OutWrite, WritesKept;
    if n == 0 {
      NoneAtFirst(cfg, states[0]);
    } else {
      hide Init;
      WritesConserved(cfg, states, steps, n - 1);
      RunKeeps(cfg, states, steps, n - 1);
      StepKeepsAll(cfg, states[n - 1], steps[n - 1]);
      WritesCounted(states[n - 1], steps[n - 1], states[n]);
      Balance(WritesDone(states, steps, n - 1), multiset(OutWrite(states[n - 1])), multiset(WriteLine(states[n - 1])),
              multiset(FinishedWrites(states[n - 1], steps[n - 1])), multiset(OutWrite(states[n])),
              multiset(WriteLine(states[n])), multiset(MadeWrites(steps[n - 1])));
    }
  }

  lemma Balance(done: multiset<Ticket>, out: multiset<Ticket>, line: multiset<Ticket>, finished: multiset<Ticket>,
                out': multiset<Ticket>, line': multiset<Ticket>, made: multiset<Ticket>)
    requires finished + out' + line' == out + line + made
    ensures done + finished + out' + line' == done + out + line + made
  {
    assert done + finished + out' + line' == done + (finished + out' + line');
    assert done + out + line + made == done + (out + line + made);
  }

  lemma WritesCounted(m: Chip, st: Step, m': Chip)
    requires WritesKept(m, st, m')
    ensures multiset(FinishedWrites(m, st)) + multiset(OutWrite(m')) + multiset(WriteLine(m'))
              == multiset(OutWrite(m)) + multiset(WriteLine(m)) + multiset(MadeWrites(st))
  {
    hide WriteLine, OutWrite;
    if SendsHostWrite(m', st) {
      var k: nat :| WriteGoes(m, m', k);
      var q := WriteLine(m);
      LineHas(m, k);
      assert q == q[..k] + [q[k]] + q[k + 1..];
    } else {
      assert multiset(FinishedWrites(m, st) + OutWrite(m')) == multiset(OutWrite(m));
    }
  }

  lemma LineHas(m: Chip, k: nat)
    requires k < |m.wQueue|
    ensures k < |WriteLine(m)|
  {
  }
}
