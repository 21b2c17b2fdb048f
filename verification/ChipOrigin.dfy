/** Where sub-requests come from: whatever is queued or out was made earlier in the run, with
    the same page and the same data, and no step invents or alters one. */
module ChipOrigin {
  import opened Flash
  import opened Layout
  import opened Lists
  import opened Sectors
  import opened Chip
  import opened ChipInv
  import opened ChipHost
  import opened ChipWrite
  import opened ChipDispatch
  import opened ChipTake
  import opened ChipCommit
  import opened ChipFinish
  import opened ChipErase
  import opened ChipProgress
  import opened ChipSafety
  import opened ChipRuns
  import opened ChipTheorems

  /** What stays with a sub-request from the moment it is made. */
  datatype Ticket =
    | WriteTicket(lpn: nat, host: Data)
    | ReadTicket(lpn: nat, bits: set<nat>, loc: Loc, paired: bool, host: Data, stamp: nat)

  function TicketOf(s: Sub, read: bool): Ticket {
    if read then ReadTicket(s.lpn, s.bits, s.loc, s.paired, s.host, s.stamp) else WriteTicket(s.lpn, s.host)
  }

  ghost predicate Queued(q: seq<Sub>, read: bool, t: Ticket) {
    exists i :: 0 <= i < |q| && TicketOf(q[i], read) == t
  }

  /** A host sub-request with ticket `t` is made, queued or out. */
  ghost predicate Carries(m: Chip, t: Ticket) {
    || Queued(AllReads(m), true, t)
    || Queued(AllWrites(m), false, t)
    || (HostOut(m).Some? && TicketOf(HostOut(m).value, m.phase != Programming) == t)
  }

  /** A read of the sectors `bits` of page `l`, made now: it names the page the map names, with the
      age that page has, and expects what it holds of these sectors. */
  function ReadOf(m: Chip, l: nat, bits: set<nat>, paired: bool): Ticket
    requires l in m.entries && l in m.store
  {
    var loc := m.entries[l].loc;
    ReadTicket(l, bits, loc, paired, Expected(m.store[l], bits), if loc in m.ages then m.ages[loc] else 0)
  }

  /** What a submission makes. A host write makes a write of the host's sectors and, when it does
      not cover what is mapped, a companion read of the mapped sectors. A host read makes a read of
      the sectors the host asked for, and nothing else. */
  predicate Makes(m: Chip, st: Step, t: Ticket) {
    match st
    case HostWrites(l, bits, buf, _) =>
      && l in m.entries && l in m.store
      && (t == WriteTicket(l, HostData(bits, buf))
          || (!(m.entries[l].subPage <= bits)
               && t == ReadOf(m, l, m.entries[l].subPage, true)))
    case HostReads(l, bits, _) =>
      l in m.entries && l in m.store && t == ReadOf(m, l, bits, false)
    case _ => false
  }

  lemma SameTickets(q: seq<Sub>, q': seq<Sub>, read: bool, t: Ticket)
    requires |q'| == |q| && forall i :: 0 <= i < |q| ==> TicketOf(q'[i], read) == TicketOf(q[i], read)
    ensures Queued(q', read, t) == Queued(q, read, t)
  {
    if Queued(q, read, t) {
      var i :| 0 <= i < |q| && TicketOf(q[i], read) == t;
      assert TicketOf(q'[i], read) == t;
    }
  }

  lemma AppendQueued(q: seq<Sub>, s: Sub, read: bool, t: Ticket)
    ensures Queued(q + [s], read, t) ==> Queued(q, read, t) || TicketOf(s, read) == t
  {
    if Queued(q + [s], read, t) {
      var i :| 0 <= i < |q + [s]| && TicketOf((q + [s])[i], read) == t;
      if i < |q| { assert TicketOf(q[i], read) == t; }
    }
  }

  lemma WithoutQueued(q: seq<Sub>, h: seq<Sub>, k: nat, read: bool, t: Ticket)
    requires k < |q|
    ensures Queued(Without(q, k) + h, read, t) ==> Queued(q + h, read, t)
    ensures Queued(q + h, read, TicketOf(q[k], read))
  {
    if Queued(Without(q, k) + h, read, t) {
      var q' := Without(q, k) + h;
      var i :| 0 <= i < |q'| && TicketOf(q'[i], read) == t;
      assert q'[i] == (q + h)[if i < k then i else i + 1];
    }
    assert (q + h)[k] == q[k];
  }

  // ---------------------------------------------------------------- dispatch

  lemma TakeCarries(cfg: Config, m: Chip, id: nat, t: Ticket)
    requires Shape(cfg, m)
    ensures var (m1, r) := TakeHost(cfg, m, id);
            && (Queued(AllReads(m1), true, t) ==> Queued(AllReads(m), true, t))
            && (Queued(AllWrites(m1), false, t) ==> Queued(AllWrites(m), false, t))
            && (r.Some? ==>
                  && r.value in m1.cmds && m1.cmds[r.value].load.OfSub? && m1.cmds[r.value].op != Erase
                  && m1.cmds[r.value].related.None?
                  && (if m1.cmds[r.value].op == Read then
                       Queued(AllReads(m), true, TicketOf(m1.cmds[r.value].load.sub, true))
                      else Queued(AllWrites(m), false, TicketOf(m1.cmds[r.value].load.sub, false))))
  {
    hide Shape, Queued, Without, TicketOf;
    var k := FirstReady(m.wQueue);
    if m.rQueue != [] {
      assert Without(m.rQueue, 0) == m.rQueue[1..] by { WithoutHead(m.rQueue); }
      WithoutQueued(m.rQueue, m.rHand, 0, true, t);
    } else if k < |m.wQueue| {
      WithoutQueued(m.wQueue, m.wHand, k, false, t);
    }
  }

  lemma WithoutHead(q: seq<Sub>)
    requires q != []
    ensures Without(q, 0) == q[1..]
  {
  }

  /** Sending a command keeps its ticket. */
  lemma SendCarries(cfg: Config, m: Chip, r: nat, junk: seq<PageBuf>)
    requires Shape(cfg, m) && r in m.cmds && m.cmds[r].op != Erase
    ensures var m' := Send(cfg, m, r, junk, true);
            && m.cmds[r].load.OfSub? && r in m'.cmds && m'.cmds[r].load.OfSub?
            && m'.cmds[r].related == m.cmds[r].related
            && TicketOf(m'.cmds[r].load.sub, m.cmds[r].op == Read) == TicketOf(m.cmds[r].load.sub, m.cmds[r].op == Read)
            && m'.commands == m.commands && m'.incompletedR == m.incompletedR
            && (m'.phase == Programming <==> m.cmds[r].op == Write)
  {
    hide AllocPage, Transferred, Overlay, PlanesShape, EntriesShape, SubsShape, ListShape;
    assert CommandShape(cfg, m.cmds[r]);
  }

  lemma SendLists(cfg: Config, m: Chip, r: nat, junk: seq<PageBuf>)
    requires Shape(cfg, m) && r in m.cmds
    ensures var m' := Send(cfg, m, r, junk, true); AllReads(m') == AllReads(m) && AllWrites(m') == AllWrites(m)
  {
    hide Shape, SendWrite, SendRead, SendErase;
  }

  lemma PoisedOut(cfg: Config, m: Chip, r: nat)
    requires AnyPoised(cfg, m, r)
    ensures Shape(cfg, m) && r in m.cmds && m.incompletedR == []
    ensures if m.cmds[r].op == Erase then m.commands == [] else m.commands == [r]
    ensures m.erases != [] && m.cmds[r].op != Erase ==> m.cmds[r].related.Some?
  {
    hide PlaneExact, Exact, MapForward, MapBackward, Stored, Writes, Reads, EraseQueue, Marked, RoomAt, Moving,
         HostWriteOk, HostReadOk, Ample, Dead, EntriesShape, PlanesShape, SubsShape, Within;
  }

  lemma SendEraseOut(cfg: Config, m: Chip, r: nat, junk: seq<PageBuf>)
    requires Shape(cfg, m) && r in m.cmds && m.cmds[r].op == Erase && m.commands == [] && m.incompletedR == []
    ensures HostOut(Send(cfg, m, r, junk, true)).None?
  {
    hide Shape, Scrambled, Aged;
  }

  /** Once it is sent, the host command that is out has the ticket it was taken with. */
  lemma PoisedCarries(cfg: Config, m: Chip, r: nat, junk: seq<PageBuf>)
    requires AnyPoised(cfg, m, r)
    ensures Shape(cfg, m) && r in m.cmds
    ensures var m' := Send(cfg, m, r, junk, true);
            HostOut(m').Some? ==>
              && m.cmds[r].op != Erase && m.cmds[r].related.None? && m.cmds[r].load.OfSub?
              && m.cmds[r].op == (if m'.phase == Programming then Write else Read)
              && TicketOf(HostOut(m').value, m'.phase != Programming)
                   == TicketOf(m.cmds[r].load.sub, m.cmds[r].op == Read)
  {
    hide AnyPoised, Shape, Send, TicketOf;
    PoisedOut(cfg, m, r);
    if m.cmds[r].op == Erase {
      SendEraseOut(cfg, m, r, junk);
    } else {
      SendCarries(cfg, m, r, junk);
    }
  }

  lemma FreeIs(cfg: Config, m: Chip)
    requires Free(cfg, m)
    ensures Inv(cfg, m) && MayDispatch(cfg, m) && m.phase == Idle && m.incompletedR == [] && m.erases == []
  {
    hide Inv;
  }

  lemma FreeCarries(cfg: Config, m: Chip, id: nat, scratch: PageBuf, junk: seq<PageBuf>, t: Ticket)
    requires Roomy(cfg) && Free(cfg, m)
    ensures Defined(cfg, m, Dispatches(id, scratch, junk))
    ensures Carries(Next(cfg, m, Dispatches(id, scratch, junk)), t) ==> Carries(m, t)
  {
    hide Inv, Roomy, Shape, TakeHost, Send, AnyPoised, Queued, Free, TicketOf, AllReads, AllWrites, HostOut;
    FreeIs(cfg, m);
    FreeFacts(cfg, m);
    DispatchKeeps(cfg, m, id, scratch, junk);
    DispatchDefined(cfg, m, id, scratch);
    TakeCarries(cfg, m, id, t);
    var (m1, r) := GetCommand(cfg, m, id, scratch);
    if r.Some? {
      PoisedCarries(cfg, m1, r.value, junk);
      SendLists(cfg, m1, r.value, junk);
    }
  }

  lemma VisitCarries(cfg: Config, m: Chip, id: nat, scratch: PageBuf, junk: seq<PageBuf>, t: Ticket)
    requires Roomy(cfg) && Visiting(cfg, m)
    ensures Defined(cfg, m, Dispatches(id, scratch, junk))
    ensures Carries(Next(cfg, m, Dispatches(id, scratch, junk)), t) ==> Carries(m, t)
  {
    hide Inv, Roomy, Shape, GetCommand, Send, AnyPoised, Queued, TicketOf, AllReads, AllWrites, HostOut;
    DispatchKeeps(cfg, m, id, scratch, junk);
    VisitPoised(cfg, m, id, scratch);
    VisitLists(cfg, m, id, scratch);
    var (m1, r) := GetCommand(cfg, m, id, scratch);
    PoisedOut(cfg, m1, r.value);
    PoisedCarries(cfg, m1, r.value, junk);
    SendLists(cfg, m1, r.value, junk);
  }

  lemma VisitLists(cfg: Config, m: Chip, id: nat, scratch: PageBuf)
    requires Visiting(cfg, m)
    ensures Shape(cfg, m) && m.erases[0] in m.cmds && m.cmds[m.erases[0]].stage <= cfg.pages
    ensures var m1 := GetCommand(cfg, m, id, scratch).0;
            AllReads(m1) == AllReads(m) && AllWrites(m1) == AllWrites(m) && m1.erases == m.erases
  {
    hide Inv, Shape, Visiting, GetCommand, VictimBlock;
    var v := VisitCase(cfg, m, id, scratch);
  }

  lemma HalfCarries(cfg: Config, m: Chip, id: nat, scratch: PageBuf, junk: seq<PageBuf>, t: Ticket)
    requires Inv(cfg, m) && m.phase == Idle && m.incompletedR != [] && Defined(cfg, m, Dispatches(id, scratch, junk))
    ensures Carries(Next(cfg, m, Dispatches(id, scratch, junk)), t) ==> Carries(m, t)
  {
    hide Inv, Roomy, Shape, Send, ForErase, TakeHost, Queued, TicketOf, AllReads, AllWrites;
    IdleFacts(cfg, m);
    HalfRead(cfg, m, m.incompletedR[0]);
    SendCarries(cfg, m, m.incompletedR[0], junk);
    SendLists(cfg, m, m.incompletedR[0], junk);
  }

  lemma DispatchCarries(cfg: Config, m: Chip, id: nat, scratch: PageBuf, junk: seq<PageBuf>, t: Ticket)
    requires Roomy(cfg) && Inv(cfg, m) && MayDispatch(cfg, m)
    ensures Defined(cfg, m, Dispatches(id, scratch, junk))
    ensures Carries(Next(cfg, m, Dispatches(id, scratch, junk)), t) ==> Carries(m, t)
  {
    hide Inv, Roomy, Shape, Dispatch, Carries, GetCommand;
    DispatchKeeps(cfg, m, id, scratch, junk);
    if m.incompletedR != [] { HalfCarries(cfg, m, id, scratch, junk, t); }
    else if m.erases != [] { VisitCarries(cfg, m, id, scratch, junk, t); }
    else { FreeCarries(cfg, m, id, scratch, junk, t); }
  }

  // ---------------------------------------------------------------- completion and the rest

  lemma CompleteLists(cfg: Config, m: Chip, t: Ticket)
    requires Defined(cfg, m, Completes)
    ensures Queued(AllReads(Next(cfg, m, Completes)), true, t) == Queued(AllReads(m), true, t)
    ensures Queued(AllWrites(Next(cfg, m, Completes)), false, t) == Queued(AllWrites(m), false, t)
  {
    hide Shape, EndProgram, EndReadAddr, EndReadData, EndErase, Queued;
    var m' := Complete(cfg, m);
    SameTickets(AllReads(m), AllReads(m'), true, t);
    SameTickets(AllWrites(m), AllWrites(m'), false, t);
  }

  /** What is out after a completion: a read whose address half is over. */
  lemma CompleteOut(cfg: Config, m: Chip)
    requires Inv(cfg, m) && m.hw.signal && m.pending.None?
    ensures Defined(cfg, m, Completes)
    ensures var m' := Next(cfg, m, Completes);
            HostOut(m').Some? ==>
              HostOut(m).Some? && m.phase == ReadAddr && m'.phase == Idle && HostOut(m') == HostOut(m)
  {
    hide Inv, Shape, UpdateMap, MergeAll, EraseBlock, Complete;
    CompleteKeeps(cfg, m);
    if m.phase == Programming {
      LandedOut(cfg, m);
    } else if m.phase == ReadAddr {
      AddrOut(cfg, m);
    } else if m.phase == ReadData {
      DataOut(cfg, m);
    } else {
      ErasedOut(cfg, m);
    }
  }

  lemma LandedOut(cfg: Config, m: Chip)
    requires ProgramDone(cfg, m)
    ensures Defined(cfg, m, Completes) && HostOut(Next(cfg, m, Completes)).None?
  {
    hide Inv, Shape, MovedPlanes, Complete, StoreAfter, EndIndex, EndQueue;
    LandingDefined(cfg, m);
    NoHalfRead(cfg, m);
  }

  lemma NoHalfRead(cfg: Config, m: Chip)
    requires ProgramDone(cfg, m)
    ensures m.incompletedR == []
  {
    hide Shape, Exact, MapForward, MapBackward, Stored, Writes, Reads, Looked, Hosts, Burnt, EraseQueue, Marked,
         Collecting, Room, InStep;
  }

  lemma AddrOut(cfg: Config, m: Chip)
    requires AddrDone(cfg, m)
    ensures Defined(cfg, m, Completes)
    ensures HostOut(Next(cfg, m, Completes)) == HostOut(m) && Next(cfg, m, Completes).phase == Idle
  {
    hide Inv, Shape, EraseQueue, Marked;
    AddrFacts(cfg, m);
  }

  lemma DataOut(cfg: Config, m: Chip)
    requires Inv(cfg, m) && m.phase == ReadData && m.hw.signal && m.pending.None?
    ensures Defined(cfg, m, Completes) && HostOut(Next(cfg, m, Completes)).None?
  {
    hide Inv, Shape, EraseQueue, Marked, MergeAll, Writes, Reads, Looked;
    ReadDataFacts(cfg, m);
  }

  lemma ErasedOut(cfg: Config, m: Chip)
    requires EraseDone(cfg, m)
    ensures Defined(cfg, m, Completes) && HostOut(Next(cfg, m, Completes)).None?
  {
    hide Inv, Shape, PlaneExact, PlaneShape, Exact, Dead, RoomAt, EraseBlock;
    EraseFacts(cfg, m);
  }

  lemma CompleteCarries(cfg: Config, m: Chip, t: Ticket)
    requires Inv(cfg, m) && m.hw.signal && m.pending.None?
    ensures Defined(cfg, m, Completes)
    ensures Carries(Next(cfg, m, Completes), t) ==> Carries(m, t)
  {
    hide Inv, Shape, Complete, Queued, TicketOf, HostOut, AllReads, AllWrites;
    CompleteKeeps(cfg, m);
    CompleteOut(cfg, m);
    CompleteLists(cfg, m, t);
  }

  lemma CheckCarries(cfg: Config, m: Chip, id: nat, t: Ticket)
    requires Inv(cfg, m) && m.pending.Some? && Shape(cfg, m)
    ensures Carries(GcCheck(cfg, m, id), t) ==> Carries(m, t)
  {
    hide Inv, Shape, GcCheck, Queued, TicketOf, AllReads, AllWrites, HostOut;
    CheckOut(cfg, m, id);
  }

  /** A collection check leaves the host's sub-requests alone. */
  lemma CheckOut(cfg: Config, m: Chip, id: nat)
    requires Inv(cfg, m) && m.pending.Some? && Shape(cfg, m)
    ensures var m' := GcCheck(cfg, m, id);
            && AllReads(m') == AllReads(m) && AllWrites(m') == AllWrites(m)
            && HostOut(m') == HostOut(m) && m'.phase == m.phase
  {
    hide Inv, Shape, GcCheck;
    InvTable(cfg, m);
    CurrentInTable(cfg, m);
  }

  lemma CurrentInTable(cfg: Config, m: Chip)
    requires Inv(cfg, m)
    ensures Current(m).Some? ==> Current(m).value in m.cmds
  {
    hide PlaneExact, Exact, MapForward, MapBackward, Stored, Writes, Reads, Marked, Room, EraseQueue, PlanesShape,
         EntriesShape, SubsShape, Hosts, Burnt, InStep, Collecting;
  }

  lemma SubmitCarries(cfg: Config, m: Chip, st: Step, t: Ticket)
    requires Defined(cfg, m, st) && (st.HostWrites? || st.HostReads?) && st.l in m.entries && st.l in m.store
    ensures Carries(Next(cfg, m, st), t) ==> Carries(m, t) || Makes(m, st, t)
  {
    hide Shape, HostData, Queued, Expected;
    var m' := Next(cfg, m, st);
    if |m'.rHand| > |m.rHand| {
      assert AllReads(m') == AllReads(m) + [m'.rHand[|m.rHand|]];
      AppendQueued(AllReads(m), m'.rHand[|m.rHand|], true, t);
    }
    if |m'.wHand| > |m.wHand| {
      assert AllWrites(m') == AllWrites(m) + [m'.wHand[|m.wHand|]];
      AppendQueued(AllWrites(m), m'.wHand[|m.wHand|], false, t);
    }
  }

  lemma QueueCarries(m: Chip, m': Chip, t: Ticket)
    requires m' == QueueWrites(m) || m' == QueueReads(m) || m' == Fire(m)
    ensures Carries(m', t) ==> Carries(m, t)
  {
    hide Queued;
    assert AllReads(m') == AllReads(m) && AllWrites(m') == AllWrites(m);
  }

  lemma SubmitKeys(cfg: Config, m: Chip, st: Step)
    requires Inv(cfg, m) && Guard(cfg, m, st) && (st.HostWrites? || st.HostReads?)
    ensures st.l in m.entries && st.l in m.store
  {
    hide Exact, MapForward, MapBackward, Stored, Writes, Reads, Marked, Room, EraseQueue, PlanesShape,
         SubsShape, Hosts, Burnt, InStep, Collecting, Within;
  }

  /** No step invents or alters a host sub-request. */
  lemma StepCarries(cfg: Config, m: Chip, st: Step, t: Ticket)
    requires Roomy(cfg) && Inv(cfg, m) && Guard(cfg, m, st)
    ensures Defined(cfg, m, st)
    ensures Carries(Next(cfg, m, st), t) ==> Carries(m, t) || Makes(m, st, t)
  {
    hide Inv, Roomy, Shape, Carries, Makes, Complete, Dispatch, GetCommand, MayWrite, MayRead, ReadFor;
    StepKeeps(cfg, m, st);
    if st.Dispatches? {
      DispatchCarries(cfg, m, st.id, st.scratch, st.junk, t);
    } else if st.Completes? {
      CompleteCarries(cfg, m, t);
    } else if st.Checks? {
      CheckCarries(cfg, m, st.id, t);
    } else if st.HostWrites? || st.HostReads? {
      SubmitKeys(cfg, m, st);
      SubmitCarries(cfg, m, st, t);
    } else {
      QueueCarries(m, Next(cfg, m, st), t);
    }
  }

  /** Every host sub-request in the chip was made, just as it is, earlier in the run. */
  lemma {:induction false} WasMade(cfg: Config, states: seq<Chip>, steps: seq<Step>, n: nat, t: Ticket)
    requires Roomy(cfg) && Run(cfg, states, steps) && n < |states| && Carries(states[n], t)
    ensures exists k :: 0 <= k < n && Makes(states[k], steps[k], t)
  {
    hide Inv, Roomy, Next, Makes, Guard, Defined;
    if n > 0 {
      hide Init, Carries;
      RunKeeps(cfg, states, steps, n - 1);
      StepCarries(cfg, states[n - 1], steps[n - 1], t);
      if Carries(states[n - 1], t) {
        WasMade(cfg, states, steps, n - 1, t);
      }
    }
  }

  /** So the sectors that a completing write puts into the store are the ones some earlier
      submission handed over for that page. */
  lemma FinishedWasSubmitted(cfg: Config, states: seq<Chip>, steps: seq<Step>, n: nat)
    requires Roomy(cfg) && Run(cfg, states, steps) && n < |steps| && Finished(states[n], steps[n]).Some?
    ensures var w := Finished(states[n], steps[n]).value;
            exists k :: 0 <= k < n && steps[k].HostWrites? && steps[k].l == w.lpn
              && HostData(steps[k].bits, steps[k].buf) == w.host
  {
    hide Inv, Roomy, Next, Guard, Defined, Init;
    var w := Finished(states[n], steps[n]).value;
    var t := TicketOf(w, false);
    assert Carries(states[n], t);
    WasMade(cfg, states, steps, n, t);
    var k :| 0 <= k < n && Makes(states[k], steps[k], t);
    assert steps[k].HostWrites?;
  }
}
