/** Runs in which no host write is sent between the making and the queueing of a read, and erases
    leave the bytes alone: then every read brings what it should, and the device is a plain store. */
module ChipPrompt {
  import opened Flash
  import opened Lists
  import opened Sectors
  import opened Chip
  import opened ChipInv
  import opened ChipTake
  import opened ChipFinish
  import opened ChipHost
  import opened ChipRuns
  import opened ChipSafety
  import opened ChipTheorems
  import opened ChipOrigin
  import opened ChipPlain
  import opened ChipEarly

  /** From `i` to `j` no host write is sent while reads are made but not queued, and erases leave
      the bytes alone. Whatever else goes on. */
  ghost predicate Prompt(states: seq<Chip>, steps: seq<Step>, i: nat, j: nat)
    requires i <= j < |states| == |steps| + 1
  {
    && Gentle(steps, i, j)
    && forall k :: i <= k < j && states[k].rHand != [] ==> !SendsHostWrite(states[k + 1], steps[k])
  }

  /** No host read is made, queued or out. */
  predicate NoRead(m: Chip) {
    m.rQueue == [] && m.rHand == [] && (HostOut(m).Some? ==> m.phase == Programming)
  }

  // ---------------------------------------------------------------- reads

  lemma QueuedSome(q: seq<Sub>, read: bool, t: Ticket)
    requires Queued(q, read, t)
    ensures q != []
  {
  }

  lemma NoReadCarries(m: Chip, t: Ticket)
    requires NoRead(m) && t.ReadTicket?
    ensures !Carries(m, t)
  {
  }

  lemma InitNoRead(cfg: Config, m: Chip)
    requires Init(cfg, m)
    ensures NoRead(m) && WholeWrites(m)
  {
  }

  /** Every host read brings what its page held when it was made, every sector of it that was
      mapped and is not lost. */
  lemma PromptReads(cfg: Config, states: seq<Chip>, steps: seq<Step>, i: nat, n: nat) returns (k: nat)
    requires Roomy(cfg) && Run(cfg, states, steps) && i <= n < |states| && NoRead(states[i])
    requires Prompt(states, steps, i, n) && states[n].phase == ReadData && HostOut(states[n]).Some?
    ensures i <= k < n && Makes(states[k], steps[k], TicketOf(HostOut(states[n]).value, true))
    ensures var s := HostOut(states[n]).value;
            && s.whole && s.lpn in states[k].store && s.host == Expected(states[k].store[s.lpn], s.bits)
            && Holds(s.buf, s.bits, s.host)
  {
    hide Inv, Roomy, Next, Init, Guard, Defined, Run, Expected, Holds, Makes, Carries, SendsHostWrite, Queued;
    k := QueuedReadDelivers(cfg, states, steps, n);
    var t := TicketOf(HostOut(states[n]).value, true);
    if k < i { NoReadCarries(states[i], t); }
    forall j | k < j < n && Queued(states[j].rHand, true, t) ensures states[j].rHand != [] {
      QueuedSome(states[j].rHand, true, t);
    }
  }

  // ---------------------------------------------------------------- writes

  /** No write that is made, queued or out has lost old sectors. */
  ghost predicate WholeWrites(m: Chip) {
    && (forall i :: 0 <= i < |AllWrites(m)| ==> AllWrites(m)[i].whole)
    && (m.phase == Programming && HostOut(m).Some? ==> HostOut(m).value.whole)
  }

  lemma TakeWhole(cfg: Config, m: Chip, id: nat)
    requires Shape(cfg, m) && forall i :: 0 <= i < |AllWrites(m)| ==> AllWrites(m)[i].whole
    ensures var (m1, r) := TakeHost(cfg, m, id);
            && (forall i :: 0 <= i < |AllWrites(m1)| ==> AllWrites(m1)[i].whole)
            && (r.Some? && r.value in m1.cmds && m1.cmds[r.value].op == Write && m1.cmds[r.value].load.OfSub? ==>
                  m1.cmds[r.value].load.sub.whole)
  {
    hide Shape;
    var k := FirstReady(m.wQueue);
    if m.rQueue == [] && k < |m.wQueue| {
      assert AllWrites(m)[k] == m.wQueue[k];
      var q := Without(m.wQueue, k) + m.wHand;
      assert forall i :: 0 <= i < |q| ==> q[i] == AllWrites(m)[if i < k then i else i + 1];
    } else {
      assert AllWrites(TakeHost(cfg, m, id).0) == AllWrites(m);
    }
  }

  lemma SendWhole(cfg: Config, m: Chip, r: nat)
    requires Shape(cfg, m) && r in m.cmds && m.cmds[r].op == Write
    ensures var m' := Send(cfg, m, r, [], true);
            && m.cmds[r].load.OfSub? && r in m'.cmds && m'.cmds[r].load.OfSub?
            && m'.cmds[r].load.sub.whole == m.cmds[r].load.sub.whole
  {
    hide AllocPage, Transferred, Overlay, PlanesShape, EntriesShape, SubsShape, ListShape;
    assert CommandShape(cfg, m.cmds[r]);
  }

  lemma DispatchWhole(cfg: Config, m: Chip, id: nat, scratch: PageBuf)
    requires Roomy(cfg) && Inv(cfg, m) && MayDispatch(cfg, m) && WholeWrites(m)
    ensures Defined(cfg, m, Dispatches(id, scratch, []))
    ensures WholeWrites(Next(cfg, m, Dispatches(id, scratch, [])))
  {
    hide Inv, Roomy, Shape, Send, AnyPoised, ForErase, TakeHost, AllWrites;
    DispatchKeeps(cfg, m, id, scratch, []);
    DispatchDefined(cfg, m, id, scratch);
    IdleFacts(cfg, m);
    var (m1, r) := GetCommand(cfg, m, id, scratch);
    if r.Some? {
      SendLists(cfg, m1, r.value, []);
      if m.incompletedR != [] {
        HalfRead(cfg, m, r.value);
        SendCarries(cfg, m, r.value, []);
      } else if m.erases != [] {
        VisitWhole(cfg, m, id, scratch);
        PoisedSends(cfg, m1, r.value);
      } else {
        TakeWhole(cfg, m, id);
        TakenWhole(cfg, m1, r.value);
      }
    }
  }

  lemma VisitWhole(cfg: Config, m: Chip, id: nat, scratch: PageBuf)
    requires Inv(cfg, m) && MayDispatch(cfg, m) && m.incompletedR == [] && m.erases != []
    ensures Shape(cfg, m) && m.erases[0] in m.cmds && m.cmds[m.erases[0]].stage <= cfg.pages
    ensures var m1 := GetCommand(cfg, m, id, scratch).0; AllWrites(m1) == AllWrites(m) && m1.erases == m.erases
  {
    hide Inv;
    VisitLists(cfg, m, id, scratch);
  }

  lemma TakenWhole(cfg: Config, m: Chip, r: nat)
    requires AnyPoised(cfg, m, r)
    requires r in m.cmds && m.cmds[r].op == Write && m.cmds[r].load.OfSub? ==> m.cmds[r].load.sub.whole
    ensures Shape(cfg, m) && r in m.cmds
    ensures var m' := Send(cfg, m, r, [], true);
            m'.phase == Programming && HostOut(m').Some? ==> HostOut(m').value.whole
  {
    hide Shape, AnyPoised, Send;
    PoisedOut(cfg, m, r);
    if m.cmds[r].op == Erase {
      SendEraseOut(cfg, m, r, []);
    } else {
      SendCarries(cfg, m, r, []);
      if m.cmds[r].op == Write { SendWhole(cfg, m, r); }
    }
  }

  lemma MergedWhole(q: seq<Sub>, s: Sub)
    requires s.whole && forall i :: 0 <= i < |q| ==> q[i].whole
    ensures forall i :: 0 <= i < |MergeAll(q, s)| ==> MergeAll(q, s)[i].whole
  {
  }

  lemma CompleteWhole(cfg: Config, m: Chip)
    requires Inv(cfg, m) && Guard(cfg, m, Completes) && WholeWrites(m)
    requires m.phase == ReadData && HostOut(m).Some? ==> HostOut(m).value.whole
    ensures Defined(cfg, m, Completes) && WholeWrites(Next(cfg, m, Completes))
  {
    hide Inv, Shape, Complete, HostOut, AllWrites;
    CompleteKeeps(cfg, m);
    CompleteOut(cfg, m);
    CompleteMerges(cfg, m);
  }

  lemma CompleteMerges(cfg: Config, m: Chip)
    requires Inv(cfg, m) && Guard(cfg, m, Completes) && forall i :: 0 <= i < |AllWrites(m)| ==> AllWrites(m)[i].whole
    requires m.phase == ReadData && HostOut(m).Some? ==> HostOut(m).value.whole
    ensures Defined(cfg, m, Completes)
    ensures var m' := Next(cfg, m, Completes); forall i :: 0 <= i < |AllWrites(m')| ==> AllWrites(m')[i].whole
  {
    hide Inv, Shape, Complete, AllWrites, HostOut;
    CompleteKeeps(cfg, m);
    if m.phase == ReadData {
      DataMerges(cfg, m);
    } else {
      OthersMergeNothing(cfg, m);
    }
  }

  lemma OthersMergeNothing(cfg: Config, m: Chip)
    requires Defined(cfg, m, Completes) && m.phase != ReadData
    ensures AllWrites(Next(cfg, m, Completes)) == AllWrites(m)
  {
    hide Shape, EndProgram, EndReadAddr, EndReadData, EndErase;
  }

  lemma DataMerges(cfg: Config, m: Chip)
    requires Inv(cfg, m) && Guard(cfg, m, Completes) && forall i :: 0 <= i < |AllWrites(m)| ==> AllWrites(m)[i].whole
    requires m.phase == ReadData && (HostOut(m).Some? ==> HostOut(m).value.whole)
    ensures Defined(cfg, m, Completes)
    ensures var m' := Next(cfg, m, Completes); forall i :: 0 <= i < |AllWrites(m')| ==> AllWrites(m')[i].whole
  {
    hide Inv, Shape, MergeAll, Writes, Reads, Looked, EraseQueue, Marked, HostReadOk;
    CompleteKeeps(cfg, m);
    ReadDataFacts(cfg, m);
    var s := SubOf(m, m.incompletedR[0]);
    if m.cmds[m.incompletedR[0]].related.None? {
      assert HostOut(m) == Some(s);
      MergedBoth(m.wQueue, m.wHand, s);
      MergedWhole(AllWrites(m), s);
    }
  }

  lemma WholeStep(cfg: Config, m: Chip, st: Step)
    requires Roomy(cfg) && Inv(cfg, m) && Guard(cfg, m, st) && WholeWrites(m) && (st.Dispatches? ==> st.junk == [])
    requires m.phase == ReadData && HostOut(m).Some? ==> HostOut(m).value.whole
    ensures Defined(cfg, m, st) && WholeWrites(Next(cfg, m, st))
  {
    hide Inv, Roomy, Shape, Complete, Dispatch, Victim, MayWrite, MayRead, ReadFor, HostData;
    StepKeeps(cfg, m, st);
    if st.Dispatches? {
      DispatchWhole(cfg, m, st.id, st.scratch);
    } else if st.Completes? {
      CompleteWhole(cfg, m);
    } else if st.Checks? {
      CheckWhole(cfg, m, st.id);
    } else {
      ListingWhole(cfg, m, st);
    }
  }

  lemma CheckWhole(cfg: Config, m: Chip, id: nat)
    requires Inv(cfg, m) && m.pending.Some? && Shape(cfg, m) && WholeWrites(m)
    ensures WholeWrites(GcCheck(cfg, m, id))
  {
    hide Inv, Shape, GcCheck, AllWrites, HostOut;
    CheckOut(cfg, m, id);
  }

  /** Making and queueing bring no write that has lost anything. */
  lemma ListingWhole(cfg: Config, m: Chip, st: Step)
    requires Defined(cfg, m, st) && !st.Dispatches? && !st.Completes? && !st.Checks? && WholeWrites(m)
    ensures WholeWrites(Next(cfg, m, st))
  {
    hide Shape, ReadFor, HostData;
    var m' := Next(cfg, m, st);
    if st.HostWrites? {
      assert AllWrites(m') == AllWrites(m) + [m'.wHand[|m.wHand|]];
    } else {
      assert AllWrites(m') == AllWrites(m);
    }
  }

  /** No write goes out with old sectors missing. */
  lemma {:induction false} RunWhole(cfg: Config, states: seq<Chip>, steps: seq<Step>, i: nat, n: nat)
    requires Roomy(cfg) && Run(cfg, states, steps) && i <= n < |states| && NoRead(states[i]) && WholeWrites(states[i])
    requires Prompt(states, steps, i, n)
    ensures WholeWrites(states[n])
  {
    hide Inv, Roomy, Next, Guard, Defined, Init, WholeWrites, NoRead, SendsHostWrite;
    if i < n {
      RunWhole(cfg, states, steps, i, n - 1);
      RunKeeps(cfg, states, steps, n - 1);
      if states[n - 1].phase == ReadData && HostOut(states[n - 1]).Some? {
        var k := PromptReads(cfg, states, steps, i, n - 1);
      }
      WholeStep(cfg, states[n - 1], steps[n - 1]);
    }
  }

  // ---------------------------------------------------------------- a plain store

  /** What is mapped of a page and each write of it form one run of sectors. */
  ghost predicate Solid(states: seq<Chip>, steps: seq<Step>, n: nat)
    requires n <= |steps| && |states| == |steps| + 1
  {
    forall k :: 0 <= k < n && Finished(states[k], steps[k]).Some? ==> OneRun(Finished(states[k], steps[k]).value.bits)
  }

  /** Reads, partial writes, relocations, erases: as long as no page has a hole, the device gives
      back exactly the sectors written so far, each with the bytes last written. */
  lemma PromptIsPlain(cfg: Config, states: seq<Chip>, steps: seq<Step>, n: nat)
    requires Roomy(cfg) && Run(cfg, states, steps) && n < |states|
    requires Prompt(states, steps, 0, n) && Solid(states, steps, n)
    ensures Readable(states[n]) && Content(states[n]).Keys == PlainOf(states, steps, n).Keys
    ensures forall l :: l in Content(states[n]) ==>
              && Content(states[n])[l].Keys == PlainOf(states, steps, n)[l].Keys
              && forall i :: i in Content(states[n])[l] ==>
                   PlainOf(states, steps, n)[l][i] == Some(Content(states[n])[l][i])
  {
    hide Inv, Roomy, Init, Next, Guard, Defined, Content, Readable, PlainOf, OneRun, SendsHostWrite, NoRead;
    InitNoRead(cfg, states[0]);
    forall k | 0 <= k < n && Finished(states[k], steps[k]).Some?
      ensures Clean(Finished(states[k], steps[k]).value)
    {
      RunWhole(cfg, states, steps, 0, k);
    }
    RunIsPlain(cfg, states, steps, n);
  }
}
