/** What a caller can do to lose nothing. When every write of a request that is made on a chip
    while a read is in hand waits for such a read itself, no host write can be sent in between,
    and every read brings what it should. A request inside one page is always of this kind, and
    so is one that covers nothing of what is mapped on the chip, once the request before is over. */
module ChipRequests {
  import opened Flash
  import opened Sectors
  import opened Chip
  import opened ChipInv
  import opened ChipTake
  import opened ChipFinish
  import opened ChipHost
  import opened ChipRuns
  import opened ChipSafety
  import opened ChipTheorems
  import opened ChipOrigin
  import opened ChipPlain
  import opened ChipWaiting
  import opened ChipEarly
  import opened ChipPrompt

  /** Every write that is made or queued waits for a read that is still in hand. */
  ghost predicate AwaitHand(m: Chip) {
    forall i :: 0 <= i < |AllWrites(m)| ==> AllWrites(m)[i].paired && InList(m.rHand, AllWrites(m)[i].lpn)
  }

  /** What the caller sees to when it makes a sub-request: next to a read in hand there are only
      writes that wait for one. */
  ghost predicate InTime(m: Chip, st: Step) {
    match st
    case HostWrites(l, bits, _, _) =>
      l in m.entries && if m.entries[l].subPage <= bits then m.rHand == [] else AwaitHand(m)
    case HostReads(_, _, _) => AwaitHand(m)
    case _ => true
  }

  ghost predicate HandWaits(m: Chip) {
    m.rHand != [] ==> AwaitHand(m)
  }

  // ---------------------------------------------------------------- one step

  lemma DispatchHand(cfg: Config, m: Chip, id: nat, scratch: PageBuf)
    requires Defined(cfg, m, Dispatches(id, scratch, []))
    ensures Next(cfg, m, Dispatches(id, scratch, [])).rHand == m.rHand
  {
    hide Shape, Send, GetCommand;
  }

  lemma {:induction false} NoneReady(q: seq<Sub>)
    requires forall i :: 0 <= i < |q| ==> q[i].paired
    ensures FirstReady(q) == |q|
  {
    if q != [] { NoneReady(q[1..]); }
  }

  lemma NoneReadyHere(m: Chip)
    requires AwaitHand(m)
    ensures FirstReady(m.wQueue) == |m.wQueue|
  {
    hide InList;
    assert forall i :: 0 <= i < |m.wQueue| ==> m.wQueue[i] == AllWrites(m)[i];
    NoneReady(m.wQueue);
  }

  /** With only such writes about, the dispatch sends none of them. */
  lemma HandDispatch(cfg: Config, m: Chip, id: nat, scratch: PageBuf)
    requires Roomy(cfg) && Inv(cfg, m) && MayDispatch(cfg, m) && AwaitHand(m)
    ensures Defined(cfg, m, Dispatches(id, scratch, []))
    ensures var m' := Next(cfg, m, Dispatches(id, scratch, []));
            AllWrites(m') == AllWrites(m) && !SendsHostWrite(m', Dispatches(id, scratch, []))
  {
    hide Inv, Roomy, Shape, Send, AnyPoised, ForErase, InList;
    DispatchKeeps(cfg, m, id, scratch, []);
    DispatchDefined(cfg, m, id, scratch);
    IdleFacts(cfg, m);
    NoneReadyHere(m);
    if m.rQueue != [] {
      WaitingDispatch(cfg, m, id, scratch);
    }
    var (m1, r) := GetCommand(cfg, m, id, scratch);
    if r.Some? {
      SendLists(cfg, m1, r.value, []);
      if m.incompletedR != [] {
        HalfRead(cfg, m, r.value);
        SendCarries(cfg, m1, r.value, []);
      } else if m.erases != [] {
        VisitWhole(cfg, m, id, scratch);
        PoisedSends(cfg, m1, r.value);
      }
    }
  }

  /** A completing read merges only into the write that waits for it, and that is none of those
      that wait for a read in hand. */
  lemma HandComplete(cfg: Config, m: Chip)
    requires Inv(cfg, m) && Guard(cfg, m, Completes) && AwaitHand(m)
    ensures Defined(cfg, m, Completes)
    ensures Next(cfg, m, Completes).rHand == m.rHand && AwaitHand(Next(cfg, m, Completes))
  {
    hide Inv, Shape, Complete, InList, HostOut, AllWrites;
    CompleteKeeps(cfg, m);
    if m.phase == ReadData {
      HandData(cfg, m);
    } else {
      SameAfter(cfg, m);
      SameHand(cfg, m);
    }
  }

  lemma SameHand(cfg: Config, m: Chip)
    requires Defined(cfg, m, Completes)
    ensures Next(cfg, m, Completes).rHand == m.rHand
  {
    hide Shape, EndProgram, EndReadAddr, EndReadData, EndErase;
  }

  lemma HandData(cfg: Config, m: Chip)
    requires Inv(cfg, m) && Guard(cfg, m, Completes) && m.phase == ReadData && AwaitHand(m)
    ensures Defined(cfg, m, Completes)
    ensures Next(cfg, m, Completes).rHand == m.rHand && AwaitHand(Next(cfg, m, Completes))
  {
    hide Inv, Shape, MergeAll, Writes, Reads, Looked, EraseQueue, Marked, InList, ReadOk, Holds;
    CompleteKeeps(cfg, m);
    ReadDataFacts(cfg, m);
    var s := SubOf(m, m.incompletedR[0]);
    var m' := Next(cfg, m, Completes);
    MergedBoth(m.wQueue, m.wHand, s);
    if m.cmds[m.incompletedR[0]].related.None? && s.paired {
      forall i | 0 <= i < |AllWrites(m)| ensures AllWrites(m')[i] == AllWrites(m)[i] {
        OtherPage(m.rQueue, m.rHand, s.lpn, AllWrites(m)[i].lpn);
      }
    } else {
      assert AllWrites(m') == AllWrites(m);
    }
  }

  lemma OtherPage(q: seq<Sub>, h: seq<Sub>, l: nat, l': nat)
    requires InList(h, l') && forall i :: 0 <= i < |q + h| && (q + h)[i].paired ==> (q + h)[i].lpn != l
    ensures l' != l
  {
    var j :| 0 <= j < |h| && h[j].paired && h[j].lpn == l';
    assert (q + h)[|q| + j] == h[j];
  }

  lemma HandSubmit(cfg: Config, m: Chip, st: Step)
    requires Defined(cfg, m, st) && (st.HostWrites? || st.HostReads?) && AwaitHand(m)
    requires st.HostWrites? ==> !(m.entries[st.l].subPage <= st.bits)
    ensures AwaitHand(Next(cfg, m, st))
  {
    hide Shape, HostData, InList, Expected;
    var m' := Next(cfg, m, st);
    var s := m'.rHand[|m.rHand|];
    assert m'.rHand == m.rHand + [s];
    forall l ensures (InList(m.rHand, l) ==> InList(m'.rHand, l)) && (s.paired ==> InList(m'.rHand, s.lpn)) {
      MoreListed(m.rHand, s, l);
    }
    if st.HostWrites? {
      assert AllWrites(m') == AllWrites(m) + [m'.wHand[|m.wHand|]];
    } else {
      assert AllWrites(m') == AllWrites(m);
    }
  }

  lemma CheckHand(cfg: Config, m: Chip, id: nat)
    requires Shape(cfg, m) && m.pending.Some?
    ensures GcCheck(cfg, m, id).rHand == m.rHand && AllWrites(GcCheck(cfg, m, id)) == AllWrites(m)
  {
    hide Shape, Victim;
  }

  lemma SameAwait(m: Chip, m': Chip)
    requires AwaitHand(m) && m'.rHand == m.rHand && AllWrites(m') == AllWrites(m)
    ensures AwaitHand(m')
  {
    hide InList;
  }

  lemma QueuesNothing(m: Chip, st: Step, m': Chip)
    requires AwaitHand(m) && ((st.QueuesWrites? && m' == QueueWrites(m)) || (st.TimerFires? && m' == Fire(m)))
    ensures AwaitHand(m')
  {
    SameAwait(m, m');
  }

  /** As long as the reads in hand are not queued and every new write waits, all writes wait for a
      read in hand, and none of them is sent. */
  lemma AwaitStep(cfg: Config, m: Chip, st: Step)
    requires Roomy(cfg) && Inv(cfg, m) && Guard(cfg, m, st) && AwaitHand(m) && !st.QueuesReads?
    requires st.HostWrites? ==> st.l in m.entries && !(m.entries[st.l].subPage <= st.bits)
    requires st.Dispatches? ==> st.junk == []
    ensures Defined(cfg, m, st) && AwaitHand(Next(cfg, m, st)) && !SendsHostWrite(Next(cfg, m, st), st)
  {
    hide Inv, Roomy, Shape, Complete, Dispatch, GcCheck, MayWrite, MayRead, SubmitWrite, SubmitRead, AwaitHand, HostOut;
    StepKeeps(cfg, m, st);
    if st.Dispatches? {
      DispatchHand(cfg, m, st.id, st.scratch);
      HandDispatch(cfg, m, st.id, st.scratch);
      SameAwait(m, Next(cfg, m, st));
    } else if st.Completes? {
      HandComplete(cfg, m);
    } else if st.Checks? {
      CheckHand(cfg, m, st.id);
      SameAwait(m, Next(cfg, m, st));
    } else if st.HostWrites? || st.HostReads? {
      HandSubmit(cfg, m, st);
    } else {
      QueuesNothing(m, st, Next(cfg, m, st));
    }
  }

  /** No read comes into hand but by making one. */
  lemma HandStays(cfg: Config, m: Chip, st: Step)
    requires Roomy(cfg) && Inv(cfg, m) && Guard(cfg, m, st) && m.rHand == []
    requires !st.HostReads? && (st.HostWrites? ==> st.l in m.entries && m.entries[st.l].subPage <= st.bits)
    requires st.Dispatches? ==> st.junk == []
    ensures Defined(cfg, m, st) && Next(cfg, m, st).rHand == []
  {
    hide Inv, Roomy, Shape, Complete, Dispatch, GcCheck, MayWrite, MayRead, HostData, ReadFor;
    StepKeeps(cfg, m, st);
    if st.Dispatches? {
      DispatchHand(cfg, m, st.id, st.scratch);
    } else if st.Completes? {
      SameHand(cfg, m);
    } else if st.Checks? {
      CheckHand(cfg, m, st.id);
    }
  }

  /** While a caller keeps to it, no host write is sent next to a read in hand. */
  lemma HandStep(cfg: Config, m: Chip, st: Step)
    requires Roomy(cfg) && Inv(cfg, m) && Guard(cfg, m, st) && InTime(m, st) && HandWaits(m)
    requires st.Dispatches? ==> st.junk == []
    ensures Defined(cfg, m, st) && HandWaits(Next(cfg, m, st))
    ensures m.rHand != [] ==> !SendsHostWrite(Next(cfg, m, st), st)
  {
    hide Inv, Roomy, Next, Guard, Defined, AwaitHand, HostOut;
    StepKeeps(cfg, m, st);
    if st.QueuesReads? {
      HandQueued(cfg, m, st);
    } else if m.rHand == [] && !st.HostReads? && (st.HostWrites? ==> m.entries[st.l].subPage <= st.bits) {
      HandStays(cfg, m, st);
    } else {
      AwaitStep(cfg, m, st);
    }
  }

  lemma HandQueued(cfg: Config, m: Chip, st: Step)
    requires Defined(cfg, m, st) && st.QueuesReads?
    ensures Next(cfg, m, st).rHand == [] && !SendsHostWrite(Next(cfg, m, st), st)
  {
    hide Shape;
  }

  // ---------------------------------------------------------------- runs

  /** From `i` to `j` the caller keeps to it, and erases leave the bytes alone. */
  ghost predicate Timely(states: seq<Chip>, steps: seq<Step>, i: nat, j: nat)
    requires i <= j < |states| == |steps| + 1
  {
    Gentle(steps, i, j) && forall k :: i <= k < j ==> InTime(states[k], steps[k])
  }

  lemma {:induction false} TimelyIsPrompt(cfg: Config, states: seq<Chip>, steps: seq<Step>, i: nat, j: nat)
    requires Roomy(cfg) && Run(cfg, states, steps) && i <= j < |states| && HandWaits(states[i])
    requires Timely(states, steps, i, j)
    ensures HandWaits(states[j]) && Prompt(states, steps, i, j)
  {
    hide Inv, Roomy, Next, Init, Guard, Defined, HandWaits, InTime, SendsHostWrite;
    if i < j {
      TimelyIsPrompt(cfg, states, steps, i, j - 1);
      RunKeeps(cfg, states, steps, j - 1);
      HandStep(cfg, states[j - 1], steps[j - 1]);
    }
  }

  // ---------------------------------------------------------------- one request

  /** Nothing of the host is made, queued or out. */
  predicate Clear(m: Chip) {
    NoRead(m) && AllWrites(m) == [] && HostOut(m).None?
  }

  predicate Submits(st: Step) { st.HostWrites? || st.HostReads? }

  /** The write covers what is mapped of its page, so that it needs no companion read. */
  predicate Covering(m: Chip, st: Step) {
    st.HostWrites? && st.l in m.entries && m.entries[st.l].subPage <= st.bits
  }

  /** What is submitted from `i` to `j` is one request: all of it is made before its reads are queued.
      It either covers nothing of what is mapped on the chip, or makes no read on the chip. A request
      inside one page does the one or the other. */
  ghost predicate OneRequest(states: seq<Chip>, steps: seq<Step>, i: nat, j: nat)
    requires i <= j < |states| == |steps| + 1
  {
    && (forall k, h :: i <= h < k < j && Submits(steps[k]) ==> !steps[h].QueuesReads?)
    && ((forall k :: i <= k < j ==> !Covering(states[k], steps[k]))
        || (forall k :: i <= k < j && Submits(steps[k]) ==> Covering(states[k], steps[k])))
  }

  lemma OnePageIsOneRequest(states: seq<Chip>, steps: seq<Step>, i: nat, j: nat)
    requires i < j < |states| == |steps| + 1
    requires forall k :: i < k < j ==> !Submits(steps[k])
    ensures OneRequest(states, steps, i, j)
  {
  }

  lemma ClearAwaits(m: Chip)
    requires Clear(m)
    ensures AwaitHand(m) && NoRead(m) && WholeWrites(m) && m.rHand == []
  {
  }

  lemma GuardMapped(cfg: Config, m: Chip, st: Step)
    requires Guard(cfg, m, st) && st.HostWrites?
    ensures st.l in m.entries
  {
  }

  /** Until its reads are queued, every write of a request that covers nothing waits for one of them. */
  lemma {:induction false} PartialAwaits(cfg: Config, states: seq<Chip>, steps: seq<Step>, i: nat, j: nat)
    requires Roomy(cfg) && Run(cfg, states, steps) && i <= j < |states| && Clear(states[i]) && Gentle(steps, i, j)
    requires forall k :: i <= k < j ==> !Covering(states[k], steps[k]) && !steps[k].QueuesReads?
    ensures AwaitHand(states[j])
  {
    hide Inv, Roomy, Next, Init, Guard, Defined, AwaitHand, HostOut;
    if i < j {
      PartialAwaits(cfg, states, steps, i, j - 1);
      RunKeeps(cfg, states, steps, j - 1);
      if steps[j - 1].HostWrites? { GuardMapped(cfg, states[j - 1], steps[j - 1]); }
      AwaitStep(cfg, states[j - 1], steps[j - 1]);
    } else {
      ClearAwaits(states[i]);
    }
  }

  /** A request that makes no read on the chip leaves none in hand. */
  lemma {:induction false} CoveringHolds(cfg: Config, states: seq<Chip>, steps: seq<Step>, i: nat, j: nat)
    requires Roomy(cfg) && Run(cfg, states, steps) && i <= j < |states| && Clear(states[i]) && Gentle(steps, i, j)
    requires forall k :: i <= k < j && Submits(steps[k]) ==> Covering(states[k], steps[k])
    ensures states[j].rHand == []
  {
    hide Inv, Roomy, Next, Init, Guard, Defined, HostOut;
    if i < j {
      CoveringHolds(cfg, states, steps, i, j - 1);
      RunKeeps(cfg, states, steps, j - 1);
      HandStays(cfg, states[j - 1], steps[j - 1]);
    }
  }

  lemma RequestIsTimely(cfg: Config, states: seq<Chip>, steps: seq<Step>, i: nat, j: nat)
    requires Roomy(cfg) && Run(cfg, states, steps) && i <= j < |states| && Clear(states[i]) && Gentle(steps, i, j)
    requires OneRequest(states, steps, i, j)
    ensures Timely(states, steps, i, j)
  {
    hide Inv, Roomy, Init, Guard, Defined, Next, AwaitHand, HostOut;
    RunSteps(cfg, states, steps);
    forall k | i <= k < j && Submits(steps[k]) ensures InTime(states[k], steps[k]) {
      if steps[k].HostWrites? { GuardMapped(cfg, states[k], steps[k]); }
      if Covering(states[k], steps[k]) {
        CoveringHolds(cfg, states, steps, i, k);
      } else {
        PartialAwaits(cfg, states, steps, i, k);
      }
    }
  }

  /** The caller's theorem. A request that starts when nothing of the host is on the chip, and that
      covers nothing of what is mapped there or makes no read there, loses nothing: whatever goes on
      meanwhile, every read of it brings what its page held when it was made, and no write of it
      goes out without the old sectors it has to carry. */
  lemma RequestDelivers(cfg: Config, states: seq<Chip>, steps: seq<Step>, i: nat, n: nat)
    requires Roomy(cfg) && Run(cfg, states, steps) && i <= n < |states| && Clear(states[i]) && Gentle(steps, i, n)
    requires OneRequest(states, steps, i, n)
    ensures WholeWrites(states[n])
    ensures states[n].phase == ReadData && HostOut(states[n]).Some? ==>
              var s := HostOut(states[n]).value;
              && s.whole && Holds(s.buf, s.bits, s.host)
              && exists k :: i <= k < n && Makes(states[k], steps[k], TicketOf(s, true))
                   && s.lpn in states[k].store && s.host == Expected(states[k].store[s.lpn], s.bits)
  {
    hide Inv, Roomy, Init, Guard, Defined, Next, Run, OneRequest, Timely, Prompt, Gentle, HostOut, Holds, Expected,
         Makes, WholeWrites, NoRead, AwaitHand;
    ClearAwaits(states[i]);
    RequestIsTimely(cfg, states, steps, i, n);
    TimelyIsPrompt(cfg, states, steps, i, n);
    RunWhole(cfg, states, steps, i, n);
    if states[n].phase == ReadData && HostOut(states[n]).Some? {
      var k := PromptReads(cfg, states, steps, i, n);
    }
  }

  // ---------------------------------------------------------------- one request at a time

  /** Up to `n` the run is made of requests of the kinds above, each of which starts when the one
      before is over. `starts` says where. */
  ghost predicate OneByOne(states: seq<Chip>, steps: seq<Step>, starts: seq<nat>, n: nat)
    requires n < |states| == |steps| + 1
    decreases starts
  {
    if starts == [] then n == 0
    else
      var i := starts[|starts| - 1];
      && i <= n && Clear(states[i]) && OneRequest(states, steps, i, n)
      && OneByOne(states, steps, starts[..|starts| - 1], i)
  }

  lemma {:induction false} OneByOneIsTimely(cfg: Config, states: seq<Chip>, steps: seq<Step>, starts: seq<nat>, n: nat)
    requires Roomy(cfg) && Run(cfg, states, steps) && n < |states| && OneByOne(states, steps, starts, n)
    requires Gentle(steps, 0, n)
    ensures Timely(states, steps, 0, n)
    decreases starts
  {
    hide Inv, Roomy, Init, Guard, Defined, Next, InTime, Clear, OneRequest;
    if starts != [] {
      var i := starts[|starts| - 1];
      OneByOneIsTimely(cfg, states, steps, starts[..|starts| - 1], i);
      RequestIsTimely(cfg, states, steps, i, n);
    }
  }

  /** With one such request at a time, as the driver's queue depth of 1 has it, and no page with a
      hole, the device gives back exactly the sectors written so far, each with the bytes last
      written, whatever is relocated and erased meanwhile. */
  lemma OneByOneIsPlain(cfg: Config, states: seq<Chip>, steps: seq<Step>, starts: seq<nat>, n: nat)
    requires Roomy(cfg) && Run(cfg, states, steps) && n < |states| && OneByOne(states, steps, starts, n)
    requires Gentle(steps, 0, n) && Solid(states, steps, n)
    ensures Readable(states[n]) && Content(states[n]).Keys == PlainOf(states, steps, n).Keys
    ensures forall l :: l in Content(states[n]) ==>
              && Content(states[n])[l].Keys == PlainOf(states, steps, n)[l].Keys
              && forall i :: i in Content(states[n])[l] ==>
                   PlainOf(states, steps, n)[l][i] == Some(Content(states[n])[l][i])
  {
    hide Inv, Roomy, Init, Guard, Defined, Next, OneByOne, Timely, Prompt, Gentle, Content, Readable, PlainOf, Solid,
         AwaitHand;
    RunSteps(cfg, states, steps);
    OneByOneIsTimely(cfg, states, steps, starts, n);
    InitAwaits(cfg, states[0]);
    TimelyIsPrompt(cfg, states, steps, 0, n);
    PromptIsPlain(cfg, states, steps, n);
  }

  lemma InitAwaits(cfg: Config, m: Chip)
    requires Init(cfg, m)
    ensures HandWaits(m)
  {
  }
}
