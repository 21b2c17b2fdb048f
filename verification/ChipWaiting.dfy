/** No write waits in vain: the companion read of every waiting write is made, queued or out. */
module ChipWaiting {
  import opened Flash
  import opened Lists
  import opened Sectors
  import opened Chip
  import opened ChipInv
  import opened ChipTake
  import opened ChipFinish
  import opened ChipHost
  import opened ChipRuns
  import opened ChipSafety
  import opened ChipOrigin

  ghost predicate InList(q: seq<Sub>, l: nat) {
    exists j :: 0 <= j < |q| && q[j].paired && q[j].lpn == l
  }

  predicate IsOut(m: Chip, l: nat) {
    m.phase != Programming && HostOut(m).Some? && HostOut(m).value.paired && HostOut(m).value.lpn == l
  }

  /** A companion read of page `l` is made, queued or out. */
  ghost predicate Accompanied(m: Chip, l: nat) {
    InList(AllReads(m), l) || IsOut(m, l)
  }

  ghost predicate AllAccompanied(m: Chip) {
    forall i :: 0 <= i < |AllWrites(m)| && AllWrites(m)[i].paired ==> Accompanied(m, AllWrites(m)[i].lpn)
  }

  lemma FirstOrRest(q: seq<Sub>, h: seq<Sub>, l: nat)
    requires q != []
    ensures InList(q + h, l) ==> InList(q[1..] + h, l) || (q[0].paired && q[0].lpn == l)
  {
    if InList(q + h, l) {
      var j :| 0 <= j < |q + h| && (q + h)[j].paired && (q + h)[j].lpn == l;
      if j > 0 { assert (q[1..] + h)[j - 1] == (q + h)[j]; }
    }
  }

  ghost predicate WaitingIn(w: seq<Sub>, r: seq<Sub>) {
    forall i :: 0 <= i < |w| && w[i].paired ==> InList(r, w[i].lpn)
  }

  lemma FewerWaiting(q: seq<Sub>, h: seq<Sub>, k: nat, r: seq<Sub>)
    requires k < |q| && WaitingIn(q + h, r)
    ensures WaitingIn(Without(q, k) + h, r)
  {
    hide InList;
    var w := Without(q, k) + h;
    forall i | 0 <= i < |w| && w[i].paired ensures InList(r, w[i].lpn) {
      assert (q + h)[if i < k then i else i + 1] == w[i];
    }
  }

  /** When a host command is taken, what it accompanies goes with it. */
  lemma TakeAccompanied(cfg: Config, m: Chip, id: nat)
    requires Shape(cfg, m) && WaitingIn(AllWrites(m), AllReads(m))
    ensures var (m1, r) := TakeHost(cfg, m, id);
            forall i :: 0 <= i < |AllWrites(m1)| && AllWrites(m1)[i].paired ==>
              || InList(AllReads(m1), AllWrites(m1)[i].lpn)
              || (r.Some? && r.value in m1.cmds && m1.cmds[r.value].op == Read && m1.cmds[r.value].load.OfSub?
                  && m1.cmds[r.value].load.sub.paired && m1.cmds[r.value].load.sub.lpn == AllWrites(m1)[i].lpn)
  {
    hide Shape, InList, Without;
    var (m1, r) := TakeHost(cfg, m, id);
    var k := FirstReady(m.wQueue);
    if m.rQueue != [] {
      assert AllWrites(m1) == AllWrites(m);
      forall l
        ensures InList(AllReads(m), l) ==> InList(AllReads(m1), l) || (m.rQueue[0].paired && m.rQueue[0].lpn == l) {
        FirstOrRest(m.rQueue, m.rHand, l);
      }
    } else if k < |m.wQueue| {
      FewerWaiting(m.wQueue, m.wHand, k, AllReads(m));
    }
  }

  /** A read that is sent keeps its page and what it accompanies. */
  lemma SentOut(cfg: Config, m: Chip, r: nat, junk: seq<PageBuf>)
    requires AnyPoised(cfg, m, r) && r in m.cmds && m.cmds[r].op == Read && m.cmds[r].load.OfSub?
    requires m.cmds[r].related.None?
    ensures Shape(cfg, m)
    ensures var m' := Send(cfg, m, r, junk, true); m.cmds[r].load.sub.paired ==> IsOut(m', m.cmds[r].load.sub.lpn)
  {
    hide AnyPoised, Shape, Send;
    PoisedOut(cfg, m, r);
    SendCarries(cfg, m, r, junk);
  }

  lemma DispatchAccompanied(cfg: Config, m: Chip, id: nat, scratch: PageBuf, junk: seq<PageBuf>)
    requires Roomy(cfg) && Inv(cfg, m) && MayDispatch(cfg, m) && AllAccompanied(m)
    ensures Defined(cfg, m, Dispatches(id, scratch, junk))
    ensures AllAccompanied(Next(cfg, m, Dispatches(id, scratch, junk)))
  {
    hide Inv, Roomy, Shape, Send, AnyPoised, TakeHost, ForErase, InList, AllReads, AllWrites;
    DispatchKeeps(cfg, m, id, scratch, junk);
    DispatchDefined(cfg, m, id, scratch);
    IdleFacts(cfg, m);
    var (m1, r) := GetCommand(cfg, m, id, scratch);
    if r.Some? {
      SendLists(cfg, m1, r.value, junk);
      if m.incompletedR != [] {
        HalfRead(cfg, m, r.value);
        SendCarries(cfg, m, r.value, junk);
      } else if m.erases != [] {
        VisitingLists(cfg, m, id, scratch);
      } else {
        TakeAccompanied(cfg, m, id);
        TakeCarries(cfg, m, id, WriteTicket(0, map[]));
        if m1.cmds[r.value].op == Read { SentOut(cfg, m1, r.value, junk); }
      }
    }
  }

  lemma VisitingLists(cfg: Config, m: Chip, id: nat, scratch: PageBuf)
    requires Inv(cfg, m) && MayDispatch(cfg, m) && m.incompletedR == [] && m.erases != []
    ensures Shape(cfg, m) && m.erases[0] in m.cmds && m.cmds[m.erases[0]].stage <= cfg.pages
    ensures var m1 := GetCommand(cfg, m, id, scratch).0; AllReads(m1) == AllReads(m) && AllWrites(m1) == AllWrites(m)
  {
    hide Inv;
    VisitLists(cfg, m, id, scratch);
  }

  /** The read that is over has freed its write; every other waiting write keeps its own. */
  lemma DataAccompanied(cfg: Config, m: Chip)
    requires Inv(cfg, m) && Guard(cfg, m, Completes) && m.phase == ReadData && AllAccompanied(m)
    ensures Defined(cfg, m, Completes) && AllAccompanied(Next(cfg, m, Completes))
  {
    hide Inv, Shape, MergeAll, Writes, Reads, Looked, EraseQueue, Marked, HostReadOk, InList;
    CompleteKeeps(cfg, m);
    ReadDataFacts(cfg, m);
    var s := SubOf(m, m.incompletedR[0]);
    var m' := Next(cfg, m, Completes);
    assert AllReads(m') == AllReads(m);
    MergedBoth(m.wQueue, m.wHand, s);
    if m.cmds[m.incompletedR[0]].related.None? && s.paired {
      assert HostOut(m) == Some(s);
      assert AllWrites(m') == MergeAll(AllWrites(m), s);
      MergedWaiting(AllWrites(m), s);
    } else {
      assert AllWrites(m') == AllWrites(m);
    }
  }

  lemma MergedWaiting(q: seq<Sub>, s: Sub)
    ensures |MergeAll(q, s)| == |q|
    ensures forall i :: 0 <= i < |q| && MergeAll(q, s)[i].paired ==>
              q[i].paired && MergeAll(q, s)[i].lpn == q[i].lpn && q[i].lpn != s.lpn
  {
  }

  lemma CompleteAccompanied(cfg: Config, m: Chip)
    requires Inv(cfg, m) && Guard(cfg, m, Completes) && AllAccompanied(m)
    ensures Defined(cfg, m, Completes) && AllAccompanied(Next(cfg, m, Completes))
  {
    hide Inv, Shape, Complete, InList, HostOut, AllReads, AllWrites;
    CompleteKeeps(cfg, m);
    if m.phase == ReadData {
      DataAccompanied(cfg, m);
    } else {
      SameAfter(cfg, m);
      if m.phase == ReadAddr { AddrOut(cfg, m); }
      if m.phase == Erasing { ErasingNoHost(cfg, m); }
    }
  }

  lemma SameAfter(cfg: Config, m: Chip)
    requires Defined(cfg, m, Completes) && m.phase != ReadData
    ensures var m' := Next(cfg, m, Completes); AllReads(m') == AllReads(m) && AllWrites(m') == AllWrites(m)
  {
    hide Shape, EndProgram, EndReadAddr, EndReadData, EndErase;
  }

  lemma ErasingNoHost(cfg: Config, m: Chip)
    requires Inv(cfg, m) && m.phase == Erasing
    ensures HostOut(m).None?
  {
    hide Shape, Exact, MapForward, MapBackward, Stored, Writes, Reads, Looked, EraseQueue, Marked, Room, Hosts,
         Collecting, Burnt, InStep;
  }

  lemma CheckAccompanied(cfg: Config, m: Chip, id: nat)
    requires Inv(cfg, m) && m.pending.Some? && Shape(cfg, m) && AllAccompanied(m)
    ensures AllAccompanied(GcCheck(cfg, m, id))
  {
    hide Inv, Shape, GcCheck, InList, AllReads, AllWrites, HostOut;
    CheckOut(cfg, m, id);
  }

  lemma MoreListed(q: seq<Sub>, s: Sub, l: nat)
    ensures InList(q, l) ==> InList(q + [s], l)
    ensures s.paired ==> InList(q + [s], s.lpn)
  {
    if InList(q, l) {
      var j :| 0 <= j < |q| && q[j].paired && q[j].lpn == l;
      assert (q + [s])[j] == q[j];
    }
    assert (q + [s])[|q|] == s;
  }

  lemma SubmitAccompanied(cfg: Config, m: Chip, st: Step)
    requires Defined(cfg, m, st) && (st.HostWrites? || st.HostReads?) && AllAccompanied(m)
    ensures AllAccompanied(Next(cfg, m, st))
  {
    hide Shape, HostData, InList, Expected;
    var m' := Next(cfg, m, st);
    if |m'.rHand| > |m.rHand| {
      var s := m'.rHand[|m.rHand|];
      assert AllReads(m') == AllReads(m) + [s];
      forall l
        ensures (InList(AllReads(m), l) ==> InList(AllReads(m'), l)) && (s.paired ==> InList(AllReads(m'), s.lpn)) {
        MoreListed(AllReads(m), s, l);
      }
    } else {
      assert AllReads(m') == AllReads(m);
    }
    if |m'.wHand| > |m.wHand| {
      assert AllWrites(m') == AllWrites(m) + [m'.wHand[|m.wHand|]];
    } else {
      assert AllWrites(m') == AllWrites(m);
    }
    assert HostOut(m') == HostOut(m);
  }

  lemma QueueAccompanied(m: Chip, m': Chip)
    requires AllAccompanied(m) && (m' == QueueWrites(m) || m' == QueueReads(m) || m' == Fire(m))
    ensures AllAccompanied(m')
  {
    hide InList;
    assert AllReads(m') == AllReads(m) && AllWrites(m') == AllWrites(m);
  }

  lemma StepAccompanied(cfg: Config, m: Chip, st: Step)
    requires Roomy(cfg) && Inv(cfg, m) && Guard(cfg, m, st) && AllAccompanied(m)
    ensures Defined(cfg, m, st) && AllAccompanied(Next(cfg, m, st))
  {
    hide Inv, Roomy, Shape, AllAccompanied, Complete, Dispatch, GcCheck, MayWrite, MayRead, SubmitWrite, SubmitRead;
    StepKeeps(cfg, m, st);
    if st.Dispatches? {
      DispatchAccompanied(cfg, m, st.id, st.scratch, st.junk);
    } else if st.Completes? {
      CompleteAccompanied(cfg, m);
    } else if st.Checks? {
      CheckAccompanied(cfg, m, st.id);
    } else if st.HostWrites? || st.HostReads? {
      SubmitAccompanied(cfg, m, st);
    } else {
      QueueAccompanied(m, Next(cfg, m, st));
    }
  }

  /** In every state of every run, every write that waits has the read it waits for. */
  lemma {:induction false} WaitersAccompanied(cfg: Config, states: seq<Chip>, steps: seq<Step>, n: nat)
    requires Roomy(cfg) && Run(cfg, states, steps) && n < |states|
    ensures AllAccompanied(states[n])
  {
    hide Inv, Roomy, Next, Guard, Defined;
    if n > 0 {
      hide Init, AllAccompanied;
      WaitersAccompanied(cfg, states, steps, n - 1);
      RunKeeps(cfg, states, steps, n - 1);
      StepAccompanied(cfg, states[n - 1], steps[n - 1]);
    }
  }
}
