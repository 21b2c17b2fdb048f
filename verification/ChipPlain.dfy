/** When nothing is lost: while the sectors of every page form one run and companion reads
    come in time, the device is a plain store. */
module ChipPlain {
  import opened Flash
  import opened Sectors
  import opened Chip
  import opened ChipInv
  import opened ChipWrite
  import opened ChipCommit
  import opened ChipHost
  import opened ChipRuns
  import opened ChipTheorems

  /** A write of which nothing is lost: it and what is mapped form one run of sectors, and
      its companion read, if any, came in time. */
  ghost predicate Clean(w: Sub) {
    w.whole && OneRun(w.bits)
  }

  ghost predicate AllClean(states: seq<Chip>, steps: seq<Step>, n: nat)
    requires n <= |steps| && |states| == |steps| + 1
  {
    forall k :: 0 <= k < n && Finished(states[k], steps[k]).Some? ==> Clean(Finished(states[k], steps[k]).value)
  }

  /** The plain store: completed writes overwrite, and that is all. */
  function PlainNext(plain: map<nat, Data>, w: Option<Sub>): map<nat, Data> {
    if w.Some? && w.value.lpn in plain then plain[w.value.lpn := plain[w.value.lpn] + w.value.host] else plain
  }

  ghost function PlainOf(states: seq<Chip>, steps: seq<Step>, n: nat): map<nat, Data>
    requires n <= |steps| && |states| == |steps| + 1
  {
    if n == 0 then map l | l in states[0].entries :: map[]
    else PlainNext(PlainOf(states, steps, n - 1), Finished(states[n - 1], steps[n - 1]))
  }

  /** A write is settled as it was carried exactly when nothing it carries is above a hole. */
  lemma CleanSettles(w: Sub, was: Data)
    requires Clean(w) && w.bits == was.Keys + w.host.Keys
    ensures Settled(w, was) == was + w.host
  {
    RunIsWhole(w.bits);
    hide Transferred, OneRun;
  }

  lemma {:induction false} PlainIsStore(cfg: Config, states: seq<Chip>, steps: seq<Step>, n: nat)
    requires Roomy(cfg) && Run(cfg, states, steps) && n < |states| && AllClean(states, steps, n)
    ensures StoreOf(states, steps, n) == PlainOf(states, steps, n)
  {
    hide Inv, Next, Guard, Defined, Finished, Clean, Settled, Init;
    if n > 0 {
      PlainIsStore(cfg, states, steps, n - 1);
      RunStore(cfg, states, steps, n - 1);
      RunKeeps(cfg, states, steps, n - 1);
      var w := Finished(states[n - 1], steps[n - 1]);
      if w.Some? {
        FinishedReady(cfg, states[n - 1], steps[n - 1]);
        CleanSettles(w.value, states[n - 1].store[w.value.lpn]);
      }
    }
  }

  lemma FinishedReady(cfg: Config, m: Chip, st: Step)
    requires Inv(cfg, m) && Finished(m, st).Some?
    ensures var w := Finished(m, st).value;
            w.lpn in m.store && w.bits == m.store[w.lpn].Keys + w.host.Keys && Present(w.host)
  {
    hide Shape, Exact, MapForward, MapBackward, Stored, Writes, Reads, EraseQueue, Marked, Room, Collecting, Burnt,
         InStep, Queues, Looked, Holds, Within;
  }

  lemma {:induction false} PlainNotLost(cfg: Config, states: seq<Chip>, steps: seq<Step>, n: nat, l: nat, i: nat)
    requires Roomy(cfg) && Run(cfg, states, steps) && n < |states|
    ensures var p := PlainOf(states, steps, n); l in p && i in p[l] ==> p[l][i].Some?
  {
    hide Inv, Next, Guard, Defined, Init;
    if n > 0 {
      PlainNotLost(cfg, states, steps, n - 1, l, i);
      RunKeeps(cfg, states, steps, n - 1);
      if Finished(states[n - 1], steps[n - 1]).Some? { FinishedReady(cfg, states[n - 1], steps[n - 1]); }
    }
  }

  lemma RunLength(cfg: Config, states: seq<Chip>, steps: seq<Step>)
    requires Run(cfg, states, steps)
    ensures |states| == |steps| + 1
  {
  }

  /** While every completed write was clean, the device is a plain store: for every page it
      gives back exactly the sectors written so far, each with the bytes last written. */
  lemma RunIsPlain(cfg: Config, states: seq<Chip>, steps: seq<Step>, n: nat)
    requires Roomy(cfg) && Run(cfg, states, steps) && n < |states| && AllClean(states, steps, n)
    ensures Readable(states[n]) && Content(states[n]).Keys == PlainOf(states, steps, n).Keys
    ensures forall l :: l in Content(states[n]) ==>
              && Content(states[n])[l].Keys == PlainOf(states, steps, n)[l].Keys
              && forall i :: i in Content(states[n])[l] ==>
                   PlainOf(states, steps, n)[l][i] == Some(Content(states[n])[l][i])
  {
    RunLength(cfg, states, steps);
    hide Inv, Init, Next, Guard, Defined, Finished, Content, Readable, StoreOf, Run, PlainOf, AllClean;
    RunContent(cfg, states, steps, n);
    PlainIsStore(cfg, states, steps, n);
    forall l, i | l in Content(states[n]) && i in Content(states[n])[l]
      ensures PlainOf(states, steps, n)[l][i] == Some(Content(states[n])[l][i])
    {
      PlainNotLost(cfg, states, steps, n, l, i);
    }
  }

  // ---------------------------------------------------------------- what a hole loses

  /** The three steps of a host write that goes out: it is sent, the NAND chip's timer fires, and
      its completion is handled. */
  ghost predicate WritePath(cfg: Config, m: Chip, r: nat, m1: Chip, m2: Chip, m3: Chip) {
    && Poised(cfg, m, r) && m.cmds[r].related.None? && m.pending.None?
    && m1 == Send(cfg, m, r, [], true) && m2 == Fire(m1)
    && Defined(cfg, m2, Completes) && m3 == Next(cfg, m2, Completes)
  }

  /** Then the page reads back as what was on its new page before, overwritten by what was
      transferred. */
  lemma WriteReadsBack(cfg: Config, m: Chip, r: nat, m1: Chip, m2: Chip, m3: Chip)
    requires WritePath(cfg, m, r, m1, m2, m3)
    ensures r in m.cmds && m.cmds[r].load.OfSub? && r in m1.cmds && m1.cmds[r].load.OfSub?
    ensures var s := SubOf(m, r); var loc := SubOf(m1, r).loc;
            && loc in m.cells && s.lpn in m3.entries && Readable(m3) && ReadBack(m3, s.lpn).Keys == s.bits
            && forall i :: i in s.bits ==>
                 i < SECTORS && ReadBack(m3, s.lpn)[i] == Overlay(m.cells[loc], Transferred(s.bits), s.buf)[i]
  {
    hide Inv, Shape, Poised, Defined, Next, Readable, Programmed, Overlay, Transferred, ReadBack;
    SentSub(cfg, m, r);
    SendWriteKeeps(cfg, m, r);
    FireKeeps(cfg, m1);
    LandedEntry(cfg, m2, r);
    RunReadable(cfg, m2);
    BackIs(m3, SubOf(m, r).lpn, SubOf(m, r).bits);
  }

  lemma BackIs(m: Chip, l: nat, bits: set<nat>)
    requires l in m.entries && m.entries[l].subPage == bits && Within(bits) && m.entries[l].loc in m.cells
    ensures ReadBack(m, l).Keys == bits
    ensures forall i :: i in bits ==> i < SECTORS && ReadBack(m, l)[i] == m.cells[m.entries[l].loc][i]
  {
  }

  lemma RunReadable(cfg: Config, m: Chip)
    requires ProgramDone(cfg, m)
    ensures Defined(cfg, m, Completes) && Readable(Next(cfg, m, Completes))
  {
    hide Inv, Shape, Complete, Content;
    EndProgramKeeps(cfg, m);
    ContentIsStore(cfg, Complete(cfg, m));
  }

  /** The write as it is sent. */
  lemma SentSub(cfg: Config, m: Chip, r: nat)
    requires Poised(cfg, m, r) && m.cmds[r].related.None?
    ensures Shape(cfg, m) && r in m.cmds && m.cmds[r].op == Write && m.cmds[r].load.OfSub? && Within(SubOf(m, r).bits)
    ensures var m1 := Send(cfg, m, r, [], true);
            && m1 == SendWrite(cfg, m, r, true)
            && r in m1.cmds && m1.cmds[r].load.OfSub? && m1.commands == [r] && m1.cmds[r].related.None?
            && m1.phase == Programming && m1.hw.timer && m1.pending == m.pending
            && SubOf(m1, r) == SubOf(m, r).(loc := SubOf(m1, r).loc)
            && SubOf(m1, r).loc in m.cells
            && m1.cells == m.cells[SubOf(m1, r).loc :=
                 Overlay(m.cells[SubOf(m1, r).loc], Transferred(SubOf(m, r).bits), SubOf(m, r).buf)]
  {
    hide PlaneExact, AllocPage, MapForward, MapBackward, EraseQueue, Marked, Writes, Reads, RoomAt, Moving, HostWriteOk,
         Looked, Stored, Exact, EntriesShape, TableShape, ListShape, SubsShape, Within, PlanesShape;
    ProgrammedIsSend(cfg, m, r);
    var loc := ProgrammedAt(cfg, m, r);
  }

  /** The map after a host write has completed. */
  lemma LandedEntry(cfg: Config, m: Chip, r: nat)
    requires ProgramDone(cfg, m) && m.commands == [r] && r in m.cmds && m.cmds[r].load.OfSub?
    ensures Defined(cfg, m, Completes)
    ensures var m' := Next(cfg, m, Completes); var s := SubOf(m, r);
            s.lpn in m'.entries && m'.entries[s.lpn] == Entry(s.bits, s.loc) && m'.cells == m.cells
  {
    hide Inv, Shape, MovedPlanes, Settled, Complete, EndIndex, EndQueue;
    LandingDefined(cfg, m);
  }

  /** So a sector above a hole of the page's bitmap is not written: the page claims it, but what
      reads back is what was left on the physical page. It is the host's only if that happens to
      hold the same bytes, and some page does not. */
  lemma HoleLoses(cfg: Config, m: Chip, r: nat, m1: Chip, m2: Chip, m3: Chip, i: nat)
    requires WritePath(cfg, m, r, m1, m2, m3)
    requires r in m.cmds && m.cmds[r].load.OfSub? && i in SubOf(m, r).bits
    ensures r in m1.cmds && m1.cmds[r].load.OfSub? && i < SECTORS
    ensures var s := SubOf(m, r); var loc := SubOf(m1, r).loc;
            && loc in m.cells && s.lpn in m3.entries && Readable(m3) && i in ReadBack(m3, s.lpn)
            && ReadBack(m3, s.lpn)[i] == (if i in Transferred(s.bits) then s.buf[i] else m.cells[loc][i])
    ensures (forall j :: j in SubOf(m, r).bits ==> j in Transferred(SubOf(m, r).bits)) <==> OneRun(SubOf(m, r).bits)
  {
    hide WritePath, ReadBack, Readable, Transferred, OneRun;
    WriteReadsBack(cfg, m, r, m1, m2, m3);
    PathBits(cfg, m, r, m1, m2, m3);
    WholeIffOneRun(SubOf(m, r).bits);
    WithinIs(SubOf(m, r).bits);
  }

  lemma PathBits(cfg: Config, m: Chip, r: nat, m1: Chip, m2: Chip, m3: Chip)
    requires WritePath(cfg, m, r, m1, m2, m3)
    ensures r in m.cmds && m.cmds[r].load.OfSub? && Within(SubOf(m, r).bits)
  {
    hide Send, Defined, Next, Within;
    SentSub(cfg, m, r);
  }

  /** Nothing is lost with a completing write, whatever the page had before, exactly when the
      page has no hole and its companion, if it needed one, came in time. */
  lemma CleanIff(w: Sub, was: Data)
    requires w.bits == was.Keys + w.host.Keys && Within(w.bits) && Present(was) && Present(w.host)
    ensures Settled(w, was) == was + w.host <==> OneRun(w.bits) && (w.whole || was.Keys <= w.host.Keys)
  {
    WholeIffOneRun(w.bits);
    hide OneRun, Transferred;
    var all := was + w.host;
    if OneRun(w.bits) && (w.whole || was.Keys <= w.host.Keys) {
      assert Settled(w, was).Keys == all.Keys;
      assert forall i :: i in all ==> Settled(w, was)[i] == all[i];
    } else if OneRun(w.bits) {
      var i :| i in was.Keys && i !in w.host.Keys;
      assert Settled(w, was)[i] == None;
      assert all[i].Some?;
    } else {
      assert Transferred(w.bits) != w.bits;
      WithinIs(w.bits);
      var i :| i in w.bits && i !in Transferred(w.bits);
      assert i in Settled(w, was) && Settled(w, was)[i] == None;
      assert all[i].Some?;
    }
  }
}
