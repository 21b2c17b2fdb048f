/** A run that makes a hole: a page of which only sector 0 is mapped is written in sector 3. The
    write waits for its companion, carries both sectors, and goes out; the map then claims sector 3,
    which was not transferred. */
module ChipHole {
  import opened Flash
  import opened Layout
  import opened Sectors
  import opened Addressing
  import opened Chip
  import opened ChipInv
  import opened ChipWrite
  import opened ChipRuns
  import opened ChipTheorems
  import opened ChipRequests
  import opened ChipScript
  import opened ChipSpoilt

  /** In a plane with many free pages the first pages of a block are written one after the other and
      nothing is collected. */
  lemma PlentyFree(pl: Plane, o: Entry, bits: set<nat>, l: nat)
    requires pl.active < |pl.blocks| && pl.cnt.free > 5 && OnPlane(pl, AllocLoc(pl, A))
    requires o.subPage != {} ==> OnPlane(AllocPage(2, pl), o.loc)
    ensures OnPlane(AllocPage(2, pl), AllocLoc(pl, A))
    ensures var pl' := Landed(AllocPage(2, pl), o, AllocLoc(pl, A), bits, l);
            Choice(CFG, pl').None? && pl'.cnt.free == pl.cnt.free - 1
  {
    hide FreeBlockFrom;
  }

  /** Page 0 is mapped in sector 0 only. */
  ghost predicate OneMapped(m: Chip) {
    && Quiet([], m) && m.wQueue == [] && m.wHand == [] && m.rHand == []
    && 0 in m.entries && m.entries[0] == Entry({0}, At(0, 0))
    && OnPlane(m.planes[A], At(0, 1)) && Free(m) == At(0, 1) && m.planes[A].cnt.free == 39
    && At(0, 0) in m.cells && m.cells[At(0, 0)][0] == [7] && At(0, 0) in m.ages
    && At(0, 1) in m.cells && m.cells[At(0, 1)] == Fill(0)
  }

  lemma ZeroPage()
    ensures Within({0}) && Within({3}) && Transferred({0}) == {0} && Transferred({0, 3}) == {0}
  {
    HoleExample();
    RunIsWhole({0});
    WholeIffOneRun({0, 3});
    WithinIs({0, 3});
  }

  lemma FirstSector() returns (m: Chip)
    ensures OneMapped(m)
  {
    hide Reached, Shape, HostData, Transferred, Overlay, AllocPage, Landed, FillPlane, Settled;
    ZeroPage();
    var m0 := FreshChip();
    Makes([], m0, 0, {0}, Fill(7), Fill(7));
    var m1 := SubmitWrite(CFG, m0, 0, {0}, Fill(7), Fill(7));
    var q := [] + [HostWrites(0, {0}, Fill(7), Fill(7))];
    ListsQueue(q, m1);
    var m2 := QueueWrites(m1);
    FirstFree(m2);
    PlentyFree(m2.planes[A], m2.entries[0], {0}, 0);
    m := HostRound(q, m2, 0, Fill(0));
    SecondFree(m2.planes[A], m2.entries[0]);
    Over(q, m);
  }

  lemma FirstFree(m: Chip)
    requires Rest(m) && m.planes[A] == FillPlane(0)
    ensures Free(m) == At(0, 0) && OnPlane(m.planes[A], At(0, 0)) && m.planes[A].cnt.free == 40
  {
  }

  lemma SecondFree(pl: Plane, o: Entry)
    requires pl == FillPlane(0) && o.subPage == {}
    ensures OnPlane(AllocPage(2, pl), At(0, 0))
    ensures var pl' := Landed(AllocPage(2, pl), o, At(0, 0), {0}, 0);
            && pl'.active < |pl'.blocks| && AllocLoc(pl', A) == At(0, 1) && OnPlane(pl', At(0, 1))
  {
    hide FreeBlockFrom;
  }

  /** The write of sector 3 and its companion read of sector 0. */
  const MAKES := HostWrites(0, {3}, Fill(9), Fill(255))

  lemma SecondMade(m: Chip) returns (m': Chip, w: Sub, s: Sub)
    requires OneMapped(m)
    ensures Quiet([MAKES], m') && m' == m.(wQueue := [w], rHand := [s])
    ensures w.lpn == 0 && w.bits == {3} && w.buf == Fill(9) && w.paired
    ensures s.lpn == 0 && s.bits == {0} && s.loc == At(0, 0) && s.paired
  {
    hide Reached, Shape, HostData, Expected, Transferred;
    ZeroPage();
    Makes([], m, 0, {3}, Fill(9), Fill(255));
    var m1 := SubmitWrite(CFG, m, 0, {3}, Fill(9), Fill(255));
    assert [] + [MAKES] == [MAKES];
    assert 0 in {0} && 0 !in {3};
    ListsQueue([MAKES], m1);
    m' := QueueWrites(m1);
    w, s := m'.wQueue[0], m'.rHand[0];
  }

  /** The companion is over, and the write carries what it brought. */
  lemma CompanionEnds(m: Chip, r: nat, w: Sub, s: Sub)
    requires Defined(CFG, m, Completes) && m.phase == ReadData && m.incompletedR == [r] && m.hw.id == 0
    requires m.cmds == map[r := Command(Read, OfSub(s), 0, false, None, 1)] && s.paired && w.paired && w.lpn == s.lpn
    requires m.wQueue == [w] && m.wHand == []
    ensures Next(CFG, m, Completes)
              == m.(phase := Idle, incompletedR := [], cmds := map[], wQueue := [Merge(w, s)],
                    hw := m.hw.(signal := false))
  {
    hide Shape, Merge;
    assert MergeAll([w], s) == [Merge(w, s)];
    assert MergeAll([], s) == [];
  }

  /** The write is ready, with both sectors. */
  lemma Merged(m0: Chip) returns (m: Chip)
    requires OneMapped(m0)
    ensures Quiet([MAKES], m) && |m.wQueue| == 1 && m.planes == m0.planes && m.entries == m0.entries
    ensures m.cells == m0.cells
    ensures var w := m.wQueue[0];
            w.lpn == 0 && w.bits == {0, 3} && !w.paired && w.buf[0] == [7] && w.buf[3] == [9]
  {
    hide Reached, Shape, Defined, Next, Transferred, HostData;
    ZeroPage();
    var m1, w, s := SecondMade(m0);
    var m2 := ReadsBack([MAKES], m1, s);
    FireHere([MAKES], m2);
    CompleteHere([MAKES], Fire(m2));
    CompanionEnds(Fire(m2), m1.nextRef, w, Brought(m1, s));
    m := Next(CFG, Fire(m2), Completes);
    assert {3} + {0} == {0, 3};
  }

  lemma HoleWritten() returns (m: Chip)
    ensures Reached([MAKES], m) && 0 in m.entries && m.entries[0] == Entry({0, 3}, At(0, 1))
    ensures At(0, 1) in m.cells && m.cells[At(0, 1)][0] == [7] && m.cells[At(0, 1)][3] == [0]
  {
    hide Reached, Shape, Transferred, AllocPage, Landed;
    ZeroPage();
    var m0 := FirstSector();
    var m1 := Merged(m0);
    PlaneHere(m1);
    PlentyFree(m1.planes[A], m1.entries[0], {0, 3}, 0);
    m := HostRound([MAKES], m1, 0, Fill(0));
  }

  lemma PlaneHere(m: Chip)
    requires Quiet([MAKES], m) && m.planes.Keys == {A} && OnPlane(m.planes[A], At(0, 1)) && Free(m) == At(0, 1)
    ensures AllocLoc(m.planes[A], A) == At(0, 1) && OnPlane(AllocPage(2, m.planes[A]), At(0, 0))
  {
    hide Reached, FreeBlockFrom;
    ReachedShape([MAKES], m);
    CellThere(m, At(0, 1));
  }

  /** The run: the write of sector 3 completes, the map claims the sectors 0 and 3, and sector 3 reads
      back as what the physical page held before. */
  lemma HoleRun() returns (states: seq<Chip>, steps: seq<Step>, i: nat)
    ensures Addressing.Valid(GEO) && Roomy(ConfigOf(GEO, ChipAddr(0, 0), false))
    ensures Run(ConfigOf(GEO, ChipAddr(0, 0), false), states, steps)
    ensures i <= |steps| && Clear(states[i]) && Submissions(steps[i..]) == [HostWrites(0, {3}, Fill(9), Fill(255))]
    ensures var m := states[|steps|];
            && 0 in m.entries && m.entries[0].subPage == {0, 3} && m.entries[0].loc in m.cells
            && ReadBack(m, 0) == map[0 := [7], 3 := [0]] && Fill(9)[3] == [9]
  {
    hide Run, Roomy, ConfigOf, Clear, Submissions;
    DriversConfig();
    var m := HoleWritten();
    states, steps, i :| RunTo([MAKES], states, steps, i, m);
  }
}
