/** Why a tenth of a plane must be two blocks: with one, a full device stops at the first page that
    is overwritten. The write takes the last free page, and the search for a free block that follows
    has none to find; the driver's loop does not end. */
module ChipCramped {
  import opened Flash
  import opened Layout
  import opened Lists
  import opened Sectors
  import opened Addressing
  import opened Chip
  import opened ChipWrite
  import opened ChipTake
  import opened ChipRuns
  import opened ChipScript

  /** A device of one plane of 10 blocks of one page: the threshold is one block. */
  const TIGHT := Geometry(1, 1, 1, 1, 10, 1)
  const NINE: nat := 9
  const SMALL := Config(10, 1, {A}, map l: nat | l < NINE :: A, 1, false)

  lemma SmallConfig()
    ensures Addressing.Valid(TIGHT) && ConfigOf(TIGHT, ChipAddr(0, 0), false) == SMALL
    ensures Threshold(TIGHT) == TIGHT.pages && ConfigShape(SMALL)
  {
    MapSizeIs(TIGHT);
    var cfg := ConfigOf(TIGHT, ChipAddr(0, 0), false);
    assert cfg.threshold == 1;
    assert cfg.addrs == {A};
    forall l | l in cfg.homes ensures cfg.homes[l] == A { HomeTurn(TIGHT, l); }
    assert cfg.homes.Keys == SMALL.homes.Keys;
    assert cfg.homes == SMALL.homes;
  }

  /** Some run ends in `m`, and every pointer in `m` leads somewhere. */
  ghost predicate Ends(m: Chip) {
    Shape(SMALL, m) && exists states, steps :: Leads(states, steps, m)
  }

  ghost predicate Leads(states: seq<Chip>, steps: seq<Step>, m: Chip) {
    Run(SMALL, states, steps) && states[|steps|] == m
  }

  lemma GoesOn(m: Chip, st: Step)
    requires Ends(m) && Guard(SMALL, m, st) && Defined(SMALL, m, st) && Shape(SMALL, Next(SMALL, m, st))
    ensures Ends(Next(SMALL, m, st))
  {
    hide Shape, Guard, Defined, Next, Init;
    var states, steps :| Leads(states, steps, m);
    assert Leads(states + [Next(SMALL, m, st)], steps + [st], Next(SMALL, m, st));
  }

  // ---------------------------------------------------------------- shapes

  /** The tables of the chip, apart from its commands and lists. */
  ghost predicate Tables(m: Chip) {
    && m.planes.Keys == {A} && PlaneShape(SMALL, m.planes[A])
    && m.entries.Keys == SMALL.homes.Keys && m.store.Keys == SMALL.homes.Keys
    && (forall l :: l in m.entries && m.entries[l].subPage != {} ==> InRange(SMALL, m.entries[l].loc))
    && (forall loc :: InRange(SMALL, loc) ==> loc in m.cells && loc in m.ages)
  }

  /** No list but that of the writes, in hand and queued, holds anything. */
  predicate OnlyWrites(m: Chip) {
    && m.rQueue == [] && m.rHand == [] && m.incompletedR == [] && m.erases == []
    && (m.pending.Some? ==> m.pending.value == A)
    && forall i :: 0 <= i < |AllWrites(m)| ==> AllWrites(m)[i].lpn < NINE && AllWrites(m)[i].loc == At(0, 0)
  }

  lemma ShapedIdle(m: Chip)
    requires Tables(m) && OnlyWrites(m) && m.cmds == map[] && m.commands == []
    ensures Shape(SMALL, m)
  {
    hide PlaneShape;
  }

  lemma ShapedOut(m: Chip, r: nat, s: Sub)
    requires Tables(m) && OnlyWrites(m) && r < m.nextRef && m.commands == [r]
    requires m.cmds == map[r := Command(Write, OfSub(s), 0, false, None, 0)] && SubShape(SMALL, s)
    ensures Shape(SMALL, m)
  {
    hide PlaneShape;
  }

  lemma SameTables(m: Chip, m': Chip)
    requires Tables(m) && m'.planes == m.planes && m'.entries == m.entries && m'.store == m.store
    requires m'.cells == m.cells && m'.ages == m.ages
    ensures Tables(m')
  {
    hide PlaneShape;
  }

  // ---------------------------------------------------------------- filling the device

  function Fills(n: nat): Plane
    requires n <= NINE
  {
    Plane(Counts(10 - n, n, 0), n, false, 0,
          seq(10, b requires 0 <= b < 10 =>
                if b < n then Block(Counts(0, 1, 0), 1, [Page(FULL, b)]) else Block(Counts(1, 0, 0), 0, [Page({}, 0)])))
  }

  /** Nothing is out and nothing is listed. */
  predicate Still(m: Chip) {
    && m.phase == Idle && m.commands == [] && m.incompletedR == [] && m.erases == [] && m.cmds == map[]
    && m.rQueue == [] && m.rHand == [] && m.wQueue == [] && m.wHand == [] && m.pending.None?
    && m.hw.phase == Idle && !m.hw.timer && !m.hw.signal
  }

  /** The pages 0 to `n - 1` have been written, and nothing is out. */
  ghost predicate Wrote(m: Chip, n: nat)
    requires n <= NINE
  {
    && Ends(m) && Tables(m) && Still(m) && m.planes[A] == Fills(n)
    && forall l: nat :: l < NINE ==> l in m.entries && m.entries[l].subPage == if l < n then FULL else {}
  }

  lemma OnePageSame(a: Plane, b: Plane)
    requires a.(blocks := []) == b.(blocks := []) && |a.blocks| == |b.blocks|
    requires forall i :: 0 <= i < |a.blocks| ==>
               && a.blocks[i].(pages := []) == b.blocks[i].(pages := [])
               && |a.blocks[i].pages| == |b.blocks[i].pages| == 1 && a.blocks[i].pages[0] == b.blocks[i].pages[0]
    ensures a == b
  {
    forall i | 0 <= i < |a.blocks| ensures a.blocks[i] == b.blocks[i] {
      assert a.blocks[i].pages == b.blocks[i].pages;
    }
    assert a.blocks == b.blocks;
  }

  /** While a free block is left the search takes the next one, and nothing is there to collect. */
  lemma FillsNext(n: nat, o: Entry)
    requires n < NINE && o.subPage == {}
    ensures var pl := AllocPage(1, Fills(n));
            && pl.active == n + 1 && OnPlane(pl, Loc(A, n, 0)) && PlaneShape(SMALL, pl) && !pl.eraseUsed
            && Landed(pl, o, Loc(A, n, 0), FULL, n) == Fills(n + 1)
    ensures AllocLoc(Fills(n), A) == Loc(A, n, 0) && OnPlane(Fills(n), Loc(A, n, 0))
    ensures PlaneShape(SMALL, Fills(n + 1)) && Choice(SMALL, Fills(n + 1)).None?
  {
    var pl := Fills(n);
    var was := pl.blocks[n];
    var blocks := pl.blocks[n := was.(cnt := Counts(0, 1, 0), startWrite := 1)];
    NextFree(blocks, n);
    hide FreeBlockFrom;
    OnePageSame(Landed(AllocPage(1, pl), o, Loc(A, n, 0), FULL, n), Fills(n + 1));
  }

  lemma NextFree(blocks: seq<Block>, b: nat)
    requires b + 1 < |blocks| && blocks[b].cnt.free != 1 && blocks[b + 1].cnt.free == 1
    ensures FreeBlockFrom(blocks, 1, b, |blocks|) == b + 1
  {
  }

  function Entire(l: nat): Sub { Sub(l, FULL, Fill(0), At(0, 0), false, HostData(FULL, Fill(0)), 0, true) }

  lemma HasShape(m: Chip)
    requires Ends(m)
    ensures Shape(SMALL, m)
  {
    hide Shape, Run;
  }

  /** A write of page `l` is made. */
  lemma MadeWrite(m: Chip, l: nat) returns (m': Chip)
    requires Ends(m) && Tables(m) && Still(m) && l < NINE && l in m.entries && m.entries[l].subPage <= FULL
    ensures Ends(m') && Tables(m') && m' == m.(wHand := [Entire(l)])
  {
    hide Ends, Shape, HostData, Tables;
    FullPage();
    HasShape(m);
    m' := SubmitWrite(SMALL, m, l, FULL, Fill(0), Fill(0));
    SameTables(m, m');
    ShapedIdle(m');
    GoesOn(m, HostWrites(l, FULL, Fill(0), Fill(0)));
  }

  /** And it is queued. */
  lemma QueuedWrite(m: Chip, l: nat) returns (m': Chip)
    requires Ends(m) && Tables(m) && Still(m) && l < NINE && l in m.entries && m.entries[l].subPage <= FULL
    ensures Ends(m') && Tables(m') && m' == m.(wQueue := [Entire(l)])
  {
    hide Ends, Shape, HostData, Tables;
    var m1 := MadeWrite(m, l);
    m' := QueueWrites(m1);
    HasShape(m1);
    SameTables(m1, m');
    ShapedIdle(m');
    GoesOn(m1, QueuesWrites);
  }

  /** It can be sent. */
  lemma MaySend(m: Chip, m0: Chip, l: nat)
    requires Tables(m) && Still(m0) && m == m0.(wQueue := [Entire(l)]) && l < NINE && Shape(SMALL, m)
    requires m.planes[A].active < |m.planes[A].blocks|
    ensures Rest(m) && FirstReady(m.wQueue) == 0 && Defined(SMALL, m, Dispatches(0, Fill(0), []))
  {
    hide Shape, HostData, Tables;
    KeysAre(m);
    WriteIsTaken(SMALL, m, 0, 0, Fill(0));
    var taken := m.(wQueue := [], commands := [m.nextRef], nextRef := m.nextRef + 1,
                    cmds := map[m.nextRef := Command(Write, OfSub(Entire(l)), 0, false, None, 0)]);
    assert Without(m.wQueue, 0) == [];
    SameTables(m, taken);
    ShapedOut(taken, m.nextRef, Entire(l));
  }

  lemma KeysAre(m: Chip)
    requires Tables(m)
    ensures m.planes.Keys == {A}
  {
  }

  /** It is sent. */
  lemma SentWrite(m: Chip, m0: Chip, n: nat) returns (m': Chip)
    requires Ends(m) && Tables(m) && Still(m0) && m == m0.(wQueue := [Entire(n)]) && n < NINE
    requires m.planes[A] == Fills(n) && Rest(m) && Defined(SMALL, m, Dispatches(0, Fill(0), []))
    requires FirstReady(m.wQueue) == 0
    ensures ChipScript.Free(m) == Loc(A, n, 0) && Loc(A, n, 0) in m.cells && Loc(A, n, 0) in m.ages
    ensures Ends(m') && m' == WriteSent(SMALL, m, 0, 0) && Tables(m') && m'.wQueue == []
  {
    hide Ends, Shape, HostData, AllocPage, Landed, Fills, Tables, Defined, Next, Overlay, Transferred, FirstReady;
    FreeHere(m, n);
    WriteGoesOut(SMALL, m, 0, 0, Fill(0));
    m' := WriteSent(SMALL, m, 0, 0);
    assert Without(m.wQueue, 0) == [];
    SentTables(m, m', n);
    ShapedOut(m', m.nextRef, Entire(n).(loc := Loc(A, n, 0)));
    GoesOn(m, Dispatches(0, Fill(0), []));
  }

  lemma FreeHere(m: Chip, n: nat)
    requires Tables(m) && n < NINE && m.planes[A] == Fills(n)
    ensures AllocLoc(m.planes[A], A) == Loc(A, n, 0) && Loc(A, n, 0) in m.cells && Loc(A, n, 0) in m.ages
  {
    hide PlaneShape, Fills, AllocPage, Landed;
    FillsNext(n, Entry({}, At(0, 0)));
    assert InRange(SMALL, Loc(A, n, 0));
  }

  lemma SentTables(m: Chip, m': Chip, n: nat)
    requires Tables(m) && n < NINE && m.planes[A] == Fills(n)
    requires m'.planes == map[A := AllocPage(1, m.planes[A])] && m'.entries == m.entries && m'.store == m.store
    requires m.cells.Keys <= m'.cells.Keys && m.ages.Keys <= m'.ages.Keys
    ensures Tables(m')
  {
    hide PlaneShape, Fills, AllocPage, Landed;
    FillsNext(n, Entry({}, At(0, 0)));
  }

  /** The NAND chip is done with it. */
  lemma FiredWrite(m: Chip, r: nat, s: Sub)
    requires Ends(m) && Tables(m) && OnlyWrites(m) && r < m.nextRef && m.commands == [r] && m.phase == Programming
    requires m.cmds == map[r := Command(Write, OfSub(s), 0, false, None, 0)] && SubShape(SMALL, s)
    requires m.hw.timer && m.hw.id == 0
    ensures Ends(Fire(m)) && Tables(Fire(m)) && Defined(SMALL, Fire(m), Completes)
  {
    hide Ends, Shape, Tables;
    HasShape(m);
    assert AllWrites(Fire(m)) == AllWrites(m);
    SameTables(m, Fire(m));
    ShapedOut(Fire(m), r, s);
    GoesOn(m, TimerFires);
  }

  /** It is finished. */
  lemma EndedWrite(m: Chip, r: nat, n: nat, o: Entry) returns (m': Chip)
    requires Ends(m) && Tables(m) && OnlyWrites(m) && m.commands == [r] && m.phase == Programming && n < NINE
    requires m.cmds == map[r := Command(Write, OfSub(Entire(n).(loc := Loc(A, n, 0))), 0, false, None, 0)]
    requires m.hw.id == 0 && m.hw.signal && m.pending.None? && m.wQueue == [] && m.wHand == []
    requires Defined(SMALL, m, Completes)
    requires n in m.entries && m.entries[n] == o && o.subPage == {} && m.planes[A] == AllocPage(1, Fills(n))
    ensures Ends(m') && Tables(m') && m'.planes == map[A := Fills(n + 1)]
    ensures m'.entries == m.entries[n := Entry(FULL, Loc(A, n, 0))]
    ensures m' == m.(phase := Idle, commands := [], cmds := map[], entries := m'.entries, planes := m'.planes,
                     store := m'.store, hw := m.hw.(signal := false), pending := Some(A))
  {
    hide Ends, Shape, HostData, AllocPage, Landed, Fills, PlaneShape, Settled, OnPlane, Next, Defined;
    FillsNext(n, o);
    assert InRange(SMALL, Loc(A, n, 0));
    LandsHere(m, n);
    WriteEnds(SMALL, m, r, Entire(n).(loc := Loc(A, n, 0)), 0);
    m' := Next(SMALL, m, Completes);
    ShapedIdle(m');
    CompletesNow(m);
    GoesOn(m, Completes);
  }

  lemma LandsHere(m: Chip, n: nat)
    requires Tables(m) && n in m.entries && n in SMALL.homes && m.entries[n].subPage == {}
    requires OnPlane(m.planes[A], Loc(A, n, 0))
    ensures Lands(m, Entire(n).(loc := Loc(A, n, 0)))
  {
    hide PlaneShape, OnPlane, HostData;
  }

  lemma CompletesNow(m: Chip)
    requires m.hw.signal && m.pending.None?
    ensures Guard(SMALL, m, Completes)
  {
  }

  /** And nothing is there to collect. */
  lemma CheckedWrite(m: Chip, n: nat) returns (m': Chip)
    requires Ends(m) && Tables(m) && OnlyWrites(m) && m.cmds == map[] && m.commands == [] && n <= NINE
    requires m.planes == map[A := Fills(n)] && m.pending == Some(A) && Choice(SMALL, Fills(n)).None?
    ensures Ends(m') && Tables(m') && m' == m.(pending := None)
  {
    hide Ends, Shape, Fills, Tables, Choice;
    HasShape(m);
    NotUsed(n);
    CheckIs(SMALL, m, 0);
    m' := Checked(m, None, 0);
    SameTables(m, m');
    assert AllWrites(m') == AllWrites(m);
    ShapedIdle(m');
    GoesOn(m, Checks(0));
  }

  lemma NotUsed(n: nat)
    requires n <= NINE
    ensures !Fills(n).eraseUsed
  {
  }

  lemma NextWrite(m: Chip, n: nat) returns (m': Chip)
    requires n < NINE && Wrote(m, n)
    ensures Wrote(m', n + 1)
  {
    hide Ends, Shape, HostData, Tables, AllocPage, Fills, Landed, OnPlane, Choice, Defined, Overlay, Transferred;
    var m0 := QueuedWrite(m, n);
    HasShape(m0);
    ActiveIs(n);
    MaySend(m0, m, n);
    var m1 := SentWrite(m0, m, n);
    FiredWrite(m1, m.nextRef, Entire(n).(loc := Loc(A, n, 0)));
    var m2 := EndedWrite(Fire(m1), m.nextRef, n, m.entries[n]);
    FillsNext(n, m.entries[n]);
    m' := CheckedWrite(m2, n + 1);
  }

  lemma ActiveIs(n: nat)
    requires n <= NINE
    ensures Fills(n).active < |Fills(n).blocks|
  {
  }

  lemma {:induction false} Filled(n: nat) returns (m: Chip)
    requires n <= NINE
    ensures Wrote(m, n)
  {
    hide Wrote;
    if n == 0 {
      m := Blank10();
    } else {
      var m0 := Filled(n - 1);
      m := NextWrite(m0, n - 1);
    }
  }

  lemma Blank10() returns (m: Chip)
    ensures Wrote(m, 0)
  {
    hide Init, Tables, Shape, Fills;
    SmallConfig();
    m := BlankChip(SMALL, Fill(0), At(0, 0));
    BlankFills();
    BlankIsInit(SMALL, Fill(0), At(0, 0));
    BlankTables();
    ShapedIdle(m);
    assert Leads([m], [], m);
  }

  lemma BlankFills()
    ensures BlankPlaneOf(SMALL) == Fills(0) && PlaneShape(SMALL, Fills(0))
  {
    CapIs(10, 1);
    OnePageSame(BlankPlaneOf(SMALL), Fills(0));
  }

  lemma BlankTables()
    ensures Tables(BlankChip(SMALL, Fill(0), At(0, 0)))
  {
    hide PlaneShape, Fills;
    BlankFills();
  }

  /** The run: when every page has been written once, one of them is written again. The write is sent,
      and takes the last free page; then no block is free, and the search answers none. */
  lemma SearchHangs() returns (states: seq<Chip>, steps: seq<Step>)
    ensures Addressing.Valid(TIGHT) && Threshold(TIGHT) == TIGHT.pages
    ensures Run(ConfigOf(TIGHT, ChipAddr(0, 0), false), states, steps)
    ensures var cfg, m := ConfigOf(TIGHT, ChipAddr(0, 0), false), states[|steps|];
            && MayDispatch(cfg, m) && Defined(cfg, m, Dispatches(0, Fill(0), []))
            && A in m.planes && m.planes[A].active < |m.planes[A].blocks|
            && var r := GetCommand(cfg, m, 0, Fill(0)).1;
               && r.Some? && GetCommand(cfg, m, 0, Fill(0)).0.cmds[r.value].op == Write
               && var pl := AllocPage(cfg.pages, m.planes[A]);
                  pl.active == |pl.blocks| && forall b :: 0 <= b < |pl.blocks| ==> pl.blocks[b].cnt.free == 0
  {
    hide Run, Shape, ConfigOf, HostData, Tables, Fills;
    SmallConfig();
    var m0 := Filled(NINE);
    MayOverwrite(m0);
    var m := QueuedWrite(m0, 0);
    HasShape(m);
    MaySend(m, m0, 0);
    WriteIsTaken(SMALL, m, 0, 0, Fill(0));
    NoneFree();
    states, steps :| Leads(states, steps, m);
  }

  /** The last page is taken, and no block is free. */
  lemma NoneFree()
    ensures var pl := AllocPage(1, Fills(NINE));
            pl.active == |pl.blocks| && forall b :: 0 <= b < |pl.blocks| ==> pl.blocks[b].cnt.free == 0
  {
    var pl := Fills(NINE);
    var was := pl.blocks[9];
    var blocks := pl.blocks[9 := was.(cnt := Counts(0, 1, 0), startWrite := 1)];
    assert forall b :: 0 <= b < 10 ==> blocks[b].cnt.free == 0;
    var r := FreeBlockFrom(blocks, 1, 9, 10);
  }

  lemma MayOverwrite(m: Chip)
    requires Wrote(m, NINE)
    ensures 0 in m.entries && m.entries[0].subPage <= FULL
    ensures m.planes.Keys == {A} && m.planes[A].active < |m.planes[A].blocks|
  {
    hide Ends;
  }
}
