/** A run in which a read that is made but not yet queued loses its page: one request writes the
    last sector of page 0 and the whole of pages 1 to 3, and its writes go out while the companion
    read of page 0 is still in hand. Page 0 is relocated, its block is erased, and the last of
    the writes is programmed where page 0 was. The companion brings that write's data. */
module ChipSpoilt {
  import opened Flash
  import opened Layout
  import opened Lists
  import opened Sectors
  import opened Addressing
  import opened Chip
  import opened ChipInv
  import opened ChipWrite
  import opened ChipTake
  import opened ChipRuns
  import opened ChipEarly
  import opened Bitmaps
  import opened Requests
  import opened ChipRequests
  import opened ChipScript

  // ---------------------------------------------------------------- the plane, round by round

  function Live(l: nat): Page { Page(FULL, l) }

  function Gone(l: nat): Page { Page({}, l) }

  /** A block with its first `n` pages written. */
  function Blk(n: nat, p: Page, q: Page): Block {
    var live := (if p.state != {} then 1 else 0) + (if q.state != {} then 1 else 0);
    Block(Counts(2 - n, live, n - live), n, [p, q])
  }

  /** Block `b` when the pages 0 to `n - 1` have been written, in this order. */
  function FillBlock(n: nat, b: nat): Block {
    if n <= 2 * b then Blk(0, Gone(0), Gone(0))
    else if n == 2 * b + 1 then Blk(1, Live(2 * b), Gone(0))
    else Blk(2, Live(2 * b), Live(2 * b + 1))
  }

  function FillPlane(n: nat): Plane
    requires n <= PAGES
  {
    Plane(Counts(40 - n, n, 0), n / 2, false, 0, seq(20, b requires 0 <= b < 20 => FillBlock(n, b)))
  }

  /** The full plane, with two of its blocks replaced. */
  function PlaneOf(stale: int, active: nat, victim: nat, blocks: seq<Block>): Plane {
    Plane(Counts(4 - stale, 36, stale), active, false, victim, blocks)
  }

  /** The blocks as the writes of the request and the collector leave them. */
  const ONE := FillPlane(PAGES).blocks[18 := Blk(1, Live(1), Gone(0))][0 := Blk(2, Live(0), Gone(1))]
  const TWO := ONE[18 := Blk(2, Live(1), Live(0))][0 := Blk(0, Gone(0), Gone(1))]
  const THREE := TWO[19 := Blk(1, Live(2), Gone(0))][1 := Blk(2, Gone(2), Live(3))]
  const FOUR := THREE[19 := Blk(2, Live(2), Live(3))][1 := Blk(0, Gone(2), Gone(3))]
  const FIVE := FOUR[0 := Blk(1, Live(3), Gone(1))][19 := Blk(2, Live(2), Gone(3))]
  const SIX := FIVE[0 := Blk(2, Live(3), Live(2))][19 := Blk(0, Gone(2), Gone(3))]

  /** Page `l` is programmed at the next free place of the plane; it was at `o`. */
  ghost predicate Steps(pl: Plane, l: nat, o: Entry, loc: Loc, pl': Plane) {
    && pl.active < |pl.blocks| && AllocLoc(pl, A) == loc && OnPlane(pl, loc) && OnPlane(AllocPage(2, pl), loc)
    && (o.subPage != {} ==> OnPlane(AllocPage(2, pl), o.loc))
    && Landed(AllocPage(2, pl), o, loc, FULL, l) == pl'
  }

  lemma PlaneSame(a: Plane, b: Plane)
    requires a.(blocks := []) == b.(blocks := []) && |a.blocks| == |b.blocks|
    requires forall i :: 0 <= i < |a.blocks| ==>
               && a.blocks[i].(pages := []) == b.blocks[i].(pages := [])
               && |a.blocks[i].pages| == |b.blocks[i].pages| == 2
               && a.blocks[i].pages[0] == b.blocks[i].pages[0] && a.blocks[i].pages[1] == b.blocks[i].pages[1]
    ensures a == b
  {
    forall i | 0 <= i < |a.blocks| ensures a.blocks[i] == b.blocks[i] {
      assert a.blocks[i].pages == b.blocks[i].pages;
    }
    assert a.blocks == b.blocks;
  }

  /** The search for the next block takes the one behind a full one when that is free. */
  lemma NextBlock(blocks: seq<Block>, b: nat)
    requires b + 1 < |blocks| && blocks[b].cnt.free != 2 && blocks[b + 1].cnt.free == 2
    ensures FreeBlockFrom(blocks, 2, b, |blocks|) == b + 1
  {
  }

  lemma FillStep(n: nat)
    requires n < PAGES
    ensures Steps(FillPlane(n), n, Entry({}, At(0, 0)), At(n / 2, n % 2), FillPlane(n + 1))
    ensures Choice(CFG, FillPlane(n + 1)).None?
  {
    var pl, b := FillPlane(n), n / 2;
    var was := pl.blocks[b];
    var blocks := pl.blocks[b := was.(cnt := Counts(was.cnt.free - 1, was.cnt.valid + 1, was.cnt.invalid),
        startWrite := was.startWrite + 1)];
    if n % 2 == 1 { NextBlock(blocks, b); }
    hide FreeBlockFrom;
    PlaneSame(Landed(AllocPage(2, pl), Entry({}, At(0, 0)), At(n / 2, n % 2), FULL, n), FillPlane(n + 1));
  }

  /** Block `v` is collected: its live page `k`, of page `l`, goes to `loc`. */
  ghost predicate Collects(pl: Plane, v: nat, k: nat, l: nat, loc: Loc, pl': Plane) {
    var u, o := pl.(eraseUsed := true, eraseBlock := v), Entry(FULL, At(v, k));
    && u.active < |u.blocks| && v < |u.blocks| && |u.blocks[v].pages| == 2 && k < 2
    && u.blocks[v].pages[k] == Live(l) && NextLive(u.blocks[v].pages, 0) == k && u.blocks[v].cnt.invalid != 2
    && AllocLoc(u, A) == loc && OnPlane(u, loc) && OnPlane(AllocPage(2, u), loc) && OnPlane(AllocPage(2, u), o.loc)
    && var mid := Landed(AllocPage(2, u), o, loc, FULL, l);
       && v < |mid.blocks| && |mid.blocks[v].pages| == 2 && NextLive(mid.blocks[v].pages, k) == 2
       && EraseBlock(2, mid, v).(eraseUsed := false) == pl'
  }

  /** The one full block with a stale page is the choice. */
  lemma OnlyChoice(pl: Plane, v: nat)
    requires pl.cnt.free <= 4 && v < |pl.blocks|
    requires forall b :: 0 <= b < |pl.blocks| ==> (Collectable(pl.blocks[b]) <==> b == v)
    ensures Choice(CFG, pl) == Some(v)
  {
    assert Collectable(pl.blocks[v]);
  }

  lemma Choices()
    ensures Choice(CFG, PlaneOf(1, 18, 0, ONE)) == Some(0)
    ensures Choice(CFG, PlaneOf(1, 19, 0, THREE)) == Some(1)
    ensures Choice(CFG, PlaneOf(1, 0, 1, FIVE)) == Some(19)
  {
    hide Choice;
    OnlyChoice(PlaneOf(1, 18, 0, ONE), 0);
    OnlyChoice(PlaneOf(1, 19, 0, THREE), 1);
    OnlyChoice(PlaneOf(1, 0, 1, FIVE), 19);
  }

  lemma RoundOne()
    ensures Steps(FillPlane(PAGES), 1, Entry(FULL, At(0, 1)), At(18, 0), PlaneOf(1, 18, 0, ONE))
  {
    hide FreeBlockFrom;
    PlaneSame(Landed(AllocPage(2, FillPlane(PAGES)), Entry(FULL, At(0, 1)), At(18, 0), FULL, 1),
              PlaneOf(1, 18, 0, ONE));
  }

  lemma CollectOne()
    ensures Collects(PlaneOf(1, 18, 0, ONE), 0, 0, 0, At(18, 1), PlaneOf(0, 19, 0, TWO))
  {
    var u := PlaneOf(1, 18, 0, ONE).(eraseUsed := true, eraseBlock := 0);
    var mid := Landed(AllocPage(2, u), Entry(FULL, At(0, 0)), At(18, 1), FULL, 0);
    PlaneSame(EraseBlock(2, mid, 0).(eraseUsed := false), PlaneOf(0, 19, 0, TWO));
  }

  lemma RoundTwo()
    ensures Steps(PlaneOf(0, 19, 0, TWO), 2, Entry(FULL, At(1, 0)), At(19, 0), PlaneOf(1, 19, 0, THREE))
  {
    hide FreeBlockFrom;
    PlaneSame(Landed(AllocPage(2, PlaneOf(0, 19, 0, TWO)), Entry(FULL, At(1, 0)), At(19, 0), FULL, 2),
              PlaneOf(1, 19, 0, THREE));
  }

  lemma CollectTwo()
    ensures Collects(PlaneOf(1, 19, 0, THREE), 1, 1, 3, At(19, 1), PlaneOf(0, 0, 1, FOUR))
  {
    var u := PlaneOf(1, 19, 0, THREE).(eraseUsed := true, eraseBlock := 1);
    var mid := Landed(AllocPage(2, u), Entry(FULL, At(1, 1)), At(19, 1), FULL, 3);
    PlaneSame(EraseBlock(2, mid, 1).(eraseUsed := false), PlaneOf(0, 0, 1, FOUR));
  }

  lemma RoundThree()
    ensures Steps(PlaneOf(0, 0, 1, FOUR), 3, Entry(FULL, At(19, 1)), At(0, 0), PlaneOf(1, 0, 1, FIVE))
  {
    hide FreeBlockFrom;
    PlaneSame(Landed(AllocPage(2, PlaneOf(0, 0, 1, FOUR)), Entry(FULL, At(19, 1)), At(0, 0), FULL, 3),
              PlaneOf(1, 0, 1, FIVE));
  }

  lemma CollectThree()
    ensures Collects(PlaneOf(1, 0, 1, FIVE), 19, 0, 2, At(0, 1), PlaneOf(0, 1, 19, SIX))
  {
    var u := PlaneOf(1, 0, 1, FIVE).(eraseUsed := true, eraseBlock := 19);
    var mid := Landed(AllocPage(2, u), Entry(FULL, At(19, 0)), At(0, 1), FULL, 2);
    PlaneSame(EraseBlock(2, mid, 19).(eraseUsed := false), PlaneOf(0, 1, 19, SIX));
  }

  // ---------------------------------------------------------------- the run

  lemma WriteRound(q: seq<Step>, m: Chip, k: nat, loc: Loc, pl': Plane, scratch: PageBuf) returns (m': Chip)
    requires Quiet(q, m) && k < |m.wQueue| && FirstReady(m.wQueue) == k && m.wQueue[k].bits == FULL
    requires m.wQueue[k].lpn in m.entries
    requires Steps(m.planes[A], m.wQueue[k].lpn, m.entries[m.wQueue[k].lpn], loc, pl')
    ensures PageAdded(m, m', loc) && m'.cells[loc] == Overlay(m.cells[loc], Transferred(FULL), m.wQueue[k].buf)
    ensures m'.wQueue == Without(m.wQueue, k) && m.wQueue[k].lpn in m.store
    ensures m'.entries == m.entries[m.wQueue[k].lpn := Entry(FULL, loc)]
    ensures var w := m.wQueue[k].(loc := loc); m'.store == m.store[w.lpn := Settled(w, m.store[w.lpn])]
    ensures match Choice(CFG, pl') {
              case None => Quiet(q, m') && m'.planes[A] == pl'
              case Some(v) => Begun(q, m', v) && m'.planes[A] == pl'.(eraseUsed := true, eraseBlock := v)
            }
  {
    hide Reached, Landed, AllocPage, OnPlane, FirstReady, Without, Transferred, Overlay, Settled, Choice;
    m' := HostRound(q, m, k, scratch);
  }

  lemma CollectRound(q: seq<Step>, m: Chip, v: nat, k: nat, l: nat, loc: Loc, pl: Plane, pl': Plane, scratch: PageBuf)
    returns (m': Chip)
    requires Begun(q, m, v) && m.planes[A] == pl.(eraseUsed := true, eraseBlock := v) && Collects(pl, v, k, l, loc, pl')
    requires l in m.entries && m.entries[l] == Entry(FULL, At(v, k))
    ensures Quiet(q, m') && m'.planes[A] == pl' && m'.entries == m.entries[l := Entry(FULL, loc)]
    ensures PageAdded(m, m', loc) && m'.wQueue == m.wQueue
  {
    hide Reached, Landed, AllocPage, OnPlane, NextLive, EraseBlock;
    var g: nat, w: Sub;
    var m1: Chip;
    AllocUsed(m.planes[A]);
    m1, g, w := Relocation(q, m, v, k, scratch);
    m' := Erasure(q, m1, v, k, g, w, scratch);
  }

  /** Writes before the request: page `l` holds `Fill(l)`. */
  function Whole(l: nat, buf: PageBuf): Sub {
    Sub(l, FULL, buf, At(0, 0), false, HostData(FULL, buf), 0, true)
  }

  /** A whole page is written to a plane that needs no collection afterwards. */
  lemma FirstWrite(q: seq<Step>, m: Chip, l: nat, loc: Loc, pl': Plane, buf: PageBuf) returns (m': Chip)
    requires Quiet(q, m) && m.wQueue == [] && m.wHand == [] && m.rHand == [] && l < PAGES && l in m.entries
    requires m.entries[l].subPage == {}
    requires Steps(m.planes[A], l, m.entries[l], loc, pl') && Choice(CFG, pl').None?
    ensures Quiet([], m') && m'.planes[A] == pl' && m'.wQueue == [] && PageAdded(m, m', loc)
    ensures m'.entries == m.entries[l := Entry(FULL, loc)] && m'.cells[loc] == buf && l in m.store
    ensures m'.store == m.store[l := Settled(Whole(l, buf).(loc := loc), m.store[l])]
  {
    hide Reached, Steps, Choice, Shape, Settled, HostData, Transferred;
    var m1 := FirstQueued(q, m, l, buf);
    m' := WriteRound(q + [HostWrites(l, FULL, buf, buf)], m1, 0, loc, pl', buf);
    FullPage();
    assert m'.cells[loc] == buf;
    Over(q + [HostWrites(l, FULL, buf, buf)], m');
  }

  lemma FirstQueued(q: seq<Step>, m: Chip, l: nat, buf: PageBuf) returns (m': Chip)
    requires Quiet(q, m) && m.wQueue == [] && m.wHand == [] && m.rHand == [] && l < PAGES && l in m.entries
    requires m.entries[l].subPage == {}
    ensures Quiet(q + [HostWrites(l, FULL, buf, buf)], m') && m' == m.(wQueue := [Whole(l, buf)])
    ensures FirstReady(m'.wQueue) == 0
  {
    hide Reached, Shape, HostData, Transferred;
    FullPage();
    Makes(q, m, l, FULL, buf, buf);
    var m1 := SubmitWrite(CFG, m, l, FULL, buf, buf);
    ListsQueue(q + [HostWrites(l, FULL, buf, buf)], m1);
    m' := QueueWrites(m1);
  }

  /** The request is over. */
  lemma Over(q: seq<Step>, m: Chip)
    requires Quiet(q, m) && m.wQueue == [] && m.wHand == [] && m.rHand == []
    ensures Quiet([], m)
  {
    hide Reached;
    Restart(q, m);
  }

  lemma SettledWhole(l: nat, loc: Loc, buf: PageBuf)
    ensures Settled(Whole(l, buf).(loc := loc), map[]) == HostData(FULL, buf)
  {
    FullPage();
  }

  /** The entries of the pages 0 to 3. */
  ghost predicate Where(m: Chip, a: Loc, b: Loc, c: Loc, d: Loc) {
    && 0 in m.entries && 1 in m.entries && 2 in m.entries && 3 in m.entries
    && m.entries[0] == Entry(FULL, a) && m.entries[1] == Entry(FULL, b)
    && m.entries[2] == Entry(FULL, c) && m.entries[3] == Entry(FULL, d)
  }

  function FillEntries(n: nat): map<nat, Entry> {
    map l: nat | l < PAGES :: if l < n then Entry(FULL, At(l / 2, l % 2)) else Entry({}, At(0, 0))
  }

  lemma FreshChip() returns (m: Chip)
    ensures Quiet([], m) && m.planes[A] == FillPlane(0) && m.wQueue == [] && m.wHand == [] && m.rHand == []
    ensures m.entries == FillEntries(0)
    ensures m.store == map l | l in CFG.homes :: map[]
    ensures At(0, 0) in m.ages && m.ages[At(0, 0)] == 0
    ensures At(0, 1) in m.cells && m.cells[At(0, 1)] == Fill(0)
  {
    hide Inv, Init, Run;
    m := BlankChip(CFG, Fill(0), At(0, 0));
    CapIs(20, 2);
    PlaneSame(m.planes[A], FillPlane(0));
    RoomyHere();
    BlankIsInit(CFG, Fill(0), At(0, 0));
    Begins(m);
  }

  /** The pages 0 to `n - 1` are written once. */
  lemma {:induction false} Filled(n: nat) returns (m: Chip)
    requires n <= PAGES
    ensures Quiet([], m) && m.planes[A] == FillPlane(n) && m.wQueue == [] && m.wHand == [] && m.rHand == []
    ensures m.entries == FillEntries(n)
    ensures At(0, 0) in m.ages && m.ages[At(0, 0)] == if n == 0 then 0 else 1
    ensures n == 0 ==> m.store == map l | l in CFG.homes :: map[]
    ensures n > 0 ==> 0 in m.store && m.store[0] == HostData(FULL, Fill(0))
  {
    hide Reached, Rest, Steps, Choice, HostData, Settled, Shape, Inv, FillPlane;
    if n == 0 {
      m := FreshChip();
    } else {
      var l := n - 1;
      var m0 := Filled(l);
      FillStep(l);
      m := FirstWrite([], m0, l, At(l / 2, l % 2), FillPlane(n), Fill(if l == 0 then 0 else 1));
      if l == 0 { SettledWhole(0, At(0, 0), Fill(0)); }
    }
  }

  /** The write of one sector of page 0, and the companion read made with it. */
  const PARTIAL := Sub(0, {3}, Fill(9), At(0, 0), true, HostData({3}, Fill(9)), 0, true)
  const COMPANION := Sub(0, FULL, Fill(255), At(0, 0), true, HostData(FULL, Fill(0)), 1, true)

  lemma ExpectedWhole(buf: PageBuf)
    ensures Expected(HostData(FULL, buf), FULL) == HostData(FULL, buf)
  {
    FullPage();
  }

  lemma MakesWhole(q: seq<Step>, m: Chip, l: nat, buf: PageBuf) returns (m': Chip)
    requires Reached(q, m) && m.phase == Idle && l < PAGES && l in m.entries && m.entries[l].subPage == FULL
    requires forall i :: 0 <= i < |AllWrites(m)| ==> AllWrites(m)[i].lpn != l
    ensures Reached(q + [HostWrites(l, FULL, buf, buf)], m') && m' == m.(wHand := m.wHand + [Whole(l, buf)])
  {
    hide Reached, HostData, Expected, Shape, Inv;
    FullPage();
    Makes(q, m, l, FULL, buf, buf);
    m' := SubmitWrite(CFG, m, l, FULL, buf, buf);
  }

  lemma MakesPartial(q: seq<Step>, m: Chip) returns (m': Chip)
    requires Reached(q, m) && m.phase == Idle && AllWrites(m) == [] && m.rHand == []
    requires 0 in m.entries && m.entries[0] == Entry(FULL, At(0, 0)) && At(0, 0) in m.ages && m.ages[At(0, 0)] == 1
    requires 0 in m.store && m.store[0] == HostData(FULL, Fill(0))
    ensures Reached(q + [HostWrites(0, {3}, Fill(9), Fill(255))], m')
    ensures m' == m.(wHand := [PARTIAL], rHand := [COMPANION])
  {
    hide Reached, HostData, Expected, Shape, Inv;
    ExpectedWhole(Fill(0));
    Makes(q, m, 0, {3}, Fill(9), Fill(255));
    m' := SubmitWrite(CFG, m, 0, {3}, Fill(9), Fill(255));
    assert 0 in FULL && 0 !in {3};
  }

  /** One request for the last sector of page 0 and the pages 1 to 3. */
  const REQUEST := [HostWrites(0, {3}, Fill(9), Fill(255)), HostWrites(1, FULL, Fill(11), Fill(11)),
                    HostWrites(2, FULL, Fill(12), Fill(12)), HostWrites(3, FULL, Fill(13), Fill(13))]

  lemma Piece(at: nat, len: nat)
    requires len > 0
    ensures Pieces(at, len) == [PieceAt(at, len)] + Pieces(at + SubLen(at, len), len - SubLen(at, len))
    ensures PieceAt(at, len).lpn == at / 4
    ensures SetOf(PieceAt(at, len).bitMap) == Span(at % 4, at % 4 + SubLen(at, len))
  {
    hide SetOf, Bitmap;
    PieceCovers(at, len);
  }

  lemma NoPieces(at: nat)
    ensures Pieces(at, 0) == []
  {
  }

  lemma FourPieces()
    ensures Pieces(3, 13) == [PieceAt(3, 13), PieceAt(4, 12), PieceAt(8, 8), PieceAt(12, 4)]
  {
    hide SetOf, PieceAt, Bitmap, Pieces;
    Piece(12, 4);
    NoPieces(16);
    assert Pieces(12, 4) == [PieceAt(12, 4)];
    Piece(8, 8);
    assert Pieces(8, 8) == [PieceAt(8, 8), PieceAt(12, 4)];
    Piece(4, 12);
    assert Pieces(4, 12) == [PieceAt(4, 12), PieceAt(8, 8), PieceAt(12, 4)];
    Piece(3, 13);
  }

  /** It is how 13 sectors from sector 3 on are cut. */
  lemma RequestIsCut()
    ensures |Pieces(3, 13)| == 4
    ensures forall k :: 0 <= k < 4 ==>
              REQUEST[k].l == Pieces(3, 13)[k].lpn && REQUEST[k].bits == SetOf(Pieces(3, 13)[k].bitMap)
  {
    hide SetOf, PieceAt, Bitmap, Pieces;
    FourPieces();
    Piece(3, 13);
    Piece(4, 12);
    Piece(8, 8);
    Piece(12, 4);
    assert Span(3, 4) == {3} && Span(0, 4) == FULL;
    hide SubLen, Span;
  }

  /** The request is made, and its writes are queued. */
  lemma Requested() returns (m: Chip)
    ensures Quiet(REQUEST, m) && m.planes[A] == FillPlane(PAGES) && m.wHand == [] && m.rHand == [COMPANION]
    ensures m.wQueue == [PARTIAL, Whole(1, Fill(11)), Whole(2, Fill(12)), Whole(3, Fill(13))]
    ensures Where(m, At(0, 0), At(0, 1), At(1, 0), At(1, 1))
    ensures At(0, 0) in m.ages && m.ages[At(0, 0)] == 1
  {
    hide Reached, HostData;
    var m0 := Filled(PAGES);
    var m1 := MakesPartial([], m0);
    assert REQUEST[..1] == [] + [REQUEST[0]] && REQUEST[..2] == REQUEST[..1] + [REQUEST[1]];
    assert REQUEST[..3] == REQUEST[..2] + [REQUEST[2]] && REQUEST == REQUEST[..3] + [REQUEST[3]];
    var m2 := MakesWhole(REQUEST[..1], m1, 1, Fill(11));
    var m3 := MakesWhole(REQUEST[..2], m2, 2, Fill(12));
    var m4 := MakesWhole(REQUEST[..3], m3, 3, Fill(13));
    ListsQueue(REQUEST, m4);
    m := QueueWrites(m4);
  }

  lemma SecondTaken(q: seq<Sub>)
    requires |q| >= 2 && q[0].paired && !q[1].paired
    ensures FirstReady(q) == 1 && Without(q, 1) == [q[0]] + q[2..]
  {
    assert q[1..][0] == q[1];
  }

  /** The write behind the one that waits goes out, to `loc`, and then block `v` is collected. */
  lemma WriteAndCollect(q: seq<Step>, m: Chip, l: nat, loc: Loc, pl: Plane,
                        v: nat, k: nat, l': nat, loc': Loc, pl': Plane)
    returns (m': Chip)
    requires Quiet(q, m) && |m.wQueue| >= 2 && m.wQueue[0].paired && m.wQueue[1] == Whole(l, m.wQueue[1].buf)
    requires l in m.entries && Steps(m.planes[A], l, m.entries[l], loc, pl) && Choice(CFG, pl) == Some(v)
    requires l' in m.entries && l' != l && m.entries[l'] == Entry(FULL, At(v, k)) && loc != loc'
    requires Collects(pl, v, k, l', loc', pl')
    ensures Quiet(q, m') && m'.planes[A] == pl' && m'.wQueue == [m.wQueue[0]] + m.wQueue[2..]
    ensures m'.entries == m.entries[l := Entry(FULL, loc)][l' := Entry(FULL, loc')]
    ensures m'.rHand == m.rHand && m'.wHand == m.wHand
    ensures loc in m'.cells && m'.cells[loc] == m.wQueue[1].buf
    ensures loc in m.ages && loc' in m.ages
    ensures m'.ages == m.ages[loc := m.ages[loc] + 1][loc' := m.ages[loc'] + 1]
  {
    hide Reached, Rest, Steps, Collects, Choice, HostData, Settled, FirstReady, Without, Transferred;
    FullPage();
    SecondTaken(m.wQueue);
    var m1 := WriteRound(q, m, 1, loc, pl, Fill(0));
    assert m1.cells[loc] == m.wQueue[1].buf;
    m' := CollectRound(q, m1, v, k, l', loc', pl, pl', Fill(0));
  }

  /** Two of the writes have gone out, each past the one that waits at the head of the queue. */
  lemma TwoGone() returns (m: Chip)
    ensures Quiet(REQUEST, m) && m.planes[A] == PlaneOf(0, 0, 1, FOUR) && m.rHand == [COMPANION] && m.wHand == []
    ensures m.wQueue == [PARTIAL, Whole(3, Fill(13))] && Where(m, At(18, 1), At(18, 0), At(19, 0), At(19, 1))
    ensures At(0, 0) in m.ages && m.ages[At(0, 0)] == 1
  {
    hide Reached, Rest, Steps, Collects, Choice, HostData;
    var m0 := Requested();
    Choices();
    RoundOne();
    CollectOne();
    var m1 := WriteAndCollect(REQUEST, m0, 1, At(18, 0), PlaneOf(1, 18, 0, ONE),
                              0, 0, 0, At(18, 1), PlaneOf(0, 19, 0, TWO));
    RoundTwo();
    CollectTwo();
    m := WriteAndCollect(REQUEST, m1, 2, At(19, 0), PlaneOf(1, 19, 0, THREE),
                         1, 1, 3, At(19, 1), PlaneOf(0, 0, 1, FOUR));
  }

  /** While the companion is in hand its page is relocated, erased and programmed again. */
  lemma Overtaken() returns (m: Chip)
    ensures Quiet(REQUEST, m) && m.rHand == [COMPANION] && m.wHand == [] && m.wQueue == [PARTIAL]
    ensures At(0, 0) in m.cells && m.cells[At(0, 0)] == Fill(13)
    ensures At(0, 0) in m.ages && m.ages[At(0, 0)] == 2
  {
    hide Reached, Rest, Steps, Collects, Choice, HostData;
    var m0 := TwoGone();
    Choices();
    RoundThree();
    CollectThree();
    m := WriteAndCollect(REQUEST, m0, 3, At(0, 0), PlaneOf(1, 0, 1, FIVE), 19, 0, 2, At(0, 1), PlaneOf(0, 1, 19, SIX));
  }

  /** A run to a queue of a write that waits and a ready one behind it: the next to be taken is
      the last of several. */
  lemma LastIsTaken() returns (states: seq<Chip>, steps: seq<Step>)
    ensures Addressing.Valid(GEO) && Run(ConfigOf(GEO, ChipAddr(0, 0), false), states, steps)
    ensures MayDispatch(ConfigOf(GEO, ChipAddr(0, 0), false), states[|steps|])
    ensures var m := states[|steps|];
            && m.erases == [] && m.commands == [] && m.incompletedR == [] && m.rQueue == []
            && |m.wQueue| == 2 && m.wQueue[0].paired && FirstReady(m.wQueue) == |m.wQueue| - 1
  {
    hide Run, HostData, Roomy, ConfigOf, Clear;
    DriversConfig();
    var m := TwoGone();
    SecondTaken(m.wQueue);
    var i: nat;
    states, steps, i :| RunTo(REQUEST, states, steps, i, m);
  }

  /** The run: on a device as the driver sets it up, erases leaving the bytes alone, one request is
      submitted when nothing of the host is on the chip, and the companion read of its first page
      brings the bytes that the request wrote to its last, and not those the page held. */
  lemma CompanionSpoilt() returns (states: seq<Chip>, steps: seq<Step>, i: nat)
    ensures Addressing.Valid(GEO) && Roomy(ConfigOf(GEO, ChipAddr(0, 0), false))
    ensures Run(ConfigOf(GEO, ChipAddr(0, 0), false), states, steps) && Gentle(steps, 0, |steps|)
    ensures i <= |steps| && Clear(states[i]) && Submissions(steps[i..]) == REQUEST
    ensures states[|steps|].phase == ReadData && HostOut(states[|steps|]).Some?
    ensures var s := HostOut(states[|steps|]).value;
            && s.lpn == 0 && s.bits == FULL && s.paired && !s.whole
            && s.host == HostData(FULL, Fill(0)) && s.buf == Fill(13)
  {
    hide Run, HostData, Rest, Roomy, ConfigOf, Clear, Submissions;
    DriversConfig();
    FullPage();
    var m := Overtaken();
    var m' := ReadsBack(REQUEST, m, COMPANION);
    assert Brought(m, COMPANION).buf == Fill(13);
    states, steps, i :| RunTo(REQUEST, states, steps, i, m');
  }
}
