/** What a run does, one operation of the host or the collector at a time: the means to write runs
    out. The device is one that the driver's set-up makes. */
module ChipScript {
  import opened Flash
  import opened Layout
  import opened Lists
  import opened Sectors
  import opened Addressing
  import opened Chip
  import opened ChipInv
  import opened ChipWrite
  import opened ChipTake
  import opened ChipRuns
  import opened ChipEarly
  import opened ChipRequests

  /** A device of one plane of 20 blocks of two pages. The driver's set-up gives it 36 logical pages
      and a collection threshold of 4. */
  const GEO := Geometry(1, 1, 1, 1, 20, 2)
  const A := PlaneAddr(0, 0, 0, 0)
  const PAGES: nat := 36
  const CFG := Config(20, 2, {A}, map l: nat | l < PAGES :: A, 4, false)

  lemma DriversConfig()
    ensures Addressing.Valid(GEO) && ConfigOf(GEO, ChipAddr(0, 0), false) == CFG && Roomy(CFG)
  {
    MapSizeIs(GEO);
    var cfg := ConfigOf(GEO, ChipAddr(0, 0), false);
    assert cfg.threshold == 4;
    assert cfg.addrs == {A};
    forall l | l in cfg.homes ensures cfg.homes[l] == A { HomeTurn(GEO, l); }
    assert cfg.homes.Keys == CFG.homes.Keys;
    assert cfg.homes == CFG.homes;
    GeometryIsRoomy(GEO, ChipAddr(0, 0), false);
  }

  /** What is submitted in a stretch of a run. */
  function Submissions(steps: seq<Step>): seq<Step> {
    if steps == [] then []
    else
      var n := |steps| - 1;
      Submissions(steps[..n]) + if Submits(steps[n]) then [steps[n]] else []
  }

  ghost predicate RunTo(q: seq<Step>, states: seq<Chip>, steps: seq<Step>, i: nat, m: Chip) {
    && Run(CFG, states, steps) && states[|steps|] == m && Gentle(steps, 0, |steps|)
    && i <= |steps| && Clear(states[i]) && Submissions(steps[i..]) == q
  }

  /** Some run in which erases leave the bytes alone ends in `m`, and since nothing of the host was on
      the chip only `q` was submitted. */
  ghost predicate Reached(q: seq<Step>, m: Chip) {
    exists states, steps, i: nat :: RunTo(q, states, steps, i, m)
  }

  lemma RoomyHere()
    ensures Roomy(CFG)
  {
    DriversConfig();
  }

  function With(q: seq<Step>, st: Step): seq<Step> { if Submits(st) then q + [st] else q }

  lemma SubmissionsGrow(steps: seq<Step>, i: nat, st: Step)
    requires i <= |steps|
    ensures Submissions((steps + [st])[i..]) == With(Submissions(steps[i..]), st)
  {
    assert (steps + [st])[i..] == steps[i..] + [st];
    assert (steps[i..] + [st])[..|steps[i..]|] == steps[i..];
  }

  lemma Grow(q: seq<Step>, m: Chip, st: Step)
    requires Reached(q, m) && Guard(CFG, m, st) && (st.Dispatches? ==> st.junk == [])
    ensures Defined(CFG, m, st) && Reached(With(q, st), Next(CFG, m, st))
  {
    hide Inv, Next, Init, Guard, Defined, Roomy, Clear, With;
    var states, steps, i: nat :| RunTo(q, states, steps, i, m);
    RoomyHere();
    RunExtends(CFG, states, steps, st);
    var m' := Next(CFG, m, st);
    SubmissionsGrow(steps, i, st);
    hide Run, Submissions;
    assert (states + [m'])[i] == states[i];
    assert RunTo(With(q, st), states + [m'], steps + [st], i, m');
  }

  /** A new request begins. */
  lemma Restart(q: seq<Step>, m: Chip)
    requires Reached(q, m) && Clear(m)
    ensures Reached([], m)
  {
    hide Run, Clear;
    var states, steps, i: nat :| RunTo(q, states, steps, i, m);
    assert RunTo([], states, steps, |steps|, m);
  }

  lemma ReachedShape(q: seq<Step>, m: Chip)
    requires Reached(q, m)
    ensures Inv(CFG, m) && Shape(CFG, m)
  {
    hide Inv, Init, Guard, Defined, Next, Shape, Roomy, Clear;
    var states, steps, i: nat :| RunTo(q, states, steps, i, m);
    RoomyHere();
    RunKeeps(CFG, states, steps, |steps|);
    InvShape(CFG, m);
  }

  // ---------------------------------------------------------------- one write of the host

  /** Nothing is out and the chip is idle. */
  predicate Rest(m: Chip) {
    && m.phase == Idle && m.commands == [] && m.incompletedR == [] && m.rQueue == [] && m.pending.None?
    && m.hw.phase == Idle && !m.hw.timer && !m.hw.signal
    && m.planes.Keys == {A} && m.planes[A].active < |m.planes[A].blocks|
  }

  /** Where the next page is programmed. */
  function Free(m: Chip): Loc
    requires Rest(m)
  {
    AllocLoc(m.planes[A], A)
  }

  function WriteSent(cfg: Config, m: Chip, k: nat, id: nat): Chip
    requires Rest(m) && k < |m.wQueue| && Free(m) in m.cells && Free(m) in m.ages
  {
    var w := m.wQueue[k].(loc := Free(m));
    m.(phase := Programming, wQueue := Without(m.wQueue, k), commands := [m.nextRef], nextRef := m.nextRef + 1,
       cmds := map[m.nextRef := Command(Write, OfSub(w), id, false, None, 0)],
       planes := map[A := AllocPage(cfg.pages, m.planes[A])],
       hw := Start(m.hw, Programming, Free(m), id),
       cells := m.cells[Free(m) := Overlay(m.cells[Free(m)], Transferred(w.bits), w.buf)],
       ages := m.ages[Free(m) := m.ages[Free(m)] + 1])
  }

  lemma Dispatched(cfg: Config, m: Chip, id: nat, scratch: PageBuf, m1: Chip, r: nat)
    requires Defined(cfg, m, Dispatches(id, scratch, []))
    requires GetCommand(cfg, m, id, scratch).0 == m1 && GetCommand(cfg, m, id, scratch).1 == Some(r)
    ensures Shape(cfg, m1) && r in m1.cmds
    ensures Next(cfg, m, Dispatches(id, scratch, [])) == Send(cfg, m1, r, [], true)
  {
    hide Shape, Send, GetCommand;
  }

  lemma SendsWrite(cfg: Config, m: Chip, r: nat, c: Command)
    requires Shape(cfg, m) && r in m.cmds && m.cmds[r] == c && c.op == Write && c.load.OfSub? && c.load.sub.loc.at == A
    requires m.planes.Keys == {A} && m.planes[A].active < |m.planes[A].blocks| && m.hw.phase == Idle
    requires AllocLoc(m.planes[A], A) in m.cells && AllocLoc(m.planes[A], A) in m.ages
    ensures var free := AllocLoc(m.planes[A], A); var w := c.load.sub.(loc := free);
            Send(cfg, m, r, [], true)
              == m.(phase := Programming, cmds := m.cmds[r := c.(load := OfSub(w))],
                    planes := map[A := AllocPage(cfg.pages, m.planes[A])], hw := Start(m.hw, Programming, free, c.id),
                    cells := m.cells[free := Overlay(m.cells[free], Transferred(w.bits), w.buf)],
                    ages := m.ages[free := m.ages[free] + 1])
  {
    hide Shape, AllocPage, Transferred, Overlay;
  }

  lemma DefinedShape(cfg: Config, m: Chip, st: Step)
    requires Defined(cfg, m, st)
    ensures Shape(cfg, m)
  {
    hide Shape;
  }

  lemma WriteGoesOut(cfg: Config, m: Chip, k: nat, id: nat, scratch: PageBuf)
    requires Defined(cfg, m, Dispatches(id, scratch, [])) && Rest(m) && m.erases == [] && m.cmds == map[]
    requires k < |m.wQueue| && FirstReady(m.wQueue) == k && m.wQueue[k].loc.at == A
    requires Free(m) in m.cells && Free(m) in m.ages
    ensures Next(cfg, m, Dispatches(id, scratch, [])) == WriteSent(cfg, m, k, id)
  {
    hide Shape, AllocPage, Transferred, Overlay, FirstReady, Without, Defined, Send, Next;
    var c := Command(Write, OfSub(m.wQueue[k]), id, false, None, 0);
    var m1 := m.(wQueue := Without(m.wQueue, k), commands := [m.nextRef], nextRef := m.nextRef + 1,
                 cmds := map[m.nextRef := c]);
    DefinedShape(cfg, m, Dispatches(id, scratch, []));
    WriteIsTaken(cfg, m, k, id, scratch);
    Dispatched(cfg, m, id, scratch, m1, m.nextRef);
    SendsWrite(cfg, m1, m.nextRef, c);
  }

  lemma WriteIsTaken(cfg: Config, m: Chip, k: nat, id: nat, scratch: PageBuf)
    requires Shape(cfg, m) && Rest(m) && m.erases == [] && m.cmds == map[]
    requires k < |m.wQueue| && FirstReady(m.wQueue) == k
    ensures GetCommand(cfg, m, id, scratch).1 == Some(m.nextRef)
    ensures GetCommand(cfg, m, id, scratch).0
              == m.(wQueue := Without(m.wQueue, k), commands := [m.nextRef], nextRef := m.nextRef + 1,
                    cmds := map[m.nextRef := Command(Write, OfSub(m.wQueue[k]), id, false, None, 0)])
  {
    hide Shape, FirstReady, Without;
  }

  predicate OnPlane(pl: Plane, loc: Loc) {
    loc.at == A && loc.block < |pl.blocks| && loc.page < |pl.blocks[loc.block].pages|
  }

  /** The programmed page becomes the current one of its logical page. */
  function Landed(pl: Plane, o: Entry, loc: Loc, bits: set<nat>, lpn: nat): (r: Plane)
    requires OnPlane(pl, loc) && (o.subPage != {} ==> OnPlane(pl, o.loc))
    ensures r.active == pl.active && r.eraseUsed == pl.eraseUsed && r.eraseBlock == pl.eraseBlock
  {
    var pl1 := CommitPage(pl, loc.block, loc.page, bits, lpn);
    if o.subPage == {} || !OnPlane(pl1, o.loc) then pl1 else InvalidatePage(pl1, o.loc.block, o.loc.page)
  }

  ghost predicate Lands(m: Chip, s: Sub) {
    && m.planes.Keys == {A} && s.lpn in m.entries && s.lpn in m.store && OnPlane(m.planes[A], s.loc)
    && (m.entries[s.lpn].subPage != {} ==> OnPlane(m.planes[A], m.entries[s.lpn].loc))
  }

  lemma MapMoves(m: Chip, s: Sub)
    requires Lands(m, s)
    ensures UpdateMap.requires(m, s)
    ensures UpdateMap(m, s) == m.(entries := m.entries[s.lpn := Entry(s.bits, s.loc)],
                                  planes := map[A := Landed(m.planes[A], m.entries[s.lpn], s.loc, s.bits, s.lpn)])
  {
  }

  lemma WriteEnds(cfg: Config, m: Chip, r: nat, s: Sub, id: nat)
    requires Defined(cfg, m, Completes) && m.phase == Programming && m.commands == [r] && m.hw.id == id
    requires m.cmds == map[r := Command(Write, OfSub(s), id, false, None, 0)] && Lands(m, s)
    ensures Next(cfg, m, Completes) == m.(phase := Idle, commands := [], cmds := map[],
                entries := m.entries[s.lpn := Entry(s.bits, s.loc)],
                planes := map[A := Landed(m.planes[A], m.entries[s.lpn], s.loc, s.bits, s.lpn)],
                pending := Some(A), store := m.store[s.lpn := Settled(s, m.store[s.lpn])],
                hw := m.hw.(signal := false))
  {
    hide Shape, Landed, UpdateMap, Settled;
    MapMoves(m, s);
  }

  /** The collection check: `v` is what it chooses. */
  function Checked(m: Chip, v: Option<nat>, id: nat): Chip
    requires A in m.planes
  {
    if v.None? then m.(pending := None)
    else m.(pending := None, planes := map[A := m.planes[A].(eraseUsed := true, eraseBlock := v.value)],
            cmds := map[m.nextRef := Command(Erase, EraseAt(A), id, false, None, 0)],
            nextRef := m.nextRef + 1, erases := [m.nextRef])
  }

  function Choice(cfg: Config, pl: Plane): Option<nat> {
    if pl.cnt.free <= cfg.threshold then Victim(pl.blocks, |pl.blocks|) else None
  }

  lemma CheckIs(cfg: Config, m: Chip, id: nat)
    requires Defined(cfg, m, Checks(id)) && m.planes.Keys == {A} && m.pending == Some(A) && m.erases == []
    requires m.cmds == map[] && !m.planes[A].eraseUsed
    ensures Next(cfg, m, Checks(id)) == Checked(m, Choice(cfg, m.planes[A]), id)
  {
    hide Shape, Victim;
    assert forall pl :: m.planes[A := pl] == map[A := pl];
  }

  lemma LandsIs(m: Chip, r: nat)
    requires Shape(CFG, m) && r in m.cmds && m.cmds[r].load.OfSub?
    ensures Lands(m, SubOf(m, r)) && SubOf(m, r).loc.at == A
  {
    hide ListShape, SubsShape;
    assert CommandShape(CFG, m.cmds[r]);
    assert PlaneShape(CFG, m.planes[A]);
  }

  lemma CellThere(m: Chip, loc: Loc)
    requires Shape(CFG, m) && m.planes.Keys == {A} && OnPlane(m.planes[A], loc)
    ensures loc in m.cells && loc in m.ages && InRange(CFG, loc)
  {
    hide ListShape, SubsShape, TableShape, EntriesShape;
    assert PlaneShape(CFG, m.planes[A]);
  }

  lemma QueuedHere(m: Chip, k: nat)
    requires Shape(CFG, m) && k < |m.wQueue|
    ensures m.wQueue[k].loc.at == A && m.wQueue[k].lpn in m.entries
  {
    hide ListShape, TableShape, PlanesShape;
    assert AllWrites(m)[k] == m.wQueue[k];
    assert SubShape(CFG, AllWrites(m)[k]);
  }

  /** Nothing is out and nothing is being collected. */
  ghost predicate Quiet(q: seq<Step>, m: Chip) {
    Reached(q, m) && Rest(m) && m.erases == [] && m.cmds == map[] && !m.planes[A].eraseUsed
  }

  /** Nothing is out, and the collector is about to begin with a block. */
  ghost predicate Begun(q: seq<Step>, m: Chip, v: nat) {
    && Reached(q, m) && Rest(m) && m.planes[A].eraseUsed && m.planes[A].eraseBlock == v && |m.erases| == 1
    && m.cmds == map[m.erases[0] := Command(Erase, EraseAt(A), 0, false, None, 0)]
  }

  /** What `m'` has in common with `m` after the page `loc` was programmed. */
  ghost predicate PageAdded(m: Chip, m': Chip, loc: Loc) {
    && loc in m.cells && loc in m.ages && loc in m'.cells
    && m'.cells == m.cells[loc := m'.cells[loc]] && m'.ages == m.ages[loc := m.ages[loc] + 1]
    && m'.rHand == m.rHand && m'.wHand == m.wHand && m'.rQueue == m.rQueue
  }

  ghost predicate Places(m: Chip, l: nat) {
    && Rest(m) && l in m.entries && OnPlane(AllocPage(2, m.planes[A]), Free(m))
    && (m.entries[l].subPage != {} ==> OnPlane(AllocPage(2, m.planes[A]), m.entries[l].loc))
  }

  /** The plane after page `l` was programmed in the next free place. */
  ghost function After(m: Chip, l: nat, bits: set<nat>): Plane
    requires Places(m, l)
  {
    Landed(AllocPage(2, m.planes[A]), m.entries[l], Free(m), bits, l)
  }

  /** A write is sent and finished. */
  lemma HostWriteDone(q: seq<Step>, m: Chip, k: nat, scratch: PageBuf) returns (m': Chip)
    requires Quiet(q, m) && k < |m.wQueue| && FirstReady(m.wQueue) == k && OnPlane(m.planes[A], Free(m))
    ensures m.wQueue[k].lpn in m.entries && m.wQueue[k].lpn in m.store && Places(m, m.wQueue[k].lpn)
    ensures Free(m) in m.cells && Free(m) in m.ages && Reached(q, m')
    ensures var w := m.wQueue[k].(loc := Free(m));
            m' == m.(wQueue := Without(m.wQueue, k), nextRef := m.nextRef + 1, pending := Some(A),
                     store := m.store[w.lpn := Settled(w, m.store[w.lpn])],
                     entries := m.entries[w.lpn := Entry(w.bits, Free(m))],
                     planes := map[A := After(m, w.lpn, w.bits)], hw := m'.hw,
                     cells := m.cells[Free(m) := Overlay(m.cells[Free(m)], Transferred(w.bits), w.buf)],
                     ages := m.ages[Free(m) := m.ages[Free(m)] + 1])
    ensures m'.hw.phase == Idle && !m'.hw.timer && !m'.hw.signal && !m'.planes[A].eraseUsed
  {
    hide Inv, Shape, Guard, Defined, Next, Reached, AllocPage, Transferred, Overlay, Landed, FirstReady, Without,
         Choice, OnPlane, Settled, MayDispatch;
    var m1 := HostWriteOut(q, m, k, scratch);
    AllocUsed(m.planes[A]);
    CompleteHere(q, m1);
    WriteEnds(CFG, m1, m.nextRef, m.wQueue[k].(loc := Free(m)), 0);
    m' := Next(CFG, m1, Completes);
  }

  /** A write is sent and finished, and the plane is checked. */
  lemma HostRound(q: seq<Step>, m: Chip, k: nat, scratch: PageBuf) returns (m': Chip)
    requires Quiet(q, m) && k < |m.wQueue| && FirstReady(m.wQueue) == k && OnPlane(m.planes[A], Free(m))
    ensures m.wQueue[k].lpn in m.entries && PageAdded(m, m', Free(m))
    ensures m'.wQueue == Without(m.wQueue, k) && m.wQueue[k].lpn in m.store
    ensures var w := m.wQueue[k].(loc := Free(m)); m'.store == m.store[w.lpn := Settled(w, m.store[w.lpn])]
    ensures m'.entries == m.entries[m.wQueue[k].lpn := Entry(m.wQueue[k].bits, Free(m))]
    ensures m'.cells[Free(m)] == Overlay(m.cells[Free(m)], Transferred(m.wQueue[k].bits), m.wQueue[k].buf)
    ensures Places(m, m.wQueue[k].lpn)
    ensures var pl := After(m, m.wQueue[k].lpn, m.wQueue[k].bits);
            match Choice(CFG, pl) {
              case None => Quiet(q, m') && m'.planes[A] == pl
              case Some(v) => Begun(q, m', v) && m'.planes[A] == pl.(eraseUsed := true, eraseBlock := v)
            }
  {
    hide Inv, Shape, Guard, Defined, Next, Reached, AllocPage, Transferred, Overlay, Landed, FirstReady, Without,
         Choice, OnPlane, Settled, MayDispatch, Places, After;
    var m2 := HostWriteDone(q, m, k, scratch);
    CheckHere(q, m2, 0);
    CheckIs(CFG, m2, 0);
    m' := Checked(m2, Choice(CFG, m2.planes[A]), 0);
    ActiveHere(q, m');
  }

  /** The write is sent, and the NAND chip is done with it. */
  lemma HostWriteOut(q: seq<Step>, m: Chip, k: nat, scratch: PageBuf) returns (m': Chip)
    requires Quiet(q, m) && k < |m.wQueue| && FirstReady(m.wQueue) == k && OnPlane(m.planes[A], Free(m))
    ensures Free(m) in m.cells && Free(m) in m.ages && m' == Fire(WriteSent(CFG, m, k, 0))
    ensures Reached(q, m') && Lands(m', m.wQueue[k].(loc := Free(m)))
  {
    hide Inv, Shape, Guard, Defined, Next, Reached, AllocPage, Transferred, Overlay, FirstReady, Without, OnPlane,
         Lands;
    ReachedShape(q, m);
    QueuedHere(m, k);
    CellThere(m, Free(m));
    GuardsHere(m, 0, scratch);
    Grow(q, m, Dispatches(0, scratch, []));
    WriteGoesOut(CFG, m, k, 0, scratch);
    var m1 := WriteSent(CFG, m, k, 0);
    FireHere(q, m1);
    m' := Fire(m1);
    ReachedShape(q, m');
    LandsIs(m', m.nextRef);
  }

  lemma AllocUsed(pl: Plane)
    requires pl.active < |pl.blocks|
    ensures AllocPage(2, pl).eraseUsed == pl.eraseUsed && AllocPage(2, pl).eraseBlock == pl.eraseBlock
  {
  }

  lemma ActiveHere(q: seq<Step>, m: Chip)
    requires Reached(q, m)
    ensures m.planes.Keys == {A} && m.planes[A].active < |m.planes[A].blocks|
  {
    hide Inv, Reached, ListShape, SubsShape, TableShape, EntriesShape;
    ReachedShape(q, m);
    assert A in m.planes && PlaneShape(CFG, m.planes[A]);
  }

  lemma GuardsHere(m: Chip, id: nat, scratch: PageBuf)
    requires Rest(m)
    ensures Guard(CFG, m, Dispatches(id, scratch, []))
  {
  }

  lemma FireHere(q: seq<Step>, m: Chip)
    requires Reached(q, m) && m.hw.timer
    ensures Reached(q, Fire(m))
  {
    hide Inv, Shape, Reached;
    Grow(q, m, TimerFires);
  }

  lemma CompleteHere(q: seq<Step>, m: Chip)
    requires Reached(q, m) && m.hw.signal && m.pending.None?
    ensures Defined(CFG, m, Completes) && Reached(q, Next(CFG, m, Completes))
  {
    hide Inv, Shape, Reached, Next, Defined;
    Grow(q, m, Completes);
  }

  lemma CheckHere(q: seq<Step>, m: Chip, id: nat)
    requires Reached(q, m) && m.pending.Some?
    ensures Defined(CFG, m, Checks(id)) && Reached(q, Next(CFG, m, Checks(id)))
  {
    hide Inv, Shape, Reached, Next, Defined;
    Grow(q, m, Checks(id));
  }

  // ---------------------------------------------------------------- one block is collected

  /** The relocation `g` that the erase `e` has under way for page `k` of its block. */
  function Table(e: nat, k: nat, g: nat, op: Op, s: Sub, completed: bool, stage: nat): map<nat, Command> {
    map[g := Command(op, OfSub(s), 0, completed, Some(e), stage),
        e := Command(Erase, EraseAt(A), 0, false, Some(g), k)]
  }

  predicate HasPage(m: Chip, v: nat, k: nat) {
    && m.planes.Keys == {A} && m.planes[A].eraseBlock == v && v < |m.planes[A].blocks|
    && k < |m.planes[A].blocks[v].pages|
  }

  /** The relocation of page `k` of block `v`, as it starts. */
  function Relocated(m: Chip, v: nat, k: nat, scratch: PageBuf): Sub
    requires HasPage(m, v, k)
  {
    var page := m.planes[A].blocks[v].pages[k];
    Sub(page.lpn, page.state, scratch, Loc(A, v, k), false, map[], 0, true)
  }

  lemma CollectorReads(m: Chip, v: nat, k: nat, e: nat, scratch: PageBuf)
    requires Defined(CFG, m, Dispatches(0, scratch, [])) && Rest(m) && m.erases == [e]
    requires m.cmds == map[e := Command(Erase, EraseAt(A), 0, false, None, 0)]
    requires HasPage(m, v, k) && NextLive(m.planes[A].blocks[v].pages, 0) == k && m.planes[A].blocks[v].cnt.invalid != 2
    requires |m.planes[A].blocks[v].pages| == 2
    ensures Next(CFG, m, Dispatches(0, scratch, []))
              == m.(phase := ReadAddr, commands := [m.nextRef], nextRef := m.nextRef + 1,
                    cmds := Table(e, k, m.nextRef, Read, Relocated(m, v, k, scratch), false, 0),
                    hw := Start(m.hw, ReadAddr, Loc(A, v, k), 0))
  {
    hide NextLive, Defined, Send, Next, Shape, GetCommand;
    var m1 := m.(commands := [m.nextRef], nextRef := m.nextRef + 1,
                 cmds := Table(e, k, m.nextRef, Read, Relocated(m, v, k, scratch), false, 0));
    CollectorStarts(m, v, k, e, scratch);
    Dispatched(CFG, m, 0, scratch, m1, m.nextRef);
    SendsRead(m1, m.nextRef);
  }

  lemma CollectorStarts(m: Chip, v: nat, k: nat, e: nat, scratch: PageBuf)
    requires Defined(CFG, m, Dispatches(0, scratch, [])) && Rest(m) && m.erases == [e]
    requires m.cmds == map[e := Command(Erase, EraseAt(A), 0, false, None, 0)]
    requires HasPage(m, v, k) && NextLive(m.planes[A].blocks[v].pages, 0) == k && m.planes[A].blocks[v].cnt.invalid != 2
    requires |m.planes[A].blocks[v].pages| == 2
    ensures e != m.nextRef
    ensures GetCommand(CFG, m, 0, scratch).1 == Some(m.nextRef)
    ensures GetCommand(CFG, m, 0, scratch).0
              == m.(commands := [m.nextRef], nextRef := m.nextRef + 1,
                    cmds := Table(e, k, m.nextRef, Read, Relocated(m, v, k, scratch), false, 0))
  {
    hide NextLive, TakeHost;
    OldReference(m, e);
    hide Shape;
  }

  lemma SendsRead(m: Chip, r: nat)
    requires Shape(CFG, m) && r in m.cmds && m.cmds[r].op == Read && m.cmds[r].load.OfSub? && m.cmds[r].stage == 0
    requires m.hw.phase == Idle
    ensures Send(CFG, m, r, [], true)
              == m.(phase := ReadAddr, hw := Start(m.hw, ReadAddr, SubOf(m, r).loc, m.cmds[r].id))
  {
    hide Shape;
  }

  lemma OldReference(m: Chip, e: nat)
    requires Shape(CFG, m) && e in m.cmds
    ensures e != m.nextRef && m.nextRef !in m.cmds
  {
  }

  lemma AddressEnds(m: Chip, g: nat)
    requires Defined(CFG, m, Completes) && m.phase == ReadAddr && m.commands == [g] && m.incompletedR == []
    requires g in m.cmds && m.cmds[g].id == m.hw.id
    ensures Next(CFG, m, Completes)
              == m.(phase := Idle, commands := [], incompletedR := [g], cmds := m.cmds[g := m.cmds[g].(stage := 1)],
                    hw := m.hw.(signal := false))
  {
    hide Shape;
  }

  /** The read with its data. */
  function Brought(m: Chip, s: Sub): Sub
    requires s.loc in m.cells && s.loc in m.ages
  {
    s.(buf := Overlay(s.buf, Transferred(s.bits), m.cells[s.loc]), whole := m.ages[s.loc] == s.stamp)
  }

  lemma DataGoesOut(m: Chip, g: nat, scratch: PageBuf)
    requires Defined(CFG, m, Dispatches(0, scratch, [])) && m.incompletedR == [g]
    requires g in m.cmds && m.cmds[g].op == Read && m.cmds[g].load.OfSub? && m.cmds[g].stage == 1
    requires SubOf(m, g).loc in m.cells && SubOf(m, g).loc in m.ages
    requires m.hw.phase == ReadAddr && m.hw.latch == SubOf(m, g).loc
    ensures Next(CFG, m, Dispatches(0, scratch, []))
              == m.(phase := ReadData, cmds := m.cmds[g := m.cmds[g].(load := OfSub(Brought(m, SubOf(m, g))))],
                    hw := Start(m.hw, ReadData, SubOf(m, g).loc, m.cmds[g].id))
  {
    hide Shape, Overlay, Transferred;
  }

  lemma DataEnds(m: Chip, g: nat)
    requires Defined(CFG, m, Completes) && m.phase == ReadData && m.incompletedR == [g]
    requires g in m.cmds && m.cmds[g].id == m.hw.id && m.cmds[g].related.Some? && m.cmds[g].load.OfSub?
    ensures Next(CFG, m, Completes)
              == m.(phase := Idle, incompletedR := [], cmds := m.cmds[g := m.cmds[g].(completed := true)],
                    hw := m.hw.(signal := false))
  {
    hide Shape, MergeAll;
  }

  lemma CollectorWrites(m: Chip, e: nat, k: nat, g: nat, s: Sub, scratch: PageBuf)
    requires Defined(CFG, m, Dispatches(0, scratch, [])) && Rest(m) && m.erases == [e] && e != g && s.loc.at == A
    requires m.cmds == Table(e, k, g, Read, s, true, 1) && Free(m) in m.cells && Free(m) in m.ages
    ensures var w := s.(loc := Free(m));
            Next(CFG, m, Dispatches(0, scratch, []))
              == m.(phase := Programming, commands := [g], cmds := Table(e, k, g, Write, w, false, 0),
                    planes := map[A := AllocPage(2, m.planes[A])], hw := Start(m.hw, Programming, Free(m), 0),
                    cells := m.cells[Free(m) := Overlay(m.cells[Free(m)], Transferred(w.bits), w.buf)],
                    ages := m.ages[Free(m) := m.ages[Free(m)] + 1])
  {
    hide Shape, AllocPage, Overlay, Transferred, Defined, Send, Next, GetCommand;
    var m1 := m.(commands := [g], cmds := Table(e, k, g, Write, s, false, 0));
    CollectorTurns(m, e, k, g, s, scratch);
    Dispatched(CFG, m, 0, scratch, m1, g);
    SendsWrite(CFG, m1, g, m1.cmds[g]);
    TableWith(e, k, g, Write, s, false, 0, m1.cmds[g].(load := OfSub(s.(loc := Free(m)))));
  }

  lemma TableWith(e: nat, k: nat, g: nat, op: Op, s: Sub, completed: bool, stage: nat, c: Command)
    requires e != g && c.load.OfSub? && c.id == 0 && c.related == Some(e)
    ensures var t := Table(e, k, g, op, s, completed, stage);
            && g in t && t[g] == Command(op, OfSub(s), 0, completed, Some(e), stage)
            && t[g := c] == Table(e, k, g, c.op, c.load.sub, c.completed, c.stage)
  {
  }

  lemma CollectorTurns(m: Chip, e: nat, k: nat, g: nat, s: Sub, scratch: PageBuf)
    requires Defined(CFG, m, Dispatches(0, scratch, [])) && Rest(m) && m.erases == [e] && e != g
    requires m.cmds == Table(e, k, g, Read, s, true, 1)
    ensures GetCommand(CFG, m, 0, scratch).1 == Some(g)
    ensures GetCommand(CFG, m, 0, scratch).0 == m.(commands := [g], cmds := Table(e, k, g, Write, s, false, 0))
  {
    hide Shape, NextLive, TakeHost;
  }

  lemma RelocationEnds(m: Chip, g: nat)
    requires Defined(CFG, m, Completes) && m.phase == Programming && m.commands == [g]
    requires g in m.cmds && m.cmds[g].id == m.hw.id && m.cmds[g].related.Some? && m.cmds[g].load.OfSub?
    requires Lands(m, SubOf(m, g))
    ensures var s := SubOf(m, g);
            Next(CFG, m, Completes)
              == m.(phase := Idle, commands := [], cmds := m.cmds[g := m.cmds[g].(completed := true)],
                    entries := m.entries[s.lpn := Entry(s.bits, s.loc)],
                    planes := map[A := Landed(m.planes[A], m.entries[s.lpn], s.loc, s.bits, s.lpn)],
                    hw := m.hw.(signal := false))
  {
    hide Shape, Landed, UpdateMap;
    MapMoves(m, SubOf(m, g));
  }

  lemma EraseGoesOut(m: Chip, v: nat, e: nat, k: nat, g: nat, s: Sub, scratch: PageBuf)
    requires Defined(CFG, m, Dispatches(0, scratch, [])) && Rest(m) && m.erases == [e] && e != g
    requires m.cmds == Table(e, k, g, Write, s, true, 0)
    requires HasPage(m, v, k) && |m.planes[A].blocks[v].pages| == 2 && NextLive(m.planes[A].blocks[v].pages, k) == 2
    ensures Next(CFG, m, Dispatches(0, scratch, []))
              == m.(phase := Erasing, cmds := map[e := Command(Erase, EraseAt(A), 0, false, None, 2)],
                    hw := Start(m.hw, Erasing, Loc(A, v, 0), 0))
  {
    hide Shape, NextLive, Defined, Send, Next, GetCommand;
    var m1 := m.(cmds := map[e := Command(Erase, EraseAt(A), 0, false, None, 2)]);
    CollectorReleases(m, v, e, k, g, s, scratch);
    Dispatched(CFG, m, 0, scratch, m1, e);
    SendsErase(m1, v, e);
  }

  lemma CollectorReleases(m: Chip, v: nat, e: nat, k: nat, g: nat, s: Sub, scratch: PageBuf)
    requires Defined(CFG, m, Dispatches(0, scratch, [])) && Rest(m) && m.erases == [e] && e != g
    requires m.cmds == Table(e, k, g, Write, s, true, 0)
    requires HasPage(m, v, k) && |m.planes[A].blocks[v].pages| == 2 && NextLive(m.planes[A].blocks[v].pages, k) == 2
    ensures GetCommand(CFG, m, 0, scratch).1 == Some(e)
    ensures GetCommand(CFG, m, 0, scratch).0 == m.(cmds := map[e := Command(Erase, EraseAt(A), 0, false, None, 2)])
  {
    hide Shape, NextLive, TakeHost;
  }

  lemma SendsErase(m: Chip, v: nat, e: nat)
    requires Shape(CFG, m) && e in m.cmds && m.cmds[e].op == Erase && m.cmds[e].load == EraseAt(A) && m.hw.phase == Idle
    requires A in m.planes && m.planes[A].eraseBlock == v
    ensures Send(CFG, m, e, [], true) == m.(phase := Erasing, hw := Start(m.hw, Erasing, Loc(A, v, 0), m.cmds[e].id))
  {
    hide Shape;
    NothingScrambled(m, Loc(A, v, 0));
  }

  lemma NothingScrambled(m: Chip, loc: Loc)
    ensures Scrambled(m.cells, loc.at, loc.block, []) == m.cells && Aged(m.ages, loc.at, loc.block, []) == m.ages
  {
  }

  lemma EraseEnds(m: Chip, e: nat)
    requires Defined(CFG, m, Completes) && m.phase == Erasing && m.erases == [e] && m.hw.id == 0
    requires m.cmds == map[e := Command(Erase, EraseAt(A), 0, false, None, 2)] && m.planes.Keys == {A}
    requires m.planes[A].eraseBlock < |m.planes[A].blocks|
    ensures Next(CFG, m, Completes)
              == m.(phase := Idle, erases := [], cmds := map[], hw := m.hw.(signal := false),
                    planes := map[A := EraseBlock(2, m.planes[A], m.planes[A].eraseBlock).(eraseUsed := false)])
  {
    hide Shape, EraseBlock;
  }

  /** The first half of a relocation. */
  lemma CopyRead(q: seq<Step>, m: Chip, v: nat, k: nat, scratch: PageBuf) returns (m': Chip, g: nat, s: Sub)
    requires Begun(q, m, v) && HasPage(m, v, k) && NextLive(m.planes[A].blocks[v].pages, 0) == k
    requires m.planes[A].blocks[v].cnt.invalid != 2 && |m.planes[A].blocks[v].pages| == 2
    ensures Reached(q, m') && Rest(m') && m'.erases == m.erases && m.erases[0] != g
    ensures m'.cmds == Table(m.erases[0], k, g, Read, s, true, 1)
    ensures var page := m.planes[A].blocks[v].pages[k]; s.lpn == page.lpn && s.bits == page.state && s.loc.at == A
    ensures m' == m.(cmds := m'.cmds, nextRef := m'.nextRef, hw := m'.hw)
  {
    hide Inv, Shape, Guard, Defined, Next, Reached, Transferred, Overlay, NextLive, OnPlane, MayDispatch, Table;
    var e := m.erases[0];
    g := m.nextRef;
    ReachedShape(q, m);
    OldReference(m, e);
    SourceThere(m, v, k);
    var r := Relocated(m, v, k, scratch);
    IdleDispatches(q, m, scratch);
    CollectorReads(m, v, k, e, scratch);
    var m1 := Next(CFG, m, Dispatches(0, scratch, []));
    FireHere(q, m1);
    CompleteHere(q, Fire(m1));
    TableWith(e, k, g, Read, r, false, 0, Command(Read, OfSub(r), 0, false, Some(e), 1));
    AddressEnds(Fire(m1), g);
    var m3 := Next(CFG, Fire(m1), Completes);
    IdleDispatches(q, m3, scratch);
    s := Brought(m3, r);
    TableWith(e, k, g, Read, r, false, 1, Command(Read, OfSub(s), 0, false, Some(e), 1));
    DataGoesOut(m3, g, scratch);
    var m4 := Next(CFG, m3, Dispatches(0, scratch, []));
    FireHere(q, m4);
    CompleteHere(q, Fire(m4));
    TableWith(e, k, g, Read, s, false, 1, Command(Read, OfSub(s), 0, true, Some(e), 1));
    DataEnds(Fire(m4), g);
    m' := Next(CFG, Fire(m4), Completes);
  }

  /** The second half of a relocation. */
  lemma CopyWritten(q: seq<Step>, m: Chip, e: nat, k: nat, g: nat, s: Sub, scratch: PageBuf) returns (m': Chip)
    requires Reached(q, m) && Rest(m) && m.erases == [e] && e != g && s.loc.at == A
    requires m.cmds == Table(e, k, g, Read, s, true, 1) && OnPlane(m.planes[A], Free(m))
    ensures Places(m, s.lpn) && m'.planes == map[A := After(m, s.lpn, s.bits)]
    ensures m'.entries == m.entries[s.lpn := Entry(s.bits, Free(m))]
    ensures Reached(q, m') && Rest(m') && m'.erases == m.erases
    ensures m'.cmds == Table(e, k, g, Write, s.(loc := Free(m)), true, 0)
    ensures PageAdded(m, m', Free(m)) && m'.wQueue == m.wQueue
  {
    hide Inv, Shape, Guard, Defined, Next, Reached, AllocPage, Transferred, Overlay, Landed, NextLive, OnPlane,
         MayDispatch, Table;
    ReachedShape(q, m);
    CellThere(m, Free(m));
    IdleDispatches(q, m, scratch);
    CollectorWrites(m, e, k, g, s, scratch);
    var m1 := Next(CFG, m, Dispatches(0, scratch, []));
    var w := s.(loc := Free(m));
    FireHere(q, m1);
    ReachedShape(q, Fire(m1));
    TableWith(e, k, g, Write, w, false, 0, Command(Write, OfSub(w), 0, true, Some(e), 0));
    LandsIs(Fire(m1), g);
    CompleteHere(q, Fire(m1));
    RelocationEnds(Fire(m1), g);
    m' := Next(CFG, Fire(m1), Completes);
    ActiveHere(q, m');
  }

  /** The live page of the block is copied to the next free place. */
  lemma Relocation(q: seq<Step>, m: Chip, v: nat, k: nat, scratch: PageBuf) returns (m': Chip, g: nat, w: Sub)
    requires Begun(q, m, v) && HasPage(m, v, k) && NextLive(m.planes[A].blocks[v].pages, 0) == k
    requires m.planes[A].blocks[v].cnt.invalid != 2 && |m.planes[A].blocks[v].pages| == 2
    requires OnPlane(m.planes[A], Free(m))
    ensures var page := m.planes[A].blocks[v].pages[k];
            && Places(m, page.lpn) && m'.planes == map[A := After(m, page.lpn, page.state)]
            && m'.entries == m.entries[page.lpn := Entry(page.state, Free(m))]
    ensures Reached(q, m') && Rest(m') && m'.erases == m.erases && m.erases[0] != g
    ensures m'.cmds == Table(m.erases[0], k, g, Write, w, true, 0)
    ensures PageAdded(m, m', Free(m)) && m'.wQueue == m.wQueue
  {
    hide Shape, Reached, AllocPage, Landed, NextLive, OnPlane, Table;
    var m1: Chip;
    m1, g, w := CopyRead(q, m, v, k, scratch);
    m' := CopyWritten(q, m1, m.erases[0], k, g, w, scratch);
    w := w.(loc := Free(m));
  }

  lemma SourceThere(m: Chip, v: nat, k: nat)
    requires Shape(CFG, m) && HasPage(m, v, k)
    ensures Loc(A, v, k) in m.cells && Loc(A, v, k) in m.ages
  {
    hide Shape;
    CellThere(m, Loc(A, v, k));
  }

  lemma IdleDispatches(q: seq<Step>, m: Chip, scratch: PageBuf)
    requires Reached(q, m) && m.phase == Idle && m.pending.None?
    ensures Defined(CFG, m, Dispatches(0, scratch, [])) && Reached(q, Next(CFG, m, Dispatches(0, scratch, [])))
  {
    hide Inv, Shape, Reached, Next, Defined;
    Grow(q, m, Dispatches(0, scratch, []));
  }

  /** The block whose pages are all stale is erased. */
  lemma Erasure(q: seq<Step>, m: Chip, v: nat, k: nat, g: nat, w: Sub, scratch: PageBuf) returns (m': Chip)
    requires Reached(q, m) && Rest(m) && |m.erases| == 1 && m.erases[0] != g
    requires m.cmds == Table(m.erases[0], k, g, Write, w, true, 0)
    requires HasPage(m, v, k) && |m.planes[A].blocks[v].pages| == 2 && NextLive(m.planes[A].blocks[v].pages, k) == 2
    ensures Quiet(q, m') && m'.planes[A] == EraseBlock(2, m.planes[A], v).(eraseUsed := false)
    ensures m'.entries == m.entries && m'.cells == m.cells && m'.ages == m.ages
    ensures m'.rHand == m.rHand && m'.wHand == m.wHand && m'.rQueue == m.rQueue && m'.wQueue == m.wQueue
  {
    hide Inv, Shape, Guard, Defined, Next, Reached, EraseBlock, NextLive, OnPlane, MayDispatch, Table;
    var e := m.erases[0];
    IdleDispatches(q, m, scratch);
    EraseGoesOut(m, v, e, k, g, w, scratch);
    var m1 := Next(CFG, m, Dispatches(0, scratch, []));
    FireHere(q, m1);
    CompleteHere(q, Fire(m1));
    EraseEnds(Fire(m1), e);
    m' := Next(CFG, Fire(m1), Completes);
    ActiveHere(q, m');
  }

  // ---------------------------------------------------------------- submissions and reads

  const FULL: set<nat> := {0, 1, 2, 3}

  function At(b: nat, p: nat): Loc { Loc(A, b, p) }

  function Fill(x: bv8): PageBuf { [[x], [x], [x], [x]] }

  lemma Makes(q: seq<Step>, m: Chip, l: nat, bits: set<nat>, buf: PageBuf, scratch: PageBuf)
    requires Reached(q, m) && m.phase == Idle && l < PAGES && Within(bits)
    requires forall i :: 0 <= i < |AllWrites(m)| ==> AllWrites(m)[i].lpn != l
    ensures l in m.entries && l in m.store && Shape(CFG, m)
    ensures Reached(q + [HostWrites(l, bits, buf, scratch)], SubmitWrite(CFG, m, l, bits, buf, scratch))
  {
    hide Inv, Reached, Within, PlanesShape, TableShape, ListShape, SubsShape;
    ReachedShape(q, m);
    var st := HostWrites(l, bits, buf, scratch);
    Grow(q, m, st);
  }

  lemma ListsQueue(q: seq<Step>, m: Chip)
    requires Reached(q, m)
    ensures Reached(q, QueueWrites(m)) && Reached(q, QueueReads(m))
  {
    hide Inv, Reached, Shape;
    Grow(q, m, QueuesWrites);
    Grow(q, m, QueuesReads);
  }

  lemma FullPage()
    ensures Within(FULL) && Transferred(FULL) == FULL
  {
    assert FULL == Span(0, 4);
    RunIsWhole(FULL);
  }

  lemma Begins(m: Chip)
    requires Init(CFG, m)
    ensures Reached([], m)
  {
    InitClear(m);
    hide Init, Clear;
    assert RunTo([], [m], [], 0, m);
  }

  lemma InitClear(m: Chip)
    requires Init(CFG, m)
    ensures Clear(m)
  {
  }

  lemma ReadIsTaken(m: Chip, s: Sub, scratch: PageBuf)
    requires Defined(CFG, m, Dispatches(0, scratch, [])) && m.erases == [] && m.cmds == map[] && m.commands == []
    requires m.incompletedR == [] && m.rQueue == [s]
    ensures GetCommand(CFG, m, 0, scratch).1 == Some(m.nextRef)
    ensures GetCommand(CFG, m, 0, scratch).0
              == m.(rQueue := [], commands := [m.nextRef], nextRef := m.nextRef + 1,
                    cmds := map[m.nextRef := Command(Read, OfSub(s), 0, false, None, 0)])
  {
    hide Shape, FirstReady;
  }

  lemma ReadGoesOut(m: Chip, s: Sub, scratch: PageBuf)
    requires Defined(CFG, m, Dispatches(0, scratch, [])) && m.erases == [] && m.cmds == map[] && m.commands == []
    requires m.incompletedR == [] && m.rQueue == [s] && m.hw.phase == Idle
    ensures Next(CFG, m, Dispatches(0, scratch, []))
              == m.(rQueue := [], commands := [m.nextRef], nextRef := m.nextRef + 1, phase := ReadAddr,
                    cmds := map[m.nextRef := Command(Read, OfSub(s), 0, false, None, 0)],
                    hw := Start(m.hw, ReadAddr, s.loc, 0))
  {
    hide Shape, Defined, Send, Next, GetCommand;
    ReadIsTaken(m, s, scratch);
    var m1 := m.(rQueue := [], commands := [m.nextRef], nextRef := m.nextRef + 1,
                 cmds := map[m.nextRef := Command(Read, OfSub(s), 0, false, None, 0)]);
    Dispatched(CFG, m, 0, scratch, m1, m.nextRef);
    SendsRead(m1, m.nextRef);
  }

  /** The read in hand is queued, sent, and brings what its page holds by now. */
  lemma ReadsBack(q: seq<Step>, m: Chip, s: Sub) returns (m': Chip)
    requires Quiet(q, m) && m.rHand == [s] && s.loc in m.cells && s.loc in m.ages
    ensures Reached(q, m') && m'.phase == ReadData && HostOut(m') == Some(Brought(m, s))
    ensures m'.incompletedR == [m.nextRef] && m'.hw.timer && m'.hw.phase == ReadData && m'.hw.id == 0 && !m'.hw.signal
    ensures m'.cmds == map[m.nextRef := Command(Read, OfSub(Brought(m, s)), 0, false, None, 1)]
    ensures m' == m.(phase := ReadData, rHand := [], incompletedR := m'.incompletedR, cmds := m'.cmds,
                     nextRef := m'.nextRef, hw := m'.hw)
  {
    hide Reached, Shape, Inv, Defined, Next, Guard, Overlay, Transferred;
    var scratch := s.buf;
    ListsQueue(q, m);
    var m1 := QueueReads(m);
    assert m1.rQueue == [s];
    IdleDispatches(q, m1, scratch);
    ReadGoesOut(m1, s, scratch);
    var m2 := Next(CFG, m1, Dispatches(0, scratch, []));
    FireHere(q, m2);
    CompleteHere(q, Fire(m2));
    AddressEnds(Fire(m2), m.nextRef);
    var m3 := Next(CFG, Fire(m2), Completes);
    IdleDispatches(q, m3, scratch);
    DataGoesOut(m3, m.nextRef, scratch);
    m' := Next(CFG, m3, Dispatches(0, scratch, []));
  }
}
