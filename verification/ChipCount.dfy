/** Counting live pages: a plane never holds more of them than there are logical pages
    striped onto it. */
module ChipCount {
  import opened Flash
  import opened Layout
  import opened Chip
  import opened ChipInv

  function RowOf(b: nat, ps: set<nat>): set<Cell> {
    set p | p in ps :: Cell(b, p)
  }

  lemma {:induction false} CardOfRow(b: nat, ps: set<nat>)
    ensures |RowOf(b, ps)| == |ps|
  {
    if ps != {} {
      var p :| p in ps;
      CardOfRow(b, ps - {p});
      assert RowOf(b, ps) == RowOf(b, ps - {p}) + {Cell(b, p)};
    }
  }

  /** The live pages of the first `n` blocks. */
  function LiveCells(blocks: seq<Block>, n: nat): (r: set<Cell>)
    requires n <= |blocks|
    ensures forall c :: c in r <==>
              c.Cell? && c.block < n && c.page < |blocks[c.block].pages| && blocks[c.block].pages[c.page].state != {}
  {
    if n == 0 then {} else LiveCells(blocks, n - 1) + RowOf(n - 1, Live(blocks[n - 1].pages))
  }

  lemma {:induction false} ValidIsLive(P: nat, pl: Plane, f: Cell, n: nat)
    requires BlocksExact(P, pl, f) && n <= |pl.blocks|
    ensures Total(BlockCounts(pl.blocks)[..n]).valid == |LiveCells(pl.blocks, n)| + One(f.Cell? && f.block < n)
  {
    if n > 0 {
      ValidIsLive(P, pl, f, n - 1);
      assert BlockCounts(pl.blocks)[..n][..n - 1] == BlockCounts(pl.blocks)[..n - 1];
      assert BlockExact(P, pl.blocks[n - 1], BusyIn(f, n - 1));
      CardOfRow(n - 1, Live(pl.blocks[n - 1].pages));
      assert LiveCells(pl.blocks, n - 1) !! RowOf(n - 1, Live(pl.blocks[n - 1].pages));
    }
  }

  /** An injection does not lose elements. */
  lemma {:induction false} InjectionBound(s: set<Cell>, f: map<Cell, nat>, t: set<nat>)
    requires forall c :: c in s ==> c in f && f[c] in t
    requires forall c, d :: c in s && d in s && f[c] == f[d] ==> c == d
    ensures |s| <= |t|
  {
    if s != {} {
      var c :| c in s;
      InjectionBound(s - {c}, f, t - {f[c]});
    }
  }

  lemma ValidOfPlane(B: nat, P: nat, pl: Plane, f: Cell)
    requires PlaneExact(B, P, pl, f)
    ensures |pl.blocks| == B && pl.cnt.valid == |LiveCells(pl.blocks, B)| + One(f.Cell?)
  {
    hide BlockExact, LiveCells;
    ValidIsLive(P, pl, f, B);
    assert BlockCounts(pl.blocks)[..B] == BlockCounts(pl.blocks);
  }

  lemma LiveBound(cfg: Config, entries: map<nat, Entry>, planes: map<PlaneAddr, Plane>, a: PlaneAddr)
    requires ConfigShape(cfg) && PlanesShape(cfg, planes) && a in planes && |planes[a].blocks| == cfg.blocks
    requires MapForward(cfg, entries, planes) && MapBackward(cfg, entries, planes)
    ensures |LiveCells(planes[a].blocks, cfg.blocks)| <= |Homed(cfg, a)|
  {
    var pl := planes[a];
    var s := LiveCells(pl.blocks, cfg.blocks);
    var names := map c | c in s :: pl.blocks[c.block].pages[c.page].lpn;
    forall c | c in s ensures names[c] in Homed(cfg, a) && names[c] in entries
        && entries[names[c]].loc == Loc(a, c.block, c.page) {
      var loc := Loc(a, c.block, c.page);
      assert InRange(cfg, loc);
      assert PageOf(planes, loc).state != {};
    }
    InjectionBound(s, names, Homed(cfg, a));
  }

  /** A plane's valid counter is at most the number of its logical pages, plus the page
      being programmed. */
  lemma ValidBound(cfg: Config, entries: map<nat, Entry>, planes: map<PlaneAddr, Plane>, f: Option<Loc>, a: PlaneAddr)
    requires ConfigShape(cfg) && PlanesShape(cfg, planes) && Exact(cfg, planes, f) && a in planes
    requires MapForward(cfg, entries, planes) && MapBackward(cfg, entries, planes)
    ensures planes[a].cnt.valid <= |Homed(cfg, a)| + One(CellAt(f, a).Cell?)
  {
    hide PlaneExact, MapForward, MapBackward;
    assert PlaneExact(cfg.blocks, cfg.pages, planes[a], CellAt(f, a));
    ValidOfPlane(cfg.blocks, cfg.pages, planes[a], CellAt(f, a));
    LiveBound(cfg, entries, planes, a);
  }

  // ---------------------------------------------------------------- what a low plane must contain

  /** In a plane that runs low, the counters force stale pages into full blocks. */
  lemma StaleBound(cfg: Config, pl: Plane, f: Cell, k: bool)
    requires PlaneExact(cfg.blocks, cfg.pages, pl, f)
    requires forall b :: 0 <= b < cfg.blocks && pl.blocks[b].cnt.free == 0 ==> pl.blocks[b].cnt.invalid <= One(k)
    ensures pl.cnt.free + pl.cnt.valid >= Cap(cfg.blocks, cfg.pages) - (if k then cfg.blocks
            else 0) - (cfg.pages - 1 - One(k))
  {
    FewStale(cfg.blocks, cfg.pages, pl, f, cfg.blocks, k);
    assert BlockCounts(pl.blocks)[..cfg.blocks] == BlockCounts(pl.blocks);
    PlaneCountersNatural(cfg.pages, pl.blocks, f);
  }
}
