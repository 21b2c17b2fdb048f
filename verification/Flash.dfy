/** Pages, blocks and planes: the bookkeeping a plane keeps about its pages, and the
    four operations that change it. */
module Flash {

  datatype Option<+T> = None | Some(value: T)

  /** The three page counters that every level of the device keeps. */
  datatype Counts = Counts(free: int, valid: int, invalid: int)

  function Plus(a: Counts, b: Counts): Counts {
    Counts(a.free + b.free, a.valid + b.valid, a.invalid + b.invalid)
  }

  function Minus(a: Counts, b: Counts): Counts {
    Counts(a.free - b.free, a.valid - b.valid, a.invalid - b.invalid)
  }

  const ZERO := Counts(0, 0, 0)

  function Total(cs: seq<Counts>): Counts {
    if cs == [] then ZERO else Plus(Total(cs[..|cs| - 1]), cs[|cs| - 1])
  }

  lemma {:induction false} TotalUpdate(cs: seq<Counts>, i: nat, c: Counts)
    requires i < |cs|
    ensures Total(cs[i := c]) == Plus(Total(cs), Minus(c, cs[i]))
  {
    var n := |cs| - 1;
    if i == n {
      assert cs[i := c][..n] == cs[..n];
    } else {
      TotalUpdate(cs[..n], i, c);
      assert cs[i := c][..n] == cs[..n][i := c];
    }
  }

  /** A page-table entry: the live sectors of the page (empty when the page is free or
      stale) and the logical page last programmed there. */
  datatype Page = Page(state: set<nat>, lpn: nat)

  datatype Block = Block(cnt: Counts, startWrite: nat, pages: seq<Page>)

  datatype Plane = Plane(cnt: Counts, active: nat, eraseUsed: bool, eraseBlock: nat, blocks: seq<Block>)

  /** The page of a plane that a program in flight is writing, if any. */
  datatype Cell = NoCell | Cell(block: nat, page: nat)

  function BusyIn(f: Cell, b: nat): Option<nat> {
    if f.Cell? && f.block == b then Some(f.page) else None
  }

  function Live(pages: seq<Page>): set<nat> {
    set p: nat | p < |pages| && pages[p].state != {}
  }

  function One(b: bool): nat { if b then 1 else 0 }

  /** What the counters of a block mean. */
  ghost predicate BlockExact(P: nat, b: Block, busy: Option<nat>) {
    && |b.pages| == P
    && b.startWrite <= P
    && b.cnt.free == P - b.startWrite
    && b.cnt.valid == |Live(b.pages)| + One(busy.Some?)
    && b.cnt.invalid == b.startWrite - b.cnt.valid
    && (forall p :: b.startWrite <= p < P ==> b.pages[p].state == {})
    && (busy.Some? ==> busy.value < b.startWrite && b.pages[busy.value].state == {})
  }

  function BlockCounts(blocks: seq<Block>): (cs: seq<Counts>)
    ensures |cs| == |blocks|
    ensures forall i :: 0 <= i < |cs| ==> cs[i] == blocks[i].cnt
  {
    seq(|blocks|, i requires 0 <= i < |blocks| => blocks[i].cnt)
  }

  ghost predicate BlocksExact(P: nat, pl: Plane, f: Cell) {
    forall b :: 0 <= b < |pl.blocks| ==> BlockExact(P, pl.blocks[b], BusyIn(f, b))
  }

  /** What a plane keeps true at all times; `f` is the page being programmed. Only the
      active block may be partly written, and it always has a free page. */
  ghost predicate PlaneExact(B: nat, P: nat, pl: Plane, f: Cell) {
    && |pl.blocks| == B
    && pl.active < B
    && pl.blocks[pl.active].startWrite < P
    && (forall b :: 0 <= b < B && b != pl.active ==> pl.blocks[b].startWrite == 0 || pl.blocks[b].startWrite == P)
    && BlocksExact(P, pl, f)
    && pl.cnt == Total(BlockCounts(pl.blocks))
    && (f.Cell? ==> f.block < B)
  }

  lemma BlocksTotalUpdate(blocks: seq<Block>, i: nat, b: Block)
    requires i < |blocks|
    ensures Total(BlockCounts(blocks[i := b])) == Plus(Total(BlockCounts(blocks)), Minus(b.cnt, blocks[i].cnt))
  {
    TotalUpdate(BlockCounts(blocks), i, b.cnt);
    assert BlockCounts(blocks[i := b]) == BlockCounts(blocks)[i := b.cnt];
  }

  /** Replacing one block by another that is exact keeps the plane exact, provided the
      plane's counters follow. */
  lemma ReplaceBlock(B: nat, P: nat, pl: Plane, f: Cell, f': Cell, i: nat, blk: Block)
    requires PlaneExact(B, P, pl, f) && i < B
    requires BlockExact(P, blk, BusyIn(f', i))
    requires if i == pl.active then blk.startWrite < P else blk.startWrite == 0 || blk.startWrite == P
    requires forall j :: 0 <= j < B && j != i ==> BusyIn(f', j) == BusyIn(f, j)
    requires f'.Cell? ==> f'.block < B
    ensures PlaneExact(B, P, pl.(cnt := Plus(pl.cnt, Minus(blk.cnt, pl.blocks[i].cnt)),
            blocks := pl.blocks[i := blk]), f')
  {
    hide BlockExact, BusyIn, Total, BlockCounts;
    BlocksTotalUpdate(pl.blocks, i, blk);
    forall j | 0 <= j < B ensures BlockExact(P, pl.blocks[i := blk][j], BusyIn(f', j)) {
      assert BlockExact(P, pl.blocks[j], BusyIn(f, j));
    }
  }

  // ---------------------------------------------------------------- counting pages

  lemma {:induction false} CardOfRange(s: set<nat>, n: nat)
    requires forall x :: x in s ==> x < n
    ensures |s| <= n
  {
    if n == 0 {
      assert s == {};
    } else {
      CardOfRange(s - {n - 1}, n - 1);
    }
  }

  /** The counters of a block are never negative, so no unsigned counter wraps. */
  lemma BlockCountersNatural(P: nat, b: Block, busy: Option<nat>)
    requires BlockExact(P, b, busy)
    ensures 0 <= b.cnt.free && 0 <= b.cnt.valid && 0 <= b.cnt.invalid
    ensures b.cnt.free + b.cnt.valid + b.cnt.invalid == P
  {
    var used := Live(b.pages) + (if busy.Some? then {busy.value} else {});
    CardOfRange(used, b.startWrite);
  }

  /** The number of pages in `n` blocks of `P` pages. */
  function Cap(n: nat, P: nat): nat {
    if n == 0 then 0 else Cap(n - 1, P) + P
  }

  lemma {:induction false} PlaneCountersNatural(P: nat, blocks: seq<Block>, f: Cell)
    requires forall b :: 0 <= b < |blocks| ==> BlockExact(P, blocks[b], BusyIn(f, b))
    ensures var c := Total(BlockCounts(blocks)); c.free + c.valid + c.invalid == Cap(|blocks|, P)
    ensures var c := Total(BlockCounts(blocks)); 0 <= c.free && 0 <= c.valid && 0 <= c.invalid
  {
    if blocks == [] {
    } else {
      var n := |blocks| - 1;
      assert BlockCounts(blocks)[..n] == BlockCounts(blocks[..n]);
      PlaneCountersNatural(P, blocks[..n], f);
      BlockCountersNatural(P, blocks[n], BusyIn(f, n));
    }
  }

  // ---------------------------------------------------------------- allocation

  /** The round-robin search for a fully free block, from block `i` on; `n` blocks are
      still to be looked at. Answers |blocks| when there is none. */
  function FreeBlockFrom(blocks: seq<Block>, P: nat, i: nat, n: nat): (r: nat)
    requires i < |blocks| && n <= |blocks|
    ensures r <= |blocks|
    ensures r < |blocks| ==> blocks[r].cnt.free == P
    decreases n
  {
    if n == 0 then |blocks|
    else if blocks[i].cnt.free == P then i
    else FreeBlockFrom(blocks, P, if i + 1 == |blocks| then 0 else i + 1, n - 1)
  }

  /** `n` steps of the round-robin walk from `i`. */
  function Walk(len: nat, i: nat, n: nat): nat {
    if i + n < len then i + n else i + n - len
  }

  lemma {:induction false} FreeBlockFound(blocks: seq<Block>, P: nat, i: nat, n: nat, d: nat)
    requires i < |blocks| && d < n <= |blocks|
    requires blocks[Walk(|blocks|, i, d)].cnt.free == P
    ensures FreeBlockFrom(blocks, P, i, n) < |blocks|
    decreases n
  {
    if blocks[i].cnt.free != P {
      FreeBlockFound(blocks, P, if i + 1 == |blocks| then 0 else i + 1, n - 1, d - 1);
    }
  }

  /** Block `b` comes `d` steps after block `a` in turn, is fully free, and none before it is. */
  ghost predicate NextInTurn(blocks: seq<Block>, P: nat, a: nat, b: nat, d: nat)
    requires a < |blocks|
  {
    && d < |blocks| && b == Walk(|blocks|, a, d) && blocks[b].cnt.free == P
    && forall e :: 0 <= e < d ==> blocks[Walk(|blocks|, a, e)].cnt.free != P
  }

  /** The search stops at the first fully free block in turn. */
  lemma {:induction false} SearchOrder(blocks: seq<Block>, P: nat, i: nat, n: nat) returns (d: nat)
    requires i < |blocks| && n <= |blocks| && FreeBlockFrom(blocks, P, i, n) < |blocks|
    ensures d < n && NextInTurn(blocks, P, i, FreeBlockFrom(blocks, P, i, n), d)
    decreases n
  {
    if blocks[i].cnt.free == P {
      d := 0;
    } else {
      var next := if i + 1 == |blocks| then 0 else i + 1;
      var d1 := SearchOrder(blocks, P, next, n - 1);
      d := d1 + 1;
      forall e | 0 <= e < d ensures blocks[Walk(|blocks|, i, e)].cnt.free != P {
        if e > 0 { assert Walk(|blocks|, i, e) == Walk(|blocks|, next, e - 1); }
      }
    }
  }

  /** Allocating the next page of the active block: the block and page handed out are
      `pl.active` and its `startWrite`. */
  function AllocPage(P: nat, pl: Plane): (r: Plane)
    requires pl.active < |pl.blocks|
    ensures |r.blocks| == |pl.blocks|
  {
    var b := pl.active;
    var blk := pl.blocks[b];
    var blk' := blk.(cnt := Counts(blk.cnt.free - 1, blk.cnt.valid + 1, blk.cnt.invalid),
        startWrite := blk.startWrite + 1);
    var blocks' := pl.blocks[b := blk'];
    pl.(cnt := Counts(pl.cnt.free - 1, pl.cnt.valid + 1, pl.cnt.invalid),
        blocks := blocks',
        active := if blk'.cnt.free == 0 then FreeBlockFrom(blocks', P, b, |blocks'|) else b)
  }

  function NextCell(pl: Plane): Cell
    requires pl.active < |pl.blocks|
  {
    Cell(pl.active, pl.blocks[pl.active].startWrite)
  }

  /** When every block but `a` is full, all the free pages are in `a`. */
  lemma {:induction false} FreeOnlyIn(P: nat, blocks: seq<Block>, a: nat)
    requires P > 0
    requires forall b :: 0 <= b < |blocks| && b != a ==> blocks[b].cnt.free == 0
    ensures Total(BlockCounts(blocks)).free == if a < |blocks| then blocks[a].cnt.free else 0
  {
    if blocks != [] {
      var n := |blocks| - 1;
      assert BlockCounts(blocks)[..n] == BlockCounts(blocks[..n]);
      FreeOnlyIn(P, blocks[..n], a);
    }
  }

  /** The unguarded search of an allocation ends whenever the plane has two free pages left.
      While the active block has room it stays active; when it is full the next block in turn
      after it that is fully free becomes active. */
  lemma SearchEnds(B: nat, P: nat, pl: Plane)
    requires PlaneExact(B, P, pl, NoCell) && pl.cnt.free >= 2
    ensures AllocPage(P, pl).active < B
    ensures AllocPage(P, pl).blocks[AllocPage(P, pl).active].startWrite < P
    ensures AllocPage(P, pl).active != pl.active ==> AllocPage(P, pl).blocks[AllocPage(P, pl).active].startWrite == 0
    ensures pl.blocks[pl.active].startWrite + 1 < P ==> AllocPage(P, pl).active == pl.active
    ensures pl.blocks[pl.active].startWrite + 1 == P ==>
              exists d: nat :: 0 < d < B
                && NextInTurn(AllocPage(P, pl).blocks, P, pl.active, AllocPage(P, pl).active, d)
  {
    var a := pl.active;
    assert BlockExact(P, pl.blocks[a], BusyIn(NoCell, a));
    if pl.blocks[a].startWrite + 1 == P {
      if forall b :: 0 <= b < B && b != a ==> pl.blocks[b].startWrite == P {
        forall b | 0 <= b < B && b != a ensures pl.blocks[b].cnt.free == 0 {
          assert BlockExact(P, pl.blocks[b], BusyIn(NoCell, b));
        }
        FreeOnlyIn(P, pl.blocks, a);
        assert false;
      }
      var b: nat :| b < B && b != a && pl.blocks[b].startWrite == 0;
      assert BlockExact(P, pl.blocks[b], BusyIn(NoCell, b));
      var blocks' := AllocPage(P, pl).blocks;
      var d := if b > a then b - a else b + B - a;
      assert Walk(B, a, d) == b;
      FreeBlockFound(blocks', P, a, B, d);
      var f := AllocPage(P, pl).active;
      assert BlockExact(P, pl.blocks[f], BusyIn(NoCell, f));
      var e := SearchOrder(blocks', P, a, B);
      assert Walk(B, a, 0) == a;
    }
  }

  lemma AllocKeepsExact(B: nat, P: nat, pl: Plane)
    requires PlaneExact(B, P, pl, NoCell) && pl.cnt.free >= 2
    ensures var c := NextCell(pl);
            && c.page < P && pl.blocks[c.block].pages[c.page].state == {}
            && PlaneExact(B, P, AllocPage(P, pl), c)
            && AllocPage(P, pl).cnt == Plus(pl.cnt, Counts(-1, 1, 0))
  {
    var a := pl.active;
    var c := NextCell(pl);
    var pl' := AllocPage(P, pl);
    SearchEnds(B, P, pl);
    assert BlockExact(P, pl.blocks[a], BusyIn(NoCell, a));
    BlocksTotalUpdate(pl.blocks, a, pl'.blocks[a]);
    forall b | 0 <= b < B ensures BlockExact(P, pl'.blocks[b], BusyIn(c, b)) {
      assert BlockExact(P, pl.blocks[b], BusyIn(NoCell, b));
    }
  }

  // ---------------------------------------------------------------- commit, invalidate, erase

  function SetPage(pl: Plane, b: nat, p: nat, page: Page): (r: Plane)
    requires b < |pl.blocks| && p < |pl.blocks[b].pages|
    ensures |r.blocks| == |pl.blocks| && |r.blocks[b].pages| == |pl.blocks[b].pages|
  {
    var blk := pl.blocks[b];
    pl.(blocks := pl.blocks[b := blk.(pages := blk.pages[p := page])])
  }

  /** The page programmed at (b, p) becomes the home of `lpn`. */
  function CommitPage(pl: Plane, b: nat, p: nat, bits: set<nat>, lpn: nat): (r: Plane)
    requires b < |pl.blocks| && p < |pl.blocks[b].pages|
    ensures |r.blocks| == |pl.blocks| && |r.blocks[b].pages| == |pl.blocks[b].pages|
  {
    SetPage(pl, b, p, Page(bits, lpn))
  }

  const STALE := Counts(0, -1, 1)

  function InvalidatePage(pl: Plane, b: nat, p: nat): (r: Plane)
    requires b < |pl.blocks| && p < |pl.blocks[b].pages|
    ensures |r.blocks| == |pl.blocks| && |r.blocks[b].pages| == |pl.blocks[b].pages|
  {
    var blk := pl.blocks[b];
    var blk' := blk.(cnt := Plus(blk.cnt, STALE), pages := blk.pages[p := blk.pages[p].(state := {})]);
    pl.(cnt := Plus(pl.cnt, STALE), blocks := pl.blocks[b := blk'])
  }

  function Blank(pages: seq<Page>): (r: seq<Page>)
    ensures |r| == |pages|
    ensures forall p :: 0 <= p < |r| ==> r[p] == pages[p].(state := {})
  {
    seq(|pages|, p requires 0 <= p < |pages| => pages[p].(state := {}))
  }

  /** Erasing a block: the plane's counters move a whole block from invalid to free. */
  function EraseBlock(P: nat, pl: Plane, b: nat): (r: Plane)
    requires b < |pl.blocks|
    ensures |r.blocks| == |pl.blocks|
  {
    pl.(cnt := Plus(pl.cnt, Counts(P, 0, 0 - P)),
        blocks := pl.blocks[b := Block(Counts(P, 0, 0), 0, Blank(pl.blocks[b].pages))])
  }

  lemma CommitBlockExact(P: nat, b: Block, p: nat, page: Page)
    requires BlockExact(P, b, Some(p)) && page.state != {}
    ensures BlockExact(P, b.(pages := b.pages[p := page]), None)
  {
    assert Live(b.pages[p := page]) == Live(b.pages) + {p};
  }

  lemma CommitKeepsExact(B: nat, P: nat, pl: Plane, f: Cell, bits: set<nat>, lpn: nat)
    requires f.Cell? && PlaneExact(B, P, pl, f) && bits != {}
    requires f.page < |pl.blocks[f.block].pages|
    ensures PlaneExact(B, P, CommitPage(pl, f.block, f.page, bits, lpn), NoCell)
    ensures CommitPage(pl, f.block, f.page, bits, lpn).cnt == pl.cnt
  {
    var blk := pl.blocks[f.block];
    assert BlockExact(P, blk, BusyIn(f, f.block));
    CommitBlockExact(P, blk, f.page, Page(bits, lpn));
    ReplaceBlock(B, P, pl, f, NoCell, f.block, blk.(pages := blk.pages[f.page := Page(bits, lpn)]));
  }

  lemma InvalidateBlockExact(P: nat, b: Block, busy: Option<nat>, p: nat)
    requires BlockExact(P, b, busy) && p < P && b.pages[p].state != {}
    ensures BlockExact(P, b.(cnt := Plus(b.cnt, STALE), pages := b.pages[p := b.pages[p].(state := {})]), busy)
  {
    assert Live(b.pages[p := b.pages[p].(state := {})]) == Live(b.pages) - {p};
  }

  lemma InvalidateKeepsExact(B: nat, P: nat, pl: Plane, f: Cell, b: nat, p: nat)
    requires PlaneExact(B, P, pl, f)
    requires b < B && p < |pl.blocks[b].pages| && pl.blocks[b].pages[p].state != {}
    ensures PlaneExact(B, P, InvalidatePage(pl, b, p), f)
  {
    assert BlockExact(P, pl.blocks[b], BusyIn(f, b));
    InvalidateBlockExact(P, pl.blocks[b], BusyIn(f, b), p);
    ReplaceBlock(B, P, pl, f, f, b, InvalidatePage(pl, b, p).blocks[b]);
  }

  /** A full block without live pages holds nothing but stale pages. */
  lemma DeadBlock(P: nat, b: Block)
    requires BlockExact(P, b, None) && b.startWrite == P
    requires forall p :: 0 <= p < P ==> b.pages[p].state == {}
    ensures b.cnt == Counts(0, 0, P)
  {
    assert Live(b.pages) == {};
  }

  /** And the other way round. */
  lemma AllStale(P: nat, b: Block, busy: Option<nat>)
    requires BlockExact(P, b, busy) && b.cnt.invalid == P
    ensures busy.None? && b.startWrite == P && b.cnt == Counts(0, 0, P)
    ensures forall p :: 0 <= p < P ==> b.pages[p].state == {}
  {
    assert |Live(b.pages)| == 0;
    forall p: nat | p < P ensures b.pages[p].state == {} {
      if p in Live(b.pages) { assert false; }
    }
  }

  /** Erasing is exact only because the block is known to be all stale: the plane's
      counters are changed blindly. */
  lemma EraseKeepsExact(B: nat, P: nat, pl: Plane, f: Cell, b: nat)
    requires P > 0 && PlaneExact(B, P, pl, f)
    requires b < B && pl.blocks[b].cnt == Counts(0, 0, P)
    ensures PlaneExact(B, P, EraseBlock(P, pl, b), f)
  {
    assert BlockExact(P, pl.blocks[b], BusyIn(f, b));
    assert Live(Blank(pl.blocks[b].pages)) == {};
    ReplaceBlock(B, P, pl, f, f, b, EraseBlock(P, pl, b).blocks[b]);
  }

  // ---------------------------------------------------------------- choosing a victim

  predicate Collectable(b: Block) {
    b.cnt.free == 0 && b.cnt.invalid != 0
  }

  /** The greedy choice among the first `n` blocks. */
  function Victim(blocks: seq<Block>, n: nat): (r: Option<nat>)
    requires n <= |blocks|
    ensures r.Some? ==> r.value < n && Collectable(blocks[r.value])
    ensures r.Some? ==> forall b :: 0 <= b < n && Collectable(blocks[b]) ==>
            blocks[b].cnt.invalid <= blocks[r.value].cnt.invalid
    ensures r.None? ==> forall b :: 0 <= b < n ==> !Collectable(blocks[b])
  {
    if n == 0 then None
    else
      var t := Victim(blocks, n - 1);
      var b := blocks[n - 1];
      if Collectable(b) && (t.None? || b.cnt.invalid > blocks[t.value].cnt.invalid) then Some(n - 1) else t
  }

  /** Of several blocks with as many stale pages the first is chosen. */
  lemma {:induction false} VictimIsFirst(blocks: seq<Block>, n: nat)
    requires n <= |blocks| && Victim(blocks, n).Some?
    ensures forall b :: 0 <= b < Victim(blocks, n).value && Collectable(blocks[b]) ==>
              blocks[b].cnt.invalid < blocks[Victim(blocks, n).value].cnt.invalid
  {
    if n > 0 && Victim(blocks, n - 1).Some? { VictimIsFirst(blocks, n - 1); }
  }

  /** When no full block has more than `k` stale pages, the plane has few of them: the
      active block is the only other one that may hold any. */
  lemma {:induction false} FewStale(B: nat, P: nat, pl: Plane, f: Cell, n: nat, k: bool)
    requires PlaneExact(B, P, pl, f) && n <= B
    requires forall b :: 0 <= b < n && pl.blocks[b].cnt.free == 0 ==> pl.blocks[b].cnt.invalid <= One(k)
    ensures Total(BlockCounts(pl.blocks)[..n]).invalid <= (if k then n else 0) + (if pl.active < n
            then P - 1 - One(k) else 0)
  {
    if n > 0 {
      FewStale(B, P, pl, f, n - 1, k);
      assert BlockCounts(pl.blocks)[..n][..n - 1] == BlockCounts(pl.blocks)[..n - 1];
      assert BlockExact(P, pl.blocks[n - 1], BusyIn(f, n - 1));
      BlockCountersNatural(P, pl.blocks[n - 1], BusyIn(f, n - 1));
    }
  }
}
