/** The page counters of dies, chips and channels: what the driver's own audit compares,
    and why moving all four levels together keeps it silent. */
module Counters {
  import opened Flash
  import opened Layout
  import opened Addressing

  datatype Tree = Tree(dies: map<DieAddr, Counts>, chips: map<ChipAddr, Counts>, chans: map<nat, Counts>)

  /** f(0) + ... + f(n - 1). */
  function Sum(f: nat -> Counts, n: nat): Counts {
    if n == 0 then ZERO else Plus(Sum(f, n - 1), f(n - 1))
  }

  /** What is summed up for a die, a chip and a channel. */
  function DieRow(f: PlaneAddr -> Counts, d: DieAddr): nat -> Counts {
    (p: nat) => f(PlaneAddr(d.channel, d.chip, d.die, p))
  }

  function ChipRow(g: Geometry, f: PlaneAddr -> Counts, c: ChipAddr): nat -> Counts {
    (d: nat) => DieSum(g, f, DieAddr(c.channel, c.chip, d))
  }

  function ChanRow(g: Geometry, f: PlaneAddr -> Counts, i: nat): nat -> Counts {
    (c: nat) => ChipSum(g, f, ChipAddr(i, c))
  }

  function DieSum(g: Geometry, f: PlaneAddr -> Counts, d: DieAddr): Counts {
    Sum(DieRow(f, d), g.planes)
  }

  function ChipSum(g: Geometry, f: PlaneAddr -> Counts, c: ChipAddr): Counts {
    Sum(ChipRow(g, f, c), g.dies)
  }

  function ChanSum(g: Geometry, f: PlaneAddr -> Counts, i: nat): Counts {
    Sum(ChanRow(g, f, i), g.chips)
  }

  predicate HasDie(g: Geometry, d: DieAddr) { d.channel < g.channels && d.chip < g.chips && d.die < g.dies }

  predicate HasChip(g: Geometry, c: ChipAddr) { c.channel < g.channels && c.chip < g.chips }

  function AllDies(g: Geometry): set<DieAddr> {
    set c: nat, k: nat, d: nat | c < g.channels && k < g.chips && d < g.dies :: DieAddr(c, k, d)
  }

  function AllChips(g: Geometry): set<ChipAddr> {
    set c: nat, k: nat | c < g.channels && k < g.chips :: ChipAddr(c, k)
  }

  /** Every counter above the planes is the sum of the planes below it. */
  ghost predicate Agree(g: Geometry, f: PlaneAddr -> Counts, t: Tree) {
    && (forall d :: HasDie(g, d) ==> d in t.dies && t.dies[d] == DieSum(g, f, d))
    && (forall c :: HasChip(g, c) ==> c in t.chips && t.chips[c] == ChipSum(g, f, c))
    && (forall i: nat :: i < g.channels ==> i in t.chans && t.chans[i] == ChanSum(g, f, i))
  }

  function DieOf(a: PlaneAddr): DieAddr { DieAddr(a.channel, a.chip, a.die) }

  function ChipOf(a: PlaneAddr): ChipAddr { ChipAddr(a.channel, a.chip) }

  /** The three increments that allocating, invalidating and erasing make above a plane. */
  function Shift(t: Tree, a: PlaneAddr, delta: Counts): Tree
    requires DieOf(a) in t.dies && ChipOf(a) in t.chips && a.channel in t.chans
  {
    Tree(t.dies[DieOf(a) := Plus(t.dies[DieOf(a)], delta)],
         t.chips[ChipOf(a) := Plus(t.chips[ChipOf(a)], delta)],
         t.chans[a.channel := Plus(t.chans[a.channel], delta)])
  }

  /** One summand below `n` changing by `delta` changes the sum by as much. */
  lemma {:induction false} SumShift(f: nat -> Counts, f': nat -> Counts, n: nat, i: nat, delta: Counts)
    requires forall j: nat :: j < n ==> f'(j) == if j == i then Plus(f(j), delta) else f(j)
    ensures Sum(f', n) == if i < n then Plus(Sum(f, n), delta) else Sum(f, n)
  {
    if n > 0 {
      SumShift(f, f', n - 1, i, delta);
    }
  }

  lemma {:induction false} SumSame(f: nat -> Counts, f': nat -> Counts, n: nat)
    requires forall j: nat :: j < n ==> f'(j) == f(j)
    ensures Sum(f', n) == Sum(f, n)
  {
    if n > 0 {
      SumSame(f, f', n - 1);
    }
  }

  /** `f'` is `f` with `delta` added at `a`. */
  ghost predicate Bumped(f: PlaneAddr -> Counts, f': PlaneAddr -> Counts, a: PlaneAddr, delta: Counts) {
    forall b :: f'(b) == if b == a then Plus(f(b), delta) else f(b)
  }

  lemma DieShift(g: Geometry, f: PlaneAddr -> Counts, f': PlaneAddr -> Counts, a: PlaneAddr, delta: Counts, d: DieAddr)
    requires OnDevice(g, a) && Bumped(f, f', a, delta)
    ensures DieSum(g, f', d) == if d == DieOf(a) then Plus(DieSum(g, f, d), delta) else DieSum(g, f, d)
  {
    var h, h' := DieRow(f, d), DieRow(f', d);
    if d == DieOf(a) {
      SumShift(h, h', g.planes, a.plane, delta);
    } else {
      SumSame(h, h', g.planes);
    }
  }

  lemma ChipShift(g: Geometry, f: PlaneAddr -> Counts, f': PlaneAddr -> Counts, a: PlaneAddr, delta: Counts,
        c: ChipAddr)
    requires OnDevice(g, a) && Bumped(f, f', a, delta)
    ensures ChipSum(g, f', c) == if c == ChipOf(a) then Plus(ChipSum(g, f, c), delta) else ChipSum(g, f, c)
  {
    var h, h' := ChipRow(g, f, c), ChipRow(g, f', c);
    forall d: nat | d < g.dies ensures h'(d) == if DieAddr(c.channel, c.chip, d) == DieOf(a) then Plus(h(d), delta)
        else h(d) {
      DieShift(g, f, f', a, delta, DieAddr(c.channel, c.chip, d));
    }
    if c == ChipOf(a) {
      SumShift(h, h', g.dies, a.die, delta);
    } else {
      SumSame(h, h', g.dies);
    }
  }

  lemma ChanShift(g: Geometry, f: PlaneAddr -> Counts, f': PlaneAddr -> Counts, a: PlaneAddr, delta: Counts, i: nat)
    requires OnDevice(g, a) && Bumped(f, f', a, delta)
    ensures ChanSum(g, f', i) == if i == a.channel then Plus(ChanSum(g, f, i), delta) else ChanSum(g, f, i)
  {
    var h, h' := ChanRow(g, f, i), ChanRow(g, f', i);
    forall c: nat | c < g.chips ensures h'(c) == if ChipAddr(i, c) == ChipOf(a) then Plus(h(c), delta) else h(c) {
      ChipShift(g, f, f', a, delta, ChipAddr(i, c));
    }
    if i == a.channel {
      SumShift(h, h', g.chips, a.chip, delta);
    } else {
      SumSame(h, h', g.chips);
    }
  }

  /** Moving the counters of die, chip and channel by the plane's own increment keeps all
      of them sums. */
  lemma ShiftAgrees(g: Geometry, f: PlaneAddr -> Counts, f': PlaneAddr -> Counts, t: Tree, a: PlaneAddr, delta: Counts)
    requires OnDevice(g, a) && Bumped(f, f', a, delta) && Agree(g, f, t)
    ensures HasDie(g, DieOf(a)) && HasChip(g, ChipOf(a))
    ensures Agree(g, f', Shift(t, a, delta))
  {
    assert HasDie(g, DieOf(a)) && HasChip(g, ChipOf(a));
    var t' := Shift(t, a, delta);
    hide Bumped;
    forall d | HasDie(g, d) ensures d in t'.dies && t'.dies[d] == DieSum(g, f', d) {
      DieShift(g, f, f', a, delta, d);
    }
    forall c | HasChip(g, c) ensures c in t'.chips && t'.chips[c] == ChipSum(g, f', c) {
      ChipShift(g, f, f', a, delta, c);
    }
    forall i: nat | i < g.channels ensures i in t'.chans && t'.chans[i] == ChanSum(g, f', i) {
      ChanShift(g, f, f', a, delta, i);
    }
  }

  /** Planes that count the same keep the same tree right. */
  lemma SameAgrees(g: Geometry, f: PlaneAddr -> Counts, f': PlaneAddr -> Counts, t: Tree)
    requires Valid(g) && (forall b :: f'(b) == f(b)) && Agree(g, f, t)
    ensures Agree(g, f', t)
  {
    var a := PlaneAddr(0, 0, 0, 0);
    ShiftAgrees(g, f, f', t, a, ZERO);
    assert t.dies[DieOf(a) := Plus(t.dies[DieOf(a)], ZERO)] == t.dies;
    assert t.chips[ChipOf(a) := Plus(t.chips[ChipOf(a)], ZERO)] == t.chips;
    assert t.chans[a.channel := Plus(t.chans[a.channel], ZERO)] == t.chans;
  }
}
