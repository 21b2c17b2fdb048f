/** Runs of the whole device, from set-up on: every chip's part of a run is a run of that
    chip, so everything proved of chip runs holds on the device; the channels never refuse
    a command and the driver's audit of its counters never finds a difference. */
module DeviceRuns {
  import opened Flash
  import opened Layout
  import opened Sectors
  import opened Addressing
  import opened Counters
  import opened Chip
  import opened ChipInv
  import opened ChipRuns
  import opened Device

  // ---------------------------------------------------------------- set-up

  /** The counters that set-up gives dies, chips and channels: products, all pages free. */
  ghost predicate TreeInit(g: Geometry, t: Tree) {
    && (forall d :: HasDie(g, d) ==> d in t.dies && t.dies[d] == Counts(g.planes * PerPlane(g), 0, 0))
    && (forall c :: HasChip(g, c) ==> c in t.chips && t.chips[c] == Counts(g.dies * (g.planes * PerPlane(g)), 0, 0))
    && (forall i: nat :: i < g.channels ==>
       i in t.chans && t.chans[i] == Counts(g.chips * (g.dies * (g.planes * PerPlane(g))), 0, 0))
  }

  ghost predicate DeviceInit(g: Geometry, split: bool, d: Device)
    requires Addressing.Valid(g)
  {
    && (forall c :: c in d.chips <==> HasChip(g, c))
    && (forall i: nat :: i in d.chans <==> i < g.channels)
    && (forall c :: c in d.chips ==> Init(ConfigOf(g, c, split), d.chips[c]))
    && (forall i :: i in d.chans ==> d.chans[i] == Channel(true, true, false, false))
    && TreeInit(g, d.tree)
  }

  /** A device as set-up makes it. */
  ghost function BlankDevice(g: Geometry, split: bool, buf: PageBuf, nowhere: Loc): Device
    requires Addressing.Valid(g)
  {
    Device(map c | c in AllChips(g) :: BlankChip(ConfigOf(g, c, split), buf, nowhere),
           map i: nat | i in Span(0, g.channels) :: Channel(true, true, false, false),
           Tree(map d | d in AllDies(g) :: Counts(g.planes * PerPlane(g), 0, 0),
                map c | c in AllChips(g) :: Counts(g.dies * (g.planes * PerPlane(g)), 0, 0),
                map i: nat | i in Span(0, g.channels) :: Counts(g.chips * (g.dies * (g.planes * PerPlane(g))), 0, 0)))
  }

  /** Every geometry has a device to start from. */
  lemma BlankDeviceIsInit(g: Geometry, split: bool, buf: PageBuf, nowhere: Loc)
    requires Addressing.Valid(g)
    ensures DeviceInit(g, split, BlankDevice(g, split, buf, nowhere))
  {
    hide ConfigOf, Init, PerPlane, AllChips, AllDies, BlankChip;
    AddrsAll(g);
    forall c | HasChip(g, c)
      ensures Init(ConfigOf(g, c, split), BlankChip(ConfigOf(g, c, split), buf, nowhere))
    {
      ConfigIsShaped(g, c, split);
      BlankIsInit(ConfigOf(g, c, split), buf, nowhere);
    }
  }

  lemma AddrsAll(g: Geometry)
    ensures forall c :: c in AllChips(g) <==> HasChip(g, c)
    ensures forall d :: d in AllDies(g) <==> HasDie(g, d)
  {
    forall c | HasChip(g, c) ensures c in AllChips(g) {
      assert ChipAddr(c.channel, c.chip) == c;
    }
    forall x | HasDie(g, x) ensures x in AllDies(g) {
      assert DieAddr(x.channel, x.chip, x.die) == x;
    }
  }

  lemma ConfigIsShaped(g: Geometry, c: ChipAddr, split: bool)
    requires Addressing.Valid(g) && HasChip(g, c)
    ensures ConfigShape(ConfigOf(g, c, split))
  {
    hide MapSize, Home;
    var cfg := ConfigOf(g, c, split);
    forall l | l in cfg.homes ensures cfg.homes[l] in cfg.addrs {
      HomeTurn(g, l);
    }
  }

  lemma {:induction false} SumConst(f: nat -> Counts, n: nat, x: int)
    requires forall j: nat :: j < n ==> f(j) == Counts(x, 0, 0)
    ensures Sum(f, n) == Counts(n * x, 0, 0)
  {
    if n > 0 {
      SumConst(f, n - 1, x);
      assert n * x == (n - 1) * x + x;
    }
  }

  lemma BlankAgrees(g: Geometry, f: PlaneAddr -> Counts, t: Tree)
    requires forall a :: OnDevice(g, a) ==> f(a) == Counts(PerPlane(g), 0, 0)
    requires TreeInit(g, t)
    ensures Agree(g, f, t)
  {
    forall d | HasDie(g, d) ensures DieSum(g, f, d) == Counts(g.planes * PerPlane(g), 0, 0) {
      SumConst(DieRow(f, d), g.planes, PerPlane(g));
    }
    forall c | HasChip(g, c) ensures ChipSum(g, f, c) == Counts(g.dies * (g.planes * PerPlane(g)), 0, 0) {
      forall j: nat | j < g.dies ensures ChipRow(g, f, c)(j) == Counts(g.planes * PerPlane(g), 0, 0) {
        assert HasDie(g, DieAddr(c.channel, c.chip, j));
      }
      SumConst(ChipRow(g, f, c), g.dies, g.planes * PerPlane(g));
    }
    forall i: nat | i < g.channels ensures ChanSum(g, f, i) == Counts(g.chips * (g.dies * (g.planes * PerPlane(g))),
        0, 0) {
      forall j: nat | j < g.chips ensures ChanRow(g, f, i)(j) == Counts(g.dies * (g.planes * PerPlane(g)), 0, 0) {
        assert HasChip(g, ChipAddr(i, j));
      }
      SumConst(ChanRow(g, f, i), g.chips, g.dies * (g.planes * PerPlane(g)));
    }
  }

  lemma BlankCounts(g: Geometry, split: bool, c: ChipAddr, m: Chip, a: PlaneAddr)
    requires Addressing.Valid(g) && Init(ConfigOf(g, c, split), m) && OnDevice(g, a) && ChipOf(a) == c
    ensures a in m.planes && m.planes[a].cnt == Counts(PerPlane(g), 0, 0)
  {
    PlaneCap(g);
    var cfg := ConfigOf(g, c, split);
    assert a in cfg.addrs;
    assert BlankPlane(cfg.blocks, cfg.pages, m.planes[a]);
  }

  lemma DeviceInitInv(g: Geometry, split: bool, d: Device)
    requires Sized(g, split) && DeviceInit(g, split, d)
    ensures DeviceInv(g, split, d)
  {
    hide Inv, Agree, ConfigOf, Roomy, Init, TreeInit, Threshold, PerPlane;
    forall c | c in d.chips ensures Inv(ConfigOf(g, c, split), d.chips[c]) {
      GeometryIsRoomy(g, c, split);
      InitInv(ConfigOf(g, c, split), d.chips[c]);
    }
    forall a | OnDevice(g, a) ensures PlaneCnt(d.chips)(a) == Counts(PerPlane(g), 0, 0) {
      assert HasChip(g, ChipOf(a));
      BlankCounts(g, split, ChipOf(a), d.chips[ChipOf(a)], a);
    }
    BlankAgrees(g, PlaneCnt(d.chips), d.tree);
  }

  // ---------------------------------------------------------------- runs

  ghost predicate DeviceRun(g: Geometry, split: bool, states: seq<Device>, steps: seq<DeviceStep>)
    requires Addressing.Valid(g)
  {
    && |states| == |steps| + 1
    && DeviceInit(g, split, states[0])
    && forall i :: 0 <= i < |steps| ==>
         && DeviceGuard(g, split, states[i], steps[i]) && DeviceDefined(g, split, states[i], steps[i])
         && states[i + 1] == DeviceNext(g, split, states[i], steps[i])
  }

  lemma {:induction false} DeviceRunKeeps(g: Geometry, split: bool, states: seq<Device>, steps: seq<DeviceStep>, n: nat)
    requires Sized(g, split) && DeviceRun(g, split, states, steps) && n < |states|
    ensures DeviceInv(g, split, states[n])
  {
    hide DeviceInv, DeviceNext, DeviceInit, DeviceGuard, DeviceDefined;
    if n == 0 {
      DeviceInitInv(g, split, states[0]);
    } else {
      DeviceRunKeeps(g, split, states, steps, n - 1);
      DeviceStepKeeps(g, split, states[n - 1], steps[n - 1]);
    }
  }

  /** No run of the device gets stuck on a step that may happen. */
  lemma DeviceRunExtends(g: Geometry, split: bool, states: seq<Device>, steps: seq<DeviceStep>, s: DeviceStep)
    requires Sized(g, split) && DeviceRun(g, split, states, steps) && DeviceGuard(g, split, states[|steps|], s)
    ensures DeviceDefined(g, split, states[|steps|], s)
    ensures DeviceRun(g, split, states + [DeviceNext(g, split, states[|steps|], s)], steps + [s])
  {
    hide DeviceInv, DeviceNext, DeviceInit, DeviceGuard, DeviceDefined;
    DeviceRunKeeps(g, split, states, steps, |steps|);
    DeviceStepKeeps(g, split, states[|steps|], s);
  }

  // ---------------------------------------------------------------- one chip's part

  function StepsOf(steps: seq<DeviceStep>, c: ChipAddr): seq<Step> {
    if steps == [] then []
    else
      var last := steps[|steps| - 1];
      StepsOf(steps[..|steps| - 1], c) + if last.OnChip? && last.c == c then [last.st] else []
  }

  function StatesOf(states: seq<Device>, steps: seq<DeviceStep>, c: ChipAddr): seq<Chip>
    requires |states| == |steps| + 1 && forall i :: 0 <= i < |states| ==> c in states[i].chips
  {
    if steps == [] then [states[0].chips[c]]
    else
      var n := |steps| - 1;
      StatesOf(states[..n + 1], steps[..n], c) +
        if steps[n].OnChip? && steps[n].c == c then [states[n + 1].chips[c]] else []
  }

  lemma RunChips(g: Geometry, split: bool, states: seq<Device>, steps: seq<DeviceStep>, c: ChipAddr)
    requires Sized(g, split) && DeviceRun(g, split, states, steps) && HasChip(g, c)
    ensures forall i :: 0 <= i < |states| ==> c in states[i].chips
  {
    forall i | 0 <= i < |states| ensures c in states[i].chips {
      hide DeviceRun, Inv, Agree, Sized;
      DeviceRunKeeps(g, split, states, steps, i);
    }
  }

  lemma RunPrefix(g: Geometry, split: bool, states: seq<Device>, steps: seq<DeviceStep>, n: nat)
    requires Addressing.Valid(g) && DeviceRun(g, split, states, steps) && n <= |steps|
    ensures DeviceRun(g, split, states[..n + 1], steps[..n])
  {
    hide DeviceNext, DeviceInit, DeviceGuard, DeviceDefined;
  }

  /** What a step of the device does to one of its chips. */
  lemma StepOnChip(g: Geometry, split: bool, d: Device, s: DeviceStep, c: ChipAddr)
    requires Sized(g, split) && DeviceInv(g, split, d) && DeviceGuard(g, split, d, s) && c in d.chips
    ensures DeviceDefined(g, split, d, s) && c in DeviceNext(g, split, d, s).chips
    ensures Roomy(ConfigOf(g, c, split)) && Inv(ConfigOf(g, c, split), d.chips[c])
    ensures if s.OnChip? && s.c == c
            then Guard(ConfigOf(g, c, split), d.chips[c], s.st) && Defined(ConfigOf(g, c, split), d.chips[c], s.st)
                 && DeviceNext(g, split, d, s).chips[c] == Next(ConfigOf(g, c, split), d.chips[c], s.st)
            else DeviceNext(g, split, d, s).chips[c] == d.chips[c]
  {
    hide Inv, Agree, ConfigOf, Roomy, Guard, Defined, Next, Moved, ChipNext, Threshold, Sends, Shift, PlaneCnt;
    GeometryIsRoomy(g, c, split);
    DeviceStepKeeps(g, split, d, s);
    if s.OnChip? {
      ChipStepKeeps(g, split, d, s.c, s.st);
    }
  }

  lemma RunSnoc(cfg: Config, ms: seq<Chip>, sts: seq<Step>, st: Step)
    requires Run(cfg, ms, sts) && Guard(cfg, ms[|sts|], st) && Defined(cfg, ms[|sts|], st)
    ensures Run(cfg, ms + [Next(cfg, ms[|sts|], st)], sts + [st])
  {
    hide Init, Guard, Defined, Next;
  }

  /** One chip's part of a device run is a run of that chip, and ends where the chip is. */
  lemma {:induction false} PartIsRun(g: Geometry, split: bool, states: seq<Device>, steps: seq<DeviceStep>, c: ChipAddr)
    requires Sized(g, split) && DeviceRun(g, split, states, steps) && HasChip(g, c)
    ensures forall i :: 0 <= i < |states| ==> c in states[i].chips
    ensures Roomy(ConfigOf(g, c, split))
    ensures var ms, sts := StatesOf(states, steps, c), StepsOf(steps, c);
            Run(ConfigOf(g, c, split), ms, sts) && ms[|sts|] == states[|steps|].chips[c]
    decreases |steps|
  {
    hide DeviceInv, DeviceNext, DeviceInit, DeviceGuard, DeviceDefined, ConfigOf, Roomy, Guard, Defined, Next, Init,
         Inv, Sized, HasChip;
    SizedIs(g, split);
    RunChips(g, split, states, steps, c);
    if steps == [] {
      FirstPart(g, split, states[0], c);
    } else {
      var n := |steps| - 1;
      RunPrefix(g, split, states, steps, n);
      PartIsRun(g, split, states[..n + 1], steps[..n], c);
      DeviceRunKeeps(g, split, states, steps, n);
      StepOnChip(g, split, states[n], steps[n], c);
      hide Run;
      if steps[n].OnChip? && steps[n].c == c {
        RunSnoc(ConfigOf(g, c, split), StatesOf(states[..n + 1], steps[..n], c), StepsOf(steps[..n], c), steps[n].st);
      }
    }
  }

  lemma FirstPart(g: Geometry, split: bool, d: Device, c: ChipAddr)
    requires Sized(g, split) && DeviceInit(g, split, d) && HasChip(g, c)
    ensures c in d.chips && Init(ConfigOf(g, c, split), d.chips[c]) && Roomy(ConfigOf(g, c, split))
  {
    hide ConfigOf, Roomy, Init, Threshold;
    GeometryIsRoomy(g, c, split);
  }
}
