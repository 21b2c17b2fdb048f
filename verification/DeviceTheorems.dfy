/** What the runs of the whole device promise. */
module DeviceTheorems {
  import opened Flash
  import opened Layout
  import opened Sectors
  import opened Addressing
  import opened Counters
  import opened Chip
  import opened ChipInv
  import opened ChipRuns
  import opened ChipTheorems
  import opened ChipPlain
  import opened Device
  import opened DeviceRuns
  import ChipSafety

  // ---------------------------------------------------------------- contents

  ghost predicate CanLookup(g: Geometry, d: Device, l: nat)
    requires Addressing.Valid(g)
  {
    var c := ChipOf(Home(g, l));
    c in d.chips && l in d.chips[c].entries && Readable(d.chips[c])
  }

  /** What the device gives back for logical page `l`. */
  ghost function Lookup(g: Geometry, d: Device, l: nat): map<nat, Sector>
    requires Addressing.Valid(g) && CanLookup(g, d, l)
  {
    ReadBack(d.chips[ChipOf(Home(g, l))], l)
  }

  /** The host write of page `l` that a step of the device completes. */
  ghost function WrittenBy(d: Device, s: DeviceStep, l: nat): Option<Sub>
    requires s.OnChip? ==> s.c in d.chips
  {
    if s.OnChip? && Finished(d.chips[s.c], s.st).Some? && Finished(d.chips[s.c], s.st).value.lpn == l
    then Finished(d.chips[s.c], s.st) else None
  }

  /** What the page holds after that write. */
  function PageNext(page: Data, w: Option<Sub>): Data {
    if w.Some? then Settled(w.value, page) else page
  }

  lemma StoreIsContent(cfg: Config, m: Chip, l: nat)
    requires Inv(cfg, m) && l in cfg.homes
    ensures l in m.entries && Readable(m) && l in m.store && Delivers(ReadBack(m, l), m.store[l])
  {
    InvShape(cfg, m);
    ContentIsStore(cfg, m);
    hide Inv, Delivers;
    assert Content(m)[l] == ReadBack(m, l);
  }

  lemma PageHasHome(g: Geometry, split: bool, l: nat, m: Chip)
    requires Addressing.Valid(g) && l < MapSize(g) && Inv(ConfigOf(g, ChipOf(Home(g, l)), split), m)
    ensures HasChip(g, ChipOf(Home(g, l))) && l in m.entries && l in m.store && Readable(m)
    ensures Delivers(ReadBack(m, l), m.store[l])
  {
    hide Inv, Delivers, Readable;
    HomeTurn(g, l);
    var cfg := ConfigOf(g, ChipOf(Home(g, l)), split);
    assert l in cfg.homes;
    StoreIsContent(cfg, m, l);
  }

  lemma FinishedHome(g: Geometry, split: bool, c: ChipAddr, m: Chip, st: Step)
    requires Addressing.Valid(g) && Inv(ConfigOf(g, c, split), m) && Finished(m, st).Some?
    ensures ChipOf(Home(g, Finished(m, st).value.lpn)) == c
    ensures Finished(m, st).value.lpn in m.store && Present(Finished(m, st).value.host)
    ensures Finished(m, st).value.bits == m.store[Finished(m, st).value.lpn].Keys + Finished(m, st).value.host.Keys
  {
    hide Exact, MapForward, MapBackward, Stored, Writes, Reads, Looked, EraseQueue, Marked, Room, Collecting, Burnt,
         InStep, Shape, Within, Holds;
  }

  /** What the driver still has of page `l`, sector by sector. */
  ghost function Page(g: Geometry, d: Device, l: nat): Data
    requires Addressing.Valid(g)
    requires ChipOf(Home(g, l)) in d.chips && l in d.chips[ChipOf(Home(g, l))].store
  {
    d.chips[ChipOf(Home(g, l))].store[l]
  }

  lemma CanLookupAlways(g: Geometry, split: bool, d: Device, l: nat)
    requires DeviceInv(g, split, d) && l < MapSize(g)
    ensures CanLookup(g, d, l) && l in d.chips[ChipOf(Home(g, l))].store
    ensures Delivers(Lookup(g, d, l), Page(g, d, l))
  {
    hide Agree, Inv, ConfigOf, Home, MapSize, Readable, Delivers;
    HomeTurn(g, l);
    var c := ChipOf(Home(g, l));
    assert HasChip(g, c);
    PageHasHome(g, split, l, d.chips[c]);
  }

  lemma CanPage(g: Geometry, split: bool, d: Device, l: nat)
    requires DeviceInv(g, split, d) && l < MapSize(g)
    ensures ChipOf(Home(g, l)) in d.chips && l in d.chips[ChipOf(Home(g, l))].store
  {
    hide DeviceInv, MapSize, Home;
    CanLookupAlways(g, split, d, l);
  }

  /** A page changes only when a host write of it completes, and then as that write settles. */
  lemma PageStep(g: Geometry, split: bool, d: Device, s: DeviceStep, l: nat)
    requires Sized(g, split) && DeviceInv(g, split, d) && DeviceGuard(g, split, d, s) && l < MapSize(g)
    ensures DeviceDefined(g, split, d, s) && (s.OnChip? ==> s.c in d.chips)
    ensures ChipOf(Home(g, l)) in d.chips && l in d.chips[ChipOf(Home(g, l))].store
    ensures ChipOf(Home(g, l)) in DeviceNext(g, split, d, s).chips
    ensures l in DeviceNext(g, split, d, s).chips[ChipOf(Home(g, l))].store
    ensures Page(g, DeviceNext(g, split, d, s), l) == PageNext(Page(g, d, l), WrittenBy(d, s, l))
  {
    hide DeviceInv, DeviceNext, Inv, ConfigOf, Home, MapSize, Next, Guard, Defined, Roomy, Finished, Moved, Sized,
         Settled;
    SizedIs(g, split);
    DeviceStepKeeps(g, split, d, s);
    CanPage(g, split, d, l);
    CanPage(g, split, DeviceNext(g, split, d, s), l);
    var c := ChipOf(Home(g, l));
    StepOnChip(g, split, d, s, c);
    if s.OnChip? && s.c == c {
      StoreStep(ConfigOf(g, c, split), d.chips[c], s.st);
    } else if s.OnChip? && Finished(d.chips[s.c], s.st).Some? {
      ChipInvOf(g, split, d, s.c);
      FinishedHome(g, split, s.c, d.chips[s.c], s.st);
    }
  }

  lemma ChipInvOf(g: Geometry, split: bool, d: Device, c: ChipAddr)
    requires DeviceInv(g, split, d) && c in d.chips
    ensures Inv(ConfigOf(g, c, split), d.chips[c])
  {
    hide Agree, Inv;
  }

  /** Refinement of the device to a store of pages, step by step. */
  lemma LookupStep(g: Geometry, split: bool, d: Device, s: DeviceStep, l: nat)
    requires Sized(g, split) && DeviceInv(g, split, d) && DeviceGuard(g, split, d, s) && l < MapSize(g)
    ensures DeviceDefined(g, split, d, s) && (s.OnChip? ==> s.c in d.chips)
    ensures CanLookup(g, d, l) && CanLookup(g, DeviceNext(g, split, d, s), l)
    ensures ChipOf(Home(g, l)) in d.chips && l in d.chips[ChipOf(Home(g, l))].store
    ensures Delivers(Lookup(g, d, l), Page(g, d, l))
    ensures Delivers(Lookup(g, DeviceNext(g, split, d, s), l), PageNext(Page(g, d, l), WrittenBy(d, s, l)))
  {
    hide DeviceInv, DeviceNext, Home, MapSize, CanLookup, Lookup, Sized, WrittenBy, Delivers, DeviceGuard, PageNext;
    SizedIs(g, split);
    DeviceStepKeeps(g, split, d, s);
    PageStep(g, split, d, s, l);
    CanLookupAlways(g, split, d, l);
    CanLookupAlways(g, split, DeviceNext(g, split, d, s), l);
  }

  /** What the completed host writes of page `l` have left of each other. */
  ghost function LastWritten(states: seq<Device>, steps: seq<DeviceStep>, l: nat, n: nat): Data
    requires n <= |steps| && |states| == |steps| + 1
    requires forall i :: 0 <= i < n && steps[i].OnChip? ==> steps[i].c in states[i].chips
  {
    if n == 0 then map[]
    else PageNext(LastWritten(states, steps, l, n - 1), WrittenBy(states[n - 1], steps[n - 1], l))
  }

  lemma StepsHaveChips(g: Geometry, split: bool, states: seq<Device>, steps: seq<DeviceStep>)
    requires Addressing.Valid(g) && DeviceRun(g, split, states, steps)
    ensures forall i :: 0 <= i < |steps| && steps[i].OnChip? ==> steps[i].c in states[i].chips
  {
    hide DeviceNext, DeviceGuard, Defined, Moved;
  }

  lemma BlankPage(g: Geometry, split: bool, d: Device, l: nat)
    requires Sized(g, split) && DeviceInit(g, split, d) && l < MapSize(g)
    ensures ChipOf(Home(g, l)) in d.chips && l in d.chips[ChipOf(Home(g, l))].store && Page(g, d, l) == map[]
  {
    hide Sized, Inv, Agree, Threshold;
    SizedIs(g, split);
    HomeTurn(g, l);
    var c := ChipOf(Home(g, l));
    assert HasChip(g, c);
    assert Init(ConfigOf(g, c, split), d.chips[c]);
  }

  lemma {:induction false} RunPage(g: Geometry, split: bool, states: seq<Device>, steps: seq<DeviceStep>,
        l: nat, n: nat)
    requires Sized(g, split) && DeviceRun(g, split, states, steps) && n < |states| && l < MapSize(g)
    ensures forall i :: 0 <= i < |steps| && steps[i].OnChip? ==> steps[i].c in states[i].chips
    ensures ChipOf(Home(g, l)) in states[n].chips && l in states[n].chips[ChipOf(Home(g, l))].store
    ensures Page(g, states[n], l) == LastWritten(states, steps, l, n)
  {
    hide DeviceInv, DeviceNext, DeviceInit, DeviceGuard, DeviceDefined, MapSize, WrittenBy, Sized, Home, Page, PageNext;
    SizedIs(g, split);
    StepsHaveChips(g, split, states, steps);
    if n == 0 {
      BlankPage(g, split, states[0], l);
    } else {
      RunPage(g, split, states, steps, l, n - 1);
      DeviceRunKeeps(g, split, states, steps, n - 1);
      PageStep(g, split, states[n - 1], steps[n - 1], l);
    }
  }

  /** Refinement over whole runs of the device: whatever the interleaving of hosts, chips,
      channels and collectors, a page reads back as its completed writes have left it. */
  lemma RunLookup(g: Geometry, split: bool, states: seq<Device>, steps: seq<DeviceStep>, l: nat, n: nat)
    requires Sized(g, split) && DeviceRun(g, split, states, steps) && n < |states| && l < MapSize(g)
    ensures forall i :: 0 <= i < |steps| && steps[i].OnChip? ==> steps[i].c in states[i].chips
    ensures CanLookup(g, states[n], l) && Delivers(Lookup(g, states[n], l), LastWritten(states, steps, l, n))
  {
    hide DeviceInv, DeviceRun, MapSize, Sized, Home, Lookup, CanLookup, Delivers, LastWritten;
    SizedIs(g, split);
    RunPage(g, split, states, steps, l, n);
    DeviceRunKeeps(g, split, states, steps, n);
    CanLookupAlways(g, split, states[n], l);
  }

  /** The sectors of page `l` as its completed writes put them there, later over earlier. */
  ghost function PlainWritten(states: seq<Device>, steps: seq<DeviceStep>, l: nat, n: nat): Data
    requires n <= |steps| && |states| == |steps| + 1
    requires forall i :: 0 <= i < n && steps[i].OnChip? ==> steps[i].c in states[i].chips
  {
    if n == 0 then map[]
    else
      var w := WrittenBy(states[n - 1], steps[n - 1], l);
      PlainWritten(states, steps, l, n - 1) + if w.Some? then w.value.host else map[]
  }

  ghost predicate PageClean(states: seq<Device>, steps: seq<DeviceStep>, l: nat, n: nat)
    requires n <= |steps| && |states| == |steps| + 1
    requires forall i :: 0 <= i < |steps| && steps[i].OnChip? ==> steps[i].c in states[i].chips
  {
    forall i :: 0 <= i < n && WrittenBy(states[i], steps[i], l).Some? ==> Clean(WrittenBy(states[i], steps[i], l).value)
  }

  lemma WrittenFacts(g: Geometry, split: bool, d: Device, s: DeviceStep, l: nat)
    requires DeviceInv(g, split, d) && (s.OnChip? ==> s.c in d.chips) && WrittenBy(d, s, l).Some?
    ensures ChipOf(Home(g, l)) in d.chips && l in d.chips[ChipOf(Home(g, l))].store
    ensures var w := WrittenBy(d, s, l).value; Present(w.host) && w.bits == Page(g, d, l).Keys + w.host.Keys
  {
    hide Agree, Inv, ConfigOf, Home, Finished, Present;
    FinishedHome(g, split, s.c, d.chips[s.c], s.st);
  }

  lemma {:induction false} PlainPage(g: Geometry, split: bool, states: seq<Device>, steps: seq<DeviceStep>,
        l: nat, n: nat)
    requires Sized(g, split) && DeviceRun(g, split, states, steps) && n < |states| && l < MapSize(g)
    requires forall i :: 0 <= i < |steps| && steps[i].OnChip? ==> steps[i].c in states[i].chips
    requires PageClean(states, steps, l, n)
    ensures LastWritten(states, steps, l, n) == PlainWritten(states, steps, l, n)
    ensures Present(PlainWritten(states, steps, l, n))
  {
    hide DeviceInv, DeviceNext, DeviceInit, DeviceGuard, DeviceDefined, MapSize, WrittenBy, Sized, Home, Page, Settled,
         Clean;
    SizedIs(g, split);
    if n > 0 {
      PlainPage(g, split, states, steps, l, n - 1);
      var w := WrittenBy(states[n - 1], steps[n - 1], l);
      if w.Some? {
        DeviceRunKeeps(g, split, states, steps, n - 1);
        RunPage(g, split, states, steps, l, n - 1);
        WrittenFacts(g, split, states[n - 1], steps[n - 1], l);
        CleanSettles(w.value, LastWritten(states, steps, l, n - 1));
      }
    }
  }

  /** While every completed write of page `l` was clean, the page reads back as exactly the
      sectors written so far, each with the bytes last written. */
  lemma RunPlain(g: Geometry, split: bool, states: seq<Device>, steps: seq<DeviceStep>, l: nat, n: nat)
    requires Sized(g, split) && DeviceRun(g, split, states, steps) && n < |states| && l < MapSize(g)
    requires forall i :: 0 <= i < |steps| && steps[i].OnChip? ==> steps[i].c in states[i].chips
    requires PageClean(states, steps, l, n)
    ensures CanLookup(g, states[n], l)
    ensures Lookup(g, states[n], l).Keys == PlainWritten(states, steps, l, n).Keys
    ensures forall i :: i in Lookup(g, states[n], l) ==>
              PlainWritten(states, steps, l, n)[i] == Some(Lookup(g, states[n], l)[i])
  {
    hide DeviceInv, DeviceRun, MapSize, Sized, Home, Lookup, CanLookup, LastWritten, PlainWritten, PageClean;
    SizedIs(g, split);
    RunLookup(g, split, states, steps, l, n);
    PlainPage(g, split, states, steps, l, n);
  }

  // ---------------------------------------------------------------- the audit

  function BlockCnt(chips: map<ChipAddr, Chip>): PlaneAddr -> Counts {
    (a: PlaneAddr) =>
      if ChipOf(a) in chips && a in chips[ChipOf(a)].planes
          then Total(BlockCounts(chips[ChipOf(a)].planes[a].blocks)) else ZERO
  }

  /** The driver's audit of its counters finds nothing to report: at every level they equal
      the sums of the block counters below. */
  ghost predicate AuditClean(g: Geometry, d: Device) {
    && (forall c, a :: c in d.chips && a in d.chips[c].planes ==>
          d.chips[c].planes[a].cnt == Total(BlockCounts(d.chips[c].planes[a].blocks)))
    && Agree(g, BlockCnt(d.chips), d.tree)
  }

  lemma ChipAudit(cfg: Config, m: Chip, a: PlaneAddr)
    requires Inv(cfg, m) && a in m.planes
    ensures m.planes[a].cnt == Total(BlockCounts(m.planes[a].blocks))
  {
    hide MapForward, MapBackward, Stored, Writes, Reads, EraseQueue, Marked, Room, Collecting, Burnt, InStep, Shape,
         Hosts;
    assert PlaneExact(cfg.blocks, cfg.pages, m.planes[a], CellAt(Burning(m), a));
  }

  lemma AuditSilent(g: Geometry, split: bool, d: Device)
    requires DeviceInv(g, split, d)
    ensures AuditClean(g, d)
  {
    hide Agree, Inv, Total, BlockCounts;
    forall c, a | c in d.chips && a in d.chips[c].planes
      ensures d.chips[c].planes[a].cnt == Total(BlockCounts(d.chips[c].planes[a].blocks))
    {
      ChipAudit(ConfigOf(g, c, split), d.chips[c], a);
    }
    SameAgrees(g, PlaneCnt(d.chips), BlockCnt(d.chips), d.tree);
  }

  /** In no state of any run does the audit report anything. */
  lemma AuditNeverReports(g: Geometry, split: bool, states: seq<Device>, steps: seq<DeviceStep>, n: nat)
    requires Sized(g, split) && DeviceRun(g, split, states, steps) && n < |states|
    ensures AuditClean(g, states[n])
  {
    hide DeviceInv, DeviceRun, AuditClean;
    DeviceRunKeeps(g, split, states, steps, n);
    AuditSilent(g, split, states[n]);
  }

  // ---------------------------------------------------------------- the channels

  /** Whenever the driver sends a command, the bus of the channel takes it and the NAND chip
      is in a state to accept it, whichever order the completions of channel and chip came. */
  lemma NoCommandRefused(g: Geometry, split: bool, d: Device, c: ChipAddr, st: Step)
    requires Sized(g, split) && DeviceInv(g, split, d) && DeviceGuard(g, split, d, OnChip(c, st)) && st.Dispatches?
    ensures d.chans[c.channel].busIdle && Defined(ConfigOf(g, c, split), d.chips[c], st)
    ensures var (m1, r) := GetCommand(ConfigOf(g, c, split), d.chips[c], st.id, st.scratch);
            r.Some? ==> r.value in m1.cmds && (m1.cmds[r.value].load.EraseAt? ==>
                m1.cmds[r.value].load.at in m1.planes) &&
                        Accepts(d.chips[c].hw, ChipSafety.KindOf(m1.cmds[r.value]), ChipSafety.Target(m1, r.value))
  {
    hide DeviceInv, DeviceGuard, Sized, Inv, Roomy, ConfigOf, GetCommand, Accepts, ChipSafety.KindOf,
         ChipSafety.Target, Defined;
    SizedIs(g, split);
    ChipFacts(g, split, d, c, st);
    StepKeeps(ConfigOf(g, c, split), d.chips[c], st);
    ChipSafety.SendAccepted(ConfigOf(g, c, split), d.chips[c], st.id, st.scratch);
  }
}
