/** The caller's theorem on the whole device: what requests that are submitted one at a time, or
    otherwise in time, are promised by the device as a whole. */
module DeviceRequests {
  import opened Flash
  import opened Layout
  import opened Sectors
  import opened Addressing
  import opened Counters
  import opened Chip
  import opened ChipInv
  import opened ChipRuns
  import opened ChipOrigin
  import opened ChipEarly
  import opened ChipPrompt
  import opened ChipRequests
  import opened Device
  import opened DeviceRuns
  import opened DeviceTheorems

  /** On every chip sub-requests are made in time, and erases leave the bytes alone. */
  ghost predicate DeviceTimely(states: seq<Device>, steps: seq<DeviceStep>, n: nat)
    requires n <= |steps| && |states| == |steps| + 1
  {
    forall k :: 0 <= k < n && steps[k].OnChip? ==>
      && steps[k].c in states[k].chips && InTime(states[k].chips[steps[k].c], steps[k].st)
      && (steps[k].st.Dispatches? ==> steps[k].st.junk == [])
  }

  // ---------------------------------------------------------------- one chip's part

  /** How many of the first `n` steps are steps of chip `c`. */
  function CountOn(steps: seq<DeviceStep>, c: ChipAddr, n: nat): nat
    requires n <= |steps|
  {
    |StepsOf(steps[..n], c)|
  }

  lemma PartStep(steps: seq<DeviceStep>, c: ChipAddr, n: nat)
    requires n < |steps|
    ensures StepsOf(steps[..n + 1], c)
              == StepsOf(steps[..n], c) + if steps[n].OnChip? && steps[n].c == c then [steps[n].st] else []
  {
    assert steps[..n + 1][..n] == steps[..n] && steps[..n + 1][n] == steps[n];
  }

  lemma PartState(states: seq<Device>, steps: seq<DeviceStep>, c: ChipAddr, n: nat)
    requires |states| == |steps| + 1 && n < |steps| && forall i :: 0 <= i < |states| ==> c in states[i].chips
    ensures StatesOf(states[..n + 2], steps[..n + 1], c)
              == StatesOf(states[..n + 1], steps[..n], c)
                 + if steps[n].OnChip? && steps[n].c == c then [states[n + 1].chips[c]] else []
  {
    var ss, ts := states[..n + 2], steps[..n + 1];
    assert ts[..n] == steps[..n] && ts[n] == steps[n] && ss[..n + 1] == states[..n + 1];
  }

  /** The part of chip `c` in the first `n` steps: a run that ends where the chip is. */
  lemma PartUpTo(g: Geometry, split: bool, states: seq<Device>, steps: seq<DeviceStep>, c: ChipAddr, n: nat)
    requires Sized(g, split) && DeviceRun(g, split, states, steps) && HasChip(g, c) && n < |states|
    ensures forall i :: 0 <= i < |states| ==> c in states[i].chips
    ensures Addressing.Valid(g) && Roomy(ConfigOf(g, c, split))
    ensures var ms, sts := StatesOf(states[..n + 1], steps[..n], c), StepsOf(steps[..n], c);
            Run(ConfigOf(g, c, split), ms, sts) && |ms| == |sts| + 1 && ms[|sts|] == states[n].chips[c]
  {
    hide DeviceRun, Run, Sized, HasChip, ConfigOf, Roomy;
    SizedIs(g, split);
    RunLong(g, split, states, steps);
    RunChips(g, split, states, steps, c);
    RunPrefix(g, split, states, steps, n);
    PartIsRun(g, split, states[..n + 1], steps[..n], c);
    RunLengths(ConfigOf(g, c, split), StatesOf(states[..n + 1], steps[..n], c), StepsOf(steps[..n], c));
  }

  lemma RunLong(g: Geometry, split: bool, states: seq<Device>, steps: seq<DeviceStep>)
    requires Addressing.Valid(g) && DeviceRun(g, split, states, steps)
    ensures |states| == |steps| + 1
  {
  }

  lemma {:induction false} PartPrefix(states: seq<Device>, steps: seq<DeviceStep>, c: ChipAddr, i: nat, n: nat)
    requires |states| == |steps| + 1 && i <= n <= |steps| && forall i :: 0 <= i < |states| ==> c in states[i].chips
    ensures StepsOf(steps[..i], c) <= StepsOf(steps[..n], c)
    ensures StatesOf(states[..i + 1], steps[..i], c) <= StatesOf(states[..n + 1], steps[..n], c)
  {
    hide StatesOf, StepsOf;
    if i < n {
      PartPrefix(states, steps, c, i, n - 1);
      PartStep(steps, c, n - 1);
      PartState(states, steps, c, n - 1);
    }
  }

  /** A step of the part of chip `c` is a step of the device. */
  lemma {:induction false} PartIndex(g: Geometry, split: bool, states: seq<Device>, steps: seq<DeviceStep>, c: ChipAddr,
        n: nat, h: nat) returns (k: nat)
    requires Sized(g, split) && DeviceRun(g, split, states, steps) && HasChip(g, c) && n < |states| == |steps| + 1
    requires forall i :: 0 <= i < |states| ==> c in states[i].chips
    requires h < |StepsOf(steps[..n], c)| && |StatesOf(states[..n + 1], steps[..n], c)| == |StepsOf(steps[..n], c)| + 1
    ensures k < n && steps[k].OnChip? && steps[k].c == c && CountOn(steps, c, k) == h
    ensures steps[k].st == StepsOf(steps[..n], c)[h]
    ensures StatesOf(states[..n + 1], steps[..n], c)[h] == states[k].chips[c]
  {
    hide StatesOf, StepsOf, DeviceRun, Sized, HasChip, ConfigOf, Run, Roomy;
    k := 0;
    if n == 0 {
      NoSteps(steps, c);
      assert false;
    } else {
      PartStep(steps, c, n - 1);
      PartState(states, steps, c, n - 1);
      PartUpTo(g, split, states, steps, c, n - 1);
      if h < |StepsOf(steps[..n - 1], c)| {
        k := PartIndex(g, split, states, steps, c, n - 1, h);
      } else {
        k := n - 1;
      }
    }
  }

  lemma NoSteps(steps: seq<DeviceStep>, c: ChipAddr)
    ensures StepsOf(steps[..0], c) == []
  {
  }

  lemma {:induction false} PartTimely(g: Geometry, split: bool, states: seq<Device>, steps: seq<DeviceStep>,
        c: ChipAddr, n: nat)
    requires Sized(g, split) && DeviceRun(g, split, states, steps) && HasChip(g, c) && n < |states| == |steps| + 1
    requires forall i :: 0 <= i < |states| ==> c in states[i].chips
    requires DeviceTimely(states, steps, n)
    ensures var ms, sts := StatesOf(states[..n + 1], steps[..n], c), StepsOf(steps[..n], c);
            |ms| == |sts| + 1 && Timely(ms, sts, 0, |sts|)
  {
    hide StatesOf, StepsOf, DeviceRun, Sized, HasChip, ConfigOf, Run, Roomy, InTime;
    PartUpTo(g, split, states, steps, c, n);
    if n == 0 {
      NoSteps(steps, c);
    } else {
      PartTimely(g, split, states, steps, c, n - 1);
      PartStep(steps, c, n - 1);
      PartState(states, steps, c, n - 1);
      PartUpTo(g, split, states, steps, c, n - 1);
    }
  }

  /** The part of chip `c` is a run in which no host write is sent next to a read in hand. */
  lemma PartPrompt(g: Geometry, split: bool, states: seq<Device>, steps: seq<DeviceStep>, c: ChipAddr, n: nat)
    requires Sized(g, split) && DeviceRun(g, split, states, steps) && HasChip(g, c) && n < |states| == |steps| + 1
    requires DeviceTimely(states, steps, n)
    ensures forall i :: 0 <= i < |states| ==> c in states[i].chips
    ensures Addressing.Valid(g) && Roomy(ConfigOf(g, c, split))
    ensures var ms, sts := StatesOf(states[..n + 1], steps[..n], c), StepsOf(steps[..n], c);
            && Run(ConfigOf(g, c, split), ms, sts) && |ms| == |sts| + 1 && ms[|sts|] == states[n].chips[c]
            && Prompt(ms, sts, 0, |sts|) && NoRead(ms[0]) && WholeWrites(ms[0])
  {
    hide StatesOf, StepsOf, DeviceRun, Sized, HasChip, ConfigOf, Roomy, InTime, DeviceTimely, Init, Next, Guard,
         Defined, NoRead, WholeWrites, Timely, Prompt, AwaitHand;
    PartUpTo(g, split, states, steps, c, n);
    PartTimely(g, split, states, steps, c, n);
    var cfg, ms, sts := ConfigOf(g, c, split), StatesOf(states[..n + 1], steps[..n], c), StepsOf(steps[..n], c);
    InitAwaits(cfg, ms[0]);
    InitNoRead(cfg, ms[0]);
    TimelyIsPrompt(cfg, ms, sts, 0, |sts|);
  }

  lemma DeviceWhole(g: Geometry, split: bool, states: seq<Device>, steps: seq<DeviceStep>, c: ChipAddr, n: nat)
    requires Sized(g, split) && DeviceRun(g, split, states, steps) && HasChip(g, c) && n < |states| == |steps| + 1
    requires DeviceTimely(states, steps, n)
    ensures c in states[n].chips && WholeWrites(states[n].chips[c])
  {
    hide StatesOf, StepsOf, DeviceRun, Sized, HasChip, ConfigOf, Roomy, Run, DeviceTimely, NoRead, WholeWrites, Prompt;
    PartPrompt(g, split, states, steps, c, n);
    var cfg, ms, sts := ConfigOf(g, c, split), StatesOf(states[..n + 1], steps[..n], c), StepsOf(steps[..n], c);
    RunWhole(cfg, ms, sts, 0, |sts|);
  }

  // ---------------------------------------------------------------- pages

  /** What is mapped of page `l` and each write of it form one run of sectors. */
  ghost predicate PageSolid(states: seq<Device>, steps: seq<DeviceStep>, l: nat, n: nat)
    requires n <= |steps| && |states| == |steps| + 1
    requires forall i :: 0 <= i < |steps| && steps[i].OnChip? ==> steps[i].c in states[i].chips
  {
    forall i :: 0 <= i < n && WrittenBy(states[i], steps[i], l).Some? ==>
      OneRun(WrittenBy(states[i], steps[i], l).value.bits)
  }

  lemma WrittenWhole(d: Device, s: DeviceStep, l: nat)
    requires s.OnChip? ==> s.c in d.chips && WholeWrites(d.chips[s.c])
    ensures WrittenBy(d, s, l).Some? ==> WrittenBy(d, s, l).value.whole
  {
  }

  lemma StepHasChip(g: Geometry, split: bool, states: seq<Device>, steps: seq<DeviceStep>, i: nat)
    requires Sized(g, split) && DeviceRun(g, split, states, steps) && i < |steps| && steps[i].OnChip?
    ensures HasChip(g, steps[i].c)
  {
    hide DeviceRun, Inv, Agree, Sized, DeviceNext, DeviceGuard, Defined, ConfigOf;
    SizedIs(g, split);
    RunLong(g, split, states, steps);
    StepsHaveChips(g, split, states, steps);
    DeviceRunKeeps(g, split, states, steps, i);
  }

  lemma PageIsClean(g: Geometry, split: bool, states: seq<Device>, steps: seq<DeviceStep>, l: nat, n: nat)
    requires Sized(g, split) && DeviceRun(g, split, states, steps) && n < |states| == |steps| + 1
    requires forall i :: 0 <= i < |steps| && steps[i].OnChip? ==> steps[i].c in states[i].chips
    requires DeviceTimely(states, steps, n) && PageSolid(states, steps, l, n)
    ensures PageClean(states, steps, l, n)
  {
    hide DeviceRun, Sized, HasChip, WholeWrites, WrittenBy, InTime, OneRun;
    forall i | 0 <= i < n && WrittenBy(states[i], steps[i], l).Some?
      ensures WrittenBy(states[i], steps[i], l).value.whole
    {
      if steps[i].OnChip? {
        StepHasChip(g, split, states, steps, i);
        DeviceWhole(g, split, states, steps, steps[i].c, i);
      }
      WrittenWhole(states[i], steps[i], l);
    }
  }

  /** As long as sub-requests are made in time and page `l` has no hole, the page reads back as exactly
      the sectors written so far, each with the bytes last written, whatever goes on anywhere. */
  lemma TimelyPage(g: Geometry, split: bool, states: seq<Device>, steps: seq<DeviceStep>, l: nat, n: nat)
    requires Sized(g, split) && DeviceRun(g, split, states, steps) && n < |states| == |steps| + 1 && l < MapSize(g)
    requires forall i :: 0 <= i < |steps| && steps[i].OnChip? ==> steps[i].c in states[i].chips
    requires DeviceTimely(states, steps, n) && PageSolid(states, steps, l, n)
    ensures CanLookup(g, states[n], l)
    ensures Lookup(g, states[n], l).Keys == PlainWritten(states, steps, l, n).Keys
    ensures forall i :: i in Lookup(g, states[n], l) ==>
              PlainWritten(states, steps, l, n)[i] == Some(Lookup(g, states[n], l)[i])
  {
    hide DeviceRun, MapSize, Sized, Lookup, CanLookup, PlainWritten, PageClean, PageSolid, DeviceTimely;
    SizedIs(g, split);
    PageIsClean(g, split, states, steps, l, n);
    RunPlain(g, split, states, steps, l, n);
  }

  // ---------------------------------------------------------------- reads

  lemma PromptLater(ms: seq<Chip>, sts: seq<Step>, i: nat, j: nat)
    requires i <= j < |ms| == |sts| + 1 && Prompt(ms, sts, 0, j)
    ensures Prompt(ms, sts, i, j)
  {
    hide SendsHostWrite;
  }

  /** A read that has its data in state `n` of the device was made in a step `k`, after nothing of the
      host's reads was on its chip in state `i`, and brings what the device held of its page then. */
  lemma DeviceReads(g: Geometry, split: bool, states: seq<Device>, steps: seq<DeviceStep>, c: ChipAddr, i: nat, n: nat)
    returns (k: nat)
    requires Sized(g, split) && DeviceRun(g, split, states, steps) && HasChip(g, c) && i <= n < |states| == |steps| + 1
    requires DeviceTimely(states, steps, n) && c in states[i].chips && NoRead(states[i].chips[c])
    requires c in states[n].chips && states[n].chips[c].phase == ReadData && HostOut(states[n].chips[c]).Some?
    ensures i <= k < n && steps[k].OnChip? && steps[k].c == c && c in states[k].chips
    ensures var s := HostOut(states[n].chips[c]).value;
            && Makes(states[k].chips[c], steps[k].st, TicketOf(s, true))
            && s.whole && s.lpn in states[k].chips[c].store
            && s.host == Expected(states[k].chips[c].store[s.lpn], s.bits) && Holds(s.buf, s.bits, s.host)
  {
    hide StatesOf, StepsOf, DeviceRun, Sized, HasChip, ConfigOf, Roomy, Run, DeviceTimely, NoRead, WholeWrites, Prompt,
         Makes, Holds, Expected;
    PartPrompt(g, split, states, steps, c, n);
    PartUpTo(g, split, states, steps, c, i);
    PartPrefix(states, steps, c, i, n);
    var cfg, ms, sts := ConfigOf(g, c, split), StatesOf(states[..n + 1], steps[..n], c), StepsOf(steps[..n], c);
    var from := CountOn(steps, c, i);
    PromptLater(ms, sts, from, |sts|);
    var h := PromptReads(cfg, ms, sts, from, |sts|);
    k := PartIndex(g, split, states, steps, c, n, h);
    if k < i {
      PartPrefix(states, steps, c, k + 1, i);
      PartStep(steps, c, k);
    }
  }
}
