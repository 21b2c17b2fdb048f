/** The driver of the whole device: its chips and channels as objects, the dispatch loop over
    them, and the entry points that completions come in by. Every method takes the device
    through steps of `Device`. */
module DeviceDriver {
  import opened Flash
  import opened Layout
  import opened Sectors
  import opened Addressing
  import opened Counters
  import opened ChipInv
  import opened ChipTake
  import opened ChipRuns
  import opened Device
  import opened Driver
  import opened DeviceTheorems
  import ChipSafety

  function ChipPart(x: DieAddr): ChipAddr { ChipAddr(x.channel, x.chip) }

  function ChipStates(chips: map<ChipAddr, ChipShot>): map<ChipAddr, Spec.Chip> { map c | c in chips :: chips[c].m }

  function ChipCounts(chips: map<ChipAddr, ChipShot>): map<ChipAddr, Counts> { map c | c in chips :: chips[c].cnt }

  function DieCounts(g: Geometry, chips: map<ChipAddr, ChipShot>): map<DieAddr, Counts> {
    map x | x in AllDies(g) && ChipPart(x) in chips
        && x.die in chips[ChipPart(x)].dies :: chips[ChipPart(x)].dies[x.die]
  }

  function ChannelStates(chans: map<nat, ChannelShot>): map<nat, Channel> { map i | i in chans :: chans[i].ch }

  function ChannelCounts(chans: map<nat, ChannelShot>): map<nat, Counts> { map i | i in chans :: chans[i].cnt }

  /** The device that a family of chips and channels makes up. */
  function Together(g: Geometry, chips: map<ChipAddr, ChipShot>, chans: map<nat, ChannelShot>): Device {
    Device(ChipStates(chips), ChannelStates(chans), Tree(DieCounts(g, chips), ChipCounts(chips), ChannelCounts(chans)))
  }

  function AboveOf(s: ChipShot, ch: ChannelShot): Above { Above(ch.cnt, s.cnt, s.dies) }

  ghost function Shifted(t: Tree, moved: Option<(PlaneAddr, Counts)>): Tree {
    if moved.Some? && DieOf(moved.value.0) in t.dies && ChipOf(moved.value.0) in t.chips
        && moved.value.0.channel in t.chans
    then Shift(t, moved.value.0, moved.value.1) else t
  }

  lemma ChipsMoved(chips: map<ChipAddr, ChipShot>, c: ChipAddr, s: ChipShot)
    ensures ChipStates(chips[c := s]) == ChipStates(chips)[c := s.m]
    ensures ChipCounts(chips[c := s]) == ChipCounts(chips)[c := s.cnt]
  {
  }

  lemma ChannelsMoved(chans: map<nat, ChannelShot>, i: nat, ch: ChannelShot)
    ensures ChannelStates(chans[i := ch]) == ChannelStates(chans)[i := ch.ch]
    ensures ChannelCounts(chans[i := ch]) == ChannelCounts(chans)[i := ch.cnt]
  {
  }

  lemma DiesMoved(g: Geometry, chips: map<ChipAddr, ChipShot>, c: ChipAddr, s: ChipShot, x: DieAddr)
    requires c in chips && ChipPart(x) == c && x in AllDies(g) && x.die in chips[c].dies && x.die in s.dies
    requires s.dies == chips[c].dies[x.die := s.dies[x.die]]
    ensures DieCounts(g, chips[c := s]) == DieCounts(g, chips)[x := s.dies[x.die]]
    ensures x in DieCounts(g, chips) && DieCounts(g, chips)[x] == chips[c].dies[x.die]
  {
    hide AllDies;
  }

  lemma DiesStay(g: Geometry, chips: map<ChipAddr, ChipShot>, c: ChipAddr, s: ChipShot)
    requires c in chips && s.dies == chips[c].dies
    ensures DieCounts(g, chips[c := s]) == DieCounts(g, chips)
  {
    hide AllDies;
  }

  /** One chip moves, and the counters above one of its planes with it. */
  lemma TreeMoved(g: Geometry, chips: map<ChipAddr, ChipShot>, chans: map<nat, ChannelShot>,
                  c: ChipAddr, s: ChipShot, ch: ChannelShot, moved: Option<(PlaneAddr, Counts)>)
    requires c in chips && c.channel in chans
    requires moved.Some? ==>
               ChipOf(moved.value.0) == c && DieOf(moved.value.0) in AllDies(g) && moved.value.0.die in chips[c].dies
    requires AboveOf(s, ch) == MovedAbove(AboveOf(chips[c], chans[c.channel]), moved)
    ensures var d := Together(g, chips, chans);
            Together(g, chips[c := s], chans[c.channel := ch]) ==
              Device(d.chips[c := s.m], d.chans[c.channel := ch.ch], Shifted(d.tree, moved))
  {
    hide AllDies, ChipStates, ChannelStates, DieCounts;
    ChipsMoved(chips, c, s);
    ChannelsMoved(chans, c.channel, ch);
    if moved.Some? {
      DiesMoved(g, chips, c, s, DieOf(moved.value.0));
    } else {
      DiesStay(g, chips, c, s);
      assert ChipCounts(chips)[c := s.cnt] == ChipCounts(chips);
      assert ChannelCounts(chans)[c.channel := ch.cnt] == ChannelCounts(chans);
    }
  }

  /** Step `s` may happen on device `d` and leads to `d'`. */
  ghost predicate DeviceTakes(g: Geometry, split: bool, d: Device, s: DeviceStep, d': Device) {
    && Addressing.Valid(g) && DeviceGuard(g, split, d, s) && DeviceDefined(g, split, d, s)
    && d' == DeviceNext(g, split, d, s)
  }

  /** The plane whose counters a chip's step moves is one of the chip's own. */
  lemma MovedHome(g: Geometry, split: bool, c: ChipAddr, dies: map<nat, Counts>, m: Spec.Chip, st: Step)
    requires Addressing.Valid(g) && HasChip(g, c) && Defined(ConfigOf(g, c, split), m, st)
    requires forall d: nat :: d < g.dies ==> d in dies
    ensures var moved := MovedBy(ConfigOf(g, c, split), m, st);
            moved.Some? ==>
              ChipOf(moved.value.0) == c && DieOf(moved.value.0) in AllDies(g) && moved.value.0.die in dies
  {
    hide Moved, ChipNext, Spec.GetCommand, ConfigOf, Spec.Shape, Defined, HasChip;
    var cfg := ConfigOf(g, c, split);
    DefinedShape(cfg, m, st);
    StepMoves(cfg, m, st, true);
    var moved := Moved(cfg, m, st);
    if moved.Some? {
      PlanesOfChip(g, split, c, m, moved.value.0);
    }
  }

  lemma DefinedShape(cfg: Spec.Config, m: Spec.Chip, st: Step)
    requires Defined(cfg, m, st)
    ensures Spec.Shape(cfg, m)
  {
    hide Spec.Shape;
  }

  lemma TakesDefined(cfg: Spec.Config, m: Spec.Chip, st: Step, m': Spec.Chip)
    requires Takes(cfg, m, st, m')
    ensures Defined(cfg, m, st)
  {
    hide Defined, Guard;
  }

  /** A dispatch by one chip, with its channel and the counters, is a step of the device. */
  lemma DispatchTakes(g: Geometry, split: bool, d: Device, c: ChipAddr, st: Step, m': Spec.Chip, ch': Channel)
    requires Sized(g, split) && DeviceInv(g, split, d) && c in d.chips && c.channel in d.chans && Addressing.Valid(g)
    requires st.Dispatches? && d.chans[c.channel].idle && Takes(ConfigOf(g, c, split), d.chips[c], st, m')
    requires ch' == if Sends(ConfigOf(g, c, split), d.chips[c], st)
             then d.chans[c.channel].(idle := false, busIdle := false, timer := true)
                    else d.chans[c.channel]
    ensures var d' := Device(d.chips[c := m'], d.chans[c.channel := ch'],
            Shifted(d.tree, MovedBy(ConfigOf(g, c, split), d.chips[c], st)));
            DeviceTakes(g, split, d, OnChip(c, st), d') && DeviceInv(g, split, d')
  {
    hide Sized, DeviceInv, Inv, Roomy, ConfigOf, Moved, Sends, Defined, Guard, Next, Shift, ChipNext;
    ChipStepKeeps(g, split, d, c, st);
    ChipFacts(g, split, d, c, st);
    var s := OnChip(c, st);
    assert DeviceDefined(g, split, d, s);
    var d' := Device(d.chips[c := m'], d.chans[c.channel := ch'],
        Shifted(d.tree, MovedBy(ConfigOf(g, c, split), d.chips[c], st)));
    assert d'.chans == DeviceNext(g, split, d, s).chans;
    assert d'.tree == DeviceNext(g, split, d, s).tree;
  }

  /** A step of a chip that sends nothing, with the counters, is a step of the device. */
  lemma ChipTakes(g: Geometry, split: bool, d: Device, c: ChipAddr, st: Step, m': Spec.Chip)
    requires Sized(g, split) && DeviceInv(g, split, d) && c in d.chips && c.channel in d.chans && Addressing.Valid(g)
    requires !st.Dispatches? && Takes(ConfigOf(g, c, split), d.chips[c], st, m')
    ensures var d' := Device(d.chips[c := m'], d.chans, Shifted(d.tree,
            MovedBy(ConfigOf(g, c, split), d.chips[c], st)));
            DeviceTakes(g, split, d, OnChip(c, st), d') && DeviceInv(g, split, d')
  {
    hide Sized, DeviceInv, Inv, Roomy, ConfigOf, Moved, Defined, Guard, Next, Shift, ChipNext;
    ChipStepKeeps(g, split, d, c, st);
    var s := OnChip(c, st);
    assert DeviceDefined(g, split, d, s);
    var d' := Device(d.chips[c := m'], d.chans, Shifted(d.tree, MovedBy(ConfigOf(g, c, split), d.chips[c], st)));
    assert d'.tree == DeviceNext(g, split, d, s).tree;
  }

  /** The release of a channel is a step of the device. */
  lemma ChannelBack(g: Geometry, split: bool, chips: map<ChipAddr, ChipShot>,
        chans: map<nat, ChannelShot>, i: nat, s: ChannelShot)
    requires Sized(g, split) && i in chans && DeviceInv(g, split, Together(g, chips, chans))
    requires chans[i].ch.signal && s == ChannelShot(chans[i].ch.(idle := true, signal := false), chans[i].cnt)
    ensures var d, d' := Together(g, chips, chans), Together(g, chips, chans[i := s]);
            DeviceTakes(g, split, d, ChannelCompletes(i), d') && DeviceInv(g, split, d') && d'.chips == d.chips
  {
    hide DeviceInv, Sized, DieCounts;
    SizedIs(g, split);
    ChannelsMoved(chans, i, s);
    var d := Together(g, chips, chans);
    assert ChannelCounts(chans)[i := s.cnt] == ChannelCounts(chans);
    DeviceStepKeeps(g, split, d, ChannelCompletes(i));
  }

  lemma CheckMovesNothing(cfg: Spec.Config, m: Spec.Chip, id: nat, m': Spec.Chip)
    requires Takes(cfg, m, Checks(id), m')
    ensures MovedBy(cfg, m, Checks(id)).None? && m'.pending.None?
  {
    hide Spec.Shape, Victim;
  }

  predicate PlaneClean(pl: Plane) { pl.cnt == Total(BlockCounts(pl.blocks)) }

  /** A chip that has nothing to send: no half read, no collection, no command, and every
      waiting write waits for a companion read. */
  predicate Quiet(m: Spec.Chip) {
    m.incompletedR == [] && m.erases == [] && m.commands == [] && m.rQueue == []
        && Spec.FirstReady(m.wQueue) == |m.wQueue|
  }

  /** A dispatch that sends nothing found a quiet chip and left it alone. */
  lemma NothingSent(cfg: Spec.Config, m: Spec.Chip, st: Step, m': Spec.Chip)
    requires Roomy(cfg) && Inv(cfg, m) && st.Dispatches? && Takes(cfg, m, st, m')
    ensures Defined(cfg, m, st) && m'.pending == m.pending
    ensures !Sends(cfg, m, st) ==> m' == m && Quiet(m)
  {
    hide Inv, Roomy, Spec.Shape, Spec.Send, AnyPoised, Spec.ForErase;
    DispatchDefined(cfg, m, st.id, st.scratch);
    IdleFacts(cfg, m);
    if m.incompletedR == [] && m.erases != [] {
      ChipSafety.VisitingIs(cfg, m);
      VisitPoised(cfg, m, st.id, st.scratch);
    }
  }

  /** Consecutive steps of the device. */
  ghost predicate Path(g: Geometry, split: bool, states: seq<Device>, steps: seq<DeviceStep>) {
    && |states| == |steps| + 1
    && forall i :: 0 <= i < |steps| ==> DeviceTakes(g, split, states[i], steps[i], states[i + 1])
  }

  /** Of the chips before `j` on channel `i` and those on earlier channels, none that is idle
      behind an idle channel has anything to send. */
  ghost predicate Served(d: Device, i: nat, j: nat) {
    forall c :: c in d.chips && (c.channel < i || (c.channel == i && c.chip < j)) ==>
      c.channel in d.chans && (d.chans[c.channel].idle && d.chips[c].phase == Spec.Idle ==> Quiet(d.chips[c]))
  }

  ghost predicate NonePending(d: Device) {
    forall c :: c in d.chips ==> d.chips[c].pending.None?
  }

  /** The step dispatches on a chip behind an idle channel, and no chip before it that is idle behind
      an idle channel has anything to send. */
  ghost predicate TurnAt(d: Device, s: DeviceStep) {
    && s.OnChip? && s.st.Dispatches? && s.c.channel in d.chans && d.chans[s.c.channel].idle
    && Served(d, s.c.channel, s.c.chip)
  }

  /** The steps are dispatches only, each on the first chip that has anything to send. */
  ghost predicate InTurn(states: seq<Device>, steps: seq<DeviceStep>) {
    && |states| == |steps| + 1
    && forall k :: 0 <= k < |steps| ==> TurnAt(states[k], steps[k])
  }

  lemma TurnStep(states: seq<Device>, steps: seq<DeviceStep>, s: DeviceStep, d': Device)
    requires InTurn(states, steps) && TurnAt(states[|steps|], s)
    ensures InTurn(states + [d'], steps + [s])
  {
    hide TurnAt;
  }

  lemma TurnJoin(states: seq<Device>, steps: seq<DeviceStep>, more: seq<Device>, ms: seq<DeviceStep>)
    requires InTurn(states, steps) && InTurn(more, ms) && states[|steps|] == more[0]
    ensures InTurn(states + more[1..], steps + ms)
  {
    hide TurnAt;
    var all, ss := states + more[1..], steps + ms;
    forall k | 0 <= k < |ss| ensures TurnAt(all[k], ss[k]) {
      if k < |steps| {
        assert all[k] == states[k];
      } else {
        assert all[k] == more[k - |steps|];
      }
    }
  }

  /** What is appended to a path are the dispatches in turn. */
  lemma TurnTail(states: seq<Device>, steps: seq<DeviceStep>, more: seq<Device>, ms: seq<DeviceStep>)
    requires |states| == |steps| + 1 && InTurn(more, ms) && states[|steps|] == more[0]
    ensures InTurn((states + more[1..])[|steps|..], (steps + ms)[|steps|..])
  {
    hide TurnAt;
    assert (steps + ms)[|steps|..] == ms;
    assert (states + more[1..])[|steps|..] == more;
  }

  lemma PathStart(g: Geometry, split: bool, d: Device)
    ensures Path(g, split, [d], []) && Served(d, 0, 0)
  {
  }

  lemma PathStep(g: Geometry, split: bool, states: seq<Device>, steps: seq<DeviceStep>, s: DeviceStep, d': Device)
    requires Path(g, split, states, steps) && |states| == |steps| + 1 && DeviceTakes(g, split, states[|steps|], s, d')
    ensures Path(g, split, states + [d'], steps + [s])
  {
    hide DeviceTakes;
  }

  lemma PathJoin(g: Geometry, split: bool, states: seq<Device>, steps: seq<DeviceStep>, more: seq<Device>,
        ms: seq<DeviceStep>)
    requires Path(g, split, states, steps) && Path(g, split, more, ms) && |states| > 0 && |more| > 0
    requires states[|states| - 1] == more[0]
    ensures Path(g, split, states + more[1..], steps + ms)
    ensures (states + more[1..])[|steps + ms|] == more[|ms|] && (states + more[1..])[0] == states[0]
  {
    hide DeviceTakes;
    var all, ss := states + more[1..], steps + ms;
    forall i | 0 <= i < |ss| ensures DeviceTakes(g, split, all[i], ss[i], all[i + 1]) {
      if i < |steps| {
        assert all[i] == states[i] && all[i + 1] == states[i + 1];
      } else {
        assert all[i] == more[i - |steps|] && all[i + 1] == more[i - |steps| + 1];
      }
    }
  }

  /** After chip `j` of channel `i` was looked at, it is served too. */
  lemma ServedOn(d: Device, d': Device, i: nat, j: nat, split: bool)
    requires Served(d, i, j) && ChipAddr(i, j) in d.chips && i in d.chans && d.chans[i].idle
    requires if d.chips[ChipAddr(i, j)].phase == Spec.Idle
             then var c := ChipAddr(i, j);
                  && c in d'.chips && d'.chips == d.chips[c := d'.chips[c]] && d'.chips[c].pending == d.chips[c].pending
                  && i in d'.chans && d'.chans == d.chans[i := d'.chans[i]]
                  && (d'.chans[i].idle ==> d'.chips == d.chips && Quiet(d'.chips[c]))
             else d' == d
    ensures Served(d', i, j + 1) && (!split && NonePending(d) ==> NonePending(d'))
  {
    hide Quiet;
  }

  class Usbssd {
    const g: Geometry
    const split: bool
    const chips: map<ChipAddr, ChipInfo>
    const channels: map<nat, ChannelInfo>
    var commandID: nat

    constructor (g: Geometry, split: bool, chips: map<ChipAddr, ChipInfo>, channels: map<nat, ChannelInfo>)
      ensures this.g == g && this.split == split && this.chips == chips && this.channels == channels && commandID == 0
    {
      this.g, this.split, this.chips, this.channels, commandID := g, split, chips, channels, 0;
    }

    /** Each chip and each channel is an object of its own, and each chip knows its channel. */
    ghost predicate Wired() {
      && Addressing.Valid(g)
      && (forall c :: c in chips <==> HasChip(g, c))
      && (forall i: nat :: i in channels <==> i < g.channels)
      && (forall c :: c in chips ==>
         chips[c].g == g && chips[c].cfg == ConfigOf(g, c, split) && c.channel in channels
             && chips[c].channel == channels[c.channel])
      && (forall b, c :: b in chips && c in chips && b != c ==> chips[b] != chips[c])
      && (forall i, j :: i in channels && j in channels && i != j ==> channels[i] != channels[j])
    }

    ghost predicate Valid()
      reads chips.Values
    {
      Wired() && forall c :: c in chips ==> chips[c].Valid()
    }

    ghost function ChipShots(): map<ChipAddr, ChipShot>
      reads chips.Values
    {
      map c | c in chips :: chips[c].Shot()
    }

    ghost function ChannelShots(): map<nat, ChannelShot>
      reads channels.Values
    {
      map i | i in channels :: channels[i].Shot()
    }

    /** The state that the device's step function works on. */
    ghost function View(): Device
      reads chips.Values, channels.Values
    {
      Together(g, ChipShots(), ChannelShots())
    }

    method GetCommandID() returns (id: nat)
      modifies `commandID
      ensures id == old(commandID) && commandID == id + 1
    {
      id := commandID;
      commandID := commandID + 1;
    }

    /** What the device's invariant says of one chip and its channel. */
    lemma Before(c: ChipAddr)
      requires Valid() && Sized(g, split) && DeviceInv(g, split, View()) && c in chips
      ensures HasChip(g, c) && c.channel in channels && chips[c].channel == channels[c.channel]
      ensures Addressing.Valid(g) && chips[c].Valid() && chips[c].cfg == ConfigOf(g, c, split)
      ensures Roomy(chips[c].cfg) && Inv(chips[c].cfg, chips[c].View())
      ensures ChannelOk(channels[c.channel].View())
      ensures View().chips.Keys == chips.Keys && View().chips[c] == chips[c].View()
      ensures c.channel in View().chans && View().chans[c.channel] == channels[c.channel].View()
    {
      hide Inv, Agree, Roomy, ConfigOf, ChipInfo.View, ChannelInfo.View, ChipInfo.Valid, ChannelOk, Threshold,
           DieCounts;
      GeometryIsRoomy(g, c, split);
      assert View().chans[c.channel] == channels[c.channel].View();
    }

    /** What a change to one chip and its channel leaves of the whole device. */
    twostate lemma OthersStay(c: ChipAddr)
      requires old(Valid()) && c in chips && c.channel in channels && chips[c].channel == channels[c.channel]
      requires chips[c].Valid()
      requires forall x :: x in chips && x != c ==> unchanged(chips[x])
      requires forall i :: i in channels && i != c.channel ==> unchanged(channels[i])
      ensures Valid()
      ensures ChipShots() == old(ChipShots())[c := chips[c].Shot()]
      ensures ChannelShots() == old(ChannelShots())[c.channel := channels[c.channel].Shot()]
    {
      hide ConfigOf, ChipInfo.View, ChipInfo.Valid, ChannelInfo.View, HasChip, Addressing.Valid;
    }

    method ChipDispatch(c: ChipAddr, id: nat, scratch: PageBuf, junk: seq<PageBuf>) returns (r: Option<nat>)
      requires Valid() && c in chips && c.channel in channels && chips[c].channel == channels[c.channel]
      requires Roomy(chips[c].cfg) && Inv(chips[c].cfg, chips[c].View())
      requires MayDispatch(chips[c].cfg, chips[c].View()) && channels[c.channel].busIdle
      modifies chips[c], channels[c.channel]
      ensures Valid()
      ensures ChipShots() == old(ChipShots())[c := chips[c].Shot()]
      ensures ChannelShots() == old(ChannelShots())[c.channel := channels[c.channel].Shot()]
      ensures Takes(chips[c].cfg, old(chips[c].View()), Dispatches(id, scratch, junk), chips[c].View())
      ensures r.Some? <==> Sends(chips[c].cfg, old(chips[c].View()), Dispatches(id, scratch, junk))
      ensures channels[c.channel].View() == if r.Some? then old(channels[c.channel].View()).(idle := false,
              busIdle := false, timer := true)
                                            else old(channels[c.channel].View())
      ensures chips[c].Sums() == MovedAbove(old(chips[c].Sums()),
              MovedBy(chips[c].cfg, old(chips[c].View()), Dispatches(id, scratch, junk)))
    {
      hide Inv, Roomy, ConfigOf, ChipInfo.View, ChipInfo.Valid, ChipInfo.Sums, MovedBy, Takes, Sends, MayDispatch,
           ChipInfo.Shot, MovedAbove, HasChip, Addressing.Valid, ChannelInfo.Shot, ChipShots, ChannelShots;
      r := chips[c].AllocateCommand(id, scratch, junk);
      OthersStay(c);
    }

    /** The next command of one chip, when the chip is idle. */
    method DispatchOn(c: ChipAddr, scratch: PageBuf, junk: seq<PageBuf>) returns (ghost st: DeviceStep)
      requires Valid() && Sized(g, split) && DeviceInv(g, split, View()) && c in chips
      requires chips[c].channel.idle && MayDispatch(chips[c].cfg, chips[c].View())
      modifies `commandID, chips[c], chips[c].channel
      ensures Valid() && DeviceInv(g, split, View()) && DeviceTakes(g, split, old(View()), st, View())
      ensures st.OnChip? && st.c == c && st.st.Dispatches?
      ensures var d, d' := old(View()), View();
              && c in d.chips && c in d'.chips && d'.chips == d.chips[c := d'.chips[c]]
                 && d'.chips[c].pending == d.chips[c].pending
              && c.channel in d.chans && c.channel in d'.chans && d'.chans == d.chans[c.channel := d'.chans[c.channel]]
              && (d'.chans[c.channel].idle ==> d'.chips == d.chips && Quiet(d'.chips[c]))
    {
      hide DeviceInv, DeviceTakes, Sized, Inv, Roomy, ConfigOf, ChipInfo.View, ChipInfo.Valid, Valid, MovedBy, Takes,
           Sends, MayDispatch, Together, ChipShots, ChannelShots, MovedAbove, Shifted, HasChip;
      Before(c);
      ghost var d, chipShots, chanShots := View(), ChipShots(), ChannelShots();
      var id := GetCommandID();
      ghost var s := Dispatches(id, scratch, junk);
      st := OnChip(c, s);
      ShotsOf(c);
      DiesOf(c);
      var r := ChipDispatch(c, id, scratch, junk);
      ShotsOf(c);
      TakesDefined(chips[c].cfg, chipShots[c].m, s, chips[c].View());
      ghost var moved := MovedBy(chips[c].cfg, chipShots[c].m, s);
      MovedHome(g, split, c, chipShots[c].dies, chipShots[c].m, s);
      TreeMoved(g, chipShots, chanShots, c, chips[c].Shot(), channels[c.channel].Shot(), moved);
      DispatchTakes(g, split, d, c, s, chips[c].View(), channels[c.channel].View());
      NothingSent(chips[c].cfg, chipShots[c].m, s, chips[c].View());
    }

    lemma DiesOf(c: ChipAddr)
      requires Valid() && c in chips
      ensures forall d: nat :: d < g.dies ==> d in chips[c].dieCnt
    {
      hide ConfigOf;
      assert chips[c].Valid();
    }

    lemma ShotsOf(c: ChipAddr)
      requires c in chips && c.channel in channels && chips[c].channel == channels[c.channel]
      ensures c in ChipShots() && ChipShots()[c] == chips[c].Shot()
      ensures chips[c].Shot().m == chips[c].View() && chips[c].Shot().dies == chips[c].dieCnt
      ensures channels[c.channel].Shot().ch == channels[c.channel].View()
      ensures c.channel in ChannelShots() && ChannelShots()[c.channel] == channels[c.channel].Shot()
      ensures AboveOf(chips[c].Shot(), channels[c.channel].Shot()) == chips[c].Sums()
    {
      hide ChipInfo.View, ChannelInfo.View;
    }

    lemma Exist(i: nat)
      requires Valid() && i < g.channels
      ensures i in channels && forall j: nat :: j < g.chips ==> ChipAddr(i, j) in chips
    {
      hide ConfigOf, ChipInfo.Valid;
    }

    /** One chip's turn: if it is idle, its next command goes out. */
    method ServeChip(i: nat, j: nat, scratch: PageBuf, junk: seq<PageBuf>, ghost states0: seq<Device>,
          ghost steps0: seq<DeviceStep>)
      returns (ghost states: seq<Device>, ghost steps: seq<DeviceStep>)
      requires Valid() && Sized(g, split) && DeviceInv(g, split, View()) && i in channels
      requires ChipAddr(i, j) in chips && channels[i].idle
      requires !split ==> NonePending(View())
      requires |states0| == |steps0| + 1 && Path(g, split, states0, steps0) && states0[|steps0|] == View()
      requires Served(View(), i, j) && InTurn(states0, steps0)
      modifies `commandID, chips[ChipAddr(i, j)], channels[i]
      ensures Valid() && DeviceInv(g, split, View())
      ensures !split ==> NonePending(View())
      ensures |states| == |steps| + 1 && Path(g, split, states, steps) && states[0] == states0[0]
      ensures states[|steps|] == View() && InTurn(states, steps)
      ensures Served(View(), i, j + 1)
    {
      hide DeviceInv, DeviceTakes, Sized, Valid, View, Quiet, Served, NonePending, Path, MayDispatch, ConfigOf,
           HasChip, InTurn;
      states, steps := states0, steps0;
      var c := ChipAddr(i, j);
      Before(c);
      ghost var d := View();
      if chips[c].phase == Spec.Idle {
        Ready(c);
        ghost var st := DispatchOn(c, scratch, junk);
        PathStep(g, split, states, steps, st, View());
        TurnStep(states, steps, st, View());
        states, steps := states + [View()], steps + [st];
      }
      ServedOn(d, View(), i, j, split);
    }

    /** The chips of one channel, for as long as the channel is idle. */
    method ServeChannel(i: nat, scratch: PageBuf, junk: seq<PageBuf>)
      returns (ghost states: seq<Device>, ghost steps: seq<DeviceStep>)
      requires Valid() && Sized(g, split) && DeviceInv(g, split, View()) && i < g.channels
      requires !split ==> NonePending(View())
      requires Served(View(), i, 0)
      modifies `commandID, chips.Values, channels.Values
      ensures Valid() && DeviceInv(g, split, View())
      ensures !split ==> NonePending(View())
      ensures |states| == |steps| + 1
      ensures Path(g, split, states, steps) && states[0] == old(View()) && states[|steps|] == View()
      ensures Served(View(), i + 1, 0) && InTurn(states, steps)
    {
      hide DeviceInv, Sized, Valid, View, Served, NonePending, Path, TurnAt;
      states, steps := [View()], [];
      PathStart(g, split, View());
      var j: nat := 0;
      Exist(i);
      while j < g.chips && channels[i].idle
        invariant j <= g.chips && Valid() && DeviceInv(g, split, View())
        invariant !split ==> NonePending(View())
        invariant |states| == |steps| + 1
        invariant Path(g, split, states, steps) && states[0] == old(View()) && states[|steps|] == View()
        invariant Served(View(), i, j) && InTurn(states, steps)
      {
        states, steps := ServeChip(i, j, scratch, junk, states, steps);
        j := j + 1;
      }
      ServedChannel(i, j);
    }

    lemma Ready(c: ChipAddr)
      requires Valid() && Sized(g, split) && DeviceInv(g, split, View()) && c in chips && chips[c].phase == Spec.Idle
      requires !split ==> NonePending(View())
      ensures MayDispatch(chips[c].cfg, chips[c].View())
    {
      Before(c);
    }

    lemma ServedChannel(i: nat, j: nat)
      requires Valid() && DeviceInv(g, split, View()) && i < g.channels && i in channels
      requires Served(View(), i, j) && (j >= g.chips || !channels[i].idle)
      ensures Served(View(), i + 1, 0)
    {
      hide Inv, Agree, Quiet, ConfigOf, ChipInfo.View, ChipInfo.Valid, DieCounts;
      var d := View();
      assert d.chans[i] == channels[i].View();
    }

    /** The dispatch loop: over every channel, and over its chips for as long as it is idle.
        Afterwards no chip that is idle behind an idle channel has anything to send. */
    method AllocateCommandUsbssd(scratch: PageBuf, junk: seq<PageBuf>)
      returns (ghost states: seq<Device>, ghost steps: seq<DeviceStep>)
      requires Valid() && Sized(g, split) && DeviceInv(g, split, View())
      requires !split ==> NonePending(View())
      modifies `commandID, chips.Values, channels.Values
      ensures Valid() && DeviceInv(g, split, View())
      ensures |states| == |steps| + 1
      ensures Path(g, split, states, steps) && states[0] == old(View()) && states[|steps|] == View()
      ensures Served(View(), g.channels, 0) && InTurn(states, steps)
    {
      hide DeviceInv, Sized, Valid, View, NonePending, Path, Served, TurnAt;
      states, steps := [View()], [];
      PathStart(g, split, View());
      var i: nat := 0;
      while i < g.channels
        invariant i <= g.channels && Valid() && DeviceInv(g, split, View())
        invariant !split ==> NonePending(View())
        invariant |states| == |steps| + 1
        invariant Path(g, split, states, steps) && states[0] == old(View()) && states[|steps|] == View()
        invariant Served(View(), i, 0) && InTurn(states, steps)
      {
        ghost var more, ms := ServeChannel(i, scratch, junk);
        TurnJoin(states, steps, more, ms);
        PathJoin(g, split, states, steps, more, ms);
        states, steps := states + more[1..], steps + ms;
        i := i + 1;
      }
    }

    // ---------------------------------------------------------------- completions

    method ChipCompletes(c: ChipAddr)
      requires Valid() && c in chips && c.channel in channels && chips[c].channel == channels[c.channel]
      requires Inv(chips[c].cfg, chips[c].View()) && chips[c].hw.signal && chips[c].pending.None?
      modifies chips[c], channels[c.channel]
      ensures Valid()
      ensures ChipShots() == old(ChipShots())[c := chips[c].Shot()]
      ensures ChannelShots() == old(ChannelShots())[c.channel := channels[c.channel].Shot()]
      ensures Takes(chips[c].cfg, old(chips[c].View()), Completes, chips[c].View())
      ensures channels[c.channel].View() == old(channels[c.channel].View())
      ensures chips[c].Sums() == MovedAbove(old(chips[c].Sums()),
              MovedBy(chips[c].cfg, old(chips[c].View()), Completes))
    {
      hide Inv, ConfigOf, ChipInfo.View, ChipInfo.Valid, ChipInfo.Sums, MovedBy, Takes, ChipInfo.Shot,
           ChannelInfo.Shot, MovedAbove, HasChip, Addressing.Valid, ChipShots, ChannelShots;
      chips[c].RecvSignalBack();
      OthersStay(c);
    }

    method ChipChecks(c: ChipAddr, id: nat)
      requires Valid() && c in chips && c.channel in channels && chips[c].channel == channels[c.channel]
      requires Roomy(chips[c].cfg) && Inv(chips[c].cfg, chips[c].View()) && chips[c].pending.Some?
      modifies chips[c]
      ensures Valid()
      ensures ChipShots() == old(ChipShots())[c := chips[c].Shot()] && ChannelShots() == old(ChannelShots())
      ensures Takes(chips[c].cfg, old(chips[c].View()), Checks(id), chips[c].View())
      ensures chips[c].Sums() == old(chips[c].Sums())
    {
      hide Inv, Roomy, ConfigOf, ChipInfo.View, ChipInfo.Valid, MovedBy, Takes;
      chips[c].CheckAndCreateGc(id);
    }

    /** The completion of one chip, as a step of the device. */
    method CompleteOn(c: ChipAddr)
      requires Valid() && Sized(g, split) && DeviceInv(g, split, View()) && c in chips
      requires chips[c].hw.signal && chips[c].pending.None?
      modifies chips[c], chips[c].channel
      ensures Valid() && DeviceInv(g, split, View()) && DeviceTakes(g, split, old(View()), OnChip(c, Completes), View())
      ensures var d, d' := old(View()), View(); c in d'.chips && d'.chips == d.chips[c := d'.chips[c]]
    {
      hide DeviceInv, DeviceTakes, Sized, Inv, Roomy, ConfigOf, ChipInfo.View, ChipInfo.Valid, Valid, MovedBy, Takes,
           Together, ChipShots, ChannelShots, MovedAbove, Shifted, HasChip;
      Before(c);
      ghost var d, chipShots, chanShots := View(), ChipShots(), ChannelShots();
      ShotsOf(c);
      DiesOf(c);
      ChipCompletes(c);
      ShotsOf(c);
      ghost var moved := MovedBy(chips[c].cfg, chipShots[c].m, Completes);
      TakesDefined(chips[c].cfg, chipShots[c].m, Completes, chips[c].View());
      MovedHome(g, split, c, chipShots[c].dies, chipShots[c].m, Completes);
      TreeMoved(g, chipShots, chanShots, c, chips[c].Shot(), channels[c.channel].Shot(), moved);
      ChipTakes(g, split, d, c, Completes, chips[c].View());
      assert d.chans[c.channel := channels[c.channel].View()] == d.chans;
    }

    /** The collection check of one chip, as a step of the device. */
    method CheckOn(c: ChipAddr) returns (ghost st: DeviceStep)
      requires Valid() && Sized(g, split) && DeviceInv(g, split, View()) && c in chips && chips[c].pending.Some?
      modifies `commandID, chips[c]
      ensures Valid() && DeviceInv(g, split, View()) && DeviceTakes(g, split, old(View()), st, View())
      ensures st.OnChip? && st.c == c && st.st.Checks?
      ensures var d, d' := old(View()), View();
              c in d'.chips && d'.chips == d.chips[c := d'.chips[c]] && d'.chips[c].pending.None?
    {
      hide DeviceInv, DeviceTakes, Sized, Inv, Roomy, ConfigOf, ChipInfo.View, ChipInfo.Valid, Valid, MovedBy, Takes,
           Together, ChipShots, ChannelShots, Shifted, HasChip;
      Before(c);
      ghost var d, chipShots, chanShots := View(), ChipShots(), ChannelShots();
      ShotsOf(c);
      DiesOf(c);
      var id := GetCommandID();
      st := OnChip(c, Checks(id));
      ChipChecks(c, id);
      ShotsOf(c);
      CheckMovesNothing(chips[c].cfg, chipShots[c].m, id, chips[c].View());
      TreeMoved(g, chipShots, chanShots, c, chips[c].Shot(), channels[c.channel].Shot(), None);
      assert chanShots[c.channel := channels[c.channel].Shot()] == chanShots;
      ChipTakes(g, split, d, c, Checks(id), chips[c].View());
      assert d.chans[c.channel := channels[c.channel].View()] == d.chans;
    }

    /** When only chip `c` can have a check to make, none has afterwards. */
    lemma ChecksLeft(d: Device, d': Device, c: ChipAddr)
      requires NonePending(d) && c in d'.chips && d'.chips == d.chips[c := d'.chips[c]] && d'.chips[c].pending.None?
      ensures NonePending(d')
    {
    }

    /** The collection check that a finished host write asks for. */
    method CheckNoted(c: ChipAddr, ghost d: Device, ghost states0: seq<Device>, ghost steps0: seq<DeviceStep>)
      returns (ghost states: seq<Device>, ghost steps: seq<DeviceStep>)
      requires Valid() && Sized(g, split) && DeviceInv(g, split, View()) && c in chips && NonePending(d)
      requires c in View().chips && View().chips == d.chips[c := View().chips[c]]
      requires |states0| == |steps0| + 1 && Path(g, split, states0, steps0) && states0[|steps0|] == View()
      modifies `commandID, chips[c]
      ensures Valid() && DeviceInv(g, split, View()) && NonePending(View())
      ensures |states| == |steps| + 1 && Path(g, split, states, steps) && states[|steps|] == View()
      ensures states0 <= states && steps0 <= steps
      ensures if old(chips[c].pending).Some?
              then |steps| == |steps0| + 1 && steps[|steps0|].OnChip? && steps[|steps0|].c == c
                   && steps[|steps0|].st.Checks?
              else steps == steps0
    {
      hide DeviceInv, DeviceTakes, Sized, Valid, Path, View, ConfigOf, Inv, Roomy, NonePending, HasChip, ChipInfo.Valid;
      Before(c);
      states, steps := states0, steps0;
      if chips[c].pending.Some? {
        ghost var st := CheckOn(c);
        PathStep(g, split, states, steps, st, View());
        states, steps := states + [View()], steps + [st];
        assert View().chips == d.chips[c := View().chips[c]];
      }
      ChecksLeft(d, View(), c);
    }

    /** The completion of chip `c` and, when a check is due after it, that check. */
    ghost predicate Finishing(c: ChipAddr, states: seq<Device>, steps: seq<DeviceStep>) {
      && |states| == |steps| + 1 >= 2 && c in states[1].chips && steps[0] == OnChip(c, Completes)
      && if states[1].chips[c].pending.Some?
         then |steps| == 2 && steps[1].OnChip? && steps[1].c == c && steps[1].st.Checks?
         else |steps| == 1
    }

    /** A chip finishes its command; a finished host write is followed by the collection
        check of its plane. */
    method FinishOn(c: ChipAddr) returns (ghost states: seq<Device>, ghost steps: seq<DeviceStep>)
      requires Valid() && Sized(g, split) && DeviceInv(g, split, View()) && c in chips && chips[c].hw.signal
      requires NonePending(View())
      modifies `commandID, chips[c], chips[c].channel
      ensures Valid() && DeviceInv(g, split, View()) && NonePending(View())
      ensures |states| == |steps| + 1 && |steps| > 0 && steps[0] == OnChip(c, Completes)
      ensures Path(g, split, states, steps) && states[0] == old(View()) && states[|steps|] == View()
      ensures Finishing(c, states, steps)
    {
      hide DeviceInv, DeviceTakes, Sized, Valid, Path, View, ConfigOf, Inv, Roomy, NonePending, HasChip, ChipInfo.Valid;
      Before(c);
      NoneNoted(c);
      ghost var d := View();
      PathStart(g, split, d);
      CompleteOn(c);
      PathStep(g, split, [d], [], OnChip(c, Completes), View());
      NotedIs(c);
      states, steps := CheckNoted(c, d, [d] + [View()], [] + [OnChip(c, Completes)]);
    }

    lemma NotedIs(c: ChipAddr)
      requires c in chips
      ensures c in View().chips && View().chips[c].pending == chips[c].pending
    {
    }

    lemma NoneNoted(c: ChipAddr)
      requires c in chips && NonePending(View())
      ensures chips[c].pending.None?
    {
      assert View().chips[c].pending.None?;
    }

    /** A chip's completion comes in: its command is finished, and whatever can go out on
        the device is sent. */
    method RecvSignalChip(c: ChipAddr, scratch: PageBuf, junk: seq<PageBuf>)
      returns (ghost states: seq<Device>, ghost steps: seq<DeviceStep>, ghost n: nat)
      requires Valid() && Sized(g, split) && DeviceInv(g, split, View()) && c in chips && chips[c].hw.signal
      requires NonePending(View())
      modifies `commandID, chips.Values, channels.Values
      ensures Valid() && DeviceInv(g, split, View())
      ensures |states| == |steps| + 1 && |steps| > 0 && steps[0] == OnChip(c, Completes)
      ensures Path(g, split, states, steps) && states[0] == old(View()) && states[|steps|] == View()
      ensures n <= |steps| && Finishing(c, states[..n + 1], steps[..n]) && InTurn(states[n..], steps[n..])
      ensures Served(View(), g.channels, 0)
    {
      hide DeviceInv, DeviceTakes, Sized, Valid, Path, View, ConfigOf, Inv, Roomy, Served, NonePending, InTurn;
      Before(c);
      states, steps := FinishOn(c);
      n := |steps|;
      ghost var more, ms := AllocateCommandUsbssd(scratch, junk);
      PathJoin(g, split, states, steps, more, ms);
      TurnTail(states, steps, more, ms);
      assert (states + more[1..])[..n + 1] == states && (steps + ms)[..n] == steps;
      states, steps := states + more[1..], steps + ms;
    }

    lemma Distinct(i: nat)
      requires Valid() && i in channels
      ensures forall j :: j in channels && j != i ==> channels[j] != channels[i]
    {
      hide ConfigOf, ChipInfo.Valid;
    }

    /** A channel's completion comes in: the channel is idle again. */
    method ReleaseChannel(i: nat)
      requires Valid() && Sized(g, split) && DeviceInv(g, split, View()) && i in channels && channels[i].signal
      modifies channels[i]
      ensures Valid() && DeviceInv(g, split, View()) && DeviceTakes(g, split, old(View()), ChannelCompletes(i), View())
      ensures View().chips == old(View()).chips
    {
      hide DeviceInv, DeviceTakes, Sized, Inv, Roomy, ConfigOf, ChipInfo.View, Valid, Together;
      ghost var d, chanShots := View(), ChannelShots();
      Distinct(i);
      channels[i].idle, channels[i].signal := true, false;
      assert ChannelShots() == chanShots[i := channels[i].Shot()];
      ChannelBack(g, split, ChipShots(), chanShots, i, channels[i].Shot());
    }

    method RecvSignalChannel(i: nat, scratch: PageBuf, junk: seq<PageBuf>)
      returns (ghost states: seq<Device>, ghost steps: seq<DeviceStep>)
      requires Valid() && Sized(g, split) && DeviceInv(g, split, View()) && i in channels && channels[i].signal
               && (!split ==> NonePending(View()))
      modifies `commandID, chips.Values, channels.Values
      ensures Valid() && DeviceInv(g, split, View())
      ensures |states| == |steps| + 1 && |steps| > 0 && steps[0] == ChannelCompletes(i)
      ensures Path(g, split, states, steps) && states[0] == old(View()) && states[|steps|] == View()
      ensures Served(View(), g.channels, 0) && InTurn(states[1..], steps[1..])
    {
      hide DeviceInv, DeviceTakes, Sized, Valid, Path, View, Served, InTurn;
      ghost var d := View();
      PathStart(g, split, d);
      ReleaseChannel(i);
      PathStep(g, split, [d], [], ChannelCompletes(i), View());
      states, steps := [d] + [View()], [] + [ChannelCompletes(i)];
      ghost var more, ms := AllocateCommandUsbssd(scratch, junk);
      PathJoin(g, split, states, steps, more, ms);
      TurnTail(states, steps, more, ms);
      states, steps := states + more[1..], steps + ms;
    }

    // ---------------------------------------------------------------- the audit

    /** Sums the counters of a plane's blocks; `clean` says that the plane agrees. */
    static method CheckPlane(pl: Plane) returns (sum: Counts, clean: bool)
      ensures sum == Total(BlockCounts(pl.blocks)) && (clean <==> pl.cnt == sum)
    {
      sum := ZERO;
      for b := 0 to |pl.blocks|
        invariant sum == Total(BlockCounts(pl.blocks)[..b])
      {
        sum := Plus(sum, pl.blocks[b].cnt);
        assert BlockCounts(pl.blocks)[..b + 1][..b] == BlockCounts(pl.blocks)[..b];
      }
      assert BlockCounts(pl.blocks)[..|pl.blocks|] == BlockCounts(pl.blocks);
      clean := pl.cnt == sum;
    }

    /** The chips have their planes, and every level has its counters. */
    ghost predicate Counted()
      reads chips.Values, channels.Values
    {
      && (forall c :: c in chips <==> HasChip(g, c))
      && (forall i: nat :: i in channels <==> i < g.channels)
      && (forall c :: c in chips ==> chips[c].planes.Keys == ChipPlanes(g, c) && forall d: nat :: d < g.dies ==>
         d in chips[c].dieCnt)
    }

    /** The block counters of the planes of the chips, as the audit adds them up. */
    ghost function Added(): PlaneAddr -> Counts
      reads chips.Values
    {
      BlockCnt(ChipStates(ChipShots()))
    }

    lemma AddedAt(c: ChipAddr, a: PlaneAddr)
      requires c in chips && ChipOf(a) == c && a in chips[c].planes
      ensures Added()(a) == Total(BlockCounts(chips[c].planes[a].blocks))
    {
      hide Total, BlockCounts;
    }

    /** Every plane of a die counts its blocks right, and the die its planes. */
    ghost predicate DieClean(c: ChipAddr, die: nat)
      requires Counted() && c in chips && die < g.dies
      reads chips.Values, channels.Values
    {
      && chips[c].dieCnt[die] == DieSum(g, Added(), DieAddr(c.channel, c.chip, die))
      && forall p: nat :: p < g.planes ==> PlaneClean(chips[c].planes[PlaneAddr(c.channel, c.chip, die, p)])
    }

    method CheckDie(c: ChipAddr, die: nat) returns (sum: Counts, clean: bool)
      requires Counted() && c in chips && die < g.dies
      ensures sum == DieSum(g, Added(), DieAddr(c.channel, c.chip, die)) && (clean <==> DieClean(c, die))
    {
      hide Total, BlockCounts, ChipInfo.View, Added;
      ghost var f := Added();
      sum, clean := ZERO, true;
      for p := 0 to g.planes
        invariant sum == Sum(DieRow(f, DieAddr(c.channel, c.chip, die)), p)
        invariant clean <==> forall q: nat :: q < p ==>
                  PlaneClean(chips[c].planes[PlaneAddr(c.channel, c.chip, die, q)])
      {
        var a := PlaneAddr(c.channel, c.chip, die, p);
        AddedAt(c, a);
        var s, ok := CheckPlane(chips[c].planes[a]);
        sum, clean := Plus(sum, s), clean && ok;
      }
      clean := clean && chips[c].dieCnt[die] == sum;
    }

    ghost predicate DiesClean(c: ChipAddr, n: nat)
      requires Counted() && c in chips && n <= g.dies
      reads chips.Values, channels.Values
    {
      forall d: nat :: d < n ==> DieClean(c, d)
    }

    lemma DiesNext(c: ChipAddr, n: nat)
      requires Counted() && c in chips && n < g.dies
      ensures DiesClean(c, n + 1) <==> DiesClean(c, n) && DieClean(c, n)
    {
      hide Counted, DieClean;
    }

    lemma NoDies(c: ChipAddr)
      requires Counted() && c in chips
      ensures DiesClean(c, 0)
    {
    }

    ghost predicate ChipClean(c: ChipAddr)
      requires Counted() && c in chips
      reads chips.Values, channels.Values
    {
      chips[c].cnt == ChipSum(g, Added(), c) && DiesClean(c, g.dies)
    }

    method CheckChip(c: ChipAddr) returns (sum: Counts, clean: bool)
      requires Counted() && c in chips
      ensures sum == ChipSum(g, Added(), c) && (clean <==> ChipClean(c))
    {
      hide Added, Counted, DieClean, DiesClean, DieSum;
      ghost var f := Added();
      sum, clean := ZERO, true;
      assert DiesClean(c, 0) by { NoDies(c); }
      for d := 0 to g.dies
        invariant sum == Sum(ChipRow(g, f, c), d)
        invariant clean <==> DiesClean(c, d)
      {
        var s, ok := CheckDie(c, d);
        DiesNext(c, d);
        sum, clean := Plus(sum, s), clean && ok;
      }
      clean := clean && chips[c].cnt == sum;
    }

    /** The audit: it finds nothing to report exactly when every counter of every plane, die,
        chip and channel is the sum of the counters below. */
    method Check() returns (clean: bool)
      requires Counted()
      ensures clean <==> AuditClean(g, View())
    {
      hide Added, Counted, ChannelClean, ChannelsClean, AuditClean;
      clean := true;
      NoChannels();
      for i := 0 to g.channels
        invariant clean <==> ChannelsClean(i)
      {
        var fine := CheckChannel(i);
        ChannelsNext(i);
        clean := clean && fine;
      }
      AuditIs();
    }

    method CheckChannel(i: nat) returns (clean: bool)
      requires Counted() && i < g.channels
      ensures clean <==> ChannelClean(i)
    {
      hide Added, Counted, ChipClean;
      ghost var f := Added();
      HasChannel(i);
      var sum, fine := ZERO, true;
      for k := 0 to g.chips
        invariant sum == Sum(ChanRow(g, f, i), k)
        invariant fine <==> ChipsClean(i, k)
      {
        var s, ok := CheckChip(ChipAddr(i, k));
        ChipsNext(i, k);
        sum, fine := Plus(sum, s), fine && ok;
      }
      clean := fine && channels[i].cnt == sum;
    }

    ghost predicate ChipsClean(i: nat, n: nat)
      requires Counted()
      reads chips.Values, channels.Values
    {
      forall k: nat :: k < n ==> ChipAddr(i, k) in chips && ChipClean(ChipAddr(i, k))
    }

    lemma ChipsNext(i: nat, n: nat)
      requires Counted() && ChipAddr(i, n) in chips
      ensures ChipsClean(i, n + 1) <==> ChipsClean(i, n) && ChipClean(ChipAddr(i, n))
    {
      hide Counted, ChipClean;
    }

    ghost predicate ChannelsClean(n: nat)
      requires Counted()
      reads chips.Values, channels.Values
    {
      forall i: nat :: i < n ==> ChannelClean(i)
    }

    lemma NoChannels()
      requires Counted()
      ensures ChannelsClean(0)
    {
    }

    lemma ChannelsNext(n: nat)
      requires Counted()
      ensures ChannelsClean(n + 1) <==> ChannelsClean(n) && ChannelClean(n)
    {
      hide Counted, ChannelClean;
    }

    lemma HasChannel(i: nat)
      requires Counted() && i < g.channels
      ensures i in channels && forall k: nat :: k < g.chips ==> ChipAddr(i, k) in chips
    {
    }

    ghost predicate ChannelClean(i: nat)
      requires Counted()
      reads chips.Values, channels.Values
    {
      i in channels && channels[i].cnt == ChanSum(g, Added(), i) && ChipsClean(i, g.chips)
    }

    lemma AuditIs()
      requires Counted()
      ensures AuditClean(g, View()) <==> ChannelsClean(g.channels)
    {
      hide AuditClean, ChannelClean;
      if AuditClean(g, View()) {
        forall j: nat | j < g.channels ensures ChannelClean(j) {
          CleanChannel(j);
        }
      } else if ChannelsClean(g.channels) {
        AllClean();
      }
    }

    /** What the view of the device holds of one chip. */
    lemma TreeAt(c: ChipAddr)
      requires Counted() && c in chips
      ensures View().chips.Keys == chips.Keys && View().chips[c].planes == chips[c].planes
      ensures forall d: nat :: d < g.dies ==>
                && HasDie(g, DieAddr(c.channel, c.chip, d)) && DieAddr(c.channel, c.chip, d) in View().tree.dies
                && View().tree.dies[DieAddr(c.channel, c.chip, d)] == chips[c].dieCnt[d]
      ensures c in View().tree.chips && View().tree.chips[c] == chips[c].cnt
    {
      hide ChipInfo.View, ChannelInfo.View;
      assert ChipShots()[c] == chips[c].Shot();
      assert chips[c].View().planes == chips[c].planes by { ViewPlanes(c); }
    }

    lemma ViewPlanes(c: ChipAddr)
      requires c in chips
      ensures chips[c].View().planes == chips[c].planes
    {
    }

    lemma CleanChannel(i: nat)
      requires Counted() && AuditClean(g, View()) && i < g.channels
      ensures ChannelClean(i)
    {
      hide ChipInfo.View, DieSum, ChipSum, ChanSum, Total, BlockCounts, View;
      AddedIs();
      HasChannel(i);
      ChannelAt(i);
      forall k: nat | k < g.chips ensures ChipAddr(i, k) in chips && ChipClean(ChipAddr(i, k)) {
        var c := ChipAddr(i, k);
        TreeAt(c);
        forall d: nat | d < g.dies ensures DieClean(c, d) {
          forall p: nat | p < g.planes ensures PlaneClean(chips[c].planes[PlaneAddr(c.channel, c.chip, d, p)]) {
            assert PlaneAddr(c.channel, c.chip, d, p) in View().chips[c].planes;
          }
        }
      }
    }

    lemma AddedIs()
      ensures Added() == BlockCnt(View().chips)
    {
    }

    lemma ChannelAt(i: nat)
      requires i in channels
      ensures i in View().tree.chans && View().tree.chans[i] == channels[i].cnt
    {
      hide ChipInfo.View;
      assert ChannelShots()[i] == channels[i].Shot();
    }

    lemma AllClean()
      requires Counted() && ChannelsClean(g.channels)
      ensures AuditClean(g, View())
    {
      hide ChipInfo.View, DieSum, ChipSum, ChanSum, Total, BlockCounts, View;
      AddedIs();
      forall c | HasChip(g, c)
        ensures c in chips && ChipClean(c) && View().chips.Keys == chips.Keys
                && View().chips[c].planes == chips[c].planes
        ensures c in View().tree.chips && View().tree.chips[c] == chips[c].cnt
      {
        assert ChannelClean(c.channel);
        assert ChipAddr(c.channel, c.chip) == c;
        TreeAt(c);
      }
      forall x | HasDie(g, x) ensures x in View().tree.dies && View().tree.dies[x] == DieSum(g, Added(), x) {
        var c := ChipAddr(x.channel, x.chip);
        assert HasChip(g, c);
        TreeAt(c);
        assert DieClean(c, x.die);
      }
      forall i: nat | i < g.channels ensures i in View().tree.chans && View().tree.chans[i] == ChanSum(g, Added(), i) {
        HasChannel(i);
        ChannelAt(i);
        assert ChannelClean(i);
      }
      PlanesClean();
    }

    lemma PlanesClean()
      requires Counted() && forall c :: c in chips ==> ChipClean(c)
      ensures forall c, a :: c in View().chips && a in View().chips[c].planes ==>
              View().chips[c].planes[a].cnt == Total(BlockCounts(View().chips[c].planes[a].blocks))
    {
      hide ChipInfo.View, DieSum, ChipSum, ChanSum, Total, BlockCounts, View;
      ViewKeys();
      forall c, a | c in View().chips && a in View().chips[c].planes
        ensures View().chips[c].planes[a].cnt == Total(BlockCounts(View().chips[c].planes[a].blocks))
      {
        TreeAt(c);
        assert DieClean(c, a.die);
        assert PlaneAddr(c.channel, c.chip, a.die, a.plane) == a;
        assert PlaneClean(chips[c].planes[a]);
      }
    }

    lemma ViewKeys()
      ensures View().chips.Keys == chips.Keys
    {
      hide ChipInfo.View;
    }
  }
}
