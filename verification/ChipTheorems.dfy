/** What the invariant is for: the promises of the translation layer, for every step of every
    run of a chip. */
module ChipTheorems {
  import opened Flash
  import opened Lists
  import opened Sectors
  import opened Chip
  import opened ChipInv
  import opened ChipHost
  import opened ChipCommit
  import opened ChipRuns

  // ---------------------------------------------------------------- a simple store

  /** What the device gives back for a logical page: the mapped sectors of the NAND page the
      map names. */
  function ReadBack(m: Chip, l: nat): map<nat, Sector>
    requires l in m.entries && (m.entries[l].subPage != {} ==> m.entries[l].loc in m.cells)
  {
    map i | i in m.entries[l].subPage && i < SECTORS :: m.cells[m.entries[l].loc][i]
  }

  ghost predicate Readable(m: Chip) {
    forall l :: l in m.entries && m.entries[l].subPage != {} ==> m.entries[l].loc in m.cells
  }

  /** The whole content of the device, as a plain key-value store. */
  ghost function Content(m: Chip): map<nat, map<nat, Sector>>
    requires Readable(m)
  {
    map l | l in m.entries :: ReadBack(m, l)
  }

  /** The bytes `found` are what `data` promises: the same sectors, and the right bytes in
      every sector that is not lost. */
  ghost predicate Delivers(found: map<nat, Sector>, data: Data) {
    && found.Keys == data.Keys
    && forall i :: i in data && data[i].Some? ==> found[i] == data[i].value
  }

  ghost predicate Agrees(content: map<nat, map<nat, Sector>>, store: map<nat, Data>) {
    content.Keys == store.Keys && forall l :: l in store ==> Delivers(content[l], store[l])
  }

  lemma ContentIsStore(cfg: Config, m: Chip)
    requires Inv(cfg, m)
    ensures Readable(m) && Agrees(Content(m), m.store)
  {
    hide Exact, MapForward, MapBackward, PlanesShape, TableShape, ListShape, SubsShape, Writes, Reads, EraseQueue,
         Marked, Room, Hosts, Collecting, Burnt, InStep, Queues, Looked, Firm;
    forall l | l in m.entries
      ensures (m.entries[l].subPage != {} ==> m.entries[l].loc in m.cells) && Delivers(ReadBack(m, l), m.store[l])
    {
      if m.entries[l].subPage != {} { WithinIs(m.entries[l].subPage); }
    }
  }

  /** The host write a step completes, if any. */
  function Finished(m: Chip, st: Step): Option<Sub> {
    if st.Completes? && m.phase == Programming then HostOut(m) else None
  }

  /** The simple store: the only step that changes it is the completion of a host write, which
      overwrites the sectors the host handed over. What is lost with it is the sectors above
      the first hole of its bitmap, and the old sectors when its companion read came late. */
  function StoreNext(store: map<nat, Data>, w: Option<Sub>): map<nat, Data> {
    if w.Some? && w.value.lpn in store then store[w.value.lpn := Settled(w.value, store[w.value.lpn])] else store
  }

  lemma DispatchStore(cfg: Config, m: Chip, st: Step)
    requires st.Dispatches? && Defined(cfg, m, st)
    ensures Next(cfg, m, st).store == m.store
  {
    hide Shape, GetCommand, Send;
  }

  lemma ProgramStore(cfg: Config, m: Chip)
    requires ProgramDone(cfg, m)
    ensures Shape(cfg, m) && EndIndex(m, EndQueue(m), m.hw.id) < |EndQueue(m)|
    ensures Complete(cfg, m).store == StoreNext(m.store, Finished(m, Completes))
  {
    hide Inv, Shape, Exact, MapForward, MapBackward, Complete, MovedPlanes, PlanesShape, TableShape, ListShape, Settled;
    LandingDefined(cfg, m);
    ProgramFacts(cfg, m);
  }

  lemma CompleteStore(cfg: Config, m: Chip)
    requires Inv(cfg, m) && Guard(cfg, m, Completes)
    ensures Defined(cfg, m, Completes) && Next(cfg, m, Completes).store == StoreNext(m.store, Finished(m, Completes))
  {
    hide Inv, Shape, EndProgram, EndReadAddr, EndReadData, EndErase, Settled;
    CompleteKeeps(cfg, m);
    if m.phase == Programming {
      ProgramStore(cfg, m);
    }
  }

  lemma StoreStep(cfg: Config, m: Chip, st: Step)
    requires Roomy(cfg) && Inv(cfg, m) && Guard(cfg, m, st)
    ensures Defined(cfg, m, st) && Next(cfg, m, st).store == StoreNext(m.store, Finished(m, st))
  {
    hide Inv, Shape, Complete, Dispatch, Victim, MayWrite, MayRead, Finished, GetCommand, Settled;
    StepKeeps(cfg, m, st);
    NotFinished(m, st);
    if st.Completes? {
      CompleteStore(cfg, m);
    } else if st.Dispatches? {
      DispatchStore(cfg, m, st);
    }
  }

  lemma NotFinished(m: Chip, st: Step)
    ensures !st.Completes? ==> Finished(m, st).None?
  {
  }

  /** Refinement, step by step: whatever the step does, the content of the device is what the
      simple store says after it. Dispatches, relocations, erases and collection checks leave
      the store alone. */
  lemma ContentStep(cfg: Config, m: Chip, st: Step)
    requires Roomy(cfg) && Inv(cfg, m) && Guard(cfg, m, st)
    ensures Defined(cfg, m, st) && Readable(m) && Readable(Next(cfg, m, st))
    ensures Agrees(Content(m), m.store)
    ensures Agrees(Content(Next(cfg, m, st)), StoreNext(m.store, Finished(m, st)))
  {
    hide Inv, Next, Guard, Content, Readable, Finished, Agrees;
    StepKeeps(cfg, m, st);
    StoreStep(cfg, m, st);
    ContentIsStore(cfg, m);
    ContentIsStore(cfg, Next(cfg, m, st));
  }

  /** The simple store after the first `n` steps of a run. */
  ghost function StoreOf(states: seq<Chip>, steps: seq<Step>, n: nat): map<nat, Data>
    requires n <= |steps| && |states| == |steps| + 1
  {
    if n == 0 then map l | l in states[0].entries :: map[]
    else StoreNext(StoreOf(states, steps, n - 1), Finished(states[n - 1], steps[n - 1]))
  }

  lemma {:induction false} RunStore(cfg: Config, states: seq<Chip>, steps: seq<Step>, n: nat)
    requires Roomy(cfg) && Run(cfg, states, steps) && n < |states|
    ensures states[n].store == StoreOf(states, steps, n)
  {
    hide Inv, Next, Guard, Defined, Finished, StoreNext;
    if n > 0 {
      hide Init;
      RunStore(cfg, states, steps, n - 1);
      RunKeeps(cfg, states, steps, n - 1);
      StoreStep(cfg, states[n - 1], steps[n - 1]);
    }
  }

  /** Refinement over whole runs: whatever is interleaved, every mapped sector that is not lost
      reads back as the last completed write of it. */
  lemma RunContent(cfg: Config, states: seq<Chip>, steps: seq<Step>, n: nat)
    requires Roomy(cfg) && Run(cfg, states, steps) && n < |states|
    ensures Readable(states[n]) && Agrees(Content(states[n]), StoreOf(states, steps, n))
  {
    hide Inv, Init, Next, Guard, Defined, Finished, Content, Readable, Agrees, StoreOf, Run;
    RunKeeps(cfg, states, steps, n);
    RunStore(cfg, states, steps, n);
    ContentIsStore(cfg, states[n]);
  }

  // ---------------------------------------------------------------- read, modify, write

  /** A host write that goes to the NAND chip carries the whole page it will become: its
      bitmap is what was mapped and what the host wrote, the host's sectors hold the host's
      bytes, and unless its companion came late every other sector that is not lost its old ones. */
  lemma WriteIsWhole(cfg: Config, m: Chip)
    requires Inv(cfg, m) && m.phase == Programming && HostOut(m).Some?
    ensures Readable(m)
    ensures var s := HostOut(m).value;
            && s.lpn in Content(m) && s.lpn in m.store && !s.paired
            && s.bits == Content(m)[s.lpn].Keys + s.host.Keys
            && (forall i :: i in s.host && s.host[i].Some? ==> i < SECTORS && s.buf[i] == s.host[i].value)
            && (s.whole ==> forall i :: i in m.store[s.lpn] && i !in s.host && m.store[s.lpn][i].Some? ==>
                  i < SECTORS && i in Content(m)[s.lpn] && s.buf[i] == Content(m)[s.lpn][i])
  {
    ContentIsStore(cfg, m);
    hide Exact, MapForward, MapBackward, PlanesShape, TableShape, ListShape, SubsShape, Writes, Reads, EraseQueue,
         Marked, Room, Collecting, Burnt, InStep, Queues, Content, Readable, Stored, Looked, Within, Firm;
  }

  /** While a write waits for its companion read, it stays in the queue: the queue's next
      write is never one that waits. */
  lemma WaitingStays(cfg: Config, m: Chip, id: nat)
    requires Shape(cfg, m)
    ensures var (m1, r) := TakeHost(cfg, m, id);
            forall i :: 0 <= i < |m.wQueue| && m.wQueue[i].paired ==> m.wQueue[i] in m1.wQueue
  {
    var k := FirstReady(m.wQueue);
    if m.rQueue == [] && k < |m.wQueue| {
      var w := Without(m.wQueue, k);
      forall i | 0 <= i < |m.wQueue| && m.wQueue[i].paired ensures m.wQueue[i] in w {
        assert i != k;
        assert w[if i < k then i else i - 1] == m.wQueue[i];
      }
    }
  }

  /** And a ready write does overtake it. A request that writes part of page `l0`, some of whose
      other sectors are mapped, and all that is mapped of page `l1`, leaves the two writes in the
      queue in this order while the companion read is still in hand; what a dispatch takes then
      is the last of them. */
  lemma ReadyOvertakes(cfg: Config, m: Chip, l0: nat, bits0: set<nat>, buf0: PageBuf, l1: nat, bits1: set<nat>,
        buf1: PageBuf, scratch: PageBuf, id: nat)
    requires Inv(cfg, m) && MayWrite(cfg, m, l0, bits0) && !(m.entries[l0].subPage <= bits0)
    requires MayWrite(cfg, m, l1, bits1) && m.entries[l1].subPage <= bits1 && l1 != l0
    requires m.wQueue == [] && m.wHand == [] && m.rQueue == [] && m.rHand == []
    ensures Shape(cfg, m)
    ensures var m1 := SubmitWrite(cfg, m, l0, bits0, buf0, scratch);
            && MayWrite(cfg, m1, l1, bits1) && Shape(cfg, m1)
            && var m2 := SubmitWrite(cfg, m1, l1, bits1, buf1, scratch); var m3 := QueueWrites(m2);
               && Inv(cfg, m3) && Shape(cfg, m3) && |m3.wQueue| == 2 && m3.rQueue == [] && |m3.rHand| == 1
               && m3.wQueue[0].lpn == l0 && m3.wQueue[0].paired && m3.wQueue[1].lpn == l1 && !m3.wQueue[1].paired
               && FirstReady(m3.wQueue) == |m3.wQueue| - 1
               && TakeHost(cfg, m3, id).0.wQueue == [m3.wQueue[0]]
  {
    hide Inv, Shape, Within, HostData, ReadFor;
    InvShape(cfg, m);
    SubmitWriteKeeps(cfg, m, l0, bits0, buf0, scratch);
    var m1 := SubmitWrite(cfg, m, l0, bits0, buf0, scratch);
    InvShape(cfg, m1);
    StillMayWrite(cfg, m, m1, l1, bits1);
    SubmitWriteKeeps(cfg, m1, l1, bits1, buf1, scratch);
    var m2 := SubmitWrite(cfg, m1, l1, bits1, buf1, scratch);
    QueueWritesKeeps(cfg, m2);
    var m3 := QueueWrites(m2);
    InvShape(cfg, m3);
    assert m3.wQueue == [m3.wQueue[0], m3.wQueue[1]];
    assert FirstReady(m3.wQueue) == 1 + FirstReady(m3.wQueue[1..]);
  }

  lemma StillMayWrite(cfg: Config, m: Chip, m1: Chip, l: nat, bits: set<nat>)
    requires MayWrite(cfg, m, l, bits) && m.wQueue == [] && m.wHand == []
    requires m1 == m.(wHand := m1.wHand, rHand := m1.rHand) && |m1.wHand| == 1 && m1.wHand[0].lpn != l
    ensures MayWrite(cfg, m1, l, bits)
  {
    hide Within;
    assert AllWrites(m1) == m1.wHand;
  }
}
