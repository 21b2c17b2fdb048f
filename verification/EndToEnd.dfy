/** From a write request to a read request: what `Requests` scatters over the pieces of a write,
    once the device has completed them, a read of the same sectors gathers again. */
module EndToEnd {
  import opened Flash
  import opened Sectors
  import opened Addressing
  import opened Chip
  import opened Bitmaps
  import opened Chunks
  import opened Requests
  import opened Device
  import opened DeviceRuns
  import opened DeviceTheorems
  import opened DeviceRequests
  import opened Counters
  import opened ChipInv
  import opened ChipOrigin
  import opened ChipRuns
  import opened ChipPrompt
  import opened ChipRequests

  /** The bytes of a page buffer, sector by sector. */
  function AsPage(buf: seq<bv8>): PageBuf
    requires |buf| == PAGE_SIZE
  {
    seq(SECTORS, i requires 0 <= i < SECTORS => buf[512 * i..512 * i + 512])
  }

  /** The buffer of a read holds what the device gave back for the sectors of the piece. */
  ghost predicate Shows(page: seq<bv8>, got: map<nat, Sector>, p: Piece) {
    && |page| == PAGE_SIZE
    && forall i :: i in SetOf(p.bitMap) ==> i < SECTORS && i in got && page[512 * i..512 * i + 512] == got[i]
  }

  ghost predicate ChipsThere(states: seq<Device>, steps: seq<DeviceStep>) {
    && |states| == |steps| + 1
    && forall i :: 0 <= i < |steps| && steps[i].OnChip? ==> steps[i].c in states[i].chips
  }

  /** Step `j` completed the write of piece `p` from the buffer `buf`, and no write that completed
      since, before `n`, touched the sectors of the piece. */
  ghost predicate LastWrite(states: seq<Device>, steps: seq<DeviceStep>, j: nat, n: nat, p: Piece, buf: seq<bv8>)
    requires ChipsThere(states, steps) && n <= |steps| && |buf| == PAGE_SIZE
  {
    && j < n && WrittenBy(states[j], steps[j], p.lpn).Some?
    && WrittenBy(states[j], steps[j], p.lpn).value.host == HostData(SetOf(p.bitMap), AsPage(buf))
    && forall k :: j < k < n && WrittenBy(states[k], steps[k], p.lpn).Some? ==>
         WrittenBy(states[k], steps[k], p.lpn).value.host.Keys !! SetOf(p.bitMap)
  }

  lemma {:induction false} StaysWritten(states: seq<Device>, steps: seq<DeviceStep>, j: nat, n: nat, p: Piece,
        buf: seq<bv8>, i: nat)
    requires ChipsThere(states, steps) && n <= |steps| && |buf| == PAGE_SIZE && LastWrite(states, steps, j, n, p, buf)
    requires i in SetOf(p.bitMap) && i < SECTORS
    ensures i in PlainWritten(states, steps, p.lpn, n)
    ensures PlainWritten(states, steps, p.lpn, n)[i] == Some(AsPage(buf)[i])
  {
    hide WrittenBy, SetOf, AsPage;
    if j < n - 1 {
      StaysWritten(states, steps, j, n - 1, p, buf, i);
      var w := WrittenBy(states[n - 1], steps[n - 1], p.lpn);
      assert w.Some? ==> i !in w.value.host.Keys;
    }
  }

  /** A piece that was written last from a filled buffer is filled again by what is read. */
  lemma PieceBack(g: Geometry, split: bool, states: seq<Device>, steps: seq<DeviceStep>, j: nat, n: nat, p: Piece,
        buf: seq<bv8>, page: seq<bv8>, first: nat, data: seq<bv8>)
    requires Sized(g, split) && DeviceRun(g, split, states, steps) && n < |states| && p.lpn < MapSize(g)
    requires ChipsThere(states, steps) && PageClean(states, steps, p.lpn, n)
    requires Filled(buf, p, first, data) && LastWrite(states, steps, j, n, p, buf)
    requires Addressing.Valid(g) && CanLookup(g, states[n], p.lpn) && Shows(page, Lookup(g, states[n], p.lpn), p)
    ensures Filled(page, p, first, data)
  {
    hide DeviceRun, MapSize, Sized, Lookup, CanLookup, PlainWritten, PageClean, LastWrite, SetOf;
    RunPlain(g, split, states, steps, p.lpn, n);
    forall x: nat | Covers(p, x) && first <= x && 512 * (x - first) + 512 <= |data|
      ensures page[512 * (x % SECTORS)..512 * (x % SECTORS) + 512] == data[512 * (x - first)..512 * (x - first) + 512]
    {
      StaysWritten(states, steps, j, n, p, buf, x % SECTORS);
    }
  }

  // ---------------------------------------------------------------- reads in flight

  /** In state `n` a read of the page of piece `p` is out on its chip with its data, which is in the
      buffer `page`. It was submitted after state `i`, when no read was on the chip, and since then the
      page was only asked for with the bitmap of the piece. */
  ghost predicate ReadIsOut(g: Geometry, states: seq<Device>, steps: seq<DeviceStep>, i: nat, n: nat, p: Piece,
        page: seq<bv8>)
    requires Addressing.Valid(g)
  {
    var c := ChipOf(Home(g, p.lpn));
    && HasChip(g, c) && i <= n < |states| == |steps| + 1 && c in states[i].chips && NoRead(states[i].chips[c])
    && c in states[n].chips
    && states[n].chips[c].phase == ReadData && HostOut(states[n].chips[c]).Some?
    && var s := HostOut(states[n].chips[c]).value;
       && s.lpn == p.lpn && !s.paired && |page| == PAGE_SIZE
       && (forall k :: i <= k < n && steps[k].OnChip? && steps[k].st.HostReads? && steps[k].st.l == p.lpn ==>
             steps[k].st.bits == SetOf(p.bitMap))
       && forall x: nat :: x in s.bits && x < SECTORS ==> page[512 * x..512 * x + 512] == s.buf[x]
  }

  /** Step `k`, between `i` and `n`, makes the read, and the read holds what the device held then. */
  lemma ReadMade(g: Geometry, split: bool, states: seq<Device>, steps: seq<DeviceStep>, i: nat, n: nat, p: Piece,
        page: seq<bv8>) returns (k: nat)
    requires Sized(g, split) && DeviceRun(g, split, states, steps) && ChipsThere(states, steps) && n <= |steps|
    requires DeviceTimely(states, steps, n) && p.lpn < MapSize(g)
    requires Addressing.Valid(g) && ReadIsOut(g, states, steps, i, n, p, page)
    requires Transferred(SetOf(p.bitMap)) == SetOf(p.bitMap)
    ensures i <= k < n && ChipOf(Home(g, p.lpn)) in states[k].chips
    ensures steps[k].OnChip? && steps[k].c == ChipOf(Home(g, p.lpn)) && steps[k].st.HostReads?
    ensures steps[k].st.l == p.lpn && steps[k].st.bits == SetOf(p.bitMap)
    ensures p.lpn in states[k].chips[ChipOf(Home(g, p.lpn))].store
    ensures var was := DeviceTheorems.Page(g, states[k], p.lpn);
            forall x: nat :: x in SetOf(p.bitMap) && x < SECTORS && x in was && was[x].Some? ==>
              page[512 * x..512 * x + 512] == was[x].value
  {
    hide DeviceRun, MapSize, Sized, SetOf, DeviceTimely, NoRead, Home, HasChip, Transferred, Holds, OneRun, ConfigOf,
         Makes;
    var c := ChipOf(Home(g, p.lpn));
    k := DeviceReads(g, split, states, steps, c, i, n);
    var s := HostOut(states[n].chips[c]).value;
    MadeByRead(states[k].chips[c], steps[k].st, s);
    ExpectedHeld(s, DeviceTheorems.Page(g, states[k], p.lpn));
  }

  lemma MadeByRead(m: Chip, st: Step, s: Sub)
    requires Makes(m, st, TicketOf(s, true)) && !s.paired
    ensures st.HostReads? && st.l == s.lpn && st.bits == s.bits
  {
  }

  lemma ExpectedHeld(s: Sub, was: Data)
    requires Holds(s.buf, s.bits, s.host) && s.host == Expected(was, s.bits) && Transferred(s.bits) == s.bits
    ensures forall x: nat :: x in s.bits && x < SECTORS && x in was && was[x].Some? ==> s.buf[x] == was[x].value
  {
    hide Transferred;
  }

  /** A read of a piece, submitted when no read was on its chip and after the write of the piece had
      completed, fills its buffer with the bytes of that write. */
  lemma PieceRead(g: Geometry, split: bool, states: seq<Device>, steps: seq<DeviceStep>, j: nat, i: nat, n: nat,
        p: Piece, buf: seq<bv8>, page: seq<bv8>, first: nat, data: seq<bv8>)
    requires Sized(g, split) && DeviceRun(g, split, states, steps) && ChipsThere(states, steps) && n <= |steps|
    requires DeviceTimely(states, steps, n) && PageSolid(states, steps, p.lpn, n) && p.lpn < MapSize(g)
    requires Filled(buf, p, first, data) && LastWrite(states, steps, j, n, p, buf) && j < i
    requires Addressing.Valid(g) && ReadIsOut(g, states, steps, i, n, p, page) && OneRun(SetOf(p.bitMap))
    ensures Filled(page, p, first, data)
  {
    hide DeviceRun, MapSize, Sized, SetOf, DeviceTimely, PageSolid, LastWrite, ReadIsOut, Home, OneRun, PlainWritten,
         Transferred, DeviceTheorems.Page, PageClean, LastWritten;
    RunIsWhole(SetOf(p.bitMap));
    OutHasPage(g, states, steps, i, n, p, page);
    var k := ReadMade(g, split, states, steps, i, n, p, page);
    Earlier(states, steps, j, k, n, p, buf);
    SolidEarlier(states, steps, p.lpn, k, n);
    PageIsClean(g, split, states, steps, p.lpn, k);
    PlainPage(g, split, states, steps, p.lpn, k);
    RunPage(g, split, states, steps, p.lpn, k);
    forall x: nat | Covers(p, x) && first <= x && 512 * (x - first) + 512 <= |data|
      ensures page[512 * (x % SECTORS)..512 * (x % SECTORS) + 512] == data[512 * (x - first)..512 * (x - first) + 512]
    {
      StaysWritten(states, steps, j, k, p, buf, x % SECTORS);
    }
  }

  lemma OutHasPage(g: Geometry, states: seq<Device>, steps: seq<DeviceStep>, i: nat, n: nat, p: Piece,
        page: seq<bv8>)
    requires Addressing.Valid(g) && ReadIsOut(g, states, steps, i, n, p, page)
    ensures |page| == PAGE_SIZE
  {
  }

  lemma Earlier(states: seq<Device>, steps: seq<DeviceStep>, j: nat, k: nat, n: nat, p: Piece, buf: seq<bv8>)
    requires ChipsThere(states, steps) && j < k <= n <= |steps| && |buf| == PAGE_SIZE
    requires LastWrite(states, steps, j, n, p, buf)
    ensures LastWrite(states, steps, j, k, p, buf)
  {
    hide WrittenBy, SetOf, AsPage;
  }

  lemma SolidEarlier(states: seq<Device>, steps: seq<DeviceStep>, l: nat, k: nat, n: nat)
    requires ChipsThere(states, steps) && k <= n <= |steps|
    ensures PageSolid(states, steps, l, n) ==> PageSolid(states, steps, l, k)
    ensures DeviceTimely(states, steps, n) ==> DeviceTimely(states, steps, k)
  {
    hide WrittenBy, InTime, OneRun;
  }

  /** End to end: in any run of the device in which sub-requests are made in time and pages have no
      holes, when every piece of a request was last written from a buffer that `Scatter` filled, the
      reads of the same sectors, submitted afterwards when no read was on their chips, fill their
      buffers so that the same bytes are gathered, into segments of any lengths. `js`, `from` and `ns`
      say, piece by piece, which step completed the write, since when the read was submitted, and in
      which state it has its data. */
  method ReadsBack(ghost g: Geometry, ghost split: bool, ghost states: seq<Device>, ghost steps: seq<DeviceStep>,
        ghost js: seq<nat>, ghost from: seq<nat>, ghost ns: seq<nat>, ghost first: nat, ghost count: nat,
        ghost data: seq<bv8>, ghost bufs: seq<seq<bv8>>, pieces: seq<Piece>, pages: seq<seq<bv8>>,
        segs: seq<array<bv8>>)
    requires Sized(g, split) && DeviceRun(g, split, states, steps) && ChipsThere(states, steps)
    requires Addressing.Valid(g) && |data| == 512 * count && pieces == Pieces(first, count)
    requires |bufs| == |pieces| == |pages| == |js| && |from| == |pieces| == |ns|
    requires forall k :: 0 <= k < |pieces| ==>
               && js[k] < from[k] && ns[k] <= |steps| && DeviceTimely(states, steps, ns[k])
               && pieces[k].lpn < MapSize(g) && PageSolid(states, steps, pieces[k].lpn, ns[k])
               && Filled(bufs[k], pieces[k], first, data) && LastWrite(states, steps, js[k], ns[k], pieces[k], bufs[k])
               && ReadIsOut(g, states, steps, from[k], ns[k], pieces[k], pages[k])
    requires Separate(segs) && (forall i :: 0 <= i < |segs| ==> segs[i].Length > 0)
             && |Flatten(ContentsOf(segs))| == |data|
    modifies segs
    ensures Flatten(ContentsOf(segs)) == data
  {
    hide Sized, DeviceRun, ChipsThere, PageSolid, DeviceTimely, Filled, LastWrite, ReadIsOut, MapSize, Flatten, Pieces,
         OneRun;
    PiecesShape(first, count);
    forall k | 0 <= k < |pieces| ensures Filled(pages[k], pieces[k], first, data) {
      PieceRead(g, split, states, steps, js[k], from[k], ns[k], pieces[k], bufs[k], pages[k], first, data);
    }
    Gather(pieces, pages, segs, first, count, data);
  }
}
