/** Host requests: cut into pieces of one page each, their bytes scattered from the segments
    of the request over page buffers and gathered back into segments, and their end once
    every piece has completed. */
module Requests {
  import opened Sectors
  import opened Bitmaps
  import opened Chunks

  // ---------------------------------------------------------------- cutting

  /** A piece of a request: a logical page and the sectors of it. */
  datatype Piece = Piece(lpn: nat, bitMap: bv64)

  function SubLen(lsa: nat, len: nat): nat {
    if SECTORS - lsa % SECTORS > len then len else SECTORS - lsa % SECTORS
  }

  function PieceAt(lsa: nat, len: nat): Piece {
    Piece(lsa / SECTORS, Bitmap((lsa % SECTORS) as bv6, SubLen(lsa, len) as bv6))
  }

  /** The pieces of the sectors from `lsa` on, `len` of them. */
  function Pieces(lsa: nat, len: nat): seq<Piece>
    decreases len
  {
    if len == 0 then [] else [PieceAt(lsa, len)] + Pieces(lsa + SubLen(lsa, len), len - SubLen(lsa, len))
  }

  ghost predicate Covers(p: Piece, x: nat) {
    x / SECTORS == p.lpn && x % SECTORS in SetOf(p.bitMap)
  }

  ghost predicate CoveredBy(ps: seq<Piece>, x: nat) {
    exists k :: 0 <= k < |ps| && Covers(ps[k], x)
  }

  lemma PieceCovers(lsa: nat, len: nat)
    requires len > 0
    ensures SetOf(PieceAt(lsa, len).bitMap) == Span(lsa % SECTORS, lsa % SECTORS + SubLen(lsa, len))
    ensures OneRun(SetOf(PieceAt(lsa, len).bitMap))
    ensures forall x: nat :: Covers(PieceAt(lsa, len), x) <==> lsa <= x < lsa + SubLen(lsa, len)
  {
    BitmapIsRun(lsa % SECTORS, SubLen(lsa, len));
    hide SetOf, Bitmap;
  }

  lemma NextPage(lsa: nat, len: nat)
    requires len > SubLen(lsa, len)
    ensures (lsa + SubLen(lsa, len)) / SECTORS == lsa / SECTORS + 1
  {
  }

  /** The pieces are of consecutive pages, one run of sectors each, and as many as the
      request touches pages. */
  lemma {:induction false} PiecesShape(lsa: nat, len: nat)
    ensures forall k :: 0 <= k < |Pieces(lsa, len)| ==>
            Pieces(lsa, len)[k].lpn == lsa / SECTORS + k && OneRun(SetOf(Pieces(lsa, len)[k].bitMap))
    ensures |Pieces(lsa, len)| == if len == 0 then 0 else (lsa + len - 1) / SECTORS - lsa / SECTORS + 1
    decreases len
  {
    if len > 0 {
      var n := SubLen(lsa, len);
      PieceCovers(lsa, len);
      PiecesShape(lsa + n, len - n);
      assert PieceAt(lsa, len).lpn == lsa / SECTORS;
      hide SetOf, PieceAt, OneRun;
      if len > n {
        NextPage(lsa, len);
      }
    }
  }

  lemma {:induction false} PiecesCover(lsa: nat, len: nat)
    ensures forall x: nat :: CoveredBy(Pieces(lsa, len), x) <==> lsa <= x < lsa + len
    decreases len
  {
    if len > 0 {
      var n := SubLen(lsa, len);
      var ps, rest := Pieces(lsa, len), Pieces(lsa + n, len - n);
      PieceCovers(lsa, len);
      PiecesCover(lsa + n, len - n);
      hide SetOf, PieceAt, OneRun, Covers;
      assert ps == [PieceAt(lsa, len)] + rest;
      forall x: nat ensures CoveredBy(ps, x) <==> lsa <= x < lsa + len {
        ConsCovers(ps[0], rest, x);
      }
    }
  }

  lemma ConsCovers(p: Piece, rest: seq<Piece>, x: nat)
    ensures CoveredBy([p] + rest, x) <==> Covers(p, x) || CoveredBy(rest, x)
  {
    hide Covers;
    var ps := [p] + rest;
    if CoveredBy(ps, x) {
      var k :| 0 <= k < |ps| && Covers(ps[k], x);
      assert k > 0 ==> ps[k] == rest[k - 1];
    }
    if Covers(p, x) {
      assert ps[0] == p;
    }
    if CoveredBy(rest, x) {
      var k :| 0 <= k < |rest| && Covers(rest[k], x);
      assert ps[k + 1] == rest[k];
    }
  }

  /** Cutting tiles the request: every sector of it, and no other, is in exactly one piece. */
  lemma Tiles(lsa: nat, len: nat)
    ensures forall x: nat :: CoveredBy(Pieces(lsa, len), x) <==> lsa <= x < lsa + len
    ensures var ps := Pieces(lsa, len);
            forall x: nat, j, k :: 0 <= j < |ps| && 0 <= k < |ps| && Covers(ps[j], x) && Covers(ps[k], x) ==> j == k
  {
    PiecesShape(lsa, len);
    PiecesCover(lsa, len);
    hide SetOf, PieceAt, Pieces;
  }

  /** The bitmap of `n` sectors from sector `s` on, by shifts. */
  method MakeBitMap(s: nat, n: nat) returns (bitMap: bv64)
    requires s < SECTORS && n <= SECTORS
    ensures bitMap == Bitmap(s as bv6, n as bv6)
  {
    bitMap := !(SUB_PAGE_MASK << n as bv6);
    bitMap := bitMap << s as bv6;
  }

  /** The next piece: up to the end of its page, or of the request. */
  method NextPiece(lsa: nat, len: nat) returns (piece: Piece, subLen: nat)
    ensures piece == PieceAt(lsa, len) && subLen == SubLen(lsa, len)
  {
    hide Bitmap;
    subLen := SECTORS;
    subLen := subLen - lsa % SECTORS;
    if subLen > len {
      subLen := len;
    }
    var bitMap := MakeBitMap(lsa % SECTORS, subLen);
    piece := Piece(lsa / SECTORS, bitMap);
  }

  lemma SubLenProgress(lsa: nat, len: nat)
    requires len > 0
    ensures 0 < SubLen(lsa, len) <= len
  {
  }

  /** The cutting loop of the driver. */
  method Cut(first: nat, count: nat) returns (pieces: seq<Piece>)
    ensures pieces == Pieces(first, count)
  {
    hide PieceAt, SubLen;
    pieces := [];
    var lsa: nat, len: nat := first, count;
    while len > 0
      invariant pieces + Pieces(lsa, len) == Pieces(first, count)
    {
      var piece, subLen := NextPiece(lsa, len);
      SubLenProgress(lsa, len);
      pieces := pieces + [piece];
      len := len - subLen;
      lsa := lsa + subLen;
    }
  }

  // ---------------------------------------------------------------- the segments of a request

  /** A place in the segments: `left` bytes of segment `b` are open. */
  ghost predicate Position(segs: seq<seq<bv8>>, b: nat, left: nat) {
    b <= |segs| && (left > 0 ==> b < |segs| && left <= |segs[b]|)
  }

  /** The bytes not yet taken from the segments: `left` of segment `b`, none of it when
      `left` is 0 and the segment has not been opened, and all segments after it. */
  ghost function Unread(segs: seq<seq<bv8>>, b: nat, left: nat): seq<bv8>
    requires Position(segs, b, left)
  {
    if left == 0 then Flatten(segs[b..]) else segs[b][|segs[b]| - left..] + Flatten(segs[b + 1..])
  }

  lemma Opened(segs: seq<seq<bv8>>, b: nat)
    requires b < |segs| && segs[b] != []
    ensures Unread(segs, b, |segs[b]|) == Unread(segs, b, 0)
  {
    FlattenHead(segs[b..]);
    assert segs[b..][1..] == segs[b + 1..];
  }

  lemma Taken(segs: seq<seq<bv8>>, b: nat, left: nat, n: nat)
    requires b < |segs| && n <= left <= |segs[b]| && left > 0
    ensures |Unread(segs, b, left)| >= n
    ensures Unread(segs, b, left)[..n] == segs[b][|segs[b]| - left..|segs[b]| - left + n]
    ensures Unread(segs, b, left)[n..] == if n == left then Unread(segs, b + 1, 0) else Unread(segs, b, left - n)
  {
  }

  /** Copies as much as the open segment has, up to `limit`, opening a segment if need be. */
  method CopyNext(segs: seq<seq<bv8>>, b0: nat, left0: nat, page: array<bv8>, at: nat, limit: nat)
    returns (b: nat, left: nat, n: nat)
    requires (forall i :: 0 <= i < |segs| ==> segs[i] != []) && Position(segs, b0, left0)
    requires 0 < limit <= |Unread(segs, b0, left0)| && at + limit <= page.Length
    modifies page
    ensures Position(segs, b, left) && 0 < n <= limit
    ensures Unread(segs, b, left) == Unread(segs, b0, left0)[n..]
    ensures page[..] == Splice(old(page[..]), at, Unread(segs, b0, left0)[..n])
  {
    hide Splice, Unread;
    b, left := b0, left0;
    if left == 0 {
      Exhausted(segs, b);
      Opened(segs, b);
      left := |segs[b]|;
    }
    n := left;
    if n > limit {
      n := limit;
    }
    Taken(segs, b, left, n);
    Memcpy(page, at, segs[b][|segs[b]| - left..|segs[b]| - left + n]);
    left := left - n;
    if left == 0 {
      b := b + 1;
    }
  }

  /** Fills `count` bytes of a page buffer from `start` on with the next bytes of the
      segments, opening them one after the other. */
  method FillPage(segs: seq<seq<bv8>>, b0: nat, left0: nat, page: array<bv8>, start: nat, count: nat)
    returns (b: nat, left: nat)
    requires (forall i :: 0 <= i < |segs| ==> segs[i] != []) && Position(segs, b0, left0)
    requires count <= |Unread(segs, b0, left0)| && start + count <= page.Length
    modifies page
    ensures Position(segs, b, left)
    ensures Unread(segs, b, left) == Unread(segs, b0, left0)[count..]
    ensures page[..] == Splice(old(page[..]), start, Unread(segs, b0, left0)[..count])
  {
    hide Splice, Unread, Position;
    b, left := b0, left0;
    var copyLen: nat, copyStart: nat := count, start;
    ghost var all, was := Unread(segs, b0, left0), page[..];
    SpliceNothing(was, start, all[..0]);
    while copyLen > 0
      invariant copyLen <= count && copyStart == start + (count - copyLen) && Position(segs, b, left)
      invariant Unread(segs, b, left) == all[count - copyLen..]
      invariant page[..] == Splice(was, start, all[..count - copyLen])
    {
      ghost var done := count - copyLen;
      var n;
      b, left, n := CopyNext(segs, b, left, page, copyStart, copyLen);
      CopiedMore(was, start, all, done, n);
      copyLen := copyLen - n;
      copyStart := copyStart + n;
    }
  }

  lemma CopiedMore(was: seq<bv8>, start: nat, all: seq<bv8>, done: nat, n: nat)
    requires done + n <= |all| && start + done + n <= |was|
    ensures Splice(Splice(was, start, all[..done]), start + done, all[done..][..n]) == Splice(was, start,
            all[..done + n])
    ensures all[done..][n..] == all[done + n..]
  {
    SpliceTwice(was, start, all[..done], all[done..][..n]);
    assert all[..done] + all[done..][..n] == all[..done + n];
  }

  lemma Exhausted(segs: seq<seq<bv8>>, b: nat)
    requires b <= |segs| && Unread(segs, b, 0) != []
    ensures b < |segs|
  {
  }

  // ---------------------------------------------------------------- scatter

  /** The page buffer of a piece holds, sector for sector, the bytes of the request. */
  ghost predicate Filled(page: seq<bv8>, p: Piece, lsa: nat, data: seq<bv8>) {
    && |page| == PAGE_SIZE
    && forall x: nat :: Covers(p, x) && lsa <= x && 512 * (x - lsa) + 512 <= |data| ==>
         page[512 * (x % SECTORS)..512 * (x % SECTORS) + 512] == data[512 * (x - lsa)..512 * (x - lsa) + 512]
  }

  /** Filling a piece's run of sectors with the next bytes of the request fills the piece. */
  lemma RunFilled(was: seq<bv8>, lsa: nat, data: seq<bv8>, at: nat, len: nat)
    requires |was| == PAGE_SIZE && len > 0 && at >= lsa && 512 * (at - lsa) + 512 * len <= |data|
    ensures var n := SubLen(at, len); var from := 512 * (at - lsa);
            Filled(Splice(was, 512 * (at % SECTORS), data[from..][..512 * n]), PieceAt(at, len), lsa, data)
  {
    var n, from, s := SubLen(at, len), 512 * (at - lsa), at % SECTORS;
    PieceCovers(at, len);
    var page := Splice(was, 512 * s, data[from..][..512 * n]);
    hide Covers, PieceAt, Splice, SetOf;
    forall x: nat | Covers(PieceAt(at, len), x) && lsa <= x && 512 * (x - lsa) + 512 <= |data|
      ensures page[512 * (x % SECTORS)..512 * (x % SECTORS) + 512] == data[512 * (x - lsa)..512 * (x - lsa) + 512]
    {
      SamePage(at, len, x);
      RunSector(was, data, from, s, n, x - at);
    }
  }

  lemma SamePage(at: nat, len: nat, x: nat)
    requires len > 0 && at <= x < at + SubLen(at, len)
    ensures x % SECTORS == at % SECTORS + (x - at) && SubLen(at, len) <= SECTORS - at % SECTORS
  {
  }

  lemma RunSector(was: seq<bv8>, data: seq<bv8>, from: nat, s: nat, n: nat, k: nat)
    requires |was| == PAGE_SIZE && s + n <= SECTORS && from + 512 * n <= |data| && k < n
    ensures Splice(was, 512 * s,
            data[from..][..512 * n])[512 * (s + k)..512 * (s + k) + 512] == data[from + 512 * k..from + 512 * k + 512]
  {
    var a := Splice(was, 512 * s, data[from..][..512 * n])[512 * (s + k)..512 * (s + k) + 512];
    var b := data[from + 512 * k..from + 512 * k + 512];
    forall y | 0 <= y < 512 ensures a[y] == b[y] {
    }
  }

  /** Cuts a write request and scatters its bytes over the page buffers of the pieces. */
  method Scatter(segs: seq<seq<bv8>>, first: nat, count: nat) returns (pieces: seq<Piece>, bufs: seq<array<bv8>>)
    requires (forall i :: 0 <= i < |segs| ==> segs[i] != []) && |Flatten(segs)| == 512 * count
    ensures pieces == Pieces(first, count) && |bufs| == |pieces|
    ensures forall i :: 0 <= i < |bufs| ==> fresh(bufs[i]) && Filled(bufs[i][..], pieces[i], first, Flatten(segs))
  {
    hide PieceAt, SubLen, Filled, Unread, Splice, Flatten;
    pieces, bufs := [], [];
    var lsa: nat, len: nat := first, count;
    var b, left := 0, 0;
    ghost var data := Flatten(segs);
    NothingRead(segs);
    while len > 0
      invariant lsa == first + (count - len) && len <= count
      invariant pieces + Pieces(lsa, len) == Pieces(first, count) && |bufs| == |pieces|
      invariant Position(segs, b, left) && Unread(segs, b, left) == data[512 * (lsa - first)..]
      invariant forall i :: 0 <= i < |bufs| ==> fresh(bufs[i]) && Filled(bufs[i][..], pieces[i], first, data)
    {
      var piece, subLen := NextPiece(lsa, len);
      SubLenProgress(lsa, len);
      SubLenFits(lsa, len);
      var page := new bv8[PAGE_SIZE];
      RunFilled(page[..], first, data, lsa, len);
      b, left := FillPage(segs, b, left, page, 512 * (lsa % SECTORS), 512 * subLen);
      DropDrop(data, 512 * (lsa - first), 512 * subLen);
      pieces, bufs := pieces + [piece], bufs + [page];
      len := len - subLen;
      lsa := lsa + subLen;
    }
  }

  lemma NothingRead(segs: seq<seq<bv8>>)
    ensures Position(segs, 0, 0) && Unread(segs, 0, 0) == Flatten(segs)[0..]
  {
    assert segs[0..] == segs;
  }

  lemma SubLenFits(lsa: nat, len: nat)
    ensures lsa % SECTORS + SubLen(lsa, len) <= SECTORS
  {
  }

  lemma DropDrop(data: seq<bv8>, a: nat, b: nat)
    requires a + b <= |data|
    ensures data[a..][b..] == data[a + b..]
  {
  }

  // ---------------------------------------------------------------- gather

  /** How many bytes of segments of lengths `lens` are before a place. */
  function Passed(lens: seq<nat>, b: nat, left: nat): nat
    requires b <= |lens| && (left > 0 ==> b < |lens| && left <= lens[b])
  {
    Before(lens, b) + if left == 0 then 0 else lens[b] - left
  }

  lemma RoomAhead(lens: seq<nat>, b: nat, left: nat)
    requires b <= |lens| && (left > 0 ==> b < |lens| && left <= lens[b])
    requires Passed(lens, b, left) < Before(lens, |lens|)
    ensures b < |lens|
  {
  }

  lemma PassedOn(lens: seq<nat>, b: nat, left: nat, n: nat)
    requires b < |lens| && n <= left <= lens[b] && left > 0
    ensures if n == left then Passed(lens, b + 1, 0) == Passed(lens, b, left) + n
            else Passed(lens, b, left - n) == Passed(lens, b, left) + n
    ensures Passed(lens, b, lens[b]) == Passed(lens, b, 0)
  {
  }

  ghost predicate Separate(segs: seq<array<bv8>>) {
    forall i, j :: 0 <= i < j < |segs| ==> segs[i] != segs[j]
  }

  /** Writes as much as the open segment takes of `src`, opening a segment if need be. */
  method WriteNext(segs: seq<array<bv8>>, b0: nat, left0: nat, src: seq<bv8>, ghost lens: seq<nat>)
    returns (b: nat, left: nat, n: nat)
    requires Separate(segs) && lens == Lens(ContentsOf(segs)) && forall i :: 0 <= i < |lens| ==> lens[i] > 0
    requires b0 <= |segs| && (left0 > 0 ==> b0 < |segs| && left0 <= lens[b0])
    requires src != [] && Passed(lens, b0, left0) + |src| <= |Flatten(ContentsOf(segs))|
    modifies segs
    ensures b <= |segs| && (left > 0 ==> b < |segs| && left <= lens[b])
    ensures 0 < n <= |src| && lens == Lens(ContentsOf(segs)) && Passed(lens, b, left) == Passed(lens, b0, left0) + n
    ensures Flatten(ContentsOf(segs)) == Splice(old(Flatten(ContentsOf(segs))), Passed(lens, b0, left0), src[..n])
  {
    hide Splice, Flatten, Before, Lens;
    b, left := b0, left0;
    ghost var cs := ContentsOf(segs);
    FlattenLength(cs);
    RoomAhead(lens, b, left);
    PassedOn(lens, b, lens[b], 0);
    if left == 0 {
      left := segs[b].Length;
    }
    n := left;
    if n > |src| {
      n := |src|;
    }
    PassedOn(lens, b, left, n);
    var at := segs[b].Length - left;
    FlattenSplice(cs, b, at, src[..n]);
    Memcpy(segs[b], at, src[..n]);
    assert ContentsOf(segs) == cs[b := Splice(cs[b], at, src[..n])];
    SameLens(cs, ContentsOf(segs));
    left := left - n;
    if left == 0 {
      b := b + 1;
    }
  }

  /** Writes all of `src` to the segments, opening them one after the other. */
  method DrainPage(segs: seq<array<bv8>>, b0: nat, left0: nat, src: seq<bv8>, ghost lens: seq<nat>)
    returns (b: nat, left: nat)
    requires Separate(segs) && lens == Lens(ContentsOf(segs)) && forall i :: 0 <= i < |lens| ==> lens[i] > 0
    requires b0 <= |segs| && (left0 > 0 ==> b0 < |segs| && left0 <= lens[b0])
    requires Passed(lens, b0, left0) + |src| <= |Flatten(ContentsOf(segs))|
    modifies segs
    ensures b <= |segs| && (left > 0 ==> b < |segs| && left <= lens[b])
    ensures lens == Lens(ContentsOf(segs)) && Passed(lens, b, left) == Passed(lens, b0, left0) + |src|
    ensures Flatten(ContentsOf(segs)) == Splice(old(Flatten(ContentsOf(segs))), Passed(lens, b0, left0), src)
  {
    hide Splice, Flatten, Passed, Separate, ContentsOf, Lens;
    b, left := b0, left0;
    var done: nat := 0;
    ghost var was, at := Flatten(ContentsOf(segs)), Passed(lens, b0, left0);
    SpliceNothing(was, at, src[..0]);
    while done < |src|
      invariant done <= |src| && lens == Lens(ContentsOf(segs))
      invariant b <= |segs| && (left > 0 ==> b < |segs| && left <= lens[b])
      invariant Passed(lens, b, left) == at + done
      invariant Flatten(ContentsOf(segs)) == Splice(was, at, src[..done])
    {
      var n;
      b, left, n := WriteNext(segs, b, left, src[done..], lens);
      CopiedMore(was, at, src, done, n);
      done := done + n;
    }
    assert src[..done] == src;
  }

  lemma SliceJoin(page: seq<bv8>, a: nat, b: nat, c: nat)
    requires a <= b <= c <= |page|
    ensures page[a..c] == page[a..b] + page[b..c]
  {
  }

  lemma {:induction false} FilledSectors(page: seq<bv8>, lsa: nat, data: seq<bv8>, at: nat, len: nat, k: nat)
    requires len > 0 && at >= lsa && 512 * (at - lsa) + 512 * len <= |data| && Filled(page, PieceAt(at, len), lsa, data)
    requires k <= SubLen(at, len)
    ensures var s, from := at % SECTORS, 512 * (at - lsa);
            |page| == PAGE_SIZE && s + k <= SECTORS && page[512 * s..512 * s + 512 * k] == data[from..from + 512 * k]
  {
    hide PieceAt, SetOf, Covers, SubLen, Filled;
    SubLenFits(at, len);
    FilledSize(page, PieceAt(at, len), lsa, data);
    if k > 0 {
      var s, from := at % SECTORS, 512 * (at - lsa);
      FilledSectors(page, lsa, data, at, len, k - 1);
      SectorAt(page, lsa, data, at, len, k - 1);
      SliceJoin(page, 512 * s, 512 * s + 512 * (k - 1), 512 * s + 512 * k);
      SliceJoin(data, from, from + 512 * (k - 1), from + 512 * k);
    }
  }

  lemma SectorAt(page: seq<bv8>, lsa: nat, data: seq<bv8>, at: nat, len: nat, k: nat)
    requires len > 0 && at >= lsa && 512 * (at - lsa) + 512 * len <= |data| && Filled(page, PieceAt(at, len), lsa, data)
    requires k < SubLen(at, len)
    ensures var s, from := at % SECTORS, 512 * (at - lsa);
            |page| == PAGE_SIZE && s + k < SECTORS && from + 512 * k + 512 <= |data|
            && page[512 * s + 512 * k..512 * s + 512 * k + 512] == data[from + 512 * k..from + 512 * k + 512]
  {
    PieceCovers(at, len);
    hide PieceAt, SetOf;
    SamePage(at, len, at + k);
    assert Covers(PieceAt(at, len), at + k);
  }

  /** The bytes of a filled piece, taken together, are the bytes of the request there. */
  lemma FilledRun(page: seq<bv8>, lsa: nat, data: seq<bv8>, at: nat, len: nat)
    requires len > 0 && at >= lsa && 512 * (at - lsa) + 512 * len <= |data| && Filled(page, PieceAt(at, len), lsa, data)
    ensures var s, n, from := at % SECTORS, SubLen(at, len), 512 * (at - lsa);
            s + n <= SECTORS && page[512 * s..512 * s + 512 * n] == data[from..from + 512 * n]
  {
    hide Filled, PieceAt, SubLen;
    FilledSectors(page, lsa, data, at, len, SubLen(at, len));
  }

  /** Where a piece's bytes are in its buffer. */
  lemma PieceBytes(at: nat, len: nat, first: nat)
    requires len > 0 && First(SetOf(PieceAt(at, len).bitMap), first)
    ensures SetOf(PieceAt(at, len).bitMap) != {}
    ensures first == at % SECTORS && |SetOf(PieceAt(at, len).bitMap)| == SubLen(at, len)
  {
    PieceCovers(at, len);
    hide SetOf, PieceAt;
    SubLenProgress(at, len);
    SpanSize(at % SECTORS, SubLen(at, len));
    assert at % SECTORS in SetOf(PieceAt(at, len).bitMap);
  }

  lemma PieceHasBytes(at: nat, len: nat)
    requires len > 0
    ensures SetOf(PieceAt(at, len).bitMap) != {}
  {
    PieceCovers(at, len);
    hide SetOf, PieceAt;
    SubLenProgress(at, len);
    assert at % SECTORS in SetOf(PieceAt(at, len).bitMap);
  }

  lemma FilledSize(page: seq<bv8>, p: Piece, lsa: nat, data: seq<bv8>)
    requires Filled(page, p, lsa, data)
    ensures |page| == PAGE_SIZE
  {
  }

  lemma Beginning(was: seq<bv8>, lens: seq<nat>, data: seq<bv8>)
    ensures Passed(lens, 0, 0) == 0 && Splice(was, 0, data[..0]) == was
  {
  }

  lemma TakeDrop(data: seq<bv8>, a: nat, n: nat)
    requires a + n <= |data|
    ensures data[a..][..n] == data[a..a + n]
  {
  }

  lemma SpliceAll(was: seq<bv8>, data: seq<bv8>)
    requires |was| == |data|
    ensures Splice(was, 0, data[..|data|]) == data
  {
  }

  lemma PiecesStep(lsa: nat, len: nat)
    requires Pieces(lsa, len) != []
    ensures len > 0 && 0 < SubLen(lsa, len) <= len
    ensures Pieces(lsa, len) == [PieceAt(lsa, len)] + Pieces(lsa + SubLen(lsa, len), len - SubLen(lsa, len))
  {
  }

  /** The bytes of one piece go from its page buffer to the segments. */
  method GatherPiece(piece: Piece, page: seq<bv8>, segs: seq<array<bv8>>, b0: nat, left0: nat,
                     ghost lens: seq<nat>, ghost first: nat, ghost data: seq<bv8>, ghost was: seq<bv8>,
                           ghost lsa: nat, ghost len: nat)
    returns (b: nat, left: nat)
    requires len > 0 && piece == PieceAt(lsa, len) && lsa >= first && 512 * (lsa - first) + 512 * len <= |data|
    requires Filled(page, piece, first, data)
    requires Separate(segs) && lens == Lens(ContentsOf(segs)) && forall i :: 0 <= i < |lens| ==> lens[i] > 0
    requires b0 <= |segs| && (left0 > 0 ==> b0 < |segs| && left0 <= lens[b0])
    requires Passed(lens, b0, left0) == 512 * (lsa - first) && |data| == |was| == |Flatten(ContentsOf(segs))|
    requires Flatten(ContentsOf(segs)) == Splice(was, 0, data[..512 * (lsa - first)])
    modifies segs
    ensures b <= |segs| && (left > 0 ==> b < |segs| && left <= lens[b])
    ensures lens == Lens(ContentsOf(segs)) && Passed(lens, b, left) == 512 * (lsa - first) + 512 * SubLen(lsa, len)
    ensures Flatten(ContentsOf(segs)) == Splice(was, 0, data[..512 * (lsa - first) + 512 * SubLen(lsa, len)])
  {
    hide PieceAt, SubLen, Filled, Splice, Flatten, Passed, Separate, First, SetOf, ContentsOf, Lens;
    var copyStart, copyLen, f := GetReadCopyStartAndLen(piece.bitMap);
    SubLenProgress(lsa, len);
    PieceHasBytes(lsa, len);
    PieceBytes(lsa, len, f);
    FilledRun(page, first, data, lsa, len);
    FilledSize(page, piece, first, data);
    b, left := DrainPage(segs, b0, left0, page[copyStart..copyStart + copyLen], lens);
    CopiedMore(was, 0, data, 512 * (lsa - first), copyLen);
    TakeDrop(data, 512 * (lsa - first), copyLen);
  }

  /** At the end of a read request the pieces' bytes are gathered into the segments of the
      request. Whatever the segmentation, they arrive in the order of the sectors. */
  method Gather(pieces: seq<Piece>, bufs: seq<seq<bv8>>, segs: seq<array<bv8>>, ghost first: nat, ghost count: nat,
        ghost data: seq<bv8>)
    requires pieces == Pieces(first, count) && |bufs| == |pieces| && |data| == 512 * count
    requires forall i :: 0 <= i < |bufs| ==> Filled(bufs[i], pieces[i], first, data)
    requires Separate(segs) && (forall i :: 0 <= i < |segs| ==> segs[i].Length > 0)
             && |Flatten(ContentsOf(segs))| == |data|
    modifies segs
    ensures Flatten(ContentsOf(segs)) == data
  {
    hide PieceAt, SubLen, Filled, Splice, Flatten, Passed, Separate, Pieces, ContentsOf, Lens;
    ghost var was, lens := Flatten(ContentsOf(segs)), Lens(ContentsOf(segs));
    ghost var lsa: nat, len: nat := first, count;
    var b: nat, left: nat, i := 0, 0, 0;
    ghost var rest := pieces;
    Beginning(was, lens, data);
    while i < |pieces|
      invariant i <= |pieces| && rest == pieces[i..] && first <= lsa && lsa + len == first + count
                && rest == Pieces(lsa, len)
      invariant lens == Lens(ContentsOf(segs)) && b <= |segs| && (left > 0 ==> b < |segs| && left <= lens[b])
      invariant Passed(lens, b, left) == 512 * (lsa - first)
      invariant Flatten(ContentsOf(segs)) == Splice(was, 0, data[..512 * (lsa - first)])
    {
      PiecesStep(lsa, len);
      b, left := GatherPiece(pieces[i], bufs[i], segs, b, left, lens, first, data, was, lsa, len);
      rest := rest[1..];
      lsa, len := lsa + SubLen(lsa, len), len - SubLen(lsa, len);
      i := i + 1;
    }
    NoPiecesLeft(lsa, len);
    SpliceAll(was, data);
  }

  lemma NoPiecesLeft(lsa: nat, len: nat)
    requires Pieces(lsa, len) == []
    ensures len == 0
  {
  }

  /** What a write request scatters over page buffers, a read request of the same sectors
      gathers from them, into segments of any other lengths. */
  method RoundTrip(segs: seq<seq<bv8>>, first: nat, count: nat, back: seq<array<bv8>>)
    requires (forall i :: 0 <= i < |segs| ==> segs[i] != []) && |Flatten(segs)| == 512 * count
    requires Separate(back) && (forall i :: 0 <= i < |back| ==> back[i].Length > 0)
             && |Flatten(ContentsOf(back))| == 512 * count
    modifies back
    ensures Flatten(ContentsOf(back)) == Flatten(segs)
  {
    hide Flatten, Filled, Pieces;
    var pieces, bufs := Scatter(segs, first, count);
    var pages := seq(|bufs|, i requires 0 <= i < |bufs| reads bufs => bufs[i][..]);
    Gather(pieces, pages, back, first, count, Flatten(segs));
  }

  // ---------------------------------------------------------------- the end of a request

  /** A request and how many of its pieces are still out. */
  class Request {
    var restSubreqCount: nat
    ghost var out: set<nat>
    var ended: nat

    ghost predicate Valid()
      reads this
    {
      restSubreqCount == |out| && ended == if out == {} then 1 else 0
    }

    constructor (pieces: seq<Piece>)
      requires pieces != []
      ensures Valid() && out == Span(0, |pieces|) && ended == 0
    {
      restSubreqCount, ended := |pieces|, 0;
      out := Span(0, |pieces|);
      SpanSize(0, |pieces|);
    }

    /** One piece has completed. Whatever the order of the pieces, the request ends with the
        last of them, and once. */
    method RequestMayEnd(ghost k: nat)
      requires Valid() && k in out
      modifies this
      ensures Valid() && out == old(out) - {k}
      ensures ended == old(ended) + (if out == {} then 1 else 0)
    {
      restSubreqCount := restSubreqCount - 1;
      out := out - {k};
      if restSubreqCount == 0 {
        ended := ended + 1;
      }
    }
  }
}
