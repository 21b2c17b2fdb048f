/** The simulated NAND chip keeps its bytes in chunks of memory pages. Where its copy loops
    go right, and what a page of four sectors looks like in the bytes. */
module Chunks {

  const PAGE_SIZE: nat := 2048

  // ---------------------------------------------------------------- bytes in chunks

  function Flatten(cs: seq<seq<bv8>>): seq<bv8> {
    if cs == [] then [] else Flatten(cs[..|cs| - 1]) + cs[|cs| - 1]
  }

  /** The number of bytes before chunk `i`. */
  function Before(lens: seq<nat>, i: nat): nat
    requires i <= |lens|
  {
    if i == 0 then 0 else Before(lens, i - 1) + lens[i - 1]
  }

  function Lens(cs: seq<seq<bv8>>): (r: seq<nat>)
    ensures |r| == |cs| && forall i :: 0 <= i < |cs| ==> r[i] == |cs[i]|
  {
    seq(|cs|, i requires 0 <= i < |cs| => |cs[i]|)
  }

  lemma SameLens(a: seq<seq<bv8>>, b: seq<seq<bv8>>)
    requires |a| == |b| && forall i :: 0 <= i < |a| ==> |a[i]| == |b[i]|
    ensures Lens(a) == Lens(b)
  {
  }

  /** `data` written over `bytes` from `at` on. */
  function Splice(bytes: seq<bv8>, at: nat, data: seq<bv8>): (r: seq<bv8>)
    requires at + |data| <= |bytes|
    ensures |r| == |bytes|
    ensures forall x :: 0 <= x < |r| ==> r[x] == if at <= x < at + |data| then data[x - at] else bytes[x]
  {
    bytes[..at] + data + bytes[at + |data|..]
  }

  lemma {:induction false} FlattenLength(cs: seq<seq<bv8>>)
    ensures |Flatten(cs)| == Before(Lens(cs), |cs|)
  {
    if cs != [] {
      FlattenLength(cs[..|cs| - 1]);
      BeforePrefix(Lens(cs[..|cs| - 1]), Lens(cs), |cs| - 1);
    }
  }

  lemma {:induction false} BeforePrefix(a: seq<nat>, b: seq<nat>, i: nat)
    requires i <= |a| && i <= |b| && forall j :: 0 <= j < i ==> a[j] == b[j]
    ensures Before(a, i) == Before(b, i)
  {
    if i > 0 {
      BeforePrefix(a, b, i - 1);
    }
  }

  lemma {:induction false} BeforeMono(lens: seq<nat>, i: nat, j: nat)
    requires i <= j <= |lens|
    ensures Before(lens, i) <= Before(lens, j)
  {
    if i < j {
      BeforeMono(lens, i, j - 1);
    }
  }

  /** The bytes of the first chunk come first. */
  lemma {:induction false} FlattenHead(cs: seq<seq<bv8>>)
    requires cs != []
    ensures Flatten(cs) == cs[0] + Flatten(cs[1..])
  {
    if |cs| > 1 {
      FlattenHead(cs[..|cs| - 1]);
      assert cs[..|cs| - 1][1..] == cs[1..][..|cs| - 2];
    }
  }

  /** A stretch of one chunk is a stretch of the whole. */
  lemma {:induction false} FlattenSlice(cs: seq<seq<bv8>>, i: nat, o: nat, n: nat)
    requires i < |cs| && o + n <= |cs[i]|
    ensures Before(Lens(cs), i) + o + n <= |Flatten(cs)|
    ensures Flatten(cs)[Before(Lens(cs), i) + o..Before(Lens(cs), i) + o + n] == cs[i][o..o + n]
  {
    var init, last := cs[..|cs| - 1], cs[|cs| - 1];
    FlattenLength(init);
    BeforePrefix(Lens(init), Lens(cs), i);
    if i < |cs| - 1 {
      FlattenSlice(init, i, o, n);
    }
  }

  /** What a row of arrays holds. */
  ghost function ContentsOf(arrays: seq<array<bv8>>): (r: seq<seq<bv8>>)
    reads arrays
    ensures |r| == |arrays| && forall i :: 0 <= i < |r| ==> r[i] == arrays[i][..]
  {
    seq(|arrays|, i requires 0 <= i < |arrays| reads arrays => arrays[i][..])
  }

  /** A copy of bytes into an array. */
  method Memcpy(dst: array<bv8>, to: nat, src: seq<bv8>)
    requires to + |src| <= dst.Length
    modifies dst
    ensures dst[..] == Splice(old(dst[..]), to, src)
  {
    for k := 0 to |src|
      invariant forall x :: 0 <= x < dst.Length ==> dst[x] == if to <= x < to + k then src[x - to] else old(dst[x])
    {
      dst[to + k] := src[k];
    }
  }

  lemma SpliceNothing(bytes: seq<bv8>, at: nat, data: seq<bv8>)
    requires at <= |bytes| && data == []
    ensures Splice(bytes, at, data) == bytes
  {
  }

  /** Two copies next to each other are one. */
  lemma SpliceTwice(bytes: seq<bv8>, at: nat, a: seq<bv8>, b: seq<bv8>)
    requires at + |a| + |b| <= |bytes|
    ensures Splice(Splice(bytes, at, a), at + |a|, b) == Splice(bytes, at, a + b)
  {
  }

  lemma SpliceLeft(a: seq<bv8>, b: seq<bv8>, at: nat, data: seq<bv8>)
    requires at + |data| <= |a|
    ensures Splice(a, at, data) + b == Splice(a + b, at, data)
  {
  }

  lemma SpliceRight(a: seq<bv8>, b: seq<bv8>, at: nat, data: seq<bv8>)
    requires at + |data| <= |b|
    ensures a + Splice(b, at, data) == Splice(a + b, |a| + at, data)
  {
  }

  lemma BeforeInit(cs: seq<seq<bv8>>, i: nat)
    requires i < |cs|
    ensures Before(Lens(cs[..|cs| - 1]), i) == Before(Lens(cs), i)
    ensures i == |cs| - 1 ==> |Flatten(cs[..|cs| - 1])| == Before(Lens(cs), i)
  {
    var init := cs[..|cs| - 1];
    FlattenLength(init);
    BeforePrefix(Lens(init), Lens(cs), i);
  }

  /** The last chunk ends the flat sequence; the one changed is it or one of the others. */
  lemma FlattenChange(cs: seq<seq<bv8>>, i: nat, c: seq<bv8>)
    requires i < |cs|
    ensures var n := |cs| - 1;
            && Flatten(cs) == Flatten(cs[..n]) + cs[n]
            && Flatten(cs[i := c]) == if i < n then Flatten(cs[..n][i := c]) + cs[n] else Flatten(cs[..n]) + c
  {
    var n := |cs| - 1;
    assert cs[i := c][..n] == if i < n then cs[..n][i := c] else cs[..n];
  }

  lemma SpliceInit(cs: seq<seq<bv8>>, i: nat, c: seq<bv8>, at: nat, data: seq<bv8>)
    requires i < |cs| - 1 && at + |data| <= |Flatten(cs[..|cs| - 1])|
    requires Flatten(cs[..|cs| - 1][i := c]) == Splice(Flatten(cs[..|cs| - 1]), at, data)
    ensures at + |data| <= |Flatten(cs)| && Flatten(cs[i := c]) == Splice(Flatten(cs), at, data)
  {
    FlattenChange(cs, i, c);
    SpliceLeft(Flatten(cs[..|cs| - 1]), cs[|cs| - 1], at, data);
  }

  lemma SpliceLast(cs: seq<seq<bv8>>, o: nat, data: seq<bv8>)
    requires |cs| > 0 && o + |data| <= |cs[|cs| - 1]|
    ensures |Flatten(cs[..|cs| - 1])| + o + |data| <= |Flatten(cs)|
    ensures Flatten(cs[|cs| - 1 := Splice(cs[|cs| - 1], o, data)])
              == Splice(Flatten(cs), |Flatten(cs[..|cs| - 1])| + o, data)
  {
    FlattenChange(cs, |cs| - 1, Splice(cs[|cs| - 1], o, data));
    SpliceRight(Flatten(cs[..|cs| - 1]), cs[|cs| - 1], o, data);
  }

  /** Writing inside one chunk writes the same stretch of the whole. */
  lemma {:induction false} FlattenSplice(cs: seq<seq<bv8>>, i: nat, o: nat, data: seq<bv8>)
    requires i < |cs| && o + |data| <= |cs[i]|
    ensures Before(Lens(cs), i) + o + |data| <= |Flatten(cs)|
    ensures Flatten(cs[i := Splice(cs[i], o, data)]) == Splice(Flatten(cs), Before(Lens(cs), i) + o, data)
  {
    hide Splice, Before, Flatten, Lens;
    BeforeInit(cs, i);
    if i < |cs| - 1 {
      FlattenSplice(cs[..|cs| - 1], i, o, data);
      SpliceInit(cs, i, Splice(cs[i], o, data), Before(Lens(cs), i) + o, data);
    } else {
      SpliceLast(cs, o, data);
    }
  }

  // ---------------------------------------------------------------- the copy loop

  /** One copy of the loop: `n` bytes at offset `at` of chunk `chunk`. Every one of them
      copies from the start of the caller's buffer. */
  datatype Copy = Copy(chunk: nat, at: nat, n: nat)

  /** The copies that the loop makes from chunk `i` on, `offset` bytes in. */
  function Copies(lens: seq<nat>, i: nat, offset: nat, len: nat): seq<Copy>
    requires i <= |lens|
    decreases |lens| - i
  {
    if len == 0 || i == |lens| then []
    else if lens[i] <= offset then Copies(lens, i + 1, offset - lens[i], len)
    else
      var n := if len > offset + lens[i] then lens[i] - offset else len;
      [Copy(i, offset, n)] + Copies(lens, i + 1, 0, len - n)
  }

  /** The bytes lie inside one chunk. */
  ghost predicate InOneChunk(lens: seq<nat>, offset: nat, len: nat) {
    exists i: nat :: i < |lens| && Before(lens, i) <= offset && offset + len <= Before(lens, i) + lens[i]
  }

  /** The loop did what it is for: one copy, of all bytes, within its chunk. */
  predicate Right(lens: seq<nat>, ps: seq<Copy>, len: nat) {
    |ps| == 1 && ps[0].n == len && ps[0].chunk < |lens| && ps[0].at + ps[0].n <= lens[ps[0].chunk]
  }

  /** The loop skips whole chunks first, and then copies once, or more often and wrongly. */
  lemma {:induction false} FirstCopy(lens: seq<nat>, i: nat, offset: nat, len: nat)
    requires i <= |lens| && len > 0 && Before(lens, i) + offset + len <= Before(lens, |lens|)
    ensures var ps := Copies(lens, i, offset, len);
            && ps != [] && i <= ps[0].chunk < |lens|
            && Before(lens, ps[0].chunk) + ps[0].at == Before(lens, i) + offset && ps[0].at < lens[ps[0].chunk]
            && (ps[0].n < len <==> len > ps[0].at + lens[ps[0].chunk])
            && ps[0].n <= len && (ps[0].n == len ==> |ps| == 1)
    decreases |lens| - i
  {
    if i == |lens| {
    } else if lens[i] <= offset {
      FirstCopy(lens, i + 1, offset - lens[i], len);
    }
  }

  lemma SameChunk(lens: seq<nat>, i: nat, j: nat, x: nat)
    requires i < |lens| && j < |lens| && Before(lens, i) <= x < Before(lens, i) + lens[i]
    requires Before(lens, j) <= x < Before(lens, j) + lens[j]
    ensures i == j
  {
    assert Before(lens, i + 1) == Before(lens, i) + lens[i] && Before(lens, j + 1) == Before(lens, j) + lens[j];
    hide Before;
    BeforeMono(lens, if i < j then i + 1 else i, if i < j then j else i);
    BeforeMono(lens, if j < i then j + 1 else j, if j < i then i else j);
  }

  lemma RightInOne(lens: seq<nat>, p: Copy, offset: nat, len: nat)
    requires p.chunk < |lens| && p.n == len && p.at + p.n <= lens[p.chunk] && Before(lens, p.chunk) + p.at == offset
    ensures InOneChunk(lens, offset, len)
  {
    assert Before(lens, p.chunk) <= offset && offset + len <= Before(lens, p.chunk) + lens[p.chunk];
  }

  /** The copy loop goes right exactly when the bytes do not straddle two chunks: its test for
      the end of a chunk adds the offset where it has to subtract it, and it never advances
      the buffer. */
  lemma CopyRightIffOneChunk(lens: seq<nat>, offset: nat, len: nat)
    requires len > 0 && offset + len <= Before(lens, |lens|)
    ensures Right(lens, Copies(lens, 0, offset, len), len) <==> InOneChunk(lens, offset, len)
  {
    FirstCopy(lens, 0, offset, len);
    var ps := Copies(lens, 0, offset, len);
    var p := ps[0];
    if InOneChunk(lens, offset, len) {
      var i: nat :| i < |lens| && Before(lens, i) <= offset && offset + len <= Before(lens, i) + lens[i];
      SameChunk(lens, i, p.chunk, offset);
    }
    if Right(lens, ps, len) {
      RightInOne(lens, p, offset, len);
    }
  }

  /** Every chunk is a whole number of pages. */
  ghost predicate WholePages(lens: seq<nat>) {
    forall i :: 0 <= i < |lens| ==> lens[i] % PAGE_SIZE == 0
  }

  lemma {:induction false} BeforeWhole(lens: seq<nat>, i: nat)
    requires WholePages(lens) && i <= |lens|
    ensures Before(lens, i) % PAGE_SIZE == 0
  {
    if i > 0 {
      BeforeWhole(lens, i - 1);
    }
  }

  lemma {:induction false} ChunkOf(lens: seq<nat>, n: nat, x: nat) returns (i: nat)
    requires n <= |lens| && x < Before(lens, n)
    ensures i < n && Before(lens, i) <= x < Before(lens, i) + lens[i]
  {
    if x >= Before(lens, n - 1) {
      i := n - 1;
    } else {
      i := ChunkOf(lens, n - 1, x);
    }
  }

  lemma AlignedRoom(x: nat, y: nat)
    requires x % PAGE_SIZE == 0 && y % PAGE_SIZE == 0 && x < y
    ensures x + PAGE_SIZE <= y
  {
  }

  lemma AlignedSum(x: nat, y: nat)
    requires x % PAGE_SIZE == 0 && y % PAGE_SIZE == 0
    ensures (x + y) % PAGE_SIZE == 0
  {
  }

  /** So accesses inside one page always go right. */
  lemma PageAccessInOneChunk(lens: seq<nat>, base: nat, start: nat, len: nat)
    requires WholePages(lens) && base % PAGE_SIZE == 0 && start + len <= PAGE_SIZE && len > 0
    requires base + PAGE_SIZE <= Before(lens, |lens|)
    ensures InOneChunk(lens, base + start, len)
  {
    var i := ChunkOf(lens, |lens|, base);
    BeforeWhole(lens, i);
    AlignedSum(Before(lens, i), lens[i]);
    AlignedRoom(base, Before(lens, i) + lens[i]);
    hide Before, WholePages;
    assert Before(lens, i) <= base + start && base + start + len <= Before(lens, i) + lens[i];
  }
}
