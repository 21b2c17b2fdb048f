/** Page buffers of four sectors, sector bitmaps as sets of sector numbers, and the part of
    a bitmap that one NAND transfer moves. */
module Sectors {
  import opened Flash

  const SECTORS: nat := 4

  type Sector = seq<bv8>

  type PageBuf = b: seq<Sector> | |b| == SECTORS witness [[], [], [], []]

  /** What is on a page, sector by sector: a mapped sector whose bytes are lost has none. */
  type Data = map<nat, Option<Sector>>

  function Kept(data: Data, bits: set<nat>): Data {
    map i | i in data :: if i in bits then data[i] else None
  }

  /** The sectors from `lo` up to, not including, `hi`. */
  function Span(lo: nat, hi: nat): (r: set<nat>)
    ensures forall i: nat :: i in r <==> lo <= i < hi
  {
    if hi <= lo then {} else Span(lo, hi - 1) + {hi - 1}
  }

  /** The bitmap is one nonempty run of sectors of a page. */
  ghost predicate OneRun(bits: set<nat>) {
    exists lo: nat, hi: nat :: lo < hi <= SECTORS && bits == Span(lo, hi)
  }

  /** There is a hole in the bitmap somewhere below sector `i`. */
  predicate HoleBelow(bits: set<nat>, i: nat) {
    exists j: nat | j < i :: j !in bits && exists k: nat | k < j :: k in bits
  }

  /** A nonempty set of sectors of a page. */
  ghost predicate Within(bits: set<nat>) {
    bits != {} && forall i :: i in bits ==> i < SECTORS
  }

  lemma WithinIs(bits: set<nat>)
    requires Within(bits)
    ensures bits != {} && Transferred(bits) <= bits && forall i :: i in bits ==> i < SECTORS
  {
  }

  /** The sectors a transfer of `bits` moves: the driver stops at the first hole. */
  function Transferred(bits: set<nat>): set<nat> {
    set i | i in bits && !HoleBelow(bits, i)
  }

  /** The page after a transfer of the sectors `bits` of `over` over `under`. */
  function Overlay(under: PageBuf, bits: set<nat>, over: PageBuf): (r: PageBuf)
    ensures forall i :: 0 <= i < SECTORS ==> r[i] == if i in bits then over[i] else under[i]
  {
    seq(SECTORS, i requires 0 <= i < SECTORS => if i in bits then over[i] else under[i])
  }

  lemma RunIsWhole(bits: set<nat>)
    requires OneRun(bits)
    ensures Transferred(bits) == bits && bits != {}
    ensures forall i :: i in bits ==> i < SECTORS
  {
    var lo: nat, hi: nat :| lo < hi <= SECTORS && bits == Span(lo, hi);
    assert lo in bits;
    forall i | i in bits ensures !HoleBelow(bits, i) {
    }
  }

  /** What a transfer moves is the first run of the bitmap: from its lowest sector up to the first
      one that is missing. */
  lemma FirstRunIs(bits: set<nat>) returns (lo: nat, hi: nat)
    requires Within(bits)
    ensures lo < hi <= SECTORS && Transferred(bits) == Span(lo, hi) <= bits && hi !in bits
    ensures forall i :: i in bits ==> lo <= i
  {
    var w: nat :| w in bits;
    lo := Lowest(bits, 0);
    hi := RunTop(bits, lo, lo + 1);
    forall i ensures i in Transferred(bits) <==> i in Span(lo, hi) {
      if i in bits && hi < i {
        assert HoleBelow(bits, i);
      }
    }
  }

  lemma {:induction false} RunTop(bits: set<nat>, lo: nat, n: nat) returns (hi: nat)
    requires Within(bits) && lo < n <= SECTORS && Span(lo, n) <= bits
    ensures n <= hi <= SECTORS && Span(lo, hi) <= bits && hi !in bits
    decreases SECTORS - n
  {
    if n in bits {
      hi := RunTop(bits, lo, n + 1);
    } else {
      hi := n;
    }
  }

  lemma {:induction false} TopOfRun(bits: set<nat>, lo: nat, hi: nat)
    requires lo < hi <= SECTORS && lo in bits
    requires forall i :: i in bits ==> lo <= i < hi
    requires forall i :: i in bits ==> !HoleBelow(bits, i)
    ensures OneRun(bits)
    decreases hi
  {
    if hi - 1 in bits {
      forall i: nat | lo <= i < hi ensures i in bits {
        if i !in bits {
          assert HoleBelow(bits, hi - 1);
        }
      }
      assert bits == Span(lo, hi);
    } else {
      TopOfRun(bits, lo, hi - 1);
    }
  }

  lemma {:induction false} Lowest(bits: set<nat>, n: nat) returns (lo: nat)
    requires exists i :: i in bits && i >= n
    requires forall i :: i in bits ==> n <= i < SECTORS
    ensures lo in bits && forall i :: i in bits ==> lo <= i
    decreases SECTORS - n
  {
    if n in bits {
      lo := n;
    } else {
      lo := Lowest(bits, n + 1);
    }
  }

  /** A nonempty bitmap of a page is moved whole exactly when it is one run of sectors. */
  lemma WholeIffOneRun(bits: set<nat>)
    requires bits != {} && forall i :: i in bits ==> i < SECTORS
    ensures Transferred(bits) == bits <==> OneRun(bits)
  {
    if OneRun(bits) {
      RunIsWhole(bits);
    } else if Transferred(bits) == bits {
      var w :| w in bits;
      assert w >= 0;
      var lo := Lowest(bits, 0);
      TopOfRun(bits, lo, SECTORS);
    }
  }

  /** Whatever the page held before, it holds the sectors `bits` of `buf` after the transfer
      exactly when they are one run. */
  lemma LandsIffOneRun(bits: set<nat>, buf: PageBuf)
    requires Within(bits)
    ensures OneRun(bits) <==>
              forall under: PageBuf, i :: i in bits ==> Overlay(under, Transferred(bits), buf)[i] == buf[i]
  {
    WholeIffOneRun(bits);
    if !OneRun(bits) {
      WithinIs(bits);
      var i :| i in bits && i !in Transferred(bits);
      var under := buf[i := buf[i] + [0]];
      assert Overlay(under, Transferred(bits), buf)[i] != buf[i];
    }
  }

  /** Sector 0 is mapped and the host writes sector 3: of the two, sector 3 is not transferred. */
  lemma HoleExample()
    ensures OneRun({0}) && OneRun({3}) && !OneRun({0, 3})
    ensures 0 in Transferred({0, 3}) && 3 !in Transferred({0, 3})
  {
    assert {0} == Span(0, 1) && {3} == Span(3, 4);
    var bits: set<nat> := {0, 3};
    assert 0 in bits && 1 !in bits;
    assert HoleBelow(bits, 3) by { assert exists k: nat | k < 1 :: k in bits; }
    WholeIffOneRun(bits);
  }
}
