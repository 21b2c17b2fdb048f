/** Sector bitmaps as the driver has them, in words of 64 bits, and the sets they stand for. */
module Bitmaps {
  import opened Sectors

  const SUB_PAGE_MASK: bv64 := 0xffff_ffff_ffff_ffff

  /** The driver's bitmap of `n` sectors from sector `s` on. */
  function Bitmap(s: bv6, n: bv6): bv64 { !(SUB_PAGE_MASK << n) << s }

  predicate Has(b: bv64, i: bv6) { b & (1 << i) != 0 }

  predicate Bit(b: bv64, i: nat)
    requires i < 64
  {
    Has(b, i as bv6)
  }

  /** The sectors a bitmap names. */
  function SetOf(b: bv64): set<nat> {
    set i: nat | i < 64 && Bit(b, i)
  }

  lemma HighBits(b: bv64, i: bv6)
    requires b < 16 && 4 <= i
    ensures !Has(b, i)
  {
    assert b & (1 << i) == 0;
  }

  lemma LowBits(s: bv6, n: bv6, i: bv6)
    requires s < 4 && 1 <= n <= 4 && s + n <= 4 && i < 4
    ensures Bitmap(s, n) < 16
    ensures Has(Bitmap(s, n), i) <==> s <= i < s + n
  {
    assert Bitmap(s, n) < 16;
  }

  /** The shifts make the run of sectors they are meant to make. */
  lemma BitmapIsRun(s: nat, n: nat)
    requires 1 <= n && s + n <= SECTORS
    ensures SetOf(Bitmap(s as bv6, n as bv6)) == Span(s, s + n)
  {
    var b := Bitmap(s as bv6, n as bv6);
    forall i: nat | i < 64 ensures Bit(b, i) <==> s <= i < s + n {
      BitmapBit(s, n, i);
    }
  }

  lemma BitmapBit(s: nat, n: nat, i: nat)
    requires 1 <= n && s + n <= SECTORS && i < 64
    ensures Has(Bitmap(s as bv6, n as bv6), i as bv6) <==> s <= i < s + n
  {
    hide Bitmap, Has;
    var s', n', i' := s as bv6, n as bv6, i as bv6;
    if i < 4 {
      LowBits(s', n', i');
    } else {
      LowBits(s', n', 0);
      HighBits(Bitmap(s', n'), i');
    }
  }

  lemma {:induction false} SpanSize(lo: nat, n: nat)
    ensures |Span(lo, lo + n)| == n
  {
    hide Span;
    if n == 0 {
      assert Span(lo, lo) == {};
    } else {
      SpanSize(lo, n - 1);
      SpanLast(lo, lo + n);
    }
  }

  lemma SpanLast(lo: nat, hi: nat)
    requires lo < hi
    ensures Span(lo, hi) == Span(lo, hi - 1) + {hi - 1} && hi - 1 !in Span(lo, hi - 1)
  {
  }

  function Below(bits: set<nat>, i: nat): set<nat> {
    set k | k in bits && k < i
  }

  lemma BelowNext(bits: set<nat>, i: nat)
    ensures Below(bits, i + 1) == if i in bits then Below(bits, i) + {i} else Below(bits, i)
    ensures |Below(bits, i + 1)| == if i in bits then |Below(bits, i)| + 1 else |Below(bits, i)|
    ensures Below(bits, 0) == {}
  {
    assert i !in Below(bits, i);
    assert Below(bits, i + 1) == if i in bits then Below(bits, i) + {i} else Below(bits, i);
  }

  ghost predicate First(bits: set<nat>, f: nat) {
    f in bits && forall i :: i in bits ==> f <= i
  }

  lemma StillFirst(bits: set<nat>, i: nat, f: nat)
    requires i in bits && if Below(bits, i) == {} then f == i else First(Below(bits, i), f)
    ensures First(Below(bits, i + 1), f) && Below(bits, i + 1) != {}
  {
    BelowNext(bits, i);
    var b := Below(bits, i);
    assert forall k :: k in b ==> k < i;
    if b == {} {
      assert Below(bits, i + 1) == {i};
    }
  }

  /** Where a read's bytes start in its buffer and how many there are: as many sectors as
      there are set bits, from the first set bit on. */
  method GetReadCopyStartAndLen(bitMap: bv64) returns (start: int, len: nat, ghost first: nat)
    ensures len == 512 * |SetOf(bitMap)|
    ensures if SetOf(bitMap) == {} then start == -1 else start == 512 * first && First(SetOf(bitMap), first)
  {
    start, len := -1, 0;
    var i: nat := 0;
    first := 0;
    ghost var bits := SetOf(bitMap);
    hide Bit, Below, First, SetOf;
    BelowNext(bits, 0);
    while i < 64
      invariant i <= 64 && len == 512 * |Below(bits, i)|
      invariant if Below(bits, i) == {} then start == -1 else start == 512 * first && First(Below(bits, i), first)
    {
      BelowNext(bits, i);
      BitIn(bitMap, i);
      if Bit(bitMap, i) {
        if start == -1 {
          start := i * 512;
          first := i;
        }
        StillFirst(bits, i, first);
        len := len + 512;
      }
      i := i + 1;
    }
    AllBelow(bitMap);
  }

  lemma BitIn(b: bv64, i: nat)
    requires i < 64
    ensures i in SetOf(b) <==> Bit(b, i)
  {
    hide Bit;
  }

  lemma AllBelow(b: bv64)
    ensures Below(SetOf(b), 64) == SetOf(b)
  {
    hide Bit;
  }
}
