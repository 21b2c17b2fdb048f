/** Addresses: physical page numbers as mixed-radix numerals, the striping of logical pages
    over planes, and the capacity arithmetic that leaves every plane room to collect. */
module Addressing {
  import opened Arith
  import opened Flash
  import opened Layout
  import opened Chip
  import opened ChipInv

  const RESERVE_RATE: nat := 10
  const GC_RATE: nat := 10
  const PAGE_BYTES: nat := 2048

  datatype Geometry = Geometry(channels: nat, chips: nat, dies: nat, planes: nat, blocks: nat, pages: nat)

  predicate Valid(g: Geometry) {
    g.channels > 0 && g.chips > 0 && g.dies > 0 && g.planes > 0 && g.blocks > 0 && g.pages > 0
  }

  predicate OnDevice(g: Geometry, at: PlaneAddr) {
    at.channel < g.channels && at.chip < g.chips && at.die < g.dies && at.plane < g.planes
  }

  predicate InGeometry(g: Geometry, loc: Loc) {
    OnDevice(g, loc.at) && loc.block < g.blocks && loc.page < g.pages
  }

  // ---------------------------------------------------------------- physical page numbers

  function PerPlane(g: Geometry): nat { g.pages * g.blocks }

  function PerDie(g: Geometry): nat { PerPlane(g) * g.planes }

  function PerChip(g: Geometry): nat { PerDie(g) * g.dies }

  function PerChannel(g: Geometry): nat { PerChip(g) * g.chips }

  function PerDevice(g: Geometry): nat { PerChannel(g) * g.channels }

  function Encode(g: Geometry, loc: Loc): nat {
    PerChannel(g) * loc.at.channel + PerChip(g) * loc.at.chip + PerDie(g) * loc.at.die
    + PerPlane(g) * loc.at.plane + g.pages * loc.block + loc.page
  }

  lemma RadixPositive(g: Geometry)
    requires Valid(g)
    ensures PerPlane(g) > 0 && PerDie(g) > 0 && PerChip(g) > 0 && PerChannel(g) > 0 && PerDevice(g) > 0
  {
    MulPositive(g.pages, g.blocks);
    MulPositive(PerPlane(g), g.planes);
    MulPositive(PerDie(g), g.dies);
    MulPositive(PerChip(g), g.chips);
    MulPositive(PerChannel(g), g.channels);
  }

  /** Six digits of a page number, from the page counts of the levels. */
  function Digit6(perChannel: nat, perChip: nat, perDie: nat, perPlane: nat, perBlock: nat, ppn: nat): Loc
    requires perChannel > 0 && perChip > 0 && perDie > 0 && perPlane > 0 && perBlock > 0
  {
    var inChannel := ppn % perChannel;
    var inChip := inChannel % perChip;
    var inDie := inChip % perDie;
    var inPlane := inDie % perPlane;
    Loc(PlaneAddr(ppn / perChannel, inChannel / perChip, inChip / perDie, inDie / perPlane),
        inPlane / perBlock, inPlane % perBlock % perBlock)
  }

  /** The location of a page number; nothing for numbers at or above `limit`. */
  function Detail(g: Geometry, limit: nat, ppn: nat): Option<Loc>
    requires Valid(g)
  {
    RadixPositive(g);
    if ppn >= limit then None
    else Some(Digit6(PerChannel(g), PerChip(g), PerDie(g), PerPlane(g), g.pages, ppn))
  }

  /** A location in the geometry has a page number of the device, and decoding takes that
      number back to the location exactly when it is below the limit. */
  lemma DecodeEncode(g: Geometry, limit: nat, loc: Loc)
    requires Valid(g) && InGeometry(g, loc)
    ensures Encode(g, loc) < PerDevice(g)
    ensures Detail(g, limit, Encode(g, loc)) == if Encode(g, loc) < limit then Some(loc) else None
  {
    RadixPositive(g);
    var x1 := g.pages * loc.block + loc.page;
    DigitBound(g.pages, loc.block, loc.page, g.blocks);
    DivMod(g.pages, loc.block, loc.page);
    var x2 := PerPlane(g) * loc.at.plane + x1;
    DigitBound(PerPlane(g), loc.at.plane, x1, g.planes);
    DivMod(PerPlane(g), loc.at.plane, x1);
    var x3 := PerDie(g) * loc.at.die + x2;
    DigitBound(PerDie(g), loc.at.die, x2, g.dies);
    DivMod(PerDie(g), loc.at.die, x2);
    var x4 := PerChip(g) * loc.at.chip + x3;
    DigitBound(PerChip(g), loc.at.chip, x3, g.chips);
    DivMod(PerChip(g), loc.at.chip, x3);
    DigitBound(PerChannel(g), loc.at.channel, x4, g.channels);
    DivMod(PerChannel(g), loc.at.channel, x4);
    hide PerPlane, PerDie, PerChip, PerChannel, PerDevice;
    assert Encode(g, loc) == PerChannel(g) * loc.at.channel + x4;
    DivMod(g.pages, 0, loc.page);
  }

  /** Decoding a page number of the device answers a location of the geometry, and
      encoding that location gives the number back. */
  lemma EncodeDecode(g: Geometry, limit: nat, ppn: nat)
    requires Valid(g) && ppn < limit <= PerDevice(g)
    ensures Detail(g, limit, ppn).Some?
    ensures InGeometry(g, Detail(g, limit, ppn).value) && Encode(g, Detail(g, limit, ppn).value) == ppn
  {
    hide PerPlane, PerDie, PerChip, PerChannel, PerDevice;
    RadixPositive(g);
    Radices(g);
    var x4 := ppn % PerChannel(g);
    var x3 := x4 % PerChip(g);
    var x2 := x3 % PerDie(g);
    var x1 := x2 % PerPlane(g);
    DivBound(ppn, PerChannel(g), g.channels);
    DivBound(x4, PerChip(g), g.chips);
    DivBound(x3, PerDie(g), g.dies);
    DivBound(x2, PerPlane(g), g.planes);
    DivBound(x1, g.pages, g.blocks);
    TakenApart(PerChannel(g), PerChip(g), PerDie(g), PerPlane(g), g.pages, ppn);
  }

  /** Each radix is a multiple of the one below. */
  lemma Radices(g: Geometry)
    ensures PerPlane(g) == g.pages * g.blocks && PerDie(g) == PerPlane(g) * g.planes && PerChip(g) == PerDie(g) * g.dies
    ensures PerChannel(g) == PerChip(g) * g.chips && PerDevice(g) == PerChannel(g) * g.channels
  {
  }

  /** The digits of a number give it back. */
  lemma TakenApart(c: nat, h: nat, d: nat, p: nat, b: nat, x: nat)
    requires c > 0 && h > 0 && d > 0 && p > 0 && b > 0
    ensures var l := Digit6(c, h, d, p, b, x);
            && c * l.at.channel + h * l.at.chip + d * l.at.die + p * l.at.plane + b * l.block + l.page == x
            && l.at.channel == x / c && l.at.chip == x % c / h && l.at.die == x % c % h / d
            && l.at.plane == x % c % h % d / p && l.block == x % c % h % d % p / b && l.page < b
  {
    NumOf(x, c);
    NumOf(x % c, h);
    NumOf(x % c % h, d);
    NumOf(x % c % h % d, p);
    NumOf(x % c % h % d % p, b);
    DivMod(b, 0, x % c % h % d % p % b);
  }

  /** No two pages of the device share a number. */
  lemma EncodeInjective(g: Geometry, a: Loc, b: Loc)
    requires Valid(g) && InGeometry(g, a) && InGeometry(g, b) && Encode(g, a) == Encode(g, b)
    ensures a == b
  {
    DecodeEncode(g, PerDevice(g), a);
    DecodeEncode(g, PerDevice(g), b);
  }

  // ---------------------------------------------------------------- the order of the pages

  /** The page after `loc`: the next of its block, or the first of the next block, of the next
      plane, of the next die and so on. */
  function NextPage(g: Geometry, loc: Loc): Loc {
    var at := loc.at;
    if loc.page + 1 < g.pages then loc.(page := loc.page + 1)
    else if loc.block + 1 < g.blocks then Loc(at, loc.block + 1, 0)
    else if at.plane + 1 < g.planes then Loc(at.(plane := at.plane + 1), 0, 0)
    else if at.die + 1 < g.dies then Loc(PlaneAddr(at.channel, at.chip, at.die + 1, 0), 0, 0)
    else if at.chip + 1 < g.chips then Loc(PlaneAddr(at.channel, at.chip + 1, 0, 0), 0, 0)
    else Loc(PlaneAddr(at.channel + 1, 0, 0, 0), 0, 0)
  }

  /** Pages are numbered from the first of the device on, in this order. */
  lemma NumberedInOrder(g: Geometry, loc: Loc)
    requires Valid(g) && InGeometry(g, loc)
    ensures Encode(g, Loc(PlaneAddr(0, 0, 0, 0), 0, 0)) == 0
    ensures Encode(g, NextPage(g, loc)) == Encode(g, loc) + 1
    ensures InGeometry(g, NextPage(g, loc)) <==> Encode(g, loc) + 1 < PerDevice(g)
  {
    Radices(g);
    var at := loc.at;
    if loc.page + 1 == g.pages {
      Carry(g.pages, loc.block);
      if loc.block + 1 == g.blocks {
        Carry(PerPlane(g), at.plane);
        if at.plane + 1 == g.planes {
          Carry(PerDie(g), at.die);
          if at.die + 1 == g.dies {
            Carry(PerChip(g), at.chip);
            if at.chip + 1 == g.chips {
              Carry(PerChannel(g), at.channel);
            }
          }
        }
      }
    }
    hide PerPlane, PerDie, PerChip, PerChannel, PerDevice;
    DecodeEncode(g, PerDevice(g), loc);
    if InGeometry(g, NextPage(g, loc)) {
      DecodeEncode(g, PerDevice(g), NextPage(g, loc));
    } else {
      assert at.channel + 1 == g.channels;
    }
  }

  lemma Carry(radix: nat, digit: nat)
    ensures radix * (digit + 1) == radix * digit + radix
  {
  }

  // ---------------------------------------------------------------- capacity

  /** The number of logical pages, as it is computed at set-up: from bytes, less the
      reserve, rounded up to whole pages. */
  function MapSize(g: Geometry): nat {
    var all := PerDevice(g) * PAGE_BYTES;
    (all - all / RESERVE_RATE + PAGE_BYTES - 1) / PAGE_BYTES
  }

  lemma CeilOfDifference(n: nat, q: nat, x: nat)
    requires n > 0 && x <= n * q
    ensures (n * q - x + n - 1) / n == q - x / n && x / n <= q
  {
    var d := x / n;
    var s := x % n;
    assert x == n * d + s;
    assert d <= q by {
      if d > q { MulMono(n, q + 1, d); }
    }
    assert n * q - x + n - 1 == n * (q - d) + (n - 1 - s);
    DivMod(n, q - d, n - 1 - s);
  }

  lemma ScaleDiv(n: nat, q: nat, k: nat)
    requires n > 0 && k > 0
    ensures n * q / k / n == q / k && n * q / k <= n * q
  {
    var p := n * q;
    DivDiv(p, k, n);
    DivDiv(p, n, k);
    DivMod(n, q, 0);
    DivShrinks(p, k);
  }

  lemma DivShrinks(p: nat, k: nat)
    requires k > 0
    ensures p / k <= p
  {
    MulMono(p / k, 1, k);
    assert p == k * (p / k) + p % k;
  }

  lemma MapSizeIs(g: Geometry)
    requires Valid(g)
    ensures MapSize(g) == PerDevice(g) - PerDevice(g) / RESERVE_RATE
  {
    var t := PerDevice(g);
    assert PAGE_BYTES * t == t * PAGE_BYTES;
    ScaleDiv(PAGE_BYTES, t, RESERVE_RATE);
    CeilOfDifference(PAGE_BYTES, t, PAGE_BYTES * t / RESERVE_RATE);
  }

  /** The driver guards decoding with the number of logical pages. That is right for every
      page of the device exactly when the reserve is empty, that is, below ten pages. */
  lemma GuardRightIffNoReserve(g: Geometry)
    requires Valid(g)
    ensures (forall loc :: InGeometry(g, loc) ==>
            Detail(g, MapSize(g), Encode(g, loc)) == Some(loc)) <==> PerDevice(g) < RESERVE_RATE
  {
    MapSizeIs(g);
    var t := PerDevice(g);
    if t < RESERVE_RATE {
      forall loc | InGeometry(g, loc) ensures Detail(g, MapSize(g), Encode(g, loc)) == Some(loc) {
        DecodeEncode(g, MapSize(g), loc);
      }
    } else {
      EncodeDecode(g, t, t - 1);
      var loc := Detail(g, t, t - 1).value;
      DecodeEncode(g, MapSize(g), loc);
    }
  }

  /** The geometry that the driver sets up. */
  const DEFAULT := Geometry(1, 1, 1, 1, 256, 64)

  /** On it, block 231 starts with a page that the guard rejects. */
  lemma GuardRejectsPage()
    ensures var loc := Loc(PlaneAddr(0, 0, 0, 0), 231, 0);
            MapSize(DEFAULT) == 14746 && InGeometry(DEFAULT, loc)
                && Detail(DEFAULT, MapSize(DEFAULT), Encode(DEFAULT, loc)).None?
  {
    MapSizeIs(DEFAULT);
    DecodeEncode(DEFAULT, MapSize(DEFAULT), Loc(PlaneAddr(0, 0, 0, 0), 231, 0));
  }

  // ---------------------------------------------------------------- striping

  function Planes(g: Geometry): nat { g.channels * g.chips * g.dies * g.planes }

  /** The plane a logical page lives in. */
  function Home(g: Geometry, lpn: nat): PlaneAddr
    requires Valid(g)
  {
    MulPositive(g.channels, g.chips);
    MulPositive(g.channels * g.chips, g.dies);
    PlaneAddr(lpn % g.channels,
              lpn / g.channels % g.chips,
              lpn / (g.channels * g.chips) % g.dies,
              lpn / (g.channels * g.chips * g.dies) % g.planes)
  }

  lemma MulPositive(a: nat, b: nat)
    requires a > 0 && b > 0
    ensures a * b > 0
  {
  }

  /** The position of a plane in the round of the stripes. */
  function Turn(g: Geometry, a: PlaneAddr): nat {
    Num(g.channels, Num(g.chips, Num(g.dies, a.plane, a.die), a.chip), a.channel)
  }

  /** One digit of a numeral taken off the bottom. */
  lemma ModStep(x: nat, n: nat, k: nat)
    requires n > 0 && k > 0
    ensures n * k > 0 && x % (n * k) == Num(n, x / n % k, x % n)
  {
    hide Num;
    NumOf(x, n);
    NumOf(x / n, k);
    TwoDigits(n, k, x / n / k, x / n % k, x % n);
  }

  lemma TwoDigits(n: nat, k: nat, t: nat, u: nat, r: nat)
    requires u < k && r < n
    ensures n * k > 0 && Num(n, Num(k, t, u), r) % (n * k) == Num(n, u, r)
  {
    DigitBound(n, u, r, k);
    Distribute(n, k, t, u);
    DivMod(n * k, t, n * u + r);
  }

  lemma Distribute(n: nat, k: nat, t: nat, u: nat)
    ensures n * (k * t + u) == n * k * t + n * u
  {
    assert n * (k * t) == n * k * t;
  }

  lemma Digits(x: nat, c: nat, k: nat, d: nat, l: nat)
    requires c > 0 && k > 0 && d > 0 && l > 0
    ensures c * (k * (d * l)) > 0
    ensures Num(c, Num(k, Num(d, x / c / k / d % l, x / c / k % d), x / c % k), x % c) == x % (c * (k * (d * l)))
  {
    hide Num;
    ModStep(x / c / k, d, l);
    ModStep(x / c, k, d * l);
    ModStep(x, c, k * (d * l));
  }

  lemma HomeDigits(g: Geometry, lpn: nat)
    requires Valid(g)
    ensures var a := lpn / g.channels;
            Home(g, lpn) == PlaneAddr(lpn % g.channels, a % g.chips, a / g.chips % g.dies,
                a / g.chips / g.dies % g.planes)
  {
    DivDiv(lpn, g.channels, g.chips);
    DivDiv(lpn, g.channels * g.chips, g.dies);
  }

  lemma PlanesIs(g: Geometry)
    ensures g.channels * (g.chips * (g.dies * g.planes)) == Planes(g)
  {
    var x := g.dies * g.planes;
    assert g.channels * (g.chips * x) == g.channels * g.chips * x;
    assert g.channels * g.chips * (g.dies * g.planes) == g.channels * g.chips * g.dies * g.planes;
  }

  /** Each page sits in the plane whose turn it is. */
  lemma HomeTurn(g: Geometry, lpn: nat)
    requires Valid(g)
    ensures OnDevice(g, Home(g, lpn)) && Planes(g) > 0 && Turn(g, Home(g, lpn)) == lpn % Planes(g)
  {
    HomeDigits(g, lpn);
    hide Home;
    Digits(lpn, g.channels, g.chips, g.dies, g.planes);
    PlanesIs(g);
    hide Planes, Num;
  }

  /** Two logical pages share a plane exactly when they are whole rounds apart. */
  lemma SamePlane(g: Geometry, l1: nat, l2: nat)
    requires Valid(g)
    ensures Planes(g) > 0
    ensures Home(g, l1) == Home(g, l2) <==> l1 % Planes(g) == l2 % Planes(g)
  {
    HomeTurn(g, l1);
    HomeTurn(g, l2);
    if l1 % Planes(g) == l2 % Planes(g) {
      TurnInjective(g, Home(g, l1), Home(g, l2));
    }
  }

  lemma DigitUnique(n: nat, q: nat, r: nat, q': nat, r': nat)
    requires r < n && r' < n && Num(n, q, r) == Num(n, q', r')
    ensures q == q' && r == r'
  {
    DivMod(n, q, r);
    DivMod(n, q', r');
  }

  lemma TurnInjective(g: Geometry, a: PlaneAddr, b: PlaneAddr)
    requires Valid(g) && OnDevice(g, a) && OnDevice(g, b) && Turn(g, a) == Turn(g, b)
    ensures a == b
  {
    hide Num;
    var a1, b1 := Num(g.dies, a.plane, a.die), Num(g.dies, b.plane, b.die);
    DigitUnique(g.channels, Num(g.chips, a1, a.chip), a.channel, Num(g.chips, b1, b.chip), b.channel);
    DigitUnique(g.chips, a1, a.chip, b1, b.chip);
    DigitUnique(g.dies, a.plane, a.die, b.plane, b.die);
  }

  /** In `k` rounds of `n` numbers, at most `k` have one remainder. */
  lemma {:induction false} OnePerRound(s: set<nat>, n: nat, r: nat, k: nat)
    requires n > 0 && forall l :: l in s ==> l < n * k && l % n == r
    ensures |s| <= k
  {
    if k == 0 {
      assert s == {};
    } else {
      var x := n * (k - 1);
      var low := set l | l in s && l < x;
      OnePerRound(low, n, r, k - 1);
      forall l | l in s && l >= x ensures l == x + r {
        LastRound(n, k, l);
      }
      CardMono(s, low + {x + r});
    }
  }

  lemma LastRound(n: nat, k: nat, l: nat)
    requires n > 0 && k > 0 && n * (k - 1) <= l < n * k
    ensures l == n * (k - 1) + l % n
  {
    assert n * k == n * (k - 1) + n;
    DivMod(n, k - 1, l - n * (k - 1));
  }

  lemma {:induction false} CardMono(a: set<nat>, b: set<nat>)
    requires a <= b
    ensures |a| <= |b|
  {
    assert b == a + (b - a);
  }

  lemma CeilCovers(m: nat, n: nat)
    requires n > 0
    ensures m <= n * ((m + n - 1) / n)
  {
    assert m + n - 1 == n * ((m + n - 1) / n) + (m + n - 1) % n;
  }

  // ---------------------------------------------------------------- one chip's part

  function ChipPlanes(g: Geometry, c: ChipAddr): set<PlaneAddr> {
    set d: nat, p: nat | d < g.dies && p < g.planes :: PlaneAddr(c.channel, c.chip, d, p)
  }

  function Homes(g: Geometry, c: ChipAddr): map<nat, PlaneAddr>
    requires Valid(g)
  {
    map l: nat | l < MapSize(g) && Home(g, l).channel == c.channel && Home(g, l).chip == c.chip :: Home(g, l)
  }

  function Threshold(g: Geometry): nat { g.pages * g.blocks / GC_RATE }

  /** What the driver's set-up makes one chip responsible for. */
  function ConfigOf(g: Geometry, c: ChipAddr, split: bool): Config
    requires Valid(g)
  {
    Config(g.blocks, g.pages, ChipPlanes(g, c), Homes(g, c), Threshold(g), split)
  }

  /** The pages striped onto a plane, rounded up, and the collection threshold together
      are exactly the pages of the plane. */
  lemma StripesPlusThreshold(g: Geometry)
    requires Valid(g)
    ensures Planes(g) > 0 && (MapSize(g) + Planes(g) - 1) / Planes(g) + Threshold(g) == PerPlane(g)
  {
    HomeTurn(g, 0);
    var n, q := Planes(g), PerPlane(g);
    DeviceIsPlanes(g);
    MapSizeIs(g);
    ScaleDiv(n, q, RESERVE_RATE);
    CeilOfDifference(n, q, n * q / RESERVE_RATE);
  }

  lemma DeviceIsPlanes(g: Geometry)
    ensures PerDevice(g) == Planes(g) * PerPlane(g)
  {
    var q := PerPlane(g);
    MulSwap(q, g.planes, g.dies, g.chips, g.channels);
  }

  lemma MulSwap(q: nat, l: nat, d: nat, k: nat, c: nat)
    ensures q * l * d * k * c == c * k * d * l * q
  {
    assert q * l * d * k * c == q * l * d * (k * c);
    assert q * l * d * (k * c) == q * l * (d * (k * c));
    assert q * l * (d * (k * c)) == q * (l * (d * (k * c)));
    assert d * (k * c) == c * k * d;
    assert l * (c * k * d) == c * k * d * l;
  }

  lemma {:induction false} CapIs(n: nat, P: nat)
    ensures Cap(n, P) == P * n
  {
    if n > 0 {
      CapIs(n - 1, P);
      assert P * n == P * (n - 1) + P;
    }
  }

  lemma PlaneCap(g: Geometry)
    ensures Cap(g.blocks, g.pages) == PerPlane(g)
  {
    CapIs(g.blocks, g.pages);
  }

  /** Every plane of every geometry has room: whatever the geometry, as soon as a tenth of
      a plane is two blocks (and the slack), the configuration of each chip is roomy. */
  lemma GeometryIsRoomy(g: Geometry, c: ChipAddr, split: bool)
    requires Valid(g)
    requires Threshold(g) >= 2 * g.pages + if split then g.blocks else 0
    requires c.channel < g.channels && c.chip < g.chips
    ensures Roomy(ConfigOf(g, c, split))
  {
    var cfg := ConfigOf(g, c, split);
    forall l | l in cfg.homes ensures cfg.homes[l] in cfg.addrs {
      HomeTurn(g, l);
    }
    forall a | a in cfg.addrs ensures |Homed(cfg, a)| + cfg.threshold <= Cap(cfg.blocks, cfg.pages) {
      HomedBound(g, c, split, a);
    }
  }

  lemma HomedBound(g: Geometry, c: ChipAddr, split: bool, a: PlaneAddr)
    requires Valid(g) && OnDevice(g, a)
    ensures |Homed(ConfigOf(g, c, split), a)| + Threshold(g) <= Cap(g.blocks, g.pages)
  {
    hide MapSize, Threshold, Planes, PerPlane, Turn;
    StripesPlusThreshold(g);
    PlaneCap(g);
    hide Cap;
    var s := Homed(ConfigOf(g, c, split), a);
    forall l | l in s ensures l < MapSize(g) && l % Planes(g) == Turn(g, a) {
      HomeTurn(g, l);
    }
    CeilCovers(MapSize(g), Planes(g));
    OnePerRound(s, Planes(g), Turn(g, a), (MapSize(g) + Planes(g) - 1) / Planes(g));
  }

  /** In particular the geometry the driver sets up, with or without the slack. */
  lemma DefaultIsRoomy(split: bool)
    ensures Roomy(ConfigOf(DEFAULT, ChipAddr(0, 0), split))
  {
    GeometryIsRoomy(DEFAULT, ChipAddr(0, 0), split);
  }
}
