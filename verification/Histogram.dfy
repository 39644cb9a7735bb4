/**
 The quantile sketch of the telemetry: counts of samples in bins of a logarithmic scale
 with eight bins per power of two, filled per thread and merged.
 */
module Histogram {
  import opened Machine
  import opened Bits
  import opened Counting

  const SUBS: nat := 8
  const SUB_BITS: nat := 3
  const BINS: nat := 512

  // ---------------------------------------------------------------------------
  // Values and bins

  /** The position of the highest set bit. */
  function Exponent(v: nat): (e: nat)
    requires v >= 1
    ensures Pow2(e) <= v < 2 * Pow2(e)
  {
    if v == 1 then 0 else 1 + Exponent(v / 2)
  }

  function Sub(v: nat, e: nat, base: nat): nat
    requires base <= v
  {
    if e == 0 then 0
    else if e >= SUB_BITS then Shr(v - base, e - SUB_BITS)
    else Shl(v - base, SUB_BITS - e)
  }

  function Index(v: nat): nat {
    if v == 0 then 0
    else
      var e := Exponent(v);
      var s := Sub(v, e, Pow2(e));
      e * SUBS + if s >= SUBS then SUBS - 1 else s
  }

  function Value(index: nat): nat {
    var e, s := index / SUBS, index % SUBS;
    if e == 0 then (if index == 0 then 0 else 1) else Pow2(e) + Pow2(e) * s / SUBS
  }

  lemma SmallPowers()
    ensures Pow2(0) == 1 && Pow2(1) == 2 && Pow2(2) == 4 && Pow2(3) == 8
  {
    assert Pow2(1) == 2 * Pow2(0) && Pow2(2) == 2 * Pow2(1) && Pow2(3) == 2 * Pow2(2);
  }

  lemma QuotientBounds(x: nat, u: nat, n: nat)
    requires u > 0 && x < n * u
    ensures x / u < n && u * (x / u) <= x < u * (x / u) + u
  {
    Remainder(x, u, x / u, x % u);
    if x / u >= n {
      Distribute(x / u, n, u);
      Multiple(x / u - n, u);
    }
  }

  /** The arithmetic of a bin of width u at the power of two 8 * u. */
  lemma EighthBin(v: nat, base: nat, u: nat, s: nat)
    requires base == 8 * u && u > 0 && base <= v < 2 * base && s == (v - base) / u
    ensures s < SUBS && base * s / SUBS == u * s && base + u * s <= v < base + u * s + u
  {
    QuotientBounds(v - base, u, 8);
    assert base * s == (u * s) * 8;
    Remainder(base * s, 8, u * s, 0);
  }

  /** The number of the bin within its power of two. */
  function SubOf(v: nat): nat
    requires v >= 1
  {
    Sub(v, Exponent(v), Pow2(Exponent(v)))
  }

  lemma LargeBin(v: nat)
    requires v >= 1 && Exponent(v) >= SUB_BITS
    ensures var base := Pow2(Exponent(v));
            && SubOf(v) < SUBS && base + base * SubOf(v) / SUBS <= v && 8 * (v - (base + base * SubOf(v) / SUBS)) <= v && v >= 8
  {
    var e := Exponent(v);
    var u := Pow2(e - SUB_BITS);
    Pow2Sum(SUB_BITS, e - SUB_BITS);
    SmallPowers();
    hide Pow2, Exponent;
    assert SubOf(v) == (v - 8 * u) / u;
    EighthBin(v, 8 * u, u, SubOf(v));
  }

  lemma SmallBin(v: nat)
    requires v >= 1 && Exponent(v) < SUB_BITS
    ensures v < 8 && SubOf(v) < SUBS
    ensures var base := Pow2(Exponent(v)); v >= 2 ==> Exponent(v) >= 1 && base + base * SubOf(v) / SUBS == v
    ensures v == 1 ==> Exponent(v) == 0 && SubOf(v) == 0
  {
    SmallPowers();
    assert v < 8;
    if v == 2 || v == 3 {
      assert Exponent(v) == 1;
    } else if v >= 4 {
      assert Exponent(v) == 1 + Exponent(v / 2) == 2;
    }
  }

  lemma SubInRange(v: nat)
    requires v >= 1
    ensures SubOf(v) < SUBS && Index(v) / SUBS == Exponent(v) && Index(v) % SUBS == SubOf(v)
  {
    if Exponent(v) >= SUB_BITS {
      LargeBin(v);
    } else {
      SmallBin(v);
    }
    hide Pow2, Exponent, Sub;
  }

  /** A value is reported as at most itself, and at most an eighth too small; small values exactly, but 1 as 0. */
  lemma ValueOfIndex(v: nat)
    ensures Value(Index(v)) <= v
    ensures v >= 2 ==> 8 * (v - Value(Index(v))) <= v
    ensures v < 8 && v != 1 ==> Value(Index(v)) == v
    ensures v == 1 ==> Value(Index(v)) == 0
  {
    if v >= 1 {
      SubInRange(v);
      if Exponent(v) >= SUB_BITS {
        LargeBin(v);
      } else {
        SmallBin(v);
      }
      hide Pow2, Exponent, Sub, SubOf;
    }
  }

  lemma {:induction false} ExponentMonotone(v: nat, w: nat)
    requires 1 <= v <= w
    ensures Exponent(v) <= Exponent(w)
  {
    if v > 1 {
      ExponentMonotone(v / 2, w / 2);
    }
  }

  lemma QuotientMonotone(x: nat, y: nat, u: nat)
    requires u > 0 && x <= y
    ensures x / u <= y / u
  {
    Remainder(x, u, x / u, x % u);
    Remainder(y, u, y / u, y % u);
    Distribute(x / u, y / u + 1, u);
    Multiple(x / u - (y / u + 1), u);
    Multiple(y / u + 1, u);
    assert (y / u + 1) * u == (y / u) * u + u;
  }

  lemma SubMonotone(v: nat, w: nat, e: nat, base: nat)
    requires base <= v <= w
    ensures Sub(v, e, base) <= Sub(w, e, base)
  {
    if e >= SUB_BITS {
      QuotientMonotone(v - base, w - base, Pow2(e - SUB_BITS));
    } else {
      Distribute(w - base, v - base, Pow2(SUB_BITS - e));
      Multiple(w - v, Pow2(SUB_BITS - e));
    }
    hide Pow2;
  }

  /** Larger values go to the same or to later bins. */
  lemma IndexMonotone(v: nat, w: nat)
    requires v <= w
    ensures Index(v) <= Index(w)
  {
    if v >= 1 {
      SubInRange(v);
      SubInRange(w);
      ExponentMonotone(v, w);
      if Exponent(v) == Exponent(w) {
        SubMonotone(v, w, Exponent(v), Pow2(Exponent(v)));
      }
      hide Pow2, Exponent, Sub;
    }
  }

  lemma IndexInRange(v: nat)
    requires v < WORD
    ensures Index(v) < BINS
  {
    if v >= 1 {
      SubInRange(v);
      var e := Exponent(v);
      if e >= 64 {
        Pow2Monotone(64, e);
        WordIsPow2();
      }
    }
  }

  /** Later bins stand for the same or larger values. */
  lemma ValueMonotone(i: nat, j: nat)
    requires i <= j
    ensures Value(i) <= Value(j)
  {
    var e, f := i / SUBS, j / SUBS;
    SmallPowers();
    ValueRange(i);
    ValueRange(j);
    if 1 <= e < f {
      Pow2Monotone(e + 1, f);
    } else if 1 <= e == f {
      var x, y := Pow2(e) * (i % SUBS), Pow2(e) * (j % SUBS);
      Distribute(j % SUBS, i % SUBS, Pow2(e));
      Multiple(j % SUBS - i % SUBS, Pow2(e));
      assert x <= y;
    } else if e == 0 && f >= 1 {
      Pow2Monotone(1, f);
    }
  }

  lemma ValueRange(i: nat)
    ensures var e := i / SUBS; e >= 1 ==> Pow2(e) <= Value(i) < 2 * Pow2(e)
  {
    var e, s := i / SUBS, i % SUBS;
    Distribute(8, s, Pow2(e));
    Multiple(8 - s, Pow2(e));
  }

  // ---------------------------------------------------------------------------
  // Samples and their bins

  function InBin(i: int): nat -> bool { (v: nat) => Index(v) == i }
  function BinBelow(i: int): nat -> bool { (v: nat) => Index(v) < i }
  function LessThan(x: int): nat -> bool { (v: nat) => v < x }
  function AtMost(x: int): nat -> bool { (v: nat) => v <= x }

  /** The bins count the samples. */
  ghost predicate Counts(bins: seq<nat>, samples: seq<nat>) {
    && |bins| == BINS
    && (forall v :: v in samples ==> v < WORD)
    && (forall i {:trigger bins[i]} :: 0 <= i < BINS ==> bins[i] == Count(samples, InBin(i)))
  }

  function Seen(bins: seq<nat>, i: nat): nat
    requires i <= |bins|
  {
    if i == 0 then 0 else Seen(bins, i - 1) + bins[i - 1]
  }

  lemma {:induction false} BinsAdd(samples: seq<nat>, i: int)
    ensures Count(samples, BinBelow(i + 1)) == Count(samples, BinBelow(i)) + Count(samples, InBin(i))
  {
    if samples != [] {
      BinsAdd(samples[..|samples| - 1], i);
      hide Index;
    }
  }

  lemma {:induction false} SeenIsCount(bins: seq<nat>, samples: seq<nat>, i: nat)
    requires Counts(bins, samples) && i <= BINS
    ensures Seen(bins, i) == Count(samples, BinBelow(i))
  {
    if i == 0 {
      CountZero(samples, BinBelow(0));
    } else {
      SeenIsCount(bins, samples, i - 1);
      BinsAdd(samples, i - 1);
    }
  }

  // ---------------------------------------------------------------------------
  // Percentiles

  /** The first bin at which the running count reaches the rank. */
  function FirstBin(bins: seq<nat>, rank: nat, i: nat): nat
    requires i <= |bins|
    decreases |bins| - i
  {
    if i == |bins| || Seen(bins, i + 1) >= rank then i else FirstBin(bins, rank, i + 1)
  }

  function RankOf(count: nat, percent: nat): nat {
    var r := (count * percent + 99) / 100;
    if r == 0 then 1 else r
  }

  function Percentile(bins: seq<nat>, count: nat, max: nat, percent: nat): nat {
    if count == 0 then 0
    else
      var i := FirstBin(bins, RankOf(count, percent), 0);
      if i < |bins| then Value(i) else max
  }

  /** The nearest-rank sample: fewer than r samples are smaller, and at least r are not larger. */
  ghost predicate IsRank(samples: seq<nat>, r: nat, x: nat) {
    x in samples && Count(samples, LessThan(x)) < r <= Count(samples, AtMost(x))
  }

  /** The rank is the least one, from 1 on, that covers the given percent of the samples. */
  lemma RankIsLeast(count: nat, percent: nat, r: nat)
    ensures RankOf(count, percent) >= 1 && 100 * RankOf(count, percent) >= count * percent
    ensures r >= 1 && 100 * r >= count * percent ==> RankOf(count, percent) <= r
  {
  }

  lemma RankBounds(n: nat, p: nat)
    requires n >= 1 && p <= 100
    ensures 1 <= RankOf(n, p) <= n
  {
    Distribute(100, p, n);
    Multiple(100 - p, n);
  }

  lemma RankMonotone(n: nat, p: nat, q: nat)
    requires p <= q
    ensures RankOf(n, p) <= RankOf(n, q)
  {
    Distribute(q, p, n);
    Multiple(q - p, n);
  }

  lemma {:induction false} SeenMonotone(bins: seq<nat>, i: nat, j: nat)
    requires i <= j <= |bins|
    ensures Seen(bins, i) <= Seen(bins, j)
  {
    if i < j {
      SeenMonotone(bins, i, j - 1);
    }
  }

  lemma {:induction false} FirstBinAt(bins: seq<nat>, rank: nat, i: nat, k: nat)
    requires i <= k < |bins| && Seen(bins, k) < rank <= Seen(bins, k + 1)
    ensures FirstBin(bins, rank, i) == k
    decreases k - i
  {
    if i < k {
      SeenMonotone(bins, i + 1, k);
      FirstBinAt(bins, rank, i + 1, k);
    }
  }

  lemma {:induction false} FirstBinMonotone(bins: seq<nat>, r: nat, q: nat, i: nat)
    requires r <= q && i <= |bins|
    ensures i <= FirstBin(bins, r, i) <= FirstBin(bins, q, i) <= |bins|
    decreases |bins| - i
  {
    if i < |bins| {
      FirstBinMonotone(bins, r, q, i + 1);
    }
  }

  /** The bin of the nearest-rank sample is where the scan stops. */
  lemma RankBin(bins: seq<nat>, samples: seq<nat>, r: nat, x: nat)
    requires Counts(bins, samples) && IsRank(samples, r, x)
    ensures Index(x) < BINS && FirstBin(bins, r, 0) == Index(x)
  {
    var k := Index(x);
    IndexInRange(x);
    SeenIsCount(bins, samples, k);
    SeenIsCount(bins, samples, k + 1);
    forall v | v in samples
      ensures BinBelow(k)(v) ==> LessThan(x)(v)
      ensures AtMost(x)(v) ==> BinBelow(k + 1)(v)
    {
      if x <= v {
        IndexMonotone(x, v);
      } else {
        IndexMonotone(v, x);
      }
    }
    CountMonotone(samples, BinBelow(k), LessThan(x));
    CountMonotone(samples, AtMost(x), BinBelow(k + 1));
    FirstBinAt(bins, r, 0, k);
  }

  lemma {:induction false} LargestBelow(samples: seq<nat>, x: nat) returns (y: nat)
    requires Count(samples, LessThan(x)) > 0
    ensures y in samples && y < x && Count(samples, AtMost(y)) == Count(samples, LessThan(x))
    ensures forall v :: v in samples && v < x ==> v <= y
  {
    var n := |samples| - 1;
    var front, last := samples[..n], samples[n];
    assert samples == front + [last];
    if Count(front, LessThan(x)) == 0 {
      y := last;
      CountZero(front, LessThan(x));
    } else {
      y := LargestBelow(front, x);
      if y < last < x {
        y := last;
      }
    }
    forall k | 0 <= k < |samples|
      ensures AtMost(y)(samples[k]) == LessThan(x)(samples[k])
    {
      assert samples[k] in samples;
      assert k < n ==> front[k] == samples[k] && front[k] in front && (Count(front, LessThan(x)) == 0 ==> !LessThan(x)(front[k]));
    }
    SameCount(samples, AtMost(y), LessThan(x));
  }

  lemma SameCount(samples: seq<nat>, f: nat -> bool, g: nat -> bool)
    requires forall k :: 0 <= k < |samples| ==> f(samples[k]) == g(samples[k])
    ensures Count(samples, f) == Count(samples, g)
  {
    CountMonotone(samples, f, g);
    CountMonotone(samples, g, f);
  }

  lemma {:induction false} RankBelow(samples: seq<nat>, r: nat, x: nat) returns (y: nat)
    requires r >= 1 && Count(samples, LessThan(x)) >= r
    ensures IsRank(samples, r, y)
    decreases x
  {
    y := LargestBelow(samples, x);
    if Count(samples, LessThan(y)) >= r {
      y := RankBelow(samples, r, y);
    }
  }

  /** There is a nearest-rank sample for every rank. */
  lemma RankExists(samples: seq<nat>, r: nat) returns (x: nat)
    requires 1 <= r <= |samples| && forall v :: v in samples ==> v < WORD
    ensures IsRank(samples, r, x)
  {
    forall k | 0 <= k < |samples|
      ensures LessThan(WORD)(samples[k])
    {
      assert samples[k] in samples;
    }
    CountAll(samples, LessThan(WORD));
    x := RankBelow(samples, r, WORD);
  }

  /**
   The percentile reported is that of the nearest-rank sample x of the data: never above x,
   within an eighth of it from 2 on, exact for small values, and monotone in the percent.
   */
  lemma PercentileBound(bins: seq<nat>, samples: seq<nat>, max: nat, percent: nat, x: nat)
    requires Counts(bins, samples) && samples != [] && percent <= 100
    requires IsRank(samples, RankOf(|samples|, percent), x)
    ensures var p := Percentile(bins, |samples|, max, percent);
            && p <= x && (x >= 2 ==> 8 * (x - p) <= x) && (x < 8 && x != 1 ==> p == x) && (x == 1 ==> p == 0)
  {
    RankBin(bins, samples, RankOf(|samples|, percent), x);
    ValueOfIndex(x);
  }

  lemma {:induction false} NoBinReached(bins: seq<nat>, rank: nat, i: nat)
    requires i <= |bins| && Seen(bins, |bins|) < rank
    ensures FirstBin(bins, rank, i) == |bins|
    decreases |bins| - i
  {
    if i < |bins| {
      SeenMonotone(bins, i + 1, |bins|);
      NoBinReached(bins, rank, i + 1);
    }
  }

  /** Beyond 100 percent the largest sample is reported, and without samples 0. */
  lemma PercentileBeyond(bins: seq<nat>, samples: seq<nat>, max: nat, percent: nat)
    requires Counts(bins, samples) && forall v :: v in samples ==> v < WORD
    ensures samples == [] ==> Percentile(bins, |samples|, max, percent) == 0
    ensures samples != [] && |samples| * percent > 100 * |samples| ==> Percentile(bins, |samples|, max, percent) == max
  {
    if samples != [] && |samples| * percent > 100 * |samples| {
      RankIsLeast(|samples|, percent, 1);
      SeenIsCount(bins, samples, BINS);
      NoBinReached(bins, RankOf(|samples|, percent), 0);
      hide RankOf, Counts;
    }
  }

  lemma PercentileMonotone(bins: seq<nat>, samples: seq<nat>, max: nat, p: nat, q: nat)
    requires Counts(bins, samples) && p <= q <= 100
    ensures Percentile(bins, |samples|, max, p) <= Percentile(bins, |samples|, max, q)
  {
    if samples != [] {
      RankBounds(|samples|, p);
      RankBounds(|samples|, q);
      RankMonotone(|samples|, p, q);
      var x := RankExists(samples, RankOf(|samples|, p));
      var y := RankExists(samples, RankOf(|samples|, q));
      RankBin(bins, samples, RankOf(|samples|, p), x);
      RankBin(bins, samples, RankOf(|samples|, q), y);
      FirstBinMonotone(bins, RankOf(|samples|, p), RankOf(|samples|, q), 0);
      ValueMonotone(Index(x), Index(y));
    }
  }

  // ---------------------------------------------------------------------------
  // The sketch

  function Sum(samples: seq<nat>): nat {
    if samples == [] then 0 else Sum(samples[..|samples| - 1]) + samples[|samples| - 1]
  }

  /** Count, sum modulo 2^64, smallest and largest of the samples; all zero without samples. */
  ghost predicate Totals(count: nat, sum: nat, min: nat, max: nat, samples: seq<nat>) {
    && count == |samples| && sum == Sum(samples) % WORD
    && (samples == [] ==> min == 0 && max == 0)
    && (samples != [] ==> min in samples && max in samples && forall v :: v in samples ==> min <= v <= max)
  }

  lemma {:induction false} SumConcat(a: seq<nat>, b: seq<nat>)
    ensures Sum(a + b) == Sum(a) + Sum(b)
  {
    if b == [] {
      assert a + b == a;
    } else {
      assert (a + b)[..|a + b| - 1] == a + b[..|b| - 1];
      SumConcat(a, b[..|b| - 1]);
    }
  }

  lemma {:induction false} CountConcat(a: seq<nat>, b: seq<nat>, f: nat -> bool)
    ensures Count(a + b, f) == Count(a, f) + Count(b, f)
  {
    if b == [] {
      assert a + b == a;
    } else {
      assert (a + b)[..|a + b| - 1] == a + b[..|b| - 1];
      CountConcat(a, b[..|b| - 1], f);
    }
  }

  lemma CountOne(v: nat, f: nat -> bool)
    ensures Count([v], f) == if f(v) then 1 else 0
  {
    assert [v][..0] == [];
  }

  lemma WrapSum(x: nat, y: nat)
    ensures (x % WORD + y) % WORD == (x + y) % WORD && (x % WORD + y % WORD) % WORD == (x + y) % WORD
  {
  }

  lemma CountsAdd(bins: seq<nat>, samples: seq<nat>, v: nat)
    requires Counts(bins, samples) && v < WORD
    ensures Index(v) < BINS && Counts(bins[Index(v) := bins[Index(v)] + 1], samples + [v])
  {
    IndexInRange(v);
    forall i | 0 <= i < BINS
      ensures Count(samples + [v], InBin(i)) == Count(samples, InBin(i)) + if i == Index(v) then 1 else 0
    {
      CountConcat(samples, [v], InBin(i));
      CountOne(v, InBin(i));
    }
    hide Index;
  }

  lemma CountsMerge(a: seq<nat>, xs: seq<nat>, b: seq<nat>, ys: seq<nat>, c: seq<nat>)
    requires Counts(a, xs) && Counts(b, ys) && |c| == BINS
    requires forall i {:trigger c[i]} :: 0 <= i < BINS ==> c[i] == a[i] + b[i]
    ensures Counts(c, xs + ys)
  {
    forall i {:trigger c[i]} | 0 <= i < BINS
      ensures c[i] == Count(xs + ys, InBin(i))
    {
      CountConcat(xs, ys, InBin(i));
    }
  }

  lemma NoCounts(bins: seq<nat>)
    requires |bins| == BINS && forall i {:trigger bins[i]} :: 0 <= i < BINS ==> bins[i] == 0
    ensures Counts(bins, [])
  {
  }

  lemma TotalsMerge(xs: seq<nat>, ys: seq<nat>, sum: nat, min: nat, max: nat, sum': nat, min': nat, max': nat)
    requires Totals(|xs|, sum, min, max, xs) && Totals(|ys|, sum', min', max', ys) && ys != []
    ensures Totals(|xs| + |ys|, (sum + sum') % WORD,
                   if xs == [] || min' < min then min' else min, if xs == [] || max' > max then max' else max, xs + ys)
  {
    SumConcat(xs, ys);
    WrapSum(Sum(xs), Sum(ys));
    hide Sum;
  }

  lemma TotalsOne(v: nat)
    requires v < WORD
    ensures Totals(1, v, v, v, [v])
  {
    assert [v][..0] == [];
  }

  class Sketch {
    const bins: array<nat>
    var count: nat
    var sum: nat
    var min: nat
    var max: nat
    ghost var samples: seq<nat>

    ghost predicate Valid()
      reads this, bins
    {
      Counts(bins[..], samples) && Totals(count, sum, min, max, samples)
    }

    constructor ()
      ensures Valid() && fresh(bins) && samples == []
    {
      bins := new nat[BINS](i => 0);
      count, sum, min, max, samples := 0, 0, 0, 0, [];
      new;
      NoCounts(bins[..]);
    }

    method Add(value: nat)
      requires Valid() && value < WORD
      modifies this, bins
      ensures Valid() && samples == old(samples) + [value]
    {
      hide Counts, Totals, Index;
      CountsAdd(bins[..], samples, value);
      BinsLength();
      ghost var bins' := bins[..][Index(value) := bins[Index(value)] + 1];
      TotalsOne(value);
      CountIsLength();
      assert |[value]| == 1;
      TotalsMerge(samples, [value], sum, min, max, value, value, value);
      bins[Index(value)] := bins[Index(value)] + 1;
      assert bins[..] == bins';
      count := count + 1;
      sum := (sum + value) % WORD;
      if count == 1 || value < min {
        min := value;
      }
      if count == 1 || value > max {
        max := value;
      }
      samples := samples + [value];
    }

    lemma BinsLength()
      requires Valid()
      ensures bins.Length == BINS
    {
      assert |bins[..]| == BINS;
    }

    lemma CountIsLength()
      requires Valid()
      ensures count == |samples| && (samples == [] <==> count == 0)
    {
    }

    /** Moves everything another sketch has seen into this one, and empties the other. */
    method MergeFrom(src: Sketch)
      requires Valid() && src.Valid() && src != this && src.bins != bins
      modifies this, bins, src, src.bins
      ensures Valid() && samples == old(samples) + old(src.samples)
      ensures src.Valid() && src.samples == []
    {
      hide Counts, Totals, Index;
      CountIsLength();
      src.CountIsLength();
      if src.count == 0 {
        assert samples + src.samples == samples;
        return;
      }
      BinsLength();
      src.BinsLength();
      ghost var a, b := bins[..], src.bins[..];
      TotalsMerge(samples, src.samples, sum, min, max, src.sum, src.min, src.max);
      var i := 0;
      while i < BINS
        invariant 0 <= i <= BINS && src.bins[..] == b
        invariant forall k {:trigger bins[k]} :: 0 <= k < i ==> bins[k] == a[k] + b[k]
        invariant forall k {:trigger bins[k]} :: i <= k < BINS ==> bins[k] == a[k]
        modifies bins
      {
        bins[i] := bins[i] + src.bins[i];
        i := i + 1;
      }
      CountsMerge(a, samples, b, src.samples, bins[..]);
      if count == 0 || src.min < min {
        min := src.min;
      }
      if count == 0 || src.max > max {
        max := src.max;
      }
      count := count + src.count;
      sum := (sum + src.sum) % WORD;
      samples := samples + src.samples;
      src.Clear();
    }

    method Clear()
      requires bins.Length == BINS
      modifies this, bins
      ensures Valid() && samples == []
    {
      forall i | 0 <= i < BINS {
        bins[i] := 0;
      }
      count, sum, min, max, samples := 0, 0, 0, 0, [];
      NoCounts(bins[..]);
    }

    method ReportPercentile(percent: nat) returns (r: nat)
      requires Valid()
      ensures r == Percentile(bins[..], |samples|, max, percent)
    {
      hide Counts, Totals, Value;
      CountIsLength();
      BinsLength();
      if count == 0 {
        return 0;
      }
      var rank := (count * percent + 99) / 100;
      if rank == 0 {
        rank := 1;
      }
      var seen, i := 0, 0;
      while i < BINS
        invariant 0 <= i <= BINS && seen == Seen(bins[..], i)
        invariant FirstBin(bins[..], rank, i) == FirstBin(bins[..], rank, 0)
      {
        seen := seen + bins[i];
        if seen >= rank {
          return Value(i);
        }
        i := i + 1;
      }
      return max;
    }
  }

  /** Whether samples are added one by one or merged in any grouping and order, the sketch is the same. */
  lemma SameSketch(bins: seq<nat>, count: nat, sum: nat, min: nat, max: nat, xs: seq<nat>,
                   bins': seq<nat>, count': nat, sum': nat, min': nat, max': nat, ys: seq<nat>)
    requires Counts(bins, xs) && Totals(count, sum, min, max, xs)
    requires Counts(bins', ys) && Totals(count', sum', min', max', ys)
    requires multiset(xs) == multiset(ys)
    ensures bins == bins' && count == count' && sum == sum' && min == min' && max == max'
  {
    assert |xs| == |multiset(xs)| == |ys|;
    SumPermuted(xs, ys);
    forall i | 0 <= i < BINS
      ensures bins[i] == bins'[i]
    {
      CountPermuted(xs, ys, InBin(i));
    }
    forall v
      ensures v in xs <==> v in ys
    {
      assert v in multiset(xs) <==> v in multiset(ys);
    }
  }

  lemma MoveToEnd(xs: seq<nat>, v: nat) returns (front: seq<nat>)
    requires v in xs
    ensures multiset(front) == multiset(xs) - multiset{v} && |front| == |xs| - 1
    ensures Sum(front) + v == Sum(xs)
    ensures forall f: nat -> bool {:trigger Count(front, f)} :: Count(front, f) + (if f(v) then 1 else 0) == Count(xs, f)
  {
    var k :| 0 <= k < |xs| && xs[k] == v;
    front := xs[..k] + xs[k + 1..];
    assert xs == (xs[..k] + [v]) + xs[k + 1..];
    SumConcat(xs[..k] + [v], xs[k + 1..]);
    SumConcat(xs[..k], [v]);
    SumConcat(xs[..k], xs[k + 1..]);
    TotalsOneSum(v);
    forall f: nat -> bool
      ensures Count(front, f) + (if f(v) then 1 else 0) == Count(xs, f)
    {
      CountConcat(xs[..k] + [v], xs[k + 1..], f);
      CountConcat(xs[..k], [v], f);
      CountConcat(xs[..k], xs[k + 1..], f);
      CountOne(v, f);
    }
  }

  lemma TotalsOneSum(v: nat)
    ensures Sum([v]) == v
  {
    assert [v][..0] == [];
  }

  lemma {:induction false} CountPermuted(xs: seq<nat>, ys: seq<nat>, f: nat -> bool)
    requires multiset(xs) == multiset(ys)
    ensures Count(xs, f) == Count(ys, f)
    decreases |ys|
  {
    assert |xs| == |multiset(xs)| == |ys|;
    if ys != [] {
      var n := |ys| - 1;
      assert ys == ys[..n] + [ys[n]];
      assert ys[n] in multiset(xs);
      var front := MoveToEnd(xs, ys[n]);
      CountPermuted(front, ys[..n], f);
    }
  }

  lemma {:induction false} SumPermuted(xs: seq<nat>, ys: seq<nat>)
    requires multiset(xs) == multiset(ys)
    ensures Sum(xs) == Sum(ys)
    decreases |ys|
  {
    assert |xs| == |multiset(xs)| == |ys|;
    if ys != [] {
      var n := |ys| - 1;
      assert ys == ys[..n] + [ys[n]];
      assert ys[n] in multiset(xs);
      var front := MoveToEnd(xs, ys[n]);
      SumPermuted(front, ys[..n]);
    }
  }
}
