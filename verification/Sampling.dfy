/**
 Choosing verification samples: the first block, the last block, and a pseudo-random walk
 over the others that visits every ordinal at most once, delivered in batches sorted by offset.
 */
module Sampling {
  import opened Machine
  import opened Counting
  import opened Bits
  import opened SampleDomain

  const WORD_BITS: nat := 64

  datatype Sample = Sample(index: nat, offset: int, length: int)

  ghost function SampleOf(d: Domain, index: nat): Sample
    requires index < |Blocks(d)|
  {
    Sample(index, Offset(d, index), Length(d, index))
  }

  // ---------------------------------------------------------------------------
  // Sorting a batch

  function Insert(s: seq<Sample>, x: Sample): (r: seq<Sample>)
    ensures multiset(r) == multiset(s) + multiset{x}
    ensures |r| == |s| + 1
  {
    if s == [] || x.offset <= s[0].offset then [x] + s
    else
      assert s == [s[0]] + s[1..];
      [s[0]] + Insert(s[1..], x)
  }

  /** What qsort leaves behind. */
  function Sort(s: seq<Sample>): (r: seq<Sample>)
    ensures multiset(r) == multiset(s)
    ensures |r| == |s|
  {
    if s == [] then []
    else
      assert s == s[..|s| - 1] + [s[|s| - 1]];
      Insert(Sort(s[..|s| - 1]), s[|s| - 1])
  }

  ghost predicate Sorted(s: seq<Sample>) {
    forall i, j :: 0 <= i < j < |s| ==> s[i].offset <= s[j].offset
  }

  lemma {:induction false} InsertSorts(s: seq<Sample>, x: Sample)
    requires Sorted(s)
    ensures Sorted(Insert(s, x))
    ensures forall y :: y in Insert(s, x) ==> y == x || y in s
  {
    if s != [] && x.offset > s[0].offset {
      InsertSorts(s[1..], x);
      var r := Insert(s[1..], x);
      assert forall y :: y in r ==> s[0].offset <= y.offset;
    }
  }

  lemma {:induction false} SortSorts(s: seq<Sample>)
    ensures Sorted(Sort(s))
  {
    if s != [] {
      SortSorts(s[..|s| - 1]);
      InsertSorts(Sort(s[..|s| - 1]), s[|s| - 1]);
    }
  }

  // ---------------------------------------------------------------------------
  // Sequences that are a permutation of each other

  lemma {:induction false} NoDupMultiset<T>(s: seq<T>)
    ensures NoDup(s) <==> forall x :: multiset(s)[x] <= 1
  {
    if s != [] {
      var n := |s| - 1;
      var front, last := s[..n], s[n];
      assert s == front + [last];
      NoDupMultiset(front);
      assert forall x :: multiset(s)[x] == multiset(front)[x] + if x == last then 1 else 0;
      assert multiset(front)[last] > 0 <==> last in front;
      NoDupSnoc(front, last);
      if NoDup(front) && last !in front {
        assert forall x :: multiset(s)[x] <= 1;
      } else if !NoDup(front) {
        var x :| multiset(front)[x] > 1;
        assert multiset(s)[x] > 1;
      } else {
        assert multiset(s)[last] > 1;
      }
    }
  }

  lemma NoDupSnoc<T>(s: seq<T>, x: T)
    ensures NoDup(s + [x]) <==> NoDup(s) && x !in s
  {
    var t := s + [x];
    if NoDup(t) {
      forall i, j | 0 <= i < j < |s|
        ensures s[i] != s[j]
      {
        assert t[i] != t[j];
      }
      forall i | 0 <= i < |s|
        ensures s[i] != x
      {
        assert t[i] != t[|s|];
      }
    }
  }

  lemma PermutedTail<T>(a: seq<T>, b: seq<T>, c: seq<T>)
    requires multiset(b) == multiset(c)
    ensures NoDup(a + b) ==> NoDup(a + c)
    ensures forall x :: x in a + b <==> x in a + c
  {
    NoDupMultiset(a + b);
    NoDupMultiset(a + c);
    assert multiset(a + b) == multiset(a + c);
    forall x
      ensures x in a + b <==> x in a + c
    {
      assert x in a + b <==> x in multiset(a + b);
      assert x in a + c <==> x in multiset(a + c);
    }
  }

  // ---------------------------------------------------------------------------
  // The random walk

  /** The j-th position of the walk: a * j + b in 64-bit arithmetic, masked to the domain. */
  function Visit(a: nat, b: nat, j: nat, domain: nat): nat
    requires domain >= 1
  {
    And(((a * j) % Pow2(WORD_BITS) + b) % Pow2(WORD_BITS), domain - 1)
  }

  lemma AddThenWrap(x: nat, y: nat, m: nat)
    requires m > 0
    ensures (x % m + y) % m == (x + y) % m
  {
    var q := (x % m + y) / m;
    Distribute(x / m, q, m);
    Remainder(x + y, m, x / m + q, (x % m + y) % m);
  }

  lemma MaskOfSum(x: nat, y: nat, w: nat, k: nat)
    requires k <= w
    ensures And((x % Pow2(w) + y) % Pow2(w), Pow2(k) - 1) == (x + y) % Pow2(k)
  {
    AddThenWrap(x, y, Pow2(w));
    MaskIsMod((x + y) % Pow2(w), k);
    WrapKeepsLowBits(x + y, w, k);
  }

  lemma VisitIsAffine(a: nat, b: nat, j: nat, k: nat)
    requires k <= WORD_BITS
    ensures Visit(a, b, j, Pow2(k)) == (a * j + b) % Pow2(k)
  {
    MaskOfSum(a * j, b, WORD_BITS, k);
    hide And, Pow2;
  }

  /** Every value of the map is below m, and no value is hit twice. */
  ghost predicate Permutes(pos: nat -> nat, m: nat) {
    && (forall j :: 0 <= j < m ==> pos(j) < m)
    && (forall i, j :: 0 <= i < j < m ==> pos(i) != pos(j))
  }

  /** The walk is a permutation of the domain, for every odd factor and every start, under 64-bit wrap-around. */
  lemma WalkPermutes(a: nat, b: nat, k: nat, pos: nat -> nat)
    requires a % 2 == 1 && k <= WORD_BITS && forall j :: pos(j) == Visit(a, b, j, Pow2(k))
    ensures Permutes(pos, Pow2(k))
  {
    forall j | 0 <= j < Pow2(k)
      ensures pos(j) < Pow2(k)
    {
      VisitIsAffine(a, b, j, k);
    }
    forall i, j | 0 <= i < j < Pow2(k)
      ensures pos(i) != pos(j)
    {
      VisitIsAffine(a, b, i, k);
      VisitIsAffine(a, b, j, k);
      AffineDistinct(a, b, k, i, j);
    }
  }

  lemma PermutationReachesAll(pos: nat -> nat, m: nat, x: nat)
    requires Permutes(pos, m) && x < m
    ensures exists j :: 0 <= j < m && pos(j) == x
  {
    var visits: seq<int> := seq(m, j requires 0 <= j < m => pos(j));
    assert NoDup(visits);
    Pigeonhole(visits, m);
    assert x in visits;
    var j :| 0 <= j < m && visits[j] == x;
    assert pos(j) == x;
  }

  // ---------------------------------------------------------------------------
  // The samples chosen so far

  ghost function Indices(s: seq<Sample>): (r: seq<int>)
    ensures |r| == |s|
  {
    seq(|s|, i requires 0 <= i < |s| => s[i].index)
  }

  /** Samples of distinct ordinals, each with the place of its block. */
  ghost predicate Distinct(d: Domain, s: seq<Sample>) {
    && NoDup(s)
    && forall x :: x in s ==> x.index < |Blocks(d)| && x == SampleOf(d, x.index)
  }

  ghost predicate Has(d: Domain, s: seq<Sample>, index: nat) {
    index < |Blocks(d)| && SampleOf(d, index) in s
  }

  lemma AddSample(d: Domain, s: seq<Sample>, index: nat)
    requires Distinct(d, s) && index < |Blocks(d)| && !Has(d, s, index)
    ensures Distinct(d, s + [SampleOf(d, index)])
    ensures forall i: nat :: Has(d, s + [SampleOf(d, index)], i) <==> Has(d, s, i) || i == index
  {
    NoDupSnoc(s, SampleOf(d, index));
  }

  lemma AllChosen(d: Domain, s: seq<Sample>)
    requires Distinct(d, s) && forall i: nat :: i < |Blocks(d)| ==> Has(d, s, i)
    ensures |s| == |Blocks(d)|
  {
    var xs, n := Indices(s), |Blocks(d)|;
    forall i, j | 0 <= i < j < |xs|
      ensures xs[i] != xs[j]
    {
      assert s[i] in s && s[j] in s && s[i] != s[j];
    }
    forall x | x in xs
      ensures 0 <= x < n
    {
      var i :| 0 <= i < |s| && xs[i] == x;
      assert s[i] in s;
    }
    forall i | 0 <= i < n
      ensures i in xs
    {
      assert Has(d, s, i);
      var k :| 0 <= k < |s| && s[k] == SampleOf(d, i);
      assert xs[k] == i;
    }
    Pigeonhole(xs, n);
  }

  /** Every batch of BATCH_MAX callbacks comes in file order. */
  ghost predicate SortedInBatches(s: seq<Sample>) {
    forall i, j :: 0 <= i < j < |s| && i / BATCH_MAX == j / BATCH_MAX ==> s[i].offset <= s[j].offset
  }

  lemma BatchBorder(i: nat, j: nat, m: nat)
    ensures i < m * BATCH_MAX <= j ==> i / BATCH_MAX != j / BATCH_MAX
  {
  }

  lemma AppendBatch(s: seq<Sample>, b: seq<Sample>, m: nat)
    requires SortedInBatches(s) && Sorted(b) && |s| == m * BATCH_MAX && |b| <= BATCH_MAX
    ensures SortedInBatches(s + b)
  {
    var t := s + b;
    forall i, j | 0 <= i < j < |t| && i / BATCH_MAX == j / BATCH_MAX
      ensures t[i].offset <= t[j].offset
    {
      BatchBorder(i, j, m);
    }
  }

  // ---------------------------------------------------------------------------
  // Callbacks

  /** The callback fails or not, as a function of how often it was called before. */
  type Outcomes = nat -> bool

  /** The calls made: none after the first one that failed. */
  ghost predicate StopsAtFailure(fails: Outcomes, calls: nat, ok: bool) {
    if ok then forall t :: 0 <= t < calls ==> !fails(t)
    else calls > 0 && fails(calls - 1) && forall t :: 0 <= t < calls - 1 ==> !fails(t)
  }

  method EmitBatch(batch: array<Sample>, count: nat, fails: Outcomes, calls: seq<Sample>)
    returns (ok: bool, calls': seq<Sample>)
    requires count <= batch.Length && StopsAtFailure(fails, |calls|, true)
    modifies batch
    ensures StopsAtFailure(fails, |calls'|, ok)
    ensures calls <= calls' <= calls + Sort(old(batch[..count]))
    ensures ok ==> calls' == calls + Sort(old(batch[..count]))
  {
    hide Sort;
    var sorted := Sort(batch[..count]);
    forall i | 0 <= i < count {
      batch[i] := sorted[i];
    }
    calls' := calls;
    for i := 0 to count
      invariant batch[..count] == sorted
      invariant calls' == calls + sorted[..i] && StopsAtFailure(fails, |calls'|, true)
    {
      ok := !fails(|calls'|);
      calls' := calls' + [batch[i]];
      assert batch[i] == sorted[i] && sorted[..i + 1] == sorted[..i] + [sorted[i]];
      if !ok {
        return;
      }
    }
    ok := true;
  }

  /** The samples of one file: calls made so far, and a batch that waits to be sorted and delivered. */
  class Sampler {
    const d: Domain
    const fails: Outcomes
    const batch: array<Sample>
    var count: nat
    var emitted: nat
    var calls: seq<Sample>
    ghost var flushes: nat

    ghost predicate Valid()
      reads this, batch
    {
      && DomainOk(d) && batch.Length == BATCH_MAX && count < BATCH_MAX
      && StopsAtFailure(fails, |calls|, true)
      && emitted == |calls| + count && |calls| == flushes * BATCH_MAX
      && SortedInBatches(calls)
      && Distinct(d, Chosen())
    }

    ghost function Chosen(): (r: seq<Sample>)
      reads this, batch
      requires count <= batch.Length
    {
      calls + batch[..count]
    }

    constructor (d: Domain, fails: Outcomes)
      requires DomainOk(d)
      ensures Valid() && fresh(batch) && this.d == d && this.fails == fails && Chosen() == [] && emitted == 0
    {
      this.d, this.fails := d, fails;
      batch := new Sample[BATCH_MAX](i => Sample(0, 0, 0));
      count, emitted, calls, flushes := 0, 0, [], 0;
    }

    /** Sorts the waiting samples and hands them to the callback. */
    method Flush() returns (ok: bool)
      requires DomainOk(d) && batch.Length == BATCH_MAX && count <= BATCH_MAX && |calls| == flushes * BATCH_MAX
      requires StopsAtFailure(fails, |calls|, true) && SortedInBatches(calls) && Distinct(d, Chosen())
      modifies this, batch
      ensures StopsAtFailure(fails, |calls|, ok) && Distinct(d, calls) && emitted == old(emitted)
      ensures ok ==> |calls| == |old(Chosen())| && SortedInBatches(calls)
                     && (forall i: nat :: Has(d, calls, i) <==> Has(d, old(Chosen()), i))
      ensures ok ==> count == 0 && flushes == old(flushes) + 1
    {
      ghost var before, waiting := calls, batch[..count];
      PermutedTail(before, waiting, Sort(waiting));
      SortSorts(waiting);
      AppendBatch(before, Sort(waiting), flushes);
      ok, calls := EmitBatch(batch, count, fails, calls);
      PrefixDistinct(d, calls, before + Sort(waiting));
      if ok {
        count := 0;
        flushes := flushes + 1;
      }
    }

    /** One more sample; a full batch is delivered. */
    method Append(index: nat) returns (ok: bool)
      requires Valid() && index < d.dataN && !Has(d, Chosen(), index)
      modifies this, batch
      ensures StopsAtFailure(fails, |calls|, ok) && Distinct(d, calls)
      ensures ok ==> Valid() && emitted == old(emitted) + 1
      ensures ok ==> forall i: nat :: Has(d, Chosen(), i) <==> Has(d, old(Chosen()), i) || i == index
    {
      var offset, length := SampleAt(d, index);
      AddSample(d, Chosen(), index);
      batch[count] := Sample(index, offset, length);
      count := count + 1;
      emitted := emitted + 1;
      assert Chosen() == old(Chosen()) + [SampleOf(d, index)];
      ok := true;
      PrefixDistinct(d, calls, Chosen());
      if count == BATCH_MAX {
        ok := Flush();
      }
    }
  }

  lemma PrefixDistinct(d: Domain, s: seq<Sample>, t: seq<Sample>)
    requires s <= t && Distinct(d, t)
    ensures Distinct(d, s)
  {
    forall i, j | 0 <= i < j < |s|
      ensures s[i] != s[j]
    {
      assert s[i] == t[i] && s[j] == t[j];
    }
    forall x | x in s
      ensures x in t
    {
      var i :| 0 <= i < |s| && s[i] == x;
      assert t[i] == x;
    }
  }

  /** Samples to take from n blocks: at least the first and the last, at most all. */
  function Target(wanted: nat, n: nat): nat {
    var least := if n == 1 then 1 else 2;
    var t := if wanted < least then least else wanted;
    if t > n then n else t
  }

  /** The samples of a file that has blocks to sample. */
  ghost predicate Complete(d: Domain, target: nat, calls: seq<Sample>) {
    && |calls| == target && Distinct(d, calls) && SortedInBatches(calls)
    && Has(d, calls, 0) && (d.dataN > 0 ==> Has(d, calls, d.dataN - 1))
  }

  /**
   Delivers the samples of one file. For every number of blocks, every percentage and every
   seed, exactly the wanted number of distinct blocks is delivered, no fewer than two and no more
   than there are, among them the first and the last, unless a callback fails, which ends the
   delivery. The others are the first positions of the affine walk that the two words of the seed give.
   */
  method ForEachSample(d: Domain, wanted: nat, m1: nat, m2: nat, fails: Outcomes) returns (ok: bool, calls: seq<Sample>)
    requires DomainOk(d) && d.dataN <= Pow2(63)
    ensures StopsAtFailure(fails, |calls|, ok) && Distinct(d, calls)
    ensures d.dataN == 0 ==> ok && calls == []
    ensures ok && d.dataN > 0 ==> Complete(d, |calls|, calls)
    ensures ok && 2 <= wanted <= d.dataN ==> |calls| == wanted
    ensures ok && wanted >= d.dataN ==> |calls| == d.dataN
    ensures ok && wanted < 2 <= d.dataN ==> |calls| == 2
    ensures ok && d.dataN == 1 ==> |calls| == 1
    ensures ok && 2 < wanted < d.dataN ==> Seeded(d, calls, m1, m2)
  {
    var n := d.dataN;
    if n == 0 {
      return true, [];
    }
    var target := Target(wanted, n);
    if target == n {
      ok, calls := Sequential(d, fails);
      return;
    }
    ok, calls := FirstLastAndRandom(d, target, n, m1, m2, fails);
  }

  /** Sampling of a part of the blocks: the first, the last, and a walk over the others. */
  method FirstLastAndRandom(d: Domain, target: nat, n: nat, m1: nat, m2: nat, fails: Outcomes)
    returns (ok: bool, calls: seq<Sample>)
    requires DomainOk(d) && n == d.dataN <= Pow2(63) && 1 <= target < n && target >= (if n == 1 then 1 else 2)
    ensures StopsAtFailure(fails, |calls|, ok) && Distinct(d, calls)
    ensures ok ==> Complete(d, target, calls)
    ensures ok && 2 < target ==> Seeded(d, calls, m1, m2)
  {
    hide Distinct, SortedInBatches, StopsAtFailure, DataBlocks, Pow2, Seeded;
    var s := new Sampler(d, fails);
    ok := s.Append(0);
    if !ok {
      return ok, s.calls;
    }
    if n > 1 {
      ok := s.Append(n - 1);
      if !ok {
        return ok, s.calls;
      }
    }
    if !(s.emitted >= target || n <= 2) {
      ok := RandomBlocks(s, target, n, m1, m2);
      if !ok {
        return ok, s.calls;
      }
    }
    ghost var chosen := s.Chosen();
    ok := s.Flush();
    calls := s.calls;
    if ok && 2 < target {
      SameSeeded(d, chosen, calls, m1, m2);
    }
  }

  /** The samples between the first and the last, from two pseudo-random words. */
  method RandomBlocks(s: Sampler, target: nat, n: nat, m1: nat, m2: nat) returns (ok: bool)
    requires s.Valid() && n == s.d.dataN && 2 < target < n <= Pow2(63)
    requires s.emitted == 2 && forall i: nat :: Has(s.d, s.Chosen(), i) <==> i == 0 || i == n - 1
    modifies s, s.batch
    ensures StopsAtFailure(s.fails, |s.calls|, ok) && Distinct(s.d, s.calls)
    ensures ok ==> s.Valid() && s.emitted == target && Has(s.d, s.Chosen(), 0) && Has(s.d, s.Chosen(), n - 1)
    ensures ok ==> Seeded(s.d, s.Chosen(), m1, m2)
  {
    hide StopsAtFailure, Distinct, Pow2;
    var domain, pos;
    ghost var k, j;
    domain, pos, k := Positions(n, m1, m2);
    ok, j := Walk(s, target, n, domain, pos);
    if ok {
      WalkIsSeeded(s.d, s.Chosen(), pos, m1, m2, k, j);
    }
  }

  /** The t-th position of the walk: an odd factor and a start from the seed, modulo 2^k. */
  function WalkAt(m1: nat, m2: nat, k: nat, t: nat): nat {
    ((if m1 % 2 == 1 then m1 else m1 + 1) * t + m2) % Pow2(k)
  }

  ghost predicate WalkHits(m1: nat, m2: nat, k: nat, j: nat, i: nat) {
    exists t :: 0 <= t < j && WalkAt(m1, m2, k, t) == i
  }

  /** The samples are the first block, the last one, and those that the first j positions of the walk hit. */
  ghost predicate SeededBy(d: Domain, s: seq<Sample>, m1: nat, m2: nat, k: nat, j: nat) {
    forall i: nat :: Has(d, s, i) <==> i < d.dataN && (i == 0 || i == d.dataN - 1 || WalkHits(m1, m2, k, j, i))
  }

  /** The walk goes over the smallest power of two that holds all ordinals. */
  ghost predicate Seeded(d: Domain, s: seq<Sample>, m1: nat, m2: nat) {
    exists k: nat, j: nat :: SeededBy(d, s, m1, m2, k, j) && d.dataN <= Pow2(k) && (k > 0 ==> Pow2(k) / 2 < d.dataN)
  }

  lemma SameSeeded(d: Domain, s: seq<Sample>, t: seq<Sample>, m1: nat, m2: nat)
    requires Seeded(d, s, m1, m2) && forall i: nat :: Has(d, t, i) <==> Has(d, s, i)
    ensures Seeded(d, t, m1, m2)
  {
    hide Pow2, WalkHits, Has;
    var k: nat, j: nat :| SeededBy(d, s, m1, m2, k, j) && d.dataN <= Pow2(k) && (k > 0 ==> Pow2(k) / 2 < d.dataN);
    assert SeededBy(d, t, m1, m2, k, j);
  }

  lemma WalkIsSeeded(d: Domain, s: seq<Sample>, pos: nat -> nat, m1: nat, m2: nat, k: nat, j: nat)
    requires WalkedTo(d, s, pos, j) && (forall t: nat :: pos(t) == WalkAt(m1, m2, k, t))
    requires d.dataN <= Pow2(k) && (k > 0 ==> Pow2(k) / 2 < d.dataN)
    ensures Seeded(d, s, m1, m2)
  {
    hide Pow2, WalkAt, Has;
    forall i: nat
      ensures Visited(pos, j, i) <==> WalkHits(m1, m2, k, j, i)
    {
      if t :| 0 <= t < j && pos(t) == i {
        assert WalkAt(m1, m2, k, t) == i;
      }
      if t :| 0 <= t < j && WalkAt(m1, m2, k, t) == i {
        assert pos(t) == i;
      }
    }
    assert SeededBy(d, s, m1, m2, k, j);
  }

  /** The walk from two pseudo-random words over the first power of two that holds n. */
  method Positions(n: nat, m1: nat, m2: nat) returns (domain: nat, pos: nat -> nat, ghost k: nat)
    requires n <= Pow2(63)
    ensures n <= domain == Pow2(k) && Permutes(pos, domain) && (k > 0 ==> Pow2(k) / 2 < n)
    ensures forall t: nat :: pos(t) == WalkAt(m1, m2, k, t)
  {
    domain, k := DomainFor(n);
    var a, b, m := WithLowBit(m1), And(m2, domain - 1), domain;
    pos := j => Visit(a, b, j, m);
    WalkPermutes(a, b, k, pos);
    forall t: nat
      ensures pos(t) == WalkAt(m1, m2, k, t)
    {
      VisitIsWalkAt(m1, m2, k, t);
    }
  }

  lemma VisitIsWalkAt(m1: nat, m2: nat, k: nat, t: nat)
    requires k <= WORD_BITS
    ensures Visit(WithLowBit(m1), And(m2, Pow2(k) - 1), t, Pow2(k)) == WalkAt(m1, m2, k, t)
  {
    var a := WithLowBit(m1);
    MaskIsMod(m2, k);
    VisitIsAffine(a, m2 % Pow2(k), t, k);
    AddThenWrap(m2, a * t, Pow2(k));
    hide Pow2, And;
    assert a * t + m2 % Pow2(k) == m2 % Pow2(k) + a * t && a * t + m2 == m2 + a * t;
  }

  method DomainFor(n: nat) returns (domain: nat, ghost k: nat)
    requires n <= Pow2(63)
    ensures domain == Pow2(k) && n <= domain && k <= 63
    ensures k > 0 ==> domain / 2 < n
  {
    domain, k := 1, 0;
    while domain < n
      invariant domain == Pow2(k) && k <= 63 && (k > 0 ==> domain / 2 < n)
      decreases n - domain
    {
      if k == 63 {
        assert false;
      }
      domain := 2 * domain;
      k := k + 1;
    }
  }

  ghost predicate Visited(pos: nat -> nat, j: nat, x: nat) {
    exists i :: 0 <= i < j && pos(i) == x
  }

  /** After j positions, the samples are the first, the last, and the blocks visited. */
  ghost predicate WalkedTo(d: Domain, s: seq<Sample>, pos: nat -> nat, j: nat) {
    forall i: nat :: Has(d, s, i) <==> i < d.dataN && (i == 0 || i == d.dataN - 1 || Visited(pos, j, i))
  }

  lemma VisitedNext(pos: nat -> nat, j: nat, x: nat)
    ensures Visited(pos, j + 1, x) <==> Visited(pos, j, x) || pos(j) == x
  {
  }

  lemma WalkedOn(d: Domain, s: seq<Sample>, t: seq<Sample>, pos: nat -> nat, j: nat)
    requires WalkedTo(d, s, pos, j) && pos(j) < d.dataN
    requires forall i: nat :: Has(d, t, i) <==> Has(d, s, i) || i == pos(j)
    ensures WalkedTo(d, t, pos, j + 1)
  {
    forall i: nat
      ensures Has(d, t, i) <==> i < d.dataN && (i == 0 || i == d.dataN - 1 || Visited(pos, j + 1, i))
    {
      VisitedNext(pos, j, i);
    }
  }

  lemma WalkedPast(d: Domain, s: seq<Sample>, pos: nat -> nat, j: nat)
    requires WalkedTo(d, s, pos, j) && (pos(j) >= d.dataN || pos(j) == 0 || pos(j) == d.dataN - 1)
    ensures WalkedTo(d, s, pos, j + 1)
  {
    forall i: nat
      ensures Has(d, s, i) <==> i < d.dataN && (i == 0 || i == d.dataN - 1 || Visited(pos, j + 1, i))
    {
      VisitedNext(pos, j, i);
    }
  }

  lemma WalkedAll(d: Domain, s: seq<Sample>, pos: nat -> nat, m: nat)
    requires DomainOk(d) && d.dataN <= m && Permutes(pos, m) && Distinct(d, s) && WalkedTo(d, s, pos, m)
    ensures |s| == d.dataN
  {
    forall x: nat | x < d.dataN
      ensures Has(d, s, x)
    {
      PermutationReachesAll(pos, m, x);
    }
    AllChosen(d, s);
  }

  method Walk(s: Sampler, target: nat, n: nat, domain: nat, pos: nat -> nat) returns (ok: bool, ghost last: nat)
    requires s.Valid() && n == s.d.dataN && 2 < target < n <= domain && Permutes(pos, domain)
    requires s.emitted == 2 && WalkedTo(s.d, s.Chosen(), pos, 0)
    modifies s, s.batch
    ensures StopsAtFailure(s.fails, |s.calls|, ok) && Distinct(s.d, s.calls)
    ensures ok ==> s.Valid() && s.emitted == target && Has(s.d, s.Chosen(), 0) && Has(s.d, s.Chosen(), n - 1)
    ensures ok ==> WalkedTo(s.d, s.Chosen(), pos, last)
  {
    var j := 0;
    while s.emitted < target && j < domain
      invariant s.Valid() && j <= domain && s.emitted <= target
      invariant WalkedTo(s.d, s.Chosen(), pos, j)
      decreases domain - j
    {
      var idx := pos(j);
      ghost var before := s.Chosen();
      if idx >= n || idx == 0 || idx == n - 1 {
        WalkedPast(s.d, before, pos, j);
        j := j + 1;
        continue;
      }
      assert !Visited(pos, j, idx);
      ok := s.Append(idx);
      if !ok {
        return ok, j;
      }
      WalkedOn(s.d, before, s.Chosen(), pos, j);
      j := j + 1;
    }
    if s.emitted < target {
      WalkedAll(s.d, s.Chosen(), pos, domain);
    }
    PrefixDistinct(s.d, s.calls, s.Chosen());
    ok, last := true, j;
  }

  /** The calls deliver the first ordinals of the domain, one after the other. */
  ghost predicate InOrder(d: Domain, calls: seq<Sample>) {
    |calls| <= |Blocks(d)| && forall i :: 0 <= i < |calls| ==> calls[i] == SampleOf(d, i)
  }

  lemma OneMoreInOrder(d: Domain, calls: seq<Sample>, x: Sample)
    requires InOrder(d, calls) && |calls| < |Blocks(d)| && x == SampleOf(d, |calls|)
    ensures InOrder(d, calls + [x])
  {
  }

  lemma InOrderDistinct(d: Domain, calls: seq<Sample>)
    requires InOrder(d, calls)
    ensures Distinct(d, calls)
  {
  }

  lemma InOrderComplete(d: Domain, calls: seq<Sample>)
    requires DomainOk(d) && InOrder(d, calls) && |calls| == d.dataN > 0
    ensures Complete(d, d.dataN, calls)
  {
    DomainIsData(d, 0);
    InOrderDistinct(d, calls);
    assert calls[0] == SampleOf(d, 0) && calls[d.dataN - 1] == SampleOf(d, d.dataN - 1);
    hide DomainOk, Distinct;
  }

  lemma DomainSize(d: Domain)
    requires DomainOk(d)
    ensures d.dataN == |Blocks(d)|
  {
  }

  /** Full coverage is one scan of the domain in order. */
  method Sequential(d: Domain, fails: Outcomes) returns (ok: bool, calls: seq<Sample>)
    requires DomainOk(d) && d.dataN > 0
    ensures StopsAtFailure(fails, |calls|, ok) && Distinct(d, calls)
    ensures ok ==> Complete(d, d.dataN, calls)
    ensures |calls| <= d.dataN && InOrder(d, calls)
  {
    DomainSize(d);
    hide DomainOk, Distinct, InOrder, Complete, Blocks;
    calls := [];
    assert InOrder(d, []) by { NoneInOrder(d); }
    for idx := 0 to d.dataN
      invariant |calls| == idx && StopsAtFailure(fails, idx, true) && InOrder(d, calls)
    {
      var offset, length := SampleAt(d, idx);
      ok := !fails(|calls|);
      OneMoreInOrder(d, calls, Sample(idx, offset, length));
      calls := calls + [Sample(idx, offset, length)];
      if !ok {
        InOrderDistinct(d, calls);
        return;
      }
    }
    ok := true;
    InOrderDistinct(d, calls);
    InOrderComplete(d, calls);
  }

  lemma NoneInOrder(d: Domain)
    ensures InOrder(d, [])
  {
  }
}
