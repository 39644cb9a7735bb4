/**
 The registry of hard-linked files: a growing hash table from (device, inode) to the first
 destination, and the list of links to make once that destination exists.
 */
module HardLinks {
  import opened Machine
  import opened Bits

  datatype Key = Key(dev: nat, ino: nat)

  /** Entries of one bucket, the newest first. */
  datatype Chain = Nil | Link(key: Key, primary: string, next: Chain)

  datatype Job = Job(primary: string, link: string, key: Key)

  datatype Result = Primary | Secondary | Error

  function Mix(key: Key): nat {
    var h := (key.dev * 1099511628211) % WORD;
    Xor(h, (key.ino + 0x9e3779b97f4a7c15 + (h * 64) % WORD + h / 4) % WORD)
  }

  ghost predicate PowerOfTwo(n: nat) { exists k: nat :: n == Pow2(k) }

  function Slot(key: Key, n: nat): nat
    requires n > 0
  {
    And(Mix(key), n - 1)
  }

  lemma SlotInRange(key: Key, n: nat)
    requires PowerOfTwo(n)
    ensures n > 0 && Slot(key, n) < n
  {
    var k: nat :| n == Pow2(k);
    MaskIsMod(Mix(key), k);
  }

  lemma ShiftUp(i: nat, j: nat, c: nat, m: nat)
    requires m > 0 && i % m == j % m
    ensures (i + c) % m == (j + c) % m
  {
    var q := SameRemainder(i, j, m);
    var x, r := (i + c) / m, (i + c) % m;
    assert j + c == x * m + r + q * m;
    Distribute(x, q, m);
    Remainder(j + c, m, x + q, r);
  }

  lemma ShiftDown(i: nat, j: nat, c: nat, m: nat)
    requires m > 0 && (i + c) % m == (j + c) % m
    ensures i % m == j % m
  {
    var q := SameRemainder(i + c, j + c, m);
    var x, r := i / m, i % m;
    assert j == x * m + r + q * m;
    Distribute(x, q, m);
    Remainder(j, m, x + q, r);
  }

  lemma ShiftedSame(i: nat, j: nat, c: nat, m: nat)
    requires m > 0
    ensures (i + c) % m == (j + c) % m <==> i % m == j % m
  {
    if (i + c) % m == (j + c) % m {
      ShiftDown(i, j, c, m);
    } else if i % m == j % m {
      ShiftUp(i, j, c, m);
    }
  }

  /** What a device contributes to the hash. */
  function DeviceMix(dev: nat): nat { (dev * 1099511628211) % WORD }

  function DeviceShift(dev: nat): nat {
    0x9e3779b97f4a7c15 + (DeviceMix(dev) * 64) % WORD + DeviceMix(dev) / 4
  }

  lemma MixForm(key: Key)
    ensures Mix(key) == Xor(DeviceMix(key.dev), (key.ino + DeviceShift(key.dev)) % Pow2(64))
  {
    WordIsPow2();
    hide Xor, Pow2;
  }

  lemma SlotForm(key: Key, k: nat)
    ensures Slot(key, Pow2(k)) == Xor(DeviceMix(key.dev), (key.ino + DeviceShift(key.dev)) % Pow2(64)) % Pow2(k)
  {
    MaskIsMod(Mix(key), k);
    MixForm(key);
    hide Mix, Xor, And, Pow2;
  }

  /**
   How the table spreads the inodes of one device: two of them share a bucket if and only if their
   numbers agree modulo the number of buckets, so as many inodes in a row as there are buckets fill each once.
   */
  lemma SameBucketIff(dev: nat, i: nat, j: nat, k: nat)
    requires k <= 64
    ensures Slot(Key(dev, i), Pow2(k)) == Slot(Key(dev, j), Pow2(k)) <==> i % Pow2(k) == j % Pow2(k)
  {
    hide *;
    var c := DeviceShift(dev);
    SlotForm(Key(dev, i), k);
    SlotForm(Key(dev, j), k);
    XorKeepsApart(DeviceMix(dev), (i + c) % Pow2(64), (j + c) % Pow2(64), k);
    WrapKeepsLowBits(i + c, 64, k);
    WrapKeepsLowBits(j + c, 64, k);
    ShiftedSame(i, j, c, Pow2(k));
  }

  function Entries(c: Chain): map<Key, string> {
    if c == Nil then map[] else Entries(c.next)[c.key := c.primary]
  }

  ghost predicate Distinct(c: Chain) {
    c.Link? ==> c.key !in Entries(c.next) && Distinct(c.next)
  }

  // ---------------------------------------------------------------------------
  // The abstract registry

  datatype Registry = Registry(table: map<Key, string>, jobs: seq<Job>)

  datatype Call = Call(key: Key, dst: string)

  /** One call, with all allocations succeeding. */
  function Note(r: Registry, c: Call): (Registry, Result) {
    if c.key in r.table then (r.(jobs := r.jobs + [Job(r.table[c.key], c.dst, c.key)]), Secondary)
    else (r.(table := r.table[c.key := c.dst]), Primary)
  }

  /** The registry after a sequence of calls; the lock makes every interleaving such a sequence. */
  function After(calls: seq<Call>): Registry {
    if calls == [] then Registry(map[], []) else Note(After(calls[..|calls| - 1]), calls[|calls| - 1]).0
  }

  function ResultOf(calls: seq<Call>, i: nat): Result
    requires i < |calls|
  {
    Note(After(calls[..i]), calls[i]).1
  }

  /** Call i is the first one for its inode. */
  ghost predicate IsFirst(calls: seq<Call>, i: nat) {
    i < |calls| && forall j :: 0 <= j < i ==> calls[j].key != calls[i].key
  }

  lemma {:induction false} TableIsFirsts(calls: seq<Call>, k: Key)
    ensures k in After(calls).table <==> exists i: nat :: IsFirst(calls, i) && calls[i].key == k
    ensures k in After(calls).table ==> forall i: nat :: IsFirst(calls, i) && calls[i].key == k ==> After(calls).table[k] == calls[i].dst
  {
    if calls != [] {
      var n := |calls| - 1;
      var front := calls[..n];
      TableIsFirsts(front, k);
      forall i: nat | i < n
        ensures IsFirst(calls, i) <==> IsFirst(front, i)
      {
      }
      if k in After(front).table {
        var i: nat :| IsFirst(front, i) && front[i].key == k;
        assert IsFirst(calls, i);
      } else if calls[n].key == k {
        assert forall j :: 0 <= j < n ==> front[j].key != k by {
          if j :| 0 <= j < n && front[j].key == k {
            var i := FirstWith(front, k, j);
          }
        }
        assert IsFirst(calls, n);
      }
    }
  }

  lemma {:induction false} FirstWith(calls: seq<Call>, k: Key, j: nat) returns (i: nat)
    requires j < |calls| && calls[j].key == k
    ensures IsFirst(calls, i) && calls[i].key == k && i <= j
    decreases j
  {
    i := j;
    if h: nat :| h < j && calls[h].key == k {
      i := FirstWith(calls, k, h);
    }
  }

  /** Exactly the first call for an inode is told to copy; all others are told to link. */
  lemma OnePrimaryPerInode(calls: seq<Call>, i: nat)
    requires i < |calls|
    ensures ResultOf(calls, i) == if IsFirst(calls, i) then Primary else Secondary
  {
    var front, k := calls[..i], calls[i].key;
    TableIsFirsts(front, k);
    if !IsFirst(calls, i) {
      var j :| 0 <= j < i && calls[j].key == k;
      var h := FirstWith(front, k, j);
    }
  }

  /** A deferred link names the destination of the first call for its inode. */
  lemma JobsNamePrimary(calls: seq<Call>, i: nat, first: nat)
    requires i < |calls| && first < i && IsFirst(calls, first) && calls[first].key == calls[i].key
    ensures After(calls[..i + 1]).jobs == After(calls[..i]).jobs + [Job(calls[first].dst, calls[i].dst, calls[i].key)]
    ensures After(calls[..i + 1]).table == After(calls[..i]).table
  {
    TableIsFirsts(calls[..i], calls[i].key);
    assert IsFirst(calls[..i], first);
    assert calls[..i + 1][..i] == calls[..i];
  }

  /** The first call for an inode registers its destination and defers nothing. */
  lemma FirstDefersNothing(calls: seq<Call>, i: nat)
    requires IsFirst(calls, i)
    ensures After(calls[..i + 1]).jobs == After(calls[..i]).jobs
    ensures After(calls[..i + 1]).table == After(calls[..i]).table[calls[i].key := calls[i].dst]
    ensures calls[i].key !in After(calls[..i]).table
  {
    TableIsFirsts(calls[..i], calls[i].key);
    assert calls[..i + 1][..i] == calls[..i];
  }

  // ---------------------------------------------------------------------------
  // The hash table

  /** The buckets hold exactly the entries of the table, each where its hash says. */
  ghost predicate Spread(buckets: seq<Chain>, table: map<Key, string>) {
    forall b {:trigger buckets[b]} :: 0 <= b < |buckets| ==> BucketOk(buckets[b], b, |buckets|, table)
  }

  ghost predicate BucketOk(c: Chain, b: nat, n: nat, table: map<Key, string>) {
    && Distinct(c)
    && (forall k :: k in Entries(c) <==> k in table && n > 0 && Slot(k, n) == b)
    && (forall k :: k in Entries(c) ==> k in table && Entries(c)[k] == table[k])
  }

  /** A bucket of the new array when the entries for which `moved` holds have been moved. */
  ghost predicate PartOk(c: Chain, b: nat, n: nat, table: map<Key, string>, moved: iset<Key>) {
    && Distinct(c)
    && (forall k :: k in Entries(c) <==> k in table && k in moved && n > 0 && Slot(k, n) == b)
    && (forall k :: k in Entries(c) ==> k in table && Entries(c)[k] == table[k])
  }

  ghost predicate Partial(buckets: seq<Chain>, table: map<Key, string>, moved: iset<Key>) {
    forall b {:trigger buckets[b]} :: 0 <= b < |buckets| ==> PartOk(buckets[b], b, |buckets|, table, moved)
  }

  lemma NothingMoved(buckets: seq<Chain>, table: map<Key, string>)
    requires forall b {:trigger buckets[b]} :: 0 <= b < |buckets| ==> buckets[b] == Nil
    ensures Partial(buckets, table, iset{})
  {
  }

  lemma AllMoved(buckets: seq<Chain>, table: map<Key, string>, moved: iset<Key>)
    requires Partial(buckets, table, moved) && forall k :: k in table ==> k in moved
    ensures Spread(buckets, table)
  {
    forall b {:trigger buckets[b]} | 0 <= b < |buckets|
      ensures BucketOk(buckets[b], b, |buckets|, table)
    {
      assert PartOk(buckets[b], b, |buckets|, table, moved);
      hide Slot, Distinct, Entries;
    }
  }

  /** Pushing one entry at the head of its bucket. */
  lemma MoveOne(buckets: seq<Chain>, table: map<Key, string>, moved: iset<Key>, k: Key, idx: nat)
    requires Partial(buckets, table, moved) && k in table && k !in moved
    requires |buckets| > 0 && idx == Slot(k, |buckets|) && idx < |buckets|
    ensures Partial(buckets[idx := Link(k, table[k], buckets[idx])], table, moved + iset{k})
  {
    var after := buckets[idx := Link(k, table[k], buckets[idx])];
    forall b {:trigger after[b]} | 0 <= b < |after|
      ensures PartOk(after[b], b, |after|, table, moved + iset{k})
    {
      assert PartOk(buckets[b], b, |buckets|, table, moved);
      hide Slot;
    }
  }

  class Links {
    var buckets: array<Chain>
    var nbuckets: nat
    var count: nat
    var jobs: seq<Job>
    ghost var table: map<Key, string>

    ghost function View(): Registry
      reads this
    {
      Registry(table, jobs)
    }

    ghost predicate Valid()
      reads this, buckets
    {
      && buckets.Length == nbuckets && (nbuckets == 0 || PowerOfTwo(nbuckets))
      && Spread(buckets[..], table) && count == |table.Keys| && 4 * count <= 3 * nbuckets
    }

    constructor ()
      ensures Valid() && fresh(buckets) && View() == Registry(map[], [])
    {
      buckets := new Chain[0];
      nbuckets, count, jobs, table := 0, 0, [], map[];
    }

    /** Doubles the buckets and moves every entry. */
    method Grow(allocOk: bool) returns (rc: int)
      requires Valid()
      modifies this`buckets, this`nbuckets
      ensures Valid() && (rc == 0 <==> allocOk)
      ensures rc == 0 ==> fresh(buckets) && nbuckets == if old(nbuckets) == 0 then 1024 else 2 * old(nbuckets)
      ensures rc != 0 ==> buckets == old(buckets) && nbuckets == old(nbuckets)
    {
      hide Spread, Partial, Slot, Mix;
      var newN := if nbuckets > 0 then nbuckets * 2 else 1024;
      if !allocOk {
        return -1;
      }
      Doubled(nbuckets);
      var nb := new Chain[newN](i => Nil);
      NothingMoved(nb[..], table);
      ghost var moved: iset<Key> := iset{};
      var i := 0;
      while i < nbuckets
        invariant 0 <= i <= nbuckets && Partial(nb[..], table, moved)
        invariant forall k :: k in moved <==> k in table && SlotBelow(k, nbuckets, i)
        modifies nb
      {
        moved := MoveBucket(nb, i, moved);
        i := i + 1;
      }
      AllBelow(table, nbuckets, moved);
      EmptyTable();
      AllMoved(nb[..], table, moved);
      buckets, nbuckets := nb, newN;
      rc := 0;
    }

    lemma EmptyTable()
      requires Valid()
      ensures nbuckets == 0 ==> table == map[]
    {
      if nbuckets == 0 {
        assert |table.Keys| == 0;
      }
    }

    /** Moves the chain of bucket i. */
    method MoveBucket(nb: array<Chain>, i: nat, ghost moved0: iset<Key>) returns (ghost moved: iset<Key>)
      requires Valid() && i < nbuckets && nb != buckets && PowerOfTwo(nb.Length)
      requires Partial(nb[..], table, moved0) && forall k :: k in moved0 <==> k in table && SlotBelow(k, nbuckets, i)
      modifies nb
      ensures Partial(nb[..], table, moved) && forall k :: k in moved <==> k in table && SlotBelow(k, nbuckets, i + 1)
    {
      var e := buckets[i];
      ChainFacts(i);
      hide Partial, Spread, Slot, Mix, PowerOfTwo;
      moved := moved0;
      while e.Link?
        invariant Distinct(e) && Partial(nb[..], table, moved)
        invariant forall k :: k in Entries(e) ==> k in table && Entries(e)[k] == table[k] && SlotIs(k, nbuckets, i)
        invariant forall k :: k in moved <==> k in table && (SlotBelow(k, nbuckets, i) || (SlotIs(k, nbuckets, i) && k !in Entries(e)))
        decreases e
      {
        var next := e.next;
        SlotInRange(e.key, nb.Length);
        var idx := Slot(e.key, nb.Length);
        assert e.key in Entries(e);
        SlotsApart(e.key, nbuckets, i);
        MoveOne(nb[..], table, moved, e.key, idx);
        ghost var after := nb[..][idx := Link(e.key, table[e.key], nb[idx])];
        nb[idx] := Link(e.key, e.primary, nb[idx]);
        assert nb[..] == after;
        moved := moved + iset{e.key};
        e := next;
      }
      SlotsUpTo(table, nbuckets, i);
    }

    lemma ChainFacts(i: nat)
      requires Valid() && i < nbuckets
      ensures Distinct(buckets[i])
      ensures forall k :: k in Entries(buckets[i]) <==> k in table && SlotIs(k, nbuckets, i)
      ensures forall k :: k in Entries(buckets[i]) ==> k in table && Entries(buckets[i])[k] == table[k]
    {
      assert BucketOk(buckets[..][i], i, nbuckets, table);
      hide Slot;
    }

    /** Finds the entry of an inode in its chain. */
    method Find(key: Key) returns (found: bool, primary: string)
      requires Valid() && nbuckets > 0
      ensures found <==> key in table
      ensures found ==> primary == table[key]
    {
      SlotInRange(key, nbuckets);
      var idx := Slot(key, nbuckets);
      ChainFacts(idx);
      hide Slot, Mix, Spread;
      var e := buckets[idx];
      while e.Link?
        invariant key in Entries(e) <==> key in table
        invariant key in Entries(e) ==> Entries(e)[key] == table[key]
        decreases e
      {
        if e.key == key {
          return true, e.primary;
        }
        e := e.next;
      }
      return false, "";
    }

    /** Registers a destination; growOk and newOk say whether the allocations succeed. */
    method NoteLink(c: Call, growOk: bool, newOk: bool) returns (r: Result)
      requires Valid()
      modifies this, buckets
      ensures Valid()
      ensures r != Error ==> (View(), r) == Note(old(View()), c)
      ensures r == Error ==> View() == old(View()) && (!growOk || !newOk)
      ensures growOk && newOk ==> r != Error
      ensures var n := if old(nbuckets) == 0 then 1024 else old(nbuckets);
              growOk ==> nbuckets == if c.key !in old(table) && 4 * (old(count) + 1) > 3 * n then 2 * n else n
      ensures !growOk ==> nbuckets == old(nbuckets)
    {
      hide Spread, Slot, Mix, PowerOfTwo;
      if nbuckets == 0 {
        var rc := Grow(growOk);
        if rc != 0 {
          return Error;
        }
      }
      var found, primary := Find(c.key);
      if found {
        if !newOk {
          return Error;
        }
        jobs := jobs + [Job(primary, c.dst, c.key)];
        return Secondary;
      }
      if count + 1 > nbuckets * 3 / 4 {
        var rc := Grow(growOk);
        if rc != 0 {
          return Error;
        }
      }
      SlotInRange(c.key, nbuckets);
      var idx := Slot(c.key, nbuckets);
      if !newOk {
        return Error;
      }
      InsertOk(buckets[..], table, c.key, c.dst, idx);
      ghost var after := buckets[..][idx := Link(c.key, c.dst, buckets[idx])];
      buckets[idx] := Link(c.key, c.dst, buckets[idx]);
      assert buckets[..] == after;
      assert table[c.key := c.dst].Keys == table.Keys + {c.key};
      table := table[c.key := c.dst];
      count := count + 1;
      r := Primary;
    }
  }

  lemma InsertOk(buckets: seq<Chain>, table: map<Key, string>, k: Key, dst: string, idx: nat)
    requires Spread(buckets, table) && k !in table && |buckets| > 0 && idx == Slot(k, |buckets|) && idx < |buckets|
    ensures Spread(buckets[idx := Link(k, dst, buckets[idx])], table[k := dst])
  {
    var after := buckets[idx := Link(k, dst, buckets[idx])];
    forall b {:trigger after[b]} | 0 <= b < |after|
      ensures BucketOk(after[b], b, |after|, table[k := dst])
    {
      assert BucketOk(buckets[b], b, |buckets|, table);
      hide Slot;
    }
  }

  lemma Doubled(n: nat)
    requires n == 0 || PowerOfTwo(n)
    ensures PowerOfTwo(if n == 0 then 1024 else 2 * n)
  {
    if n == 0 {
      assert Pow2(5) == 32;
      Pow2Sum(5, 5);
      assert 1024 == Pow2(10);
    } else {
      var k: nat :| n == Pow2(k);
      assert 2 * n == Pow2(k + 1);
    }
  }

  ghost predicate SlotBelow(k: Key, n: nat, i: nat) { n > 0 && Slot(k, n) < i }
  ghost predicate SlotIs(k: Key, n: nat, i: nat) { n > 0 && Slot(k, n) == i }

  lemma SlotsApart(k: Key, n: nat, i: nat)
    ensures !(SlotBelow(k, n, i) && SlotIs(k, n, i))
  {
  }

  lemma SlotsUpTo(table: map<Key, string>, n: nat, i: nat)
    ensures forall k :: SlotBelow(k, n, i + 1) <==> SlotBelow(k, n, i) || SlotIs(k, n, i)
  {
    hide Slot;
  }

  lemma AllBelow(table: map<Key, string>, n: nat, moved: iset<Key>)
    requires PowerOfTwo(n) || n == 0
    requires forall k :: k in moved <==> k in table && SlotBelow(k, n, n)
    ensures n > 0 ==> forall k :: k in table ==> k in moved
  {
    if n > 0 {
      forall k | k in table
        ensures k in moved
      {
        SlotInRange(k, n);
      }
    }
  }
}
