/**
 The queue of small files: one batch per source directory, claimed in runs of at most
 eight from the batch at the head, which then rotates behind the other directories.
 */
module DirQueue {

  const CLAIM_BATCH: nat := 8

  /** A slice of the files of one directory; those before head have been claimed. */
  datatype Batch = Batch(id: nat, head: nat, tasks: seq<nat>)

  ghost predicate BatchOk(b: Batch) { b.head < |b.tasks| }

  ghost predicate QueueOk(q: seq<Batch>) {
    forall i :: 0 <= i < |q| ==> BatchOk(q[i])
  }

  function Remaining(b: Batch): seq<nat> {
    if b.head <= |b.tasks| then b.tasks[b.head..] else []
  }

  /** Files that wait in the queue. */
  function Len(q: seq<Batch>): nat {
    if q == [] then 0 else |Remaining(q[0])| + Len(q[1..])
  }

  function Waiting(q: seq<Batch>): multiset<nat> {
    if q == [] then multiset{} else multiset(Remaining(q[0])) + Waiting(q[1..])
  }

  function RunLen(b: Batch): nat {
    if |Remaining(b)| < CLAIM_BATCH then |Remaining(b)| else CLAIM_BATCH
  }

  /** The files that the next claim takes. */
  function Run(q: seq<Batch>): seq<nat>
    requires q != []
  {
    Remaining(q[0])[..RunLen(q[0])]
  }

  /** The queue after a claim. */
  function Claimed(q: seq<Batch>): seq<Batch>
    requires q != []
  {
    var b := q[0].(head := q[0].head + RunLen(q[0]));
    if b.head < |b.tasks| then q[1..] + [b] else q[1..]
  }

  lemma {:induction false} LenAppend(q: seq<Batch>, b: Batch)
    ensures Len(q + [b]) == Len(q) + |Remaining(b)|
    ensures Waiting(q + [b]) == Waiting(q) + multiset(Remaining(b))
  {
    if q == [] {
      assert q + [b] == [b] && [b][1..] == [];
    } else {
      assert (q + [b])[1..] == q[1..] + [b];
      LenAppend(q[1..], b);
    }
  }

  lemma {:induction false} LenWaiting(q: seq<Batch>)
    ensures |Waiting(q)| == Len(q)
  {
    if q != [] {
      LenWaiting(q[1..]);
    }
  }

  lemma LenPositive(q: seq<Batch>)
    requires QueueOk(q)
    ensures Len(q) > 0 <==> q != []
  {
  }

  lemma RunSplits(b: Batch)
    requires BatchOk(b)
    ensures var b' := b.(head := b.head + RunLen(b));
            && b'.head <= |b.tasks| && 1 <= RunLen(b) <= CLAIM_BATCH
            && |Remaining(b)| == RunLen(b) + |Remaining(b')|
            && multiset(Remaining(b)) == multiset(Remaining(b)[..RunLen(b)]) + multiset(Remaining(b'))
  {
    var b' := b.(head := b.head + RunLen(b));
    assert Remaining(b) == Remaining(b)[..RunLen(b)] + Remaining(b');
  }

  lemma ClaimedOk(q: seq<Batch>)
    requires QueueOk(q) && q != []
    ensures QueueOk(Claimed(q))
  {
    assert BatchOk(q[0]);
  }

  lemma ClaimedForm(q: seq<Batch>)
    requires QueueOk(q) && q != []
    ensures var b' := q[0].(head := q[0].head + RunLen(q[0]));
            && Len(Claimed(q)) == Len(q[1..]) + |Remaining(b')|
            && Waiting(Claimed(q)) == Waiting(q[1..]) + multiset(Remaining(b'))
  {
    var b' := q[0].(head := q[0].head + RunLen(q[0]));
    assert BatchOk(q[0]);
    LenAppend(q[1..], b');
  }

  lemma MovedPart(whole: multiset<nat>, part: multiset<nat>, left: multiset<nat>, others: multiset<nat>)
    requires whole == part + left
    ensures (others + left) + part == whole + others
  {
  }

  /** A claim takes the next files of the directory in order: eight, or all that are left. */
  lemma ClaimIsFull(q: seq<Batch>)
    requires QueueOk(q) && q != []
    ensures var b, n := q[0], |Run(q)|;
            && b.head + n <= |b.tasks| && Run(q) == b.tasks[b.head..b.head + n]
            && (n == CLAIM_BATCH || (n < CLAIM_BATCH && b.head + n == |b.tasks|))
            && Claimed(q) == q[1..] + (if b.head + n < |b.tasks| then [b.(head := b.head + n)] else [])
  {
    assert BatchOk(q[0]);
  }

  /** A claim takes between one and eight files of one directory, and loses or duplicates none. */
  lemma ClaimKeepsFiles(q: seq<Batch>)
    requires QueueOk(q) && q != []
    ensures QueueOk(Claimed(q)) && 1 <= |Run(q)| <= CLAIM_BATCH
    ensures Len(Claimed(q)) + |Run(q)| == Len(q)
    ensures Waiting(Claimed(q)) + multiset(Run(q)) == Waiting(q)
  {
    assert BatchOk(q[0]);
    RunSplits(q[0]);
    ClaimedOk(q);
    ClaimedForm(q);
    var b := q[0];
    MovedPart(multiset(Remaining(b)), multiset(Run(q)), multiset(Remaining(b.(head := b.head + RunLen(b)))), Waiting(q[1..]));
    assert Waiting(q) == multiset(Remaining(b)) + Waiting(q[1..]) && Len(q) == |Remaining(b)| + Len(q[1..]);
    hide Len, Waiting, Claimed, Remaining;
  }

  /** Moves up to eight files of a batch into a stash. */
  method TakeRun(b0: Batch) returns (stash: seq<nat>, b: Batch)
    requires BatchOk(b0)
    ensures b == b0.(head := b0.head + RunLen(b0)) && b.head <= |b.tasks| && stash == Remaining(b0)[..RunLen(b0)]
  {
    b, stash := b0, [];
    while |stash| < CLAIM_BATCH && b.head < |b.tasks|
      invariant b == b0.(head := b0.head + |stash|) && b.head <= |b.tasks|
      invariant |stash| <= RunLen(b0) && stash == Remaining(b0)[..|stash|]
      decreases |b.tasks| - b.head
    {
      stash := stash + [b.tasks[b.head]];
      b := b.(head := b.head + 1);
    }
  }

  class SmallQueue {
    var batches: seq<Batch>
    var len: nat

    ghost predicate Valid()
      reads this
    {
      QueueOk(batches) && len == Len(batches)
    }

    constructor ()
      ensures Valid() && batches == []
    {
      batches, len := [], 0;
    }

    method PushBatch(b: Batch)
      requires Valid() && BatchOk(b)
      modifies this
      ensures Valid() && batches == old(batches) + [b]
    {
      LenAppend(batches, b);
      batches := batches + [b];
      len := len + |b.tasks| - b.head;
    }

    method PopBatch() returns (b: Batch)
      requires Valid() && batches != []
      modifies this
      ensures Valid() && b == old(batches)[0] && batches == old(batches)[1..]
    {
      b := batches[0];
      batches := batches[1..];
      len := len - (|b.tasks| - b.head);
    }

    /** The claim of a worker: fill a stash from the head batch, then rotate what is left of it. */
    method Claim() returns (stash: seq<nat>)
      requires Valid() && batches != []
      modifies this
      ensures Valid() && stash == Run(old(batches)) && batches == Claimed(old(batches))
    {
      var b := PopBatch();
      stash, b := TakeRun(b);
      if b.head < |b.tasks| {
        PushBatch(b);
      }
    }
  }

  // ---------------------------------------------------------------------------
  // Rotation

  /** What a step does to the queue: a traversal thread appends a batch, a worker claims, or nothing. */
  datatype Op = Append(b: Batch) | Take | Other

  ghost predicate OpOk(q: seq<Batch>, op: Op) {
    match op
    case Append(b) => BatchOk(b) && forall i :: 0 <= i < |q| ==> q[i].id != b.id
    case Take => q != []
    case Other => true
  }

  function Do(q: seq<Batch>, op: Op): seq<Batch>
    requires op.Take? ==> q != []
  {
    match op
    case Append(b) => q + [b]
    case Take => Claimed(q)
    case Other => q
  }

  ghost predicate DistinctIds(q: seq<Batch>) {
    forall i, j :: 0 <= i < j < |q| ==> q[i].id != q[j].id
  }

  /** qs[t] is the queue before operation t. */
  ghost predicate Trace(qs: seq<seq<Batch>>, ops: seq<Op>) {
    && |qs| == |ops| + 1
    && QueueOk(qs[0]) && DistinctIds(qs[0])
    && (forall t :: 0 <= t < |ops| ==> OpOk(qs[t], ops[t]) && qs[t + 1] == Do(qs[t], ops[t]))
  }

  ghost predicate TakesFrom(qs: seq<seq<Batch>>, ops: seq<Op>, t: nat, id: nat)
    requires |qs| == |ops| + 1
  {
    t < |ops| && ops[t].Take? && qs[t] != [] && qs[t][0].id == id
  }

  ghost predicate HasBatch(q: seq<Batch>, id: nat) {
    exists i :: 0 <= i < |q| && q[i].id == id
  }

  lemma OpKeepsDistinct(q: seq<Batch>, op: Op)
    requires QueueOk(q) && DistinctIds(q) && OpOk(q, op)
    ensures QueueOk(Do(q, op)) && DistinctIds(Do(q, op))
  {
    assert q != [] ==> BatchOk(q[0]);
  }

  lemma {:induction false} TraceKeepsDistinct(qs: seq<seq<Batch>>, ops: seq<Op>, t: nat)
    requires Trace(qs, ops) && t <= |ops|
    ensures QueueOk(qs[t]) && DistinctIds(qs[t])
  {
    if t > 0 {
      TraceKeepsDistinct(qs, ops, t - 1);
      OpKeepsDistinct(qs[t - 1], ops[t - 1]);
    }
  }

  /** Batch c waits ahead of batch b. */
  ghost predicate Ahead(q: seq<Batch>, c: nat, b: nat) {
    exists i, j :: 0 <= i < j < |q| && q[i].id == c && q[j].id == b
  }

  lemma TakeRotates(q: seq<Batch>, b: nat, c: nat)
    requires QueueOk(q) && DistinctIds(q) && q != [] && q[0].id == b && b != c && HasBatch(q, c)
    requires HasBatch(Claimed(q), b)
    ensures Ahead(Claimed(q), c, b)
  {
    var r := Claimed(q);
    assert BatchOk(q[0]);
    var i :| 0 <= i < |q| && q[i].id == c;
    var j :| 0 <= j < |r| && r[j].id == b;
    assert j == |q| - 1 && r[i - 1] == q[i];
  }

  /** Until c is claimed itself it stays ahead of b. */
  lemma StaysAhead(q: seq<Batch>, op: Op, b: nat, c: nat)
    requires QueueOk(q) && DistinctIds(q) && OpOk(q, op) && Ahead(q, c, b)
    requires op.Take? ==> q[0].id != c
    ensures Ahead(Do(q, op), c, b)
    ensures op.Take? ==> q[0].id != b
  {
    var i, j :| 0 <= i < j < |q| && q[i].id == c && q[j].id == b;
    var r := Do(q, op);
    if op.Take? {
      assert r[i - 1] == q[i] && r[j - 1] == q[j];
    } else {
      assert r[i] == q[i] && r[j] == q[j];
    }
  }

  lemma {:induction false} AheadUntil(qs: seq<seq<Batch>>, ops: seq<Op>, i: nat, t: nat, b: nat, c: nat)
    requires Trace(qs, ops) && i < t <= |ops| && Ahead(qs[i + 1], c, b)
    requires forall k :: i < k < t ==> !TakesFrom(qs, ops, k, c)
    ensures Ahead(qs[t], c, b)
    ensures forall k :: i < k < t ==> !TakesFrom(qs, ops, k, b)
    decreases t
  {
    hide Claimed, Ahead, DistinctIds, QueueOk;
    if t > i + 1 {
      AheadUntil(qs, ops, i, t - 1, b, c);
      TraceKeepsDistinct(qs, ops, t - 1);
      assert !TakesFrom(qs, ops, t - 1, c);
      StaysAhead(qs[t - 1], ops[t - 1], b, c);
    }
  }

  /** Both claims are from the same batch: it has not left the queue in between. */
  ghost predicate SameBatch(qs: seq<seq<Batch>>, ops: seq<Op>, i: nat, j: nat, b: nat)
    requires |qs| == |ops| + 1
  {
    forall k :: i < k <= j && k < |qs| ==> HasBatch(qs[k], b)
  }

  /**
   Rotation is fair: between two claims from one batch, every other batch that was queued
   at the first of them is claimed from.
   */
  lemma OthersGoFirst(qs: seq<seq<Batch>>, ops: seq<Op>, i: nat, j: nat, b: nat, c: nat)
    requires Trace(qs, ops) && i < j < |ops|
    requires TakesFrom(qs, ops, i, b) && TakesFrom(qs, ops, j, b) && SameBatch(qs, ops, i, j, b)
    requires c != b && HasBatch(qs[i], c)
    ensures exists k :: i < k < j && TakesFrom(qs, ops, k, c)
  {
    TraceKeepsDistinct(qs, ops, i);
    TraceKeepsDistinct(qs, ops, j);
    assert HasBatch(qs[i + 1], b);
    TakeRotates(qs[i], b, c);
    if forall k :: i < k < j ==> !TakesFrom(qs, ops, k, c) {
      AheadUntil(qs, ops, i, j, b, c);
    }
  }
}
