/**
 The cache of open directory handles of the remote peer: hash chains for look-up, a doubly
 linked list in order of use, and per entry a count of users that protects it from eviction.
 Every public method is one hold of the cache's lock.

 Entries are cells of a memory, addressed by references as in the source; ghost stamps say
 when an entry was last used and when it was inserted, and the pointers follow the stamps.
 */
module HandleCache {
  import opened Bits
  import opened Counting

  const BUCKETS: nat := 65536

  type Ref = nat
  const NULL: Ref := 0

  datatype Node = Node(path: string, hash: nat, fd: int, refcount: nat, hnext: Ref, prev: Ref, next: Ref)
  type Nodes = map<Ref, Node>
  type Stamps = map<Ref, nat>

  function Bucket(hash: nat): nat { hash % BUCKETS }

  lemma BucketIsMask(hash: nat)
    ensures Bucket(hash) == And(hash, BUCKETS - 1)
  {
    assert Pow2(4) == 16;
    Pow2Sum(4, 4);
    Pow2Sum(8, 8);
    MaskIsMod(hash, 16);
  }

  ghost predicate Distinct(stamps: Stamps) {
    forall e, f {:trigger stamps[e], stamps[f]} :: e in stamps && f in stamps && stamps[e] == stamps[f] ==> e == f
  }

  // ---------------------------------------------------------------------------
  // The list in order of use

  datatype Lru = Lru(nodes: Nodes, head: Ref, tail: Ref)

  function SetNext(m: Lru, p: Ref, n: Ref): Lru
    requires p == NULL || p in m.nodes
  {
    if p != NULL then m.(nodes := m.nodes[p := m.nodes[p].(next := n)]) else m.(head := n)
  }

  function SetPrev(m: Lru, n: Ref, p: Ref): Lru
    requires n == NULL || n in m.nodes
  {
    if n != NULL then m.(nodes := m.nodes[n := m.nodes[n].(prev := p)]) else m.(tail := p)
  }

  ghost predicate NextOk(m: Lru, used: Stamps, e: Ref)
    requires e in used && used.Keys <= m.nodes.Keys
  {
    var n := m.nodes[e].next;
    if n == NULL then e == m.tail else n in used && m.nodes[n].prev == e && used[n] < used[e]
  }

  ghost predicate PrevOk(m: Lru, used: Stamps, e: Ref)
    requires e in used && used.Keys <= m.nodes.Keys
  {
    var p := m.nodes[e].prev;
    if p == NULL then e == m.head else p in used && m.nodes[p].next == e && used[e] < used[p]
  }

  /** No entry was used between e and the next one of the list. */
  ghost predicate NoneBetween(m: Lru, used: Stamps, e: Ref)
    requires e in used && used.Keys <= m.nodes.Keys
  {
    forall x {:trigger used[x]} :: x in used && used[x] < used[e] ==>
      m.nodes[e].next in used && used[x] <= used[m.nodes[e].next]
  }

  ghost predicate Linked(m: Lru, used: Stamps, e: Ref)
    requires used.Keys <= m.nodes.Keys
  {
    e in used ==> NextOk(m, used, e) && PrevOk(m, used, e) && NoneBetween(m, used, e)
  }

  ghost predicate EndsOk(m: Lru, used: Stamps)
    requires used.Keys <= m.nodes.Keys
  {
    && NULL !in used
    && (m.head == NULL <==> m.tail == NULL) && (m.head == NULL ==> used == map[])
    && (m.head != NULL ==> m.head in used && m.nodes[m.head].prev == NULL
                           && forall x {:trigger used[x]} :: x in used ==> used[x] <= used[m.head])
    && (m.tail != NULL ==> m.tail in used && m.nodes[m.tail].next == NULL)
  }

  /** The list holds the stamped entries, the last used one first. */
  ghost predicate ListOk(m: Lru, used: Stamps) {
    && used.Keys <= m.nodes.Keys && EndsOk(m, used) && Distinct(used)
    && forall e {:trigger Linked(m, used, e)} :: Linked(m, used, e)
  }

  function Unlinked(m: Lru, e: Ref): Lru
    requires e in m.nodes
    requires m.nodes[e].prev == NULL || m.nodes[e].prev in m.nodes
    requires m.nodes[e].next == NULL || m.nodes[e].next in m.nodes
  {
    SetPrev(SetNext(m, m.nodes[e].prev, m.nodes[e].next), m.nodes[e].next, m.nodes[e].prev)
  }

  lemma UnlinkedNode(m: Lru, used: Stamps, e: Ref, x: Ref)
    requires ListOk(m, used) && e in used && x in used && x != e
    ensures Linked(m, used, e) && Linked(Unlinked(m, e), used - {e}, x)
  {
    assert Linked(m, used, e);
    assert Linked(m, used, x);
    var m', used' := Unlinked(m, e), used - {e};
    assert NextOk(m', used', x);
    assert PrevOk(m', used', x);
    assert NoneBetween(m', used', x);
  }

  lemma UnlinkedOk(m: Lru, used: Stamps, e: Ref)
    requires ListOk(m, used) && e in used
    ensures Linked(m, used, e) && ListOk(Unlinked(m, e), used - {e})
  {
    assert Linked(m, used, e);
    var m', used' := Unlinked(m, e), used - {e};
    assert EndsOk(m', used');
    forall x
      ensures Linked(m', used', x)
    {
      if x in used' {
        UnlinkedNode(m, used, e, x);
      }
    }
  }

  function Pushed(m: Lru, e: Ref): Lru
    requires e in m.nodes && (m.head == NULL || m.head in m.nodes)
  {
    var m1 := m.(nodes := m.nodes[e := m.nodes[e].(prev := NULL, next := m.head)]);
    var m2 := if m.head != NULL then m1.(nodes := m1.nodes[m.head := m1.nodes[m.head].(prev := e)]) else m1;
    m2.(head := e, tail := if m.tail == NULL then e else m.tail)
  }

  lemma PushedNode(m: Lru, used: Stamps, e: Ref, now: nat, x: Ref)
    requires ListOk(m, used) && e in m.nodes && e !in used && e != NULL && (x == e || x in used)
    requires forall y {:trigger used[y]} :: y in used ==> used[y] < now
    ensures Linked(Pushed(m, e), used[e := now], x)
  {
    assert Linked(m, used, m.head);
    assert Linked(m, used, x);
    var m', used' := Pushed(m, e), used[e := now];
    assert NextOk(m', used', x);
    assert PrevOk(m', used', x);
    assert NoneBetween(m', used', x);
  }

  lemma PushedOk(m: Lru, used: Stamps, e: Ref, now: nat)
    requires ListOk(m, used) && e in m.nodes && e !in used && e != NULL
    requires forall x {:trigger used[x]} :: x in used ==> used[x] < now
    ensures ListOk(Pushed(m, e), used[e := now])
  {
    var m', used' := Pushed(m, e), used[e := now];
    assert EndsOk(m', used');
    forall x
      ensures Linked(m', used', x)
    {
      if x in used' {
        PushedNode(m, used, e, now, x);
      }
    }
  }

  /** Other fields of a node do not matter to the list. */
  lemma ListFrame(m: Lru, m': Lru, used: Stamps)
    requires ListOk(m, used) && m'.head == m.head && m'.tail == m.tail && used.Keys <= m'.nodes.Keys
    requires forall e {:trigger m'.nodes[e]} :: e in used ==>
      m'.nodes[e].prev == m.nodes[e].prev && m'.nodes[e].next == m.nodes[e].next
    ensures ListOk(m', used)
  {
    forall e
      ensures Linked(m', used, e)
    {
      assert Linked(m, used, e);
    }
  }

  // ---------------------------------------------------------------------------
  // The hash chains

  ghost predicate InBucket(nodes: Nodes, born: Stamps, b: nat, x: Ref) {
    x in born && x in nodes && Bucket(nodes[x].hash) == b
  }

  /** The head of a chain is the entry that came last. */
  ghost predicate HeadOk(nodes: Nodes, heads: seq<Ref>, born: Stamps, b: nat)
    requires |heads| == BUCKETS
  {
    b < BUCKETS ==>
      if heads[b] == NULL then forall x {:trigger InBucket(nodes, born, b, x)} :: !InBucket(nodes, born, b, x)
      else InBucket(nodes, born, b, heads[b])
           && forall x {:trigger born[x]} :: InBucket(nodes, born, b, x) ==> born[x] <= born[heads[b]]
  }

  /** The chain goes on with the entry of the bucket that came next before e. */
  ghost predicate Chained(nodes: Nodes, born: Stamps, e: Ref)
    requires born.Keys <= nodes.Keys
  {
    e in born ==>
      var h, b := nodes[e].hnext, Bucket(nodes[e].hash);
      if h == NULL then forall x {:trigger born[x]} :: InBucket(nodes, born, b, x) ==> born[x] >= born[e]
      else InBucket(nodes, born, b, h) && born[h] < born[e]
           && forall x {:trigger born[x]} :: InBucket(nodes, born, b, x) && born[x] < born[e] ==> born[x] <= born[h]
  }

  ghost predicate TableOk(nodes: Nodes, heads: seq<Ref>, born: Stamps) {
    && |heads| == BUCKETS && born.Keys <= nodes.Keys && NULL !in born && Distinct(born)
    && (forall b {:trigger HeadOk(nodes, heads, born, b)} :: HeadOk(nodes, heads, born, b))
    && (forall e {:trigger Chained(nodes, born, e)} :: Chained(nodes, born, e))
  }

  lemma TableFrame(nodes: Nodes, nodes': Nodes, heads: seq<Ref>, born: Stamps)
    requires TableOk(nodes, heads, born) && born.Keys <= nodes'.Keys
    requires forall e {:trigger nodes'[e]} :: e in born ==>
      nodes'[e].hash == nodes[e].hash && nodes'[e].hnext == nodes[e].hnext
    ensures TableOk(nodes', heads, born)
  {
    assert forall b: nat, x {:trigger InBucket(nodes', born, b, x)} :: InBucket(nodes', born, b, x) <==> InBucket(nodes, born, b, x);
    forall b
      ensures HeadOk(nodes', heads, born, b)
    {
      assert HeadOk(nodes, heads, born, b);
    }
    forall e
      ensures Chained(nodes', born, e)
    {
      assert Chained(nodes, born, e);
    }
  }

  lemma InsertedOk(nodes: Nodes, heads: seq<Ref>, born: Stamps, e: Ref, node: Node, now: nat)
    requires TableOk(nodes, heads, born) && e !in nodes && e != NULL
    requires node.hnext == heads[Bucket(node.hash)]
    requires forall x {:trigger born[x]} :: x in born ==> born[x] < now
    ensures TableOk(nodes[e := node], heads[Bucket(node.hash) := e], born[e := now])
  {
    var nodes', heads', born' := nodes[e := node], heads[Bucket(node.hash) := e], born[e := now];
    assert HeadOk(nodes, heads, born, Bucket(node.hash));
    assert forall b: nat, x {:trigger InBucket(nodes', born', b, x)} :: InBucket(nodes', born', b, x) ==> x == e || InBucket(nodes, born, b, x);
    forall b
      ensures HeadOk(nodes', heads', born', b)
    {
      assert HeadOk(nodes, heads, born, b);
    }
    forall x
      ensures Chained(nodes', born', x)
    {
      assert Chained(nodes, born, x);
      assert InBucket(nodes', born', Bucket(node.hash), e);
    }
  }

  /** Only one entry, or the bucket itself, points at e. */
  lemma OnePredecessor(nodes: Nodes, heads: seq<Ref>, born: Stamps, e: Ref, q: Ref, x: Ref)
    requires TableOk(nodes, heads, born) && e in born && q in born && x in born
    requires nodes[q].hnext == e && nodes[x].hnext == e
    ensures q == x
  {
    assert Chained(nodes, born, q);
    assert Chained(nodes, born, x);
    assert born[x] != born[q] ==> x != q;
  }

  lemma HeadHasNoPredecessor(nodes: Nodes, heads: seq<Ref>, born: Stamps, e: Ref, x: Ref)
    requires TableOk(nodes, heads, born) && e in born && x in born && e == heads[Bucket(nodes[e].hash)]
    ensures nodes[x].hnext != e
  {
    assert Chained(nodes, born, x);
    assert HeadOk(nodes, heads, born, Bucket(nodes[e].hash));
  }

  /** The chain without its head. */
  lemma RemovedHead(nodes: Nodes, heads: seq<Ref>, born: Stamps, e: Ref)
    requires TableOk(nodes, heads, born) && e in born && e == heads[Bucket(nodes[e].hash)]
    ensures TableOk(nodes, heads[Bucket(nodes[e].hash) := nodes[e].hnext], born - {e})
  {
    var b := Bucket(nodes[e].hash);
    var heads', born' := heads[b := nodes[e].hnext], born - {e};
    assert Chained(nodes, born, e);
    assert HeadOk(nodes, heads, born, b);
    forall c
      ensures HeadOk(nodes, heads', born', c)
    {
      assert HeadOk(nodes, heads, born, c);
      assert forall x {:trigger InBucket(nodes, born', c, x)} :: InBucket(nodes, born', c, x) ==> InBucket(nodes, born, c, x);
    }
    forall x
      ensures Chained(nodes, born', x)
    {
      assert Chained(nodes, born, x);
      if x in born' {
        HeadHasNoPredecessor(nodes, heads, born, e, x);
      }
    }
  }

  /** The chain without an entry after q. */
  lemma RemovedInside(nodes: Nodes, heads: seq<Ref>, born: Stamps, e: Ref, q: Ref)
    requires TableOk(nodes, heads, born) && e in born && q in born && nodes[q].hnext == e
    ensures TableOk(nodes[q := nodes[q].(hnext := nodes[e].hnext)], heads, born - {e})
  {
    var nodes', born' := nodes[q := nodes[q].(hnext := nodes[e].hnext)], born - {e};
    assert Chained(nodes, born, e);
    assert Chained(nodes, born, q);
    forall c
      ensures HeadOk(nodes', heads, born', c)
    {
      assert HeadOk(nodes, heads, born, c);
      assert forall x {:trigger InBucket(nodes', born', c, x)} :: InBucket(nodes', born', c, x) ==> InBucket(nodes, born, c, x);
    }
    forall x
      ensures Chained(nodes', born', x)
    {
      assert Chained(nodes, born, x);
      if x in born' && nodes[x].hnext == e {
        OnePredecessor(nodes, heads, born, e, q, x);
      }
    }
  }

  // ---------------------------------------------------------------------------
  // The cache

  ghost predicate PathsOk(nodes: Nodes, hashOf: string -> nat) {
    && (forall e {:trigger nodes[e].hash} :: e in nodes ==> nodes[e].hash == hashOf(nodes[e].path))
    && (forall e, f {:trigger nodes[e].path, nodes[f].path} ::
          e in nodes && f in nodes && nodes[e].path == nodes[f].path ==> e == f)
  }

  ghost predicate HasPath(nodes: Nodes, path: string) {
    exists e :: e in nodes && nodes[e].path == path
  }

  /** The same directory and handle; only users and pointers may differ. */
  ghost predicate SameHandle(a: Node, b: Node) {
    a.path == b.path && a.hash == b.hash && a.fd == b.fd
  }

  /** The same cells, up to the pointers of the list. */
  ghost predicate OnlyLinks(before: Nodes, after: Nodes) {
    && after.Keys == before.Keys
    && forall x {:trigger after[x]} :: x in after ==>
         SameHandle(after[x], before[x]) && after[x].refcount == before[x].refcount && after[x].hnext == before[x].hnext
  }

  /** The same cells, with one more user of e. */
  ghost predicate Pinned(before: Nodes, after: Nodes, e: Ref) {
    && after.Keys == before.Keys && e in after
    && forall x {:trigger after[x]} :: x in after ==>
         SameHandle(after[x], before[x]) && after[x].refcount == before[x].refcount + if x == e then 1 else 0
  }

  lemma SetUsersOk(nodes: Nodes, m: Lru, heads: seq<Ref>, used: Stamps, born: Stamps, hashOf: string -> nat, e: Ref, n: nat)
    requires m.nodes == nodes && e in nodes && ListOk(m, used) && TableOk(nodes, heads, born) && PathsOk(nodes, hashOf)
    ensures var nodes' := nodes[e := nodes[e].(refcount := n)];
            ListOk(Lru(nodes', m.head, m.tail), used) && TableOk(nodes', heads, born) && PathsOk(nodes', hashOf)
  {
    var nodes' := nodes[e := nodes[e].(refcount := n)];
    ListFrame(m, Lru(nodes', m.head, m.tail), used);
    TableFrame(nodes, nodes', heads, born);
  }

  lemma OnlyLinksTable(before: Nodes, after: Nodes, heads: seq<Ref>, born: Stamps)
    requires OnlyLinks(before, after) && TableOk(before, heads, born)
    ensures TableOk(after, heads, born)
  {
    TableFrame(before, after, heads, born);
  }

  lemma OnlyLinksOk(before: Nodes, after: Nodes, heads: seq<Ref>, born: Stamps, hashOf: string -> nat)
    requires OnlyLinks(before, after) && TableOk(before, heads, born) && PathsOk(before, hashOf)
    ensures TableOk(after, heads, born) && PathsOk(after, hashOf)
  {
    TableFrame(before, after, heads, born);
  }

  ghost predicate StampsOk(nodes: Nodes, used: Stamps, born: Stamps, count: nat, clock: nat) {
    && used.Keys == nodes.Keys && born.Keys == nodes.Keys && count == |nodes.Keys|
    && (forall x {:trigger used[x]} :: x in used ==> used[x] < clock)
    && (forall x {:trigger born[x]} :: x in born ==> born[x] < clock)
  }

  lemma Restamped(before: Nodes, after: Nodes, used: Stamps, born: Stamps, count: nat, clock: nat, e: Ref)
    requires StampsOk(before, used, born, count, clock) && e in before && after.Keys == before.Keys
    ensures (used - {e})[e := clock] == used[e := clock]
    ensures StampsOk(after, used[e := clock], born, count, clock + 1)
  {
  }

  lemma LinksTwice(a: Nodes, b: Nodes, c: Nodes)
    requires OnlyLinks(a, b) && OnlyLinks(b, c)
    ensures OnlyLinks(a, c)
  {
  }

  lemma PinnedAndMoved(a: Nodes, b: Nodes, c: Nodes, e: Ref)
    requires e in a && b == a[e := a[e].(refcount := a[e].refcount + 1)] && OnlyLinks(b, c)
    ensures Pinned(a, c, e) && SameHandle(c[e], a[e])
  {
    assert b[e].path == a[e].path;
  }

  /** An entry that stays keeps its handle and its users. */
  ghost predicate Kept(before: Nodes, after: Nodes) {
    && after.Keys <= before.Keys
    && forall x {:trigger after[x]} :: x in after ==> SameHandle(after[x], before[x]) && after[x].refcount == before[x].refcount
  }

  /** The same cells, up to the pointers of the hash chains. */
  ghost predicate OnlyChains(before: Nodes, after: Nodes) {
    && after.Keys == before.Keys
    && forall x {:trigger after[x]} :: x in after ==>
         SameHandle(after[x], before[x]) && after[x].refcount == before[x].refcount
         && after[x].prev == before[x].prev && after[x].next == before[x].next
  }

  lemma OnlyChainsOk(before: Nodes, after: Nodes, head: Ref, tail: Ref, used: Stamps)
    requires OnlyChains(before, after) && ListOk(Lru(before, head, tail), used)
    ensures ListOk(Lru(after, head, tail), used)
  {
    ListFrame(Lru(before, head, tail), Lru(after, head, tail), used);
  }

  /** Freeing a cell that neither the list nor a chain knows. */
  lemma FreedOk(nodes: Nodes, head: Ref, tail: Ref, heads: seq<Ref>, used: Stamps, born: Stamps, e: Ref)
    requires ListOk(Lru(nodes, head, tail), used) && TableOk(nodes, heads, born) && e !in used && e !in born
    ensures ListOk(Lru(nodes - {e}, head, tail), used) && TableOk(nodes - {e}, heads, born)
  {
    ListFrame(Lru(nodes, head, tail), Lru(nodes - {e}, head, tail), used);
    TableFrame(nodes, nodes - {e}, heads, born);
  }

  lemma FreedRest(nodes: Nodes, after: Nodes, used: Stamps, born: Stamps, count: nat, clock: nat, hashOf: string -> nat, e: Ref)
    requires StampsOk(nodes, used, born, count, clock) && PathsOk(nodes, hashOf) && e in nodes
    requires Kept(nodes, after) && after.Keys == nodes.Keys - {e}
    ensures count > 0 && StampsOk(after, used - {e}, born - {e}, count - 1, clock) && PathsOk(after, hashOf)
  {
  }

  lemma KeptAfter(a: Nodes, b: Nodes, c: Nodes, e: Ref)
    requires OnlyChains(a, b) && OnlyLinks(b, c)
    ensures Kept(a, c - {e}) && (c - {e}).Keys == a.Keys - {e}
  {
  }

  // ---------------------------------------------------------------------------
  // Eviction

  /** The entries of the victims are gone, the others are as before. */
  ghost predicate Without(before: Nodes, after: Nodes, victims: seq<Ref>) {
    && NoDup(victims) && Kept(before, after)
    && (forall x :: x in before <==> x in after || x in victims)
    && (forall x :: x in after ==> x !in victims)
  }

  /** Victims were unused, were used longer ago than every unused entry that stays, and come in that order. */
  ghost predicate LeastRecent(before: Nodes, used: Stamps, after: Nodes, victims: seq<Ref>) {
    && before.Keys <= used.Keys && Without(before, after, victims)
    && (forall v :: v in victims ==> before[v].refcount == 0)
    && (forall v, y :: v in victims && y in after && after[y].refcount == 0 ==> used[v] < used[y])
    && (forall i, j :: 0 <= i < j < |victims| ==> used[victims[i]] < used[victims[j]])
  }

  /** What eviction achieves: the bound, or nothing left that could go; and no more than necessary. */
  ghost predicate Evicted(before: Nodes, used: Stamps, after: Nodes, cap: nat, victims: seq<Ref>) {
    && LeastRecent(before, used, after, victims)
    && (|after.Keys| <= cap || forall x :: x in after ==> after[x].refcount > 0)
    && (victims != [] ==> |after.Keys| >= cap)
  }

  /** The handles of the victims. */
  ghost predicate Handles(nodes: Nodes, victims: seq<Ref>, fds: seq<int>) {
    |fds| == |victims| && forall i :: 0 <= i < |fds| ==> victims[i] in nodes && fds[i] == nodes[victims[i]].fd
  }

  lemma NoHandles(nodes: Nodes)
    ensures Handles(nodes, [], [])
  {
  }

  lemma OneMoreHandle(before: Nodes, after: Nodes, victims: seq<Ref>, fds: seq<int>, e: Ref)
    requires Handles(before, victims, fds) && e in before && e in after && after[e].fd == before[e].fd
    ensures Handles(before, victims + [e], fds + [after[e].fd])
  {
  }

  /** The scan from the tail has passed everything used before e. */
  ghost predicate Scanned(before: Nodes, used: Stamps, after: Nodes, e: Ref, victims: seq<Ref>) {
    && LeastRecent(before, used, after, victims)
    && (e != NULL ==> e in after)
    && (forall x :: x in after && (e == NULL || used[x] < used[e]) ==> after[x].refcount > 0)
    && (e != NULL ==> forall v :: v in victims ==> used[v] < used[e])
  }

  /** p is the entry used next after e. */
  ghost predicate NextUsed(used: Stamps, e: Ref, p: Ref) {
    && e in used
    && if p == NULL then forall x {:trigger used[x]} :: x in used ==> used[x] <= used[e]
       else p in used && used[e] < used[p] && forall x {:trigger used[x]} :: x in used && used[x] < used[p] ==> used[x] <= used[e]
  }

  lemma PrevIsNextUsed(m: Lru, used: Stamps, e: Ref)
    requires ListOk(m, used) && e in used
    ensures NextUsed(used, e, m.nodes[e].prev)
  {
    assert Linked(m, used, e);
    assert Linked(m, used, m.nodes[e].prev);
  }

  lemma ScanPast(before: Nodes, used: Stamps, after: Nodes, now: Stamps, e: Ref, p: Ref, victims: seq<Ref>)
    requires Scanned(before, used, after, e, victims) && e != NULL && after[e].refcount > 0
    requires now.Keys == after.Keys && NextUsed(now, e, p) && Distinct(now)
    requires forall x {:trigger now[x]} :: x in now ==> now[x] == used[x]
    ensures Scanned(before, used, after, p, victims)
  {
    forall x | x in after && (p == NULL || used[x] < used[p])
      ensures after[x].refcount > 0
    {
      assert now[x] == used[x] && now[e] == used[e];
      assert x != e ==> now[x] != now[e];
    }
  }

  lemma ScanDropOrder(before: Nodes, used: Stamps, after: Nodes, e: Ref, victims: seq<Ref>, after': Nodes)
    requires Scanned(before, used, after, e, victims) && e != NULL && after[e].refcount == 0
    requires Kept(after, after') && after'.Keys == after.Keys - {e} && Distinct(used)
    ensures LeastRecent(before, used, after', victims + [e])
  {
    var vs := victims + [e];
    assert forall v :: v in vs <==> v in victims || v == e;
    assert NoDup(vs);
    forall y | y in after' && after'[y].refcount == 0
      ensures used[e] < used[y]
    {
      assert after[y].refcount == 0 && used[y] >= used[e] && y != e;
    }
  }

  lemma ScanDrop(before: Nodes, used: Stamps, after: Nodes, now: Stamps, e: Ref, p: Ref, victims: seq<Ref>, after': Nodes)
    requires Scanned(before, used, after, e, victims) && e != NULL && after[e].refcount == 0
    requires Kept(after, after') && after'.Keys == after.Keys - {e} && Distinct(used)
    requires now.Keys == after.Keys && NextUsed(now, e, p)
    requires forall x {:trigger now[x]} :: x in now ==> now[x] == used[x]
    ensures Scanned(before, used, after', p, victims + [e])
  {
    ScanDropOrder(before, used, after, e, victims, after');
    forall x | x in after' && (p == NULL || used[x] < used[p])
      ensures after'[x].refcount > 0
    {
      assert now[x] == used[x] && now[e] == used[e] && x != e;
    }
    if p != NULL {
      assert now[p] == used[p] && now[e] == used[e];
    }
  }

  // ---------------------------------------------------------------------------
  // Insertion

  /** One entry more, the others as they were. */
  ghost predicate Added(before: Nodes, after: Nodes, e: Ref, path: string, fd: int) {
    && e !in before && after.Keys == before.Keys + {e}
    && after[e].path == path && after[e].fd == fd && after[e].refcount == 1
    && forall x {:trigger after[x]} :: x in before ==> SameHandle(after[x], before[x]) && after[x].refcount == before[x].refcount
  }

  lemma AddedCell(nodes: Nodes, head: Ref, tail: Ref, used: Stamps, e: Ref, node: Node)
    requires ListOk(Lru(nodes, head, tail), used) && e !in nodes
    ensures ListOk(Lru(nodes[e := node], head, tail), used)
  {
    ListFrame(Lru(nodes, head, tail), Lru(nodes[e := node], head, tail), used);
  }

  lemma AddedStamps(before: Nodes, after: Nodes, used: Stamps, born: Stamps, count: nat, clock: nat, e: Ref)
    requires StampsOk(before, used, born, count, clock) && e !in before && after.Keys == before.Keys + {e}
    ensures e !in used && StampsOk(after, used[e := clock], born[e := clock], count + 1, clock + 1)
  {
  }

  lemma AddedEntry(before: Nodes, node: Node, after: Nodes, e: Ref)
    requires e !in before && OnlyLinks(before[e := node], after) && node.refcount == 1
    ensures after.Keys == before.Keys + {e} && Added(before, after, e, node.path, node.fd) && SameHandle(after[e], node)
  {
    var between := before[e := node];
    assert between.Keys == before.Keys + {e};
    assert forall x {:trigger after[x]} :: x in before ==> between[x] == before[x];
  }

  lemma AddedPaths(before: Nodes, after: Nodes, hashOf: string -> nat, e: Ref, path: string, fd: int)
    requires PathsOk(before, hashOf) && Added(before, after, e, path, fd) && !HasPath(before, path)
    requires after[e].hash == hashOf(path)
    ensures PathsOk(after, hashOf)
  {
    forall x, y | x in after && y in after && after[x].path == after[y].path
      ensures x == y
    {
      assert x in before ==> before[x].path == after[x].path;
      assert y in before ==> before[y].path == after[y].path;
    }
    assert forall x {:trigger after[x].hash} :: x in before ==> after[x].hash == before[x].hash;
  }

  class Cache {
    const cap: nat
    const hashOf: string -> nat
    const buckets: array<Ref>
    var nodes: Nodes
    var head: Ref
    var tail: Ref
    var count: nat
    ghost var used: Stamps
    ghost var born: Stamps
    ghost var clock: nat

    ghost function List(): Lru
      reads this
    {
      Lru(nodes, head, tail)
    }

    ghost predicate Valid()
      reads this, buckets
    {
      && buckets.Length == BUCKETS && StampsOk(nodes, used, born, count, clock) && PathsOk(nodes, hashOf)
      && ListOk(List(), used) && TableOk(nodes, buckets[..], born)
    }

    constructor (cap: nat, hashOf: string -> nat)
      ensures Valid() && nodes == map[] && this.cap == cap && this.hashOf == hashOf
    {
      this.cap, this.hashOf := cap, hashOf;
      nodes, head, tail, count := map[], NULL, NULL, 0;
      buckets := new Ref[BUCKETS](i => NULL);
      used, born, clock := map[], map[], 0;
    }

    method LruUnlink(e: Ref)
      requires ListOk(List(), used) && e in used
      modifies this`nodes, this`head, this`tail, this`used
      ensures used == old(used) - {e} && ListOk(List(), used) && OnlyLinks(old(nodes), nodes)
    {
      UnlinkedOk(List(), used, e);
      var p, n := nodes[e].prev, nodes[e].next;
      if p != NULL {
        nodes := nodes[p := nodes[p].(next := n)];
      } else {
        head := n;
      }
      if n != NULL {
        nodes := nodes[n := nodes[n].(prev := p)];
      } else {
        tail := p;
      }
      used := used - {e};
    }

    method LruPushFront(e: Ref)
      requires ListOk(List(), used) && e in nodes && e !in used && e != NULL
      requires forall x {:trigger used[x]} :: x in used ==> used[x] < clock
      modifies this`nodes, this`head, this`tail, this`used, this`clock
      ensures used == old(used)[e := old(clock)] && clock == old(clock) + 1
      ensures ListOk(List(), used) && OnlyLinks(old(nodes), nodes)
    {
      PushedOk(List(), used, e, clock);
      nodes := nodes[e := nodes[e].(prev := NULL, next := head)];
      if head != NULL {
        nodes := nodes[head := nodes[head].(prev := e)];
      }
      head := e;
      if tail == NULL {
        tail := e;
      }
      used, clock := used[e := clock], clock + 1;
    }

    method Find(path: string, hash: nat) returns (e: Ref)
      requires Valid() && hash == hashOf(path)
      ensures e == NULL <==> !HasPath(nodes, path)
      ensures e != NULL ==> e in nodes && nodes[e].path == path
    {
      var b := Bucket(hash);
      e := buckets[b];
      assert HeadOk(nodes, buckets[..], born, b);
      while e != NULL
        invariant e == NULL || InBucket(nodes, born, b, e)
        invariant forall x {:trigger InBucket(nodes, born, b, x)} :: InBucket(nodes, born, b, x) && nodes[x].path == path ==>
          e != NULL && born[x] <= born[e]
        decreases if e == NULL then 0 else born[e] + 1
      {
        if nodes[e].hash == hash && nodes[e].path == path {
          return;
        }
        assert Chained(nodes, born, e);
        e := nodes[e].hnext;
      }
      if HasPath(nodes, path) {
        var x :| x in nodes && nodes[x].path == path;
        assert InBucket(nodes, born, b, x);
      }
    }

    method SetUsers(e: Ref, n: nat)
      requires Valid() && e in nodes
      modifies this`nodes
      ensures Valid() && nodes == old(nodes)[e := old(nodes)[e].(refcount := n)]
    {
      SetUsersOk(nodes, List(), buckets[..], used, born, hashOf, e, n);
      nodes := nodes[e := nodes[e].(refcount := n)];
    }

    /** The entry becomes the most recently used one. */
    method Promote(e: Ref)
      requires Valid() && e in nodes
      modifies this
      ensures Valid() && OnlyLinks(old(nodes), nodes) && used == old(used)[e := old(clock)] && born == old(born)
    {
      hide ListOk, TableOk, PathsOk, OnlyLinks;
      ghost var before := nodes;
      LruUnlink(e);
      ghost var between := nodes;
      OnlyLinksOk(before, between, buckets[..], born, hashOf);
      LruPushFront(e);
      OnlyLinksOk(between, nodes, buckets[..], born, hashOf);
      LinksTwice(before, between, nodes);
      Restamped(before, nodes, old(used), born, count, old(clock), e);
      hide StampsOk;
    }

    /** Look-up: the entry found gets one more user and becomes the most recently used. */
    method LookupPin(path: string, hash: nat) returns (e: Ref)
      requires Valid() && hash == hashOf(path)
      modifies this
      ensures Valid() && born == old(born) && (e == NULL <==> !HasPath(old(nodes), path))
      ensures e == NULL ==> nodes == old(nodes) && used == old(used) && clock == old(clock)
      ensures e != NULL ==> Pinned(old(nodes), nodes, e) && nodes[e].path == path && used == old(used)[e := old(clock)]
    {
      hide ListOk, TableOk, PathsOk, StampsOk, OnlyLinks, Pinned;
      e := Find(path, hash);
      if e != NULL {
        SetUsers(e, nodes[e].refcount + 1);
        ghost var between := nodes;
        Promote(e);
        PinnedAndMoved(old(nodes), between, nodes, e);
      }
    }

    /** A user lets go of a handle. */
    method Release(e: Ref)
      requires Valid() && e in nodes
      modifies this`nodes
      ensures Valid()
      ensures old(nodes)[e].refcount == 0 ==> nodes == old(nodes)
      ensures old(nodes)[e].refcount > 0 ==> nodes == old(nodes)[e := old(nodes)[e].(refcount := old(nodes)[e].refcount - 1)]
    {
      hide *;
      if nodes[e].refcount > 0 {
        SetUsers(e, nodes[e].refcount - 1);
      }
    }

    /** Takes an entry out of its hash chain. */
    method RemoveFromChain(e: Ref)
      requires buckets.Length == BUCKETS && TableOk(nodes, buckets[..], born) && e in born
      modifies this`nodes, this`born, buckets
      ensures TableOk(nodes, buckets[..], born) && born == old(born) - {e} && OnlyChains(old(nodes), nodes)
    {
      var b := Bucket(nodes[e].hash);
      var q, cur := NULL, buckets[b];
      assert HeadOk(nodes, buckets[..], born, b) && InBucket(nodes, born, b, e);
      while cur != NULL && cur != e
        invariant InBucket(nodes, born, b, cur) && born[e] <= born[cur]
        invariant q == NULL ==> cur == buckets[b]
        invariant q != NULL ==> q in born && nodes[q].hnext == cur
        decreases born[cur]
      {
        assert Chained(nodes, born, cur);
        q, cur := cur, nodes[cur].hnext;
      }
      if cur != NULL {
        if q == NULL {
          RemovedHead(nodes, buckets[..], born, e);
          ghost var heads := buckets[..][b := nodes[e].hnext];
          buckets[b] := nodes[e].hnext;
          assert buckets[..] == heads;
        } else {
          RemovedInside(nodes, buckets[..], born, e, q);
          nodes := nodes[q := nodes[q].(hnext := nodes[e].hnext)];
        }
      }
      born := born - {e};
    }

    /** Unlinks, closes and frees one entry. */
    method Drop(e: Ref)
      requires Valid() && e in nodes
      modifies this, buckets
      ensures Valid() && Kept(old(nodes), nodes) && nodes.Keys == old(nodes).Keys - {e}
      ensures used == old(used) - {e} && clock == old(clock) && count == old(count) - 1
    {
      hide ListOk, TableOk, PathsOk, OnlyLinks, OnlyChains, StampsOk, Kept;
      ghost var before := nodes;
      DropDomain(e);
      RemoveFromChain(e);
      ghost var between := nodes;
      OnlyChainsOk(before, between, head, tail, used);
      LruUnlink(e);
      OnlyLinksTable(between, nodes, buckets[..], born);
      FreedOk(nodes, head, tail, buckets[..], used, born, e);
      KeptAfter(before, between, nodes, e);
      nodes := nodes - {e};
      FreedRest(before, nodes, old(used), old(born), count, clock, hashOf, e);
      count := count - 1;
    }

    lemma DropDomain(e: Ref)
      requires Valid() && e in nodes
      ensures e in used && e in born
    {
    }

    lemma StampFacts(e: Ref)
      requires Valid()
      ensures buckets.Length == BUCKETS && ListOk(List(), used) && TableOk(nodes, buckets[..], born)
      ensures StampsOk(nodes, used, born, count, clock) && PathsOk(nodes, hashOf)
      ensures e !in nodes ==> e !in used
      ensures forall x {:trigger used[x]} :: x in used ==> used[x] < clock
      ensures forall x {:trigger born[x]} :: x in born ==> born[x] < clock
    {
    }

    /** A new entry with one user, at the front of its chain and of the list. */
    method Insert(path: string, hash: nat, fd: int, e: Ref)
      requires Valid() && hash == hashOf(path) && e !in nodes && e != NULL && !HasPath(nodes, path)
      modifies this, buckets
      ensures Valid() && Added(old(nodes), nodes, e, path, fd) && used == old(used)[e := old(clock)]
    {
      hide ListOk, TableOk, PathsOk, StampsOk, OnlyLinks, Added, HasPath;
      StampFacts(e);
      ghost var before := nodes;
      var b := Bucket(hash);
      var node := Node(path, hash, fd, 1, buckets[b], NULL, NULL);
      InsertedOk(nodes, buckets[..], born, e, node, clock);
      AddedCell(nodes, head, tail, used, e, node);
      ghost var heads := buckets[..][b := e];
      nodes := nodes[e := node];
      buckets[b] := e;
      assert buckets[..] == heads;
      born := born[e := clock];
      ghost var between := nodes;
      LruPushFront(e);
      OnlyLinksTable(between, nodes, buckets[..], born);
      AddedEntry(before, node, nodes, e);
      AddedPaths(before, nodes, hashOf, e, path, fd);
      AddedStamps(before, nodes, old(used), old(born), count, old(clock), e);
      count := count + 1;
    }

    /** What the scan needs to know about the valid cache. */
    lemma ScanFacts(e: Ref)
      requires Valid() && e in nodes
      ensures used.Keys == nodes.Keys && Distinct(used) && NextUsed(used, e, nodes[e].prev) && used[e] < clock
    {
      PrevIsNextUsed(List(), used, e);
    }

    lemma ScanStart()
      requires Valid()
      ensures used.Keys == nodes.Keys && count == |nodes.Keys| && Distinct(used)
      ensures Scanned(nodes, used, nodes, tail, [])
    {
      assert Linked(List(), used, tail);
    }

    lemma Counted()
      requires Valid()
      ensures count == |nodes.Keys|
    {
    }

    /** Closes unused entries, least recently used first, until the cache is within its bound. */
    method Evict() returns (closed: seq<int>, ghost victims: seq<Ref>)
      requires Valid()
      modifies this, buckets
      ensures Valid() && Evicted(old(nodes), old(used), nodes, cap, victims)
      ensures Handles(old(nodes), victims, closed)
      ensures StampsKept(old(used), used) && clock == old(clock)
    {
      hide Valid, Scanned, LeastRecent, Kept, NextUsed, Distinct, Handles, Evicted;
      NoHandles(nodes);
      ghost var before, stamps := nodes, used;
      ScanStart();
      closed, victims := [], [];
      var e := tail;
      while count > cap && e != NULL
        invariant Valid() && Scanned(before, stamps, nodes, e, victims) && Distinct(stamps)
        invariant used.Keys == nodes.Keys && StampsKept(stamps, used) && clock == old(clock)
        invariant Handles(before, victims, closed)
        invariant victims != [] ==> count >= cap
        decreases if e != NULL && e in used && used[e] < clock then clock - used[e] else 0
      {
        InScan(before, stamps, nodes, e, victims);
        ScanFacts(e);
        var p := nodes[e].prev;
        NextUsedLater(used, e, p);
        if nodes[e].refcount == 0 {
          ghost var was, now := nodes, used;
          OneMoreHandle(before, nodes, victims, closed, e);
          closed := closed + [nodes[e].fd];
          Drop(e);
          ScanDrop(before, stamps, was, now, e, p, victims, nodes);
          victims := victims + [e];
        } else {
          ScanPast(before, stamps, nodes, used, e, p, victims);
        }
        if p != NULL {
          InScan(before, stamps, nodes, p, victims);
          ScanFacts(p);
        }
        e := p;
      }
      Counted();
      ScanEnd(before, stamps, nodes, e, cap, victims);
    }

    /**
     Second lock hold of an acquisition, after the directory was opened as fd: somebody else
     may have been faster. slot is what malloc returned. The entry returned is in use, so
     that the eviction that follows an insertion cannot close it.
     */
    method Store(path: string, hash: nat, fd: int, slot: Ref)
      returns (e: Ref, closed: seq<int>, ghost full: Nodes, ghost stamps: Stamps, ghost victims: seq<Ref>)
      requires Valid() && hash == hashOf(path) && slot !in nodes
      modifies this, buckets
      ensures Valid()
      ensures e == NULL <==> !HasPath(old(nodes), path) && slot == NULL
      ensures e != NULL ==> e in nodes && nodes[e].path == path && nodes[e].refcount > 0
      ensures HasPath(old(nodes), path) ==> Pinned(old(nodes), nodes, e) && closed == [fd] && used == old(used)[e := old(clock)]
      ensures !HasPath(old(nodes), path) && slot != NULL ==>
                Added(old(nodes), full, e, path, fd) && stamps == old(used)[e := old(clock)] && Evicted(full, stamps, nodes, cap, victims) && Handles(full, victims, closed) && StampsKept(stamps, used)
    {
      hide Valid, Pinned, Evicted, Added, HasPath, Handles;
      full, stamps, victims := nodes, used, [];
      e := LookupPin(path, hash);
      if e != NULL {
        closed := [fd];
        PinnedIsIn(full, nodes, e);
        return;
      }
      if slot == NULL {
        closed := [fd];
        return;
      }
      Insert(path, hash, fd, slot);
      e, full, stamps := slot, nodes, used;
      closed, victims := Evict();
      AddedStays(old(nodes), full, stamps, nodes, cap, victims, e, path, fd);
    }
  }

  /** The entries that are left were last used when they were before. */
  ghost predicate StampsKept(before: Stamps, after: Stamps) {
    forall x {:trigger after[x]} :: x in after ==> x in before && after[x] == before[x]
  }

  lemma PinnedIsIn(before: Nodes, after: Nodes, e: Ref)
    requires Pinned(before, after, e)
    ensures e in after && after[e].refcount > 0
  {
  }

  lemma AddedStays(before: Nodes, full: Nodes, used: Stamps, after: Nodes, cap: nat, victims: seq<Ref>, e: Ref, path: string, fd: int)
    requires Added(before, full, e, path, fd) && Evicted(full, used, after, cap, victims)
    ensures e in after && after[e].path == path && after[e].refcount > 0
  {
  }

  lemma InScan(before: Nodes, used: Stamps, after: Nodes, e: Ref, victims: seq<Ref>)
    requires Scanned(before, used, after, e, victims) && e != NULL
    ensures e in after && e in before && after[e].fd == before[e].fd
  {
  }

  lemma NextUsedLater(used: Stamps, e: Ref, p: Ref)
    requires NextUsed(used, e, p)
    ensures e in used && (p != NULL ==> p in used && used[e] < used[p])
  {
  }

  lemma ScanEnd(before: Nodes, used: Stamps, after: Nodes, e: Ref, cap: nat, victims: seq<Ref>)
    requires Scanned(before, used, after, e, victims) && (|after.Keys| <= cap || e == NULL)
    requires victims != [] ==> |after.Keys| >= cap
    ensures Evicted(before, used, after, cap, victims)
  {
  }
}
