/**
 Safety of the large-file pipeline over all runs: buffers are conserved, every data byte
 is claimed once, and the destination only ever holds source bytes or the zeros it began with.
 */
module PipelineSafety {
  import opened Machine
  import opened Counting
  import opened Extents
  import opened Pipeline

  // ---------------------------------------------------------------------------
  // Buffers: each is on the free list, on the ready list, or in one thread's batch

  function RBatch(r: Reader): seq<int> { if r.RReading? then r.batch else [] }

  function WBatch(w: Writer): seq<int> { if w.WWriting? then w.batch else [] }

  /** The list l holds, each once, exactly the buffers whose owner is o. */
  ghost predicate Holds(owner: seq<Owner>, l: seq<int>, o: Owner) {
    && NoDup(l)
    && (forall id :: id in l ==> 0 <= id < |owner|)
    && (forall id :: 0 <= id < |owner| ==> (owner[id] == o <==> id in l))
  }

  ghost predicate Shape(c: Config, s: State) {
    && |s.bufs| == |s.owner| == c.inflight
    && |s.readers| == c.readers && |s.writers| == c.writers
    && |s.dst| == |s.fate| == |c.src|
  }

  ghost predicate Conserved(s: State) {
    && Holds(s.owner, s.free, OFree)
    && Holds(s.owner, s.ready, OReady)
    && (forall t :: 0 <= t < |s.readers| ==> Holds(s.owner, RBatch(s.readers[t]), OReader(t)))
    && (forall t :: 0 <= t < |s.writers| ==> Holds(s.owner, WBatch(s.writers[t]), OWriter(t)))
    && (forall id :: 0 <= id < |s.owner| ==>
          (s.owner[id].OReader? ==> s.owner[id].t < |s.readers|) &&
          (s.owner[id].OWriter? ==> s.owner[id].t < |s.writers|))
  }

  /** Lists of other owners are untouched when a batch moves from one owner to another. */
  lemma HoldsOther(owner: seq<Owner>, batch: seq<int>, from: Owner, to: Owner, l: seq<int>, o: Owner)
    requires forall id :: id in batch ==> 0 <= id < |owner| && owner[id] == from
    requires Holds(owner, l, o) && o != from && o != to
    ensures Holds(Reassign(owner, batch, to), l, o)
  {
  }

  lemma HoldsJoin(owner: seq<Owner>, batch: seq<int>, from: Owner, l: seq<int>, to: Owner)
    requires Holds(owner, batch, from) && Holds(owner, l, to) && from != to
    ensures Holds(Reassign(owner, batch, to), l + batch, to)
    ensures Holds(Reassign(owner, batch, to), [], from)
  {
    forall i, j | 0 <= i < j < |l + batch|
      ensures (l + batch)[i] != (l + batch)[j]
    {
      if i < |l| <= j {
        assert l[i] in l && batch[j - |l|] in batch;
      }
    }
  }

  lemma HoldsSplit(owner: seq<Owner>, l: seq<int>, n: nat, from: Owner, to: Owner)
    requires Holds(owner, l, from) && Holds(owner, [], to) && from != to && n <= |l|
    ensures Holds(Reassign(owner, l[..n], to), l[n..], from)
    ensures Holds(Reassign(owner, l[..n], to), l[..n], to)
  {
    var r := Reassign(owner, l[..n], to);
    assert forall id :: id in l[n..] ==> id in l;
    assert forall id :: id in l[..n] ==> id in l;
    assert l == l[..n] + l[n..];
    forall id | 0 <= id < |owner|
      ensures r[id] == from <==> id in l[n..]
    {
      assert !(id in l[..n] && id in l[n..]);
    }
  }

  /** A batch moves between a thread and a list, or the other way round. */
  lemma MoveKeepsOthers(s: State, batch: seq<int>, from: Owner, to: Owner)
    requires Conserved(s) && from != to
    requires forall id :: id in batch ==> 0 <= id < |s.owner| && s.owner[id] == from
    ensures var r := Reassign(s.owner, batch, to);
            && (from != OFree && to != OFree ==> Holds(r, s.free, OFree))
            && (from != OReady && to != OReady ==> Holds(r, s.ready, OReady))
            && (forall t :: 0 <= t < |s.readers| && from != OReader(t) && to != OReader(t) ==>
                  Holds(r, RBatch(s.readers[t]), OReader(t)))
            && (forall t :: 0 <= t < |s.writers| && from != OWriter(t) && to != OWriter(t) ==>
                  Holds(r, WBatch(s.writers[t]), OWriter(t)))
  {
    if from != OFree && to != OFree {
      HoldsOther(s.owner, batch, from, to, s.free, OFree);
    }
    if from != OReady && to != OReady {
      HoldsOther(s.owner, batch, from, to, s.ready, OReady);
    }
    forall t | 0 <= t < |s.readers| && from != OReader(t) && to != OReader(t)
      ensures Holds(Reassign(s.owner, batch, to), RBatch(s.readers[t]), OReader(t))
    {
      HoldsOther(s.owner, batch, from, to, RBatch(s.readers[t]), OReader(t));
    }
    forall t | 0 <= t < |s.writers| && from != OWriter(t) && to != OWriter(t)
      ensures Holds(Reassign(s.owner, batch, to), WBatch(s.writers[t]), OWriter(t))
    {
      HoldsOther(s.owner, batch, from, to, WBatch(s.writers[t]), OWriter(t));
    }
  }

  /** Steps that move no buffer: only parking, waking and exiting of threads that hold none. */
  lemma PcOnlyConserved(s: State, s': State)
    requires Conserved(s)
    requires s'.free == s.free && s'.ready == s.ready && s'.owner == s.owner
    requires |s'.readers| == |s.readers| && |s'.writers| == |s.writers|
    requires forall t :: 0 <= t < |s.readers| ==> RBatch(s'.readers[t]) == RBatch(s.readers[t])
    requires forall t :: 0 <= t < |s.writers| ==> WBatch(s'.writers[t]) == WBatch(s.writers[t])
    ensures Conserved(s')
  {
  }

  lemma ClaimOneConserved(c: Config, s: State, t: nat)
    requires Shape(c, s) && Conserved(s) && s.free != [] && t < |s.readers| && s.readers[t].RReading?
    ensures s.free[0] in s.free && 0 <= s.free[0] < |s.bufs| && s.owner[s.free[0]] == OFree
    ensures Shape(c, ClaimOne(c, s, t)) && Conserved(ClaimOne(c, s, t))
  {
    var id := s.free[0];
    assert id in s.free;
    var s' := ClaimOne(c, s, t);
    assert s'.owner == Reassign(s.owner, [id], OReader(t));
    MoveKeepsOthers(s, [id], OFree, OReader(t));
    var b := s.readers[t].batch;
    assert RBatch(s.readers[t]) == b && RBatch(s'.readers[t]) == b + [id];
    assert id !in b;
    assert Holds(s'.owner, b + [id], OReader(t));
    assert s.free == [id] + s.free[1..];
    assert forall i :: i in s.free[1..] ==> i in s.free;
    assert Holds(s'.owner, s.free[1..], OFree);
    forall u | 0 <= u < |s'.readers|
      ensures Holds(s'.owner, RBatch(s'.readers[u]), OReader(u))
    {
    }
  }

  /** Reader t hands its batch over to owner `to`; nobody else's buffers change. */
  lemma ReaderLetsGo(c: Config, s: State, t: nat, to: Owner, s': State)
    requires Shape(c, s) && Conserved(s) && t < |s.readers| && s.readers[t].RReading? && (to == OFree || to == OReady)
    requires s'.owner == Reassign(s.owner, s.readers[t].batch, to)
    requires s'.free == if to == OFree then s.free + s.readers[t].batch else s.free
    requires s'.ready == if to == OReady then s.ready + s.readers[t].batch else s.ready
    requires |s'.readers| == |s.readers| && |s'.writers| == |s.writers|
    requires forall u :: 0 <= u < |s'.readers| ==> RBatch(s'.readers[u]) == if u == t then [] else RBatch(s.readers[u])
    requires forall u :: 0 <= u < |s'.writers| ==> WBatch(s'.writers[u]) == WBatch(s.writers[u])
    ensures Conserved(s')
  {
    var batch := s.readers[t].batch;
    assert RBatch(s.readers[t]) == batch;
    HoldsJoin(s.owner, batch, OReader(t), if to == OFree then s.free else s.ready, to);
    MoveKeepsOthers(s, batch, OReader(t), to);
    hide Holds;
  }

  lemma ReaderFinishConserved(c: Config, s0: State, t: nat, ok: bool, pick: Option<nat>)
    requires Shape(c, s0) && Conserved(s0) && ReaderCanFinish(s0, t, ok, pick)
    ensures Shape(c, DoReaderFinish(c, s0, t, ok, pick)) && Conserved(DoReaderFinish(c, s0, t, ok, pick))
  {
    var s, s' := ReaderMark(s0, ok), DoReaderFinish(c, s0, t, ok, pick);
    PcOnlyConserved(s0, s);
    hide Conserved, Holds;
    ReaderLetsGo(c, s, t, if s.failed then OFree else OReady, s');
  }

  lemma WriterEnterConserved(c: Config, s: State, t: nat)
    requires Shape(c, s) && Conserved(s) && WriterCanEnter(s, t)
    ensures Shape(c, DoWriterEnter(c, s, t)) && Conserved(DoWriterEnter(c, s, t))
  {
    var s1, s' := LeaveReadyWait(s, t), DoWriterEnter(c, s, t);
    if s1.ready == [] {
      PcOnlyConserved(s, s');
    } else {
      var n := TakeLen(c, s1);
      assert WBatch(s.writers[t]) == [];
      HoldsSplit(s.owner, s.ready, n, OReady, OWriter(t));
      assert forall id :: id in s.ready[..n] ==> id in s.ready;
      MoveKeepsOthers(s, s.ready[..n], OReady, OWriter(t));
      assert WBatch(s'.writers[t]) == s.ready[..n];
      forall u | 0 <= u < |s'.writers|
        ensures Holds(s'.owner, WBatch(s'.writers[u]), OWriter(u))
      {
      }
    }
  }

  /** Writer t returns its batch; nobody else's buffers change. */
  lemma WriterLetsGo(c: Config, s: State, t: nat, s': State)
    requires Shape(c, s) && Conserved(s) && t < |s.writers| && s.writers[t].WWriting?
    requires s'.owner == Reassign(s.owner, s.writers[t].batch, OFree)
    requires s'.free == s.free + s.writers[t].batch && s'.ready == s.ready
    requires |s'.readers| == |s.readers| && |s'.writers| == |s.writers|
    requires forall u :: 0 <= u < |s'.readers| ==> RBatch(s'.readers[u]) == RBatch(s.readers[u])
    requires forall u :: 0 <= u < |s'.writers| ==> WBatch(s'.writers[u]) == if u == t then [] else WBatch(s.writers[u])
    ensures Conserved(s')
  {
    var batch := s.writers[t].batch;
    assert WBatch(s.writers[t]) == batch;
    HoldsJoin(s.owner, batch, OWriter(t), s.free, OFree);
    MoveKeepsOthers(s, batch, OWriter(t), OFree);
    hide Holds;
  }

  lemma WriterReturnConserved(c: Config, s0: State, t: nat, ok: bool, pick: Option<nat>)
    requires Shape(c, s0) && Conserved(s0) && WriterCanReturn(s0, t, ok, pick)
    ensures Shape(c, DoWriterReturn(s0, t, ok, pick)) && Conserved(DoWriterReturn(s0, t, ok, pick))
  {
    var s, s' := ReaderMark(s0, ok), DoWriterReturn(s0, t, ok, pick);
    PcOnlyConserved(s0, s);
    hide Conserved, Holds;
    WriterLetsGo(c, s, t, s');
  }

  // ---------------------------------------------------------------------------
  // Content: what has become of every byte

  ghost predicate BufOk(c: Config, b: Buffer) {
    && 0 <= b.offset && 1 <= b.len <= c.chunk && b.offset + b.len <= c.bulkEnd
    && 0 <= b.written <= b.len
  }

  ghost predicate BuffersOk(c: Config, s: State)
    requires Shape(c, s) && c.bulkEnd <= |c.src|
  {
    && (forall id :: 0 <= id < |s.bufs| && s.owner[id] != OFree ==> BufOk(c, s.bufs[id]))
    && (forall id :: 0 <= id < |s.bufs| && (s.owner[id] == OReady || s.owner[id].OReader?) ==> s.bufs[id].written == 0)
    && (forall id :: 0 <= id < |s.bufs| && (s.owner[id] == OReady || s.owner[id].OWriter?) ==>
          s.bufs[id].data == c.src[s.bufs[id].offset..s.bufs[id].offset + s.bufs[id].len])
  }

  /** A writer has written its batch up to the buffer it is at. */
  ghost predicate WriterAt(bufs: seq<Buffer>, w: Writer) {
    w.WWriting? ==>
      && w.i <= |w.batch|
      && (forall k :: 0 <= k < |w.batch| ==> 0 <= w.batch[k] < |bufs|)
      && (forall k :: 0 <= k < w.i ==> bufs[w.batch[k]].written == bufs[w.batch[k]].len)
      && (forall k :: w.i < k < |w.batch| ==> bufs[w.batch[k]].written == 0)
      && (w.i < |w.batch| ==> bufs[w.batch[w.i]].written < bufs[w.batch[w.i]].len)
  }

  /** The bytes that buffer id still has to deliver. */
  ghost predicate Pending(s: State, id: int, p: int)
    requires |s.owner| == |s.bufs|
  {
    && 0 <= id < |s.bufs| && s.owner[id] != OFree
    && s.bufs[id].offset + s.bufs[id].written <= p < s.bufs[id].offset + s.bufs[id].len
  }

  ghost predicate Content(c: Config, s: State)
    requires Shape(c, s) && c.bulkEnd <= |c.src|
  {
    && CursorOk(c.layout, c.bulkEnd, s.cursor)
    && (forall p :: 0 <= p < |s.fate| ==> s.dst[p] == if s.fate[p] == Written then c.src[p] else 0)
    && (forall p :: 0 <= p < |s.fate| ==> (s.fate[p] == Untouched <==> !(Data(c, p) && p < s.cursor.offset)))
    && (forall p :: 0 <= p < |s.fate| && s.fate[p].InFlight? ==> Pending(s, s.fate[p].id, p))
    && (forall id, p :: 0 <= p < |s.fate| && Pending(s, id, p) ==> s.fate[p] == InFlight(id))
    && (!s.failed ==> forall p :: 0 <= p < |s.fate| ==> s.fate[p] != Dropped)
  }

  ghost predicate WritersAt(s: State) {
    forall t :: 0 <= t < |s.writers| ==> WriterAt(s.bufs, s.writers[t])
  }

  /** A claim falls short of a buffer only where the data ends. */
  ghost predicate FullClaim(c: Config, e: Extent) {
    e.end - e.start == c.chunk || !Data(c, e.end)
  }

  /** The claims made so far: ascending chunks that cover exactly the data before the cursor. */
  ghost predicate ClaimsOk(c: Config, claims: seq<Extent>, offset: int) {
    && (forall i :: 0 <= i < |claims| ==>
          0 <= claims[i].start < claims[i].end <= offset && claims[i].end - claims[i].start <= c.chunk)
    && (forall i :: 0 <= i < |claims| ==> FullClaim(c, claims[i]))
    && (forall i, j :: 0 <= i < j < |claims| ==> claims[i].end <= claims[j].start)
    && (forall p :: Covers(claims, p) <==> Data(c, p) && p < offset)
  }

  ghost predicate Claimed(c: Config, s: State) {
    ClaimsOk(c, s.claims, s.cursor.offset)
  }

  ghost predicate Safe(c: Config, s: State)
    requires ConfigOk(c)
  {
    && Shape(c, s) && Conserved(s) && BuffersOk(c, s) && WritersAt(s)
    && Content(c, s) && Claimed(c, s)
  }

  lemma ClaimOneBuffers(c: Config, s: State, t: nat)
    requires ConfigOk(c) && Safe(c, s) && s.cursor.offset < c.bulkEnd
    requires s.free != [] && t < |s.readers| && s.readers[t].RReading?
    requires 0 <= s.free[0] < |s.bufs| && s.owner[s.free[0]] == OFree
    ensures Shape(c, ClaimOne(c, s, t)) && BuffersOk(c, ClaimOne(c, s, t)) && WritersAt(ClaimOne(c, s, t))
  {
    var s', id := ClaimOne(c, s, t), s.free[0];
    CursorFact(c, s);
    ClaimLengths(c, s.cursor);
    ClaimedBuffer(c, s, t);
    hide BuffersOk, Content, Claimed, ConfigOk, ClaimLen, NextCursor, Fill;
    forall u | 0 <= u < |s.writers|
      ensures WriterAt(s'.bufs, s'.writers[u])
    {
      assert WriterAt(s.bufs, s.writers[u]);
      assert Holds(s.owner, WBatch(s.writers[u]), OWriter(u));
      assert id !in WBatch(s.writers[u]);
    }
  }

  /** The buffer just claimed is in order, and the others are as they were. */
  lemma ClaimedBuffer(c: Config, s: State, t: nat)
    requires ConfigOk(c) && Shape(c, s) && BuffersOk(c, s) && CursorOk(c.layout, c.bulkEnd, s.cursor) && s.cursor.offset < c.bulkEnd
    requires s.free != [] && t < |s.readers| && s.readers[t].RReading? && 0 <= s.free[0] < |s.bufs|
    ensures Shape(c, ClaimOne(c, s, t)) && BuffersOk(c, ClaimOne(c, s, t))
  {
    ClaimLengths(c, s.cursor);
    hide CursorOk, NextCursor, ClaimLen, LayoutOk, Fill;
    assert forall id :: 0 <= id < |s.bufs| && s.owner[id] != OFree ==> BufOk(c, s.bufs[id]);
  }

  lemma ClaimOneContent(c: Config, s: State, t: nat)
    requires ConfigOk(c) && Safe(c, s) && s.cursor.offset < c.bulkEnd
    requires s.free != [] && t < |s.readers| && s.readers[t].RReading?
    requires 0 <= s.free[0] < |s.bufs| && s.owner[s.free[0]] == OFree
    requires Shape(c, ClaimOne(c, s, t))
    ensures Content(c, ClaimOne(c, s, t))
  {
    var s', id := ClaimOne(c, s, t), s.free[0];
    var off, len := s.cursor.offset, ClaimLen(c.layout, c.bulkEnd, c.chunk, s.cursor);
    ClaimOk(c.layout, c.bulkEnd, c.chunk, s.cursor);
    forall p | 0 <= p < |s'.fate|
      ensures s'.fate[p] == Untouched <==> !(Data(c, p) && p < s'.cursor.offset)
      ensures s'.dst[p] == if s'.fate[p] == Written then c.src[p] else 0
      ensures s'.fate[p].InFlight? ==> Pending(s', s'.fate[p].id, p)
    {
      assert s.fate[p] == Untouched <==> !(Data(c, p) && p < s.cursor.offset);
      assert off <= p < off + len ==> Data(c, p) && s.fate[p] == Untouched;
      if s.fate[p].InFlight? {
        assert Pending(s, s.fate[p].id, p);
      }
    }
    forall i, p | 0 <= p < |s'.fate| && Pending(s', i, p)
      ensures s'.fate[p] == InFlight(i)
    {
      if i != id {
        assert Pending(s, i, p);
      }
    }
  }

  lemma NextClaimFull(c: Config, claims: seq<Extent>, cur: Cursor)
    requires ConfigOk(c) && CursorOk(c.layout, c.bulkEnd, cur) && cur.offset < c.bulkEnd
    requires forall i :: 0 <= i < |claims| ==> FullClaim(c, claims[i])
    ensures var claims' := claims + [Extent(cur.offset, cur.offset + ClaimLen(c.layout, c.bulkEnd, c.chunk, cur))];
            forall i :: 0 <= i < |claims'| ==> FullClaim(c, claims'[i])
  {
    ClaimOk(c.layout, c.bulkEnd, c.chunk, cur);
    hide ConfigOk, CursorOk, ClaimLen, NextCursor;
  }

  lemma CoversSnoc(l: seq<Extent>, e: Extent, p: int)
    ensures Covers(l + [e], p) <==> Covers(l, p) || e.start <= p < e.end
  {
    var r := l + [e];
    if i :| 0 <= i < |l| && l[i].start <= p < l[i].end {
      assert r[i] == l[i];
    }
    if e.start <= p < e.end {
      assert r[|l|] == e;
    }
  }

  lemma NextClaimCovers(c: Config, claims: seq<Extent>, cur: Cursor, p: int)
    requires ConfigOk(c) && CursorOk(c.layout, c.bulkEnd, cur) && cur.offset < c.bulkEnd
    requires Covers(claims, p) <==> Data(c, p) && p < cur.offset
    ensures var claims' := claims + [Extent(cur.offset, cur.offset + ClaimLen(c.layout, c.bulkEnd, c.chunk, cur))];
            Covers(claims', p) <==> Data(c, p) && p < NextCursor(c.layout, c.bulkEnd, c.chunk, cur).offset
  {
    ClaimOk(c.layout, c.bulkEnd, c.chunk, cur);
    var len := ClaimLen(c.layout, c.bulkEnd, c.chunk, cur);
    CoversSnoc(claims, Extent(cur.offset, cur.offset + len), p);
    hide ConfigOk, CursorOk, ClaimLen, NextCursor, IsData, Covers;
  }

  lemma ClaimOneClaimed(c: Config, s: State, t: nat)
    requires ConfigOk(c) && Safe(c, s) && s.cursor.offset < c.bulkEnd
    requires s.free != [] && t < |s.readers| && s.readers[t].RReading?
    requires 0 <= s.free[0] < |s.bufs|
    ensures Claimed(c, ClaimOne(c, s, t))
  {
    CursorFact(c, s);
    hide Safe, ConfigOk;
    NextClaimed(c, s, t);
  }

  lemma CursorFact(c: Config, s: State)
    requires ConfigOk(c) && Safe(c, s)
    ensures CursorOk(c.layout, c.bulkEnd, s.cursor) && Claimed(c, s) && |s.owner| == |s.bufs|
  {
    hide Conserved, BuffersOk, WritersAt, Claimed;
  }

  lemma ClaimLengths(c: Config, cur: Cursor)
    requires ConfigOk(c) && CursorOk(c.layout, c.bulkEnd, cur) && cur.offset < c.bulkEnd
    ensures var len := ClaimLen(c.layout, c.bulkEnd, c.chunk, cur);
            1 <= len <= c.chunk && 0 <= cur.offset && cur.offset + len <= NextCursor(c.layout, c.bulkEnd, c.chunk, cur).offset
  {
    ClaimOk(c.layout, c.bulkEnd, c.chunk, cur);
  }

  lemma ClaimsInOrder(c: Config, claims: seq<Extent>, e: Extent, offset: int, offset': int)
    requires ClaimsOk(c, claims, offset) && 0 <= offset <= e.start < e.end <= offset' && e.end - e.start <= c.chunk
    ensures var l := claims + [e];
            && (forall i :: 0 <= i < |l| ==> 0 <= l[i].start < l[i].end <= offset' && l[i].end - l[i].start <= c.chunk)
            && (forall i, j :: 0 <= i < j < |l| ==> l[i].end <= l[j].start)
  {
    hide FullClaim, Data, Covers;
  }

  lemma NextClaims(c: Config, claims: seq<Extent>, cur: Cursor)
    requires ConfigOk(c) && ClaimsOk(c, claims, cur.offset) && CursorOk(c.layout, c.bulkEnd, cur) && cur.offset < c.bulkEnd
    ensures var e := Extent(cur.offset, cur.offset + ClaimLen(c.layout, c.bulkEnd, c.chunk, cur));
            ClaimsOk(c, claims + [e], NextCursor(c.layout, c.bulkEnd, c.chunk, cur).offset)
  {
    var e := Extent(cur.offset, cur.offset + ClaimLen(c.layout, c.bulkEnd, c.chunk, cur));
    var offset' := NextCursor(c.layout, c.bulkEnd, c.chunk, cur).offset;
    ClaimLengths(c, cur);
    hide FullClaim, ClaimLen, NextCursor, Data, Covers, ConfigOk, CursorOk;
    ClaimsInOrder(c, claims, e, cur.offset, offset');
    NextClaimFull(c, claims, cur);
    forall p
      ensures Covers(claims + [e], p) <==> Data(c, p) && p < offset'
    {
      NextClaimCovers(c, claims, cur, p);
    }
  }

  lemma NextClaimed(c: Config, s: State, t: nat)
    requires ConfigOk(c) && Claimed(c, s) && CursorOk(c.layout, c.bulkEnd, s.cursor) && s.cursor.offset < c.bulkEnd
    requires s.free != [] && t < |s.readers| && s.readers[t].RReading? && 0 <= s.free[0] < |s.bufs| == |s.owner|
    ensures Claimed(c, ClaimOne(c, s, t))
  {
    hide ClaimsOk, ClaimLen, NextCursor, ConfigOk, CursorOk;
    NextClaims(c, s.claims, s.cursor);
  }

  lemma ClaimOneSafe(c: Config, s: State, t: nat)
    requires ConfigOk(c) && Safe(c, s) && Sized(s) && t < |s.readers| && s.readers[t].RReading?
    requires s.free != [] && s.cursor.offset < c.bulkEnd
    ensures s.free[0] in s.free && Safe(c, ClaimOne(c, s, t)) && Sized(ClaimOne(c, s, t))
    ensures t < |ClaimOne(c, s, t).readers| && ClaimOne(c, s, t).readers[t].RReading?
  {
    ClaimOneConserved(c, s, t);
    ClaimOneBuffers(c, s, t);
    ClaimOneContent(c, s, t);
    ClaimOneClaimed(c, s, t);
    assert forall id :: id in s.free[1..] ==> id in s.free;
    hide Shape, Conserved, BuffersOk, WritersAt, Content, Claimed, Fill;
  }

  lemma {:induction false} ClaimUpToSafe(c: Config, s: State, t: nat, k: nat)
    requires ConfigOk(c) && Safe(c, s) && Sized(s) && t < |s.readers| && s.readers[t].RReading?
    ensures Safe(c, ClaimUpTo(c, s, t, k))
    decreases k
  {
    hide Safe, ClaimOne, ConfigOk;
    if k == 0 || s.free == [] || s.cursor.offset >= c.bulkEnd {
    } else {
      ClaimOneSafe(c, s, t);
      ClaimUpToSafe(c, ClaimOne(c, s, t), t, k - 1);
    }
  }

  // ---------------------------------------------------------------------------
  // Every step keeps the invariant

  /** Steps that only park, wake, exit or fail threads. */
  lemma PcOnlySafe(c: Config, s: State, s': State)
    requires ConfigOk(c) && Safe(c, s)
    requires s'.free == s.free && s'.ready == s.ready && s'.owner == s.owner && s'.bufs == s.bufs
    requires s'.cursor == s.cursor && s'.dst == s.dst && s'.fate == s.fate && s'.claims == s.claims
    requires s.failed ==> s'.failed
    requires |s'.readers| == |s.readers| && |s'.writers| == |s.writers|
    requires forall t :: 0 <= t < |s.readers| ==> RBatch(s'.readers[t]) == RBatch(s.readers[t])
    requires forall t :: 0 <= t < |s.writers| ==>
               if s.writers[t].WWriting? then s'.writers[t] == s.writers[t] else !s'.writers[t].WWriting?
    ensures Safe(c, s')
  {
    PcOnlyConserved(s, s');
    forall t | 0 <= t < |s'.writers|
      ensures WriterAt(s'.bufs, s'.writers[t])
    {
      assert WriterAt(s.bufs, s.writers[t]);
    }
    forall id, p | 0 <= p < |s'.fate| && Pending(s', id, p)
      ensures s'.fate[p] == InFlight(id)
    {
      assert Pending(s, id, p);
    }
    forall p | 0 <= p < |s'.fate| && s'.fate[p].InFlight?
      ensures Pending(s', s'.fate[p].id, p)
    {
      assert Pending(s, s.fate[p].id, p);
    }
  }

  lemma ReaderEnterSafe(c: Config, s: State, t: nat)
    requires ConfigOk(c) && Safe(c, s) && Sized(s) && ReaderCanEnter(s, t)
    ensures Safe(c, DoReaderEnter(c, s, t))
  {
    var s1 := LeaveFreeWait(s, t);
    if (!s1.failed && s1.free == [] && s1.cursor.offset < c.bulkEnd) || s1.failed || s1.cursor.offset >= c.bulkEnd {
      PcOnlySafe(c, s, DoReaderEnter(c, s, t));
    } else {
      var s2 := s1.(readers := s1.readers[t := RReading([])]);
      PcOnlySafe(c, s, s2);
      ClaimUpToSafe(c, s2, t, Batch(c.inflight));
    }
  }

  /** A batch whose bytes are all written, or given up, goes back to the free list. */
  lemma FreeBatchContent(c: Config, s: State, batch: seq<int>, from: Owner, s': State)
    requires ConfigOk(c) && Safe(c, s) && from != OFree
    requires Holds(s.owner, batch, from)
    requires s.failed || forall id, p :: id in batch ==> !Pending(s, id, p)
    requires Shape(c, s') && s'.bufs == s.bufs && s'.dst == s.dst && s'.cursor == s.cursor && s'.failed == s.failed
    requires s'.owner == Reassign(s.owner, batch, OFree) && s'.fate == DropBatch(s.fate, batch)
    ensures Content(c, s') && BuffersOk(c, s')
  {
    forall p | 0 <= p < |s'.fate|
      ensures s'.fate[p] == Untouched <==> s.fate[p] == Untouched
      ensures s'.fate[p] == Written <==> s.fate[p] == Written
      ensures s'.fate[p].InFlight? ==> Pending(s', s'.fate[p].id, p)
      ensures !s.failed ==> s'.fate[p] == s.fate[p]
    {
      if s.fate[p].InFlight? {
        assert Pending(s, s.fate[p].id, p);
      }
    }
    forall id, p | 0 <= p < |s'.fate| && Pending(s', id, p)
      ensures s'.fate[p] == InFlight(id)
    {
      assert Pending(s, id, p) && id !in batch;
    }
  }

  /** A batch keeps its bytes when a thread hands it on or takes it over. */
  lemma MoveContent(c: Config, s: State, batch: seq<int>, to: Owner, s': State)
    requires ConfigOk(c) && Safe(c, s) && to != OFree
    requires forall id :: id in batch ==> 0 <= id < |s.owner| && s.owner[id] != OFree
    requires Shape(c, s') && s'.dst == s.dst && s'.cursor == s.cursor && s'.failed == s.failed && s'.fate == s.fate
    requires s'.owner == Reassign(s.owner, batch, to)
    requires forall id :: 0 <= id < |s.bufs| ==> s'.bufs[id] == s.bufs[id].(data := s'.bufs[id].data)
    ensures Content(c, s')
  {
    forall p | 0 <= p < |s'.fate| && s'.fate[p].InFlight?
      ensures Pending(s', s'.fate[p].id, p)
    {
      assert Pending(s, s.fate[p].id, p);
    }
    forall id, p | 0 <= p < |s'.fate| && Pending(s', id, p)
      ensures s'.fate[p] == InFlight(id)
    {
      assert Pending(s, id, p);
    }
  }

  lemma WritersAtKept(s: State, s': State)
    requires WritersAt(s) && |s'.writers| == |s.writers| && |s'.bufs| == |s.bufs|
    requires forall t :: 0 <= t < |s.writers| ==> !s'.writers[t].WWriting? || s'.writers[t] == s.writers[t]
    requires forall id :: 0 <= id < |s.bufs| ==> s'.bufs[id] == s.bufs[id].(data := s'.bufs[id].data)
    ensures WritersAt(s')
  {
    forall t | 0 <= t < |s'.writers|
      ensures WriterAt(s'.bufs, s'.writers[t])
    {
      assert WriterAt(s.bufs, s.writers[t]);
    }
  }

  lemma HandOverSafe(c: Config, s: State, t: nat, pick: Option<nat>)
    requires ConfigOk(c) && Safe(c, s) && ReaderCanFinish(s, t, true, pick) && !s.failed
    ensures Safe(c, DoReaderFinish(c, s, t, true, pick))
  {
    var s' := DoReaderFinish(c, s, t, true, pick);
    var batch := s.readers[t].batch;
    ReaderFinishConserved(c, s, t, true, pick);
    assert Holds(s.owner, RBatch(s.readers[t]), OReader(t));
    MoveContent(c, s, batch, OReady, s');
    LoadBuffers(c, s, batch, t, s');
    WritersAtKept(s, s');
  }

  lemma LoadBuffers(c: Config, s: State, batch: seq<int>, t: nat, s': State)
    requires ConfigOk(c) && Shape(c, s) && BuffersOk(c, s) && Shape(c, s')
    requires forall id :: id in batch ==> 0 <= id < |s.owner| && s.owner[id] == OReader(t)
    requires s'.bufs == Load(c, s.bufs, batch) && s'.owner == Reassign(s.owner, batch, OReady)
    ensures BuffersOk(c, s')
  {
    forall id | 0 <= id < |s'.bufs| && (s'.owner[id] == OReady || s'.owner[id].OWriter?)
      ensures s'.bufs[id].data == c.src[s'.bufs[id].offset..s'.bufs[id].offset + s'.bufs[id].len]
    {
      assert BufOk(c, s.bufs[id]);
    }
  }

  lemma ReaderFinishSafe(c: Config, s0: State, t: nat, ok: bool, pick: Option<nat>)
    requires ConfigOk(c) && Safe(c, s0) && ReaderCanFinish(s0, t, ok, pick)
    ensures Safe(c, DoReaderFinish(c, s0, t, ok, pick))
  {
    var s, s' := ReaderMark(s0, ok), DoReaderFinish(c, s0, t, ok, pick);
    if s.failed {
      PcOnlySafe(c, s0, s);
      ReaderFinishConserved(c, s0, t, ok, pick);
      assert Holds(s.owner, RBatch(s.readers[t]), OReader(t));
      FreeBatchContent(c, s, s.readers[t].batch, OReader(t), s');
      WritersAtKept(s, s');
    } else {
      HandOverSafe(c, s0, t, pick);
    }
  }

  lemma FreshBatchAt(c: Config, s: State, batch: seq<int>)
    requires ConfigOk(c) && Shape(c, s) && BuffersOk(c, s)
    requires forall id :: id in batch ==> 0 <= id < |s.owner| && s.owner[id] == OReady
    ensures WriterAt(s.bufs, WWriting(batch, 0))
  {
    forall k | 0 <= k < |batch|
      ensures 0 <= batch[k] < |s.bufs| && s.bufs[batch[k]].written == 0 && s.bufs[batch[k]].len >= 1
    {
      assert batch[k] in batch;
      assert BufOk(c, s.bufs[batch[k]]);
    }
  }

  lemma SameClaims(c: Config, s: State, s': State)
    requires Claimed(c, s) && s'.claims == s.claims && s'.cursor == s.cursor
    ensures Claimed(c, s')
  {
  }

  lemma OneWriterAt(s: State, t: nat, w: Writer, s': State)
    requires WritersAt(s) && t < |s.writers| && s'.bufs == s.bufs && s'.writers == s.writers[t := w] && WriterAt(s.bufs, w)
    ensures WritersAt(s')
  {
    hide WriterAt;
  }

  lemma TakeBuffers(c: Config, s: State, t: nat, batch: seq<int>, s': State)
    requires c.bulkEnd <= |c.src| && Shape(c, s) && Shape(c, s') && BuffersOk(c, s) && s'.bufs == s.bufs
    requires forall id :: id in batch ==> 0 <= id < |s.owner| && s.owner[id] == OReady
    requires s'.owner == Reassign(s.owner, batch, OWriter(t))
    ensures BuffersOk(c, s')
  {
    hide BufOk;
  }

  lemma TakeKeeps(c: Config, s: State, t: nat, batch: seq<int>, s': State)
    requires ConfigOk(c) && Safe(c, s) && Shape(c, s') && t < |s.writers| && Conserved(s')
    requires forall id :: id in batch ==> 0 <= id < |s.owner| && s.owner[id] == OReady
    requires s'.owner == Reassign(s.owner, batch, OWriter(t))
    requires s'.bufs == s.bufs && s'.cursor == s.cursor && s'.dst == s.dst && s'.fate == s.fate
    requires s'.claims == s.claims && s'.failed == s.failed
    requires s'.writers == s.writers[t := WWriting(batch, 0)]
    ensures Safe(c, s')
  {
    hide Content, BuffersOk, Conserved, Holds, WriterAt, WritersAt, Claimed;
    MoveContent(c, s, batch, OWriter(t), s');
    FreshBatchAt(c, s, batch);
    TakeBuffers(c, s, t, batch, s');
    OneWriterAt(s, t, WWriting(batch, 0), s');
    SameClaims(c, s, s');
  }

  lemma TakeSafe(c: Config, s: State, t: nat)
    requires ConfigOk(c) && Safe(c, s) && WriterCanEnter(s, t) && s.ready != []
    ensures Safe(c, DoWriterEnter(c, s, t))
  {
    var s' := DoWriterEnter(c, s, t);
    var batch := s.ready[..TakeLen(c, LeaveReadyWait(s, t))];
    WriterEnterConserved(c, s, t);
    assert forall id :: id in batch ==> id in s.ready;
    TakeKeeps(c, s, t, batch, s');
  }

  lemma WriterEnterSafe(c: Config, s: State, t: nat)
    requires ConfigOk(c) && Safe(c, s) && WriterCanEnter(s, t)
    ensures Safe(c, DoWriterEnter(c, s, t))
  {
    if s.ready == [] {
      PcOnlySafe(c, s, DoWriterEnter(c, s, t));
    } else {
      TakeSafe(c, s, t);
    }
  }

  /** A writer at the end of its batch has delivered all of it. */
  lemma WrittenNotPending(s: State, w: Writer)
    requires |s.owner| == |s.bufs| && WriterAt(s.bufs, w) && w.WWriting? && w.i == |w.batch|
    ensures forall id, p :: id in w.batch ==> !Pending(s, id, p)
  {
    forall id, p | id in w.batch
      ensures !Pending(s, id, p)
    {
      var k :| 0 <= k < |w.batch| && w.batch[k] == id;
    }
  }

  lemma WriterReturnContent(c: Config, s0: State, t: nat, ok: bool, pick: Option<nat>)
    requires ConfigOk(c) && Safe(c, s0) && WriterCanReturn(s0, t, ok, pick)
    requires Shape(c, DoWriterReturn(s0, t, ok, pick))
    ensures Content(c, DoWriterReturn(s0, t, ok, pick)) && BuffersOk(c, DoWriterReturn(s0, t, ok, pick))
    ensures WritersAt(DoWriterReturn(s0, t, ok, pick))
  {
    var s, s' := ReaderMark(s0, ok), DoWriterReturn(s0, t, ok, pick);
    var w := s.writers[t];
    PcOnlySafe(c, s0, s);
    assert Holds(s.owner, WBatch(w), OWriter(t));
    assert WriterAt(s.bufs, w);
    hide Content, BuffersOk, Claimed, Pending, Holds, WriterAt, Conserved;
    if !s.failed {
      WrittenNotPending(s, w);
    }
    FreeBatchContent(c, s, w.batch, OWriter(t), s');
    WritersAtKept(s, s');
  }

  lemma WriterReturnSafe(c: Config, s0: State, t: nat, ok: bool, pick: Option<nat>)
    requires ConfigOk(c) && Safe(c, s0) && WriterCanReturn(s0, t, ok, pick)
    ensures Safe(c, DoWriterReturn(s0, t, ok, pick))
  {
    hide Content, BuffersOk, WritersAt, Shape, Conserved;
    WriterReturnConserved(c, s0, t, ok, pick);
    WriterReturnContent(c, s0, t, ok, pick);
  }

  /** The buffer that writer t is at. */
  lemma CurrentBuffer(c: Config, s: State, t: nat, k: int)
    requires ConfigOk(c) && Safe(c, s) && CanPWrite(s, t, k)
    ensures var w := s.writers[t];
            var id := w.batch[w.i];
            && 0 <= id < |s.bufs| && s.owner[id] == OWriter(t) && BufOk(c, s.bufs[id]) && WriterAt(s.bufs, w)
            && (forall u :: 0 <= u < |s.writers| && u != t ==> id !in WBatch(s.writers[u]))
            && (forall j :: 0 <= j < |w.batch| && j != w.i ==> w.batch[j] != id)
            && s.bufs[id].data == c.src[s.bufs[id].offset..s.bufs[id].offset + s.bufs[id].len]
  {
    var w := s.writers[t];
    var id := w.batch[w.i];
    assert Holds(s.owner, WBatch(w), OWriter(t));
    assert id in WBatch(w);
    assert BufOk(c, s.bufs[id]);
    forall u | 0 <= u < |s.writers| && u != t
      ensures id !in WBatch(s.writers[u])
    {
      assert Holds(s.owner, WBatch(s.writers[u]), OWriter(u));
    }
  }

  lemma PWriteWriters(c: Config, s: State, t: nat, k: int)
    requires ConfigOk(c) && Safe(c, s) && CanPWrite(s, t, k)
    ensures WritersAt(DoPWrite(s, t, k))
  {
    hide Content, Claimed;
    var s' := DoPWrite(s, t, k);
    CurrentBuffer(c, s, t, k);
    forall u | 0 <= u < |s'.writers|
      ensures WriterAt(s'.bufs, s'.writers[u])
    {
      assert WriterAt(s.bufs, s.writers[u]);
    }
  }

  lemma PWriteOneBuffer(c: Config, s: State, t: nat, k: int)
    requires ConfigOk(c) && Safe(c, s) && CanPWrite(s, t, k)
    ensures Shape(c, DoPWrite(s, t, k)) && BuffersOk(c, DoPWrite(s, t, k))
  {
    CurrentBuffer(c, s, t, k);
    hide Conserved, WritersAt, WriterAt, Content, Claimed, Holds, WBatch, Fill, Paste;
  }

  lemma PWriteBuffers(c: Config, s: State, t: nat, k: int)
    requires ConfigOk(c) && Safe(c, s) && CanPWrite(s, t, k)
    ensures Shape(c, DoPWrite(s, t, k)) && Conserved(DoPWrite(s, t, k))
    ensures BuffersOk(c, DoPWrite(s, t, k)) && WritersAt(DoPWrite(s, t, k))
  {
    hide Shape, BuffersOk, WritersAt, Content, Claimed, Fill, Paste;
    PWriteOneBuffer(c, s, t, k);
    PWriteWriters(c, s, t, k);
    PcOnlyConserved(s, DoPWrite(s, t, k));
  }

  /** A pwrite puts source bytes, and only source bytes, where they belong. */
  lemma PWriteBytes(c: Config, s: State, t: nat, k: int, p: int)
    requires ConfigOk(c) && Safe(c, s) && CanPWrite(s, t, k)
    requires 0 <= p < |s.dst|
    ensures var b := s.bufs[s.writers[t].batch[s.writers[t].i]];
            DoPWrite(s, t, k).dst[p] == if b.offset + b.written <= p < b.offset + b.written + k then c.src[p] else s.dst[p]
  {
    hide Safe, Shape, Conserved;
    CurrentBuffer(c, s, t, k);
    var w := s.writers[t];
    PastedBytes(c, s.dst, s.bufs[w.batch[w.i]], k, p);
    hide ConfigOk, BufOk, WriterAt, WBatch, Paste, Fill;
  }

  lemma PastedBytes(c: Config, dst: seq<Byte>, b: Buffer, k: int, p: int)
    requires BufOk(c, b) && c.bulkEnd <= |c.src| && 1 <= k <= b.len - b.written && 0 <= p < |dst|
    requires b.data == c.src[b.offset..b.offset + b.len]
    ensures Paste(dst, b.offset + b.written, b.data[b.written..b.written + k])[p] ==
            if b.offset + b.written <= p < b.offset + b.written + k then c.src[p] else dst[p]
  {
    if b.offset + b.written <= p < b.offset + b.written + k {
      var i := p - b.offset;
      assert b.data[b.written..b.written + k][i - b.written] == b.data[i];
      assert b.data[i] == c.src[b.offset..b.offset + b.len][i];
    }
  }

  /** The bytes of the current pwrite were in flight, and no others change their fate. */
  lemma PWriteFate(c: Config, s: State, t: nat, k: int)
    requires ConfigOk(c) && Safe(c, s) && CanPWrite(s, t, k)
    ensures var w := s.writers[t];
            var id := w.batch[w.i];
            var lo := s.bufs[id].offset + s.bufs[id].written;
            && 0 <= lo && lo + k <= |s.fate|
            && (forall p :: lo <= p < lo + k ==> Pending(s, id, p) && s.fate[p] == InFlight(id))
            && (forall p :: 0 <= p < |s.fate| && !(lo <= p < lo + k) ==> DoPWrite(s, t, k).fate[p] == s.fate[p])
            && (forall p :: lo <= p < lo + k ==> DoPWrite(s, t, k).fate[p] == Written)
  {
    CurrentBuffer(c, s, t, k);
    hide Conserved, Claimed, WriterAt, WritersAt;
    var w := s.writers[t];
    var id := w.batch[w.i];
    var lo := s.bufs[id].offset + s.bufs[id].written;
    assert forall p :: lo <= p < lo + k ==> Pending(s, id, p) && s.fate[p] == InFlight(id);
  }

  lemma PWriteInFlight(c: Config, s: State, t: nat, k: int)
    requires ConfigOk(c) && Safe(c, s) && CanPWrite(s, t, k)
    ensures var s' := DoPWrite(s, t, k);
            && (forall p :: 0 <= p < |s'.fate| && s'.fate[p].InFlight? ==> Pending(s', s'.fate[p].id, p))
            && (forall i, p :: 0 <= p < |s'.fate| && Pending(s', i, p) ==> s'.fate[p] == InFlight(i))
  {
    var s' := DoPWrite(s, t, k);
    PWriteFate(c, s, t, k);
    CurrentBuffer(c, s, t, k);
    hide Conserved, Claimed, WriterAt, WritersAt, BuffersOk;
    forall p | 0 <= p < |s'.fate| && s'.fate[p].InFlight?
      ensures Pending(s', s'.fate[p].id, p)
    {
      assert Pending(s, s.fate[p].id, p);
    }
    forall i, p | 0 <= p < |s'.fate| && Pending(s', i, p)
      ensures s'.fate[p] == InFlight(i)
    {
      assert Pending(s, i, p);
    }
  }

  lemma PWriteContent(c: Config, s: State, t: nat, k: int)
    requires ConfigOk(c) && Safe(c, s) && CanPWrite(s, t, k)
    requires Shape(c, DoPWrite(s, t, k))
    ensures Content(c, DoPWrite(s, t, k))
  {
    var s' := DoPWrite(s, t, k);
    PWriteInFlight(c, s, t, k);
    PWriteFate(c, s, t, k);
    hide Conserved, Claimed, WriterAt, WritersAt, BuffersOk, CursorOk;
    forall p | 0 <= p < |s'.fate|
      ensures s'.dst[p] == if s'.fate[p] == Written then c.src[p] else 0
    {
      PWriteBytes(c, s, t, k, p);
    }
    hide Pending;
  }

  lemma PWriteSafe(c: Config, s: State, t: nat, k: int)
    requires ConfigOk(c) && Safe(c, s) && CanPWrite(s, t, k)
    ensures Safe(c, DoPWrite(s, t, k))
  {
    PWriteBuffers(c, s, t, k);
    PWriteContent(c, s, t, k);
  }

  lemma InitSafe(c: Config)
    requires ConfigOk(c)
    ensures Safe(c, Init(c))
  {
    var s := Init(c);
    StartCursorOk(c.layout, c.bulkEnd);
    forall id | 0 <= id < c.inflight
      ensures id in s.free
    {
      assert s.free[id] == id;
    }
    assert Holds(s.owner, s.free, OFree);
    assert forall t :: 0 <= t < |s.readers| ==> RBatch(s.readers[t]) == [];
    assert forall t :: 0 <= t < |s.writers| ==> WBatch(s.writers[t]) == [];
  }

  lemma StepSafe(c: Config, s: State, step: Step)
    requires ConfigOk(c) && Safe(c, s) && Enabled(c, s, step)
    ensures Safe(c, Apply(c, s, step))
  {
    match step
    case ReaderEnter(t) => ReaderEnterSafe(c, s, t);
    case ReaderFinish(t, ok, pick) => ReaderFinishSafe(c, s, t, ok, pick);
    case WriterEnter(t) => WriterEnterSafe(c, s, t);
    case PWrite(t, k) => PWriteSafe(c, s, t, k);
    case WriterReturn(t, ok, pick) => WriterReturnSafe(c, s, t, ok, pick);
    case WakeReader(t) => PcOnlySafe(c, s, Apply(c, s, step));
    case WakeWriter(t) => PcOnlySafe(c, s, Apply(c, s, step));
  }

  /** The invariant holds after every run. */
  lemma {:induction false} RunSafe(c: Config, steps: seq<Step>)
    requires ConfigOk(c) && IsRun(c, steps)
    ensures Safe(c, After(c, steps))
    decreases |steps|
  {
    if steps == [] {
      InitSafe(c);
    } else {
      var n := |steps| - 1;
      RunSafe(c, steps[..n]);
      StepSafe(c, After(c, steps[..n]), steps[n]);
    }
  }

  // ---------------------------------------------------------------------------
  // Main results

  /** At every moment of every run, failed or not, the destination holds only source bytes and initial zeros. */
  lemma NothingForeignWritten(c: Config, steps: seq<Step>, p: int)
    requires ConfigOk(c) && IsRun(c, steps) && 0 <= p < |c.src|
    ensures var s := After(c, steps);
            |s.dst| == |c.src| && (s.dst[p] == c.src[p] || s.dst[p] == 0) && (!Data(c, p) ==> s.dst[p] == 0)
  {
    RunSafe(c, steps);
    var s := After(c, steps);
    assert s.dst[p] == if s.fate[p] == Written then c.src[p] else 0;
    assert s.fate[p] == Untouched <==> !(Data(c, p) && p < s.cursor.offset);
  }

  /** No data byte is ever claimed twice, and no other byte is claimed at all. */
  lemma ClaimedOnce(c: Config, steps: seq<Step>, i: int, p: int)
    requires ConfigOk(c) && IsRun(c, steps)
    requires 0 <= i < |After(c, steps).claims| && After(c, steps).claims[i].start <= p < After(c, steps).claims[i].end
    ensures Data(c, p)
    ensures forall j :: 0 <= j < |After(c, steps).claims| && j != i ==>
              !(After(c, steps).claims[j].start <= p < After(c, steps).claims[j].end)
  {
    RunSafe(c, steps);
    var s := After(c, steps);
    assert Covers(s.claims, p);
    forall j | 0 <= j < |s.claims| && j != i
      ensures !(s.claims[j].start <= p < s.claims[j].end)
    {
      if j < i {
        assert s.claims[j].end <= s.claims[i].start;
      } else {
        assert s.claims[i].end <= s.claims[j].start;
      }
    }
  }
}
