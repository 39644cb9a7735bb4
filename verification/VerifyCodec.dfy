/** The client's encoder and the remote peer's decoder of verification requests, as they step their cursors. */
module VerifyCodec {
  import opened Machine
  import opened Wire
  import opened VerifyBatch
  import opened DirPaths
  import opened PathNormal
  import opened PathBuffers

  // ---------------------------------------------------------------------------
  // Rows of numbers, one after the other

  lemma {:induction false} EncodeSnoc(vs: seq<nat>, ws: seq<nat>, v: nat, w: nat)
    requires |vs| == |ws|
    ensures EncodeNums(vs + [v], ws + [w]) == EncodeNums(vs, ws) + Le(v, w)
    ensures Total(ws + [w]) == Total(ws) + w
    decreases |ws|
  {
    hide Le;
    if ws == [] {
      assert vs + [v] == [v] && ws + [w] == [w];
      assert [v][1..] == [] && [w][1..] == [];
    } else {
      assert (vs + [v])[1..] == vs[1..] + [v] && (ws + [w])[1..] == ws[1..] + [w];
      EncodeSnoc(vs[1..], ws[1..], v, w);
    }
  }

  lemma {:induction false} TakeSnoc(c: Cursor, ws: seq<nat>, w: nat)
    ensures var (c1, vs) := TakeNums(c, ws);
            var (c2, v) := TakeNumber(c1, w);
            TakeNums(c, ws + [w]) == (c2, vs + [v])
    decreases |ws|
  {
    hide TakeNumber;
    if ws == [] {
      assert ws + [w] == [w] && [w][1..] == [];
      assert TakeNums(TakeNumber(c, w).0, []) == (TakeNumber(c, w).0, []);
      assert [TakeNumber(c, w).1] + [] == [] + [TakeNumber(c, w).1];
    } else {
      assert (ws + [w])[1..] == ws[1..] + [w];
      var (c1, v) := TakeNumber(c, ws[0]);
      TakeSnoc(c1, ws[1..], w);
      var (c2, vs) := TakeNums(c1, ws[1..]);
      assert [v] + (vs + [TakeNumber(c2, w).1]) == [v] + vs + [TakeNumber(c2, w).1];
    }
  }

  method PutField(e: Encoder, v: nat, w: nat, ghost start: Bytes, ghost vs: seq<nat>, ghost ws: seq<nat>)
    returns (ghost vs': seq<nat>, ghost ws': seq<nat>)
    requires e.Valid() && !e.overflow && |vs| == |ws| && e.len + w <= e.buf.Length
    requires e.Output() == start + EncodeNums(vs, ws)
    modifies e, e.buf
    ensures e.Valid() && !e.overflow && e.len == old(e.len) + w
    ensures vs' == vs + [v] && ws' == ws + [w] && |vs'| == |ws'|
    ensures e.Output() == start + EncodeNums(vs', ws')
  {
    hide EncodeNums, Le;
    vs', ws' := vs + [v], ws + [w];
    ghost var before := e.Output();
    e.PutNumber(v, w);
    EncodeSnoc(vs, ws, v, w);
    assert start + EncodeNums(vs, ws) + Le(v, w) == start + (EncodeNums(vs, ws) + Le(v, w));
    assert |e.Output()| == |before| + w;
  }

  method GetField(d: Decoder, w: nat, ghost c: Cursor, ghost vs: seq<nat>, ghost ws: seq<nat>)
    returns (v: nat, ghost vs': seq<nat>, ghost ws': seq<nat>)
    requires d.Valid() && (d.View(), vs) == TakeNums(c, ws)
    modifies d
    ensures vs' == vs + [v] && ws' == ws + [w]
    ensures d.Valid() && (d.View(), vs') == TakeNums(c, ws')
  {
    hide TakeNums, TakeNumber;
    TakeSnoc(c, ws, w);
    v := d.GetNumber(w);
    vs', ws' := vs + [v], ws + [w];
  }

  // ---------------------------------------------------------------------------
  // Client

  datatype Sent = TooManyDigests | TooLarge | Payload(bytes: Bytes)

  lemma {:induction false} DigestsLen(ds: seq<Digest>)
    requires forall d :: d in ds ==> |d.hash| == DIGEST_SIZE
    ensures |EncodeDigests(ds)| == 45 * |ds|
  {
    hide EncodeNums;
    if ds != [] {
      DigestWidth();
      DigestsLen(ds[1..]);
    }
  }

  lemma DigestWidth()
    ensures Total(DIGEST_WIDTHS) == 13
  {
    assert [8, 4, 1][1..] == [4, 1] && [4, 1][1..] == [1] && [1][1..] == [];
  }

  lemma {:induction false} DigestsSnoc(ds: seq<Digest>, d: Digest)
    ensures EncodeDigests(ds + [d]) == EncodeDigests(ds) + EncodeDigest(d)
  {
    hide EncodeDigest;
    if ds == [] {
      assert ds + [d] == [d] && [d][1..] == [];
    } else {
      assert (ds + [d])[1..] == ds[1..] + [d];
      DigestsSnoc(ds[1..], d);
    }
  }

  const META_WIDTHS: seq<nat> := [4, 4, 4, 8, 8, 8, 8]

  function MetaNums(m: Meta): (r: seq<nat>)
    ensures |r| == |META_WIDTHS|
  {
    [m.uid, m.gid, m.mode, Word(m.atime), Word(m.atimeNs), Word(m.mtime), Word(m.mtimeNs)]
  }

  lemma NoRow(start: Bytes)
    ensures start + EncodeNums([], []) == start
  {
  }

  method EncodeMeta(e: Encoder, m: Meta, ghost start: Bytes)
    requires e.Valid() && !e.overflow && e.Output() == start && e.len + 44 <= e.buf.Length
    requires IsInt64(m.atime) && IsInt64(m.atimeNs) && IsInt64(m.mtime) && IsInt64(m.mtimeNs)
    modifies e, e.buf
    ensures e.Valid() && !e.overflow && e.len == old(e.len) + 44
    ensures e.Output() == start + EncodeNums(MetaNums(m), META_WIDTHS)
  {
    NoRow(start);
    hide EncodeNums, Le, Word, Encoder.Output, Encoder.Valid;
    ghost var vs: seq<nat>, ws: seq<nat> := [], [];
    vs, ws := PutField(e, m.uid, 4, start, vs, ws);
    vs, ws := PutField(e, m.gid, 4, start, vs, ws);
    vs, ws := PutField(e, m.mode, 4, start, vs, ws);
    vs, ws := PutField(e, Word(m.atime), 8, start, vs, ws);
    vs, ws := PutField(e, Word(m.atimeNs), 8, start, vs, ws);
    vs, ws := PutField(e, Word(m.mtime), 8, start, vs, ws);
    vs, ws := PutField(e, Word(m.mtimeNs), 8, start, vs, ws);
    assert vs == MetaNums(m) && ws == META_WIDTHS;
  }

  method PutDigest(e: Encoder, d: Digest)
    requires e.Valid() && !e.overflow && DigestInRange(d) && e.len + 45 <= e.buf.Length
    modifies e, e.buf
    ensures e.Valid() && !e.overflow && e.len == old(e.len) + 45
    ensures e.Output() == old(e.Output()) + EncodeDigest(d)
  {
    ghost var start := e.Output();
    assert start + EncodeNums([], []) == start;
    hide EncodeNums, Le, Word;
    ghost var vs: seq<nat>, ws: seq<nat> := [], [];
    vs, ws := PutField(e, Word(d.offset), 8, start, vs, ws);
    vs, ws := PutField(e, d.length, 4, start, vs, ws);
    vs, ws := PutField(e, d.flags, 1, start, vs, ws);
    assert vs == DigestNums(d) && ws == DIGEST_WIDTHS;
    ghost var row := EncodeNums(vs, ws);
    e.PutBytes(d.hash);
    assert start + row + d.hash == start + (row + d.hash);
  }

  lemma HeadRow(b: Batch, vs: seq<nat>, ws: seq<nat>)
    requires vs == MetaNums(b.meta) + [Word(b.size)] + [b.flags] + [|b.digests|]
    requires ws == META_WIDTHS + [8] + [1] + [4]
    ensures vs == HeadNums(b) && ws == HEAD_WIDTHS
  {
    hide Word;
  }

  method PutHead(e: Encoder, b: Batch, ghost start: Bytes)
    requires e.Valid() && !e.overflow && e.Output() == start && e.len + 57 <= e.buf.Length && InRange(b)
    modifies e, e.buf
    ensures e.Valid() && !e.overflow && e.len == old(e.len) + 57
    ensures e.Output() == start + EncodeNums(HeadNums(b), HEAD_WIDTHS)
  {
    hide EncodeNums, Le, Word, DigestInRange, MetaNums, HeadNums, Encoder.Output, Encoder.Valid;
    EncodeMeta(e, b.meta, start);
    ghost var vs, ws := MetaNums(b.meta), META_WIDTHS;
    vs, ws := PutField(e, Word(b.size), 8, start, vs, ws);
    vs, ws := PutField(e, b.flags, 1, start, vs, ws);
    vs, ws := PutField(e, |b.digests|, 4, start, vs, ws);
    HeadRow(b, vs, ws);
  }

  lemma Join(a: Bytes, b: Bytes, c: Bytes)
    ensures a + b + c == a + (b + c)
  {
  }

  /** The buffer is always large enough: the payload is exactly the encoding. */
  method SendBatch(b: Batch) returns (r: Sent)
    requires InRange(b)
    ensures r == TooManyDigests <==> |b.digests| > BATCH_MAX
    ensures r.Payload? ==> r.bytes == Encode(b)
    ensures r == TooLarge <==> |b.digests| <= BATCH_MAX && |b.path| + 128 + 45 * |b.digests| > MAX_FRAME
  {
    if |b.digests| > BATCH_MAX {
      return TooManyDigests;
    }
    var cap := |b.path| + 128 + |b.digests| * 45;
    if cap > MAX_FRAME {
      return TooLarge;
    }
    hide EncodeNums, EncodeDigests, Le, DigestInRange, HeadNums;
    var e := new Encoder(cap);
    e.PutString(b.path);
    ghost var start := Le(|b.path|, 4) + b.path;
    assert e.Output() == start && e.len == 4 + |b.path|;
    PutHead(e, b, start);
    ghost var head := EncodeNums(HeadNums(b), HEAD_WIDTHS);
    PutDigests(e, b.digests, start + head);
    Join(start, head, EncodeDigests(b.digests));
    r := Payload(e.buf[..e.len]);
  }

  method PutDigests(e: Encoder, ds: seq<Digest>, ghost start: Bytes)
    requires e.Valid() && !e.overflow && e.Output() == start && e.len + 45 * |ds| <= e.buf.Length
    requires forall d :: d in ds ==> DigestInRange(d)
    modifies e, e.buf
    ensures e.Valid() && !e.overflow && e.Output() == start + EncodeDigests(ds)
  {
    hide EncodeDigest, DigestInRange;
    assert start + EncodeDigests([]) == start;
    for i := 0 to |ds|
      invariant e.Valid() && !e.overflow && e.len == old(e.len) + 45 * i
      invariant e.Output() == start + EncodeDigests(ds[..i])
    {
      assert ds[i] in ds;
      PutDigest(e, ds[i]);
      DigestsSnoc(ds[..i], ds[i]);
      assert ds[..i + 1] == ds[..i] + [ds[i]];
      assert start + EncodeDigests(ds[..i]) + EncodeDigest(ds[i]) == start + (EncodeDigests(ds[..i]) + EncodeDigest(ds[i]));
    }
    assert ds[..|ds|] == ds;
  }

  // ---------------------------------------------------------------------------
  // Remote peer

  method GetDigest(d: Decoder) returns (x: Digest)
    requires d.Valid()
    modifies d
    ensures d.Valid() && (d.View(), x) == TakeDigest(old(d.View()))
  {
    ghost var c := d.View();
    assert TakeNums(c, []) == (c, []);
    hide TakeNums, FromWord;
    ghost var vs: seq<nat>, ws: seq<nat> := [], [];
    var offset, length, flags;
    offset, vs, ws := GetField(d, 8, c, vs, ws);
    length, vs, ws := GetField(d, 4, c, vs, ws);
    flags, vs, ws := GetField(d, 1, c, vs, ws);
    assert vs == [offset, length, flags] && ws == DIGEST_WIDTHS;
    var hash := d.GetBytes(DIGEST_SIZE);
    x := Digest(FromWord(offset), length, flags, hash);
  }

  method GetDigests(d: Decoder, count: nat, size: int) returns (ds: seq<Digest>)
    requires d.Valid()
    modifies d
    ensures d.Valid() && d.View() == TakeDigests(old(d.View()), count, size).0
    ensures !d.error ==> ds == TakeDigests(old(d.View()), count, size).1 && |ds| == count
  {
    hide TakeDigest, DigestOk;
    ds := [];
    ghost var c0 := d.View();
    var i := 0;
    while i < count && !d.error
      invariant 0 <= i <= count && d.Valid() && |ds| == i
      invariant TakeDigests(c0, count, size).0 == TakeDigests(d.View(), count - i, size).0
      invariant !TakeDigests(c0, count, size).0.error ==>
        TakeDigests(c0, count, size).1 == ds + TakeDigests(d.View(), count - i, size).1
      decreases count - i
    {
      ghost var c := d.View();
      var x := GetDigest(d);
      if d.error {
        break;
      }
      if !DigestOk(x, size) {
        d.error := true;
        break;
      }
      ghost var rest := TakeDigests(d.View(), count - i - 1, size).1;
      assert ds + ([x] + rest) == (ds + [x]) + rest;
      ds := ds + [x];
      i := i + 1;
    }
  }

  /** Whether a path is resolved below the root. */
  method PathResolves(path: Bytes, root: string, ghost rootPath: Path) returns (ok: bool)
    requires PathOk(rootPath) && root == Text(rootPath)
    ensures ok <==> Confined(path, rootPath)
  {
    hide Normalize, CString, Holds;
    var out := new char[PATH_MAX];
    var rc := ResolvePath(Chars(CString(path)), out, root, rootPath);
    ok := rc == 0;
  }

  /** The decoding, from the head on. */
  lemma DecodeFromHead(data: Bytes, root: Path, c1: Cursor, path: Bytes, c2: Cursor, ns: seq<nat>)
    requires (c1, path) == TakeString(Cursor(data, 0, false), PATH_MAX) && (c2, ns) == TakeNums(c1, HEAD_WIDTHS)
    ensures var size := FromWord(ns[7]);
            var meta := Meta(ns[0], ns[1], ns[2], FromWord(ns[3]), FromWord(ns[4]), FromWord(ns[5]), FromWord(ns[6]));
            var (c3, ds) := TakeDigests(c2, ns[9], size);
            Decode(data, root) ==
              if c2.error || !HeadOk(size, ns[8], ns[9]) || !Confined(path, root) then Malformed
              else if c3.error || (ds != [] && c3.off != |data|) then Malformed
              else Request(Batch(CString(path), meta, size, ns[8], ds))
  {
    hide TakeNums, TakeDigests, TakeString, FromWord, Confined, CString;
  }

  method HandleVerifyPath(payload: array<Byte>, root: string, ghost rootPath: Path) returns (r: Request)
    requires PathOk(rootPath) && root == Text(rootPath)
    ensures r == Decode(payload[..], rootPath)
  {
    hide TakeNums, TakeDigests, TakeString, FromWord, Confined, CString, Decode;
    var d := new Decoder(payload);
    var path := d.GetString(PATH_MAX);
    ghost var c := d.View();
    NoFields(c);
    ghost var vs: seq<nat>, ws: seq<nat> := [], [];
    var uid, gid, mode, atime, atimeNs, mtime, mtimeNs, size, flags, count;
    uid, vs, ws := GetField(d, 4, c, vs, ws);
    gid, vs, ws := GetField(d, 4, c, vs, ws);
    mode, vs, ws := GetField(d, 4, c, vs, ws);
    atime, vs, ws := GetField(d, 8, c, vs, ws);
    atimeNs, vs, ws := GetField(d, 8, c, vs, ws);
    mtime, vs, ws := GetField(d, 8, c, vs, ws);
    mtimeNs, vs, ws := GetField(d, 8, c, vs, ws);
    size, vs, ws := GetField(d, 8, c, vs, ws);
    flags, vs, ws := GetField(d, 1, c, vs, ws);
    count, vs, ws := GetField(d, 4, c, vs, ws);
    assert ws == HEAD_WIDTHS && vs == [uid, gid, mode, atime, atimeNs, mtime, mtimeNs, size, flags, count];
    DecodeFromHead(payload[..], rootPath, c, path, d.View(), vs);
    if d.error || FromWord(size) < 0 || count > BATCH_MAX || flags > 15 || (flags % 2 == 1 && count != 0) {
      return Malformed;
    }
    var resolves := PathResolves(path, root, rootPath);
    if !resolves {
      return Malformed;
    }
    var meta := Meta(uid, gid, mode, FromWord(atime), FromWord(atimeNs), FromWord(mtime), FromWord(mtimeNs));
    if count == 0 {
      NoDigests(d.View(), FromWord(size));
      return Request(Batch(CString(path), meta, FromWord(size), flags, []));
    }
    var ds := GetDigests(d, count, FromWord(size));
    if d.error || d.off != payload.Length {
      return Malformed;
    }
    r := Request(Batch(CString(path), meta, FromWord(size), flags, ds));
  }

  lemma NoDigests(c: Cursor, size: int)
    ensures TakeDigests(c, 0, size) == (c, [])
  {
  }

  lemma NoFields(c: Cursor)
    ensures TakeNums(c, []) == (c, [])
  {
  }
}
