/** The verification request: what the client encodes and the remote peer decodes and checks. */
module VerifyBatch {
  import opened Machine
  import opened Wire
  import opened DirPaths
  import opened PathNormal

  const DIGEST_SIZE: nat := 32

  datatype Digest = Digest(offset: int, length: nat, flags: nat, hash: Bytes)

  datatype Meta = Meta(uid: nat, gid: nat, mode: nat, atime: int, atimeNs: int, mtime: int, mtimeNs: int)

  datatype Batch = Batch(path: Bytes, meta: Meta, size: int, flags: nat, digests: seq<Digest>)

  // ---------------------------------------------------------------------------
  // Rows of numbers

  function Total(ws: seq<nat>): nat {
    if ws == [] then 0 else ws[0] + Total(ws[1..])
  }

  function EncodeNums(vs: seq<nat>, ws: seq<nat>): (r: Bytes)
    requires |vs| == |ws|
    ensures |r| == Total(ws)
  {
    if ws == [] then [] else Le(vs[0], ws[0]) + EncodeNums(vs[1..], ws[1..])
  }

  function TakeNums(c: Cursor, ws: seq<nat>): (r: (Cursor, seq<nat>))
    ensures |r.1| == |ws|
    decreases |ws|
  {
    if ws == [] then (c, [])
    else
      var (c1, v) := TakeNumber(c, ws[0]);
      var (c2, vs) := TakeNums(c1, ws[1..]);
      (c2, [v] + vs)
  }

  ghost predicate Fit(vs: seq<nat>, ws: seq<nat>) {
    |vs| == |ws| && forall i :: 0 <= i < |vs| ==> vs[i] < Pow256(ws[i])
  }

  lemma {:induction false} TakesNums(c: Cursor, vs: seq<nat>, ws: seq<nat>)
    requires Fit(vs, ws) && At(c, EncodeNums(vs, ws))
    ensures TakeNums(c, ws) == (Skip(c, Total(ws)), vs)
    decreases |ws|
  {
    hide Le, At, TakeNumber, Pow256;
    if ws != [] {
      AtParts(c, Le(vs[0], ws[0]), EncodeNums(vs[1..], ws[1..]));
      TakesNumber(c, vs[0], ws[0]);
      TakesNums(Skip(c, ws[0]), vs[1..], ws[1..]);
      assert vs == [vs[0]] + vs[1..];
    }
  }

  lemma {:induction false} NumsFollow(whole: Cursor, part: Cursor, ws: seq<nat>)
    requires Follows(whole, part)
    ensures Follows(TakeNums(whole, ws).0, TakeNums(part, ws).0)
    ensures !TakeNums(part, ws).0.error ==> TakeNums(part, ws).1 == TakeNums(whole, ws).1
    decreases |ws|
  {
    hide Follows;
    if ws != [] {
      NumberFollows(whole, part, ws[0]);
      NumsFollow(TakeNumber(whole, ws[0]).0, TakeNumber(part, ws[0]).0, ws[1..]);
      ErrorStays(TakeNumber(part, ws[0]).0, ws[1..]);
    }
  }

  lemma {:induction false} ErrorStays(c: Cursor, ws: seq<nat>)
    ensures c.error ==> TakeNums(c, ws).0.error
    decreases |ws|
  {
    if ws != [] {
      ErrorStays(TakeNumber(c, ws[0]).0, ws[1..]);
    }
  }

  /** What has been read without error is the encoding of the numbers read. */
  ghost predicate Read(c: Cursor, c': Cursor, x: Bytes) {
    && !c.error && !c'.error && c'.data == c.data && c'.off == c.off + |x| <= |c.data|
    && c.data[c.off..c'.off] == x
  }

  lemma ReadParts(c: Cursor, c1: Cursor, c2: Cursor, x: Bytes, y: Bytes)
    requires Read(c, c1, x) && Read(c1, c2, y)
    ensures Read(c, c2, x + y)
  {
    assert c.data[c.off..c2.off] == c.data[c.off..c1.off] + c.data[c1.off..c2.off];
  }

  lemma ReadNumber(c: Cursor, n: nat)
    requires !TakeNumber(c, n).0.error
    ensures Read(c, TakeNumber(c, n).0, Le(TakeNumber(c, n).1, n)) && TakeNumber(c, n).1 < Pow256(n)
  {
    FromLeRoundTrip(Take(c, n).1);
  }

  lemma {:induction false} ReadNums(c: Cursor, ws: seq<nat>)
    requires !TakeNums(c, ws).0.error && CursorOk(c)
    ensures Read(c, TakeNums(c, ws).0, EncodeNums(TakeNums(c, ws).1, ws)) && Fit(TakeNums(c, ws).1, ws)
    decreases |ws|
  {
    if ws != [] {
      ErrorStays(TakeNumber(c, ws[0]).0, ws[1..]);
      ReadNumber(c, ws[0]);
      var c1 := TakeNumber(c, ws[0]).0;
      ReadNums(c1, ws[1..]);
      var v, vs := TakeNumber(c, ws[0]).1, TakeNums(c1, ws[1..]).1;
      assert ([v] + vs)[1..] == vs;
      ReadParts(c, c1, TakeNums(c1, ws[1..]).0, Le(v, ws[0]), EncodeNums(vs, ws[1..]));
      hide Read, Le, TakeNumber, Pow256;
    }
  }

  lemma ReadString(c: Cursor, limit: nat)
    requires !TakeString(c, limit).0.error && CursorOk(c)
    ensures var s := TakeString(c, limit).1;
            Read(c, TakeString(c, limit).0, Le(|s|, 4) + s) && |s| < limit && |s| < Pow256(4)
  {
    ReadNumber(c, 4);
    var (c1, n) := TakeNumber(c, 4);
    var (c2, s) := TakeString(c, limit);
    assert Read(c1, c2, s);
    ReadParts(c, c1, c2, Le(|s|, 4), s);
  }

  // ---------------------------------------------------------------------------
  // Encoding

  const HEAD_WIDTHS: seq<nat> := [4, 4, 4, 8, 8, 8, 8, 8, 1, 4]
  const DIGEST_WIDTHS: seq<nat> := [8, 4, 1]

  ghost predicate IsInt64(i: int) { 0 - HALF <= i < HALF }

  ghost predicate InRange(b: Batch) {
    && |b.path| < Pow256(4) && b.meta.uid < Pow256(4) && b.meta.gid < Pow256(4) && b.meta.mode < Pow256(4)
    && IsInt64(b.meta.atime) && IsInt64(b.meta.atimeNs) && IsInt64(b.meta.mtime) && IsInt64(b.meta.mtimeNs)
    && IsInt64(b.size) && b.flags < 256 && |b.digests| < Pow256(4)
    && forall d :: d in b.digests ==> DigestInRange(d)
  }

  ghost predicate DigestInRange(d: Digest) {
    IsInt64(d.offset) && d.length < Pow256(4) && d.flags < 256 && |d.hash| == DIGEST_SIZE
  }

  function Word(i: int): nat {
    if 0 - HALF <= i < HALF then ToWord(i) else 0
  }

  function HeadNums(b: Batch): (r: seq<nat>)
    ensures |r| == |HEAD_WIDTHS|
  {
    [b.meta.uid, b.meta.gid, b.meta.mode, Word(b.meta.atime), Word(b.meta.atimeNs), Word(b.meta.mtime), Word(b.meta.mtimeNs),
     Word(b.size), b.flags, |b.digests|]
  }

  function DigestNums(d: Digest): (r: seq<nat>)
    ensures |r| == |DIGEST_WIDTHS|
  {
    [Word(d.offset), d.length, d.flags]
  }

  function EncodeDigest(d: Digest): Bytes {
    EncodeNums(DigestNums(d), DIGEST_WIDTHS) + d.hash
  }

  function EncodeDigests(ds: seq<Digest>): Bytes {
    if ds == [] then [] else EncodeDigest(ds[0]) + EncodeDigests(ds[1..])
  }

  function Encode(b: Batch): Bytes {
    Le(|b.path|, 4) + b.path + (EncodeNums(HeadNums(b), HEAD_WIDTHS) + EncodeDigests(b.digests))
  }

  // ---------------------------------------------------------------------------
  // Decoding

  /** The checks of the remote peer on one digest. */
  predicate DigestOk(d: Digest, size: int) {
    && d.flags <= 1 && d.offset >= 0 && 1 <= d.length <= BLOCK && d.offset <= size && d.length <= size - d.offset
  }

  function TakeDigest(c: Cursor): (Cursor, Digest) {
    var (c1, ns) := TakeNums(c, DIGEST_WIDTHS);
    var (c2, hash) := Take(c1, DIGEST_SIZE);
    (c2, Digest(FromWord(ns[0]), ns[1], ns[2], hash))
  }

  /** Digests up to the first that is cut off or does not pass. */
  function TakeDigests(c: Cursor, count: nat, size: int): (Cursor, seq<Digest>)
    decreases count
  {
    if count == 0 || c.error then (c, [])
    else
      var (c1, d) := TakeDigest(c);
      if c1.error then (c1, [])
      else if !DigestOk(d, size) then (Fail(c1), [])
      else
        var (c2, ds) := TakeDigests(c1, count - 1, size);
        (c2, [d] + ds)
  }

  predicate HeadOk(size: int, flags: nat, count: nat) {
    size >= 0 && count <= BATCH_MAX && flags <= 15 && (flags % 2 == 1 ==> count == 0)
  }

  /** What the peer sees of a path that it has copied into a C string: the bytes before the first NUL. */
  function CString(s: Bytes): (r: Bytes)
    ensures r <= s && 0 !in r
    ensures |r| < |s| ==> s[|r|] == 0
    ensures r == s <==> 0 !in s
  {
    if s == [] || s[0] == 0 then [] else
      assert s == [s[0]] + s[1..];
      [s[0]] + CString(s[1..])
  }

  function Chars(s: Bytes): (r: string)
    ensures |r| == |s| && (0 !in s ==> '\0' !in r)
    ensures forall i :: 0 <= i < |s| ==> r[i] as int == s[i]
  {
    seq(|s|, i requires 0 <= i < |s| => s[i] as char)
  }

  /** The path has a normal form, and the names of the root begin it. */
  predicate Confined(path: Bytes, root: Path) {
    var outcome := Normalize(Chars(CString(path)), PATH_MAX);
    outcome.Normal? && root <= outcome.path
  }

  /** The batch as the peer understands it. */
  function Understood(b: Batch): Batch {
    b.(path := CString(b.path))
  }

  /** The cursor after the request, and the batch as far as it was read. */
  function Parse(data: Bytes, root: Path): (Cursor, Batch) {
    var (c1, path) := TakeString(Cursor(data, 0, false), PATH_MAX);
    var (c2, ns) := TakeNums(c1, HEAD_WIDTHS);
    var size, flags, count := FromWord(ns[7]), ns[8], ns[9];
    var meta := Meta(ns[0], ns[1], ns[2], FromWord(ns[3]), FromWord(ns[4]), FromWord(ns[5]), FromWord(ns[6]));
    if c2.error || !HeadOk(size, flags, count) || !Confined(path, root) then (Fail(c2), Batch(path, meta, size, flags, []))
    else
      var (c3, ds) := TakeDigests(c2, count, size);
      (c3, Batch(path, meta, size, flags, ds))
  }

  datatype Request = Malformed | Request(batch: Batch)

  /** A request without digests is served as soon as its head has been read: what follows it is not looked at. */
  function Decode(data: Bytes, root: Path): Request {
    var (c, b) := Parse(data, root);
    if c.error || (b.digests != [] && c.off != |data|) then Malformed else Request(Understood(b))
  }

  // ---------------------------------------------------------------------------
  // Round trip

  /** A batch whose encoding passes the checks of the remote peer. */
  ghost predicate Acceptable(b: Batch, root: Path) {
    && InRange(b) && |b.path| < PATH_MAX && HeadOk(b.size, b.flags, |b.digests|) && Confined(b.path, root)
    && forall d :: d in b.digests ==> DigestOk(d, b.size)
  }

  /** A client takes the path from a C string. */
  ghost predicate Sendable(b: Batch, root: Path) {
    Acceptable(b, root) && 0 !in b.path
  }

  /** The data is the encoding of the batch, followed by anything when the batch has no digests and by nothing otherwise. */
  ghost predicate Carries(data: Bytes, b: Batch) {
    Encode(b) <= data && (b.digests != [] ==> data == Encode(b))
  }

  lemma HeadFits(b: Batch)
    requires InRange(b)
    ensures Fit(HeadNums(b), HEAD_WIDTHS)
  {
    Widths();
    hide Pow256;
  }

  lemma DigestFits(d: Digest)
    requires DigestInRange(d)
    ensures Fit(DigestNums(d), DIGEST_WIDTHS)
  {
    Widths();
    hide Pow256;
  }

  lemma WordRoundTrip(i: int)
    requires IsInt64(i)
    ensures FromWord(Word(i)) == i
  {
  }

  lemma WordRoundTripBack(w: nat)
    requires w < WORD
    ensures IsInt64(FromWord(w)) && Word(FromWord(w)) == w
  {
  }

  lemma TakesDigest(c: Cursor, d: Digest)
    requires At(c, EncodeDigest(d)) && DigestInRange(d)
    ensures TakeDigest(c) == (Skip(c, |EncodeDigest(d)|), d)
  {
    hide EncodeNums, Total, TakeNums, Pow256;
    AtParts(c, EncodeNums(DigestNums(d), DIGEST_WIDTHS), d.hash);
    DigestFits(d);
    TakesNums(c, DigestNums(d), DIGEST_WIDTHS);
    WordRoundTrip(d.offset);
  }

  lemma {:induction false} TakesDigests(c: Cursor, ds: seq<Digest>, size: int)
    requires At(c, EncodeDigests(ds)) && forall d :: d in ds ==> DigestInRange(d) && DigestOk(d, size)
    ensures TakeDigests(c, |ds|, size) == (Skip(c, |EncodeDigests(ds)|), ds)
    decreases |ds|
  {
    hide EncodeDigest, TakeDigest, DigestOk, DigestInRange;
    if ds != [] {
      var x, y := EncodeDigest(ds[0]), EncodeDigests(ds[1..]);
      AtParts(c, x, y);
      TakesDigest(c, ds[0]);
      TakesDigests(Skip(c, |x|), ds[1..], size);
      assert ds == [ds[0]] + ds[1..];
      AtIsGood(c, x + y);
    }
  }

  lemma AtIsGood(c: Cursor, x: Bytes)
    requires At(c, x)
    ensures !c.error
  {
  }

  lemma PartsTaken(data: Bytes, b: Batch)
    requires InRange(b) && |b.path| < PATH_MAX && Encode(b) <= data
    requires forall d :: d in b.digests ==> DigestOk(d, b.size)
    ensures var c := Cursor(data, 0, false);
            var c1 := Skip(c, 4 + |b.path|);
            var c2 := Skip(c1, Total(HEAD_WIDTHS));
            && TakeString(c, PATH_MAX) == (c1, b.path) && TakeNums(c1, HEAD_WIDTHS) == (c2, HeadNums(b))
            && TakeDigests(c2, |b.digests|, b.size) == (Cursor(data, |Encode(b)|, false), b.digests)
  {
    hide Le, EncodeNums, EncodeDigests, TakeNums, TakeDigests, TakeString, Pow256, HeadNums, Total;
    var c := Cursor(data, 0, false);
    var x, y, z := Le(|b.path|, 4) + b.path, EncodeNums(HeadNums(b), HEAD_WIDTHS), EncodeDigests(b.digests);
    assert At(c, x + (y + z));
    AtParts(c, x, y + z);
    TakesString(c, b.path, PATH_MAX);
    var c1 := Skip(c, |x|);
    AtParts(c1, y, z);
    HeadFits(b);
    TakesNums(c1, HeadNums(b), HEAD_WIDTHS);
    TakesDigests(Skip(c1, |y|), b.digests, b.size);
  }

  /** Reading data that begins with an encoded batch stops right after it. */
  lemma ParsesEncoding(data: Bytes, b: Batch, root: Path)
    requires Acceptable(b, root) && Encode(b) <= data
    ensures Parse(data, root) == (Cursor(data, |Encode(b)|, false), b)
  {
    hide Encode, InRange, TakeNums, TakeDigests, TakeString, Total, DigestOk, Confined;
    PartsTaken(data, b);
    WordsBack(b);
  }

  /** Decoding a request that a client has encoded gives its fields and consumes every byte. */
  lemma RoundTrip(b: Batch, root: Path)
    requires Sendable(b, root)
    ensures Decode(Encode(b), root) == Request(b)
    ensures Parse(Encode(b), root).0.off == |Encode(b)|
  {
    hide Encode, Parse, Acceptable;
    ParsesEncoding(Encode(b), b, root);
  }

  lemma WordsBack(b: Batch)
    requires InRange(b)
    ensures var ns := HeadNums(b);
            b == Batch(b.path, Meta(ns[0], ns[1], ns[2], FromWord(ns[3]), FromWord(ns[4]), FromWord(ns[5]), FromWord(ns[6])),
                       FromWord(ns[7]), ns[8], b.digests)
  {
    WordRoundTrip(b.meta.atime);
    WordRoundTrip(b.meta.atimeNs);
    WordRoundTrip(b.meta.mtime);
    WordRoundTrip(b.meta.mtimeNs);
    WordRoundTrip(b.size);
  }

  // ---------------------------------------------------------------------------
  // Truncated requests

  lemma DigestFollows(whole: Cursor, part: Cursor)
    requires Follows(whole, part)
    ensures Follows(TakeDigest(whole).0, TakeDigest(part).0)
    ensures !TakeDigest(part).0.error ==> TakeDigest(part).1 == TakeDigest(whole).1
    ensures TakeDigest(whole).0.data == whole.data
  {
    NumsFollow(whole, part, DIGEST_WIDTHS);
    TakeFollows(TakeNums(whole, DIGEST_WIDTHS).0, TakeNums(part, DIGEST_WIDTHS).0, DIGEST_SIZE);
    NumsKeepData(whole, DIGEST_WIDTHS);
    hide TakeNums;
  }

  lemma {:induction false} DigestsFollow(whole: Cursor, part: Cursor, count: nat, size: int)
    requires Follows(whole, part)
    ensures Follows(TakeDigests(whole, count, size).0, TakeDigests(part, count, size).0)
    decreases count
  {
    hide TakeDigest, DigestOk;
    KeepsData(whole, count, size);
    if count > 0 && !part.error {
      DigestFollows(whole, part);
      if !TakeDigest(part).0.error {
        DigestsFollow(TakeDigest(whole).0, TakeDigest(part).0, count - 1, size);
      }
    }
  }

  lemma {:induction false} NumsKeepData(c: Cursor, ws: seq<nat>)
    ensures TakeNums(c, ws).0.data == c.data
    decreases |ws|
  {
    if ws != [] {
      NumsKeepData(TakeNumber(c, ws[0]).0, ws[1..]);
    }
  }

  lemma {:induction false} KeepsData(c: Cursor, count: nat, size: int)
    ensures TakeDigests(c, count, size).0.data == c.data
    decreases count
  {
    if count > 0 && !c.error {
      NumsKeepData(c, DIGEST_WIDTHS);
      KeepsData(TakeDigest(c).0, count - 1, size);
      hide TakeNums, DigestOk;
    }
  }

  lemma ParseKeepsData(data: Bytes, root: Path)
    ensures Parse(data, root).0.data == data
  {
    var c1 := TakeString(Cursor(data, 0, false), PATH_MAX).0;
    var (c2, ns) := TakeNums(c1, HEAD_WIDTHS);
    NumsKeepData(c1, HEAD_WIDTHS);
    KeepsData(c2, ns[9], FromWord(ns[7]));
    hide TakeNums, TakeDigests, FromLe, Confined;
  }

  lemma ParseFollows(data: Bytes, part: Bytes, root: Path)
    requires part <= data
    ensures Follows(Parse(data, root).0, Parse(part, root).0)
  {
    hide TakeNums, TakeDigests, TakeString, Confined;
    var whole0, part0 := Cursor(data, 0, false), Cursor(part, 0, false);
    StringFollows(whole0, part0, PATH_MAX);
    var w1, p1 := TakeString(whole0, PATH_MAX).0, TakeString(part0, PATH_MAX).0;
    NumsFollow(w1, p1, HEAD_WIDTHS);
    ErrorStays(p1, HEAD_WIDTHS);
    var (w2, wn) := TakeNums(w1, HEAD_WIDTHS);
    var (p2, pn) := TakeNums(p1, HEAD_WIDTHS);
    DigestsFollow(w2, p2, pn[9], FromWord(pn[7]));
    KeepsData(w2, wn[9], FromWord(wn[7]));
  }

  /** Every strict prefix of an encoded request sets the error flag of the decoder. */
  lemma PrefixIsMalformed(b: Batch, part: Bytes, root: Path)
    requires Acceptable(b, root) && part < Encode(b)
    ensures Parse(part, root).0.error && Decode(part, root) == Malformed
  {
    hide Encode, Parse, Acceptable;
    ParsesEncoding(Encode(b), b, root);
    ParseFollows(Encode(b), part, root);
    ParseKeepsData(part, root);
  }

  // ---------------------------------------------------------------------------
  // What is accepted

  lemma ReadDigest(c: Cursor)
    requires CursorOk(c) && !TakeDigest(c).0.error
    ensures Read(c, TakeDigest(c).0, EncodeDigest(TakeDigest(c).1)) && CursorOk(TakeDigest(c).0)
    ensures DigestInRange(TakeDigest(c).1)
  {
    hide TakeNums, Pow256, EncodeNums, Total;
    var (c1, ns) := TakeNums(c, DIGEST_WIDTHS);
    var (c2, hash) := Take(c1, DIGEST_SIZE);
    assert !c1.error;
    ReadNums(c, DIGEST_WIDTHS);
    Widths();
    WordRoundTripBack(ns[0]);
    assert DigestNums(TakeDigest(c).1) == ns;
    assert Read(c1, c2, hash);
    ReadParts(c, c1, c2, EncodeNums(ns, DIGEST_WIDTHS), hash);
  }

  lemma {:induction false} ReadDigests(c: Cursor, count: nat, size: int)
    requires !TakeDigests(c, count, size).0.error && CursorOk(c)
    ensures var (c', ds) := TakeDigests(c, count, size);
            && Read(c, c', EncodeDigests(ds)) && |ds| == count
            && forall d :: d in ds ==> DigestInRange(d) && DigestOk(d, size)
    decreases count
  {
    hide TakeDigest, EncodeDigest, DigestInRange, DigestOk;
    if count > 0 {
      ReadDigest(c);
      var (c1, d) := TakeDigest(c);
      ReadDigests(c1, count - 1, size);
      var (c2, ds) := TakeDigests(c1, count - 1, size);
      assert ([d] + ds)[1..] == ds;
      ReadParts(c, c1, c2, EncodeDigest(d), EncodeDigests(ds));
      hide Read;
    }
  }

  lemma HeadNumsBack(path: Bytes, ns: seq<nat>, ds: seq<Digest>)
    requires Fit(ns, HEAD_WIDTHS) && |ds| == ns[9] && |path| < Pow256(4) && forall d :: d in ds ==> DigestInRange(d)
    ensures var meta := Meta(ns[0], ns[1], ns[2], FromWord(ns[3]), FromWord(ns[4]), FromWord(ns[5]), FromWord(ns[6]));
            var b := Batch(path, meta, FromWord(ns[7]), ns[8], ds);
            InRange(b) && HeadNums(b) == ns
  {
    Widths();
    hide Pow256, DigestInRange;
    WordRoundTripBack(ns[3]);
    WordRoundTripBack(ns[4]);
    WordRoundTripBack(ns[5]);
    WordRoundTripBack(ns[6]);
    WordRoundTripBack(ns[7]);
  }

  /** What is read without an error is the encoding of the batch read, and that batch is acceptable. */
  lemma ReadsEncoding(data: Bytes, root: Path)
    requires !Parse(data, root).0.error
    ensures var (c, b) := Parse(data, root);
            Acceptable(b, root) && Encode(b) <= data && c.off == |Encode(b)|
  {
    hide TakeNums, TakeDigests, TakeString, Le, EncodeNums, EncodeDigests, Pow256, DigestOk, DigestInRange, Confined;
    var c0 := Cursor(data, 0, false);
    var (c1, path) := TakeString(c0, PATH_MAX);
    var (c2, ns) := TakeNums(c1, HEAD_WIDTHS);
    var (c3, ds) := TakeDigests(c2, ns[9], FromWord(ns[7]));
    ErrorStays(c1, HEAD_WIDTHS);
    ReadString(c0, PATH_MAX);
    ReadNums(c1, HEAD_WIDTHS);
    ReadDigests(c2, ns[9], FromWord(ns[7]));
    HeadNumsBack(path, ns, ds);
    ReadParts(c1, c2, c3, EncodeNums(ns, HEAD_WIDTHS), EncodeDigests(ds));
    ReadParts(c0, c1, c3, Le(|path|, 4) + path, EncodeNums(ns, HEAD_WIDTHS) + EncodeDigests(ds));
  }

  /** Exactly what the peer accepts, and as what: encodings, with anything after them when there are no digests. */
  lemma AcceptedIff(data: Bytes, root: Path, b: Batch)
    ensures Decode(data, root) == Request(b) <==>
            exists sent :: Acceptable(sent, root) && Carries(data, sent) && b == Understood(sent)
  {
    hide Parse, Acceptable, Encode;
    if Decode(data, root) == Request(b) {
      ReadsEncoding(data, root);
      assert Carries(data, Parse(data, root).1);
    }
    if sent :| Acceptable(sent, root) && Carries(data, sent) && b == Understood(sent) {
      ParsesEncoding(data, sent, root);
    }
  }

  lemma UnderstoodLen(b: Batch)
    ensures |Encode(b)| - |Encode(Understood(b))| == |b.path| - |CString(b.path)|
  {
    hide Le, EncodeNums, EncodeDigests;
  }

  /**
   An accepted request is the encoding of the batch it is taken for if and only if its
   path holds no NUL and no byte follows what was read.
   */
  lemma EncodingIff(data: Bytes, root: Path)
    requires Decode(data, root).Request?
    ensures var (c, sent) := Parse(data, root);
            Encode(Decode(data, root).batch) == data <==> 0 !in sent.path && c.off == |data|
  {
    hide Parse, Acceptable, Encode, CString;
    var (c, sent) := Parse(data, root);
    ReadsEncoding(data, root);
    UnderstoodLen(sent);
    assert CString(sent.path) == sent.path <==> 0 !in sent.path;
  }

  /** A batch that asks for metadata only, at the path "/". */
  function MetadataOnly(path: Bytes): Batch {
    Batch(path, Meta(0, 0, 0, 0, 0, 0, 0), 0, 0, [])
  }

  lemma MetadataAcceptable(path: Bytes)
    requires CString(path) == [47] && |path| < 4
    ensures Acceptable(MetadataOnly(path), [])
  {
    assert Chars([47]) == "/";
    assert Tokens("/") == Tokens("/"[1..]);
    Widths();
    hide CString, Pow256, Tokens;
  }

  /** Whatever follows a request without digests is not looked at. */
  lemma NothingReadAfter(b: Batch, root: Path, tail: Bytes)
    requires Acceptable(b, root) && CString(b.path) == b.path && b.digests == []
    ensures Sendable(b, root) && Decode(Encode(b) + tail, root) == Request(b)
    ensures tail != [] ==> Encode(b) + tail != Encode(b)
  {
    hide Encode, Acceptable, Decode;
    assert Carries(Encode(b) + tail, b);
    AcceptedIff(Encode(b) + tail, root, b);
  }

  /** A request for metadata with a stray byte after it is accepted. */
  lemma TrailingByteAccepted()
    ensures var b := MetadataOnly([47]);
            Sendable(b, []) && Decode(Encode(b) + [0], []) == Request(b) && Encode(b) + [0] != Encode(b)
  {
    var b := MetadataOnly([47]);
    assert CString([47]) == [47];
    hide *;
    MetadataAcceptable([47]);
    NothingReadAfter(b, [], [0]);
  }

  /** A request whose path holds a NUL is taken for one with the path before it. */
  lemma NulPathAccepted()
    ensures var sent := MetadataOnly([47, 0, 120]);
            Decode(Encode(sent), []) == Request(MetadataOnly([47])) && Encode(sent) != Encode(MetadataOnly([47]))
  {
    var sent := MetadataOnly([47, 0, 120]);
    assert CString(sent.path) == [47];
    hide Encode, Acceptable, CString, Decode;
    MetadataAcceptable(sent.path);
    UnderstoodLen(sent);
    assert Carries(Encode(sent), sent);
    AcceptedIff(Encode(sent), [], MetadataOnly([47]));
  }
}
