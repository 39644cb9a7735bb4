/**
 The verification request byte by byte: which field stands where, and what a request has to say to
 be accepted.
 */
module VerifyLayout {
  import opened Machine
  import opened Bits
  import opened Wire
  import opened DirPaths
  import opened PathNormal
  import opened VerifyBatch

  /** At position `at` stands the number v in n bytes, the lowest first. */
  ghost predicate NumberAt(s: Bytes, at: nat, v: nat, n: nat) {
    at + n <= |s| && forall i {:trigger Pow256(i)} :: 0 <= i < n ==> s[at + i] == v / Pow256(i) % 256
  }

  /** A signed number stands as its value modulo 2^64. */
  ghost predicate SignedAt(s: Bytes, at: nat, v: int) {
    NumberAt(s, at, v % WORD, 8)
  }

  ghost predicate BytesAt(s: Bytes, at: nat, b: Bytes) {
    at + |b| <= |s| && s[at..at + |b|] == b
  }

  lemma LeIsNumber(s: Bytes, at: nat, v: nat, n: nat)
    requires BytesAt(s, at, Le(v, n))
    ensures NumberAt(s, at, v, n)
  {
    forall i {:trigger Pow256(i)} | 0 <= i < n
      ensures s[at + i] == v / Pow256(i) % 256
    {
      LeDigit(v, n, i);
      assert s[at..at + n][i] == s[at + i];
    }
  }

  lemma BytesParts(s: Bytes, at: nat, a: Bytes, b: Bytes)
    requires BytesAt(s, at, a + b)
    ensures BytesAt(s, at, a) && BytesAt(s, at + |a|, b)
  {
    var t := s[at..at + |a + b|];
    assert t[..|a|] == a && t[|a|..] == b;
    assert s[at..at + |a|] == t[..|a|] && s[at + |a|..at + |a| + |b|] == t[|a|..];
  }

  /** The k-th number of a row stands behind the widths of those before it. */
  lemma {:induction false} RowNumber(s: Bytes, at: nat, vs: seq<nat>, ws: seq<nat>, k: nat)
    requires |vs| == |ws| && k < |ws| && BytesAt(s, at, EncodeNums(vs, ws))
    ensures NumberAt(s, at + Total(ws[..k]), vs[k], ws[k])
    decreases k
  {
    hide NumberAt, BytesAt, Le;
    BytesParts(s, at, Le(vs[0], ws[0]), EncodeNums(vs[1..], ws[1..]));
    if k == 0 {
      LeIsNumber(s, at, vs[0], ws[0]);
      assert ws[..0] == [];
    } else {
      RowNumber(s, at + ws[0], vs[1..], ws[1..], k - 1);
      assert ws[1..][..k - 1] == ws[..k][1..];
      assert ws[..k][0] == ws[0];
    }
  }

  lemma Places()
    ensures forall k {:trigger HEAD_WIDTHS[k]} :: 0 <= k < 10 ==> Total(HEAD_WIDTHS[..k]) == [0, 4, 8, 12, 20, 28, 36, 44, 52, 53][k]
    ensures Total(HEAD_WIDTHS) == 57
    ensures forall k {:trigger DIGEST_WIDTHS[k]} :: 0 <= k < 3 ==> Total(DIGEST_WIDTHS[..k]) == [0, 8, 12][k]
    ensures Total(DIGEST_WIDTHS) == 13
  {
    HeadPlaces();
    DigestPlaces();
  }

  lemma {:induction false} TotalSnoc(ws: seq<nat>, w: nat)
    ensures Total(ws + [w]) == Total(ws) + w
  {
    if ws == [] {
      assert ws + [w] == [w] && [w][1..] == [];
    } else {
      assert (ws + [w])[1..] == ws[1..] + [w];
      TotalSnoc(ws[1..], w);
    }
  }

  lemma NextPlace(ws: seq<nat>, k: nat)
    requires k < |ws|
    ensures Total(ws[..k + 1]) == Total(ws[..k]) + ws[k]
  {
    assert ws[..k + 1] == ws[..k] + [ws[k]];
    TotalSnoc(ws[..k], ws[k]);
  }

  lemma HeadPlaces()
    ensures forall k {:trigger HEAD_WIDTHS[k]} :: 0 <= k < 10 ==> Total(HEAD_WIDTHS[..k]) == [0, 4, 8, 12, 20, 28, 36, 44, 52, 53][k]
    ensures Total(HEAD_WIDTHS) == 57
  {
    var ws := HEAD_WIDTHS;
    assert ws[..0] == [];
    NextPlace(ws, 0);
    NextPlace(ws, 1);
    NextPlace(ws, 2);
    NextPlace(ws, 3);
    NextPlace(ws, 4);
    NextPlace(ws, 5);
    NextPlace(ws, 6);
    NextPlace(ws, 7);
    NextPlace(ws, 8);
    NextPlace(ws, 9);
    assert ws[..10] == ws;
    hide Total;
  }

  lemma DigestPlaces()
    ensures forall k {:trigger DIGEST_WIDTHS[k]} :: 0 <= k < 3 ==> Total(DIGEST_WIDTHS[..k]) == [0, 8, 12][k]
    ensures Total(DIGEST_WIDTHS) == 13
  {
    var ws := DIGEST_WIDTHS;
    assert ws[..0] == [];
    NextPlace(ws, 0);
    NextPlace(ws, 1);
    NextPlace(ws, 2);
    assert ws[..3] == ws;
    hide Total;
  }

  // ---------------------------------------------------------------------------
  // Where the fields stand

  /** The head of a request from position `at` on. */
  ghost predicate HeadAt(s: Bytes, at: nat, b: Batch) {
    && NumberAt(s, at, b.meta.uid, 4) && NumberAt(s, at + 4, b.meta.gid, 4) && NumberAt(s, at + 8, b.meta.mode, 4)
    && SignedAt(s, at + 12, b.meta.atime) && SignedAt(s, at + 20, b.meta.atimeNs)
    && SignedAt(s, at + 28, b.meta.mtime) && SignedAt(s, at + 36, b.meta.mtimeNs)
    && SignedAt(s, at + 44, b.size) && NumberAt(s, at + 52, b.flags, 1) && NumberAt(s, at + 53, |b.digests|, 4)
  }

  ghost predicate DigestAt(s: Bytes, at: nat, d: Digest) {
    SignedAt(s, at, d.offset) && NumberAt(s, at + 8, d.length, 4) && NumberAt(s, at + 12, d.flags, 1) && BytesAt(s, at + 13, d.hash)
  }

  lemma HeadStands(s: Bytes, at: nat, b: Batch)
    requires InRange(b) && BytesAt(s, at, EncodeNums(HeadNums(b), HEAD_WIDTHS))
    ensures HeadAt(s, at, b)
  {
    hide NumberAt, BytesAt, EncodeNums, Total, DigestInRange;
    var vs := HeadNums(b);
    forall k {:trigger HEAD_WIDTHS[k]} | 0 <= k < 10
      ensures NumberAt(s, at + [0, 4, 8, 12, 20, 28, 36, 44, 52, 53][k], vs[k], HEAD_WIDTHS[k])
    {
      HeadPlaces();
      RowNumber(s, at, vs, HEAD_WIDTHS, k);
    }
    assert HEAD_WIDTHS[0] == 4 && HEAD_WIDTHS[1] == 4 && HEAD_WIDTHS[2] == 4 && HEAD_WIDTHS[3] == 8 && HEAD_WIDTHS[4] == 8;
    assert HEAD_WIDTHS[5] == 8 && HEAD_WIDTHS[6] == 8 && HEAD_WIDTHS[7] == 8 && HEAD_WIDTHS[8] == 1 && HEAD_WIDTHS[9] == 4;
    WordIsModulo(b.meta.atime);
    WordIsModulo(b.meta.atimeNs);
    WordIsModulo(b.meta.mtime);
    WordIsModulo(b.meta.mtimeNs);
    WordIsModulo(b.size);
  }

  lemma WordIsModulo(i: int)
    requires IsInt64(i)
    ensures Word(i) == i % WORD
  {
    TwosComplement(i, 0);
  }

  lemma DigestStands(s: Bytes, at: nat, d: Digest)
    requires DigestInRange(d) && BytesAt(s, at, EncodeDigest(d))
    ensures DigestAt(s, at, d)
  {
    hide NumberAt, BytesAt, EncodeNums, Total;
    var vs := DigestNums(d);
    DigestPlaces();
    BytesParts(s, at, EncodeNums(vs, DIGEST_WIDTHS), d.hash);
    forall k {:trigger DIGEST_WIDTHS[k]} | 0 <= k < 3
      ensures NumberAt(s, at + [0, 8, 12][k], vs[k], DIGEST_WIDTHS[k])
    {
      RowNumber(s, at, vs, DIGEST_WIDTHS, k);
    }
    assert DIGEST_WIDTHS[0] == 8 && DIGEST_WIDTHS[1] == 4 && DIGEST_WIDTHS[2] == 1;
    WordIsModulo(d.offset);
  }

  /** Each digest takes 45 bytes. */
  lemma {:induction false} DigestsStand(s: Bytes, at: nat, ds: seq<Digest>, k: nat)
    requires (forall d :: d in ds ==> DigestInRange(d)) && BytesAt(s, at, EncodeDigests(ds)) && k < |ds|
    ensures DigestAt(s, at + 45 * k, ds[k])
    decreases k
  {
    hide BytesAt, DigestAt, EncodeNums, Total;
    assert ds[0] in ds;
    DigestPlaces();
    BytesParts(s, at, EncodeDigest(ds[0]), EncodeDigests(ds[1..]));
    if k == 0 {
      DigestStands(s, at, ds[0]);
    } else {
      DigestsStand(s, at + 45, ds[1..], k - 1);
    }
  }

  lemma RequestParts(b: Batch)
    requires InRange(b)
    ensures var s, n := Encode(b), |b.path|;
            && BytesAt(s, 0, Le(n, 4)) && BytesAt(s, 4, b.path) && BytesAt(s, 4 + n, EncodeNums(HeadNums(b), HEAD_WIDTHS))
            && BytesAt(s, 4 + n + 57, EncodeDigests(b.digests)) && |s| == 4 + n + 57 + 45 * |b.digests|
  {
    var s := Encode(b);
    var x, y, z := Le(|b.path|, 4) + b.path, EncodeNums(HeadNums(b), HEAD_WIDTHS), EncodeDigests(b.digests);
    assert BytesAt(s, 0, x + (y + z));
    HeadPlaces();
    DigestsTotal(b.digests);
    hide BytesAt, EncodeNums, EncodeDigests, Le, Total, HeadNums, InRange;
    BytesParts(s, 0, x, y + z);
    BytesParts(s, 0, Le(|b.path|, 4), b.path);
    BytesParts(s, |x|, y, z);
  }

  /** The length of the path and the path, the head, and the digests of 45 bytes each. */
  ghost predicate RequestAt(s: Bytes, b: Batch) {
    var n := |b.path|;
    && |s| == 61 + n + 45 * |b.digests|
    && NumberAt(s, 0, n, 4) && BytesAt(s, 4, b.path) && HeadAt(s, 4 + n, b)
    && forall k: nat {:trigger b.digests[k]} :: k < |b.digests| ==> DigestAt(s, 61 + n + 45 * k, b.digests[k])
  }

  lemma PartsMakeRequest(s: Bytes, b: Batch)
    requires |s| == 61 + |b.path| + 45 * |b.digests| && BytesAt(s, 0, Le(|b.path|, 4)) && BytesAt(s, 4, b.path)
    requires HeadAt(s, 4 + |b.path|, b) && BytesAt(s, 61 + |b.path|, EncodeDigests(b.digests))
    requires forall d :: d in b.digests ==> DigestInRange(d)
    ensures RequestAt(s, b)
  {
    hide BytesAt, NumberAt, HeadAt, DigestAt, EncodeDigests, Le, DigestInRange;
    LeIsNumber(s, 0, |b.path|, 4);
    forall k: nat {:trigger b.digests[k]} | k < |b.digests|
      ensures DigestAt(s, 61 + |b.path| + 45 * k, b.digests[k])
    {
      DigestsStand(s, 61 + |b.path|, b.digests, k);
    }
  }

  /** Every field of an encoded request stands at its place. */
  lemma RequestLayout(b: Batch)
    requires InRange(b)
    ensures RequestAt(Encode(b), b)
  {
    hide BytesAt, HeadAt, EncodeNums, EncodeDigests, Le, HeadNums, Encode, DigestInRange, RequestAt;
    RequestParts(b);
    HeadStands(Encode(b), 4 + |b.path|, b);
    PartsMakeRequest(Encode(b), b);
  }

  lemma {:induction false} DigestsTotal(ds: seq<Digest>)
    requires forall d :: d in ds ==> DigestInRange(d)
    ensures |EncodeDigests(ds)| == 45 * |ds|
  {
    if ds != [] {
      DigestPlaces();
      DigestsTotal(ds[1..]);
      assert ds[0] in ds;
      hide EncodeNums, Total;
    }
  }

  // ---------------------------------------------------------------------------
  // What is accepted, field by field

  /**
   A batch is acceptable exactly if its path is shorter than 4096 bytes and resolves below the root,
   its size is not negative, it has at most 256 digests, none for a directory, only the four known
   flags, and each digest covers 1 to 4096 bytes inside the file and has no flag but the first.
   */
  lemma AcceptableMeans(b: Batch, root: Path)
    requires InRange(b)
    ensures Acceptable(b, root) <==>
            && |b.path| < 4096 && Confined(b.path, root) && b.size >= 0 && |b.digests| <= 256 && b.flags < 16
            && (b.flags % 2 == 1 ==> b.digests == [])
            && forall d :: d in b.digests ==>
                 && (d.flags == 0 || d.flags == 1) && 0 <= d.offset && 1 <= d.length <= 4096 && d.offset + d.length <= b.size
  {
    hide Confined, InRange;
  }
}
