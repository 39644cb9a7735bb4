/** Frames over a byte stream: headers, and full reads and writes over calls that move fewer bytes than asked. */
module Frames {
  import opened Machine
  import opened Wire

  const HEADER: nat := 13

  datatype Frame = Frame(kind: Byte, id: nat, payload: Bytes)

  ghost predicate FrameOk(f: Frame) {
    f.id < WORD && |f.payload| <= MAX_FRAME
  }

  function HeaderBytes(kind: Byte, id: nat, plen: nat): (r: Bytes)
    ensures |r| == HEADER
  {
    [kind] + (Le(id, 8) + Le(plen, 4))
  }

  function FrameBytes(f: Frame): Bytes {
    HeaderBytes(f.kind, f.id, |f.payload|) + f.payload
  }

  function StreamOf(fs: seq<Frame>): Bytes {
    if fs == [] then [] else FrameBytes(fs[0]) + StreamOf(fs[1..])
  }

  // ---------------------------------------------------------------------------
  // Streams are read in one way only

  lemma HeaderUnique(k: Byte, i: nat, n: nat, k': Byte, i': nat, n': nat)
    requires HeaderBytes(k, i, n) == HeaderBytes(k', i', n') && i < WORD && i' < WORD && n < Pow256(4) && n' < Pow256(4)
    ensures k == k' && i == i' && n == n'
  {
    hide Le, FromLe, Pow256;
    var h, h' := HeaderBytes(k, i, n), HeaderBytes(k', i', n');
    Widths();
    LeRoundTrip(i, 8);
    LeRoundTrip(i', 8);
    LeRoundTrip(n, 4);
    LeRoundTrip(n', 4);
    assert h[0] == k && h'[0] == k';
    assert h[1..9] == Le(i, 8) && h'[1..9] == Le(i', 8);
    assert h[9..] == Le(n, 4) && h'[9..] == Le(n', 4);
  }

  /** What stands where in a frame: kind, eight bytes of the request number, four of the length, and the payload. */
  lemma FrameLayout(f: Frame, i: nat)
    ensures var s := FrameBytes(f);
            && |s| == 13 + |f.payload| && s[0] == f.kind && s[13..] == f.payload
            && (i < 8 ==> s[1 + i] == f.id / Pow256(i) % 256)
            && (i < 4 ==> s[9 + i] == |f.payload| / Pow256(i) % 256)
  {
    var h := HeaderBytes(f.kind, f.id, |f.payload|);
    assert h[1..9] == Le(f.id, 8) && h[9..13] == Le(|f.payload|, 4);
    if i < 8 {
      LeDigit(f.id, 8, i);
      assert h[1..9][i] == h[1 + i];
    }
    if i < 4 {
      LeDigit(|f.payload|, 4, i);
      assert h[9..13][i] == h[9 + i];
    }
    hide Le, Pow256;
  }

  /** No two frames begin the same stream. */
  lemma FrameUnique(f: Frame, rest: Bytes, g: Frame, rest': Bytes)
    requires FrameOk(f) && FrameOk(g) && FrameBytes(f) + rest == FrameBytes(g) + rest'
    ensures f == g && rest == rest'
  {
    var s := FrameBytes(f) + rest;
    Widths();
    hide Le, FromLe, Pow256, HeaderBytes;
    assert s[..HEADER] == HeaderBytes(f.kind, f.id, |f.payload|);
    assert s[..HEADER] == HeaderBytes(g.kind, g.id, |g.payload|);
    HeaderUnique(f.kind, f.id, |f.payload|, g.kind, g.id, |g.payload|);
    var n := HEADER + |f.payload|;
    assert s[HEADER..n] == f.payload && s[HEADER..n] == g.payload;
    assert s[n..] == rest && s[n..] == rest';
  }

  /** A stream of frames determines the frames. */
  lemma {:induction false} StreamUnique(fs: seq<Frame>, gs: seq<Frame>)
    requires (forall f :: f in fs ==> FrameOk(f)) && (forall g :: g in gs ==> FrameOk(g)) && StreamOf(fs) == StreamOf(gs)
    ensures fs == gs
  {
    hide FrameBytes;
    if fs != [] && gs != [] {
      assert fs[0] in fs && gs[0] in gs;
      FrameUnique(fs[0], StreamOf(fs[1..]), gs[0], StreamOf(gs[1..]));
      StreamUnique(fs[1..], gs[1..]);
      assert fs == [fs[0]] + fs[1..] && gs == [gs[0]] + gs[1..];
    } else {
      NotEmpty(fs);
      NotEmpty(gs);
    }
  }

  lemma NotEmpty(fs: seq<Frame>)
    ensures fs != [] ==> StreamOf(fs) != []
  {
  }

  lemma {:induction false} StreamSnoc(fs: seq<Frame>, f: Frame)
    ensures StreamOf(fs + [f]) == StreamOf(fs) + FrameBytes(f)
  {
    hide FrameBytes;
    if fs == [] {
      assert fs + [f] == [f] && [f][1..] == [];
      assert StreamOf([f]) == FrameBytes(f) + StreamOf([]);
    } else {
      assert (fs + [f])[1..] == fs[1..] + [f];
      StreamSnoc(fs[1..], f);
    }
  }

  // ---------------------------------------------------------------------------
  // Reads and writes that may be short

  /** What one read or write call does: it is interrupted, fails, or moves at most k bytes. */
  datatype Outcome = Interrupted | Broken | Moves(k: nat)

  ghost predicate Clean(outs: seq<Outcome>) {
    forall o :: o in outs ==> o.Interrupted? || (o.Moves? && o.k > 0)
  }

  /** The next call; without further prescription it moves everything. */
  function Next(outs: seq<Outcome>, all: nat): Outcome {
    if outs == [] then Moves(all) else outs[0]
  }

  function Rest(outs: seq<Outcome>): seq<Outcome> {
    if outs == [] then [] else outs[1..]
  }

  lemma NextClean(outs: seq<Outcome>, all: nat)
    requires Clean(outs) && all > 0
    ensures Clean(Rest(outs)) && (Next(outs, all).Interrupted? || (Next(outs, all).Moves? && Next(outs, all).k > 0))
  {
    assert outs != [] ==> outs[0] in outs;
  }

  lemma MoveBytes(a: Bytes, b: Bytes, r: nat)
    requires r <= |b|
    ensures a + b == (a + b[..r]) + b[r..]
  {
  }

  function Min(a: nat, b: nat): nat { if a < b then a else b }

  /** A pipe, as the bytes that have been written and not yet read. */
  class Pipe {
    var bytes: Bytes

    constructor ()
      ensures bytes == []
    {
      bytes := [];
    }

    /** Writes all of buf, in as many calls as it takes, or a part of it and fails. */
    method WriteAll(buf: Bytes, outs0: seq<Outcome>) returns (rc: int, outs: seq<Outcome>)
      modifies this
      ensures Clean(outs0) ==> rc == 0 && Clean(outs)
      ensures rc == 0 ==> bytes == old(bytes) + buf
      ensures rc != 0 ==> exists n :: 0 <= n < |buf| && bytes == old(bytes) + buf[..n]
    {
      var done := 0;
      outs := outs0;
      assert buf[..0] == [];
      hide Clean;
      while done < |buf|
        invariant 0 <= done <= |buf| && bytes == old(bytes) + buf[..done]
        invariant Clean(outs0) ==> Clean(outs)
        decreases |outs|, |buf| - done
      {
        if Clean(outs) {
          NextClean(outs, |buf| - done);
        }
        var o := Next(outs, |buf| - done);
        outs := Rest(outs);
        match o
        case Interrupted =>
        case Broken => return -1, outs;
        case Moves(k) =>
          if k == 0 {
            return -1, outs;
          }
          var w := Min(k, |buf| - done);
          assert buf[..done + w] == buf[..done] + buf[done..done + w];
          bytes := bytes + buf[done..done + w];
          done := done + w;
      }
      assert buf[..done] == buf;
      rc := 0;
    }

    /** Reads exactly len bytes, in as many calls as it takes, or fails, also when the stream ends before. */
    method ReadAll(len: nat, outs0: seq<Outcome>) returns (rc: int, data: Bytes, outs: seq<Outcome>)
      modifies this
      ensures old(bytes) == data + bytes
      ensures Clean(outs0) ==> Clean(outs) && (rc == 0 <==> len <= |old(bytes)|)
      ensures rc == 0 ==> |data| == len
    {
      data, outs := [], outs0;
      hide Clean;
      while |data| < len
        invariant |data| <= len && old(bytes) == data + bytes
        invariant Clean(outs0) ==> Clean(outs)
        decreases |outs|, len - |data|
      {
        if Clean(outs) {
          NextClean(outs, len - |data|);
        }
        var o := Next(outs, len - |data|);
        outs := Rest(outs);
        match o
        case Interrupted =>
        case Broken => return -1, data, outs;
        case Moves(k) =>
          var r := Min(Min(k, len - |data|), |bytes|);
          if r == 0 {
            return -1, data, outs;
          }
          MoveBytes(data, bytes, r);
          data, bytes := data + bytes[..r], bytes[r..];
      }
      rc := 0;
    }

    // -------------------------------------------------------------------------
    // Frames

    /** Header, then both parts of the payload; frame_write is the case of one part. */
    method WriteFrame(kind: Byte, id: nat, head: Bytes, data: Bytes, outs0: seq<Outcome>) returns (rc: int, outs: seq<Outcome>)
      requires id < WORD
      modifies this
      ensures Clean(outs0) ==> rc == 0 && Clean(outs)
      ensures rc == 0 ==> bytes == old(bytes) + FrameBytes(Frame(kind, id, head + data))
    {
      hide HeaderBytes;
      ghost var before := bytes;
      var hdr := EncodeHeader(kind, id, |head| + |data|);
      rc, outs := WriteAll(hdr, outs0);
      if rc != 0 {
        return;
      }
      if |head| != 0 {
        rc, outs := WriteAll(head, outs);
        if rc != 0 {
          return;
        }
      }
      if |data| != 0 {
        rc, outs := WriteAll(data, outs);
      }
      assert rc == 0 ==> bytes == before + (hdr + (head + data));
    }

    method ReadHeader(outs0: seq<Outcome>) returns (rc: int, kind: Byte, id: nat, plen: nat, outs: seq<Outcome>)
      modifies this
      ensures Clean(outs0) ==> Clean(outs) && (rc == 0 <==> |old(bytes)| >= HEADER)
      ensures rc == 0 ==> old(bytes) == HeaderBytes(kind, id, plen) + bytes && id < WORD && plen < Pow256(4)
    {
      var hdr;
      rc, hdr, outs := ReadAll(HEADER, outs0);
      if rc != 0 {
        return rc, 0, 0, 0, outs;
      }
      kind, id, plen := hdr[0], FromLe(hdr[1..9]), FromLe(hdr[9..13]);
      Widths();
      FromLeRoundTrip(hdr[1..9]);
      FromLeRoundTrip(hdr[9..13]);
      hide Le, FromLe, Pow256;
      assert hdr == [hdr[0]] + (hdr[1..9] + hdr[9..13]);
    }

    /** Reads one frame, as the loop of the remote peer does: no frame at the end of the stream, or when it is too large. */
    method ReadFrame(outs0: seq<Outcome>) returns (got: bool, f: Frame, outs: seq<Outcome>)
      modifies this
      ensures Clean(outs0) ==> Clean(outs)
      ensures got ==> FrameOk(f) && old(bytes) == FrameBytes(f) + bytes
      ensures Clean(outs0) ==> forall g, rest :: FrameOk(g) && old(bytes) == FrameBytes(g) + rest ==> got
    {
      hide HeaderBytes, Pow256;
      ghost var before := bytes;
      f := Frame(0, 0, []);
      var rc, kind, id, plen;
      rc, kind, id, plen, outs := ReadHeader(outs0);
      if rc != 0 {
        return false, f, outs;
      }
      ghost var after := bytes;
      forall g, rest | FrameOk(g) && before == FrameBytes(g) + rest
        ensures plen == |g.payload| && plen <= |after|
      {
        Widths();
        assert before[..HEADER] == HeaderBytes(kind, id, plen) && before[..HEADER] == HeaderBytes(g.kind, g.id, |g.payload|);
        HeaderUnique(kind, id, plen, g.kind, g.id, |g.payload|);
      }
      if plen > MAX_FRAME {
        return false, f, outs;
      }
      var payload: Bytes := [];
      if plen != 0 {
        rc, payload, outs := ReadAll(plen, outs);
        if rc != 0 {
          return false, f, outs;
        }
      }
      f, got := Frame(kind, id, payload), true;
      assert before == HeaderBytes(kind, id, plen) + (payload + bytes);
    }

    /** Reads frames until there are no more. */
    method ReadFrames(outs0: seq<Outcome>) returns (fs: seq<Frame>, outs: seq<Outcome>, ghost left: Bytes)
      modifies this
      ensures forall f :: f in fs ==> FrameOk(f)
      ensures old(bytes) == StreamOf(fs) + left
      ensures Clean(outs0) ==> forall gs :: (forall g :: g in gs ==> FrameOk(g)) && old(bytes) == StreamOf(gs) ==> fs == gs
    {
      hide FrameBytes;
      fs, outs := [], outs0;
      ghost var all := bytes;
      left := bytes;
      while true
        invariant all == StreamOf(fs) + bytes && left == bytes && (Clean(outs0) ==> Clean(outs))
        invariant forall f :: f in fs ==> FrameOk(f)
        decreases |bytes|
      {
        var got, f;
        got, f, outs := ReadFrame(outs);
        if !got {
          break;
        }
        FrameHasBytes(f);
        StreamSnoc(fs, f);
        assert StreamOf(fs) + (FrameBytes(f) + bytes) == (StreamOf(fs) + FrameBytes(f)) + bytes;
        fs := fs + [f];
        left := bytes;
      }
      forall gs | Clean(outs0) && (forall g :: g in gs ==> FrameOk(g)) && all == StreamOf(gs)
        ensures fs == gs
      {
        AllRead(fs, left, gs);
      }
    }
  }

  lemma LeStep(v: nat, n: nat)
    requires n > 0
    ensures Le(v, n) == [v % 256] + Le(v / 256, n - 1)
  {
  }

  /** The eight bytes of the request number, the lowest first. */
  method PutId(b: array<Byte>, id: nat)
    requires b.Length == HEADER
    modifies b
    ensures b[0] == old(b[0]) && b[1..9] == Le(id, 8)
  {
    hide Le;
    ghost var bytes := Le(id, 8);
    var rest := id;
    for i := 0 to 8
      invariant b[0] == old(b[0]) && bytes[i..] == Le(rest, 8 - i)
      invariant forall j :: 0 <= j < i ==> b[1 + j] == bytes[j]
    {
      LeStep(rest, 8 - i);
      assert bytes[i] == bytes[i..][0] && bytes[i + 1..] == bytes[i..][1..];
      b[1 + i] := rest % 256;
      rest := rest / 256;
    }
  }

  method EncodeHeader(kind: Byte, id: nat, plen: nat) returns (hdr: Bytes)
    ensures hdr == HeaderBytes(kind, id, plen)
  {
    hide Le;
    var b := new Byte[HEADER](i => 0);
    b[0] := kind;
    PutId(b, id);
    ghost var first := b[..9];
    b[9], b[10], b[11], b[12] := plen % 256, plen / 0x100 % 256, plen / 0x1_0000 % 256, plen / 0x100_0000 % 256;
    FourBytes(plen);
    assert b[..9] == first == [kind] + Le(id, 8);
    assert b[9..] == Le(plen, 4);
    assert b[..] == b[..9] + b[9..];
    hdr := b[..];
  }

  lemma FourBytes(v: nat)
    ensures Le(v, 4) == [v % 256, v / 0x100 % 256, v / 0x1_0000 % 256, v / 0x100_0000 % 256]
  {
    assert Le(v, 4) == [v % 256] + Le(v / 256, 3);
    assert Le(v / 256, 3) == [v / 256 % 256] + Le(v / 256 / 256, 2);
    assert Le(v / 256 / 256, 2) == [v / 256 / 256 % 256] + Le(v / 256 / 256 / 256, 1);
    assert Le(v / 256 / 256 / 256, 1) == [v / 256 / 256 / 256 % 256] + Le(v / 256 / 256 / 256 / 256, 0);
  }

  lemma FrameHasBytes(f: Frame)
    ensures FrameBytes(f) != []
  {
  }

  lemma FirstOf(fs: seq<Frame>)
    requires forall f :: f in fs ==> FrameOk(f)
    ensures fs != [] ==> FrameOk(fs[0]) && StreamOf(fs) == FrameBytes(fs[0]) + StreamOf(fs[1..])
  {
    assert fs != [] ==> fs[0] in fs;
  }

  /** Where no frame can be read any more, the frames read so far are all. */
  lemma {:induction false} AllRead(fs: seq<Frame>, left: Bytes, gs: seq<Frame>)
    requires StreamOf(gs) == StreamOf(fs) + left
    requires (forall f :: f in fs ==> FrameOk(f)) && (forall g :: g in gs ==> FrameOk(g))
    requires forall g, rest :: FrameOk(g) ==> left != FrameBytes(g) + rest
    ensures fs == gs
    decreases |fs|
  {
    hide FrameBytes;
    FirstOf(gs);
    if fs == [] {
      assert StreamOf(fs) + left == left;
    } else if gs == [] {
      NotEmpty(fs);
    } else {
      assert fs[0] in fs && gs[0] in gs;
      assert StreamOf(fs) + left == FrameBytes(fs[0]) + (StreamOf(fs[1..]) + left);
      FrameUnique(fs[0], StreamOf(fs[1..]) + left, gs[0], StreamOf(gs[1..]));
      AllRead(fs[1..], left, gs[1..]);
      assert fs == [fs[0]] + fs[1..] && gs == [gs[0]] + gs[1..];
    }
  }
}
