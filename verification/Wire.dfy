/** Little-endian fields on the wire: encoder and decoder cursors and what they compute. */
module Wire {
  import opened Machine
  import opened Bits

  // ---------------------------------------------------------------------------
  // Numbers

  /** The low n bytes of v, the lowest first. */
  function Le(v: nat, n: nat): (r: Bytes)
    ensures |r| == n
  {
    if n == 0 then [] else [v % 256] + Le(v / 256, n - 1)
  }

  function FromLe(s: Bytes): nat {
    if s == [] then 0 else s[0] + 256 * FromLe(s[1..])
  }

  function Pow256(n: nat): (r: nat)
    ensures r > 0
  {
    if n == 0 then 1 else 256 * Pow256(n - 1)
  }

  lemma DivideTwice(v: nat, b: nat)
    requires b > 0
    ensures v / 256 / b == v / (256 * b)
  {
    var q, r := v / (256 * b), v % (256 * b);
    assert v == (256 * b) * q + r;
    assert (256 * b) * q == 256 * (b * q);
    assert v / 256 == b * q + r / 256;
    Remainder(v / 256, b, q, r / 256);
  }

  /** Byte i of a number is its digit i to the base 256. */
  lemma {:induction false} LeDigit(v: nat, n: nat, i: nat)
    requires i < n
    ensures Le(v, n)[i] == v / Pow256(i) % 256
    decreases i
  {
    if i > 0 {
      LeDigit(v / 256, n - 1, i - 1);
      DivideTwice(v, Pow256(i - 1));
      assert Le(v, n)[i] == Le(v / 256, n - 1)[i - 1];
    }
  }

  /** Reading n bytes back gives the number modulo 256^n, the number itself if it fits. */
  lemma {:induction false} LeRoundTrip(v: nat, n: nat)
    requires v < Pow256(n)
    ensures FromLe(Le(v, n)) == v
  {
    if n > 0 {
      LeRoundTrip(v / 256, n - 1);
      assert Le(v, n)[1..] == Le(v / 256, n - 1);
    }
  }

  lemma {:induction false} FromLeRoundTrip(s: Bytes)
    ensures Le(FromLe(s), |s|) == s && FromLe(s) < Pow256(|s|)
  {
    if s != [] {
      FromLeRoundTrip(s[1..]);
    }
  }

  lemma Widths()
    ensures Pow256(1) == 256 && Pow256(4) == 0x1_0000_0000 && Pow256(8) == WORD
  {
    assert Pow256(2) == 256 * Pow256(1);
    assert Pow256(3) == 256 * Pow256(2);
    assert Pow256(4) == 256 * Pow256(3);
    assert Pow256(5) == 256 * Pow256(4);
    assert Pow256(6) == 256 * Pow256(5);
    assert Pow256(7) == 256 * Pow256(6);
    assert Pow256(8) == 256 * Pow256(7);
  }

  /** Signed numbers travel as their two's complement. */
  function ToWord(i: int): nat
    requires 0 - HALF <= i < HALF
  {
    if i >= 0 then i else i + WORD
  }

  function FromWord(w: nat): int {
    if w < HALF then w else w - WORD
  }

  /** Both keep the number modulo 2^64; a signed number is at least -2^63 and below 2^63. */
  lemma TwosComplement(i: int, w: nat)
    ensures 0 - HALF <= i < HALF ==> 0 <= ToWord(i) < WORD && ToWord(i) == i % WORD
    ensures w < WORD ==> 0 - HALF <= FromWord(w) < HALF && FromWord(w) % WORD == w
  {
  }

  // ---------------------------------------------------------------------------
  // Encoder

  class Encoder {
    const buf: array<Byte>
    var len: nat
    var overflow: bool

    ghost predicate Valid()
      reads this, buf
    {
      len <= buf.Length
    }

    ghost function Output(): Bytes
      requires Valid()
      reads this, buf
    {
      buf[..len]
    }

    constructor (cap: nat)
      ensures Valid() && fresh(buf) && buf.Length == cap && Output() == [] && !overflow
    {
      buf := new Byte[cap](i => 0);
      len, overflow := 0, false;
    }

    /** Appends all bytes or none, and remembers when it could not. */
    method PutBytes(p: Bytes)
      requires Valid()
      modifies this, buf
      ensures Valid()
      ensures if old(len) + |p| > buf.Length then overflow && Output() == old(Output())
              else overflow == old(overflow) && Output() == old(Output()) + p
    {
      if len + |p| > buf.Length {
        overflow := true;
        return;
      }
      forall i | 0 <= i < |p| {
        buf[len + i] := p[i];
      }
      ghost var before := old(Output());
      len := len + |p|;
      assert buf[..len] == before + p;
    }

    method PutNumber(v: nat, n: nat)
      requires Valid()
      modifies this, buf
      ensures Valid()
      ensures if old(len) + n > buf.Length then overflow && Output() == old(Output())
              else overflow == old(overflow) && Output() == old(Output()) + Le(v, n)
    {
      var b: Bytes := [];
      var rest := v;
      for i := 0 to n
        invariant |b| == i && b + Le(rest, n - i) == Le(v, n)
      {
        assert b + ([rest % 256] + Le(rest / 256, n - i - 1)) == (b + [rest % 256]) + Le(rest / 256, n - i - 1);
        b := b + [rest % 256];
        rest := rest / 256;
      }
      assert b == Le(v, n);
      PutBytes(b);
    }

    /** A length and the bytes; on overflow possibly the length alone. */
    method PutString(s: Bytes)
      requires Valid()
      modifies this, buf
      ensures Valid()
      ensures if old(len) + 4 + |s| > buf.Length then overflow
              else overflow == old(overflow) && Output() == old(Output()) + (Le(|s|, 4) + s)
    {
      PutNumber(|s|, 4);
      ghost var between := Output();
      PutBytes(s);
      assert old(Output()) + Le(|s|, 4) + s == old(Output()) + (Le(|s|, 4) + s);
    }
  }

  // ---------------------------------------------------------------------------
  // Decoder

  /** A position in the data, with the sticky error flag. */
  datatype Cursor = Cursor(data: Bytes, off: nat, error: bool)

  ghost predicate CursorOk(c: Cursor) { c.off <= |c.data| }

  function Fail(c: Cursor): Cursor { c.(error := true) }

  function CanTake(c: Cursor, n: nat): bool { !c.error && c.off + n <= |c.data| }

  /** The next n bytes; zeros when they are not there. */
  function Take(c: Cursor, n: nat): (Cursor, Bytes)
  {
    if CanTake(c, n) then (c.(off := c.off + n), c.data[c.off..c.off + n]) else (Fail(c), [])
  }

  function TakeNumber(c: Cursor, n: nat): (Cursor, nat) {
    var (c', b) := Take(c, n);
    (c', FromLe(b))
  }

  function TakeString(c: Cursor, limit: nat): (Cursor, Bytes) {
    var (c', n) := TakeNumber(c, 4);
    if c'.error || n >= limit || c'.off + n > |c'.data| then (Fail(c'), [])
    else (c'.(off := c'.off + n), c'.data[c'.off..c'.off + n])
  }

  class Decoder {
    const data: array<Byte>
    var off: nat
    var error: bool

    ghost function View(): Cursor
      reads this, data
    {
      Cursor(data[..], off, error)
    }

    ghost predicate Valid()
      reads this, data
    {
      off <= data.Length
    }

    constructor (data: array<Byte>)
      ensures Valid() && this.data == data && View() == Cursor(data[..], 0, false)
    {
      this.data, off, error := data, 0, false;
    }

    method GetBytes(n: nat) returns (b: Bytes)
      requires Valid()
      modifies this
      ensures Valid() && (View(), b) == Take(old(View()), n)
    {
      if error || off + n > data.Length {
        error := true;
        return [];
      }
      b := data[off..off + n];
      assert b == data[..][off..off + n];
      off := off + n;
    }

    method GetNumber(n: nat) returns (v: nat)
      requires Valid()
      modifies this
      ensures Valid() && (View(), v) == TakeNumber(old(View()), n)
    {
      var b := GetBytes(n);
      v := 0;
      for i := |b| downto 0
        invariant v == FromLe(b[i..])
      {
        v := b[i] + 256 * v;
        assert b[i..][1..] == b[i + 1..];
      }
      assert b[0..] == b;
    }

    method GetString(limit: nat) returns (s: Bytes)
      requires Valid()
      modifies this
      ensures Valid() && (View(), s) == TakeString(old(View()), limit)
    {
      var n := GetNumber(4);
      if error || n >= limit || off + n > data.Length {
        error := true;
        return [];
      }
      s := data[off..off + n];
      assert s == data[..][off..off + n];
      off := off + n;
    }
  }

  // ---------------------------------------------------------------------------
  // Fields in the middle of data

  /** The data goes on with x at the cursor. */
  ghost predicate At(c: Cursor, x: Bytes) {
    !c.error && c.off + |x| <= |c.data| && c.data[c.off..c.off + |x|] == x
  }

  function Skip(c: Cursor, n: nat): Cursor { c.(off := c.off + n) }

  /** What follows after the first of two parts. */
  lemma AtParts(c: Cursor, x: Bytes, y: Bytes)
    requires At(c, x + y)
    ensures At(c, x) && At(Skip(c, |x|), y) && |x + y| == |x| + |y|
  {
    var z := c.data[c.off..c.off + |x + y|];
    assert z[..|x|] == x && z[|x|..] == y;
    assert c.data[c.off..c.off + |x|] == z[..|x|];
    assert c.data[c.off + |x|..c.off + |x| + |y|] == z[|x|..];
  }

  lemma TakesNumber(c: Cursor, v: nat, n: nat)
    requires At(c, Le(v, n)) && v < Pow256(n)
    ensures TakeNumber(c, n) == (Skip(c, n), v)
  {
    LeRoundTrip(v, n);
  }

  lemma TakesStringAfter(c: Cursor, c': Cursor, s: Bytes, limit: nat)
    requires TakeNumber(c, 4) == (c', |s|) && At(c', s) && |s| < limit
    ensures TakeString(c, limit) == (Skip(c', |s|), s)
  {
    hide TakeNumber;
  }

  lemma TakesString(c: Cursor, s: Bytes, limit: nat)
    requires At(c, Le(|s|, 4) + s) && |s| < limit && |s| < Pow256(4)
    ensures TakeString(c, limit) == (Skip(c, 4 + |s|), s)
  {
    hide Le, FromLe, Pow256, At, TakeNumber, TakeString;
    AtParts(c, Le(|s|, 4), s);
    TakesNumber(c, |s|, 4);
    TakesStringAfter(c, Skip(c, 4), s, limit);
  }

  // ---------------------------------------------------------------------------
  // Truncated data

  /** The same position in the whole data and in a part of it, unless the part has run out. */
  ghost predicate Follows(whole: Cursor, part: Cursor) {
    && part.data <= whole.data && part.off <= |part.data|
    && (!part.error ==> !whole.error && part.off == whole.off)
  }

  lemma TakeFollows(whole: Cursor, part: Cursor, n: nat)
    requires Follows(whole, part)
    ensures Follows(Take(whole, n).0, Take(part, n).0)
    ensures !Take(part, n).0.error ==> Take(part, n).1 == Take(whole, n).1
  {
    if CanTake(part, n) {
      assert part.data[part.off..part.off + n] == whole.data[part.off..part.off + n];
    }
  }

  lemma NumberFollows(whole: Cursor, part: Cursor, n: nat)
    requires Follows(whole, part)
    ensures Follows(TakeNumber(whole, n).0, TakeNumber(part, n).0)
    ensures !TakeNumber(part, n).0.error ==> TakeNumber(part, n).1 == TakeNumber(whole, n).1
  {
    TakeFollows(whole, part, n);
  }

  lemma StringFollows(whole: Cursor, part: Cursor, limit: nat)
    requires Follows(whole, part)
    ensures Follows(TakeString(whole, limit).0, TakeString(part, limit).0)
    ensures !TakeString(part, limit).0.error ==> TakeString(part, limit).1 == TakeString(whole, limit).1
  {
    NumberFollows(whole, part, 4);
    var (w, n) := TakeNumber(whole, 4);
    var (p, m) := TakeNumber(part, 4);
    if !TakeString(part, limit).0.error {
      assert p.data[p.off..p.off + m] == w.data[p.off..p.off + m];
    }
  }
}
