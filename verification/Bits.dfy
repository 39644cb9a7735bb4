/** Bitwise operations on unbounded natural numbers, as far as masks and odd multipliers need them. */
module Bits {
  import opened Machine

  function Pow2(k: nat): (r: nat)
    ensures r >= 1
  {
    if k == 0 then 1 else 2 * Pow2(k - 1)
  }

  /** x << k, without wrap-around */
  function Shl(x: nat, k: nat): nat { x * Pow2(k) }

  /** x >> k */
  function Shr(x: nat, k: nat): nat {
    hide Pow2;
    x / Pow2(k)
  }

  function And(x: nat, y: nat): nat {
    if x == 0 || y == 0 then 0 else (x % 2) * (y % 2) + 2 * And(x / 2, y / 2)
  }

  function Xor(x: nat, y: nat): nat {
    if x == 0 then y else if y == 0 then x else (x % 2 + y % 2) % 2 + 2 * Xor(x / 2, y / 2)
  }

  /** x | 1 */
  function WithLowBit(x: nat): (r: nat)
    ensures r % 2 == 1
  {
    if x % 2 == 1 then x else x + 1
  }

  lemma Multiple(x: int, m: nat)
    ensures x >= 1 ==> x * m >= m
    ensures x <= -1 ==> x * m <= 0 - m
    ensures x == 0 ==> x * m == 0
  {
  }

  lemma Distribute(x: int, y: int, m: int)
    ensures x * m + y * m == (x + y) * m
    ensures x * m - y * m == (x - y) * m
  {
  }

  lemma Remainder(x: int, m: int, q: int, r: int)
    requires 0 <= r < m && x == q * m + r
    ensures x % m == r && x / m == q
  {
    var q', r' := x / m, x % m;
    var d := q - q';
    assert d * m == r' - r by {
      Distribute(q, q', m);
    }
    Multiple(d, m);
    assert d == 0;
  }

  lemma HalfMod(x: nat, m: nat)
    requires m > 0
    ensures x % (2 * m) == x % 2 + 2 * ((x / 2) % m)
  {
    var q, r := (x / 2) / m, (x / 2) % m;
    assert x == q * (2 * m) + (2 * r + x % 2);
    Remainder(x, 2 * m, q, 2 * r + x % 2);
  }

  lemma AndOdd(x: nat, m: nat)
    requires x > 0 && m > 0
    ensures And(x, 2 * m - 1) == x % 2 + 2 * And(x / 2, m - 1)
  {
    assert (2 * m - 1) / 2 == m - 1 && (2 * m - 1) % 2 == 1;
  }

  lemma MaskStep(x: nat, m: nat)
    requires x > 0 && m > 0 && And(x / 2, m - 1) == (x / 2) % m
    ensures And(x, 2 * m - 1) == x % (2 * m)
  {
    hide And;
    AndOdd(x, m);
    HalfMod(x, m);
  }

  /** Masking with 2^k - 1 keeps the remainder modulo 2^k. */
  lemma {:induction false} MaskIsMod(x: nat, k: nat)
    ensures And(x, Pow2(k) - 1) == x % Pow2(k)
  {
    if k == 0 || x == 0 {
      Remainder(x, Pow2(k), if k == 0 then x else 0, 0);
    } else {
      MaskIsMod(x / 2, k - 1);
      MaskStep(x, Pow2(k - 1));
      assert Pow2(k) == 2 * Pow2(k - 1);
      hide *;
    }
  }

  lemma XorStep(x: nat, y: nat)
    ensures Xor(x, y) % 2 == (x % 2 + y % 2) % 2 && Xor(x, y) / 2 == Xor(x / 2, y / 2)
  {
    if x == 0 {
      assert Xor(x / 2, y / 2) == y / 2;
    } else if y == 0 {
      assert Xor(x / 2, y / 2) == x / 2;
    } else {
      var rest := Xor(x / 2, y / 2);
      assert Xor(x, y) == (x % 2 + y % 2) % 2 + 2 * rest;
      hide Xor;
    }
  }

  lemma LowBitFirst(x: nat, y: nat, m: nat)
    requires m > 0
    ensures x % (2 * m) == y % (2 * m) <==> x % 2 == y % 2 && (x / 2) % m == (y / 2) % m
  {
    HalfMod(x, m);
    HalfMod(y, m);
  }

  /** Exclusive or with a fixed number neither merges nor splits what differs in the low k bits. */
  lemma {:induction false} XorKeepsApart(h: nat, a: nat, b: nat, k: nat)
    ensures Xor(h, a) % Pow2(k) == Xor(h, b) % Pow2(k) <==> a % Pow2(k) == b % Pow2(k)
    decreases k
  {
    hide Xor, Pow2;
    if k == 0 {
      ModOne(Xor(h, a), Xor(h, b), a, b);
    } else {
      var m := Pow2(k - 1);
      XorKeepsApart(h / 2, a / 2, b / 2, k - 1);
      XorStep(h, a);
      XorStep(h, b);
      LowBitFirst(Xor(h, a), Xor(h, b), m);
      LowBitFirst(a, b, m);
      SameBits(h, a, b);
      NextPower(k);
    }
  }

  lemma ModOne(x: nat, y: nat, a: nat, b: nat)
    ensures x % Pow2(0) == y % Pow2(0) && a % Pow2(0) == b % Pow2(0)
  {
    assert Pow2(0) == 1;
  }

  lemma SameBits(h: nat, a: nat, b: nat)
    ensures (h % 2 + a % 2) % 2 == (h % 2 + b % 2) % 2 <==> a % 2 == b % 2
  {
  }

  lemma NextPower(k: nat)
    requires k > 0
    ensures Pow2(k) == 2 * Pow2(k - 1)
  {
  }

  /** The words of the machine have 64 bits. */
  lemma WordIsPow2()
    ensures Pow2(64) == WORD
  {
    assert Pow2(4) == 16;
    Pow2Sum(4, 4);
    Pow2Sum(8, 8);
    Pow2Sum(16, 16);
    Pow2Sum(32, 32);
  }

  lemma {:induction false} Pow2Sum(i: nat, j: nat)
    ensures Pow2(i + j) == Pow2(i) * Pow2(j)
  {
    if i > 0 {
      Pow2Sum(i - 1, j);
      assert 2 * Pow2(i - 1) * Pow2(j) == 2 * (Pow2(i - 1) * Pow2(j));
    }
  }

  lemma {:induction false} Pow2Monotone(i: nat, j: nat)
    requires i <= j
    ensures Pow2(i) <= Pow2(j)
  {
    if i < j {
      Pow2Monotone(i, j - 1);
    }
  }

  /** Wrap-around at 2^w does not change the low k bits. */
  lemma WrapKeepsLowBits(x: nat, w: nat, k: nat)
    requires k <= w
    ensures (x % Pow2(w)) % Pow2(k) == x % Pow2(k)
  {
    Pow2Sum(w - k, k);
    ModOfMod(x, Pow2(w - k), Pow2(k));
  }

  lemma ModOfMod(x: nat, c: nat, m: nat)
    requires c * m > 0 && m > 0
    ensures (x % (c * m)) % m == x % m
  {
    var q, y := x / (c * m), x % (c * m);
    assert q * (c * m) == (q * c) * m;
    Distribute(q * c, y / m, m);
    Remainder(x, m, q * c + y / m, y % m);
  }

  lemma OddTimes(a: int, d: int, h: int)
    requires a % 2 == 1 && a * d == 2 * h
    ensures d == 2 * (d / 2)
  {
    var x, y := a / 2, d / 2;
    Distribute(2 * x, 1, d);
    assert (2 * x) * d == 2 * (x * d);
  }

  /** An odd factor can be cancelled modulo a power of two. */
  lemma {:induction false} OddCancel(a: int, d: int, k: nat, q: int) returns (e: int)
    requires a % 2 == 1 && a * d == q * Pow2(k)
    ensures d == e * Pow2(k)
    decreases k
  {
    if k == 0 {
      e := d;
    } else {
      var m := Pow2(k - 1);
      assert q * (2 * m) == 2 * (q * m);
      OddTimes(a, d, q * m);
      assert a * (2 * (d / 2)) == 2 * (a * (d / 2));
      e := OddCancel(a, d / 2, k - 1, q);
      assert 2 * (e * m) == e * (2 * m);
    }
  }

  lemma SameRemainder(x: int, y: int, m: nat) returns (q: int)
    requires m > 0 && x % m == y % m
    ensures y - x == q * m
  {
    q := y / m - x / m;
    Distribute(y / m, x / m, m);
  }

  /** An affine map with an odd factor hits no value twice below a power of two. */
  lemma AffineDistinct(a: nat, b: nat, k: nat, i: nat, j: nat)
    requires a % 2 == 1 && i < j < Pow2(k)
    ensures (a * i + b) % Pow2(k) != (a * j + b) % Pow2(k)
  {
    if (a * i + b) % Pow2(k) == (a * j + b) % Pow2(k) {
      var q := SameRemainder(a * i + b, a * j + b, Pow2(k));
      assert a * (j - i) == a * j - a * i;
      var e := OddCancel(a, j - i, k, q);
      Multiple(e, Pow2(k));
    }
  }
}
