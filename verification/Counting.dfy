/** Counting the elements of a sequence that satisfy a predicate, and sequences without repetition. */
module Counting {

  datatype Option<+T> = None | Some(value: T)

  function Count<T>(s: seq<T>, f: T -> bool): (n: nat)
    ensures n <= |s|
  {
    if s == [] then 0 else Count(s[..|s| - 1], f) + if f(s[|s| - 1]) then 1 else 0
  }

  lemma {:induction false} CountUpdate<T>(s: seq<T>, k: nat, v: T, f: T -> bool)
    requires k < |s|
    ensures Count(s[k := v], f) == Count(s, f) - (if f(s[k]) then 1 else 0) + (if f(v) then 1 else 0)
  {
    var n := |s| - 1;
    if k == n {
      assert s[k := v][..n] == s[..n];
    } else {
      CountUpdate(s[..n], k, v, f);
      assert s[k := v][..n] == s[..n][k := v];
    }
  }

  lemma {:induction false} CountZero<T>(s: seq<T>, f: T -> bool)
    ensures Count(s, f) == 0 <==> forall k :: 0 <= k < |s| ==> !f(s[k])
  {
    if s != [] {
      var n := |s| - 1;
      CountZero(s[..n], f);
      assert forall k :: 0 <= k < n ==> s[..n][k] == s[k];
    }
  }

  lemma {:induction false} CountAll<T>(s: seq<T>, f: T -> bool)
    ensures Count(s, f) == |s| <==> forall k :: 0 <= k < |s| ==> f(s[k])
  {
    if s != [] {
      var n := |s| - 1;
      CountAll(s[..n], f);
      assert forall k :: 0 <= k < n ==> s[..n][k] == s[k];
    }
  }

  /** A predicate that implies another one does not count more. */
  lemma {:induction false} CountMonotone<T>(s: seq<T>, f: T -> bool, g: T -> bool)
    requires forall k :: 0 <= k < |s| && f(s[k]) ==> g(s[k])
    ensures Count(s, f) <= Count(s, g)
  {
    if s != [] {
      CountMonotone(s[..|s| - 1], f, g);
    }
  }

  lemma {:induction false} CountSame<T>(s: seq<T>, t: seq<T>, f: T -> bool)
    requires |s| == |t|
    requires forall k :: 0 <= k < |s| ==> f(s[k]) == f(t[k])
    ensures Count(s, f) == Count(t, f)
  {
    if s != [] {
      CountSame(s[..|s| - 1], t[..|t| - 1], f);
    }
  }

  function Sum<T>(s: seq<T>, f: T -> nat): nat {
    if s == [] then 0 else Sum(s[..|s| - 1], f) + f(s[|s| - 1])
  }

  lemma {:induction false} SumUpdate<T>(s: seq<T>, k: nat, v: T, f: T -> nat)
    requires k < |s|
    ensures Sum(s[k := v], f) == Sum(s, f) - f(s[k]) + f(v)
  {
    var n := |s| - 1;
    if k == n {
      assert s[k := v][..n] == s[..n];
    } else {
      SumUpdate(s[..n], k, v, f);
      assert s[k := v][..n] == s[..n][k := v];
    }
  }

  lemma {:induction false} SumLe<T>(s: seq<T>, t: seq<T>, f: T -> nat)
    requires |s| == |t| && forall k :: 0 <= k < |s| ==> f(s[k]) <= f(t[k])
    ensures Sum(s, f) <= Sum(t, f)
  {
    if s != [] {
      SumLe(s[..|s| - 1], t[..|t| - 1], f);
    }
  }

  /** A difference at one place is at least the difference of the sums. */
  lemma SumLess<T>(s: seq<T>, t: seq<T>, k: nat, f: T -> nat)
    requires |s| == |t| && k < |s| && forall i :: 0 <= i < |s| ==> f(s[i]) <= f(t[i])
    ensures Sum(s, f) + f(t[k]) - f(s[k]) <= Sum(t, f)
  {
    SumUpdate(s, k, t[k], f);
    SumLe(s[k := t[k]], t, f);
  }

  lemma {:induction false} SumBound<T>(s: seq<T>, f: T -> nat, b: nat)
    requires forall k :: 0 <= k < |s| ==> f(s[k]) <= b
    ensures Sum(s, f) <= b * |s|
  {
    if s != [] {
      SumBound(s[..|s| - 1], f, b);
    }
  }

  ghost predicate NoDup<T>(s: seq<T>) {
    forall i, j :: 0 <= i < j < |s| ==> s[i] != s[j]
  }

  function Elements<T>(s: seq<T>): set<T> {
    set x | x in s
  }

  lemma {:induction false} NoDupSize<T>(s: seq<T>)
    requires NoDup(s)
    ensures |Elements(s)| == |s|
  {
    if s != [] {
      var n := |s| - 1;
      NoDupSize(s[..n]);
      assert Elements(s) == Elements(s[..n]) + {s[n]};
    }
  }

  /** The numbers from lo on and before hi. */
  function Interval(lo: int, hi: int): (r: set<int>)
    requires lo <= hi
    ensures |r| == hi - lo && forall p :: p in r <==> lo <= p < hi
    decreases hi - lo
  {
    if lo == hi then {} else Interval(lo, hi - 1) + {hi - 1}
  }

  /** The numbers 0 .. n-1. */
  function Below(n: nat): (r: set<int>)
    ensures |r| == n
    ensures forall i :: i in r <==> 0 <= i < n
  {
    Interval(0, n)
  }

  lemma SubsetSize<T>(a: set<T>, b: set<T>)
    requires a <= b
    ensures |a| <= |b|
    ensures |a| == |b| ==> a == b
  {
    assert b == a + (b - a);
  }

  /** Distinct numbers below n: n of them are all of them, and fewer leave one out. */
  lemma Pigeonhole(s: seq<int>, n: nat)
    requires NoDup(s) && forall x :: x in s ==> 0 <= x < n
    ensures |s| <= n
    ensures |s| == n <==> forall i :: 0 <= i < n ==> i in s
  {
    var all := Below(n);
    NoDupSize(s);
    assert Elements(s) <= all;
    SubsetSize(Elements(s), all);
    if forall i :: 0 <= i < n ==> i in s {
      assert Elements(s) == all;
    } else {
      var i :| 0 <= i < n && i !in s;
      assert i in all && i !in Elements(s);
    }
  }

  /** k times b, by repeated addition. */
  function Times(k: int, b: int): (r: int)
    ensures b >= 0 ==> r >= 0
  {
    if k <= 0 then 0 else b + Times(k - 1, b)
  }

  lemma {:induction false} TimesIsProduct(k: nat, b: int)
    ensures Times(k, b) == k * b
  {
    if k > 0 {
      TimesIsProduct(k - 1, b);
    }
  }

  lemma {:induction false} TimesMonotone(j: nat, k: nat, b: nat)
    requires j <= k
    ensures 0 <= Times(j, b) <= Times(k, b)
    decreases k
  {
    if j < k {
      TimesMonotone(j, k - 1, b);
    } else if j > 0 {
      TimesMonotone(j - 1, k - 1, b);
    }
  }
}
