/**
 Absolute paths as strings and as lists of names, and the order in which the pass that
 removes empty directories sorts them: deepest first, then by strcmp.
 */
module DirPaths {

  type Name = string
  type Path = seq<Name>

  ghost predicate NameOk(n: Name) { n != "" && '/' !in n }

  ghost predicate PathOk(p: Path) {
    forall i :: 0 <= i < |p| ==> NameOk(p[i])
  }

  function Parent(p: Path): Path
    requires p != []
  {
    p[..|p| - 1]
  }

  function Base(p: Path): Name
    requires p != []
  {
    p[|p| - 1]
  }

  function Body(p: Path): string {
    if p == [] then "" else Body(Parent(p)) + "/" + Base(p)
  }

  /** The path as the walk records it. */
  function Text(p: Path): string {
    if p == [] then "/" else Body(p)
  }

  // ---------------------------------------------------------------------------
  // strcmp

  /** Bytes before the first difference decide nothing. */
  function StrCmp(a: string, b: string): int {
    if a == [] then (if b == [] then 0 else -1)
    else if b == [] then 1
    else if a[0] != b[0] then (if a[0] < b[0] then -1 else 1)
    else StrCmp(a[1..], b[1..])
  }

  lemma {:induction false} StrCmpTotal(a: string, b: string)
    ensures StrCmp(a, b) == 0 <==> a == b
    ensures StrCmp(a, b) == -StrCmp(b, a)
  {
    if a != [] && b != [] && a[0] == b[0] {
      StrCmpTotal(a[1..], b[1..]);
      assert a == [a[0]] + a[1..] && b == [b[0]] + b[1..];
    }
  }

  lemma {:induction false} StrCmpTransitive(a: string, b: string, c: string)
    requires StrCmp(a, b) <= 0 && StrCmp(b, c) <= 0
    ensures StrCmp(a, c) <= 0
  {
    if a != [] && b != [] && c != [] && a[0] == b[0] == c[0] {
      StrCmpTransitive(a[1..], b[1..], c[1..]);
    }
  }

  /** What lies between two strings with a common prefix has that prefix too. */
  lemma {:induction false} BetweenHasPrefix(p: string, a: string, b: string, c: string)
    requires p <= a && p <= c && StrCmp(a, b) <= 0 && StrCmp(b, c) <= 0
    ensures p <= b
  {
    if p != [] {
      assert a[0] == p[0] == c[0];
      assert b != [] && b[0] == p[0];
      BetweenHasPrefix(p[1..], a[1..], b[1..], c[1..]);
      assert b == [b[0]] + b[1..];
    }
  }

  // ---------------------------------------------------------------------------
  // The last slash

  /** strrchr(p, '/') as an index, or 0 when there is no slash. */
  function ParentLen(s: string): (n: nat)
    ensures n <= |s|
  {
    if s == [] then 0
    else if s[|s| - 1] == '/' then |s| - 1
    else ParentLen(s[..|s| - 1])
  }

  lemma {:induction false} LastSlash(u: string, x: string)
    requires '/' !in x
    ensures ParentLen(u + "/" + x) == |u|
  {
    var s := u + "/" + x;
    if x != [] {
      var y := x[..|x| - 1];
      assert s[|s| - 1] == x[|x| - 1] && x[|x| - 1] in x;
      assert s[..|s| - 1] == u + "/" + y;
      LastSlash(u, y);
    }
  }

  lemma SplitAtSlash(u: string, x: string, v: string, y: string)
    requires u + "/" + x == v + "/" + y && '/' !in x && '/' !in y
    ensures u == v && x == y
  {
    LastSlash(u, x);
    LastSlash(v, y);
    assert u == (u + "/" + x)[..|u|] && v == (v + "/" + y)[..|v|];
    assert x == (u + "/" + x)[|u| + 1..] && y == (v + "/" + y)[|v| + 1..];
  }

  lemma {:induction false} BodyInjective(p: Path, q: Path)
    requires PathOk(p) && PathOk(q) && Body(p) == Body(q)
    ensures p == q
  {
    if p != [] && q != [] {
      SplitAtSlash(Body(Parent(p)), Base(p), Body(Parent(q)), Base(q));
      BodyInjective(Parent(p), Parent(q));
      assert p == Parent(p) + [Base(p)] && q == Parent(q) + [Base(q)];
    }
  }

  /** rmdir_same_parent: equal lengths and equal bytes before the last slash. */
  predicate SameParentText(a: string, b: string) {
    ParentLen(a) == ParentLen(b) && a[..ParentLen(a)] == b[..ParentLen(b)]
  }

  lemma TextParent(p: Path)
    requires PathOk(p) && p != []
    ensures ParentLen(Text(p)) == |Body(Parent(p))| && Text(p)[..ParentLen(Text(p))] == Body(Parent(p))
  {
    LastSlash(Body(Parent(p)), Base(p));
  }

  /** The byte comparison decides whether two directories have the same parent. */
  lemma SameParentIsExact(p: Path, q: Path)
    requires PathOk(p) && PathOk(q) && p != [] && q != []
    ensures SameParentText(Text(p), Text(q)) <==> Parent(p) == Parent(q)
  {
    TextParent(p);
    TextParent(q);
    if Body(Parent(p)) == Body(Parent(q)) {
      BodyInjective(Parent(p), Parent(q));
    }
  }

  function Slashes(s: string): nat {
    if s == [] then 0 else Slashes(s[..|s| - 1]) + if s[|s| - 1] == '/' then 1 else 0
  }

  lemma {:induction false} SlashesConcat(a: string, b: string)
    ensures Slashes(a + b) == Slashes(a) + Slashes(b)
  {
    if b == [] {
      assert a + b == a;
    } else {
      assert (a + b)[..|a + b| - 1] == a + b[..|b| - 1];
      SlashesConcat(a, b[..|b| - 1]);
    }
  }

  lemma {:induction false} NoSlash(s: string)
    ensures Slashes(s) == 0 <==> '/' !in s
  {
    if s != [] {
      NoSlash(s[..|s| - 1]);
      assert s == s[..|s| - 1] + [s[|s| - 1]];
    }
  }

  lemma {:induction false} BodySlashes(p: Path)
    requires PathOk(p)
    ensures Slashes(Body(p)) == |p|
  {
    if p != [] {
      var n := |p| - 1;
      BodySlashes(Parent(p));
      SlashesConcat(Body(Parent(p)), "/" + Base(p));
      SlashesConcat("/", Base(p));
      assert NameOk(p[n]);
      NoSlash(Base(p));
      OneSlash();
      assert Body(p) == Body(Parent(p)) + ("/" + Base(p));
    }
  }

  lemma OneSlash()
    ensures Slashes("/") == 1
  {
    assert "/"[..0] == "";
  }

  /** A path of the same length that begins like a child of q is a child of q. */
  lemma PrefixIsParent(b: Path, q: Path)
    requires PathOk(b) && PathOk(q) && |b| == |q| + 1 && Body(q) + "/" <= Body(b)
    ensures Parent(b) == q
  {
    var pre := Body(q) + "/";
    var rest := Body(b)[|pre|..];
    assert Body(b) == pre + rest;
    SlashesConcat(pre, rest);
    SlashesConcat(Body(q), "/");
    OneSlash();
    BodySlashes(b);
    BodySlashes(q);
    NoSlash(rest);
    assert NameOk(b[|b| - 1]);
    assert Body(b) == Body(q) + "/" + rest;
    SplitAtSlash(Body(Parent(b)), Base(b), Body(q), rest);
    BodyInjective(Parent(b), q);
  }

  /** Sorting by strcmp puts the children of one directory next to each other. */
  lemma SiblingsAdjacent(a: Path, b: Path, c: Path)
    requires PathOk(a) && PathOk(b) && PathOk(c) && |a| == |b| == |c| && a != []
    requires StrCmp(Text(a), Text(b)) <= 0 && StrCmp(Text(b), Text(c)) <= 0 && Parent(a) == Parent(c)
    ensures Parent(b) == Parent(a)
  {
    var q := Parent(a);
    var pre := Body(q) + "/";
    assert Body(a) == pre + Base(a) && Body(c) == pre + Base(c);
    BetweenHasPrefix(pre, Body(a), Body(b), Body(c));
    PrefixIsParent(b, q);
  }
}
