/**
 What "." and ".." mean in a path, without stepping through it: a name counts unless a later stretch
 of the path climbs more often than it descends, and the normal form is made of the names that count.
 */
module PathMeaning {
  import opened Machine
  import opened DirPaths
  import opened PathNormal

  predicate IsName(tok: string) { tok != "." && tok != ".." }

  /** How often a stretch of tokens climbs, and how often it descends. */
  function Ups(toks: seq<string>): nat {
    if toks == [] then 0 else Ups(toks[..|toks| - 1]) + if toks[|toks| - 1] == ".." then 1 else 0
  }

  function Downs(toks: seq<string>): nat {
    if toks == [] then 0 else Downs(toks[..|toks| - 1]) + if IsName(toks[|toks| - 1]) then 1 else 0
  }

  /** The stretch after token i and before token j climbs more often than it descends. */
  ghost predicate ClimbsOut(toks: seq<string>, i: nat, j: nat)
    requires i < j <= |toks|
  {
    Ups(toks[i + 1..j]) > Downs(toks[i + 1..j])
  }

  /** Token i is a name, and no stretch right after it climbs more often than it descends. */
  ghost predicate Survives(toks: seq<string>, i: nat) {
    && i < |toks| && IsName(toks[i])
    && forall j :: i < j <= |toks| ==> !ClimbsOut(toks, i, j)
  }

  /** The path is made of the surviving names, in their order. */
  ghost predicate Survivors(toks: seq<string>, idx: seq<nat>, p: Path) {
    && |idx| == |p|
    && (forall k, l :: 0 <= k < l < |idx| ==> idx[k] < idx[l])
    && (forall k :: 0 <= k < |idx| ==> idx[k] < |toks| && p[k] == toks[idx[k]])
    && (forall i: nat :: i in idx <==> Survives(toks, i))
  }

  /** The positions of the names that are left after all tokens. */
  function Left(toks: seq<string>): seq<nat> {
    if toks == [] then []
    else
      var n := |toks| - 1;
      var before := Left(toks[..n]);
      if toks[n] == "." then before
      else if toks[n] == ".." then (if before == [] then [] else before[..|before| - 1])
      else before + [n]
  }

  lemma {:induction false} LeftBelow(toks: seq<string>)
    ensures forall k :: 0 <= k < |Left(toks)| ==> Left(toks)[k] < |toks|
    ensures forall k, l :: 0 <= k < l < |Left(toks)| ==> Left(toks)[k] < Left(toks)[l]
  {
    if toks != [] {
      LeftBelow(toks[..|toks| - 1]);
    }
  }

  function Meaning(toks: seq<string>): (p: Path)
    ensures |p| == |Left(toks)|
  {
    LeftBelow(toks);
    seq(|Left(toks)|, k requires 0 <= k < |Left(toks)| => toks[Left(toks)[k]])
  }

  lemma MeaningSnoc(toks: seq<string>, tok: string)
    ensures var p := Meaning(toks);
            Meaning(toks + [tok]) ==
              if tok == "." then p
              else if tok == ".." then (if p == [] then [] else Parent(p))
              else p + [tok]
  {
    assert (toks + [tok])[..|toks|] == toks;
    LeftBelow(toks);
    LeftBelow(toks + [tok]);
    hide Left;
    assert forall i :: 0 <= i < |toks| ==> (toks + [tok])[i] == toks[i];
  }

  // ---------------------------------------------------------------------------
  // The names left are the survivors

  /** A stretch from i + 1 to the end grows by one token. */
  lemma Stretch(toks: seq<string>, tok: string, i: nat)
    requires i < |toks|
    ensures (toks + [tok])[i + 1..] == toks[i + 1..] + [tok]
    ensures Ups((toks + [tok])[i + 1..]) == Ups(toks[i + 1..]) + (if tok == ".." then 1 else 0)
    ensures Downs((toks + [tok])[i + 1..]) == Downs(toks[i + 1..]) + (if IsName(tok) then 1 else 0)
  {
    var s := toks[i + 1..];
    assert (toks + [tok])[i + 1..] == s + [tok];
    assert (s + [tok])[..|s|] == s;
  }

  lemma SurvivesSnoc(toks: seq<string>, tok: string, i: nat)
    requires i < |toks|
    ensures Survives(toks + [tok], i) <==>
            Survives(toks, i) && (tok == ".." ==> Ups(toks[i + 1..]) < Downs(toks[i + 1..]))
  {
    var t := toks + [tok];
    Stretch(toks, tok, i);
    forall j | i < j <= |toks|
      ensures ClimbsOut(t, i, j) <==> ClimbsOut(toks, i, j)
    {
      assert t[i + 1..j] == toks[i + 1..j];
    }
    assert t[i + 1..|t|] == t[i + 1..] && toks[i + 1..|toks|] == toks[i + 1..];
    hide Ups, Downs;
    if Survives(t, i) {
      assert !ClimbsOut(t, i, |t|) && !ClimbsOut(t, i, |toks|);
    }
    if Survives(toks, i) && (tok == ".." ==> Ups(toks[i + 1..]) < Downs(toks[i + 1..])) {
      assert !ClimbsOut(toks, i, |toks|);
    }
  }

  lemma NewSurvives(toks: seq<string>, tok: string)
    ensures Survives(toks + [tok], |toks|) <==> IsName(tok)
  {
    var t := toks + [tok];
    assert t[|toks| + 1..|t|] == [];
  }

  /** After a surviving name as many names are left as the rest of the path descends more often than it climbs. */
  ghost predicate Balanced(toks: seq<string>) {
    var left := Left(toks);
    forall k :: 0 <= k < |left| && left[k] < |toks| ==>
      Downs(toks[left[k] + 1..]) == Ups(toks[left[k] + 1..]) + |left| - 1 - k
  }

  ghost predicate LeftSurvive(toks: seq<string>) {
    forall i: nat :: i in Left(toks) <==> Survives(toks, i)
  }

  lemma BalancedSnoc(toks: seq<string>, tok: string)
    requires Balanced(toks)
    ensures Balanced(toks + [tok])
  {
    var t, left := toks + [tok], Left(toks + [tok]);
    assert t[..|toks|] == toks;
    LeftBelow(toks);
    forall k | 0 <= k < |left| && left[k] < |t|
      ensures Downs(t[left[k] + 1..]) == Ups(t[left[k] + 1..]) + |left| - 1 - k
    {
      if left[k] < |toks| {
        assert Left(toks)[k] == left[k];
        Stretch(toks, tok, left[k]);
      } else {
        assert t[left[k] + 1..] == [];
      }
    }
  }

  /** What one more token does to the positions left. */
  lemma LeftSnoc(toks: seq<string>, tok: string)
    ensures var before := Left(toks);
            Left(toks + [tok]) ==
              if tok == "." then before
              else if tok == ".." then (if before == [] then [] else before[..|before| - 1])
              else before + [|toks|]
  {
    assert (toks + [tok])[..|toks|] == toks;
  }

  /** A position that is left stays left, unless it is the last one and the path climbs. */
  lemma StaysLeft(toks: seq<string>, tok: string, i: nat)
    requires Balanced(toks) && i in Left(toks)
    ensures i < |toks|
    ensures i in Left(toks + [tok]) <==> (tok == ".." ==> Ups(toks[i + 1..]) < Downs(toks[i + 1..]))
  {
    LeftBelow(toks);
    LeftSnoc(toks, tok);
    var before := Left(toks);
    var k :| 0 <= k < |before| && before[k] == i;
    assert Downs(toks[i + 1..]) == Ups(toks[i + 1..]) + |before| - 1 - k;
    hide Left, Balanced, Ups, Downs;
    if tok == ".." && k < |before| - 1 {
      assert before[..|before| - 1][k] == i;
    }
  }

  lemma LeftSurviveSnoc(toks: seq<string>, tok: string)
    requires Balanced(toks) && LeftSurvive(toks)
    ensures LeftSurvive(toks + [tok])
  {
    LeftBelow(toks + [tok]);
    LeftSnoc(toks, tok);
    NewSurvives(toks, tok);
    hide Left, Balanced, Survives;
    forall i: nat
      ensures i in Left(toks + [tok]) <==> Survives(toks + [tok], i)
    {
      if i < |toks| {
        SurvivesSnoc(toks, tok, i);
        if i in Left(toks) {
          StaysLeft(toks, tok, i);
        }
      } else {
        LastLeft(toks, tok, i);
      }
    }
  }

  lemma LastLeft(toks: seq<string>, tok: string, i: nat)
    requires i >= |toks|
    ensures i in Left(toks + [tok]) <==> i == |toks| && IsName(tok)
    ensures Survives(toks + [tok], i) ==> i == |toks|
  {
    LeftBelow(toks);
    LeftSnoc(toks, tok);
    hide Left;
  }

  lemma {:induction false} AllLeftSurvive(toks: seq<string>)
    ensures Balanced(toks) && LeftSurvive(toks)
    decreases |toks|
  {
    if toks != [] {
      var n := |toks| - 1;
      AllLeftSurvive(toks[..n]);
      assert toks == toks[..n] + [toks[n]];
      BalancedSnoc(toks[..n], toks[n]);
      LeftSurviveSnoc(toks[..n], toks[n]);
    }
  }

  /** The meaning of tokens is the path of the names that survive. */
  lemma MeaningSurvives(toks: seq<string>)
    ensures Survivors(toks, Left(toks), Meaning(toks))
  {
    AllLeftSurvive(toks);
    LeftBelow(toks);
    hide Left, Survives;
  }

  // ---------------------------------------------------------------------------
  // Normalisation computes the meaning

  lemma {:induction false} ResolveSnoc(stack: Path, toks: seq<string>, tok: string, size: nat)
    ensures var r := Resolve(stack, toks, size);
            Resolve(stack, toks + [tok], size) ==
              if !r.Normal? then r
              else if tok == "." then r
              else if tok == ".." then Normal(if r.path == [] then [] else Parent(r.path))
              else if |Text(r.path + [tok])| + 1 > size then TooLong
              else Normal(r.path + [tok])
    decreases |toks|
  {
    var all := toks + [tok];
    if toks == [] {
      assert all == [tok] && all[1..] == [];
    } else {
      assert all[0] == toks[0] && all[1..] == toks[1..] + [tok];
      hide Text;
      if toks[0] == "." {
        ResolveSnoc(stack, toks[1..], tok, size);
      } else if toks[0] == ".." {
        ResolveSnoc(if stack == [] then [] else Parent(stack), toks[1..], tok, size);
      } else if |Text(stack + [toks[0]])| + 1 <= size {
        ResolveSnoc(stack + [toks[0]], toks[1..], tok, size);
      }
    }
  }

  /** On the way every path fits the buffer when its last name has been appended. */
  ghost predicate Fits(toks: seq<string>, size: nat) {
    forall j :: 0 <= j < |toks| && IsName(toks[j]) ==> |Text(Meaning(toks[..j + 1]))| + 1 <= size
  }

  lemma FitsSnoc(toks: seq<string>, tok: string, size: nat)
    ensures Fits(toks + [tok], size) <==> Fits(toks, size) && (IsName(tok) ==> |Text(Meaning(toks + [tok]))| + 1 <= size)
  {
    hide Text, Meaning;
    var t := toks + [tok];
    assert t[..|toks| + 1] == t;
    forall j {:trigger toks[j]} | 0 <= j < |toks|
      ensures t[..j + 1] == toks[..j + 1] && t[j] == toks[j]
    {
    }
    if Fits(t, size) {
      forall j | 0 <= j < |toks| && IsName(toks[j])
        ensures |Text(Meaning(toks[..j + 1]))| + 1 <= size
      {
        assert t[j] == toks[j];
      }
      assert t[|toks|] == tok;
    }
  }

  lemma {:induction false} ResolveIsMeaning(toks: seq<string>, size: nat)
    ensures Resolve([], toks, size) == if Fits(toks, size) then Normal(Meaning(toks)) else TooLong
    decreases |toks|
  {
    if toks == [] {
      assert Meaning(toks) == [];
    } else {
      var n := |toks| - 1;
      var front, tok := toks[..n], toks[n];
      assert toks == front + [tok];
      ResolveIsMeaning(front, size);
      ResolveSnoc([], front, tok, size);
      FitsSnoc(front, tok, size);
      MeaningSnoc(front, tok);
      hide Resolve, Fits, Meaning, Text;
    }
  }

  /**
   An absolute path is normalised to the names that survive in it, or is too long: as a text, or when
   on the way some path does not fit the buffer.
   */
  lemma NormalizeIsMeaning(input: string, size: nat)
    ensures var toks := Tokens(input);
            && Normalize(input, size) == (if input == "" || input[0] != '/' || size < 2 then Invalid
                                          else if |input| < PATH_MAX && Fits(toks, size) then Normal(Meaning(toks))
                                          else TooLong)
            && Survivors(toks, Left(toks), Meaning(toks))
  {
    ResolveIsMeaning(Tokens(input), size);
    MeaningSurvives(Tokens(input));
    hide Resolve, Fits, Meaning, Tokens, Survivors;
  }

  // ---------------------------------------------------------------------------
  // Laws

  lemma {:induction false} CleanMeaning(p: Path)
    requires Clean(p)
    ensures Meaning(p) == p
    decreases |p|
  {
    if p == [] {
      assert Meaning(p) == [];
    } else {
      var n := |p| - 1;
      CleanMeaning(p[..n]);
      MeaningSnoc(p[..n], p[n]);
      assert p == p[..n] + [p[n]];
    }
  }

  lemma CleanFits(p: Path, size: nat)
    requires Clean(p) && |Text(p)| + 1 <= size
    ensures Fits(p, size)
  {
    forall j {:trigger p[j]} | 0 <= j < |p|
      ensures |Text(Meaning(p[..j + 1]))| + 1 <= size
    {
      CleanMeaning(p[..j + 1]);
      assert p == p[..j + 1] + p[j + 1..];
      PrefixShorter(p[..j + 1], p[j + 1..]);
    }
  }

  lemma TokensOfDots()
    ensures Tokens("..") == [".."] && Tokens(".") == ["."]
  {
    assert NameOk("..") && NameOk(".");
    TokensOfName("..");
    TokensOfName(".");
  }

  /** ".." leads from a directory to its parent, and from the root to itself. */
  lemma DotDotClimbs(p: Path, size: nat)
    requires Clean(p) && |Text(p)| + 1 <= size && size >= 2 && |Text(p)| + 3 < PATH_MAX
    ensures Normalize(Text(p) + "/..", size) == Normal(if p == [] then [] else Parent(p))
  {
    var input := Text(p) + "/..";
    TextBegins(p);
    TokensConcat(Text(p), "..");
    assert input == Text(p) + "/" + "..";
    TokensOfText(p);
    TokensOfDots();
    NormalizeIsMeaning(input, size);
    CleanFits(p, size);
    FitsSnoc(p, "..", size);
    CleanMeaning(p);
    MeaningSnoc(p, "..");
  }

  /** "." leads nowhere. */
  lemma DotStays(p: Path, size: nat)
    requires Clean(p) && |Text(p)| + 1 <= size && size >= 2 && |Text(p)| + 2 < PATH_MAX
    ensures Normalize(Text(p) + "/.", size) == Normal(p)
  {
    var input := Text(p) + "/.";
    TextBegins(p);
    TokensConcat(Text(p), ".");
    assert input == Text(p) + "/" + ".";
    TokensOfText(p);
    TokensOfDots();
    NormalizeIsMeaning(input, size);
    CleanFits(p, size);
    FitsSnoc(p, ".", size);
    CleanMeaning(p);
    MeaningSnoc(p, ".");
  }

  /** A path that climbs out of the root is refused. */
  lemma ClimbingOutIsRefused(root: Path, size: nat)
    requires Clean(root) && root != [] && |Text(root)| + 1 <= size && size >= 2 && |Text(root)| + 3 < PATH_MAX
    ensures Normalize(Text(root) + "/..", size).Normal? && !(root <= Normalize(Text(root) + "/..", size).path)
  {
    DotDotClimbs(root, size);
  }
}
