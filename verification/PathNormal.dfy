/**
 Lexical normalisation of absolute paths, as the remote peer and the client do it in their
 own ways into a buffer of limited size, and the confinement of paths to a root directory.
 */
module PathNormal {
  import opened Machine
  import opened DirPaths

  // ---------------------------------------------------------------------------
  // Tokens and their meaning

  /** Length of the leading run without a slash. */
  function TokenLen(s: string): (n: nat)
    ensures n <= |s| && '/' !in s[..n]
    ensures n < |s| ==> s[n] == '/'
    ensures s != [] && s[0] != '/' ==> n > 0
  {
    if s == [] || s[0] == '/' then 0
    else
      assert s == [s[0]] + s[1..];
      1 + TokenLen(s[1..])
  }

  /** What strtok_r delivers for the delimiter "/". */
  function Tokens(s: string): seq<string>
    decreases |s|
  {
    if s == [] then []
    else if s[0] == '/' then Tokens(s[1..])
    else [s[..TokenLen(s)]] + Tokens(s[TokenLen(s)..])
  }

  datatype Outcome = Invalid | TooLong | Normal(path: Path)

  /** The meaning of a list of components on a stack of names whose text has to fit the buffer. */
  function Resolve(stack: Path, toks: seq<string>, size: nat): Outcome
    decreases |toks|
  {
    if toks == [] then Normal(stack)
    else if toks[0] == "." then Resolve(stack, toks[1..], size)
    else if toks[0] == ".." then Resolve(if stack == [] then [] else Parent(stack), toks[1..], size)
    else if |Text(stack + [toks[0]])| + 1 > size then TooLong
    else Resolve(stack + [toks[0]], toks[1..], size)
  }

  function Normalize(input: string, size: nat): Outcome {
    if input == "" || input[0] != '/' || size < 2 then Invalid
    else if |input| >= PATH_MAX then TooLong
    else Resolve([], Tokens(input), size)
  }

  ghost predicate Clean(p: Path) {
    PathOk(p) && forall i :: 0 <= i < |p| ==> p[i] != "." && p[i] != ".."
  }

  lemma {:induction false} TokensOk(s: string)
    ensures PathOk(Tokens(s))
    decreases |s|
  {
    if s != [] {
      if s[0] == '/' {
        TokensOk(s[1..]);
      } else {
        TokensOk(s[TokenLen(s)..]);
      }
    }
  }

  lemma {:induction false} TokenLenConcat(a: string, b: string)
    ensures TokenLen(a + "/" + b) == TokenLen(a)
  {
    var s := a + "/" + b;
    if a != [] && a[0] != '/' {
      assert s[1..] == a[1..] + "/" + b;
      TokenLenConcat(a[1..], b);
    }
  }

  lemma FirstToken(s: string)
    requires s != [] && s[0] != '/'
    ensures Tokens(s) == [s[..TokenLen(s)]] + Tokens(s[TokenLen(s)..])
  {
    hide TokenLen;
  }

  /** A slash separates tokens. */
  lemma {:induction false} TokensConcat(a: string, b: string)
    ensures Tokens(a + "/" + b) == Tokens(a) + Tokens(b)
    decreases |a|
  {
    var s := a + "/" + b;
    if a == [] {
      assert s[1..] == b;
    } else if a[0] == '/' {
      assert s[1..] == a[1..] + "/" + b;
      TokensConcat(a[1..], b);
    } else {
      var n := TokenLen(a);
      TokenLenConcat(a, b);
      assert s[..n] == a[..n] && s[n..] == a[n..] + "/" + b;
      TokensConcat(a[n..], b);
      assert s[0] == a[0];
      FirstToken(s);
      FirstToken(a);
      hide Tokens, TokenLen;
    }
  }

  lemma {:induction false} TokenLenOfName(n: string)
    requires '/' !in n
    ensures TokenLen(n) == |n|
  {
    if n != [] {
      assert n[0] in n;
      TokenLenOfName(n[1..]);
    }
  }

  lemma TokensOfName(n: Name)
    requires NameOk(n)
    ensures Tokens(n) == [n]
  {
    assert n[0] in n;
    TokenLenOfName(n);
    assert n[..|n|] == n && n[|n|..] == [];
  }

  /** Reading back the text of a path gives its names. */
  lemma {:induction false} TokensOfBody(p: Path)
    requires PathOk(p)
    ensures Tokens(Body(p)) == p
  {
    if p != [] {
      TokensOfBody(Parent(p));
      TokensConcat(Body(Parent(p)), Base(p));
      assert NameOk(p[|p| - 1]);
      TokensOfName(Base(p));
      assert p == Parent(p) + [Base(p)];
    }
  }

  lemma TokensOfText(p: Path)
    requires PathOk(p)
    ensures Tokens(Text(p)) == p
  {
    TokensOfBody(p);
    if p == [] {
      assert Tokens("/") == Tokens("/"[1..]);
    }
  }

  // ---------------------------------------------------------------------------
  // Properties of normal paths

  /** The result has no empty, "." or ".." components and fits the buffer. */
  lemma {:induction false} ResolveClean(stack: Path, toks: seq<string>, size: nat)
    requires Clean(stack) && PathOk(toks) && |Text(stack)| + 1 <= size && Resolve(stack, toks, size).Normal?
    ensures Clean(Resolve(stack, toks, size).path)
    ensures |Text(Resolve(stack, toks, size).path)| + 1 <= size
    decreases |toks|
  {
    if toks != [] {
      assert NameOk(toks[0]);
      if toks[0] == "." {
        ResolveClean(stack, toks[1..], size);
      } else if toks[0] == ".." {
        if stack != [] {
          ParentShorter(stack);
        }
        ResolveClean(if stack == [] then [] else Parent(stack), toks[1..], size);
      } else {
        ResolveClean(stack + [toks[0]], toks[1..], size);
      }
    }
  }

  lemma ParentShorter(p: Path)
    requires p != []
    ensures |Text(Parent(p))| <= |Text(p)|
  {
  }

  lemma NormalIsClean(input: string, size: nat)
    requires Normalize(input, size).Normal?
    ensures Clean(Normalize(input, size).path) && |Text(Normalize(input, size).path)| + 1 <= size
  {
    TokensOk(input);
    ResolveClean([], Tokens(input), size);
  }

  function TotalLen(toks: seq<string>): nat {
    if toks == [] then 0 else 1 + |toks[0]| + TotalLen(toks[1..])
  }

  lemma {:induction false} TokensLen(s: string)
    ensures TotalLen(Tokens(s)) <= |s| + 1
    ensures s != [] && s[0] == '/' ==> TotalLen(Tokens(s)) <= |s|
    decreases |s|
  {
    if s != [] {
      if s[0] == '/' {
        TokensLen(s[1..]);
      } else {
        TokensLen(s[TokenLen(s)..]);
      }
    }
  }

  /** Resolving never makes a path longer. */
  lemma {:induction false} ResolveLen(stack: Path, toks: seq<string>, size: nat)
    requires Resolve(stack, toks, size).Normal?
    ensures |Body(Resolve(stack, toks, size).path)| <= |Body(stack)| + TotalLen(toks)
    decreases |toks|
  {
    if toks != [] {
      if toks[0] == "." {
        ResolveLen(stack, toks[1..], size);
      } else if toks[0] == ".." {
        ResolveLen(if stack == [] then [] else Parent(stack), toks[1..], size);
      } else {
        var s' := stack + [toks[0]];
        assert Parent(s') == stack;
        ResolveLen(s', toks[1..], size);
      }
    }
  }

  /** Clean names that fit resolve to themselves. */
  lemma {:induction false} ResolveSelf(done: Path, rest: Path, size: nat)
    requires Clean(done + rest) && |Text(done + rest)| + 1 <= size
    ensures Resolve(done, rest, size) == Normal(done + rest)
    decreases |rest|
  {
    if rest == [] {
      assert done + rest == done;
    } else {
      assert (done + rest)[|done|] == rest[0];
      assert done + rest == (done + [rest[0]]) + rest[1..];
      PrefixShorter(done + [rest[0]], rest[1..]);
      ResolveSelf(done + [rest[0]], rest[1..], size);
    }
  }

  lemma {:induction false} PrefixShorter(a: Path, b: Path)
    ensures |Body(a)| <= |Body(a + b)|
    ensures |Text(a)| <= |Text(a + b)|
  {
    if b == [] {
      assert a + b == a;
    } else {
      assert Parent(a + b) == a + Parent(b);
      PrefixShorter(a, Parent(b));
    }
  }

  /** Normalising a normal path changes nothing. */
  lemma NormalizeIdempotent(input: string, size: nat)
    requires Normalize(input, size).Normal?
    ensures Normalize(Text(Normalize(input, size).path), size) == Normalize(input, size)
  {
    var p := Normalize(input, size).path;
    NormalIsClean(input, size);
    TokensLen(input);
    ResolveLen([], Tokens(input), size);
    TokensOfText(p);
    assert [] + p == p;
    ResolveSelf([], p, size);
    TextBegins(p);
  }

  lemma TextBegins(p: Path)
    ensures Text(p) != "" && Text(p)[0] == '/'
  {
    BodyBegins(p);
  }

  lemma {:induction false} BodyBegins(p: Path)
    ensures p != [] ==> Body(p) != "" && Body(p)[0] == '/'
  {
    if p != [] {
      BodyBegins(Parent(p));
    }
  }

  // ---------------------------------------------------------------------------
  // Confinement

  /** strncmp on the length of the root, then a look at the next byte. */
  predicate UnderRoot(norm: string, root: string)
    requires norm != ""
  {
    if root == "/" then norm[0] == '/'
    else root <= norm && (|norm| == |root| || norm[|root|] == '/')
  }

  lemma {:induction false} BodyPrefix(a: Path, b: Path)
    ensures Body(a) <= Body(a + b)
    ensures |Body(a + b)| == |Body(a)| || Body(a + b)[|Body(a)|] == '/'
  {
    if b == [] {
      assert a + b == a;
    } else {
      assert Parent(a + b) == a + Parent(b);
      BodyPrefix(a, Parent(b));
    }
  }

  /** The byte comparison confines exactly: a path is accepted if and only if the root's names begin it. */
  lemma UnderRootIsPrefix(p: Path, root: Path)
    requires PathOk(p) && PathOk(root)
    ensures Text(p) != "" && (UnderRoot(Text(p), Text(root)) <==> root <= p)
  {
    TextBegins(p);
    BodyBegins(root);
    if root == [] {
    } else {
      RootNotSlash(root);
      if root <= p {
        assert p == root + p[|root|..];
        BodyPrefix(root, p[|root|..]);
      } else if UnderRoot(Text(p), Text(root)) {
        UnderRootTokens(p, root);
      }
    }
  }

  lemma RootNotSlash(root: Path)
    requires PathOk(root) && root != []
    ensures Text(root) != "/"
  {
    assert NameOk(root[|root| - 1]);
  }

  lemma UnderRootTokens(p: Path, root: Path)
    requires PathOk(p) && PathOk(root) && root != [] && Text(root) != "/"
    requires Text(p) != "" && UnderRoot(Text(p), Text(root))
    ensures root <= p
  {
    var r, t := Text(root), Text(p);
    TokensOfText(p);
    TokensOfText(root);
    if |t| == |r| {
      assert t == r;
    } else {
      var rest := t[|r| + 1..];
      assert t == r + "/" + rest;
      TokensConcat(r, rest);
    }
  }
}
