/** The two normalisation routines, each working in place on a buffer that holds a C string. */
module PathBuffers {
  import opened Machine
  import opened DirPaths
  import opened PathNormal

  const EINVAL: int := 22
  const ENAMETOOLONG: int := 36

  /** The buffer holds the string and its terminating NUL. */
  ghost predicate Holds(buf: array<char>, s: string)
    reads buf
  {
    && |s| < buf.Length && buf[..|s|] == s && buf[|s|] == '\0' && '\0' !in s
  }

  ghost predicate NoNul(p: Path) {
    forall i :: 0 <= i < |p| ==> '\0' !in p[i]
  }

  lemma {:induction false} TextNoNul(p: Path)
    requires NoNul(p)
    ensures '\0' !in Body(p) && '\0' !in Text(p)
  {
    if p != [] {
      assert '\0' !in p[|p| - 1];
      TextNoNul(Parent(p));
    }
  }

  lemma TextLen(p: Path)
    requires PathOk(p)
    ensures |Text(p)| >= 1 && (|Text(p)| == 1 <==> p == [])
    ensures Text(p) == "/" <==> p == []
  {
    TextBegins(p);
    if p != [] {
      assert NameOk(p[|p| - 1]);
    }
  }

  lemma PushText(p: Path, n: Name)
    ensures Text(p + [n]) == (if p == [] then "/" else Text(p) + "/") + n
  {
    assert Parent(p + [n]) == p && Base(p + [n]) == n;
    assert Body(p + [n]) == Body(p) + "/" + n;
    if p == [] {
      assert Body(p) == "" && "" + "/" + n == "/" + n;
    }
  }

  /** The text up to the last slash is that of the parent. */
  lemma PopText(p: Path)
    requires PathOk(p)
    ensures var k := ParentLen(Text(p));
            Text(if p == [] then [] else Parent(p)) == if k == 0 then "/" else Text(p)[..k]
  {
    TextBegins(p);
    if p == [] {
      assert Text(p)[..0] == "";
    } else {
      TextParent(p);
      if Parent(p) != [] {
        assert PathOk(Parent(p));
        TextLen(Parent(p));
      }
    }
  }

  lemma SkipSlash(s: string, i: nat)
    requires i < |s| && s[i] == '/'
    ensures Tokens(s[i..]) == Tokens(s[i + 1..])
  {
    hide TokenLen;
    assert s[i..][1..] == s[i + 1..];
  }

  /** strtok_r on what is left from pos on. */
  method NextToken(s: string, pos: nat) returns (found: bool, tok: string, next: nat)
    requires pos <= |s|
    ensures next <= |s|
    ensures !found ==> Tokens(s[pos..]) == []
    ensures found ==> pos < next <= |s| && tok != "" && Tokens(s[pos..]) == [tok] + Tokens(s[next..])
    ensures found ==> NameOk(tok) && forall c :: c in tok ==> c in s
  {
    assert s[|s|..] == [] && Tokens([]) == [];
    hide Tokens;
    var start := pos;
    while start < |s| && s[start] == '/'
      invariant pos <= start <= |s| && Tokens(s[start..]) == Tokens(s[pos..])
    {
      SkipSlash(s, start);
      start := start + 1;
    }
    if start == |s| {
      return false, "", start;
    }
    var n := TokenLen(s[start..]);
    next := start + n;
    tok := s[start..next];
    found := true;
    assert s[start..][..n] == tok && s[start..][n..] == s[next..];
    FirstToken(s[start..]);
  }

  /** strlen */
  method StrLen(buf: array<char>, ghost s: string) returns (n: nat)
    requires Holds(buf, s)
    ensures n == |s|
  {
    assert forall k :: 0 <= k < |s| ==> buf[k] == s[k] && s[k] in s;
    n := 0;
    while buf[n] != '\0'
      invariant n <= |s|
      decreases |s| - n
    {
      n := n + 1;
    }
  }

  /** memcpy of a string and its NUL to the end of the string in the buffer. */
  method PutAt(buf: array<char>, olen: nat, x: string, ghost s: string)
    requires Holds(buf, s) && olen == |s| && olen + |x| < buf.Length && '\0' !in x
    modifies buf
    ensures Holds(buf, s + x)
  {
    forall i | 0 <= i < |x| {
      buf[olen + i] := x[i];
    }
    buf[olen + |x|] := '\0';
    assert buf[..olen + |x|] == s + x;
  }

  /** Ends the string earlier. */
  method CutAt(buf: array<char>, n: nat, ghost s: string)
    requires Holds(buf, s) && n <= |s|
    modifies buf
    ensures Holds(buf, s[..n])
  {
    buf[n] := '\0';
    assert buf[..n] == s[..n];
  }

  /** What a routine has to leave behind. */
  ghost predicate Delivers(outcome: Outcome, rc: int, out: array<char>)
    reads out
  {
    match outcome
    case Invalid => rc == EINVAL
    case TooLong => rc == ENAMETOOLONG
    case Normal(p) => rc == 0 && Holds(out, Text(p))
  }

  // ---------------------------------------------------------------------------
  // The remote peer's routine keeps the length of the string in a variable

  /** "..": cuts the buffer at the last slash, or behind the first one. */
  method CutToParent(out: array<char>, olen: nat, ghost stack: Path) returns (n: nat)
    requires PathOk(stack) && NoNul(stack) && Holds(out, Text(stack)) && olen == |Text(stack)|
    modifies out
    ensures var q := if stack == [] then [] else Parent(stack);
            PathOk(q) && NoNul(q) && Holds(out, Text(q)) && n == |Text(q)|
  {
    hide Body;
    TextLen(stack);
    var slash := ParentLen(out[..olen]);
    assert out[..olen] == Text(stack);
    PopText(stack);
    if slash != 0 {
      CutAt(out, slash, Text(stack));
      n := slash;
    } else {
      CutAt(out, 1, Text(stack));
      TextBegins(stack);
      assert Text(stack)[..1] == "/";
      n := 1;
    }
  }

  /** A name: appends a slash, except behind the first one, and the name. */
  method PushToken(out: array<char>, olen: nat, tok: string, ghost stack: Path) returns (n: nat)
    requires PathOk(stack) && NoNul(stack) && Holds(out, Text(stack)) && olen == |Text(stack)|
    requires NameOk(tok) && '\0' !in tok && |Text(stack + [tok])| + 1 <= out.Length
    modifies out
    ensures PathOk(stack + [tok]) && NoNul(stack + [tok]) && Holds(out, Text(stack + [tok])) && n == |Text(stack + [tok])|
  {
    hide Body;
    TextLen(stack);
    PushText(stack, tok);
    n := olen;
    ghost var text := Text(stack);
    if n != 1 {
      PutAt(out, n, "/", text);
      text := text + "/";
      n := n + 1;
    }
    PutAt(out, n, tok, text);
    n := n + |tok|;
  }

  method NormalizeAbs(input: string, out: array<char>) returns (rc: int)
    requires '\0' !in input
    modifies out
    ensures Delivers(Normalize(input, out.Length), rc, out)
  {
    if input == "" || input[0] != '/' || out.Length < 2 {
      return EINVAL;
    }
    if |input| >= PATH_MAX {
      return ENAMETOOLONG;
    }
    hide Tokens, Body;
    out[0], out[1] := '/', '\0';
    var olen, pos := 1, 0;
    ghost var stack: Path := [];
    assert input[0..] == input;
    while true
      invariant pos <= |input| && PathOk(stack) && NoNul(stack) && Holds(out, Text(stack)) && olen == |Text(stack)|
      invariant Resolve(stack, Tokens(input[pos..]), out.Length) == Normalize(input, out.Length)
      decreases |input| - pos
    {
      var found, tok, next := NextToken(input, pos);
      if !found {
        return 0;
      }
      pos := next;
      if tok == "." {
        continue;
      }
      if tok == ".." {
        olen := CutToParent(out, olen, stack);
        stack := if stack == [] then [] else Parent(stack);
        continue;
      }
      var need := (if olen == 1 then 0 else 1) + |tok|;
      TextLen(stack);
      PushText(stack, tok);
      if olen + need + 1 > out.Length {
        return ENAMETOOLONG;
      }
      olen := PushToken(out, olen, tok, stack);
      stack := stack + [tok];
    }
  }

  // ---------------------------------------------------------------------------
  // The client's routine asks strlen each time

  method RemoveLastPathComponent(path: array<char>, ghost p: Path)
    requires PathOk(p) && NoNul(p) && Holds(path, Text(p))
    modifies path
    ensures Holds(path, Text(if p == [] then [] else Parent(p)))
  {
    var len := StrLen(path, Text(p));
    TextLen(p);
    assert path[..len] == Text(p);
    if path[..len] == "/" {
      return;
    }
    var slash := ParentLen(path[..len]);
    PopText(p);
    if slash == 0 {
      TextBegins(p);
      assert Text(p)[..1] == "/";
      CutAt(path, 1, Text(p));
    } else {
      CutAt(path, slash, Text(p));
    }
  }

  method AppendPathComponent(path: array<char>, component: string, ghost p: Path) returns (rc: int)
    requires PathOk(p) && Holds(path, Text(p)) && '\0' !in component
    modifies path
    ensures if |Text(p + [component])| + 1 > path.Length then rc == ENAMETOOLONG && Holds(path, Text(p))
            else rc == 0 && Holds(path, Text(p + [component]))
  {
    var len := StrLen(path, Text(p));
    TextLen(p);
    PushText(p, component);
    assert path[..len] == Text(p);
    var extraSlash := if path[..len] == "/" then 0 else 1;
    if len + extraSlash + |component| >= path.Length {
      return ENAMETOOLONG;
    }
    if extraSlash != 0 {
      PutAt(path, len, "/", Text(p));
      PutAt(path, len + 1, component, Text(p) + "/");
    } else {
      PutAt(path, len, component, Text(p));
    }
    rc := 0;
  }

  method ApplyComponent(out: array<char>, component: string, ghost p: Path, ghost rest: seq<string>)
    returns (rc: int, ghost q: Path)
    requires PathOk(p) && NoNul(p) && Holds(out, Text(p)) && NameOk(component) && '\0' !in component
    modifies out
    ensures rc == 0 ==> PathOk(q) && NoNul(q) && Holds(out, Text(q))
    ensures rc == 0 ==> Resolve(p, [component] + rest, out.Length) == Resolve(q, rest, out.Length)
    ensures rc != 0 ==> rc == ENAMETOOLONG && Resolve(p, [component] + rest, out.Length) == TooLong
  {
    hide Tokens, Body;
    assert ([component] + rest)[1..] == rest;
    if component == "." {
      rc, q := 0, p;
    } else if component == ".." {
      RemoveLastPathComponent(out, p);
      rc, q := 0, if p == [] then [] else Parent(p);
    } else {
      rc := AppendPathComponent(out, component, p);
      q := p + [component];
    }
  }

  method NormalizeAbsPathLexically(input: string, out: array<char>) returns (rc: int)
    requires '\0' !in input
    modifies out
    ensures Delivers(Normalize(input, out.Length), rc, out)
  {
    if input == "" || input[0] != '/' || out.Length < 2 {
      return EINVAL;
    }
    if |input| >= PATH_MAX {
      return ENAMETOOLONG;
    }
    hide Tokens, Body;
    out[0], out[1] := '/', '\0';
    ghost var stack: Path := [];
    assert input[0..] == input;
    var found, component, pos := NextToken(input, 0);
    while found
      invariant pos <= |input| && PathOk(stack) && NoNul(stack) && Holds(out, Text(stack))
      invariant found ==> NameOk(component) && '\0' !in component
      invariant Resolve(stack, if found then [component] + Tokens(input[pos..]) else [], out.Length) == Normalize(input, out.Length)
      decreases found, |input| - pos
    {
      rc, stack := ApplyComponent(out, component, stack, Tokens(input[pos..]));
      if rc != 0 {
        return;
      }
      found, component, pos := NextToken(input, pos);
    }
    rc := 0;
  }

  // ---------------------------------------------------------------------------
  // Confinement

  const EACCES: int := 13

  /** Normalise and confine: accepts exactly the paths whose names begin with those of the root. */
  method ResolvePath(input: string, out: array<char>, root: string, ghost rootPath: Path) returns (rc: int)
    requires '\0' !in input && PathOk(rootPath) && root == Text(rootPath)
    modifies out
    ensures var outcome := Normalize(input, out.Length);
            if outcome.Normal? && !(rootPath <= outcome.path) then rc == EACCES else Delivers(outcome, rc, out)
  {
    hide Resolve, Tokens, Text;
    rc := NormalizeAbs(input, out);
    if rc != 0 {
      return;
    }
    ghost var p := Normalize(input, out.Length).path;
    NormalIsClean(input, out.Length);
    UnderRootIsPrefix(p, rootPath);
    var n := StrLen(out, Text(p));
    assert out[..n] == Text(p);
    if !UnderRoot(out[..n], root) {
      return EACCES;
    }
  }
}
