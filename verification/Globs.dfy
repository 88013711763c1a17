/** Location globs: their compilation to a regular expression, the direct reading of the
    documented tokens, and the proof that they agree. */
module Globs {

  // ---- The expressions the compiler emits ------------------------------------------

  datatype Class = Dot | NotSlash | Only(c: char) {
    predicate Has(x: char) {
      match this
      case Dot => x != '\n'
      case NotSlash => x != '/'
      case Only(c) => x == c
    }
  }

  datatype Regex =
    | One(class_: Class)
    | Many(class_: Class)
    | Then(first: Regex, second: Regex)
    | Maybe(inner: Regex)

  // The usual meaning: which strings an expression accepts in full.
  predicate Accepts(r: Regex, s: string) {
    match r
    case One(c) => |s| == 1 && c.Has(s[0])
    case Many(c) => forall i | 0 <= i < |s| :: c.Has(s[i])
    case Then(a, b) => exists k | 0 <= k <= |s| :: Accepts(a, s[..k]) && Accepts(b, s[k..])
    case Maybe(inner) => s == "" || Accepts(inner, s)
  }

  predicate AcceptsAll(rs: seq<Regex>, s: string)
    decreases |rs|
  {
    if rs == [] then s == ""
    else exists k | 0 <= k <= |s| :: Accepts(rs[0], s[..k]) && AcceptsAll(rs[1..], s[k..])
  }

  // The expression sits between `^` and `$`, and `$` also holds before one final newline.
  predicate PatternMatches(glob: string, path: string) {
    || AcceptsAll(Compile(glob), path)
    || (path != "" && path[|path| - 1] == '\n' && AcceptsAll(Compile(glob), path[..|path| - 1]))
  }

  // ---- The compiler ------------------------------------------------------------------

  datatype Token = EverythingUnder | AnyDirectory | LeadingDirectories | AnyRun | SegmentRun | SegmentChar | Literal(c: char)

  // The longest token at the start of the glob.
  function FirstToken(glob: string): Token
    requires glob != ""
  {
    if "**/*" <= glob then EverythingUnder
    else if "/**" <= glob then AnyDirectory
    else if "**/" <= glob then LeadingDirectories
    else if "**" <= glob then AnyRun
    else if glob[0] == '*' then SegmentRun
    else if glob[0] == '?' then SegmentChar
    else Literal(glob[0])
  }

  function Width(t: Token): nat {
    match t
    case EverythingUnder => 4
    case AnyDirectory => 3
    case LeadingDirectories => 3
    case AnyRun => 2
    case _ => 1
  }

  function Expression(t: Token): Regex {
    match t
    case EverythingUnder => Then(One(Dot), Many(Dot))
    case AnyDirectory => Maybe(Then(One(Only('/')), Many(Dot)))
    case LeadingDirectories => Maybe(Then(Many(Dot), One(Only('/'))))
    case AnyRun => Many(Dot)
    case SegmentRun => Many(NotSlash)
    case SegmentChar => One(NotSlash)
    case Literal(c) => One(Only(c))
  }

  function Compile(glob: string): seq<Regex>
    decreases |glob|
  {
    if glob == "" then []
    else
      var t := FirstToken(glob);
      [Expression(t)] + Compile(glob[Width(t)..])
  }

  // glob_to_regex
  method GlobToRegex(glob: string) returns (out: seq<Regex>)
    ensures out == Compile(glob)
  {
    out := [];
    var i, n := 0, |glob|;
    while i < n
      invariant 0 <= i <= n
      invariant out + Compile(glob[i..]) == Compile(glob)
    {
      var t := TokenFrom(glob, i);
      CompileStep(glob, i, out);
      out := out + [Expression(t)];
      i := i + Width(t);
    }
  }

  lemma CompileStep(glob: string, i: nat, out: seq<Regex>)
    requires i < |glob|
    ensures var t := TokenFrom(glob, i);
            && i + Width(t) <= |glob|
            && out + Compile(glob[i..]) == out + [Expression(t)] + Compile(glob[i + Width(t)..])
  {
    var t := TokenFrom(glob, i);
    TokenAt(glob, i);
    assert glob[i..][Width(t)..] == glob[i + Width(t)..];
    assert Compile(glob[i..]) == [Expression(t)] + Compile(glob[i + Width(t)..]);
    assert out + ([Expression(t)] + Compile(glob[i + Width(t)..])) == out + [Expression(t)] + Compile(glob[i + Width(t)..]);
  }

  // The compiler's look-ahead: the four- and three-character forms before the shorter ones.
  function TokenFrom(glob: string, i: nat): Token
    requires i < |glob|
  {
    if i + 4 <= |glob| && glob[i..i + 4] == "**/*" then EverythingUnder
    else if i + 3 <= |glob| && glob[i..i + 3] == "/**" then AnyDirectory
    else if i + 3 <= |glob| && glob[i..i + 3] == "**/" then LeadingDirectories
    else if i + 2 <= |glob| && glob[i..i + 2] == "**" then AnyRun
    else if glob[i] == '*' then SegmentRun
    else if glob[i] == '?' then SegmentChar
    else Literal(glob[i])
  }

  // Looking ahead by slices finds the first token.
  lemma TokenAt(glob: string, i: nat)
    requires i < |glob|
    ensures FirstToken(glob[i..]) == TokenFrom(glob, i)
    ensures i + Width(TokenFrom(glob, i)) <= |glob|
  {
    PrefixSlice(glob, i, "**/*");
    PrefixSlice(glob, i, "/**");
    PrefixSlice(glob, i, "**/");
    PrefixSlice(glob, i, "**");
  }

  lemma PrefixSlice(glob: string, i: nat, word: string)
    requires i <= |glob|
    ensures word <= glob[i..] <==> i + |word| <= |glob| && glob[i..i + |word|] == word
  {
    if i + |word| <= |glob| {
      assert glob[i..][..|word|] == glob[i..i + |word|];
    }
  }

  // ---- The direct reading ----------------------------------------------------------------

  /** Reads glob and path side by side, one token and one character at a time. */
  predicate Matches(glob: string, path: string)
    decreases |glob|, |path|, 1
  {
    if glob == "" then path == ""
    else
      var t := FirstToken(glob);
      var rest := glob[Width(t)..];
      match t
      case EverythingUnder => path != "" && AfterRun(rest, path[1..])
      case AnyDirectory => Matches(rest, path) || (path != "" && path[0] == '/' && AfterRun(rest, path[1..]))
      case LeadingDirectories => Matches(rest, path) || AfterSlash(rest, path)
      case AnyRun => AfterRun(rest, path)
      case SegmentRun => AfterSegment(rest, path)
      case SegmentChar => path != "" && path[0] != '/' && Matches(rest, path[1..])
      case Literal(c) => path != "" && path[0] == c && Matches(rest, path[1..])
  }

  // Skip any characters, then match.
  predicate AfterRun(glob: string, path: string)
    decreases |glob|, |path|, 2
  {
    Matches(glob, path) || (path != "" && AfterRun(glob, path[1..]))
  }

  // Skip to just behind some slash, then match.
  predicate AfterSlash(glob: string, path: string)
    decreases |glob|, |path|, 2
  {
    path != "" && ((path[0] == '/' && Matches(glob, path[1..])) || AfterSlash(glob, path[1..]))
  }

  // Skip characters of one path component, then match.
  predicate AfterSegment(glob: string, path: string)
    decreases |glob|, |path|, 2
  {
    Matches(glob, path) || (path != "" && path[0] != '/' && AfterSegment(glob, path[1..]))
  }

  // ---- What skipping means ------------------------------------------------------------------

  lemma {:induction false} AfterRunMeans(glob: string, path: string)
    ensures AfterRun(glob, path) <==> exists k | 0 <= k <= |path| :: Matches(glob, path[k..])
    decreases |path|
  {
    assert path[0..] == path;
    if path != "" {
      AfterRunMeans(glob, path[1..]);
      assert forall k | 1 <= k <= |path| :: path[k..] == path[1..][k - 1..];
      assert forall k | 0 <= k <= |path[1..]| :: path[1..][k..] == path[k + 1..];
    }
  }

  lemma {:induction false} AfterSlashMeans(glob: string, path: string)
    ensures AfterSlash(glob, path) <==> exists k | 0 <= k < |path| :: path[k] == '/' && Matches(glob, path[k + 1..])
    decreases |path|
  {
    if path != "" {
      var tail := path[1..];
      AfterSlashMeans(glob, tail);
      if k :| 0 <= k < |tail| && tail[k] == '/' && Matches(glob, tail[k + 1..]) {
        assert path[k + 1] == '/' && path[k + 2..] == tail[k + 1..];
      }
      if k :| 0 < k < |path| && path[k] == '/' && Matches(glob, path[k + 1..]) {
        assert tail[k - 1] == '/' && tail[k..] == path[k + 1..];
        assert Matches(glob, tail[(k - 1) + 1..]);
      }
    }
  }

  predicate NoSlash(s: string) {
    forall i | 0 <= i < |s| :: s[i] != '/'
  }

  lemma {:induction false} AfterSegmentMeans(glob: string, path: string)
    ensures AfterSegment(glob, path) <==> exists k | 0 <= k <= |path| :: NoSlash(path[..k]) && Matches(glob, path[k..])
    decreases |path|
  {
    assert path[0..] == path && path[..0] == "";
    if path != "" {
      var tail := path[1..];
      AfterSegmentMeans(glob, tail);
      if path[0] != '/' {
        if k :| 0 <= k <= |tail| && NoSlash(tail[..k]) && Matches(glob, tail[k..]) {
          assert path[..k + 1] == [path[0]] + tail[..k] && path[k + 1..] == tail[k..];
        }
      }
      if k :| 1 <= k <= |path| && NoSlash(path[..k]) && Matches(glob, path[k..]) {
        assert path[..k][0] == path[0];
        assert tail[..k - 1] == path[..k][1..] && tail[k - 1..] == path[k..];
      }
    }
  }

  // ---- Agreement -----------------------------------------------------------------------------

  predicate OneLine(s: string) {
    forall i | 0 <= i < |s| :: s[i] != '\n'
  }

  // What one emitted expression accepts, on a single line.
  predicate Covers(t: Token, s: string) {
    match t
    case EverythingUnder => s != ""
    case AnyDirectory => s == "" || s[0] == '/'
    case LeadingDirectories => s == "" || s[|s| - 1] == '/'
    case AnyRun => true
    case SegmentRun => NoSlash(s)
    case SegmentChar => |s| == 1 && s[0] != '/'
    case Literal(c) => s == [c]
  }

  lemma SlashThenAny(s: string)
    requires OneLine(s)
    ensures Accepts(Then(One(Only('/')), Many(Dot)), s) <==> s != "" && s[0] == '/'
  {
    if s != "" && s[0] == '/' {
      assert Accepts(One(Only('/')), s[..1]) && Accepts(Many(Dot), s[1..]);
    }
  }

  lemma AnyThenSlash(s: string)
    requires OneLine(s)
    ensures Accepts(Then(Many(Dot), One(Only('/'))), s) <==> s != "" && s[|s| - 1] == '/'
  {
    if s != "" && s[|s| - 1] == '/' {
      assert Accepts(Many(Dot), s[..|s| - 1]) && Accepts(One(Only('/')), s[|s| - 1..]);
    }
  }

  lemma OneThenAny(s: string)
    requires OneLine(s)
    ensures Accepts(Then(One(Dot), Many(Dot)), s) <==> s != ""
  {
    if s != "" {
      assert Accepts(One(Dot), s[..1]) && Accepts(Many(Dot), s[1..]);
    }
  }

  lemma ExpressionMeans(t: Token, s: string)
    requires OneLine(s)
    ensures Accepts(Expression(t), s) <==> Covers(t, s)
  {
    match t
    case EverythingUnder => OneThenAny(s);
    case AnyDirectory => SlashThenAny(s);
    case LeadingDirectories => AnyThenSlash(s);
    case _ =>
  }

  // The path splits into what a token covers and what the rest of the glob matches.
  predicate Splits(t: Token, rest: string, path: string) {
    exists k | 0 <= k <= |path| :: Covers(t, path[..k]) && Matches(rest, path[k..])
  }

  // Skipping at least the first character.
  lemma AfterFirst(rest: string, path: string)
    requires path != ""
    ensures AfterRun(rest, path[1..]) <==> exists k | 1 <= k <= |path| :: Matches(rest, path[k..])
  {
    var tail := path[1..];
    AfterRunMeans(rest, tail);
    if k :| 0 <= k <= |tail| && Matches(rest, tail[k..]) {
      assert tail[k..] == path[k + 1..];
    }
    if k :| 1 <= k <= |path| && Matches(rest, path[k..]) {
      assert tail[k - 1..] == path[k..];
    }
  }

  lemma EverythingSplits(rest: string, path: string)
    ensures path != "" && AfterRun(rest, path[1..]) <==> Splits(EverythingUnder, rest, path)
  {
    if path != "" {
      AfterFirst(rest, path);
      if k :| 1 <= k <= |path| && Matches(rest, path[k..]) {
        assert Covers(EverythingUnder, path[..k]);
      }
    }
  }

  lemma DirectorySplits(rest: string, path: string)
    ensures Matches(rest, path) || (path != "" && path[0] == '/' && AfterRun(rest, path[1..]))
            <==> Splits(AnyDirectory, rest, path)
  {
    assert path[..0] == "" && path[0..] == path && Covers(AnyDirectory, path[..0]);
    if path != "" {
      AfterFirst(rest, path);
      if k :| 1 <= k <= |path| && Matches(rest, path[k..]) {
        assert path[..k][0] == path[0];
      }
    }
  }

  lemma LeadingSplits(rest: string, path: string)
    ensures Matches(rest, path) || AfterSlash(rest, path) <==> Splits(LeadingDirectories, rest, path)
  {
    assert path[..0] == "" && path[0..] == path && Covers(LeadingDirectories, path[..0]);
    AfterSlashMeans(rest, path);
    if k :| 0 <= k < |path| && path[k] == '/' && Matches(rest, path[k + 1..]) {
      assert Covers(LeadingDirectories, path[..k + 1]);
    }
    if k :| 0 < k <= |path| && Covers(LeadingDirectories, path[..k]) && Matches(rest, path[k..]) {
      assert path[k - 1] == '/' && Matches(rest, path[(k - 1) + 1..]);
    }
  }

  lemma CharSplits(t: Token, rest: string, path: string)
    requires t.SegmentChar? || t.Literal?
    ensures path != "" && Covers(t, [path[0]]) && Matches(rest, path[1..]) <==> Splits(t, rest, path)
  {
    if path != "" {
      assert path[..1] == [path[0]];
    }
  }

  lemma RunSplits(rest: string, path: string)
    ensures AfterRun(rest, path) <==> Splits(AnyRun, rest, path)
  {
    AfterRunMeans(rest, path);
  }

  lemma SegmentSplits(rest: string, path: string)
    ensures AfterSegment(rest, path) <==> Splits(SegmentRun, rest, path)
  {
    AfterSegmentMeans(rest, path);
  }

  // One token of the direct reading, seen as a split of the path.
  lemma TokenMeans(glob: string, path: string)
    requires glob != ""
    ensures Matches(glob, path) <==> Splits(FirstToken(glob), glob[Width(FirstToken(glob))..], path)
  {
    var t := FirstToken(glob);
    var rest := glob[Width(t)..];
    match t
    case EverythingUnder => EverythingSplits(rest, path);
    case AnyDirectory => DirectorySplits(rest, path);
    case LeadingDirectories => LeadingSplits(rest, path);
    case AnyRun => RunSplits(rest, path);
    case SegmentRun => SegmentSplits(rest, path);
    case SegmentChar => CharSplits(t, rest, path);
    case Literal(_) => CharSplits(t, rest, path);
  }

  /** On single-line paths the emitted expressions accept exactly what the glob matches. */
  lemma {:induction false} CompiledMeans(glob: string, path: string)
    requires OneLine(path)
    ensures AcceptsAll(Compile(glob), path) <==> Matches(glob, path)
    decreases |glob|
  {
    if glob != "" {
      var t := FirstToken(glob);
      var rest := glob[Width(t)..];
      TokenMeans(glob, path);
      assert Compile(glob)[0] == Expression(t) && Compile(glob)[1..] == Compile(rest);
      forall k | 0 <= k <= |path|
        ensures Accepts(Expression(t), path[..k]) <==> Covers(t, path[..k])
        ensures AcceptsAll(Compile(rest), path[k..]) <==> Matches(rest, path[k..])
      {
        ExpressionMeans(t, path[..k]);
        CompiledMeans(rest, path[k..]);
      }
    }
  }

  // ---- Newlines --------------------------------------------------------------------------------

  // A glob that spells the path's shape: slashes as they are, `?` for everything else.
  function Shape(path: string): string {
    if path == "" then "" else [if path[0] == '/' then '/' else '?'] + Shape(path[1..])
  }

  lemma {:induction false} ShapeReads(path: string, other: string)
    ensures |Shape(path)| == |path|
    ensures AcceptsAll(Compile(Shape(path)), path)
    ensures Matches(Shape(path), other) ==> |other| == |path|
    decreases |path|
  {
    if path != "" {
      var g := Shape(path);
      ShapeHead(path);
      var t := FirstToken(g);
      assert g[1..] == Shape(path[1..]);
      ShapeReads(path[1..], if other == "" then "" else other[1..]);
      assert Compile(g)[0] == Expression(t) && Compile(g)[1..] == Compile(g[1..]);
      assert path[..1] == [path[0]] && Accepts(Expression(t), path[..1]);
      assert AcceptsAll(Compile(g)[1..], path[1..]);
    }
  }

  lemma {:induction false} ShapeHasNoStar(path: string)
    ensures forall i | 0 <= i < |Shape(path)| :: Shape(path)[i] != '*'
    decreases |path|
  {
    if path != "" {
      ShapeHasNoStar(path[1..]);
    }
  }

  lemma PrefixChar(word: string, s: string, i: nat)
    requires i < |word| && |s| > i && s[i] != word[i]
    ensures !(word <= s)
  {
  }

  lemma ShapeHead(path: string)
    requires path != ""
    ensures FirstToken(Shape(path)) == if path[0] == '/' then Literal('/') else SegmentChar
  {
    var g := Shape(path);
    ShapeHasNoStar(path);
    if |g| > 1 {
      PrefixChar("/**", g, 1);
    }
  }

  /** The generated pattern agrees with the documented tokens, for every glob, on exactly the
      paths without a newline. */
  lemma FaithfulExactly(path: string)
    ensures (forall glob: string :: PatternMatches(glob, path) <==> Matches(glob, path)) <==> OneLine(path)
  {
    if OneLine(path) {
      forall glob: string ensures PatternMatches(glob, path) <==> Matches(glob, path) {
        CompiledMeans(glob, path);
      }
    } else if path[|path| - 1] == '\n' {
      var stem := path[..|path| - 1];
      ShapeReads(stem, path);
      assert PatternMatches(Shape(stem), path) && !Matches(Shape(stem), path);
    } else {
      RunIsOneLine(path);
      AfterRunMeans("", path);
      assert path[|path|..] == "" && Matches("", path[|path|..]);
      assert FirstToken("**") == AnyRun && "**"[2..] == "";
      assert Matches("**", path) && !PatternMatches("**", path);
    }
  }

  lemma RunIsOneLine(s: string)
    ensures AcceptsAll(Compile("**"), s) ==> OneLine(s)
  {
    var rs := Compile("**");
    assert FirstToken("**") == AnyRun && "**"[2..] == "";
    assert rs == [Many(Dot)];
    assert rs[1..] == [];
    if AcceptsAll(rs, s) {
      var k :| 0 <= k <= |s| && Accepts(Many(Dot), s[..k]) && AcceptsAll([], s[k..]);
      assert s[..k] == s;
    }
  }

  /** `a` accepts a path with a newline behind it, and `**` no path with one inside. */
  lemma NewlineSamples()
    ensures PatternMatches("a", "a\n") && !Matches("a", "a\n")
    ensures Matches("**", "a\nb") && !PatternMatches("**", "a\nb")
  {
    CompiledMeans("a", "a");
    assert FirstToken("a") == Literal('a') && "a"[1..] == "" && "a\n"[..1] == "a" && "a\n"[1..] != "";
    RunIsOneLine("a\nb");
    AfterRunMeans("", "a\nb");
    assert "a\nb"[1] == '\n' && "a\nb"[3..] == "" && FirstToken("**") == AnyRun && "**"[2..] == "";
  }

  // ---- The documented tokens, one by one ---------------------------------------------------------

  lemma Behind(word: string, rest: string)
    ensures (word + rest)[|word|..] == rest && word <= word + rest
  {
  }

  // `**/*` stands for one or more characters of any kind.
  lemma EverythingUnderMeans(rest: string, path: string)
    ensures Matches("**/*" + rest, path) <==> exists k | 1 <= k <= |path| :: Matches(rest, path[k..])
  {
    Behind("**/*", rest);
    TokenMeans("**/*" + rest, path);
    assert FirstToken("**/*" + rest) == EverythingUnder;
    forall k | 0 <= k <= |path| ensures Covers(EverythingUnder, path[..k]) <==> k >= 1 {
    }
  }

  // `/**` stands for nothing, or a slash and anything behind it.
  lemma AnyDirectoryMeans(rest: string, path: string)
    ensures Matches("/**" + rest, path) <==>
            Matches(rest, path) || (path != "" && path[0] == '/' && exists k | 1 <= k <= |path| :: Matches(rest, path[k..]))
  {
    Behind("/**", rest);
    assert ("/**" + rest)[0] == '/' && "**/*"[0] == '*';
    assert FirstToken("/**" + rest) == AnyDirectory;
    if path != "" {
      AfterFirst(rest, path);
    }
  }

  // `**/` stands for any leading directories, or none, when no `*` comes right behind it.
  lemma LeadingDirectoriesMeans(rest: string, path: string)
    requires rest == "" || rest[0] != '*'
    ensures Matches("**/" + rest, path) <==>
            Matches(rest, path) || exists k | 0 <= k < |path| :: path[k] == '/' && Matches(rest, path[k + 1..])
  {
    var glob := "**/" + rest;
    Behind("**/", rest);
    assert glob[0] == '*' && (|glob| > 3 ==> glob[3] == rest[0]) && "**/*"[3] == '*' && "/**"[0] == '/';
    assert FirstToken(glob) == LeadingDirectories;
    AfterSlashMeans(rest, path);
  }

  // `**` stands for any run of characters, when no slash comes right behind it.
  lemma AnyRunMeans(rest: string, path: string)
    requires rest == "" || rest[0] != '/'
    ensures Matches("**" + rest, path) <==> exists k | 0 <= k <= |path| :: Matches(rest, path[k..])
  {
    var glob := "**" + rest;
    Behind("**", rest);
    assert glob[0] == '*' && (|glob| > 2 ==> glob[2] == rest[0]) && "**/*"[2] == '/' && "**/"[2] == '/' && "/**"[0] == '/';
    assert FirstToken(glob) == AnyRun;
    AfterRunMeans(rest, path);
  }

  // `*` stands for any run within one component, when no other `*` comes right behind it.
  lemma SegmentRunMeans(rest: string, path: string)
    requires rest == "" || rest[0] != '*'
    ensures Matches("*" + rest, path) <==> exists k | 0 <= k <= |path| :: NoSlash(path[..k]) && Matches(rest, path[k..])
  {
    var glob := "*" + rest;
    Behind("*", rest);
    assert glob[0] == '*' && (|glob| > 1 ==> glob[1] == rest[0]) && "**/*"[1] == '*' && "**"[1] == '*' && "/**"[0] == '/';
    assert "**/"[1] == '*' && FirstToken(glob) == SegmentRun;
    AfterSegmentMeans(rest, path);
  }

  // `?` stands for one character within a component; any other one stands for itself, but for a
  // slash in front of `**`.
  lemma OneCharMeans(c: char, rest: string, path: string)
    requires c != '*' && !(c == '/' && "**" <= rest)
    ensures Matches([c] + rest, path) <==>
            path != "" && (if c == '?' then path[0] != '/' else path[0] == c) && Matches(rest, path[1..])
  {
    var glob := [c] + rest;
    Behind([c], rest);
    assert glob[0] == c && "**/*"[0] == '*' && "**/"[0] == '*' && "**"[0] == '*';
  }
}
