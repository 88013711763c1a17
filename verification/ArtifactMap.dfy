/** The artifact map: which rule classifies a path, and when the audit passes. */
module ArtifactMap {
  import opened Prelude
  import opened Globs

  // ---- Specificity ---------------------------------------------------------------

  predicate Wildcard(c: char) {
    c == '*' || c == '?' || c == '['
  }

  predicate Fixed(s: string) {
    forall i | 0 <= i < |s| :: !Wildcard(s[i])
  }

  function FixedPrefix(glob: string): string {
    if glob == "" || Wildcard(glob[0]) then "" else [glob[0]] + FixedPrefix(glob[1..])
  }

  // str.split("/")
  function Split(s: string): (parts: seq<string>)
    ensures parts != []
  {
    if s == "" then [""]
    else
      var rest := Split(s[1..]);
      if s[0] == '/' then [""] + rest else [[s[0]] + rest[0]] + rest[1..]
  }

  function NonEmpty(parts: seq<string>): nat {
    if parts == [] then 0 else (if parts[0] == "" then 0 else 1) + NonEmpty(parts[1..])
  }

  function Specificity(glob: string): nat {
    NonEmpty(Split(FixedPrefix(glob)))
  }

  lemma {:induction false} NonEmptyAppend(a: seq<string>, b: seq<string>)
    ensures NonEmpty(a + b) == NonEmpty(a) + NonEmpty(b)
    decreases |a|
  {
    if a == [] {
      assert a + b == b;
    } else {
      assert (a + b)[1..] == a[1..] + b;
      NonEmptyAppend(a[1..], b);
    }
  }

  lemma {:induction false} SplitJoin(a: string, b: string)
    ensures Split(a + "/" + b) == Split(a) + Split(b)
    decreases |a|
  {
    if a == "" {
      assert a + "/" + b == "/" + b && ("/" + b)[1..] == b;
    } else {
      assert (a + "/" + b)[1..] == a[1..] + "/" + b;
      SplitJoin(a[1..], b);
    }
  }

  lemma {:induction false} FixedPrefixExtends(dir: string, rest: string)
    requires Fixed(dir)
    ensures FixedPrefix(dir + rest) == dir + FixedPrefix(rest)
    decreases |dir|
  {
    if dir == "" {
      assert dir + rest == rest;
    } else {
      assert (dir + rest)[1..] == dir[1..] + rest;
      FixedPrefixExtends(dir[1..], rest);
    }
  }

  /** A fixed directory in front of a glob adds exactly its own components to the specificity. */
  lemma SpecificityAdds(dir: string, rest: string)
    requires Fixed(dir)
    ensures Specificity(dir + "/" + rest) == Specificity(dir) + Specificity(rest)
  {
    FixedPrefixExtends(dir + "/", rest);
    FixedPrefixExtends(dir, "");
    assert dir + "" == dir;
    SplitJoin(dir, FixedPrefix(rest));
    NonEmptyAppend(Split(dir), Split(FixedPrefix(rest)));
  }

  // The documented key: the fixed components in front of the first one with a wildcard in it.
  function FixedComponents(parts: seq<string>): nat {
    if parts == [] || !Fixed(parts[0]) then 0
    else (if parts[0] == "" then 0 else 1) + FixedComponents(parts[1..])
  }

  // The first component with a wildcard in it begins with a fixed character, as in `src/lib*.rs`.
  predicate HalfFixed(parts: seq<string>) {
    parts != [] && if Fixed(parts[0]) then HalfFixed(parts[1..]) else !Wildcard(parts[0][0])
  }

  function Counted(parts: seq<string>): nat {
    FixedComponents(parts) + if HalfFixed(parts) then 1 else 0
  }

  lemma FixedExtends(c: char, s: string)
    ensures Fixed([c] + s) <==> !Wildcard(c) && Fixed(s)
  {
    assert forall i | 0 <= i < |s| :: ([c] + s)[i + 1] == s[i];
    assert ([c] + s)[0] == c;
  }

  // The fixed prefix holds the first component of the glob, or stops within it.
  lemma {:induction false} FirstComponent(glob: string)
    ensures var parts, fixed := Split(glob), Split(FixedPrefix(glob));
            && (Fixed(parts[0]) ==> fixed[0] == parts[0] && NonEmpty(fixed[1..]) == Counted(parts[1..]))
            && (!Fixed(parts[0]) ==> |fixed| == 1 && (fixed[0] == "" <==> Wildcard(parts[0][0])))
    decreases |glob|
  {
    if glob != "" && !Wildcard(glob[0]) {
      FirstComponent(glob[1..]);
      var parts, fixed := Split(glob[1..]), Split(FixedPrefix(glob[1..]));
      assert FixedPrefix(glob)[1..] == FixedPrefix(glob[1..]);
      FixedExtends(glob[0], parts[0]);
      if glob[0] == '/' {
        assert Split(glob)[1..] == parts && Split(FixedPrefix(glob))[1..] == fixed;
      } else {
        assert Split(glob)[1..] == parts[1..] && Split(FixedPrefix(glob))[1..] == fixed[1..];
      }
    } else if glob != "" {
      FixedExtends(glob[0], Split(glob[1..])[0]);
    }
  }

  /** The specificity is the documented number of fixed leading components exactly when the first
      component with a wildcard begins with one; otherwise that half-fixed component counts too. */
  lemma SpecificityExactly(glob: string)
    ensures Specificity(glob) == Counted(Split(glob))
    ensures Specificity(glob) == FixedComponents(Split(glob)) <==> !HalfFixed(Split(glob))
  {
    FirstComponent(glob);
    var parts, fixed := Split(glob), Split(FixedPrefix(glob));
    assert NonEmpty(fixed) == (if fixed[0] == "" then 0 else 1) + NonEmpty(fixed[1..]);
    if Fixed(parts[0]) {
      assert Counted(parts) == (if parts[0] == "" then 0 else 1) + Counted(parts[1..]);
    } else {
      assert fixed[1..] == [] && Counted(parts) == if Wildcard(parts[0][0]) then 0 else 1;
    }
  }

  lemma {:induction false} PlainSplit(s: string)
    requires forall i | 0 <= i < |s| :: s[i] != '/'
    ensures Split(s) == [s]
    decreases |s|
  {
    if s != "" {
      PlainSplit(s[1..]);
      assert [s[0]] + s[1..] == s && [s[1..]][1..] == [];
    }
  }

  /** A component that only begins fixed counts although it is not fixed. */
  lemma HalfFixedCounts(dir: string, name: string)
    requires dir != "" && Fixed(dir) && name != "" && !Fixed(name) && !Wildcard(name[0])
    requires forall i | 0 <= i < |dir| :: dir[i] != '/'
    requires forall i | 0 <= i < |name| :: name[i] != '/'
    ensures FixedComponents(Split(dir + "/" + name)) == 1 && Specificity(dir + "/" + name) == 2
  {
    SplitJoin(dir, name);
    PlainSplit(dir);
    PlainSplit(name);
    SpecificityExactly(dir + "/" + name);
    var parts := [dir] + [name];
    assert parts[0] == dir && parts[1..] == [name];
    assert FixedComponents(parts) == 1 + FixedComponents([name]) && HalfFixed(parts) == HalfFixed([name]);
  }

  lemma HalfFixedSample()
    ensures FixedComponents(Split("src/lib*.rs")) == 1 && Specificity("src/lib*.rs") == 2
  {
    assert "src/lib*.rs" == "src" + "/" + "lib*.rs";
    assert "lib*.rs"[3] == '*';
    HalfFixedCounts("src", "lib*.rs");
  }

  /** A `[` ends the fixed prefix of a glob and yet matches only itself. */
  lemma BracketSample()
    ensures Specificity("[") == 0 && Specificity("?") == 0 && FirstToken("[") == Literal('[')
    ensures forall path: string | OneLine(path) :: PatternMatches("[", path) <==> path == "["
  {
    assert Split("") == [""];
    assert FirstToken("[") == Literal('[') && "["[1..] == "";
    forall path: string | OneLine(path) ensures PatternMatches("[", path) <==> path == "[" {
      CompiledMeans("[", path);
    }
  }

  // ---- Classification --------------------------------------------------------------

  datatype Rule = Rule(genre: string, audience: string, glob: string, order: nat)

  // Longest match first; among equals, the earliest declared.
  predicate Better(a: Rule, b: Rule) {
    var x, y := Specificity(a.glob), Specificity(b.glob);
    x > y || (x == y && a.order < b.order)
  }

  // `best` is what a path deserves: some matching rule no matching rule is better than.
  predicate Classifies(path: string, rules: seq<Rule>, best: Option<Rule>) {
    match best
    case None => forall r | r in rules :: !PatternMatches(r.glob, path)
    case Some(b) =>
      && b in rules && PatternMatches(b.glob, path)
      && forall r | r in rules && PatternMatches(r.glob, path) :: !Better(r, b)
  }

  predicate DistinctOrders(rules: seq<Rule>) {
    forall i, j | 0 <= i < j < |rules| :: rules[i].order != rules[j].order
  }

  method Classify(path: string, rules: seq<Rule>) returns (best: Option<Rule>)
    ensures Classifies(path, rules, best)
    ensures best.Some? ==> forall r | r in rules && PatternMatches(r.glob, path) ::
              || Specificity(r.glob) < Specificity(best.value.glob)
              || (Specificity(r.glob) == Specificity(best.value.glob) && best.value.order <= r.order)
  {
    best := None;
    for i := 0 to |rules|
      invariant Classifies(path, rules[..i], best)
    {
      var rule := rules[i];
      assert rules[..i + 1] == rules[..i] + [rule];
      if PatternMatches(rule.glob, path) {
        if best.None? || Better(rule, best.value) {
          best := Some(rule);
        }
      }
    }
    assert rules[..|rules|] == rules;
  }

  lemma OrderNames(rules: seq<Rule>, a: Rule, b: Rule)
    requires DistinctOrders(rules) && a in rules && b in rules && a.order == b.order
    ensures a == b
  {
    var i :| 0 <= i < |rules| && rules[i] == a;
    var j :| 0 <= j < |rules| && rules[j] == b;
  }

  /** Declaration orders being distinct, the rule of a path is unique, and no reordering of the
      rules changes it. */
  lemma ClassificationIsUnique(path: string, rules: seq<Rule>, rules': seq<Rule>, a: Option<Rule>, b: Option<Rule>)
    requires multiset(rules) == multiset(rules') && DistinctOrders(rules)
    requires Classifies(path, rules, a) && Classifies(path, rules', b)
    ensures a == b
  {
    assert forall r :: r in rules <==> r in multiset(rules);
    assert forall r :: r in rules' <==> r in multiset(rules');
    if a.Some? && b.Some? {
      OrderNames(rules, a.value, b.value);
    }
  }

  // ---- Totality ------------------------------------------------------------------------

  const CATCH_ALL := "**/*"

  predicate HasCatchAll(rules: seq<Rule>) {
    exists i | 0 <= i < |rules| :: rules[i].glob == CATCH_ALL
  }

  lemma CatchAllMatches(path: string)
    requires path != ""
    ensures Matches(CATCH_ALL, path)
  {
    var tail := path[1..];
    assert CATCH_ALL[4..] == "" && FirstToken(CATCH_ALL) == EverythingUnder;
    AfterRunMeans("", tail);
    assert tail[|tail|..] == "" && Matches("", tail[|tail|..]);
  }

  /** With the catch-all present, every non-empty path on one line is classified, by the
      documented tokens. */
  lemma Totality(path: string, rules: seq<Rule>, best: Option<Rule>)
    requires HasCatchAll(rules) && path != "" && OneLine(path) && Classifies(path, rules, best)
    ensures best.Some? && Matches(best.value.glob, path)
    ensures forall r | r in rules && Matches(r.glob, path) :: !Better(r, best.value)
  {
    forall r | r in rules ensures PatternMatches(r.glob, path) <==> Matches(r.glob, path) {
      CompiledMeans(r.glob, path);
    }
    CatchAllMatches(path);
  }

  // ---- The audit ----------------------------------------------------------------------

  datatype Leak = Leak(path: string, genre: string, audience: string)

  datatype Audit = MapError | Report(unmapped: seq<string>, leaks: seq<Leak>)

  function ExitCode(a: Audit): nat {
    match a
    case MapError => 2
    case Report(unmapped, leaks) => if unmapped == [] && leaks == [] then 0 else 1
  }

  predicate IsPublic(path: string, rules: seq<Rule>) {
    exists r | r in rules :: Classifies(path, rules, Some(r)) && r.audience == "public"
  }

  // The rule the classifier happens on decides for all of them.
  lemma PublicIsDecided(path: string, rules: seq<Rule>, best: Option<Rule>)
    requires DistinctOrders(rules) && Classifies(path, rules, best)
    ensures IsPublic(path, rules) <==> best.Some? && best.value.audience == "public"
  {
    forall b: Rule | b in rules && Classifies(path, rules, Some(b)) ensures Some(b) == best {
      ClassificationIsUnique(path, rules, rules, Some(b), best);
    }
  }

  lemma {:induction false} BestExists(path: string, rules: seq<Rule>)
    ensures exists best :: Classifies(path, rules, best)
    decreases |rules|
  {
    if rules == [] {
      assert Classifies(path, rules, None);
    } else {
      var init, last := rules[..|rules| - 1], rules[|rules| - 1];
      assert rules == init + [last];
      BestExists(path, init);
      var best :| Classifies(path, init, best);
      assert Classifies(path, rules, best) || Classifies(path, rules, Some(last));
    }
  }

  // The rule a path deserves.
  ghost function Chosen(path: string, rules: seq<Rule>): (best: Option<Rule>)
    ensures Classifies(path, rules, best)
  {
    BestExists(path, rules);
    var best :| Classifies(path, rules, best);
    best
  }

  lemma ChosenIsIt(path: string, rules: seq<Rule>, best: Option<Rule>)
    requires DistinctOrders(rules) && Classifies(path, rules, best)
    ensures Chosen(path, rules) == best
  {
    ClassificationIsUnique(path, rules, rules, Chosen(path, rules), best);
  }

  // The paths no rule matches: each occurrence, in the order of the paths.
  ghost function UnmappedOf(paths: seq<string>, rules: seq<Rule>): seq<string> {
    if paths == [] then []
    else
      var last := paths[|paths| - 1];
      UnmappedOf(paths[..|paths| - 1], rules) + if Chosen(last, rules).None? then [last] else []
  }

  // The paths whose rule is not public, with its genre and audience, likewise.
  ghost function LeaksOf(paths: seq<string>, rules: seq<Rule>): seq<Leak> {
    if paths == [] then []
    else
      var last := paths[|paths| - 1];
      var best := Chosen(last, rules);
      LeaksOf(paths[..|paths| - 1], rules)
      + if best.Some? && best.value.audience != "public"
        then [Leak(last, best.value.genre, best.value.audience)] else []
  }

  /** Each leak names a path, and the genre and the audience of the rule it deserves, in this place. */
  lemma {:induction false} LeaksSay(paths: seq<string>, rules: seq<Rule>, k: nat) returns (i: nat)
    requires k < |LeaksOf(paths, rules)|
    ensures i < |paths| && Chosen(paths[i], rules).Some?
    ensures var leak, rule := LeaksOf(paths, rules)[k], Chosen(paths[i], rules).value;
            leak.path == paths[i] && leak.genre == rule.genre && leak.audience == rule.audience && rule.audience != "public"
    decreases |paths|
  {
    var init := paths[..|paths| - 1];
    if k < |LeaksOf(init, rules)| {
      i := LeaksSay(init, rules, k);
    } else {
      i := |paths| - 1;
    }
  }

  predicate AllPublic(paths: seq<string>, rules: seq<Rule>) {
    forall i | 0 <= i < |paths| :: IsPublic(paths[i], rules)
  }

  lemma AllPublicStep(paths: seq<string>, rules: seq<Rule>)
    requires DistinctOrders(rules) && paths != []
    ensures var best := Chosen(paths[|paths| - 1], rules);
            AllPublic(paths, rules) <==>
            AllPublic(paths[..|paths| - 1], rules) && best.Some? && best.value.audience == "public"
  {
    PublicIsDecided(paths[|paths| - 1], rules, Chosen(paths[|paths| - 1], rules));
    var init := paths[..|paths| - 1];
    assert forall i | 0 <= i < |init| :: init[i] == paths[i];
  }

  // A path is neither unmapped nor a leak exactly when its rule is public.
  lemma {:induction false} NothingReported(paths: seq<string>, rules: seq<Rule>)
    requires DistinctOrders(rules)
    ensures UnmappedOf(paths, rules) == [] && LeaksOf(paths, rules) == [] <==> AllPublic(paths, rules)
    decreases |paths|
  {
    if paths != [] {
      NothingReported(paths[..|paths| - 1], rules);
      AllPublicStep(paths, rules);
    }
  }

  method RunAudit(paths: seq<string>, rules: seq<Rule>) returns (a: Audit)
    requires DistinctOrders(rules)
    ensures a.MapError? <==> forall i | 0 <= i < |rules| :: rules[i].glob != "**/*"
    ensures ExitCode(a) == 2 <==> a.MapError?
    ensures a.Report? ==> a.unmapped == UnmappedOf(paths, rules) && a.leaks == LeaksOf(paths, rules)
    ensures ExitCode(a) == 0 <==> HasCatchAll(rules) && AllPublic(paths, rules)
  {
    NothingReported(paths, rules);
    if !HasCatchAll(rules) {
      return MapError;
    }
    var unmapped: seq<string>, leaks: seq<Leak> := [], [];
    for i := 0 to |paths|
      invariant unmapped == UnmappedOf(paths[..i], rules) && leaks == LeaksOf(paths[..i], rules)
    {
      var path := paths[i];
      assert paths[..i + 1][..i] == paths[..i];
      var rule := Classify(path, rules);
      ChosenIsIt(path, rules, rule);
      match rule {
        case None =>
          unmapped := unmapped + [path];
        case Some(r) =>
          if r.audience != "public" {
            leaks := leaks + [Leak(path, r.genre, r.audience)];
          }
      }
    }
    assert paths[..|paths|] == paths;
    return Report(unmapped, leaks);
  }
}
