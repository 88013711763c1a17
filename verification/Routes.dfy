/** The generated route tables: every route of the canon, grouped by family, none lost. */
module Routes {
  import opened Prelude

  datatype Family =
    Molecule | Artifact | Harvest | AuthClaude | Observ | AvatarCanal | AvatarLife | Admin | Work

  const FAMILY_ORDER: seq<Family> :=
    [Molecule, Artifact, Harvest, AuthClaude, Observ, AvatarCanal, AvatarLife, Admin, Work]

  datatype Exposure = TenantVerb | AdapterOnly | OperatorOnly | Withdrawn

  datatype Event = Event(verb: string, path: string, scope: string, exposure: Exposure)

  predicate Contains(s: string, word: string) {
    word <= s || (s != "" && Contains(s[1..], word))
  }

  function FamilyOf(path: string): Option<Family> {
    if path == "/v1/avatar/converse" || path == "/v1/avatar/perceive" then Some(AvatarCanal)
    else if path in ["/v1/auth/me", "/v1/events", "/v1/ledger", "/v1/quota", "/v1/noyaux",
                     "/v1/vitals", "/v1/workers", "/v1/molecules/{id}/logs"] then Some(Observ)
    else if "/v1/auth/claude/" <= path then Some(AuthClaude)
    else if "/v1/avatar/" <= path then Some(AvatarLife)
    else if "/v1/molecules" <= path && Contains(path, "/artifacts") then Some(Artifact)
    else if "/v1/molecules" <= path then Some(Molecule)
    else if "/v1/work/" <= path then Some(Work)
    else if "/v1/harvest/" <= path then Some(Harvest)
    else if "/v1/admin/" <= path then Some(Admin)
    else None
  }

  /** What it is to contain a word. */
  lemma {:induction false} ContainsMeans(s: string, word: string)
    ensures Contains(s, word) <==> exists i | 0 <= i <= |s| :: word <= s[i..]
    decreases |s|
  {
    assert s[0..] == s;
    if s != "" {
      ContainsMeans(s[1..], word);
      assert forall i | 1 <= i <= |s| :: s[i..] == s[1..][i - 1..];
      assert forall i | 0 <= i <= |s[1..]| :: s[1..][i..] == s[i + 1..];
    }
  }

  lemma Starts(prefix: string, rest: string, word: string)
    ensures word <= prefix ==> word <= prefix + rest
    ensures |word| <= |prefix| && !(word <= prefix) ==> !(word <= prefix + rest)
    ensures prefix <= prefix + rest
  {
    if |word| <= |prefix| {
      assert (prefix + rest)[..|word|] == prefix[..|word|];
    }
  }

  lemma Differs(a: string, b: string, i: nat)
    requires i < |a| && i < |b| && a[i] != b[i]
    ensures a != b && !(a <= b) && !(b <= a)
  {
  }

  // The one-route families and the exceptions, path by path.
  lemma NamedPaths()
    ensures FamilyOf("/v1/avatar/converse") == Some(AvatarCanal) && FamilyOf("/v1/avatar/perceive") == Some(AvatarCanal)
    ensures forall path | path in ["/v1/auth/me", "/v1/events", "/v1/ledger", "/v1/quota", "/v1/noyaux",
                                   "/v1/vitals", "/v1/workers", "/v1/molecules/{id}/logs"] ::
              FamilyOf(path) == Some(Observ)
  {
    assert "/v1/avatar/converse"[4] == 'a' && "/v1/avatar/perceive"[4] == 'a';
  }

  /** The families that a prefix decides: what comes behind it does not matter. */
  lemma PrefixDecides(rest: string)
    ensures FamilyOf("/v1/work/" + rest) == Some(Work)
    ensures FamilyOf("/v1/harvest/" + rest) == Some(Harvest)
    ensures FamilyOf("/v1/admin/" + rest) == Some(Admin)
    ensures FamilyOf("/v1/auth/claude/" + rest) == Some(AuthClaude)
  {
    WorkPath(rest);
    HarvestPath(rest);
    AdminPath(rest);
    ClaudePath(rest);
  }

  lemma WorkPath(rest: string)
    ensures FamilyOf("/v1/work/" + rest) == Some(Work)
  {
    var path := "/v1/work/" + rest;
    assert path[4] == 'w' && path[5] == 'o' && path[8] == '/';
    assert "/v1/workers"[8] == 'e' && "/v1/auth/me"[4] == 'a' && "/v1/avatar/converse"[4] == 'a' && "/v1/avatar/perceive"[4] == 'a';
    assert "/v1/events"[4] == 'e' && "/v1/ledger"[4] == 'l' && "/v1/quota"[4] == 'q' && "/v1/noyaux"[4] == 'n';
    assert "/v1/vitals"[4] == 'v' && "/v1/molecules/{id}/logs"[4] == 'm';
    Differs("/v1/auth/claude/", path, 4);
    Differs("/v1/avatar/", path, 4);
    Differs("/v1/molecules", path, 4);
    Starts("/v1/work/", rest, "/v1/work/");
  }

  lemma HarvestPath(rest: string)
    ensures FamilyOf("/v1/harvest/" + rest) == Some(Harvest)
  {
    var path := "/v1/harvest/" + rest;
    assert path[4] == 'h';
    assert "/v1/workers"[4] == 'w' && "/v1/auth/me"[4] == 'a' && "/v1/avatar/converse"[4] == 'a' && "/v1/avatar/perceive"[4] == 'a';
    assert "/v1/events"[4] == 'e' && "/v1/ledger"[4] == 'l' && "/v1/quota"[4] == 'q' && "/v1/noyaux"[4] == 'n';
    assert "/v1/vitals"[4] == 'v' && "/v1/molecules/{id}/logs"[4] == 'm';
    Differs("/v1/auth/claude/", path, 4);
    Differs("/v1/avatar/", path, 4);
    Differs("/v1/molecules", path, 4);
    Differs("/v1/work/", path, 4);
    Starts("/v1/harvest/", rest, "/v1/harvest/");
  }

  lemma AdminPath(rest: string)
    ensures FamilyOf("/v1/admin/" + rest) == Some(Admin)
  {
    var path := "/v1/admin/" + rest;
    assert path[4] == 'a' && path[5] == 'd';
    assert "/v1/workers"[4] == 'w' && "/v1/auth/me"[5] == 'u' && "/v1/avatar/converse"[5] == 'v' && "/v1/avatar/perceive"[5] == 'v';
    assert "/v1/events"[4] == 'e' && "/v1/ledger"[4] == 'l' && "/v1/quota"[4] == 'q' && "/v1/noyaux"[4] == 'n';
    assert "/v1/vitals"[4] == 'v' && "/v1/molecules/{id}/logs"[4] == 'm';
    Differs("/v1/auth/claude/", path, 5);
    Differs("/v1/avatar/", path, 5);
    Differs("/v1/molecules", path, 4);
    Differs("/v1/work/", path, 4);
    Differs("/v1/harvest/", path, 4);
    Starts("/v1/admin/", rest, "/v1/admin/");
  }

  lemma ClaudePath(rest: string)
    ensures FamilyOf("/v1/auth/claude/" + rest) == Some(AuthClaude)
  {
    var path := "/v1/auth/claude/" + rest;
    assert path[4] == 'a' && path[5] == 'u' && path[9] == 'c';
    assert "/v1/workers"[4] == 'w' && "/v1/auth/me"[9] == 'm' && "/v1/avatar/converse"[5] == 'v' && "/v1/avatar/perceive"[5] == 'v';
    assert "/v1/events"[4] == 'e' && "/v1/ledger"[4] == 'l' && "/v1/quota"[4] == 'q' && "/v1/noyaux"[4] == 'n';
    assert "/v1/vitals"[4] == 'v' && "/v1/molecules/{id}/logs"[4] == 'm';
    Starts("/v1/auth/claude/", rest, "/v1/auth/claude/");
  }

  lemma PrefixOfPrefix(word: string, prefix: string, path: string)
    requires word <= prefix
    ensures prefix <= path ==> word <= path
  {
    if prefix <= path {
      assert path[..|word|] == prefix[..|word|];
    }
  }

  /** A path outside version one has no family. */
  lemma ForeignPaths(path: string)
    requires !("/v1/" <= path)
    ensures FamilyOf(path) == None
  {
    PrefixOfPrefix("/v1/", "/v1/auth/claude/", path);
    PrefixOfPrefix("/v1/", "/v1/avatar/", path);
    PrefixOfPrefix("/v1/", "/v1/molecules", path);
    PrefixOfPrefix("/v1/", "/v1/work/", path);
    PrefixOfPrefix("/v1/", "/v1/harvest/", path);
    PrefixOfPrefix("/v1/", "/v1/admin/", path);
    assert "/v1/" <= "/v1/avatar/converse" && "/v1/" <= "/v1/avatar/perceive" && "/v1/" <= "/v1/auth/me";
    assert "/v1/" <= "/v1/events" && "/v1/" <= "/v1/ledger" && "/v1/" <= "/v1/quota" && "/v1/" <= "/v1/noyaux";
    assert "/v1/" <= "/v1/vitals" && "/v1/" <= "/v1/workers" && "/v1/" <= "/v1/molecules/{id}/logs";
  }

  /** An avatar route is of the canal exactly when it is one of the two that talk. */
  lemma AvatarPaths(rest: string)
    ensures FamilyOf("/v1/avatar/" + rest) == Some(if rest == "converse" || rest == "perceive" then AvatarCanal else AvatarLife)
  {
    var path := "/v1/avatar/" + rest;
    assert path[4] == 'a' && path[5] == 'v' && path[11..] == rest;
    assert "/v1/avatar/converse"[11..] == "converse" && "/v1/avatar/perceive"[11..] == "perceive";
    assert rest == "converse" ==> path == "/v1/avatar/converse";
    assert rest == "perceive" ==> path == "/v1/avatar/perceive";
    assert "/v1/workers"[4] == 'w' && "/v1/auth/me"[5] == 'u';
    assert "/v1/events"[4] == 'e' && "/v1/ledger"[4] == 'l' && "/v1/quota"[4] == 'q' && "/v1/noyaux"[4] == 'n';
    assert "/v1/vitals"[4] == 'v' && "/v1/molecules/{id}/logs"[4] == 'm';
    Differs("/v1/auth/claude/", path, 5);
    Starts("/v1/avatar/", rest, "/v1/avatar/");
  }

  /** A molecule route is one of artifacts exactly when that word stands somewhere in it, the logs
      of a molecule aside. */
  lemma MoleculePaths(rest: string)
    ensures var path := "/v1/molecules" + rest;
            FamilyOf(path) == Some(if rest == "/{id}/logs" then Observ
                                   else if exists i | 0 <= i <= |path| :: "/artifacts" <= path[i..] then Artifact
                                   else Molecule)
  {
    var path := "/v1/molecules" + rest;
    assert path[4] == 'm' && path[13..] == rest;
    assert "/v1/molecules/{id}/logs"[13..] == "/{id}/logs";
    assert rest == "/{id}/logs" ==> path == "/v1/molecules/{id}/logs";
    assert "/v1/workers"[4] == 'w' && "/v1/auth/me"[4] == 'a' && "/v1/avatar/converse"[4] == 'a' && "/v1/avatar/perceive"[4] == 'a';
    assert "/v1/events"[4] == 'e' && "/v1/ledger"[4] == 'l' && "/v1/quota"[4] == 'q' && "/v1/noyaux"[4] == 'n';
    assert "/v1/vitals"[4] == 'v';
    Differs("/v1/auth/claude/", path, 4);
    Differs("/v1/avatar/", path, 4);
    Starts("/v1/molecules", rest, "/v1/molecules");
    ContainsMeans(path, "/artifacts");
  }

  // The proofs below hold of any way to classify; the tables use FamilyOf.
  type Classifier = Event -> Option<Family>

  const BY_PATH: Classifier := (e: Event) => FamilyOf(e.path)

  predicate AllClassified(events: seq<Event>, key: Classifier) {
    forall i | 0 <= i < |events| :: key(events[i]).Some?
  }

  // ---- Grouping ------------------------------------------------------------------

  // The events of one family, in the order of the canon.
  function Members(events: seq<Event>, f: Family, key: Classifier): seq<Event> {
    if events == [] then []
    else
      var last := events[|events| - 1];
      Members(events[..|events| - 1], f, key) + if key(last) == Some(f) then [last] else []
  }

  // The families one after another.
  function Grouped(events: seq<Event>, families: seq<Family>, key: Classifier): seq<Event> {
    if families == [] then []
    else Grouped(events, families[..|families| - 1], key) + Members(events, families[|families| - 1], key)
  }

  predicate NoRepeats(families: seq<Family>) {
    forall i, j | 0 <= i < j < |families| :: families[i] != families[j]
  }

  lemma MembersSnoc(events: seq<Event>, e: Event, f: Family, key: Classifier)
    ensures Members(events + [e], f, key) == Members(events, f, key) + if key(e) == Some(f) then [e] else []
  {
    assert (events + [e])[..|events|] == events;
  }

  // The family an event adds to, if it is listed.
  function Added(e: Event, families: seq<Family>, key: Classifier): multiset<Event> {
    if key(e).Some? && key(e).value in families then multiset{e} else multiset{}
  }

  lemma AddedSplits(e: Event, init: seq<Family>, f: Family, key: Classifier)
    requires f !in init
    ensures Added(e, init + [f], key)
         == Added(e, init, key) + multiset(if key(e) == Some(f) then [e] else [])
  {
    assert forall g :: g in init + [f] <==> g in init || g == f;
  }

  lemma Shuffle(a: multiset<Event>, x: multiset<Event>, m: multiset<Event>, n: multiset<Event>)
    ensures (a + x) + (m + n) == (a + m) + (x + n)
  {
  }

  // One more event goes to its own family and nowhere else.
  lemma {:induction false} GroupedGrows(events: seq<Event>, e: Event, families: seq<Family>, key: Classifier)
    requires NoRepeats(families)
    ensures multiset(Grouped(events + [e], families, key))
         == multiset(Grouped(events, families, key)) + Added(e, families, key)
    decreases |families|
  {
    if families != [] {
      var init, f := families[..|families| - 1], families[|families| - 1];
      assert families == init + [f];
      GroupedGrows(events, e, init, key);
      GroupedGrowsStep(events, e, init, f, key);
    }
  }

  lemma GroupedGrowsStep(events: seq<Event>, e: Event, init: seq<Family>, f: Family, key: Classifier)
    requires f !in init
    requires multiset(Grouped(events + [e], init, key)) == multiset(Grouped(events, init, key)) + Added(e, init, key)
    ensures multiset(Grouped(events + [e], init + [f], key))
         == multiset(Grouped(events, init + [f], key)) + Added(e, init + [f], key)
  {
    var extra := if key(e) == Some(f) then [e] else [];
    MembersSnoc(events, e, f, key);
    AddedSplits(e, init, f, key);
    GroupedStep(events + [e], init, f, key);
    GroupedStep(events, init, f, key);
    Shuffle(multiset(Grouped(events, init, key)), Added(e, init, key), multiset(Members(events, f, key)), multiset(extra));
  }

  lemma GroupedStep(events: seq<Event>, init: seq<Family>, f: Family, key: Classifier)
    ensures multiset(Grouped(events, init + [f], key))
         == multiset(Grouped(events, init, key)) + multiset(Members(events, f, key))
  {
    assert (init + [f])[..|init|] == init;
  }

  lemma {:induction false} NothingGrouped(families: seq<Family>, key: Classifier)
    ensures Grouped([], families, key) == []
    decreases |families|
  {
    if families != [] {
      NothingGrouped(families[..|families| - 1], key);
    }
  }

  lemma EveryFamilyIsListed(f: Family)
    ensures NoRepeats(FAMILY_ORDER) && f in FAMILY_ORDER
  {
    match f
    case Molecule => assert FAMILY_ORDER[0] == f;
    case Artifact => assert FAMILY_ORDER[1] == f;
    case Harvest => assert FAMILY_ORDER[2] == f;
    case AuthClaude => assert FAMILY_ORDER[3] == f;
    case Observ => assert FAMILY_ORDER[4] == f;
    case AvatarCanal => assert FAMILY_ORDER[5] == f;
    case AvatarLife => assert FAMILY_ORDER[6] == f;
    case Admin => assert FAMILY_ORDER[7] == f;
    case Work => assert FAMILY_ORDER[8] == f;
  }

  /** The order of the families in the tables. */
  lemma FamiliesInOrder()
    ensures FAMILY_ORDER == [Molecule, Artifact, Harvest, AuthClaude, Observ] + [AvatarCanal, AvatarLife, Admin, Work]
  {
  }

  /** The grouped routes are the canon's routes, each exactly once. */
  lemma {:induction false} GroupingIsPartition(events: seq<Event>, key: Classifier)
    requires AllClassified(events, key)
    ensures multiset(Grouped(events, FAMILY_ORDER, key)) == multiset(events)
    ensures |Grouped(events, FAMILY_ORDER, key)| == |events|
    decreases |events|
  {
    if events == [] {
      NothingGrouped(FAMILY_ORDER, key);
    } else {
      var init, e := events[..|events| - 1], events[|events| - 1];
      assert events == init + [e];
      GroupingIsPartition(init, key);
      EveryFamilyIsListed(key(e).value);
      GroupedGrows(init, e, FAMILY_ORDER, key);
    }
    assert |multiset(Grouped(events, FAMILY_ORDER, key))| == |multiset(events)|;
  }

  /** Within a family the order of the canon is kept. */
  lemma {:induction false} MembersKeepOrder(events: seq<Event>, f: Family, key: Classifier) returns (at: seq<nat>)
    ensures |at| == |Members(events, f, key)|
    ensures forall k | 0 <= k < |at| :: at[k] < |events| && events[at[k]] == Members(events, f, key)[k]
    ensures forall k, m | 0 <= k < m < |at| :: at[k] < at[m]
    ensures forall i | 0 <= i < |events| && key(events[i]) == Some(f) :: i in at
    decreases |events|
  {
    if events == [] {
      at := [];
    } else {
      var init := events[..|events| - 1];
      at := MembersKeepOrder(init, f, key);
      assert forall i | 0 <= i < |init| :: init[i] == events[i];
      if key(events[|events| - 1]) == Some(f) {
        at := at + [|events| - 1];
      }
    }
  }

  // ---- The routes table ------------------------------------------------------------

  datatype Row = Row(number: nat, family: Family, event: Event)

  datatype RouteError =
    | Unclassified(event: Event)
    | LostRoutes
    | Unroutable(event: Event)

  function Counts(events: seq<Event>, families: seq<Family>, key: Classifier): seq<nat> {
    seq(|families|, k requires 0 <= k < |families| => |Members(events, families[k], key)|)
  }

  function Sum(counts: seq<nat>): nat {
    if counts == [] then 0 else Sum(counts[..|counts| - 1]) + counts[|counts| - 1]
  }

  lemma {:induction false} CountsSum(events: seq<Event>, families: seq<Family>, key: Classifier)
    ensures Sum(Counts(events, families, key)) == |Grouped(events, families, key)|
    decreases |families|
  {
    if families != [] {
      var init := families[..|families| - 1];
      CountsSum(events, init, key);
      assert Counts(events, families, key)[..|families| - 1] == Counts(events, init, key);
    }
  }

  lemma NextCount(events: seq<Event>, families: seq<Family>, k: nat, key: Classifier)
    requires k < |families|
    ensures Counts(events, families[..k + 1], key)
         == Counts(events, families[..k], key) + [|Members(events, families[k], key)|]
  {
  }

  // Row by row: numbered from one, each event under its own family.
  predicate Tabulates(rows: seq<Row>, events: seq<Event>, key: Classifier) {
    |rows| == |events| && forall i | 0 <= i < |rows| ::
      rows[i].number == i + 1 && rows[i].event == events[i] && key(events[i]) == Some(rows[i].family)
  }

  // The error names the first route of the canon without a family.
  predicate FirstUnclassified(events: seq<Event>, key: Classifier, error: RouteError) {
    exists i | 0 <= i < |events| ::
      key(events[i]).None? && error == Unclassified(events[i]) && AllClassified(events[..i], key)
  }

  // One pass over the canon, for one family of the order.
  method PlaceFamily(events: seq<Event>, f: Family, key: Classifier, rows: seq<Row>, ghost sofar: seq<Event>)
    returns (r: Result<(seq<Row>, nat), RouteError>)
    requires Tabulates(rows, sofar, key)
    ensures r.Ok? <==> AllClassified(events, key)
    ensures r.Ok? ==> Tabulates(r.value.0, sofar + Members(events, f, key), key)
    ensures r.Ok? ==> r.value.1 == |Members(events, f, key)|
    ensures r.Err? ==> FirstUnclassified(events, key, r.error)
  {
    var out, count := rows, 0;
    for i := 0 to |events|
      invariant AllClassified(events[..i], key)
      invariant Tabulates(out, sofar + Members(events[..i], f, key), key)
      invariant count == |Members(events[..i], f, key)|
    {
      var e := events[i];
      assert events[..i + 1] == events[..i] + [e];
      MembersSnoc(events[..i], e, f, key);
      var family := key(e);
      if family.None? {
        return Err(Unclassified(e));
      }
      if family.value == f {
        count := count + 1;
        out := out + [Row(|out| + 1, f, e)];
      }
    }
    assert events[..|events|] == events;
    return Ok((out, count));
  }

  // render_routes_block, down to its rows and counts.
  method PlaceRoutes(events: seq<Event>, key: Classifier) returns (r: Result<(seq<Row>, seq<nat>), RouteError>)
    ensures r.Ok? <==> AllClassified(events, key)
    ensures r.Ok? ==> Tabulates(r.value.0, Grouped(events, FAMILY_ORDER, key), key)
    ensures r.Ok? ==> r.value.1 == Counts(events, FAMILY_ORDER, key) && Sum(r.value.1) == |events|
    ensures r.Err? ==> FirstUnclassified(events, key, r.error)
  {
    var rows: seq<Row>, counts: seq<nat> := [], [];
    for k := 0 to |FAMILY_ORDER|
      invariant k > 0 ==> AllClassified(events, key)
      invariant Tabulates(rows, Grouped(events, FAMILY_ORDER[..k], key), key)
      invariant counts == Counts(events, FAMILY_ORDER[..k], key)
    {
      NextFamily(events, FAMILY_ORDER, k, key);
      NextCount(events, FAMILY_ORDER, k, key);
      var placed := PlaceFamily(events, FAMILY_ORDER[k], key, rows, Grouped(events, FAMILY_ORDER[..k], key));
      if placed.Err? {
        return Err(placed.error);
      }
      rows := placed.value.0;
      counts := counts + [placed.value.1];
    }
    assert FAMILY_ORDER[..|FAMILY_ORDER|] == FAMILY_ORDER;
    GroupingIsPartition(events, key);
    CountsSum(events, FAMILY_ORDER, key);
    if |rows| != |events| {
      return Err(LostRoutes);
    }
    return Ok((rows, counts));
  }

  /** Whenever every path has a family, the table lists every route of the canon exactly once and
      the family counts add up; the only other outcome names the first route without a family. */
  method RenderRoutes(events: seq<Event>) returns (r: Result<(seq<Row>, seq<nat>), RouteError>)
    ensures r.Ok? <==> AllClassified(events, BY_PATH)
    ensures r.Ok? ==> Tabulates(r.value.0, Grouped(events, FAMILY_ORDER, BY_PATH), BY_PATH)
    ensures r.Ok? ==> multiset(Grouped(events, FAMILY_ORDER, BY_PATH)) == multiset(events)
    ensures r.Ok? ==> r.value.1 == Counts(events, FAMILY_ORDER, BY_PATH) && Sum(r.value.1) == |events|
    ensures r.Err? ==> FirstUnclassified(events, BY_PATH, r.error)
  {
    r := PlaceRoutes(events, BY_PATH);
    if r.Ok? {
      GroupingIsPartition(events, BY_PATH);
    }
  }

  // ---- The bijection table -----------------------------------------------------------

  predicate Documented(e: Event) {
    e.exposure.TenantVerb? || e.exposure.AdapterOnly?
  }

  predicate AllDocumented(events: seq<Event>) {
    forall i | 0 <= i < |events| :: Documented(events[i])
  }

  function Linked(events: seq<Event>): nat {
    if events == [] then 0
    else Linked(events[..|events| - 1]) + if events[|events| - 1].exposure.TenantVerb? then 1 else 0
  }

  lemma {:induction false} LinkedAppend(a: seq<Event>, b: seq<Event>)
    ensures Linked(a + b) == Linked(a) + Linked(b)
    decreases |b|
  {
    if b == [] {
      assert a + b == a;
    } else {
      assert (a + b)[..|a + b| - 1] == a + b[..|b| - 1];
      LinkedAppend(a, b[..|b| - 1]);
    }
  }

  /** Linked counts the tenant verbs: all of a canon of nothing else, none of a canon without. */
  lemma {:induction false} LinkedMeans(events: seq<Event>)
    ensures Linked(events) <= |events|
    ensures Linked(events) == |events| <==> forall i | 0 <= i < |events| :: events[i].exposure == TenantVerb
    ensures Linked(events) == 0 <==> forall i | 0 <= i < |events| :: events[i].exposure != TenantVerb
    decreases |events|
  {
    if events != [] {
      var init := events[..|events| - 1];
      LinkedMeans(init);
      assert forall i | 0 <= i < |init| :: init[i] == events[i];
    }
  }

  datatype Bijection = Bijection(rows: seq<Event>, linked: nat, exempt: nat, byFamily: seq<nat>)

  // The state of the table once the routes in `placed` are written.
  predicate Accounts(b: Bijection, placed: seq<Event>) {
    && b.rows == placed && AllDocumented(placed)
    && b.linked == Linked(placed) && b.exempt == |placed| - Linked(placed)
  }

  // One route is written: linked, exempt, or not allowed on this surface.
  method LinkRoute(e: Event, b: Bijection) returns (r: Result<Bijection, RouteError>)
    requires Accounts(b, b.rows)
    ensures r.Ok? <==> Documented(e)
    ensures r.Ok? <==> e.exposure != OperatorOnly && e.exposure != Withdrawn
    ensures e.exposure == TenantVerb ==> r.Ok? && r.value.linked == b.linked + 1 && r.value.exempt == b.exempt
    ensures e.exposure == AdapterOnly ==> r.Ok? && r.value.linked == b.linked && r.value.exempt == b.exempt + 1
    ensures r.Err? ==> r.error == Unroutable(e)
    ensures r.Ok? ==> Accounts(r.value, b.rows + [e]) && r.value.byFamily == b.byFamily
  {
    LinkedAppend(b.rows, [e]);
    match e.exposure {
      case TenantVerb => return Ok(b.(rows := b.rows + [e], linked := b.linked + 1));
      case AdapterOnly => return Ok(b.(rows := b.rows + [e], exempt := b.exempt + 1));
      case OperatorOnly => return Err(Unroutable(e));
      case Withdrawn => return Err(Unroutable(e));
    }
  }

  lemma UndocumentedMember(events: seq<Event>, i: nat, f: Family, key: Classifier)
    requires i < |events| && key(events[i]) == Some(f) && !Documented(events[i])
    ensures !AllDocumented(Members(events, f, key))
  {
    assert events[..i + 1] == events[..i] + [events[i]];
    MembersSnoc(events[..i], events[i], f, key);
    MembersPrefix(events, i + 1, f, key);
    assert Members(events, f, key)[|Members(events[..i], f, key)|] == events[i];
  }

  // The table once the routes of family `f` among `seen` are written behind those of `start`.
  predicate Writes(b: Bijection, start: Bijection, seen: seq<Event>, f: Family, key: Classifier) {
    && AllClassified(seen, key) && AllDocumented(Members(seen, f, key))
    && Accounts(b, start.rows + Members(seen, f, key))
    && b.byFamily == start.byFamily
  }

  // A route of another family changes nothing; one of this family is the next row.
  lemma WritesStep(b: Bijection, b': Bijection, start: Bijection, seen: seq<Event>, e: Event, f: Family, key: Classifier)
    requires Writes(b, start, seen, f, key) && key(e).Some?
    requires if key(e) == Some(f) then Accounts(b', b.rows + [e]) && b'.byFamily == b.byFamily else b' == b
    ensures Writes(b', start, seen + [e], f, key)
  {
    MembersSnoc(seen, e, f, key);
    var members := Members(seen, f, key);
    if key(e) == Some(f) {
      assert start.rows + (members + [e]) == b.rows + [e];
      assert Documented((b.rows + [e])[|b.rows|]);
    } else {
      assert members + [] == members;
    }
  }

  // The pass for family `f` goes on past this route.
  predicate Passes(e: Event, f: Family, key: Classifier) {
    key(e).Some? && (key(e) == Some(f) ==> Documented(e))
  }

  predicate AllPass(events: seq<Event>, f: Family, key: Classifier) {
    forall i | 0 <= i < |events| :: Passes(events[i], f, key)
  }

  // The error names the route at which the pass for `f` stops, and why.
  predicate StopsAt(events: seq<Event>, f: Family, key: Classifier, error: RouteError) {
    exists i | 0 <= i < |events| ::
      && !Passes(events[i], f, key) && AllPass(events[..i], f, key)
      && error == if key(events[i]).None? then Unclassified(events[i]) else Unroutable(events[i])
  }

  // The error is that of the first family, in their order, whose pass stops.
  predicate FirstStop(events: seq<Event>, families: seq<Family>, key: Classifier, error: RouteError) {
    exists k | 0 <= k < |families| ::
      StopsAt(events, families[k], key, error) && forall m | 0 <= m < k :: AllPass(events, families[m], key)
  }

  lemma AllPassStep(events: seq<Event>, i: nat, f: Family, key: Classifier)
    requires i < |events| && AllPass(events[..i], f, key) && Passes(events[i], f, key)
    ensures AllPass(events[..i + 1], f, key)
  {
    assert forall k | 0 <= k < i :: events[..i + 1][k] == events[..i][k];
  }

  lemma StopHere(events: seq<Event>, i: nat, f: Family, key: Classifier)
    requires i < |events| && AllPass(events[..i], f, key) && !Passes(events[i], f, key)
    ensures StopsAt(events, f, key, if key(events[i]).None? then Unclassified(events[i]) else Unroutable(events[i]))
  {
  }

  lemma WritesNothing(start: Bijection, f: Family, key: Classifier)
    requires Accounts(start, start.rows)
    ensures Writes(start, start, [], f, key)
  {
    assert start.rows + [] == start.rows;
  }

  method LinkFamily(events: seq<Event>, f: Family, key: Classifier, start: Bijection)
    returns (r: Result<Bijection, RouteError>)
    requires Accounts(start, start.rows)
    ensures r.Ok? <==> AllClassified(events, key) && AllDocumented(Members(events, f, key))
    ensures r.Ok? ==> Accounts(r.value, start.rows + Members(events, f, key))
    ensures r.Ok? ==> r.value.byFamily == start.byFamily + [Linked(Members(events, f, key))]
    ensures r.Ok? ==> AllPass(events, f, key)
    ensures r.Err? ==> StopsAt(events, f, key, r.error)
  {
    var b := start;
    WritesNothing(start, f, key);
    for i := 0 to |events|
      invariant Writes(b, start, events[..i], f, key)
      invariant AllPass(events[..i], f, key)
    {
      var e := events[i];
      assert events[..i + 1] == events[..i] + [e];
      ghost var before := b;
      var family := key(e);
      if family.None? {
        StopHere(events, i, f, key);
        return Err(Unclassified(e));
      }
      if family.value == f {
        var next := LinkRoute(e, b);
        if next.Err? {
          UndocumentedMember(events, i, f, key);
          StopHere(events, i, f, key);
          return Err(next.error);
        }
        b := next.value;
      }
      WritesStep(before, b, start, events[..i], e, f, key);
      AllPassStep(events, i, f, key);
    }
    assert events[..|events|] == events;
    FamilyLinks(b, start, events, f, key);
    return Ok(b.(byFamily := b.byFamily + [b.linked - start.linked]));
  }

  lemma FamilyLinks(b: Bijection, start: Bijection, events: seq<Event>, f: Family, key: Classifier)
    requires Accounts(start, start.rows) && Writes(b, start, events, f, key)
    ensures b.linked == start.linked + Linked(Members(events, f, key))
  {
    LinkedAppend(start.rows, Members(events, f, key));
  }

  lemma {:induction false} MembersPrefix(events: seq<Event>, i: nat, f: Family, key: Classifier)
    requires i <= |events|
    ensures Members(events[..i], f, key) <= Members(events, f, key)
    decreases |events|
  {
    if i == |events| {
      assert events[..i] == events;
    } else {
      assert events[..|events| - 1][..i] == events[..i];
      MembersPrefix(events[..|events| - 1], i, f, key);
    }
  }

  function LinkedCounts(events: seq<Event>, families: seq<Family>, key: Classifier): seq<nat> {
    seq(|families|, k requires 0 <= k < |families| => Linked(Members(events, families[k], key)))
  }

  lemma {:induction false} LinkedSum(events: seq<Event>, families: seq<Family>, key: Classifier)
    ensures Sum(LinkedCounts(events, families, key)) == Linked(Grouped(events, families, key))
    decreases |families|
  {
    if families != [] {
      var init, f := families[..|families| - 1], families[|families| - 1];
      LinkedSum(events, init, key);
      LinkedAppend(Grouped(events, init, key), Members(events, f, key));
      assert LinkedCounts(events, families, key)[..|families| - 1] == LinkedCounts(events, init, key);
    }
  }

  // The table once the first `k` families are written.
  predicate Links(b: Bijection, events: seq<Event>, families: seq<Family>, k: nat, key: Classifier)
    requires k <= |families|
  {
    && (k > 0 ==> AllClassified(events, key))
    && Accounts(b, Grouped(events, families[..k], key))
    && b.byFamily == LinkedCounts(events, families[..k], key)
    && forall m | 0 <= m < k :: AllPass(events, families[m], key)
  }

  // A stop is due to a route without a family or without a place in the table.
  lemma StopMeans(events: seq<Event>, families: seq<Family>, key: Classifier, error: RouteError)
    requires FirstStop(events, families, key, error)
    ensures !(AllClassified(events, key) && AllDocumented(events))
  {
  }

  lemma LinksStep(b: Bijection, b': Bijection, events: seq<Event>, families: seq<Family>, k: nat, key: Classifier)
    requires k < |families| && Links(b, events, families, k, key)
    requires AllClassified(events, key) && AllPass(events, families[k], key)
    requires Accounts(b', b.rows + Members(events, families[k], key))
    requires b'.byFamily == b.byFamily + [Linked(Members(events, families[k], key))]
    ensures Links(b', events, families, k + 1, key)
  {
    NextFamily(events, families, k, key);
  }

  lemma LinksStop(b: Bijection, events: seq<Event>, families: seq<Family>, k: nat, key: Classifier, error: RouteError)
    requires k < |families| && Links(b, events, families, k, key) && StopsAt(events, families[k], key, error)
    ensures FirstStop(events, families, key, error)
  {
  }

  lemma LinksRows(b: Bijection, events: seq<Event>, families: seq<Family>, k: nat, key: Classifier)
    requires k <= |families| && Links(b, events, families, k, key)
    ensures Accounts(b, b.rows)
  {
  }

  method LinkFamilies(events: seq<Event>, families: seq<Family>, key: Classifier) returns (r: Result<Bijection, RouteError>)
    ensures r.Ok? ==> Links(r.value, events, families, |families|, key)
    ensures r.Err? ==> FirstStop(events, families, key, r.error)
  {
    var b := Bijection([], 0, 0, []);
    for k := 0 to |families|
      invariant Links(b, events, families, k, key)
    {
      LinksRows(b, events, families, k, key);
      var next := LinkFamily(events, families[k], key, b);
      if next.Err? {
        LinksStop(b, events, families, k, key, next.error);
        return Err(next.error);
      }
      LinksStep(b, next.value, events, families, k, key);
      b := next.value;
    }
    return Ok(b);
  }

  /** render_bijection_block, down to its rows and counts: linked and exempt routes add up to all
      of them, and the linked routes of the families to the linked routes. */
  method RenderBijection(events: seq<Event>, key: Classifier) returns (r: Result<Bijection, RouteError>)
    ensures r.Ok? <==> AllClassified(events, key) && AllDocumented(events)
    ensures r.Ok? ==> Accounts(r.value, Grouped(events, FAMILY_ORDER, key))
    ensures r.Ok? ==> multiset(r.value.rows) == multiset(events)
    ensures r.Ok? ==> r.value.linked + r.value.exempt == |events| && Sum(r.value.byFamily) == r.value.linked
    ensures r.Err? ==> FirstStop(events, FAMILY_ORDER, key, r.error)
  {
    r := LinkFamilies(events, FAMILY_ORDER, key);
    if r.Ok? {
      assert FAMILY_ORDER[..|FAMILY_ORDER|] == FAMILY_ORDER;
      BijectionIsWhole(events, key, r.value);
    } else {
      StopMeans(events, FAMILY_ORDER, key, r.error);
    }
  }

  lemma NextFamily(events: seq<Event>, families: seq<Family>, k: nat, key: Classifier)
    requires k < |families|
    ensures Grouped(events, families[..k + 1], key)
         == Grouped(events, families[..k], key) + Members(events, families[k], key)
    ensures LinkedCounts(events, families[..k + 1], key)
         == LinkedCounts(events, families[..k], key) + [Linked(Members(events, families[k], key))]
  {
    assert families[..k + 1][..k] == families[..k];
  }

  lemma BijectionIsWhole(events: seq<Event>, key: Classifier, b: Bijection)
    requires AllClassified(events, key) && Accounts(b, Grouped(events, FAMILY_ORDER, key))
    requires b.byFamily == LinkedCounts(events, FAMILY_ORDER, key)
    ensures AllDocumented(events) && multiset(b.rows) == multiset(events)
    ensures b.linked + b.exempt == |events| && Sum(b.byFamily) == b.linked
  {
    GroupingIsPartition(events, key);
    LinkedSum(events, FAMILY_ORDER, key);
    SameEventsDocumented(Grouped(events, FAMILY_ORDER, key), events);
  }

  lemma SameEventsDocumented(a: seq<Event>, b: seq<Event>)
    requires multiset(a) == multiset(b) && AllDocumented(a)
    ensures AllDocumented(b)
  {
    forall i | 0 <= i < |b| ensures Documented(b[i]) {
      assert b[i] in multiset(b);
      assert b[i] in a;
    }
  }
}
