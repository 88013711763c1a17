/** The succession register: who replaced which verdict, and why following it always ends. */
module Provenance {
  import opened Prelude

  datatype Transition = Transition(entry: string, previous: string, next: string)

  datatype Edge = Edge(next: string, entry: string)

  type Graph = map<string, seq<Edge>>

  datatype Dangling = UnknownPrevious(entry: string, path: string) | UnknownNext(entry: string, path: string)

  datatype Fault = Forked(at: string) | Cycle(into: string) | TooLong

  const WALK_LIMIT: nat := 64

  // ---- The graph of a register -----------------------------------------------------

  // The register's transitions out of one verdict, in order.
  function Edges(register: seq<Transition>, path: string): seq<Edge> {
    if register == [] then []
    else
      var row := register[|register| - 1];
      Edges(register[..|register| - 1], path) + if row.previous == path then [Edge(row.next, row.entry)] else []
  }

  ghost predicate IsGraph(g: Graph, register: seq<Transition>) {
    forall path :: (path in g <==> Edges(register, path) != []) && (path in g ==> g[path] == Edges(register, path))
  }

  predicate Anchored(catalogue: set<string>, register: seq<Transition>) {
    forall i | 0 <= i < |register| :: register[i].previous in catalogue && register[i].next in catalogue
  }

  // The row has this end, and the end is not catalogued.
  predicate Loose(row: Transition, catalogue: set<string>, d: Dangling) {
    match d
    case UnknownPrevious(entry, path) => entry == row.entry && path == row.previous && path !in catalogue
    case UnknownNext(entry, path) => entry == row.entry && path == row.next && path !in catalogue
  }

  ghost predicate Lists(dangling: seq<Dangling>, catalogue: set<string>, register: seq<Transition>) {
    && (forall d | d in dangling :: exists i :: 0 <= i < |register| && Loose(register[i], catalogue, d))
    && (forall i, d | 0 <= i < |register| && Loose(register[i], catalogue, d) :: d in dangling)
  }

  lemma ListsNext(dangling: seq<Dangling>, more: seq<Dangling>, catalogue: set<string>, register: seq<Transition>, i: nat)
    requires i < |register| && Lists(dangling, catalogue, register[..i])
    requires forall d :: d in more <==> Loose(register[i], catalogue, d)
    ensures Lists(dangling + more, catalogue, register[..i + 1])
  {
    var front, longer := register[..i], register[..i + 1];
    assert longer[i] == register[i] && forall k | 0 <= k < i :: longer[k] == front[k];
    forall d | d in dangling + more ensures exists k :: 0 <= k < |longer| && Loose(longer[k], catalogue, d) {
      if d in dangling {
        var k :| 0 <= k < |front| && Loose(front[k], catalogue, d);
        assert Loose(longer[k], catalogue, d);
      } else {
        assert Loose(longer[i], catalogue, d);
      }
    }
    forall k, d | 0 <= k < |longer| && Loose(longer[k], catalogue, d) ensures d in dangling + more {
      if k < i {
        assert Loose(front[k], catalogue, d);
      }
    }
  }

  lemma NothingListed(dangling: seq<Dangling>, catalogue: set<string>, register: seq<Transition>)
    requires Lists(dangling, catalogue, register)
    ensures dangling == [] <==> Anchored(catalogue, register)
  {
    forall i | 0 <= i < |register|
      ensures register[i].previous !in catalogue ==> UnknownPrevious(register[i].entry, register[i].previous) in dangling
      ensures register[i].next !in catalogue ==> UnknownNext(register[i].entry, register[i].next) in dangling
    {
      assert register[i].previous !in catalogue ==>
          Loose(register[i], catalogue, UnknownPrevious(register[i].entry, register[i].previous));
      assert register[i].next !in catalogue ==>
          Loose(register[i], catalogue, UnknownNext(register[i].entry, register[i].next));
    }
    if dangling != [] {
      var d := dangling[0];
      assert d in dangling;
      var i :| 0 <= i < |register| && Loose(register[i], catalogue, d);
    }
  }

  // The ends of one row that are not catalogued.
  function LooseEnds(row: Transition, catalogue: set<string>): (more: seq<Dangling>)
    ensures forall d :: d in more <==> Loose(row, catalogue, d)
  {
    (if row.previous !in catalogue then [UnknownPrevious(row.entry, row.previous)] else [])
    + if row.next !in catalogue then [UnknownNext(row.entry, row.next)] else []
  }

  method BuildGraph(catalogue: set<string>, register: seq<Transition>) returns (successor: Graph, dangling: seq<Dangling>)
    ensures IsGraph(successor, register)
    ensures Lists(dangling, catalogue, register)
    ensures dangling == [] <==> Anchored(catalogue, register)
  {
    successor, dangling := map[], [];
    for i := 0 to |register|
      invariant IsGraph(successor, register[..i])
      invariant Lists(dangling, catalogue, register[..i])
    {
      var row := register[i];
      assert register[..i + 1] == register[..i] + [row];
      assert register[..i + 1][..i] == register[..i];
      ListsNext(dangling, LooseEnds(row, catalogue), catalogue, register, i);
      dangling := dangling + LooseEnds(row, catalogue);
      var sofar := if row.previous in successor then successor[row.previous] else [];
      successor := successor[row.previous := sofar + [Edge(row.next, row.entry)]];
    }
    assert register[..|register|] == register;
    NothingListed(dangling, catalogue, register);
  }

  lemma {:induction false} EdgesAreRows(register: seq<Transition>, path: string, k: nat)
    requires k < |Edges(register, path)|
    ensures exists i :: 0 <= i < |register| && register[i].previous == path && register[i].next == Edges(register, path)[k].next
    decreases |register|
  {
    var init, row := register[..|register| - 1], register[|register| - 1];
    if k < |Edges(init, path)| {
      EdgesAreRows(init, path, k);
      var i :| 0 <= i < |init| && init[i].previous == path && init[i].next == Edges(init, path)[k].next;
      assert register[i] == init[i];
    } else {
      assert register[|register| - 1].previous == path;
    }
  }

  /** The edges out of a verdict are its rows, in the order of the register and none left out: each
      names the row's successor and the row's entry. */
  lemma {:induction false} EdgesKeepOrder(register: seq<Transition>, path: string) returns (at: seq<nat>)
    ensures |at| == |Edges(register, path)|
    ensures forall k | 0 <= k < |at| ::
              && at[k] < |register| && register[at[k]].previous == path
              && Edges(register, path)[k].next == register[at[k]].next
              && Edges(register, path)[k].entry == register[at[k]].entry
    ensures forall k, m | 0 <= k < m < |at| :: at[k] < at[m]
    ensures forall i | 0 <= i < |register| && register[i].previous == path :: i in at
    decreases |register|
  {
    if register == [] {
      at := [];
    } else {
      var init := register[..|register| - 1];
      at := EdgesKeepOrder(init, path);
      assert forall i | 0 <= i < |init| :: init[i] == register[i];
      if register[|register| - 1].previous == path {
        at := at + [|register| - 1];
      }
    }
  }

  // ---- Chains ------------------------------------------------------------------------

  // `b` is the one successor of `a`.
  predicate Succeeds(g: Graph, a: string, b: string) {
    a in g && |g[a]| == 1 && g[a][0].next == b
  }

  predicate Chain(g: Graph, p: seq<string>) {
    p != [] && forall i | 0 <= i < |p| - 1 :: Succeeds(g, p[i], p[i + 1])
  }

  // An unforked chain that ends on a verdict nothing supersedes.
  predicate Terminates(g: Graph, p: seq<string>) {
    Chain(g, p) && p[|p| - 1] !in g
  }

  predicate Distinct(p: seq<string>) {
    forall i, j | 0 <= i < j < |p| :: p[i] != p[j]
  }

  predicate Within(p: seq<string>, limit: nat) {
    |p| == 1 || |p| <= limit
  }

  ghost predicate Resolves(g: Graph, start: string, limit: nat) {
    exists p :: Terminates(g, p) && p[0] == start && Within(p, limit)
  }

  lemma ChainSuffix(g: Graph, p: seq<string>, i: nat)
    requires Chain(g, p) && i < |p|
    ensures Chain(g, p[i..]) && p[i..][0] == p[i]
  {
    forall k | 0 <= k < |p[i..]| - 1 ensures Succeeds(g, p[i..][k], p[i..][k + 1]) {
      assert Succeeds(g, p[i + k], p[i + k + 1]);
    }
  }

  // Every chain from the same start is a beginning of the one that terminates.
  lemma {:induction false} ChainIsPrefix(g: Graph, c: seq<string>, p: seq<string>)
    requires Chain(g, c) && Terminates(g, p) && c[0] == p[0]
    ensures c <= p
    decreases |c|
  {
    if |c| > 1 {
      assert Succeeds(g, c[0], c[1]) && |p| > 1 && Succeeds(g, p[0], p[1]);
      ChainSuffix(g, c, 1);
      ChainSuffix(g, p, 1);
      ChainIsPrefix(g, c[1..], p[1..]);
      assert c == [c[0]] + c[1..] && p == [p[0]] + p[1..];
    }
  }

  // A chain that terminates never meets a verdict twice.
  lemma TerminatingIsDistinct(g: Graph, p: seq<string>)
    requires Terminates(g, p)
    ensures Distinct(p)
  {
    forall i, j | 0 <= i < j < |p| ensures p[i] != p[j] {
      if p[i] == p[j] {
        ChainSuffix(g, p, i);
        ChainSuffix(g, p, j);
        ChainIsPrefix(g, p[i..], p[j..]);
      }
    }
  }

  // ---- The walk ----------------------------------------------------------------------

  // What a reported fault shows.
  predicate Shows(g: Graph, chain: seq<string>, fault: Fault, limit: nat) {
    && Chain(g, chain)
    && match fault
       case Forked(at) => chain[|chain| - 1] == at && at in g && |g[at]| > 1
       case Cycle(into) => chain[|chain| - 1] == into && into in chain[..|chain| - 1]
       case TooLong => |chain| > 1 && |chain| > limit
  }

  // A beginning of a chain that terminates shows neither a fork nor a repeated verdict.
  lemma PrefixIsSound(g: Graph, c: seq<string>, p: seq<string>)
    requires Chain(g, c) && Terminates(g, p) && c[0] == p[0]
    ensures |c| <= |p|
    ensures var last := c[|c| - 1]; last !in c[..|c| - 1] && (last in g ==> |g[last]| == 1)
  {
    ChainIsPrefix(g, c, p);
    TerminatingIsDistinct(g, p);
    var end := |c| - 1;
    assert forall i | 0 <= i < end :: c[i] == p[i] && p[i] != p[end];
    if end < |p| - 1 {
      assert Succeeds(g, p[end], p[end + 1]);
    }
  }

  lemma FaultExcludesResolution(g: Graph, chain: seq<string>, fault: Fault, limit: nat, p: seq<string>)
    requires Shows(g, chain, fault, limit) && Terminates(g, p) && p[0] == chain[0]
    ensures !Within(p, limit)
  {
    PrefixIsSound(g, chain, p);
  }

  method Walk(g: Graph, start: string, limit: nat) returns (chain: seq<string>, fault: Option<Fault>)
    requires forall path | path in g :: g[path] != []
    ensures chain != [] && chain[0] == start
    ensures fault.None? ==> Terminates(g, chain) && Within(chain, limit) && Distinct(chain)
    ensures fault.Some? ==> Shows(g, chain, fault.value, limit)
    ensures fault.None? <==> Resolves(g, start, limit)
  {
    chain, fault := [start], None;
    var node := start;
    while node in g
      invariant Chain(g, chain) && chain[0] == start && chain[|chain| - 1] == node
      invariant Distinct(chain) && Within(chain, limit)
      decreases limit + 2 - |chain|
    {
      var edges := g[node];
      if |edges| > 1 {
        fault := Some(Forked(node));
        break;
      }
      node := edges[0].next;
      var seen := chain;
      chain := chain + [node];
      assert forall i | 0 <= i < |chain| - 1 :: Succeeds(g, chain[i], chain[i + 1]) by {
        assert forall i | 0 <= i < |seen| - 1 :: Succeeds(g, seen[i], seen[i + 1]);
      }
      if node in seen {
        fault := Some(Cycle(node));
        break;
      }
      if |chain| > limit {
        fault := Some(TooLong);
        break;
      }
    }
    if fault.Some? {
      forall p | Terminates(g, p) && p[0] == start ensures !Within(p, limit) {
        FaultExcludesResolution(g, chain, fault.value, limit, p);
      }
    }
  }

  // ---- A clean register ------------------------------------------------------------------

  ghost predicate Clean(g: Graph, catalogue: set<string>, register: seq<Transition>) {
    Anchored(catalogue, register) && forall path | path in catalogue :: Resolves(g, path, WALK_LIMIT)
  }

  /** Every catalogued verdict has at most one successor, which is catalogued, and a rank below the
      walk limit that falls at each succession. */
  predicate WellFounded(g: Graph, catalogue: set<string>, rank: map<string, nat>) {
    forall path | path in catalogue ::
      && path in rank && rank[path] < 64
      && (path in g ==>
            && |g[path]| == 1 && g[path][0].next in catalogue
            && g[path][0].next in rank && rank[g[path][0].next] < rank[path])
  }

  ghost function PathFrom(g: Graph, start: string): (p: seq<string>)
    requires Resolves(g, start, WALK_LIMIT)
    ensures Terminates(g, p) && p[0] == start && Within(p, WALK_LIMIT)
  {
    var p :| Terminates(g, p) && p[0] == start && Within(p, WALK_LIMIT);
    p
  }

  lemma PathFromIsUnique(g: Graph, p: seq<string>)
    requires Terminates(g, p) && Within(p, WALK_LIMIT)
    ensures Resolves(g, p[0], WALK_LIMIT) && PathFrom(g, p[0]) == p
  {
    var q := PathFrom(g, p[0]);
    ChainIsPrefix(g, p, q);
    ChainIsPrefix(g, q, p);
  }

  lemma NextIsCatalogued(g: Graph, catalogue: set<string>, register: seq<Transition>, path: string)
    requires IsGraph(g, register) && Anchored(catalogue, register) && path in g
    ensures g[path] != [] && g[path][0].next in catalogue
  {
    EdgesAreRows(register, path, 0);
  }

  lemma CleanIsWellFounded(g: Graph, catalogue: set<string>, register: seq<Transition>) returns (rank: map<string, nat>)
    requires IsGraph(g, register) && Clean(g, catalogue, register)
    ensures WellFounded(g, catalogue, rank)
  {
    rank := map path | path in catalogue :: |PathFrom(g, path)| - 1;
    forall path | path in catalogue
      ensures path in rank && rank[path] < WALK_LIMIT
      ensures path in g ==>
                && |g[path]| == 1 && g[path][0].next in catalogue
                && g[path][0].next in rank && rank[g[path][0].next] < rank[path]
    {
      var p := PathFrom(g, path);
      if path in g {
        NextIsCatalogued(g, catalogue, register, path);
        assert |p| > 1 && Succeeds(g, p[0], p[1]);
        ChainSuffix(g, p, 1);
        PathFromIsUnique(g, p[1..]);
      }
    }
  }

  lemma {:induction false} RankResolves(g: Graph, catalogue: set<string>, rank: map<string, nat>, path: string)
    returns (p: seq<string>)
    requires WellFounded(g, catalogue, rank) && path in catalogue
    ensures Terminates(g, p) && p[0] == path && |p| <= rank[path] + 1
    decreases rank[path]
  {
    if path in g {
      var rest := RankResolves(g, catalogue, rank, g[path][0].next);
      p := [path] + rest;
      assert Succeeds(g, p[0], p[1]);
      forall i | 0 <= i < |p| - 1 ensures Succeeds(g, p[i], p[i + 1]) {
        if i > 0 {
          assert Succeeds(g, rest[i - 1], rest[i - 1 + 1]);
        }
      }
    } else {
      p := [path];
    }
  }

  /** Nothing dangles and every walk is fault-free exactly when the register is well founded on the
      catalogue: one successor at most, no cycle, no chain beyond the limit. */
  lemma CleanExactly(g: Graph, catalogue: set<string>, register: seq<Transition>)
    requires IsGraph(g, register) && Anchored(catalogue, register)
    ensures Clean(g, catalogue, register) <==> exists rank :: WellFounded(g, catalogue, rank)
  {
    if Clean(g, catalogue, register) {
      var rank := CleanIsWellFounded(g, catalogue, register);
    }
    if rank :| WellFounded(g, catalogue, rank) {
      forall path | path in catalogue ensures Resolves(g, path, WALK_LIMIT) {
        var p := RankResolves(g, catalogue, rank, path);
      }
    }
  }

  /** In a clean register no chain from a catalogued verdict comes back to where it started, and
      all chains from it that terminate end on the same, catalogued verdict. */
  lemma CleanHasNoCycle(g: Graph, catalogue: set<string>, register: seq<Transition>, c: seq<string>, p: seq<string>)
    requires IsGraph(g, register) && Clean(g, catalogue, register)
    requires Chain(g, c) && c[0] in catalogue && Terminates(g, p) && p[0] == c[0]
    ensures |c| > 1 ==> c[|c| - 1] != c[0]
    ensures p == PathFrom(g, c[0]) && p[|p| - 1] in catalogue
  {
    var q := PathFrom(g, c[0]);
    ChainIsPrefix(g, c, q);
    TerminatingIsDistinct(g, q);
    ChainIsPrefix(g, p, q);
    ChainIsPrefix(g, q, p);
    ChainStaysInside(g, catalogue, register, p);
  }

  lemma {:induction false} ChainStaysInside(g: Graph, catalogue: set<string>, register: seq<Transition>, c: seq<string>)
    requires IsGraph(g, register) && Anchored(catalogue, register) && Chain(g, c) && c[0] in catalogue
    ensures c[|c| - 1] in catalogue
    decreases |c|
  {
    if |c| > 1 {
      assert Succeeds(g, c[0], c[1]);
      NextIsCatalogued(g, catalogue, register, c[0]);
      ChainSuffix(g, c, 1);
      ChainStaysInside(g, catalogue, register, c[1..]);
    }
  }

  // ---- Checks (b) and (c) of main -----------------------------------------------------------

  function SetOf(entries: seq<string>): set<string> {
    set e | e in entries
  }

  ghost predicate AllResolve(g: Graph, entries: seq<string>) {
    forall i | 0 <= i < |entries| :: Resolves(g, entries[i], WALK_LIMIT)
  }

  lemma AllResolveStep(g: Graph, entries: seq<string>, i: nat)
    requires i < |entries|
    ensures AllResolve(g, entries[..i + 1]) <==> AllResolve(g, entries[..i]) && Resolves(g, entries[i], WALK_LIMIT)
  {
    var front, longer := entries[..i], entries[..i + 1];
    assert longer[i] == entries[i];
    assert forall k | 0 <= k < i :: front[k] == longer[k];
  }

  lemma AllResolveIsSetwise(g: Graph, entries: seq<string>, catalogue: set<string>)
    requires catalogue == SetOf(entries)
    ensures AllResolve(g, entries) <==> forall path | path in catalogue :: Resolves(g, path, WALK_LIMIT)
  {
    assert forall i | 0 <= i < |entries| :: entries[i] in catalogue;
  }

  // How many entries have a walk that does not end, each as often as it is listed.
  ghost function Faulty(g: Graph, entries: seq<string>): (n: nat)
    ensures n == 0 <==> AllResolve(g, entries)
  {
    if entries == [] then 0
    else
      var i := |entries| - 1;
      AllResolveStep(g, entries, i);
      assert entries[..i + 1] == entries;
      Faulty(g, entries[..i]) + if Resolves(g, entries[i], WALK_LIMIT) then 0 else 1
  }

  ghost predicate EndsAt(g: Graph, start: string, end: string) {
    exists p :: Terminates(g, p) && p[0] == start && p[|p| - 1] == end
  }

  /** Check (b): the number of dead ends, one for each dangling end and each entry whose walk does
      not end; none exactly when nothing dangles and every walk ends. */
  method CheckAccess(g: Graph, dangling: seq<Dangling>, entries: seq<string>) returns (deadEnds: nat)
    requires forall path | path in g :: g[path] != []
    ensures deadEnds == |dangling| + Faulty(g, entries)
    ensures deadEnds == 0 <==> dangling == [] && AllResolve(g, entries)
  {
    deadEnds := |dangling|;
    for i := 0 to |entries|
      invariant deadEnds == |dangling| + Faulty(g, entries[..i])
    {
      var _, fault := Walk(g, entries[i], WALK_LIMIT);
      assert entries[..i + 1][..i] == entries[..i];
      if fault.Some? {
        deadEnds := deadEnds + 1;
      }
    }
    assert entries[..|entries|] == entries;
  }

  /** Check (c): the end of each entry's chain, for exactly the entries whose walk ends. */
  method CheckTerminals(g: Graph, entries: seq<string>) returns (terminals: map<string, string>, faults: nat)
    requires forall path | path in g :: g[path] != []
    ensures faults == Faulty(g, entries) && (faults == 0 <==> AllResolve(g, entries))
    ensures forall e :: e in terminals <==> e in entries && Resolves(g, e, WALK_LIMIT)
    ensures forall e | e in terminals :: EndsAt(g, e, terminals[e])
  {
    terminals, faults := map[], 0;
    for i := 0 to |entries|
      invariant faults == Faulty(g, entries[..i])
      invariant forall e :: e in terminals <==> e in entries[..i] && Resolves(g, e, WALK_LIMIT)
      invariant forall e | e in terminals :: EndsAt(g, e, terminals[e])
    {
      assert entries[..i + 1] == entries[..i] + [entries[i]];
      assert entries[..i + 1][..i] == entries[..i];
      var chain, fault := Walk(g, entries[i], WALK_LIMIT);
      if fault.Some? {
        faults := faults + 1;
      } else {
        assert EndsAt(g, entries[i], chain[|chain| - 1]);
        terminals := terminals[entries[i] := chain[|chain| - 1]];
      }
    }
    assert entries[..|entries|] == entries;
  }

  /** Check (b) passes exactly when the register is well founded on the catalogue; check (c) then
      passes too and gives every entry the end of its chain, which is itself catalogued. */
  method CheckRegister(entries: seq<string>, register: seq<Transition>)
    returns (accessible: bool, acyclic: bool, terminals: map<string, string>, successor: Graph)
    ensures IsGraph(successor, register)
    ensures accessible <==>
              && Anchored(SetOf(entries), register)
              && exists rank :: WellFounded(successor, SetOf(entries), rank)
    ensures accessible ==> acyclic
    ensures acyclic ==> terminals.Keys == SetOf(entries)
    ensures forall e | e in terminals :: e in entries && EndsAt(successor, e, terminals[e])
    ensures accessible ==> forall e | e in terminals :: terminals[e] in entries
  {
    var catalogue := SetOf(entries);
    var dangling;
    successor, dangling := BuildGraph(catalogue, register);
    var deadEnds := CheckAccess(successor, dangling, entries);
    var faults;
    terminals, faults := CheckTerminals(successor, entries);
    accessible, acyclic := deadEnds == 0, faults == 0;
    AllResolveIsSetwise(successor, entries, catalogue);
    if dangling == [] {
      CleanExactly(successor, catalogue, register);
      forall e | e in terminals ensures terminals[e] in entries {
        EndIsCatalogued(successor, catalogue, register, e, terminals[e]);
      }
    }
  }

  lemma EndIsCatalogued(g: Graph, catalogue: set<string>, register: seq<Transition>, start: string, end: string)
    requires IsGraph(g, register) && Anchored(catalogue, register) && start in catalogue && EndsAt(g, start, end)
    ensures end in catalogue
  {
    var p :| Terminates(g, p) && p[0] == start && p[|p| - 1] == end;
    ChainStaysInside(g, catalogue, register, p);
  }
}
