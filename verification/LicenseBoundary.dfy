/** The network boundary: an Apache-2.0 crate reaches the AGPL core over the network, never by linking it. */
module LicenseBoundary {

  // The kind of a dependency edge; `Normal` is the metadata's null.
  datatype Kind = Normal | Dev | Build

  datatype Dep = Dep(pkg: string, kinds: seq<Kind>)

  datatype Node = Node(id: string, deps: seq<Dep>)

  datatype Package = Package(name: string, license: string)

  type Edges = map<string, set<string>>

  const AGPL := "AGPL-3.0-only"
  const APACHE := "Apache-2.0"

  // ---- The first-party graph of normal dependencies -------------------------------------

  predicate Declares(node: Node, source: string, dep: Dep) {
    node.id == source && dep in node.deps && Normal in dep.kinds
  }

  // Crate `source` links first-party crate `target` by a normal dependency.
  predicate Links(members: set<string>, nodes: seq<Node>, source: string, target: string) {
    source in members && target in members
    && exists i, j | 0 <= i < |nodes| && 0 <= j < |nodes[i].deps| ::
         nodes[i].deps[j].pkg == target && Declares(nodes[i], source, nodes[i].deps[j])
  }

  ghost predicate IsLinkGraph(edges: Edges, members: set<string>, nodes: seq<Node>) {
    edges.Keys == members
    && forall source, target | source in members :: target in edges[source] <==> Links(members, nodes, source, target)
  }

  // The normal first-party targets among one node's dependencies.
  function Targets(members: set<string>, deps: seq<Dep>): (targets: set<string>) {
    set dep | dep in deps && dep.pkg in members && Normal in dep.kinds :: dep.pkg
  }

  lemma TargetsStep(members: set<string>, deps: seq<Dep>, j: nat)
    requires j < |deps|
    ensures Targets(members, deps[..j + 1])
         == Targets(members, deps[..j]) + if deps[j].pkg in members && Normal in deps[j].kinds then {deps[j].pkg} else {}
  {
    assert deps[..j + 1] == deps[..j] + [deps[j]];
  }

  method NormalEdges(members: set<string>, nodes: seq<Node>) returns (edges: Edges)
    ensures IsLinkGraph(edges, members, nodes)
  {
    edges := map pid | pid in members :: {};
    for i := 0 to |nodes|
      invariant IsLinkGraph(edges, members, nodes[..i])
    {
      var node := nodes[i];
      ghost var before := edges;
      if node.id in members {
        for j := 0 to |node.deps|
          invariant edges.Keys == members
          invariant edges[node.id] == before[node.id] + Targets(members, node.deps[..j])
          invariant forall pid | pid in members && pid != node.id :: edges[pid] == before[pid]
        {
          var dep := node.deps[j];
          TargetsStep(members, node.deps, j);
          if dep.pkg in members && Normal in dep.kinds {
            edges := edges[node.id := edges[node.id] + {dep.pkg}];
          }
        }
        assert node.deps[..|node.deps|] == node.deps;
      }
      forall source, target | source in members
        ensures target in edges[source] <==> Links(members, nodes[..i + 1], source, target)
      {
        LinkStep(members, nodes, i, source, target);
      }
    }
    assert nodes[..|nodes|] == nodes;
  }

  lemma LinkStep(members: set<string>, nodes: seq<Node>, i: nat, source: string, target: string)
    requires i < |nodes|
    ensures Links(members, nodes[..i + 1], source, target) <==>
              || Links(members, nodes[..i], source, target)
              || (source in members && nodes[i].id == source && target in Targets(members, nodes[i].deps))
  {
    var front, longer, deps := nodes[..i], nodes[..i + 1], nodes[i].deps;
    assert longer[i] == nodes[i] && forall k | 0 <= k < i :: front[k] == longer[k];
    if source in members && nodes[i].id == source && target in Targets(members, deps) {
      var dep :| dep in deps && dep.pkg == target && Normal in dep.kinds;
      var j :| 0 <= j < |deps| && deps[j] == dep;
      assert longer[i].deps[j].pkg == target && Declares(longer[i], source, longer[i].deps[j]);
    }
    if Links(members, front, source, target) {
      var k, j :| 0 <= k < |front| && 0 <= j < |front[k].deps|
                  && front[k].deps[j].pkg == target && Declares(front[k], source, front[k].deps[j]);
      assert longer[k].deps[j].pkg == target && Declares(longer[k], source, longer[k].deps[j]);
    }
    if Links(members, longer, source, target) {
      var k, j :| 0 <= k < |longer| && 0 <= j < |longer[k].deps|
                  && longer[k].deps[j].pkg == target && Declares(longer[k], source, longer[k].deps[j]);
      if k < i {
        assert front[k].deps[j].pkg == target && Declares(front[k], source, front[k].deps[j]);
      } else {
        assert deps[j] in deps;
      }
    }
  }

  // ---- Reachability ----------------------------------------------------------------------

  function Successors(edges: Edges, pid: string): set<string> {
    if pid in edges then edges[pid] else {}
  }

  predicate Linked(edges: Edges, source: string, target: string) {
    target in Successors(edges, source)
  }

  predicate Path(edges: Edges, p: seq<string>) {
    p != [] && forall i | 0 <= i < |p| - 1 :: Linked(edges, p[i], p[i + 1])
  }

  /** `target` is reached from `root` by one or more links. */
  ghost predicate Reaches(edges: Edges, root: string, target: string) {
    exists p :: Path(edges, p) && |p| > 1 && p[0] == root && p[|p| - 1] == target
  }

  lemma ReachesStep(edges: Edges, root: string, middle: string, target: string)
    requires (middle == root || Reaches(edges, root, middle)) && Linked(edges, middle, target)
    ensures Reaches(edges, root, target)
  {
    var p := [root];
    if middle != root {
      p :| Path(edges, p) && |p| > 1 && p[0] == root && p[|p| - 1] == middle;
    }
    var longer := p + [target];
    forall i | 0 <= i < |longer| - 1 ensures Linked(edges, longer[i], longer[i + 1]) {
      if i < |p| - 1 {
        assert Linked(edges, p[i], p[i + 1]);
      }
    }
    assert Path(edges, longer);
  }

  // A set closed under links that holds the root's successors holds everything reached.
  lemma {:induction false} ClosedHoldsPath(edges: Edges, root: string, seen: set<string>, p: seq<string>)
    requires Successors(edges, root) <= seen && forall pid | pid in seen :: Successors(edges, pid) <= seen
    requires Path(edges, p) && |p| > 1 && p[0] == root
    ensures p[|p| - 1] in seen
    decreases |p|
  {
    var front, last := p[..|p| - 1], |p| - 1;
    assert Linked(edges, p[last - 1], p[last]);
    if last > 1 {
      forall i | 0 <= i < |front| - 1 ensures Linked(edges, front[i], front[i + 1]) {
        assert Linked(edges, p[i], p[i + 1]);
      }
      ClosedHoldsPath(edges, root, seen, front);
    }
  }

  ghost function Nodes(edges: Edges): (all: set<string>)
    ensures forall pid :: Successors(edges, pid) <= all
  {
    set source, target | source in edges && target in edges[source] :: target
  }

  // What the stack-based search keeps: everything seen is reached, and the only crates with
  // successors not yet seen are on the stack.
  ghost predicate Searching(edges: Edges, root: string, seen: set<string>, stack: seq<string>) {
    && (forall pid | pid in seen :: Reaches(edges, root, pid))
    && (forall i | 0 <= i < |stack| :: stack[i] == root || stack[i] in seen)
    && (Successors(edges, root) <= seen || root in stack)
    && (forall pid | pid in seen :: Successors(edges, pid) <= seen || pid in stack)
  }

  method Closure(edges: Edges, root: string) returns (seen: set<string>)
    ensures forall pid :: pid in seen <==> Reaches(edges, root, pid)
  {
    seen := {};
    var stack := [root];
    while stack != []
      invariant Searching(edges, root, seen, stack)
      invariant seen <= Nodes(edges)
      decreases |Nodes(edges) - seen|, |stack|
    {
      var cur := stack[|stack| - 1];
      ghost var seen0, stack0 := seen, stack;
      seen, stack := Push(Successors(edges, cur), seen, stack[..|stack| - 1]);
      VisitKeeps(edges, root, seen0, stack0, seen, stack);
      if seen != seen0 {
        Shrinks(Nodes(edges), seen0, seen);
      }
    }
    forall pid | Reaches(edges, root, pid) ensures pid in seen {
      var p :| Path(edges, p) && |p| > 1 && p[0] == root && p[|p| - 1] == pid;
      ClosedHoldsPath(edges, root, seen, p);
    }
  }

  // The inner loop: the crates not yet seen are marked and pushed, in some order.
  method Push(targets: set<string>, seen0: set<string>, stack0: seq<string>)
    returns (seen: set<string>, stack: seq<string>)
    ensures seen == seen0 + targets
    ensures stack0 <= stack && forall i | |stack0| <= i < |stack| :: stack[i] in targets - seen0
    ensures forall pid | pid in targets - seen0 :: pid in stack
    ensures seen == seen0 ==> stack == stack0
  {
    seen, stack := seen0, stack0;
    var rest := targets;
    while rest != {}
      invariant rest <= targets && seen == seen0 + (targets - rest)
      invariant stack0 <= stack && forall i | |stack0| <= i < |stack| :: stack[i] in targets - seen0
      invariant forall pid | pid in targets - rest - seen0 :: pid in stack
      invariant seen == seen0 ==> stack == stack0
      decreases rest
    {
      var next :| next in rest;
      rest := rest - {next};
      if next !in seen {
        seen := seen + {next};
        stack := stack + [next];
      }
    }
  }

  // One turn of the search keeps what it keeps.
  lemma VisitKeeps(edges: Edges, root: string, seen: set<string>, stack: seq<string>, seen': set<string>, stack': seq<string>)
    requires stack != [] && Searching(edges, root, seen, stack)
    requires var cur, rest := stack[|stack| - 1], stack[..|stack| - 1];
             && seen' == seen + Successors(edges, cur)
             && rest <= stack' && (forall i | |rest| <= i < |stack'| :: stack'[i] in Successors(edges, cur) - seen)
             && forall pid | pid in Successors(edges, cur) - seen :: pid in stack'
    ensures Searching(edges, root, seen', stack')
  {
    var cur, rest := stack[|stack| - 1], stack[..|stack| - 1];
    assert stack == rest + [cur];
    forall pid | pid in seen' ensures Reaches(edges, root, pid) {
      if pid !in seen {
        ReachesStep(edges, root, cur, pid);
      }
    }
    forall i | 0 <= i < |stack'| ensures stack'[i] == root || stack'[i] in seen' {
      if i < |rest| {
        assert stack'[i] == rest[i] == stack[i];
      }
    }
    forall pid | pid in stack && pid != cur ensures pid in stack' {
      var i :| 0 <= i < |stack| && stack[i] == pid;
      assert stack'[i] == rest[i] == stack[i];
    }
  }

  lemma Shrinks(all: set<string>, small: set<string>, large: set<string>)
    requires small < large <= all
    ensures |all - large| < |all - small|
  {
    var extra :| extra in large && extra !in small;
    assert all - large <= all - small - {extra};
    CardinalityMonotone(all - large, all - small - {extra});
  }

  lemma {:induction false} CardinalityMonotone(a: set<string>, b: set<string>)
    requires a <= b
    ensures |a| <= |b|
    decreases a
  {
    if x :| x in a {
      CardinalityMonotone(a - {x}, b - {x});
    }
  }

  // ---- The gate ------------------------------------------------------------------------------

  // Every member's links stay among members, and every member is a known package.
  predicate Wired(pkg: map<string, Package>, members: set<string>, edges: Edges) {
    members <= pkg.Keys && edges.Keys == members && forall pid | pid in members :: edges[pid] <= members
  }

  predicate IsApache(pkg: map<string, Package>, members: set<string>, pid: string) {
    pid in members && pid in pkg && pkg[pid].license == APACHE
  }

  // Crate `agpl` is an AGPL crate that `pid` links, directly or not.
  ghost predicate LinksAgpl(pkg: map<string, Package>, edges: Edges, pid: string, agpl: string) {
    agpl in pkg && pkg[agpl].license == AGPL && Reaches(edges, pid, agpl)
  }

  lemma ReachedIsMember(pkg: map<string, Package>, members: set<string>, edges: Edges, root: string, pid: string)
    requires Wired(pkg, members, edges) && Reaches(edges, root, pid)
    ensures pid in members
  {
    var p :| Path(edges, p) && |p| > 1 && p[0] == root && p[|p| - 1] == pid;
    assert Linked(edges, p[|p| - 2], p[|p| - 2 + 1]);
  }

  method AgplLinks(pkg: map<string, Package>, members: set<string>, edges: Edges, pid: string) returns (names: set<string>)
    requires Wired(pkg, members, edges)
    ensures forall agpl | LinksAgpl(pkg, edges, pid, agpl) :: pkg[agpl].name in names
    ensures forall name | name in names :: exists agpl :: LinksAgpl(pkg, edges, pid, agpl) && pkg[agpl].name == name
  {
    var reached := Closure(edges, pid);
    forall d | d in reached ensures d in pkg {
      ReachedIsMember(pkg, members, edges, pid, d);
    }
    names := set d | d in reached && pkg[d].license == AGPL :: pkg[d].name;
    forall name | name in names ensures exists agpl :: LinksAgpl(pkg, edges, pid, agpl) && pkg[agpl].name == name {
      var agpl :| agpl in reached && pkg[agpl].license == AGPL && pkg[agpl].name == name;
      assert LinksAgpl(pkg, edges, pid, agpl);
    }
    forall agpl | LinksAgpl(pkg, edges, pid, agpl) ensures pkg[agpl].name in names {
      assert agpl in reached;
    }
  }

  lemma GraphIsWired(pkg: map<string, Package>, members: set<string>, nodes: seq<Node>, edges: Edges)
    requires members <= pkg.Keys && IsLinkGraph(edges, members, nodes)
    ensures Wired(pkg, members, edges)
  {
    forall pid, target | pid in members && target in edges[pid] ensures target in members {
      assert Links(members, nodes, pid, target);
    }
  }

  /** The gate passes exactly when no Apache crate reaches an AGPL crate through normal
      dependencies; otherwise each offending crate is listed with the names of all it reaches. */
  method Gate(pkg: map<string, Package>, members: set<string>, nodes: seq<Node>)
    returns (pass: bool, violations: map<string, set<string>>, edges: Edges)
    requires members <= pkg.Keys
    ensures IsLinkGraph(edges, members, nodes)
    ensures pass <==> forall pid, agpl | IsApache(pkg, members, pid) :: !LinksAgpl(pkg, edges, pid, agpl)
    ensures forall pid, agpl | IsApache(pkg, members, pid) && LinksAgpl(pkg, edges, pid, agpl) ::
              pid in violations && pkg[agpl].name in violations[pid]
    ensures forall pid, name | pid in violations && name in violations[pid] ::
              IsApache(pkg, members, pid) && exists agpl :: LinksAgpl(pkg, edges, pid, agpl) && pkg[agpl].name == name
    ensures forall pid | pid in violations :: violations[pid] != {}
  {
    edges := NormalEdges(members, nodes);
    GraphIsWired(pkg, members, nodes, edges);
    violations := map[];
    var apache := set pid | pid in members && pkg[pid].license == APACHE;
    var rest := apache;
    while rest != {}
      invariant rest <= apache && violations.Keys <= apache - rest
      invariant forall pid | pid in violations :: violations[pid] != {}
      invariant forall pid, agpl | pid in apache - rest && LinksAgpl(pkg, edges, pid, agpl) ::
                  pid in violations && pkg[agpl].name in violations[pid]
      invariant forall pid, name | pid in violations && name in violations[pid] ::
                  exists agpl :: LinksAgpl(pkg, edges, pid, agpl) && pkg[agpl].name == name
      decreases rest
    {
      var pid :| pid in rest;
      rest := rest - {pid};
      var names := AgplLinks(pkg, members, edges, pid);
      if names != {} {
        violations := violations[pid := names];
      }
    }
    pass := violations == map[];
    if !pass {
      var pid :| pid in violations;
      var name :| name in violations[pid];
    }
  }

  /** The boundary as a cut: no Apache crate reaches an AGPL crate exactly when some set of crates
      holds whatever Apache crates link, is closed under links, and has no AGPL crate in it. */
  lemma BoundaryIsCut(pkg: map<string, Package>, members: set<string>, edges: Edges)
    requires Wired(pkg, members, edges)
    ensures (forall pid, agpl | IsApache(pkg, members, pid) :: !LinksAgpl(pkg, edges, pid, agpl))
       <==> exists side :: Separates(pkg, members, edges, side)
  {
    if forall pid, agpl | IsApache(pkg, members, pid) :: !LinksAgpl(pkg, edges, pid, agpl) {
      ReachedSeparates(pkg, members, edges);
    }
    if side :| Separates(pkg, members, edges, side) {
      forall pid, agpl | IsApache(pkg, members, pid) && LinksAgpl(pkg, edges, pid, agpl) ensures false {
        var p :| Path(edges, p) && |p| > 1 && p[0] == pid && p[|p| - 1] == agpl;
        ClosedHoldsPath(edges, pid, side, p);
      }
    }
  }

  predicate Separates(pkg: map<string, Package>, members: set<string>, edges: Edges, side: set<string>) {
    && (forall pid | pid in members && IsApache(pkg, members, pid) :: Successors(edges, pid) <= side)
    && (forall pid | pid in side :: Successors(edges, pid) <= side)
    && (forall pid | pid in side && pid in pkg :: pkg[pid].license != AGPL)
  }

  lemma ReachedSeparates(pkg: map<string, Package>, members: set<string>, edges: Edges)
    requires Wired(pkg, members, edges)
    requires forall pid, agpl | IsApache(pkg, members, pid) :: !LinksAgpl(pkg, edges, pid, agpl)
    ensures exists side :: Separates(pkg, members, edges, side)
  {
    var side := set d | d in members && exists pid :: IsApache(pkg, members, pid) && Reaches(edges, pid, d);
    forall pid, d | pid in members && IsApache(pkg, members, pid) && d in Successors(edges, pid) ensures d in side {
      ReachesStep(edges, pid, pid, d);
    }
    forall mid, d | mid in side && d in Successors(edges, mid) ensures d in side {
      var pid :| IsApache(pkg, members, pid) && Reaches(edges, pid, mid);
      ReachesStep(edges, pid, mid, d);
    }
    forall d | d in side && d in pkg ensures pkg[d].license != AGPL {
      var pid :| IsApache(pkg, members, pid) && Reaches(edges, pid, d);
      assert !LinksAgpl(pkg, edges, pid, d);
    }
    assert Separates(pkg, members, edges, side);
  }

  /** By the names of the licences: an Apache-2.0 member that reaches an AGPL-3.0-only crate keeps the
      gate shut, and is listed with that crate. */
  lemma OffenderIsCaught(pkg: map<string, Package>, members: set<string>, edges: Edges, pid: string, agpl: string)
    requires Wired(pkg, members, edges) && pid in members && Reaches(edges, pid, agpl)
    requires pkg[pid].license == "Apache-2.0"
    ensures agpl in pkg
    ensures pkg[agpl].license == "AGPL-3.0-only" <==> LinksAgpl(pkg, edges, pid, agpl)
    ensures IsApache(pkg, members, pid)
  {
    ReachedIsMember(pkg, members, edges, pid, agpl);
  }

  /** Dependencies for tests and builds alone link nothing. */
  lemma DevDependenciesDoNotLink(members: set<string>, nodes: seq<Node>, source: string, target: string)
    requires forall i, j | 0 <= i < |nodes| && 0 <= j < |nodes[i].deps| && nodes[i].id == source ::
               nodes[i].deps[j].pkg == target ==>
               forall k | 0 <= k < |nodes[i].deps[j].kinds| :: nodes[i].deps[j].kinds[k] in {Dev, Build}
    ensures !Links(members, nodes, source, target)
  {
  }

  /** A normal one between members does, whatever other kinds it has. */
  lemma NormalDependencyLinks(members: set<string>, nodes: seq<Node>, i: nat, j: nat, k: nat)
    requires i < |nodes| && j < |nodes[i].deps| && k < |nodes[i].deps[j].kinds|
    requires nodes[i].deps[j].kinds[k] == Normal && nodes[i].id in members && nodes[i].deps[j].pkg in members
    ensures Links(members, nodes, nodes[i].id, nodes[i].deps[j].pkg)
  {
    assert Declares(nodes[i], nodes[i].id, nodes[i].deps[j]);
  }
}
