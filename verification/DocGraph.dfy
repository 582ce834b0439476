/** Dependency-cycle detection and reachability over the documentation graph. */
module DocGraph {

  // ------------------------------------------------------------ mission graph

  datatype Node = Node(id: string, dependsOn: seq<string>)

  ghost predicate DependsOn(nodes: seq<Node>, x: string, y: string) {
    exists n :: n in nodes && n.id == x && y in n.dependsOn
  }

  ghost predicate IsPath(nodes: seq<Node>, p: seq<string>) {
    forall k :: 0 <= k < |p| - 1 ==> DependsOn(nodes, p[k], p[k + 1])
  }

  /** A closed walk along real depends_on edges. */
  ghost predicate IsCycle(nodes: seq<Node>, p: seq<string>) {
    2 <= |p| && p[0] == p[|p| - 1] && IsPath(nodes, p)
  }

  ghost predicate NoDuplicates(p: seq<string>) {
    forall j, k :: 0 <= j < k < |p| ==> p[j] != p[k]
  }

  function Names(nodes: seq<Node>): set<string> {
    (set n | n in nodes :: n.id) + (set n, d | n in nodes && d in n.dependsOn :: d)
  }

  /** The adjacency map holds, per id, the dependencies of all nodes with that id. */
  ghost predicate Adjacency(nodes: seq<Node>, adj: map<string, seq<string>>) {
    forall x, y :: DependsOn(nodes, x, y) <==> x in adj && y in adj[x]
  }

  lemma AdjacencyGrows(nodes: seq<Node>, adj: map<string, seq<string>>, n: Node)
    requires Adjacency(nodes, adj)
    ensures Adjacency(nodes + [n], adj[n.id := (if n.id in adj then adj[n.id] else []) + n.dependsOn])
  {
    var adj' := adj[n.id := (if n.id in adj then adj[n.id] else []) + n.dependsOn];
    forall x, y ensures DependsOn(nodes + [n], x, y) <==> x in adj' && y in adj'[x] {
      assert DependsOn(nodes + [n], x, y) <==> DependsOn(nodes, x, y) || (n.id == x && y in n.dependsOn) by {
        assert n in nodes + [n];
        assert forall m :: m in nodes + [n] <==> m in nodes || m == n;
      }
    }
  }

  method BuildAdjacency(nodes: seq<Node>) returns (adj: map<string, seq<string>>)
    ensures Adjacency(nodes, adj)
  {
    adj := map[];
    for k := 0 to |nodes|
      invariant Adjacency(nodes[..k], adj)
    {
      AdjacencyGrows(nodes[..k], adj, nodes[k]);
      assert nodes[..k + 1] == nodes[..k] + [nodes[k]];
      adj := adj[nodes[k].id := (if nodes[k].id in adj then adj[nodes[k].id] else []) + nodes[k].dependsOn];
    }
    assert nodes[..|nodes|] == nodes;
  }

  /** Ranks that fall along every edge out of the visited set. */
  ghost predicate Ranked(adj: map<string, seq<string>>, visited: set<string>, rank: map<string, nat>) {
    && visited <= rank.Keys
    && forall x, y :: x in visited && x in adj && y in adj[x] ==> y in visited && rank[y] < rank[x]
  }

  /** The search state: the stack is a simple path, exactly the nodes on it are
      being visited, and everything visited is ranked. */
  ghost predicate SearchOk(nodes: seq<Node>, adj: map<string, seq<string>>,
                           visiting: set<string>, visited: set<string>, stack: seq<string>, rank: map<string, nat>)
  {
    && Adjacency(nodes, adj)
    && visiting == (set x | x in stack)
    && NoDuplicates(stack)
    && IsPath(nodes, stack)
    && visiting !! visited
    && visiting + visited <= Names(nodes)
    && Ranked(adj, visited, rank)
  }

  function Untouched(nodes: seq<Node>, visiting: set<string>, visited: set<string>): nat {
    |Names(nodes) - visiting - visited|
  }

  function Deps(adj: map<string, seq<string>>, id: string): set<string> {
    if id in adj then set d | d in adj[id] else {}
  }

  lemma Enter(nodes: seq<Node>, adj: map<string, seq<string>>,
              visiting: set<string>, visited: set<string>, stack: seq<string>, rank: map<string, nat>, id: string)
    requires SearchOk(nodes, adj, visiting, visited, stack, rank)
    requires id in Names(nodes) && id !in visiting && id !in visited
    requires stack != [] ==> DependsOn(nodes, stack[|stack| - 1], id)
    ensures SearchOk(nodes, adj, visiting + {id}, visited, stack + [id], rank)
  {
  }

  lemma TouchShrinks(nodes: seq<Node>, visiting: set<string>, visited: set<string>, id: string)
    requires id in Names(nodes) && id !in visiting && id !in visited
    ensures Untouched(nodes, visiting + {id}, visited) < Untouched(nodes, visiting, visited)
  {
    hide Names;
    Smaller(Names(nodes) - (visiting + {id}) - visited, Names(nodes) - visiting - visited, id);
  }

  lemma Leave(nodes: seq<Node>, adj: map<string, seq<string>>,
              visiting: set<string>, visited: set<string>, stack: seq<string>, rank: map<string, nat>, id: string)
    requires SearchOk(nodes, adj, visiting, visited, stack + [id], rank) && Deps(adj, id) <= visited
    ensures SearchOk(nodes, adj, visiting - {id}, visited + {id}, stack, rank[id := Above(rank, Deps(adj, id))])
  {
    hide IsPath, NoDuplicates, Ranked, Adjacency, Names, DependsOn, Above;
    assert id in stack + [id];
    PrefixKeepsPath(nodes, stack, id);
    RankMore(adj, visited, rank, id);
    assert forall x :: x in stack + [id] <==> x in stack || x == id;
  }

  /** The visiting and visited maps and the stack shared by the recursive closure. */
  class CycleFinder {
    const adj: map<string, seq<string>>
    ghost const nodes: seq<Node>
    var visiting: set<string>
    var visited: set<string>
    var stack: seq<string>
    ghost var rank: map<string, nat>

    constructor (nodes: seq<Node>, adj: map<string, seq<string>>)
      requires Adjacency(nodes, adj)
      ensures this.adj == adj && this.nodes == nodes && Valid()
      ensures visiting == {} && visited == {} && stack == []
    {
      this.adj := adj;
      this.nodes := nodes;
      visiting, visited, stack := {}, {}, [];
      rank := map[];
    }

    ghost predicate Valid()
      reads this
    {
      SearchOk(nodes, adj, visiting, visited, stack, rank)
    }

    /** visit: nil means the node and all it depends on are now known acyclic. */
    method Visit(id: string) returns (cycle: seq<string>)
      requires Valid() && id in Names(nodes)
      requires stack != [] ==> DependsOn(nodes, stack[|stack| - 1], id)
      modifies this
      ensures cycle == [] ==> Valid() && stack == old(stack) && visiting == old(visiting)
      ensures cycle == [] ==> id in visited && old(visited) <= visited
      ensures cycle != [] ==> IsCycle(nodes, cycle) && NoDuplicates(cycle[1..])
      decreases Untouched(nodes, visiting, visited), 0
    {
      hide SearchOk, IsCycle, NoDuplicates, Names, Above, DependsOn, Untouched, Deps;
      if id in visiting {
        OnStack(nodes, adj, visiting, visited, stack, rank, id);
        cycle := CloseAt(nodes, stack, id);
        return;
      }
      if id in visited {
        return [];
      }
      Enter(nodes, adj, visiting, visited, stack, rank, id);
      TouchShrinks(nodes, visiting, visited, id);
      visiting := visiting + {id};
      stack := stack + [id];
      cycle := VisitDeps(id);
      if cycle != [] {
        return;
      }
      Leave(nodes, adj, visiting, visited, old(stack), rank, id);
      assert stack[..|stack| - 1] == old(stack);
      stack := stack[..|stack| - 1];
      visiting := visiting - {id};
      visited := visited + {id};
      rank := rank[id := Above(rank, Deps(adj, id))];
    }

    /** The loop of visit over the dependencies of the node on top of the stack. */
    method VisitDeps(id: string) returns (cycle: seq<string>)
      requires Valid() && stack != [] && stack[|stack| - 1] == id
      modifies this
      ensures cycle == [] ==> Valid() && stack == old(stack) && visiting == old(visiting)
      ensures cycle == [] ==> old(visited) <= visited && Deps(adj, id) <= visited
      ensures cycle != [] ==> IsCycle(nodes, cycle) && NoDuplicates(cycle[1..])
      decreases Untouched(nodes, visiting, visited), 1
    {
      hide SearchOk, IsCycle, NoDuplicates, Names, DependsOn, Untouched;
      cycle := [];
      if id !in adj {
        return;
      }
      var deps := adj[id];
      for k := 0 to |deps|
        invariant Valid() && stack == old(stack) && visiting == old(visiting) && old(visited) <= visited
        invariant forall j :: 0 <= j < k ==> deps[j] in visited
        invariant cycle == []
      {
        AdjacentEdge(nodes, adj, visiting, visited, stack, rank, id, deps[k]);
        UntouchedShrinks(nodes, visiting, old(visited), visited);
        cycle := Visit(deps[k]);
        if cycle != [] {
          return;
        }
      }
    }
  }

  lemma OnStack(nodes: seq<Node>, adj: map<string, seq<string>>,
                visiting: set<string>, visited: set<string>, stack: seq<string>, rank: map<string, nat>, id: string)
    requires SearchOk(nodes, adj, visiting, visited, stack, rank) && id in visiting
    ensures id in stack && IsPath(nodes, stack) && NoDuplicates(stack)
  {
  }

  lemma AdjacentEdge(nodes: seq<Node>, adj: map<string, seq<string>>,
                     visiting: set<string>, visited: set<string>, stack: seq<string>, rank: map<string, nat>, x: string, y: string)
    requires SearchOk(nodes, adj, visiting, visited, stack, rank) && x in adj && y in adj[x]
    ensures DependsOn(nodes, x, y) && y in Names(nodes)
  {
  }

  lemma UntouchedShrinks(nodes: seq<Node>, visiting: set<string>, before: set<string>, after: set<string>)
    requires before <= after
    ensures Untouched(nodes, visiting, after) <= Untouched(nodes, visiting, before)
  {
    Subset(Names(nodes) - visiting - after, Names(nodes) - visiting - before);
  }

  /** The cycle that an edge back onto the stack closes. */
  method CloseAt(ghost nodes: seq<Node>, stack: seq<string>, id: string) returns (cycle: seq<string>)
    requires IsPath(nodes, stack) && NoDuplicates(stack) && id in stack
    requires DependsOn(nodes, stack[|stack| - 1], id)
    ensures cycle != [] && IsCycle(nodes, cycle) && NoDuplicates(cycle[1..])
  {
    var i := 0;
    while stack[i] != id
      invariant 0 <= i < |stack| && id in stack[i..]
      decreases |stack| - i
    {
      i := i + 1;
    }
    ClosedStack(nodes, stack, i, id);
    return stack[i..] + [id];
  }

  lemma PrefixKeepsPath(nodes: seq<Node>, stack: seq<string>, id: string)
    requires IsPath(nodes, stack + [id]) && NoDuplicates(stack + [id])
    ensures IsPath(nodes, stack) && NoDuplicates(stack) && id !in stack
  {
    var p := stack + [id];
    forall k | 0 <= k < |stack| - 1 ensures DependsOn(nodes, stack[k], stack[k + 1]) {
      assert DependsOn(nodes, p[k], p[k + 1]);
    }
    forall j, k | 0 <= j < k < |stack| ensures stack[j] != stack[k] {
      assert p[j] != p[k];
    }
    forall j | 0 <= j < |stack| ensures stack[j] != id {
      assert p[j] != p[|stack|];
    }
  }

  lemma RankMore(adj: map<string, seq<string>>, visited: set<string>, rank: map<string, nat>, id: string)
    requires Ranked(adj, visited, rank) && id !in visited
    requires id in adj ==> forall d :: d in adj[id] ==> d in visited
    ensures Ranked(adj, visited + {id}, rank[id := Above(rank, Deps(adj, id))])
  {
  }

  ghost function Above(rank: map<string, nat>, xs: set<string>): (r: nat)
    ensures forall x :: x in xs && x in rank ==> rank[x] < r
    decreases |xs|
  {
    if xs == {} then 0
    else
      var x :| x in xs;
      var r := Above(rank, xs - {x});
      if x in rank && rank[x] >= r then rank[x] + 1 else r
  }

  lemma Smaller(now: set<string>, outer: set<string>, x: string)
    requires now <= outer - {x} && x in outer
    ensures |now| < |outer|
  {
    Subset(now, outer - {x});
  }

  lemma {:induction false} Subset(a: set<string>, b: set<string>)
    requires a <= b
    ensures |a| <= |b|
    decreases |a|
  {
    if a != {} {
      var x :| x in a;
      Subset(a - {x}, b - {x});
    }
  }

  lemma ClosedStack(nodes: seq<Node>, stack: seq<string>, i: nat, id: string)
    requires IsPath(nodes, stack) && NoDuplicates(stack) && i < |stack| && stack[i] == id
    requires DependsOn(nodes, stack[|stack| - 1], id)
    ensures IsCycle(nodes, stack[i..] + [id]) && NoDuplicates((stack[i..] + [id])[1..])
  {
  }

  /** Ranks fall along a path, so a path that starts visited never closes. */
  lemma {:induction false} RankFalls(nodes: seq<Node>, adj: map<string, seq<string>>, visited: set<string>, rank: map<string, nat>, p: seq<string>)
    requires Adjacency(nodes, adj) && Ranked(adj, visited, rank) && IsPath(nodes, p) && p != [] && p[0] in visited
    ensures p[|p| - 1] in visited && (|p| > 1 ==> rank[p[|p| - 1]] < rank[p[0]])
    decreases |p|
  {
    if |p| > 1 {
      var q := p[..|p| - 1];
      RankFalls(nodes, adj, visited, rank, q);
      assert DependsOn(nodes, p[|p| - 2], p[|p| - 1]);
    }
  }

  /** findGraphCycle is exact: it returns nil if and only if there is no cycle,
      and otherwise a simple closed walk of real depends_on edges. */
  method FindGraphCycle(nodes: seq<Node>) returns (cycle: seq<string>)
    ensures cycle == [] <==> forall p :: !IsCycle(nodes, p)
    ensures cycle != [] ==> IsCycle(nodes, cycle) && NoDuplicates(cycle[1..])
  {
    var adj := BuildAdjacency(nodes);
    var f := new CycleFinder(nodes, adj);
    for k := 0 to |nodes|
      invariant f.Valid() && f.stack == [] && f.nodes == nodes && f.adj == adj
      invariant forall j :: 0 <= j < k ==> nodes[j].id in f.visited
    {
      assert nodes[k] in nodes;
      cycle := f.Visit(nodes[k].id);
      if cycle != [] {
        return;
      }
    }
    forall p ensures !IsCycle(nodes, p) {
      if IsCycle(nodes, p) {
        assert DependsOn(nodes, p[0], p[1]);
        RankFalls(nodes, adj, f.visited, f.rank, p);
      }
    }
    return [];
  }

  // ------------------------------------------------------------- reachability

  datatype Doc = Doc(path: string, roots: seq<string>)
  datatype Link = Link(source: string, target: string)

  ghost predicate IsRootDoc(d: Doc) {
    "entry" in d.roots || "authority" in d.roots
  }

  ghost predicate IsRootPath(docs: map<string, Doc>, x: string) {
    exists key :: key in docs && IsRootDoc(docs[key]) && docs[key].path == x
  }

  /** The loop over the kinds a document is a root of. */
  method HasRootKind(d: Doc) returns (found: bool)
    ensures found <==> IsRootDoc(d)
  {
    for k := 0 to |d.roots|
      invariant forall j :: 0 <= j < k ==> d.roots[j] != "entry" && d.roots[j] != "authority"
    {
      if d.roots[k] == "entry" || d.roots[k] == "authority" {
        return true;
      }
    }
    return false;
  }

  ghost predicate Linked(links: seq<Link>, x: string, y: string) {
    Link(x, y) in links
  }

  /** A walk along links from a root to x. */
  ghost predicate IsRoute(docs: map<string, Doc>, links: seq<Link>, p: seq<string>, x: string) {
    && p != [] && IsRootPath(docs, p[0]) && p[|p| - 1] == x
    && forall k :: 0 <= k < |p| - 1 ==> Linked(links, p[k], p[k + 1])
  }

  ghost predicate Reaches(docs: map<string, Doc>, links: seq<Link>, x: string) {
    exists p :: IsRoute(docs, links, p, x)
  }

  ghost predicate ClosedUnder(links: seq<Link>, s: set<string>) {
    forall x, y :: x in s && Linked(links, x, y) ==> y in s
  }

  ghost predicate ContainsRoots(docs: map<string, Doc>, s: set<string>) {
    forall x :: IsRootPath(docs, x) ==> x in s
  }

  lemma ExtendRoute(docs: map<string, Doc>, links: seq<Link>, x: string, y: string)
    requires Reaches(docs, links, x) && Linked(links, x, y)
    ensures Reaches(docs, links, y)
  {
    var p :| IsRoute(docs, links, p, x);
    assert IsRoute(docs, links, p + [y], y);
  }

  lemma {:induction false} RouteStaysInside(docs: map<string, Doc>, links: seq<Link>, s: set<string>, p: seq<string>, x: string)
    requires ContainsRoots(docs, s) && ClosedUnder(links, s) && IsRoute(docs, links, p, x)
    ensures x in s
    decreases |p|
  {
    if |p| > 1 {
      var q := p[..|p| - 1];
      assert IsRoute(docs, links, q, p[|p| - 2]);
      RouteStaysInside(docs, links, s, q, p[|p| - 2]);
      assert Linked(links, p[|p| - 2], p[|p| - 1]);
    }
  }

  /** The set of reachable paths is the least one that holds the roots and is closed under links. */
  lemma ReachableIsLeast(docs: map<string, Doc>, links: seq<Link>, r: set<string>, s: set<string>)
    requires forall x :: x in r <==> Reaches(docs, links, x)
    requires ContainsRoots(docs, s) && ClosedUnder(links, s)
    ensures ContainsRoots(docs, r) && ClosedUnder(links, r) && r <= s
  {
    forall x | IsRootPath(docs, x) ensures x in r {
      assert IsRoute(docs, links, [x], x);
    }
    forall x, y | x in r && Linked(links, x, y) ensures y in r {
      ExtendRoute(docs, links, x, y);
    }
    forall x | x in r ensures x in s {
      var p :| IsRoute(docs, links, p, x);
      RouteStaysInside(docs, links, s, p, x);
    }
  }

  ghost predicate LinkMap(links: seq<Link>, adj: map<string, seq<string>>) {
    forall x, y :: Linked(links, x, y) <==> x in adj && y in adj[x]
  }

  lemma LinkMapGrows(links: seq<Link>, adj: map<string, seq<string>>, e: Link)
    requires LinkMap(links, adj)
    ensures LinkMap(links + [e], adj[e.source := (if e.source in adj then adj[e.source] else []) + [e.target]])
  {
    var adj' := adj[e.source := (if e.source in adj then adj[e.source] else []) + [e.target]];
    forall x, y ensures Linked(links + [e], x, y) <==> x in adj' && y in adj'[x] {
      assert Linked(links + [e], x, y) <==> Linked(links, x, y) || e == Link(x, y);
    }
  }

  method BuildLinks(links: seq<Link>) returns (adj: map<string, seq<string>>)
    ensures LinkMap(links, adj)
  {
    adj := map[];
    for k := 0 to |links|
      invariant LinkMap(links[..k], adj)
    {
      LinkMapGrows(links[..k], adj, links[k]);
      assert links[..k + 1] == links[..k] + [links[k]];
      adj := adj[links[k].source := (if links[k].source in adj then adj[links[k].source] else []) + [links[k].target]];
    }
    assert links[..|links|] == links;
  }

  /** The first loop: the paths of the entry and authority documents, in any order. */
  method CollectRoots(docs: map<string, Doc>) returns (queue: seq<string>, reachable: set<string>)
    ensures forall x :: x in reachable <==> x in queue
    ensures forall x :: x in reachable <==> IsRootPath(docs, x)
  {
    queue, reachable := [], {};
    var keys := docs.Keys;
    while keys != {}
      invariant keys <= docs.Keys
      invariant forall x :: x in reachable <==> x in queue
      invariant forall x :: x in reachable ==> IsRootPath(docs, x)
      invariant forall key :: key in docs && key !in keys && IsRootDoc(docs[key]) ==> docs[key].path in reachable
      decreases |keys|
    {
      var key :| key in keys;
      keys := keys - {key};
      var root := HasRootKind(docs[key]);
      if root {
        queue := queue + [docs[key].path];
        reachable := reachable + {docs[key].path};
      }
    }
  }

  /** One dequeue: every successor not yet reachable is marked and enqueued once. */
  method Expand(nexts: seq<string>, queue0: seq<string>, reachable0: set<string>)
    returns (queue: seq<string>, reachable: set<string>)
    ensures reachable == reachable0 + (set x | x in nexts)
    ensures forall x :: x in queue <==> x in queue0 || x in reachable - reachable0
    ensures reachable == reachable0 ==> queue == queue0
  {
    queue, reachable := queue0, reachable0;
    for k := 0 to |nexts|
      invariant reachable == reachable0 + (set x | x in nexts[..k])
      invariant forall x :: x in queue <==> x in queue0 || x in reachable - reachable0
      invariant reachable == reachable0 ==> queue == queue0
    {
      assert nexts[..k + 1] == nexts[..k] + [nexts[k]];
      if nexts[k] !in reachable {
        reachable := reachable + {nexts[k]};
        queue := queue + [nexts[k]];
      }
    }
    assert nexts[..|nexts|] == nexts;
  }

  /** The worklist state: what is reachable is justified, and only queued paths
      may still have unmarked successors. */
  ghost predicate WorklistOk(docs: map<string, Doc>, links: seq<Link>, universe: set<string>, queue: seq<string>, reachable: set<string>) {
    && reachable <= universe
    && (forall x :: x in queue ==> x in reachable)
    && ContainsRoots(docs, reachable)
    && (forall x :: x in reachable ==> Reaches(docs, links, x))
    && (forall x, y :: x in reachable && x !in queue && Linked(links, x, y) ==> y in reachable)
  }

  lemma ExpandKeeps(docs: map<string, Doc>, links: seq<Link>, universe: set<string>, queue: seq<string>, reachable: set<string>,
                    nexts: seq<string>, queue': seq<string>, reachable': set<string>)
    requires WorklistOk(docs, links, universe, queue, reachable) && queue != []
    requires forall y :: y in nexts <==> Linked(links, queue[0], y)
    requires forall y :: y in nexts ==> y in universe
    requires reachable' == reachable + (set x | x in nexts)
    requires forall x :: x in queue' <==> x in queue[1..] || x in reachable' - reachable
    ensures WorklistOk(docs, links, universe, queue', reachable')
  {
    hide Linked, Reaches, IsRootPath;
    assert queue == [queue[0]] + queue[1..];
    forall y | y in nexts ensures Reaches(docs, links, y) {
      ExtendRoute(docs, links, queue[0], y);
    }
  }

  lemma NextsOf(links: seq<Link>, adj: map<string, seq<string>>, x: string, nexts: seq<string>)
    requires LinkMap(links, adj) && nexts == if x in adj then adj[x] else []
    ensures forall y :: y in nexts <==> Linked(links, x, y)
    ensures forall y :: y in nexts ==> y in Targets(links)
  {
  }

  /** reachableDocs returns exactly the reachable paths. */
  method ReachableDocs(docs: map<string, Doc>, links: seq<Link>) returns (reachable: set<string>)
    ensures forall x :: x in reachable <==> Reaches(docs, links, x)
  {
    hide WorklistOk, Reaches, Linked, LinkMap, IsRootPath;
    var adj := BuildLinks(links);
    var queue;
    queue, reachable := CollectRoots(docs);
    ghost var universe := reachable + Targets(links);
    WorklistStarts(docs, links, queue, reachable);
    while queue != []
      invariant WorklistOk(docs, links, universe, queue, reachable)
      decreases |universe - reachable|, |queue|
    {
      var nexts := if queue[0] in adj then adj[queue[0]] else [];
      NextsOf(links, adj, queue[0], nexts);
      var queue', reachable' := Expand(nexts, queue[1..], reachable);
      ExpandKeeps(docs, links, universe, queue, reachable, nexts, queue', reachable');
      WorkFalls(universe, reachable, reachable', nexts);
      queue, reachable := queue', reachable';
    }
    WorklistEnds(docs, links, universe, reachable);
  }

  ghost function Targets(links: seq<Link>): set<string> {
    set e | e in links :: e.target
  }

  lemma WorkFalls(universe: set<string>, before: set<string>, after: set<string>, nexts: seq<string>)
    requires after == before + (set x | x in nexts) && forall x :: x in nexts ==> x in universe
    ensures after == before || |universe - after| < |universe - before|
  {
    if after != before {
      var x :| x in nexts && x !in before;
      Smaller(universe - after, universe - before, x);
    }
  }

  lemma WorklistStarts(docs: map<string, Doc>, links: seq<Link>, queue: seq<string>, reachable: set<string>)
    requires forall x :: x in reachable <==> x in queue
    requires forall x :: x in reachable <==> IsRootPath(docs, x)
    ensures WorklistOk(docs, links, reachable + Targets(links), queue, reachable)
  {
    RootsReach(docs, links);
  }

  lemma WorklistEnds(docs: map<string, Doc>, links: seq<Link>, universe: set<string>, reachable: set<string>)
    requires WorklistOk(docs, links, universe, [], reachable)
    ensures forall x :: x in reachable <==> Reaches(docs, links, x)
  {
    forall x | Reaches(docs, links, x) ensures x in reachable {
      ReachesStaysInside(docs, links, reachable, x);
    }
  }

  lemma RootsReach(docs: map<string, Doc>, links: seq<Link>)
    ensures forall x :: IsRootPath(docs, x) ==> Reaches(docs, links, x)
  {
    forall x | IsRootPath(docs, x) ensures Reaches(docs, links, x) {
      assert IsRoute(docs, links, [x], x);
    }
  }

  lemma ReachesStaysInside(docs: map<string, Doc>, links: seq<Link>, s: set<string>, x: string)
    requires ContainsRoots(docs, s) && ClosedUnder(links, s) && Reaches(docs, links, x)
    ensures x in s
  {
    var p :| IsRoute(docs, links, p, x);
    RouteStaysInside(docs, links, s, p, x);
  }
}
