/**
 Memory chains: bounded breadth-first search between two entities, with the path read back
 through the map of parents.
 */
module Chains {
  import opened Wrappers

  type Uuid = nat

  datatype Edge = Edge(target: Uuid, edgeType: string)

  /** One storage query: the edges it lists, or a storage error. */
  datatype Lookup = Listed(edges: seq<Edge>) | Failed

  /** The two edge tables that are searched together. */
  datatype Graph = Graph(untyped: Uuid -> Lookup, typed: Uuid -> Lookup)

  datatype ChainStep = ChainStep(entityId: Uuid, edgeType: string)

  datatype Chain = Chain(source: Uuid, destination: Uuid, steps: seq<ChainStep>, hopCount: nat, confidence: real)

  datatype ChainError = HopsOutOfRange | StorageFailed

  // ---------------------------------------------------------------- neighbours

  predicate TextBefore(a: string, b: string) {
    if a == [] then b != []
    else b != [] && (a[0] < b[0] || (a[0] == b[0] && TextBefore(a[1..], b[1..])))
  }

  predicate Before(a: Edge, b: Edge) {
    a.target < b.target || (a.target == b.target && TextBefore(a.edgeType, b.edgeType))
  }

  lemma {:induction false} TextOrderIsTotal(a: string, b: string)
    ensures a == b || TextBefore(a, b) || TextBefore(b, a)
  {
    if a != [] && b != [] && a[0] == b[0] {
      TextOrderIsTotal(a[1..], b[1..]);
      assert a == [a[0]] + a[1..] && b == [b[0]] + b[1..];
    }
  }

  predicate Sorted(edges: seq<Edge>) {
    |edges| <= 1 || (Before(edges[0], edges[1]) && Sorted(edges[1..]))
  }

  function Insert(e: Edge, edges: seq<Edge>): seq<Edge> {
    if edges == [] then [e]
    else if e == edges[0] then edges
    else if Before(e, edges[0]) then [e] + edges
    else [edges[0]] + Insert(e, edges[1..])
  }

  /** Sorted by target then type, with repeated edges dropped. */
  function SortDedup(edges: seq<Edge>): seq<Edge> {
    if edges == [] then [] else Insert(edges[0], SortDedup(edges[1..]))
  }

  lemma {:induction false} InsertKeepsSorted(e: Edge, edges: seq<Edge>)
    requires Sorted(edges)
    ensures Sorted(Insert(e, edges))
    ensures forall x :: x in Insert(e, edges) <==> x == e || x in edges
  {
    if edges != [] && e != edges[0] && !Before(e, edges[0]) {
      TextOrderIsTotal(e.edgeType, edges[0].edgeType);
      InsertKeepsSorted(e, edges[1..]);
      assert edges == [edges[0]] + edges[1..];
      if |edges| > 1 {
        assert Insert(e, edges)[1] == e || Insert(e, edges)[1] == edges[1];
      }
    }
  }

  lemma {:induction false} SortDedupKeepsTheEdges(edges: seq<Edge>)
    ensures Sorted(SortDedup(edges))
    ensures forall x :: x in SortDedup(edges) <==> x in edges
  {
    if edges != [] {
      SortDedupKeepsTheEdges(edges[1..]);
      InsertKeepsSorted(edges[0], SortDedup(edges[1..]));
      assert edges == [edges[0]] + edges[1..];
    }
  }

  /** Both storage queries about an entity succeed. */
  predicate Answers(g: Graph, id: Uuid) {
    g.untyped(id).Listed? && g.typed(id).Listed?
  }

  /** A hop that some table lists. */
  predicate Hop(g: Graph, from: Uuid, e: Edge) {
    Answers(g, from) && (e in g.untyped(from).edges || e in g.typed(from).edges)
  }

  /** The neighbours in the order the search visits them: every listed hop once, sorted. */
  method ChainNeighbors(g: Graph, id: Uuid) returns (neighbors: Lookup)
    ensures neighbors.Listed? <==> Answers(g, id)
    ensures neighbors.Listed? ==> Sorted(neighbors.edges) && forall e :: e in neighbors.edges <==> Hop(g, id, e)
  {
    var first, second := g.untyped(id), g.typed(id);
    if first.Failed? || second.Failed? {
      return Failed;
    }
    SortDedupKeepsTheEdges(first.edges + second.edges);
    neighbors := Listed(SortDedup(first.edges + second.edges));
  }

  // ---------------------------------------------------------------- paths

  function EndOf(source: Uuid, steps: seq<ChainStep>): Uuid {
    if steps == [] then source else steps[|steps| - 1].entityId
  }

  /** Consecutive hops of the graph that lead from `source` to `destination`. */
  ghost predicate IsPath(g: Graph, source: Uuid, steps: seq<ChainStep>, destination: Uuid) {
    && EndOf(source, steps) == destination
    && forall i :: 0 <= i < |steps| ==> Hop(g, EndOf(source, steps[..i]), Edge(steps[i].entityId, steps[i].edgeType))
  }

  function TargetsOf(edges: seq<Edge>): set<Uuid> {
    set e | e in edges :: e.target
  }

  function Targets(g: Graph, id: Uuid): set<Uuid> {
    if Answers(g, id) then TargetsOf(g.untyped(id).edges) + TargetsOf(g.typed(id).edges) else {}
  }

  /** `ids` and all their neighbours. */
  ghost function Spread(g: Graph, ids: set<Uuid>): set<Uuid> {
    ids + set n, m | n in ids && m in Targets(g, n) :: m
  }

  /** The entities within `k` hops. */
  ghost function Within(g: Graph, source: Uuid, k: nat): set<Uuid> {
    if k == 0 then {source} else Spread(g, Within(g, source, k - 1))
  }

  lemma OneHopFurther(g: Graph, source: Uuid, k: nat, n: Uuid, e: Edge)
    requires n in Within(g, source, k) && Hop(g, n, e)
    ensures e.target in Within(g, source, k + 1)
  {
    HopTargets(g, n, e);
  }

  lemma HopTargets(g: Graph, from: Uuid, e: Edge)
    requires Hop(g, from, e)
    ensures e.target in Targets(g, from)
  {
  }

  lemma {:induction false} WithinGrows(g: Graph, source: Uuid, j: nat, k: nat, v: Uuid)
    requires j <= k && v in Within(g, source, j)
    ensures v in Within(g, source, k)
    decreases k
  {
    if j < k {
      WithinGrows(g, source, j, k - 1, v);
    }
  }

  lemma {:induction false} PathStaysWithin(g: Graph, source: Uuid, steps: seq<ChainStep>, destination: Uuid)
    requires IsPath(g, source, steps, destination)
    ensures destination in Within(g, source, |steps|)
    decreases |steps|
  {
    if steps != [] {
      var n := |steps| - 1;
      var before := EndOf(source, steps[..n]);
      assert IsPath(g, source, steps[..n], before) by {
        forall i | 0 <= i < n ensures steps[..n][..i] == steps[..i] {}
      }
      PathStaysWithin(g, source, steps[..n], before);
      OneHopFurther(g, source, n, before, Edge(steps[n].entityId, steps[n].edgeType));
    }
  }

  // ---------------------------------------------------------------- the search

  type Visits = map<Uuid, (Uuid, string)>

  /** An entity was reached by a hop from a visited parent one level up. */
  ghost predicate ParentOk(g: Graph, parent: (Uuid, string), dist: map<Uuid, nat>, v: Uuid)
    requires v in dist
  {
    parent.0 in dist && dist[v] == dist[parent.0] + 1 && Hop(g, parent.0, Edge(v, parent.1))
  }

  ghost predicate Parented(g: Graph, source: Uuid, visited: Visits, dist: map<Uuid, nat>) {
    && visited.Keys == dist.Keys
    && source in dist && dist[source] == 0
    && forall v {:trigger ParentOk(g, visited[v], dist, v)} ::
          v in visited && v != source ==> ParentOk(g, visited[v], dist, v)
  }

  /** The queue holds visited entities with their level, at two neighbouring levels at most. */
  ghost predicate Queued(queue: seq<(Uuid, nat)>, dist: map<Uuid, nat>, level: nat) {
    && (forall i :: 0 <= i < |queue| ==> queue[i].0 in dist && dist[queue[i].0] == queue[i].1)
    && (forall i :: 0 <= i < |queue| ==> level <= queue[i].1 <= level + 1)
    && (forall i, j :: 0 <= i < j < |queue| ==> queue[i].1 <= queue[j].1)
  }

  /** All neighbours of an expanded entity are visited, one level on at most. */
  ghost predicate ExpandedAt(g: Graph, dist: map<Uuid, nat>, v: Uuid)
    requires v in dist
  {
    && Answers(g, v)
    && forall m :: m in Targets(g, v) ==> m in dist && dist[m] <= dist[v] + 1
  }

  ghost predicate Expanded(g: Graph, done: set<Uuid>, dist: map<Uuid, nat>, maxHops: nat) {
    forall v {:trigger ExpandedAt(g, dist, v)} :: v in done && v in dist && dist[v] < maxHops ==> ExpandedAt(g, dist, v)
  }

  /** Everything visited below `level` has been expanded, so `level` hops reach only visited entities. */
  lemma {:induction false} LevelIsCovered(g: Graph, source: Uuid, dist: map<Uuid, nat>, done: set<Uuid>,
                                          maxHops: nat, level: nat, k: nat)
    requires source in dist && dist[source] == 0 && Expanded(g, done, dist, maxHops)
    requires k <= level <= maxHops
    requires forall v :: v in dist && dist[v] < level ==> v in done
    ensures forall v :: v in Within(g, source, k) ==> v in dist && dist[v] <= k
    decreases k
  {
    if k > 0 {
      LevelIsCovered(g, source, dist, done, maxHops, level, k - 1);
      forall v | v in Within(g, source, k) ensures v in dist && dist[v] <= k {
        if v !in Within(g, source, k - 1) {
          var n :| n in Within(g, source, k - 1) && v in Targets(g, n);
          assert ExpandedAt(g, dist, n);
        }
      }
    }
  }

  lemma {:induction false} VisitedIsWithin(g: Graph, source: Uuid, visited: Visits, dist: map<Uuid, nat>, v: Uuid)
    requires Parented(g, source, visited, dist) && v in dist
    ensures v in Within(g, source, dist[v])
    decreases dist[v]
  {
    if v != source {
      assert ParentOk(g, visited[v], dist, v);
      var (parent, edgeType) := visited[v];
      VisitedIsWithin(g, source, visited, dist, parent);
      OneHopFurther(g, source, dist[parent], parent, Edge(v, edgeType));
    }
  }

  /** The backward walk through the parents: it ends at the source and yields a real path. */
  method ReconstructPath(ghost g: Graph, visited: Visits, source: Uuid, destination: Uuid, ghost dist: map<Uuid, nat>)
    returns (steps: seq<ChainStep>)
    requires Parented(g, source, visited, dist) && destination in visited
    ensures IsPath(g, source, steps, destination) && |steps| == dist[destination]
  {
    var reversed: seq<ChainStep> := [];
    var node := destination;
    while node != source
      invariant node in visited
      invariant |reversed| + dist[node] == dist[destination]
      invariant Trail(g, node, reversed, destination)
      decreases dist[node]
    {
      assert ParentOk(g, visited[node], dist, node);
      var (parent, edgeType) := visited[node];
      TrailGrows(g, node, parent, edgeType, reversed, destination);
      reversed := reversed + [ChainStep(node, edgeType)];
      node := parent;
    }
    steps := Reversed(reversed);
  }

  function Reversed(steps: seq<ChainStep>): (r: seq<ChainStep>)
    ensures |r| == |steps|
    ensures forall i :: 0 <= i < |r| ==> r[i] == steps[|steps| - 1 - i]
  {
    if steps == [] then [] else [steps[|steps| - 1]] + Reversed(steps[..|steps| - 1])
  }

  /** A path listed backwards: it starts after `node` and ends at `destination`. */
  ghost predicate Trail(g: Graph, node: Uuid, back: seq<ChainStep>, destination: Uuid) {
    IsPath(g, node, Reversed(back), destination)
  }

  lemma {:induction false} PathGrows(
      g: Graph, node: Uuid, parent: Uuid, step: ChainStep, shorter: seq<ChainStep>, destination: Uuid)
    requires IsPath(g, node, shorter, destination) && step.entityId == node
    requires Hop(g, parent, Edge(node, step.edgeType))
    ensures IsPath(g, parent, [step] + shorter, destination)
  {
    var longer := [step] + shorter;
    forall i | 0 <= i < |longer|
      ensures Hop(g, EndOf(parent, longer[..i]), Edge(longer[i].entityId, longer[i].edgeType))
    {
      if i > 0 {
        assert longer[..i] == [step] + shorter[..i - 1];
        assert EndOf(parent, longer[..i]) == EndOf(node, shorter[..i - 1]);
      }
    }
  }

  lemma {:induction false} ReversedOneMore(back: seq<ChainStep>, step: ChainStep)
    ensures Reversed(back + [step]) == [step] + Reversed(back)
  {
    assert (back + [step])[..|back|] == back;
  }

  lemma TrailGrows(g: Graph, node: Uuid, parent: Uuid, edgeType: string, back: seq<ChainStep>, destination: Uuid)
    requires Trail(g, node, back, destination) && Hop(g, parent, Edge(node, edgeType))
    ensures Trail(g, parent, back + [ChainStep(node, edgeType)], destination)
  {
    var step := ChainStep(node, edgeType);
    ReversedOneMore(back, step);
    PathGrows(g, node, parent, step, Reversed(back), destination);
  }

  ghost predicate Shortest(g: Graph, source: Uuid, destination: Uuid, hops: nat) {
    forall steps :: IsPath(g, source, steps, destination) ==> hops <= |steps|
  }

  lemma NoPathWithin(g: Graph, source: Uuid, destination: Uuid, k: nat)
    requires destination !in Within(g, source, k)
    ensures Shortest(g, source, destination, k + 1)
  {
    forall steps | IsPath(g, source, steps, destination) ensures k + 1 <= |steps| {
      PathStaysWithin(g, source, steps, destination);
      if |steps| <= k {
        WithinGrows(g, source, |steps|, k, destination);
      }
    }
  }

  /** What the search keeps: `done` have been expanded, `current` may be under way. */
  ghost predicate Searching(g: Graph, source: Uuid, visited: Visits, queue: seq<(Uuid, nat)>, dist: map<Uuid, nat>,
                            done: set<Uuid>, current: set<Uuid>, level: nat, maxHops: nat) {
    && Parented(g, source, visited, dist)
    && Expanded(g, done, dist, maxHops)
    && Queued(queue, dist, level)
    && (forall v {:trigger v in done} :: v in dist ==> v in done || v in current || (v, dist[v]) in queue)
    && (forall v :: v in dist ==> dist[v] <= maxHops && dist[v] <= level + 1)
    && done <= dist.Keys
  }

  lemma VisitKeepsExpanded(g: Graph, done: set<Uuid>, dist: map<Uuid, nat>, maxHops: nat, v: Uuid, d: nat)
    requires Expanded(g, done, dist, maxHops) && done <= dist.Keys && v !in dist
    ensures Expanded(g, done, dist[v := d], maxHops)
  {
    forall u | u in done && dist[v := d][u] < maxHops ensures ExpandedAt(g, dist[v := d], u) {
      assert ExpandedAt(g, dist, u);
    }
  }

  lemma VisitKeepsParented(g: Graph, source: Uuid, visited: Visits, dist: map<Uuid, nat>, current: Uuid, e: Edge)
    requires Parented(g, source, visited, dist) && current in dist && e.target !in dist && Hop(g, current, e)
    ensures Parented(g, source, visited[e.target := (current, e.edgeType)], dist[e.target := dist[current] + 1])
  {
    var dist' := dist[e.target := dist[current] + 1];
    var visited' := visited[e.target := (current, e.edgeType)];
    forall v | v in visited' && v != source ensures ParentOk(g, visited'[v], dist', v) {
      assert v == e.target || ParentOk(g, visited[v], dist, v);
    }
  }

  lemma VisitKeepsQueued(queue: seq<(Uuid, nat)>, dist: map<Uuid, nat>, level: nat, v: Uuid)
    requires Queued(queue, dist, level) && v !in dist
    ensures Queued(queue + [(v, level + 1)], dist[v := level + 1], level)
  {
  }

  lemma VisitKeepsSearching(g: Graph, source: Uuid, visited: Visits, queue: seq<(Uuid, nat)>, dist: map<Uuid, nat>,
                            done: set<Uuid>, current: Uuid, depth: nat, maxHops: nat, e: Edge)
    requires Searching(g, source, visited, queue, dist, done, {current}, depth, maxHops)
    requires current in dist && dist[current] == depth < maxHops && e.target !in visited && Hop(g, current, e)
    ensures Searching(g, source, visited[e.target := (current, e.edgeType)], queue + [(e.target, depth + 1)],
                      dist[e.target := depth + 1], done, {current}, depth, maxHops)
  {
    VisitKeepsExpanded(g, done, dist, maxHops, e.target, depth + 1);
    VisitKeepsParented(g, source, visited, dist, current, e);
    VisitKeepsQueued(queue, dist, depth, e.target);
    var longer := queue + [(e.target, depth + 1)];
    assert longer[|queue|] == (e.target, depth + 1);
    assert forall q :: q in queue ==> q in longer;
  }

  lemma VisitStaysWithin(g: Graph, source: Uuid, visited: Visits, dist: map<Uuid, nat>, current: Uuid,
                         maxHops: nat, e: Edge)
    requires Parented(g, source, visited, dist) && current in dist && dist[current] < maxHops && Hop(g, current, e)
    ensures e.target in Within(g, source, maxHops)
  {
    var d := dist[current];
    VisitedIsWithin(g, source, visited, dist, current);
    HopEndsWithin(g, source, d, maxHops, current, e);
  }

  lemma HopEndsWithin(g: Graph, source: Uuid, d: nat, maxHops: nat, current: Uuid, e: Edge)
    requires d < maxHops && current in Within(g, source, d) && Hop(g, current, e)
    ensures e.target in Within(g, source, maxHops)
  {
    OneHopFurther(g, source, d, current, e);
    WithinGrows(g, source, d + 1, maxHops, e.target);
  }

  /** Taking the next entity off the queue moves the search to its level. */
  lemma PopKeepsSearching(g: Graph, source: Uuid, visited: Visits, queue: seq<(Uuid, nat)>, dist: map<Uuid, nat>,
                          done: set<Uuid>, level: nat, maxHops: nat)
    requires Searching(g, source, visited, queue, dist, done, {}, level, maxHops) && queue != []
    ensures Searching(g, source, visited, queue[1..], dist, done, {queue[0].0}, queue[0].1, maxHops)
    ensures queue[0].0 in dist && dist[queue[0].0] == queue[0].1
  {
    assert queue == [queue[0]] + queue[1..];
  }

  /** Expanding `current` completely moves it to the entities that are done. */
  lemma CloseKeepsSearching(g: Graph, source: Uuid, visited: Visits, queue: seq<(Uuid, nat)>, dist: map<Uuid, nat>,
                            done: set<Uuid>, current: Uuid, level: nat, maxHops: nat)
    requires Searching(g, source, visited, queue, dist, done, {current}, level, maxHops) && current in dist
    requires dist[current] < maxHops ==> ExpandedAt(g, dist, current)
    ensures Searching(g, source, visited, queue, dist, done + {current}, {}, level, maxHops)
  {
  }

  /** At the level being expanded, fewer hops lead only to visited entities. */
  lemma UnvisitedIsFar(g: Graph, source: Uuid, visited: Visits, queue: seq<(Uuid, nat)>, dist: map<Uuid, nat>,
                       done: set<Uuid>, current: Uuid, level: nat, maxHops: nat, destination: Uuid)
    requires Searching(g, source, visited, queue, dist, done, {current}, level, maxHops)
    requires current in dist && dist[current] == level <= maxHops && destination !in visited
    ensures Shortest(g, source, destination, level + 1)
  {
    LevelIsCovered(g, source, dist, done, maxHops, level, level);
    NoPathWithin(g, source, destination, level);
  }

  /** A finished search has visited everything within reach and asked about it all. */
  lemma SearchIsComplete(g: Graph, source: Uuid, visited: Visits, dist: map<Uuid, nat>, done: set<Uuid>, level: nat,
                         maxHops: nat, destination: Uuid)
    requires Searching(g, source, visited, [], dist, done, {}, level, maxHops) && maxHops > 0 && destination !in visited
    ensures Shortest(g, source, destination, maxHops + 1)
    ensures forall n :: n in Within(g, source, maxHops - 1) ==> Answers(g, n)
  {
    AllAnswer(g, source, dist, done, maxHops);
    LevelIsCovered(g, source, dist, done, maxHops, maxHops, maxHops);
    NoPathWithin(g, source, destination, maxHops);
  }

  lemma AllAnswer(g: Graph, source: Uuid, dist: map<Uuid, nat>, done: set<Uuid>, maxHops: nat)
    requires source in dist && dist[source] == 0 && Expanded(g, done, dist, maxHops) && maxHops > 0
    requires forall v :: v in dist ==> v in done
    ensures forall n :: n in Within(g, source, maxHops - 1) ==> Answers(g, n)
  {
    LevelIsCovered(g, source, dist, done, maxHops, maxHops, maxHops - 1);
    forall n | n in Within(g, source, maxHops - 1) ensures Answers(g, n) {
      assert ExpandedAt(g, dist, n);
    }
  }

  lemma CurrentIsExpanded(g: Graph, source: Uuid, visited: Visits, queue: seq<(Uuid, nat)>, dist: map<Uuid, nat>,
                          done: set<Uuid>, current: Uuid, depth: nat, maxHops: nat, edges: seq<Edge>)
    requires Searching(g, source, visited, queue, dist, done, {current}, depth, maxHops)
    requires current in dist && dist[current] == depth && Answers(g, current)
    requires forall e :: Hop(g, current, e) ==> e in edges
    requires forall j :: 0 <= j < |edges| ==> edges[j].target in visited
    ensures ExpandedAt(g, dist, current)
  {
    forall m | m in Targets(g, current) ensures m in dist && dist[m] <= dist[current] + 1 {
      var e :| Hop(g, current, e) && e.target == m;
      assert e in edges;
    }
  }

  lemma SearchStarts(g: Graph, source: Uuid, maxHops: nat)
    ensures Searching(g, source, map[source := (source, "")], [(source, 0)], map[source := 0], {}, {}, 0, maxHops)
  {
  }

  lemma {:induction false} FailureIsReachable(
      g: Graph, source: Uuid, visited: Visits, dist: map<Uuid, nat>, current: Uuid, level: nat, hops: nat)
    requires Parented(g, source, visited, dist) && current in dist && dist[current] == level <= hops
    ensures current in Within(g, source, hops)
  {
    VisitedIsWithin(g, source, visited, dist, current);
    WithinGrows(g, source, level, hops, current);
  }

  /** A chain of real hops from source to destination that no path undercuts. */
  ghost predicate GoodChain(g: Graph, source: Uuid, destination: Uuid, maxHops: nat, chain: Chain) {
    && chain.source == source && chain.destination == destination
    && IsPath(g, source, chain.steps, destination)
    && |chain.steps| == chain.hopCount <= maxHops
    && Shortest(g, source, destination, chain.hopCount)
    && chain.confidence == 1.0 / (1 + chain.hopCount) as real
  }

  /** Shortest path between two entities, if one of at most `maxHops` hops exists. */
  method FindChain(g: Graph, source: Uuid, destination: Uuid, maxHops: nat)
    returns (r: Result<Option<Chain>, ChainError>)
    ensures !(1 <= maxHops <= 10) <==> r == Err(HopsOutOfRange)
    ensures r.Ok? && r.value.Some? ==> GoodChain(g, source, destination, maxHops, r.value.value)
    ensures r.Ok? && r.value.None? ==>
              && Shortest(g, source, destination, maxHops + 1)
              && forall n :: n in Within(g, source, maxHops - 1) ==> Answers(g, n)
    ensures r == Err(StorageFailed) ==> exists n :: n in Within(g, source, maxHops - 1) && !Answers(g, n)
  {
    if maxHops < 1 || maxHops > 10 {
      return Err(HopsOutOfRange);
    }
    if source == destination {
      return Ok(Some(Chain(source, destination, [], 0, 1.0)));
    }
    var visited: Visits := map[source := (source, "")];
    var queue := [(source, 0)];
    ghost var dist: map<Uuid, nat> := map[source := 0];
    ghost var done: set<Uuid> := {};
    ghost var level: nat := 0;
    SearchStarts(g, source, maxHops);
    while queue != []
      invariant Searching(g, source, visited, queue, dist, done, {}, level, maxHops)
      invariant destination !in visited
      decreases Within(g, source, maxHops) - visited.Keys, |queue|
    {
      PopKeepsSearching(g, source, visited, queue, dist, done, level, maxHops);
      var (current, depth) := queue[0];
      queue := queue[1..];
      level := depth;
      if depth < maxHops {
        var answer;
        ghost var before := visited.Keys;
        answer, visited, queue, dist := Expand(g, source, destination, maxHops, visited, queue,
          current, depth, dist, done);
        if answer.Some? {
          return answer.value;
        }
        if visited.Keys != before {
          assert Within(g, source, maxHops) - visited.Keys < Within(g, source, maxHops) - before;
        }
      }
      CloseKeepsSearching(g, source, visited, queue, dist, done, current, level, maxHops);
      done := done + {current};
    }
    SearchIsComplete(g, source, visited, dist, done, level, maxHops, destination);
    return Ok(None);
  }

  /** A round visits new entities within reach, or leaves the queue as short as it found it. */
  ghost predicate Progress(g: Graph, source: Uuid, maxHops: nat, visited0: Visits, queue0: seq<(Uuid, nat)>,
                           visited: Visits, queue: seq<(Uuid, nat)>) {
    && visited0.Keys <= visited.Keys <= Within(g, source, maxHops) + visited0.Keys
    && (visited.Keys == visited0.Keys ==> |queue| == |queue0|)
  }

  lemma VisitMakesProgress(g: Graph, source: Uuid, maxHops: nat, visited0: Visits, queue0: seq<(Uuid, nat)>,
                           visited: Visits, queue: seq<(Uuid, nat)>, longer: seq<(Uuid, nat)>,
                           v: Uuid, parent: (Uuid, string))
    requires Progress(g, source, maxHops, visited0, queue0, visited, queue)
    requires v !in visited && v in Within(g, source, maxHops)
    ensures Progress(g, source, maxHops, visited0, queue0, visited[v := parent], longer)
  {
    assert v in visited[v := parent].Keys && v !in visited0.Keys;
  }

  /** What one round keeps while it goes through the neighbours of `current`. */
  ghost predicate Round(g: Graph, source: Uuid, maxHops: nat, visited0: Visits, queue0: seq<(Uuid, nat)>,
                        visited: Visits, queue: seq<(Uuid, nat)>, dist: map<Uuid, nat>, done: set<Uuid>,
                        current: Uuid, depth: nat) {
    && Searching(g, source, visited, queue, dist, done, {current}, depth, maxHops)
    && current in dist && dist[current] == depth
    && Progress(g, source, maxHops, visited0, queue0, visited, queue)
  }

  lemma VisitOne(g: Graph, source: Uuid, maxHops: nat, visited0: Visits, queue0: seq<(Uuid, nat)>,
                 visited: Visits, queue: seq<(Uuid, nat)>, dist: map<Uuid, nat>, done: set<Uuid>,
                 current: Uuid, depth: nat, e: Edge)
    requires Round(g, source, maxHops, visited0, queue0, visited, queue, dist, done, current, depth)
    requires depth < maxHops && e.target !in visited && Hop(g, current, e)
    ensures Round(g, source, maxHops, visited0, queue0, visited[e.target := (current, e.edgeType)],
                  queue + [(e.target, depth + 1)], dist[e.target := depth + 1], done, current, depth)
  {
    VisitStaysWithin(g, source, visited, dist, current, maxHops, e);
    VisitKeepsSearching(g, source, visited, queue, dist, done, current, depth, maxHops, e);
    VisitMakesProgress(g, source, maxHops, visited0, queue0, visited, queue, queue + [(e.target, depth + 1)],
                       e.target, (current, e.edgeType));
  }

  /** The chain returned once the destination has been visited. */
  method ReadBack(ghost g: Graph, source: Uuid, destination: Uuid, ghost maxHops: nat, visited: Visits,
                  ghost queue: seq<(Uuid, nat)>, ghost dist: map<Uuid, nat>, ghost done: set<Uuid>,
                  ghost current: Uuid, ghost depth: nat)
    returns (chain: Chain)
    requires Searching(g, source, visited, queue, dist, done, {current}, depth, maxHops)
    requires destination in visited && dist[destination] == depth + 1 <= maxHops
    requires Shortest(g, source, destination, depth + 1)
    ensures GoodChain(g, source, destination, maxHops, chain)
  {
    var steps := ReconstructPath(g, visited, source, destination, dist);
    chain := Chain(source, destination, steps, |steps|, 1.0 / (1 + |steps|) as real);
  }

  /** Visits the unvisited neighbours in turn, up to the destination if it is among them. */
  method VisitNeighbors(ghost g: Graph, ghost source: Uuid, destination: Uuid, ghost maxHops: nat,
                        visited0: Visits, queue0: seq<(Uuid, nat)>, ghost dist0: map<Uuid, nat>,
                        ghost done: set<Uuid>, current: Uuid, depth: nat, edges: seq<Edge>)
    returns (found: bool, visited: Visits, queue: seq<(Uuid, nat)>, ghost dist: map<Uuid, nat>)
    requires depth < maxHops && destination !in visited0
    requires Round(g, source, maxHops, visited0, queue0, visited0, queue0, dist0, done, current, depth)
    requires forall j :: 0 <= j < |edges| ==> Hop(g, current, edges[j])
    ensures Round(g, source, maxHops, visited0, queue0, visited, queue, dist, done, current, depth)
    ensures found <==> destination in visited
    ensures found ==> dist[destination] == depth + 1
    ensures !found ==> forall j :: 0 <= j < |edges| ==> edges[j].target in visited
  {
    found, visited, queue, dist := false, visited0, queue0, dist0;
    for i := 0 to |edges|
      invariant Round(g, source, maxHops, visited0, queue0, visited, queue, dist, done, current, depth)
      invariant !found && destination !in visited
      invariant forall j :: 0 <= j < i ==> edges[j].target in visited
    {
      var e := edges[i];
      if e.target !in visited {
        VisitOne(g, source, maxHops, visited0, queue0, visited, queue, dist, done, current, depth, e);
        visited := visited[e.target := (current, e.edgeType)];
        queue := queue + [(e.target, depth + 1)];
        dist := dist[e.target := depth + 1];
        if e.target == destination {
          found := true;
          return;
        }
      }
    }
  }

  /** One round of the search: visit the unvisited neighbours of `current`, or answer at once. */
  method Expand(g: Graph, source: Uuid, destination: Uuid, maxHops: nat, visited0: Visits, queue0: seq<(Uuid, nat)>,
                current: Uuid, depth: nat, ghost dist0: map<Uuid, nat>, ghost done: set<Uuid>)
    returns (answer: Option<Result<Option<Chain>, ChainError>>, visited: Visits,
             queue: seq<(Uuid, nat)>, ghost dist: map<Uuid, nat>)
    requires depth < maxHops && current in dist0 && dist0[current] == depth
    requires Searching(g, source, visited0, queue0, dist0, done, {current}, depth, maxHops)
    requires destination !in visited0
    ensures answer.Some? ==>
              || (answer.value == Err(StorageFailed) && current in Within(g, source, maxHops - 1)
                  && !Answers(g, current))
              || (answer.value.Ok? && answer.value.value.Some?
                  && GoodChain(g, source, destination, maxHops, answer.value.value.value))
    ensures answer.None? ==>
              && Searching(g, source, visited, queue, dist, done, {current}, depth, maxHops)
              && current in dist && ExpandedAt(g, dist, current)
              && Progress(g, source, maxHops, visited0, queue0, visited, queue)
              && destination !in visited
  {
    answer, visited, queue, dist := None, visited0, queue0, dist0;
    var neighbors := ChainNeighbors(g, current);
    if neighbors.Failed? {
      FailureIsReachable(g, source, visited, dist, current, depth, maxHops - 1);
      answer := Some(Err(StorageFailed));
      return;
    }
    UnvisitedIsFar(g, source, visited, queue, dist, done, current, depth, maxHops, destination);
    var found;
    found, visited, queue, dist := VisitNeighbors(
      g, source, destination, maxHops, visited0, queue0, dist0, done, current, depth, neighbors.edges);
    if found {
      var chain := ReadBack(g, source, destination, maxHops, visited, queue, dist, done, current, depth);
      answer := Some(Ok(Some(chain)));
    } else {
      CurrentIsExpanded(g, source, visited, queue, dist, done, current, depth, maxHops, neighbors.edges);
    }
  }
}
