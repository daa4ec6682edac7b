/**
 Plan validation, work items and the wave schedule, loop by loop. Iterating over a Python set
 or dictionary is `Enumerate`: the order is not known, and no contract below depends on it.
 */
module Scheduler {
  import opened Outcomes
  import opened Ordering
  import opened Dag
  import opened Paths
  import opened Policies
  import opened Plans

  // ---------------------------------------------------------------- the plan before approval

  method Enumerate(s: set<Node>) returns (xs: seq<Node>)
    ensures Distinct(xs) && Elements(xs) == s
  {
    xs := [];
    var left := s;
    while left != {}
      invariant left <= s && Elements(xs) == s - left && Distinct(xs)
      decreases left
    {
      var x :| x in left;
      assert x !in Elements(xs);
      ElementsAppend(xs, [x]);
      xs, left := xs + [x], left - {x};
    }
  }

  ghost predicate AllAccepted(paths: seq<string>) {
    forall p :: p in paths ==> NormalizePlanPath(p).Some?
  }

  /** Normalise a list of paths, stopping at the first that is not acceptable. */
  method NormalizeAll(paths: seq<string>) returns (normalized: Option<seq<string>>)
    ensures normalized.Some? <==> AllAccepted(paths)
    ensures normalized.Some? ==> IsNormalList(paths, normalized.value)
  {
    var result: seq<string> := [];
    for i := 0 to |paths|
      invariant AllAccepted(paths[..i]) && IsNormalList(paths[..i], result)
    {
      NormalizeOneMore(paths, i, result);
      var n := NormalizePlanPath(paths[i]);
      if n.None? {
        return None;
      }
      result := result + [n.value];
    }
    assert paths[..|paths|] == paths;
    return Some(result);
  }

  ghost predicate IsNormalList(paths: seq<string>, normalized: seq<string>) {
    |normalized| == |paths| && forall k :: 0 <= k < |paths| ==> normalized[k] == PathOf(paths[k])
  }

  lemma NormalizeOneMore(paths: seq<string>, i: nat, result: seq<string>)
    requires i < |paths| && AllAccepted(paths[..i]) && IsNormalList(paths[..i], result)
    ensures NormalizePlanPath(paths[i]).None? ==> !AllAccepted(paths)
    ensures NormalizePlanPath(paths[i]).Some? ==>
              AllAccepted(paths[..i + 1]) && IsNormalList(paths[..i + 1], result + [NormalizePlanPath(paths[i]).value])
  {
    assert paths[..i + 1] == paths[..i] + [paths[i]];
    assert paths[i] in paths;
  }

  function RawPaths(files: seq<PlannedFile>): seq<string> {
    seq(|files|, i requires 0 <= i < |files| => files[i].path)
  }

  ghost predicate PathsOk(files: seq<PlannedFile>) {
    AllAccepted(RawPaths(files)) && |NormalPaths(files)| == |files|
  }

  method CheckPaths(files: seq<PlannedFile>) returns (error: Option<PlanError>)
    ensures error.None? <==> PathsOk(files)
    ensures error.Some? ==> error.value in {BadPath, DuplicatePath}
  {
    var normalized := NormalizeAll(RawPaths(files));
    if normalized.None? {
      return Some(BadPath);
    }
    ListsNormalPaths(files, normalized.value);
    if |set p | p in normalized.value| != |normalized.value| {
      return Some(DuplicatePath);
    }
    return None;
  }

  lemma ListsNormalPaths(files: seq<PlannedFile>, normalized: seq<string>)
    requires IsNormalList(RawPaths(files), normalized)
    ensures (set p | p in normalized) == NormalPaths(files)
  {
    forall f | f in files ensures PathOf(f.path) in normalized {
      var k :| 0 <= k < |files| && files[k] == f;
      assert normalized[k] == PathOf(f.path);
    }
    forall p | p in normalized ensures p in NormalPaths(files) {
      var k :| 0 <= k < |normalized| && normalized[k] == p;
      assert files[k] in files;
    }
  }

  ghost predicate InterfacesOk(files: seq<PlannedFile>) {
    forall f :: f in files ==> AllAccepted(f.requiredInterfaces)
  }

  method CheckOwners(files: seq<PlannedFile>) returns (error: Option<PlanError>)
    ensures error.None? <==> OwnersAgree(files) && InterfacesOk(files)
    ensures error.Some? ==> error.value in {BadPath, OwnerMismatch}
  {
    var ownerByItem: map<Node, string> := map[];
    for i := 0 to |files|
      invariant ownerByItem.Keys == ItemIds(files[..i])
      invariant OwnedBy(files[..i], ownerByItem)
      invariant InterfacesOk(files[..i])
    {
      var file := files[i];
      assert files[..i + 1] == files[..i] + [file];
      assert file in files;
      if file.workItem !in ownerByItem {
        ownerByItem := ownerByItem[file.workItem := file.owner];
      } else if ownerByItem[file.workItem] != file.owner {
        OwnersDiffer(files, i, ownerByItem);
        return Some(OwnerMismatch);
      }
      var interfaces := NormalizeAll(file.requiredInterfaces);
      if interfaces.None? {
        return Some(BadPath);
      }
    }
    assert files[..|files|] == files;
    return None;
  }

  ghost predicate OwnedBy(files: seq<PlannedFile>, ownerByItem: map<Node, string>) {
    forall f :: f in files ==> f.workItem in ownerByItem && ownerByItem[f.workItem] == f.owner
  }

  lemma OwnersDiffer(files: seq<PlannedFile>, i: nat, ownerByItem: map<Node, string>)
    requires i < |files| && OwnedBy(files[..i], ownerByItem) && ownerByItem.Keys == ItemIds(files[..i])
    requires files[i].workItem in ownerByItem && ownerByItem[files[i].workItem] != files[i].owner
    ensures !OwnersAgree(files)
  {
    var f :| f in files[..i] && f.workItem == files[i].workItem;
    assert f in files && files[i] in files && f.owner != files[i].owner;
  }

  lemma ShapeByParts(plan: ChangePlan)
    ensures WellShaped(plan) <==>
            1 <= |plan.files| <= MAX_PLANNED_FILES && PathsOk(plan.files)
            && OwnersAgree(plan.files) && InterfacesOk(plan.files) && EdgesOk(plan)
  {
    var raw := RawPaths(plan.files);
    forall f | f in plan.files ensures f.path in raw {
      var i :| 0 <= i < |plan.files| && plan.files[i] == f;
      assert raw[i] == f.path;
    }
    forall p | p in raw ensures exists f :: f in plan.files && f.path == p {
      var i :| 0 <= i < |raw| && raw[i] == p;
      assert plan.files[i] in plan.files;
    }
  }

  // ---------------------------------------------------------------- adjacency and indegrees

  ghost function Downstreams(g: Graph, u: Node): set<Node> {
    set e | e in g.edges && e.0 == u :: e.1
  }

  ghost predicate Linked(g: Graph, adjacency: map<Node, set<Node>>) {
    adjacency.Keys == g.nodes && forall u :: u in g.nodes ==> adjacency[u] == Downstreams(g, u)
  }

  /** The live indegree of every node is the number of its upstreams that are not done. */
  ghost predicate Counts(g: Graph, done: set<Node>, indegree: map<Node, int>) {
    indegree.Keys == g.nodes && forall x :: x in g.nodes ==> indegree[x] == |Waiting(g, done, x)|
  }

  method LinkEdge(ghost g: Graph, adjacency: map<Node, set<Node>>, indegree: map<Node, int>, edge: Edge)
    returns (adjacency': map<Node, set<Node>>, indegree': map<Node, int>)
    requires edge.0 in g.nodes && edge.1 in g.nodes
    requires Linked(g, adjacency) && Counts(g, {}, indegree)
    ensures Linked(Graph(g.nodes, g.edges + {edge}), adjacency')
    ensures Counts(Graph(g.nodes, g.edges + {edge}), {}, indegree')
  {
    var upstream, downstream := edge.0, edge.1;
    adjacency', indegree' := adjacency, indegree;
    if downstream !in adjacency[upstream] {
      adjacency' := adjacency[upstream := adjacency[upstream] + {downstream}];
      indegree' := indegree[downstream := indegree[downstream] + 1];
      NewEdgeLinked(g, adjacency, edge);
      NewEdgeCounted(g, indegree, edge);
    } else {
      assert g.edges + {edge} == g.edges;
    }
  }

  lemma NewEdgeLinked(g: Graph, adjacency: map<Node, set<Node>>, edge: Edge)
    requires Linked(g, adjacency) && edge.0 in g.nodes && edge !in g.edges
    ensures Linked(Graph(g.nodes, g.edges + {edge}), adjacency[edge.0 := adjacency[edge.0] + {edge.1}])
  {
    var g' := Graph(g.nodes, g.edges + {edge});
    forall u | u in g.nodes
      ensures Downstreams(g', u) == Downstreams(g, u) + if u == edge.0 then {edge.1} else {}
    {
    }
  }

  lemma NewEdgeCounted(g: Graph, indegree: map<Node, int>, edge: Edge)
    requires Counts(g, {}, indegree) && edge.1 in g.nodes && edge !in g.edges
    ensures Counts(Graph(g.nodes, g.edges + {edge}), {}, indegree[edge.1 := indegree[edge.1] + 1])
  {
    var g' := Graph(g.nodes, g.edges + {edge});
    forall x | x in g.nodes
      ensures |Waiting(g', {}, x)| == |Waiting(g, {}, x)| + if x == edge.1 then 1 else 0
    {
      if x == edge.1 {
        assert Waiting(g', {}, x) == Waiting(g, {}, x) + {edge};
      } else {
        assert Waiting(g', {}, x) == Waiting(g, {}, x);
      }
    }
  }

  ghost predicate EndsOk(ids: set<Node>, edges: seq<Edge>) {
    forall e :: e in edges ==> e.0 in ids && e.1 in ids && e.0 != e.1
  }

  lemma EndsOkStep(ids: set<Node>, edges: seq<Edge>, edge: Edge)
    requires EndsOk(ids, edges) && edge.0 in ids && edge.1 in ids && edge.0 != edge.1
    ensures EndsOk(ids, edges + [edge])
  {
  }

  lemma PrefixEdges(edges: seq<Edge>, i: nat)
    requires i < |edges|
    ensures edges[..i + 1] == edges[..i] + [edges[i]]
    ensures Elements(edges[..i + 1]) == Elements(edges[..i]) + {edges[i]}
  {
    assert edges[..i + 1] == edges[..i] + [edges[i]];
  }

  method LinkPlanEdges(plan: ChangePlan, ids: set<Node>)
    returns (error: Option<PlanError>, adjacency: map<Node, set<Node>>, indegree: map<Node, int>)
    requires ids == ItemIds(plan.files)
    ensures error.None? <==> EndsOk(ids, plan.dependencyEdges)
    ensures error.None? ==> Linked(PlanGraph(plan), adjacency) && Counts(PlanGraph(plan), {}, indegree)
    ensures error.Some? ==> error.value in {UnknownEdgeEnd, SelfEdge}
  {
    adjacency := map id | id in ids :: {};
    indegree := map id | id in ids :: 0;
    error := None;
    ghost var g := Graph(ids, {});
    for i := 0 to |plan.dependencyEdges|
      invariant g == Graph(ids, Elements(plan.dependencyEdges[..i]))
      invariant Linked(g, adjacency) && Counts(g, {}, indegree)
      invariant EndsOk(ids, plan.dependencyEdges[..i])
    {
      var edge := plan.dependencyEdges[i];
      assert edge in plan.dependencyEdges;
      if edge.0 !in ids || edge.1 !in ids {
        return Some(UnknownEdgeEnd), adjacency, indegree;
      }
      if edge.0 == edge.1 {
        return Some(SelfEdge), adjacency, indegree;
      }
      PrefixEdges(plan.dependencyEdges, i);
      EndsOkStep(ids, plan.dependencyEdges[..i], edge);
      adjacency, indegree := LinkEdge(g, adjacency, indegree, edge);
      g := Graph(ids, g.edges + {edge});
    }
    assert plan.dependencyEdges[..|plan.dependencyEdges|] == plan.dependencyEdges;
  }

  // ---------------------------------------------------------------- finishing one node

  /**
   The inner loop of both Kahn loops: count down the downstreams of a finished node and append
   the ones that reach zero. `order` is the order in which the downstreams are visited.
   */
  method Release(ghost g: Graph, ghost done: set<Node>, ghost current: Node, order: seq<Node>,
                 indegree: map<Node, int>, ready: seq<Node>)
    returns (indegree': map<Node, int>, ready': seq<Node>)
    requires Closed(g) && current !in done
    requires Distinct(order) && Elements(order) == Downstreams(g, current)
    requires Counts(g, done, indegree)
    requires Distinct(ready) && Elements(ready) !! Freed(g, done, current)
    ensures Counts(g, done + {current}, indegree')
    ensures Distinct(ready') && Elements(ready') == Elements(ready) + Freed(g, done, current)
  {
    indegree', ready' := indegree, ready;
    ghost var done' := done + {current};
    for i := 0 to |order|
      invariant PartlyCounted(g, done, current, Elements(order[..i]), indegree')
      invariant Distinct(ready')
      invariant Elements(ready') == Elements(ready) + FreedAmong(g, done', order[..i])
    {
      NextOf(order, i);
      FreedOneMore(g, done', order[..i], order[i]);
      NotQueuedYet(g, done, current, order[..i], order[i], ready, ready');
      indegree', ready' := Visit(g, done, current, order[..i], order[i], indegree', ready');
    }
    assert order[..|order|] == order;
    FreedAmongAll(g, done, current, order);
    AllCounted(g, done, current, indegree');
  }

  method Visit(ghost g: Graph, ghost done: set<Node>, ghost current: Node, ghost seen: seq<Node>, downstream: Node,
               indegree: map<Node, int>, ready: seq<Node>)
    returns (indegree': map<Node, int>, ready': seq<Node>)
    requires Closed(g) && current !in done && downstream in Downstreams(g, current) && downstream !in seen
    requires PartlyCounted(g, done, current, Elements(seen), indegree)
    requires Distinct(ready) && (|Waiting(g, done + {current}, downstream)| == 0 ==> downstream !in Elements(ready))
    ensures PartlyCounted(g, done, current, Elements(seen) + {downstream}, indegree')
    ensures Distinct(ready')
    ensures Elements(ready') == Elements(ready) + if |Waiting(g, done + {current}, downstream)| == 0 then {downstream} else {}
  {
    CountDown(g, done, current, Elements(seen), indegree, downstream);
    indegree', ready' := indegree[downstream := indegree[downstream] - 1], ready;
    if indegree'[downstream] == 0 {
      AppendDistinct(ready, downstream);
      ready' := ready + [downstream];
    }
  }

  /** The indegrees while the downstreams of `u` are being visited; `seen` are counted down. */
  ghost predicate PartlyCounted(g: Graph, done: set<Node>, u: Node, seen: set<Node>, indegree: map<Node, int>) {
    && indegree.Keys == g.nodes
    && forall x :: x in g.nodes ==> indegree[x] == |Waiting(g, if x in seen then done + {u} else done, x)|
  }

  lemma CountDown(g: Graph, done: set<Node>, u: Node, seen: set<Node>, indegree: map<Node, int>, x: Node)
    requires PartlyCounted(g, done, u, seen, indegree)
    requires u !in done && x in g.nodes && x !in seen && (u, x) in g.edges
    ensures PartlyCounted(g, done, u, seen + {x}, indegree[x := indegree[x] - 1])
    ensures indegree[x] - 1 == |Waiting(g, done + {u}, x)|
  {
    WaitingDrops(g, done, u, x);
  }

  lemma AllCounted(g: Graph, done: set<Node>, u: Node, indegree: map<Node, int>)
    requires PartlyCounted(g, done, u, Downstreams(g, u), indegree) && u !in done
    ensures Counts(g, done + {u}, indegree)
  {
    forall x | x in g.nodes ensures indegree[x] == |Waiting(g, done + {u}, x)| {
      WaitingDrops(g, done, u, x);
      assert x in Downstreams(g, u) <==> (u, x) in g.edges;
    }
  }

  lemma NotQueuedYet(g: Graph, done: set<Node>, u: Node, seen: seq<Node>, x: Node, ready: seq<Node>, ready': seq<Node>)
    requires x in Downstreams(g, u) && x !in seen
    requires Elements(ready) !! Freed(g, done, u)
    requires Elements(ready') == Elements(ready) + FreedAmong(g, done + {u}, seen)
    ensures |Waiting(g, done + {u}, x)| == 0 ==> x !in Elements(ready')
  {
    assert |Waiting(g, done + {u}, x)| == 0 ==> x in Freed(g, done, u);
  }

  /** The next element of a list without repetitions has not been seen. */
  lemma NextOf<T>(xs: seq<T>, i: nat)
    requires Distinct(xs) && i < |xs|
    ensures xs[i] in Elements(xs) && xs[i] !in xs[..i]
    ensures xs[..i + 1] == xs[..i] + [xs[i]]
    ensures Elements(xs[..i + 1]) == Elements(xs[..i]) + {xs[i]}
  {
    assert xs[..i + 1] == xs[..i] + [xs[i]];
  }

  ghost function FreedAmong(g: Graph, done: set<Node>, xs: seq<Node>): set<Node> {
    set x | x in xs && Waiting(g, done, x) == {}
  }

  lemma FreedOneMore(g: Graph, done: set<Node>, xs: seq<Node>, x: Node)
    ensures FreedAmong(g, done, xs + [x]) == FreedAmong(g, done, xs) + if |Waiting(g, done, x)| == 0 then {x} else {}
  {
  }

  lemma FreedAmongAll(g: Graph, done: set<Node>, u: Node, order: seq<Node>)
    requires Elements(order) == Downstreams(g, u)
    ensures FreedAmong(g, done + {u}, order) == Freed(g, done, u)
  {
    forall x ensures x in FreedAmong(g, done + {u}, order) <==> x in Freed(g, done, u) {
      assert x in order <==> x in Downstreams(g, u);
    }
  }

  lemma AppendDistinct<T>(xs: seq<T>, x: T)
    requires Distinct(xs) && x !in Elements(xs)
    ensures Distinct(xs + [x])
    ensures Elements(xs + [x]) == Elements(xs) + {x}
  {
  }

  // ---------------------------------------------------------------- the cycle check

  /**
   Kahn's loop on a stack: it processes every node exactly when the graph has no cycle,
   whatever the order in which dictionaries and sets are visited.
   */
  method ProcessAll(ghost g: Graph, adjacency: map<Node, set<Node>>, indegree0: map<Node, int>)
    returns (processed: nat)
    requires Closed(g) && Linked(g, adjacency) && Counts(g, {}, indegree0)
    ensures processed == |g.nodes| <==> Acyclic(g)
  {
    var indegree := indegree0;
    var ready := Enumerate(set x | x in indegree && indegree[x] == 0);
    StartState(g, indegree, ready);
    processed := 0;
    ghost var done: set<Node> := {};
    while ready != []
      invariant KahnState(g, done, indegree, ready)
      invariant processed == |done|
      invariant forall c :: IsCycle(g, c) ==> Elements(c) !! done
      decreases |g.nodes - done|
    {
      ghost var current;
      indegree, ready, current := ProcessNext(g, done, adjacency, indegree, ready);
      processed := processed + 1;
      CyclesStayPending(g, done, current);
      SubsetCardinality(g.nodes - (done + {current}), g.nodes - done);
      done := done + {current};
    }
    EmptyElements(ready);
    SubsetCardinality(done, g.nodes);
    if processed != |g.nodes| {
      AcyclicOrStuck(g, done);
    } else {
      AllDoneNoCycle(g, done);
    }
  }

  /** The state of Kahn's algorithm once `done` is processed. */
  ghost predicate KahnState(g: Graph, done: set<Node>, indegree: map<Node, int>, ready: seq<Node>) {
    && Settled(g, done) && Counts(g, done, indegree)
    && Distinct(ready) && Elements(ready) == Ready(g, done)
  }

  lemma StartState(g: Graph, indegree: map<Node, int>, ready: seq<Node>)
    requires Counts(g, {}, indegree)
    requires Distinct(ready) && Elements(ready) == set x | x in indegree && indegree[x] == 0
    ensures KahnState(g, {}, indegree, ready)
  {
    forall x ensures x in Elements(ready) <==> x in Ready(g, {}) {
    }
  }

  method ProcessNext(ghost g: Graph, ghost done: set<Node>, adjacency: map<Node, set<Node>>,
                     indegree: map<Node, int>, ready: seq<Node>)
    returns (indegree': map<Node, int>, ready': seq<Node>, ghost processed: Node)
    requires Closed(g) && Linked(g, adjacency) && KahnState(g, done, indegree, ready) && ready != []
    ensures processed in Ready(g, done)
    ensures KahnState(g, done + {processed}, indegree', ready')
  {
    var current := ready[|ready| - 1];
    processed := current;
    assert current in Elements(ready);
    PopLast(ready);
    var order := Enumerate(adjacency[current]);
    ReadyAfter(g, done, current);
    indegree', ready' := Release(g, done, current, order, indegree, ready[..|ready| - 1]);
  }

  lemma PopLast(xs: seq<Node>)
    requires xs != [] && Distinct(xs)
    ensures Distinct(xs[..|xs| - 1])
    ensures Elements(xs[..|xs| - 1]) == Elements(xs) - {xs[|xs| - 1]}
  {
    assert xs == xs[..|xs| - 1] + [xs[|xs| - 1]];
  }

  lemma CyclesStayPending(g: Graph, done: set<Node>, current: Node)
    requires current in Ready(g, done)
    requires forall c :: IsCycle(g, c) ==> Elements(c) !! done
    ensures forall c :: IsCycle(g, c) ==> Elements(c) !! done + {current}
  {
    forall c | IsCycle(g, c) ensures Elements(c) !! done + {current} {
      if current in c {
        CycleWaits(g, done, c, current);
      }
    }
  }

  lemma AcyclicOrStuck(g: Graph, done: set<Node>)
    requires Closed(g) && done <= g.nodes && done != g.nodes && Ready(g, done) == {}
    ensures !Acyclic(g)
  {
    if Acyclic(g) {
      AcyclicProgress(g, done);
    }
  }

  lemma AllDoneNoCycle(g: Graph, done: set<Node>)
    requires done == g.nodes
    requires forall c :: IsCycle(g, c) ==> Elements(c) !! done
    ensures Acyclic(g)
  {
    forall c ensures !IsCycle(g, c) {
      assert |c| > 0 ==> c[0] in Elements(c);
    }
  }

  /** `validate_change_plan`: it accepts exactly the valid plans. */
  method ValidateChangePlan(plan: ChangePlan) returns (error: Option<PlanError>)
    ensures error.None? <==> PlanOk(plan)
    ensures error == Some(CyclicPlan) <==> WellShaped(plan) && !Acyclic(PlanGraph(plan))
  {
    ShapeByParts(plan);
    if |plan.files| == 0 {
      return Some(NoFiles);
    }
    if |plan.files| > MAX_PLANNED_FILES {
      return Some(TooManyFiles);
    }
    var ids := set f | f in plan.files :: f.workItem;
    error := CheckPaths(plan.files);
    if error.Some? {
      return;
    }
    error := CheckOwners(plan.files);
    if error.Some? {
      return;
    }
    var adjacency, indegree;
    error, adjacency, indegree := LinkPlanEdges(plan, ids);
    if error.Some? {
      return;
    }
    assert WellShaped(plan);
    var processed := ProcessAll(PlanGraph(plan), adjacency, indegree);
    if processed != |ids| {
      return Some(CyclicPlan);
    }
    return None;
  }

  // ---------------------------------------------------------------- add_inferred_risk_flags

  predicate IsWorkflow(path: string) {
    StartsWith(path, ".github/workflows/")
  }

  ghost predicate TouchesManifest(files: seq<PlannedFile>) {
    exists f :: f in files && IsManifest(ManifestForm(PathOf(f.path)))
  }

  ghost predicate TouchesWorkflow(files: seq<PlannedFile>) {
    exists f :: f in files && IsWorkflow(PathOf(f.path))
  }

  function FlagsFor(manifest: bool, workflow: bool, count: nat): set<RiskFlag> {
    (if manifest then {DependencyChange} else {})
    + (if workflow then {CiConfig} else {})
    + (if count >= 10 then {LargeScope} else {})
  }

  ghost function InferredFlags(files: seq<PlannedFile>): set<RiskFlag> {
    FlagsFor(TouchesManifest(files), TouchesWorkflow(files), |files|)
  }

  /** The continuous-integration files are those below one directory. */
  lemma WorkflowByName(path: string)
    ensures IsWorkflow(path) <==> exists rest :: path == ".github/workflows/" + rest
  {
    assert IsWorkflow(path) ==> path == ".github/workflows/" + path[18..];
  }

  lemma FlagByFlag(manifest: bool, workflow: bool, count: nat)
    ensures DependencyChange in FlagsFor(manifest, workflow, count) <==> manifest
    ensures CiConfig in FlagsFor(manifest, workflow, count) <==> workflow
    ensures LargeScope in FlagsFor(manifest, workflow, count) <==> count >= 10
    ensures FlagsFor(manifest, workflow, count) <= {DependencyChange, CiConfig, LargeScope}
  {
  }

  /** What the paths make obvious, flag by flag. */
  lemma InferredByFlag(files: seq<PlannedFile>)
    ensures DependencyChange in InferredFlags(files) <==> exists f :: f in files && IsManifest(ManifestForm(PathOf(f.path)))
    ensures CiConfig in InferredFlags(files) <==> exists f :: f in files && IsWorkflow(PathOf(f.path))
    ensures LargeScope in InferredFlags(files) <==> |files| >= 10
    ensures InferredFlags(files) <= {DependencyChange, CiConfig, LargeScope}
  {
    FlagByFlag(TouchesManifest(files), TouchesWorkflow(files), |files|);
  }

  /** Flags that the paths make obvious are added whatever the model reported. */
  method AddInferredRiskFlags(plan: ChangePlan) returns (result: Result<ChangePlan, PlanError>)
    ensures result.Ok? <==> AllAccepted(RawPaths(plan.files))
    ensures result.Err? ==> result.error == BadPath
    ensures result.Ok? ==> result.value == plan.(riskFlags := plan.riskFlags + InferredFlags(plan.files))
  {
    var paths := NormalizeAll(RawPaths(plan.files));
    if paths.None? {
      return Err(BadPath);
    }
    var manifest, workflow := PathRisks(plan.files, paths.value);
    return Ok(plan.(riskFlags := plan.riskFlags + FlagsFor(manifest, workflow, |paths.value|)));
  }

  method PathRisks(ghost files: seq<PlannedFile>, paths: seq<string>) returns (manifest: bool, workflow: bool)
    requires IsNormalList(RawPaths(files), paths)
    ensures manifest == TouchesManifest(files) && workflow == TouchesWorkflow(files)
  {
    var manifests := DependencyManifestPaths(paths);
    manifest := manifests != [];
    workflow := AnyWorkflow(paths);
    ManifestFlag(files, paths);
    WorkflowFlag(files, paths);
  }

  method AnyWorkflow(paths: seq<string>) returns (found: bool)
    ensures found <==> exists p :: p in paths && IsWorkflow(p)
  {
    for i := 0 to |paths|
      invariant forall k :: 0 <= k < i ==> !IsWorkflow(paths[k])
    {
      if IsWorkflow(paths[i]) {
        assert paths[i] in paths;
        return true;
      }
    }
    return false;
  }

  lemma ManifestFlag(files: seq<PlannedFile>, paths: seq<string>)
    requires IsNormalList(RawPaths(files), paths)
    ensures TouchesManifest(files) <==> AnyManifest(paths)
  {
    FilesAndPaths(files, paths);
  }

  lemma WorkflowFlag(files: seq<PlannedFile>, paths: seq<string>)
    requires IsNormalList(RawPaths(files), paths)
    ensures TouchesWorkflow(files) <==> exists p :: p in paths && IsWorkflow(p)
  {
    FilesAndPaths(files, paths);
  }

  lemma FilesAndPaths(files: seq<PlannedFile>, paths: seq<string>)
    requires IsNormalList(RawPaths(files), paths)
    ensures forall p :: p in paths <==> exists f :: f in files && PathOf(f.path) == p
  {
    ListsNormalPaths(files, paths);
    forall p ensures p in paths <==> exists f :: f in files && PathOf(f.path) == p {
      assert p in paths <==> p in NormalPaths(files);
    }
  }

  // ---------------------------------------------------------------- materialize_work_items

  /** `defaultdict(...)` lookups: a missing key reads as the empty value. */
  function Get<V>(m: map<Node, V>, id: Node, empty: V): V {
    if id in m then m[id] else empty
  }

  ghost predicate IsDependencies(edges: set<Edge>, dependencies: map<Node, set<Node>>) {
    forall id :: Get(dependencies, id, {}) == Sources(edges, id)
  }

  method CollectDependencies(edges: seq<Edge>) returns (dependencies: map<Node, set<Node>>)
    ensures IsDependencies(Elements(edges), dependencies)
  {
    dependencies := map[];
    for i := 0 to |edges|
      invariant IsDependencies(Elements(edges[..i]), dependencies)
    {
      var upstream, downstream := edges[i].0, edges[i].1;
      PrefixEdges(edges, i);
      DependenciesGrow(Elements(edges[..i]), dependencies, edges[i]);
      dependencies := dependencies[downstream := Get(dependencies, downstream, {}) + {upstream}];
    }
    assert edges[..|edges|] == edges;
  }

  lemma DependenciesGrow(edges: set<Edge>, dependencies: map<Node, set<Node>>, edge: Edge)
    requires IsDependencies(edges, dependencies)
    ensures IsDependencies(edges + {edge}, dependencies[edge.1 := Get(dependencies, edge.1, {}) + {edge.0}])
  {
    var dependencies' := dependencies[edge.1 := Get(dependencies, edge.1, {}) + {edge.0}];
    forall id ensures Get(dependencies', id, {}) == Sources(edges + {edge}, id) {
      SourcesGrow(edges, edge, id);
    }
  }

  lemma SourcesGrow(edges: set<Edge>, edge: Edge, id: Node)
    ensures Sources(edges + {edge}, id) == Sources(edges, id) + if id == edge.1 then {edge.0} else {}
  {
    assert edge in edges + {edge};
  }

  /** What the loop over the plan's files has gathered for every work item. */
  ghost predicate GatheredFiles(files: seq<PlannedFile>, filesByItem: map<Node, seq<string>>) {
    && filesByItem.Keys == ItemIds(files)
    && forall id :: id in ItemIds(files) ==> Distinct(filesByItem[id]) && Elements(filesByItem[id]) == WritePaths(files, id)
  }

  ghost predicate GatheredReads(files: seq<PlannedFile>, readsByItem: map<Node, set<string>>) {
    && readsByItem.Keys == ItemIds(files)
    && forall id :: id in ItemIds(files) ==> readsByItem[id] == RequiredPaths(files, id)
  }

  lemma GatherFile(files: seq<PlannedFile>, file: PlannedFile, filesByItem: map<Node, seq<string>>)
    requires GatheredFiles(files, filesByItem) && PathOf(file.path) !in WritePaths(files, file.workItem)
    ensures GatheredFiles(files + [file],
                          filesByItem[file.workItem := Get(filesByItem, file.workItem, []) + [PathOf(file.path)]])
  {
    var listed, id := Get(filesByItem, file.workItem, []), file.workItem;
    WritePathsGrow(files, file);
    assert Elements(listed) == WritePaths(files, id);
    AppendDistinct(listed, PathOf(file.path));
    var filesByItem' := filesByItem[id := listed + [PathOf(file.path)]];
    forall other | other in ItemIds(files + [file])
      ensures Distinct(filesByItem'[other]) && Elements(filesByItem'[other]) == WritePaths(files + [file], other)
    {
      assert other == id || other in ItemIds(files);
    }
  }

  lemma GatherRead(files: seq<PlannedFile>, file: PlannedFile, readsByItem: map<Node, set<string>>)
    requires GatheredReads(files, readsByItem)
    ensures GatheredReads(files + [file],
                          readsByItem[file.workItem := Get(readsByItem, file.workItem, {}) + Needed(file)])
  {
    RequiredPathsGrow(files, file);
    assert Get(readsByItem, file.workItem, {}) == RequiredPaths(files, file.workItem);
  }

  function Needed(file: PlannedFile): set<string> {
    set p | p in file.requiredInterfaces :: PathOf(p)
  }

  lemma FilesGrow(files: seq<PlannedFile>, file: PlannedFile)
    ensures forall f :: f in files + [file] <==> f in files || f == file
  {
    assert file in files + [file];
  }

  lemma WritePathsGrow(files: seq<PlannedFile>, file: PlannedFile)
    ensures ItemIds(files + [file]) == ItemIds(files) + {file.workItem}
    ensures forall id :: WritePaths(files + [file], id)
                      == WritePaths(files, id) + if id == file.workItem then {PathOf(file.path)} else {}
  {
    FilesGrow(files, file);
  }

  lemma RequiredPathsGrow(files: seq<PlannedFile>, file: PlannedFile)
    ensures ItemIds(files + [file]) == ItemIds(files) + {file.workItem}
    ensures forall id :: RequiredPaths(files + [file], id)
                      == RequiredPaths(files, id) + if id == file.workItem then Needed(file) else {}
  {
    FilesGrow(files, file);
  }

  lemma OwnersStay(files: seq<PlannedFile>, file: PlannedFile, ownerByItem: map<Node, string>)
    requires OwnedBy(files, ownerByItem) && OwnersAgree(files + [file])
    ensures OwnedBy(files + [file], ownerByItem[file.workItem := file.owner])
  {
    assert file in files + [file];
    forall f | f in files ensures f in files + [file] {
    }
  }

  method GatherFiles(plan: ChangePlan)
    returns (filesByItem: map<Node, seq<string>>, readsByItem: map<Node, set<string>>, ownerByItem: map<Node, string>)
    requires WellShaped(plan)
    ensures GatheredFiles(plan.files, filesByItem) && GatheredReads(plan.files, readsByItem)
    ensures OwnedBy(plan.files, ownerByItem)
  {
    filesByItem, readsByItem, ownerByItem := map[], map[], map[];
    for i := 0 to |plan.files|
      invariant GatheredFiles(plan.files[..i], filesByItem)
      invariant GatheredReads(plan.files[..i], readsByItem)
      invariant OwnedBy(plan.files[..i], ownerByItem)
    {
      var file := plan.files[i];
      assert plan.files[..i + 1] == plan.files[..i] + [file];
      NextPathIsNew(plan.files, i);
      GatherFile(plan.files[..i], file, filesByItem);
      GatherRead(plan.files[..i], file, readsByItem);
      PrefixOwnersAgree(plan.files, i);
      OwnersStay(plan.files[..i], file, ownerByItem);
      filesByItem := filesByItem[file.workItem := Get(filesByItem, file.workItem, []) + [PathOf(file.path)]];
      readsByItem := readsByItem[file.workItem := Get(readsByItem, file.workItem, {}) + Needed(file)];
      ownerByItem := ownerByItem[file.workItem := file.owner];
    }
    assert plan.files[..|plan.files|] == plan.files;
  }

  lemma PrefixOwnersAgree(files: seq<PlannedFile>, i: nat)
    requires OwnersAgree(files) && i < |files|
    ensures OwnersAgree(files[..i] + [files[i]])
  {
  }

  lemma NextPathIsNew(files: seq<PlannedFile>, i: nat)
    requires i < |files| && |NormalPaths(files)| == |files|
    ensures forall id :: PathOf(files[i].path) !in WritePaths(files[..i], id)
    ensures PathOf(files[i].path) !in NormalPaths(files[..i])
  {
    PathsAreUnique(files);
    forall f | f in files[..i] ensures PathOf(f.path) != PathOf(files[i].path) {
      var k :| 0 <= k < i && files[k] == f;
    }
  }

  /** `materialize_work_items`: exactly the valid plans have work items, and these are they. */
  method MaterializeWorkItems(plan: ChangePlan) returns (result: Result<seq<WorkItem>, PlanError>)
    ensures result.Ok? <==> PlanOk(plan)
    ensures result.Ok? ==> result.value == ItemsOf(plan)
  {
    var error := ValidateChangePlan(plan);
    if error.Some? {
      return Err(error.value);
    }
    var dependencies := CollectDependencies(plan.dependencyEdges);
    var filesByItem, readsByItem, ownerByItem := GatherFiles(plan);
    var items := BuildItems(plan, dependencies, filesByItem, readsByItem, ownerByItem);
    return Ok(items);
  }

  ghost predicate AllGathered(plan: ChangePlan, dependencies: map<Node, set<Node>>, filesByItem: map<Node, seq<string>>,
                              readsByItem: map<Node, set<string>>, ownerByItem: map<Node, string>) {
    && IsDependencies(Elements(plan.dependencyEdges), dependencies)
    && GatheredFiles(plan.files, filesByItem) && GatheredReads(plan.files, readsByItem)
    && OwnedBy(plan.files, ownerByItem)
  }

  method BuildItems(ghost plan: ChangePlan, dependencies: map<Node, set<Node>>, filesByItem: map<Node, seq<string>>,
                    readsByItem: map<Node, set<string>>, ownerByItem: map<Node, string>)
    returns (items: seq<WorkItem>)
    requires AllGathered(plan, dependencies, filesByItem, readsByItem, ownerByItem)
    ensures items == ItemsOf(plan)
  {
    var ids := SortSet(filesByItem.Keys);
    SortSetFacts(filesByItem.Keys);
    items := [];
    for i := 0 to |ids|
      invariant |items| == i && ItemsSoFar(plan, ids, items)
    {
      assert ids[i] in Elements(ids);
      var item := BuildItem(plan, ids[i], dependencies, filesByItem, readsByItem, ownerByItem);
      OneMoreItem(plan, ids, items, item);
      items := items + [item];
    }
    AllBuilt(plan, items);
  }

  ghost predicate ItemsSoFar(plan: ChangePlan, ids: seq<Node>, items: seq<WorkItem>) {
    |items| <= |ids| && forall k :: 0 <= k < |items| ==> ids[k] in ItemIds(plan.files) && items[k] == ItemOf(plan, ids[k])
  }

  lemma OneMoreItem(plan: ChangePlan, ids: seq<Node>, items: seq<WorkItem>, item: WorkItem)
    requires ItemsSoFar(plan, ids, items) && |items| < |ids| && ids[|items|] in ItemIds(plan.files)
    requires item == ItemOf(plan, ids[|items|])
    ensures ItemsSoFar(plan, ids, items + [item])
  {
    forall k | 0 <= k <= |items|
      ensures ids[k] in ItemIds(plan.files) && (items + [item])[k] == ItemOf(plan, ids[k])
    {
      if k < |items| {
        assert (items + [item])[k] == items[k];
      }
    }
  }

  lemma AllBuilt(plan: ChangePlan, items: seq<WorkItem>)
    requires ItemsSoFar(plan, SortSet(ItemIds(plan.files)), items) && |items| == |SortSet(ItemIds(plan.files))|
    ensures items == ItemsOf(plan)
  {
  }

  method BuildItem(ghost plan: ChangePlan, id: Node, dependencies: map<Node, set<Node>>, filesByItem: map<Node, seq<string>>,
                   readsByItem: map<Node, set<string>>, ownerByItem: map<Node, string>)
    returns (item: WorkItem)
    requires id in ItemIds(plan.files)
    requires AllGathered(plan, dependencies, filesByItem, readsByItem, ownerByItem)
    ensures item == ItemOf(plan, id)
  {
    var files := filesByItem[id];
    SortIsSortSet(files);
    assert Elements(files) == set p | p in files;
    item := WorkItem(
      id, Code,
      SortSet(Get(dependencies, id, {})),
      Sort(files),
      SortSet(readsByItem[id] + set p | p in files),
      ownerByItem[id], 1);
  }

  // ---------------------------------------------------------------- build_schedule

  const MAX_CONCURRENCY := 4

  datatype SchedulePlan = SchedulePlan(waves: seq<seq<Node>>, maxConcurrency: nat)

  ghost predicate Indexes(items: seq<WorkItem>, itemById: map<Node, WorkItem>) {
    itemById.Keys == IdsOf(items) && forall id :: id in itemById ==> itemById[id] in items && itemById[id].id == id
  }

  /** `{item.work_item_id: item for item in work_items}` */
  method IndexItems(items: seq<WorkItem>) returns (itemById: map<Node, WorkItem>)
    ensures Indexes(items, itemById)
  {
    itemById := map[];
    for i := 0 to |items|
      invariant Indexes(items[..i], itemById)
    {
      assert items[..i + 1] == items[..i] + [items[i]];
      assert forall item :: item in items[..i + 1] <==> item in items[..i] || item == items[i];
      itemById := itemById[items[i].id := items[i]];
    }
    assert items[..|items|] == items;
  }

  lemma UniqueIds(items: seq<WorkItem>)
    requires |IdsOf(items)| == |items|
    ensures forall i, j :: 0 <= i < j < |items| ==> items[i].id != items[j].id
  {
    var ids := seq(|items|, i requires 0 <= i < |items| => items[i].id);
    assert Elements(ids) == IdsOf(items) by {
      forall item | item in items ensures item.id in Elements(ids) {
        var i :| 0 <= i < |items| && items[i] == item;
        assert ids[i] == item.id;
      }
      forall id | id in ids ensures id in IdsOf(items) {
        var i :| 0 <= i < |ids| && ids[i] == id;
        assert items[i] in items;
      }
    }
    ElementsBound(ids);
    forall i, j | 0 <= i < j < |items| ensures items[i].id != items[j].id {
      assert ids[i] != ids[j];
    }
  }

  lemma LooksUpItself(items: seq<WorkItem>, itemById: map<Node, WorkItem>, item: WorkItem)
    requires |IdsOf(items)| == |items| && Indexes(items, itemById) && item in items
    ensures item.id in itemById && itemById[item.id] == item
  {
    UniqueIds(items);
    assert item.id in IdsOf(items);
    var i :| 0 <= i < |items| && items[i] == item;
    var j :| 0 <= j < |items| && items[j] == itemById[item.id];
    assert i == j;
  }

  ghost predicate OwnedAs(itemById: map<Node, WorkItem>, f: PlannedFile) {
    f.workItem in itemById && itemById[f.workItem].owner == f.owner
  }

  lemma OwnedAsIsFileHasItem(items: seq<WorkItem>, itemById: map<Node, WorkItem>, f: PlannedFile)
    requires |IdsOf(items)| == |items| && Indexes(items, itemById)
    ensures OwnedAs(itemById, f) <==> FileHasItem(items, f)
  {
    forall item | item in items && item.id == f.workItem && item.owner == f.owner
      ensures OwnedAs(itemById, f)
    {
      LooksUpItself(items, itemById, item);
    }
  }

  /** What the loop over the plan's files records before the items are compared with it. */
  datatype FileFacts = FileFacts(
    owners: map<string, Node>, plannedByItem: map<Node, set<string>>, deleted: set<string>, required: set<string>)

  ghost predicate PlansWrites(files: seq<PlannedFile>, plannedByItem: map<Node, set<string>>) {
    forall id :: Get(plannedByItem, id, {}) == WritePaths(files, id)
  }

  ghost predicate Recorded(files: seq<PlannedFile>, facts: FileFacts) {
    && facts.owners.Keys == NormalPaths(files)
    && PlansWrites(files, facts.plannedByItem)
    && facts.deleted == DeletedPaths(files)
    && facts.required == AllRequired(files)
  }

  lemma RecordedFacts(files: seq<PlannedFile>, facts: FileFacts)
    requires Recorded(files, facts)
    ensures PlansWrites(files, facts.plannedByItem)
    ensures facts.deleted * facts.required == {} <==> DeletedPaths(files) * AllRequired(files) == {}
  {
  }

  function RecordFile(facts: FileFacts, file: PlannedFile): FileFacts {
    var path := PathOf(file.path);
    FileFacts(
      facts.owners[path := file.workItem],
      facts.plannedByItem[file.workItem := Get(facts.plannedByItem, file.workItem, {}) + {path}],
      if file.operation == Delete then facts.deleted + {path} else facts.deleted,
      facts.required + Needed(file))
  }

  lemma RecordOneMore(files: seq<PlannedFile>, facts: FileFacts, file: PlannedFile)
    requires Recorded(files, facts)
    ensures Recorded(files + [file], RecordFile(facts, file))
  {
    var facts' := RecordFile(facts, file);
    FilesGrow(files, file);
    WritePathsGrow(files, file);
    assert facts'.owners.Keys == NormalPaths(files + [file]);
    RequiredGrow(files, file);
    assert facts'.deleted == DeletedPaths(files + [file]);
    forall id ensures Get(facts'.plannedByItem, id, {}) == WritePaths(files + [file], id) {
      assert Get(facts.plannedByItem, id, {}) == WritePaths(files, id);
    }
  }

  lemma RequiredGrow(files: seq<PlannedFile>, file: PlannedFile)
    ensures AllRequired(files + [file]) == AllRequired(files) + Needed(file)
  {
    FilesGrow(files, file);
  }

  ghost predicate AllOwnedAs(files: seq<PlannedFile>, itemById: map<Node, WorkItem>) {
    forall f :: f in files ==> OwnedAs(itemById, f)
  }

  /** The checks on one entry; a valid plan never repeats a path or disagrees on an owner. */
  method CheckFile(file: PlannedFile, itemById: map<Node, WorkItem>, facts: FileFacts, ownerByItem: map<Node, string>)
    returns (error: Option<PlanError>)
    requires PathOf(file.path) !in facts.owners
    requires file.workItem in ownerByItem ==> ownerByItem[file.workItem] == file.owner
    ensures error.None? <==> OwnedAs(itemById, file)
  {
    error := None;
    if file.workItem !in itemById {
      error := Some(UnknownItem);
    } else if PathOf(file.path) in facts.owners {
      error := Some(DuplicatePath);
    } else {
      var previous := if file.workItem in ownerByItem then ownerByItem[file.workItem] else file.owner;
      if previous != file.owner || itemById[file.workItem].owner != file.owner {
        error := Some(OwnerMismatch);
      }
    }
  }

  method CheckFiles(files: seq<PlannedFile>, itemById: map<Node, WorkItem>)
    returns (error: Option<PlanError>, facts: FileFacts)
    requires |NormalPaths(files)| == |files| && OwnersAgree(files)
    ensures error.None? <==> AllOwnedAs(files, itemById)
    ensures error.None? ==> Recorded(files, facts)
  {
    facts := FileFacts(map[], map[], {}, {});
    var ownerByItem: map<Node, string> := map[];
    for i := 0 to |files|
      invariant RecordedUpTo(files, i, facts, ownerByItem)
      invariant AllOwnedAs(files[..i], itemById)
    {
      var file := files[i];
      RecordStep(files, i, facts, ownerByItem);
      error := CheckFile(file, itemById, facts, ownerByItem);
      if error.Some? {
        return;
      }
      OwnedAsStep(files, i, itemById);
      facts := RecordFile(facts, file);
      ownerByItem := ownerByItem[file.workItem := file.owner];
    }
    assert files[..|files|] == files;
    error := None;
  }

  ghost predicate RecordedUpTo(files: seq<PlannedFile>, i: nat, facts: FileFacts, ownerByItem: map<Node, string>) {
    && i <= |files| && Recorded(files[..i], facts)
    && OwnedBy(files[..i], ownerByItem) && ownerByItem.Keys == ItemIds(files[..i])
  }

  lemma OwnedAsStep(files: seq<PlannedFile>, i: nat, itemById: map<Node, WorkItem>)
    requires i < |files| && AllOwnedAs(files[..i], itemById) && OwnedAs(itemById, files[i])
    ensures AllOwnedAs(files[..i + 1], itemById)
  {
    assert files[..i + 1] == files[..i] + [files[i]];
  }

  lemma RecordStep(files: seq<PlannedFile>, i: nat, facts: FileFacts, ownerByItem: map<Node, string>)
    requires i < |files| && |NormalPaths(files)| == |files| && OwnersAgree(files)
    requires RecordedUpTo(files, i, facts, ownerByItem)
    ensures files[i] in files && PathOf(files[i].path) !in facts.owners
    ensures files[i].workItem in ownerByItem ==> ownerByItem[files[i].workItem] == files[i].owner
    ensures RecordedUpTo(files, i + 1, RecordFile(facts, files[i]), ownerByItem[files[i].workItem := files[i].owner])
  {
    assert files[..i + 1] == files[..i] + [files[i]];
    NextPathIsNew(files, i);
    KnownOwner(files, i, ownerByItem);
    RecordOneMore(files[..i], facts, files[i]);
    PrefixOwnersAgree(files, i);
    OwnersStay(files[..i], files[i], ownerByItem);
    WritePathsGrow(files[..i], files[i]);
  }

  lemma KnownOwner(files: seq<PlannedFile>, i: nat, ownerByItem: map<Node, string>)
    requires i < |files| && OwnersAgree(files) && OwnedBy(files[..i], ownerByItem)
    requires ownerByItem.Keys == ItemIds(files[..i])
    ensures files[i].workItem in ownerByItem ==> ownerByItem[files[i].workItem] == files[i].owner
  {
    if files[i].workItem in ownerByItem {
      var f :| f in files[..i] && f.workItem == files[i].workItem;
      assert f in files && files[i] in files;
    }
  }

  ghost predicate WritesAsPlanned(files: seq<PlannedFile>, item: WorkItem) {
    && AllAccepted(item.allowedWritePaths)
    && (set p | p in item.allowedWritePaths :: PathOf(p)) == WritePaths(files, item.id)
  }

  ghost predicate AllWriteAsPlanned(files: seq<PlannedFile>, items: seq<WorkItem>) {
    forall item :: item in items ==> WritesAsPlanned(files, item)
  }

  method CheckWritePaths(ghost files: seq<PlannedFile>, items: seq<WorkItem>, plannedByItem: map<Node, set<string>>)
    returns (error: Option<PlanError>)
    requires PlansWrites(files, plannedByItem)
    ensures error.None? <==> AllWriteAsPlanned(files, items)
  {
    for i := 0 to |items|
      invariant AllWriteAsPlanned(files, items[..i])
    {
      var item := items[i];
      assert item in items && items[..i + 1] == items[..i] + [item];
      var actual := NormalizeAll(item.allowedWritePaths);
      if actual.None? {
        return Some(BadPath);
      }
      ListedPaths(item.allowedWritePaths, actual.value);
      if (set p | p in actual.value) != Get(plannedByItem, item.id, {}) {
        return Some(WritePathMismatch);
      }
    }
    assert items[..|items|] == items;
    return None;
  }

  lemma ListedPaths(paths: seq<string>, normalized: seq<string>)
    requires IsNormalList(paths, normalized)
    ensures (set p | p in normalized) == set p | p in paths :: PathOf(p)
  {
    forall p | p in paths ensures PathOf(p) in normalized {
      var k :| 0 <= k < |paths| && paths[k] == p;
      assert normalized[k] == PathOf(p);
    }
    forall n | n in normalized ensures exists p :: p in paths && PathOf(p) == n {
      var k :| 0 <= k < |normalized| && normalized[k] == n;
      assert paths[k] in paths;
    }
  }

  method LinkItemEdges(edges: seq<Edge>, ids: set<Node>)
    returns (error: Option<PlanError>, adjacency: map<Node, set<Node>>, indegree: map<Node, int>,
             edgeDependencies: map<Node, set<Node>>)
    ensures error.None? <==> Closed(Graph(ids, Elements(edges)))
    ensures error.None? ==> Linked(Graph(ids, Elements(edges)), adjacency)
    ensures error.None? ==> Counts(Graph(ids, Elements(edges)), {}, indegree)
    ensures error.None? ==> IsDependencies(Elements(edges), edgeDependencies)
  {
    adjacency := map id | id in ids :: {};
    indegree := map id | id in ids :: 0;
    edgeDependencies := map[];
    error := None;
    ghost var g := Graph(ids, {});
    for i := 0 to |edges|
      invariant g == Graph(ids, Elements(edges[..i])) && Closed(g)
      invariant Linked(g, adjacency) && Counts(g, {}, indegree)
      invariant IsDependencies(g.edges, edgeDependencies)
    {
      var edge := edges[i];
      assert edge in Elements(edges);
      if edge.0 !in ids || edge.1 !in ids {
        return Some(UnknownEdgeEnd), adjacency, indegree, edgeDependencies;
      }
      PrefixEdges(edges, i);
      DependenciesGrow(g.edges, edgeDependencies, edge);
      edgeDependencies := edgeDependencies[edge.1 := Get(edgeDependencies, edge.1, {}) + {edge.0}];
      adjacency, indegree := LinkEdge(g, adjacency, indegree, edge);
      g := Graph(ids, g.edges + {edge});
    }
    assert edges[..|edges|] == edges;
  }

  ghost predicate DependsAsPlanned(edges: set<Edge>, item: WorkItem) {
    Elements(item.dependencies) == Sources(edges, item.id)
  }

  ghost predicate AllDependAsPlanned(edges: set<Edge>, items: seq<WorkItem>) {
    forall item :: item in items ==> DependsAsPlanned(edges, item)
  }

  method CheckDependencies(ghost edges: set<Edge>, items: seq<WorkItem>, edgeDependencies: map<Node, set<Node>>)
    returns (error: Option<PlanError>)
    requires IsDependencies(edges, edgeDependencies)
    ensures error.None? <==> AllDependAsPlanned(edges, items)
  {
    for i := 0 to |items|
      invariant AllDependAsPlanned(edges, items[..i])
    {
      assert items[i] in items && items[..i + 1] == items[..i] + [items[i]];
      if (set d | d in items[i].dependencies) != Get(edgeDependencies, items[i].id, {}) {
        return Some(DependencyMismatch);
      }
    }
    assert items[..|items|] == items;
    return None;
  }

  // ---------------------------------------------------------------- the wave loop

  /** The state inside a wave: the rest of the wave is ready but no longer queued. */
  ghost predicate WaveState(g: Graph, done: set<Node>, indegree: map<Node, int>, ready: seq<Node>, rest: set<Node>) {
    && Settled(g, done) && Counts(g, done, indegree)
    && Distinct(ready) && Elements(ready) == Ready(g, done) - rest && rest <= Ready(g, done)
  }

  /** Count down after every node of a wave; `ready` grows at its end, unsorted. */
  method ReleaseWave(ghost g: Graph, ghost done: set<Node>, wave: seq<Node>, adjacency: map<Node, set<Node>>,
                     indegree0: map<Node, int>, ready0: seq<Node>)
    returns (indegree: map<Node, int>, ready: seq<Node>)
    requires Closed(g) && Linked(g, adjacency) && Distinct(wave)
    requires WaveState(g, done, indegree0, ready0, Elements(wave))
    ensures KahnState(g, done + Elements(wave), indegree, ready)
  {
    indegree, ready := indegree0, ready0;
    ghost var now := done;
    assert wave[0..] == wave;
    for i := 0 to |wave|
      invariant now == done + Elements(wave[..i])
      invariant WaveState(g, now, indegree, ready, Elements(wave[i..]))
    {
      RestOf(wave, i);
      NextOf(wave, i);
      indegree, ready := ReleaseOne(g, now, wave[i], Elements(wave[i + 1..]), adjacency, indegree, ready);
      now := now + {wave[i]};
    }
    assert wave[..|wave|] == wave;
  }

  method ReleaseOne(ghost g: Graph, ghost done: set<Node>, upstream: Node, ghost rest: set<Node>,
                    adjacency: map<Node, set<Node>>, indegree0: map<Node, int>, ready0: seq<Node>)
    returns (indegree: map<Node, int>, ready: seq<Node>)
    requires Closed(g) && Linked(g, adjacency) && upstream !in rest
    requires WaveState(g, done, indegree0, ready0, rest + {upstream})
    ensures WaveState(g, done + {upstream}, indegree, ready, rest)
  {
    ReadyAfter(g, done, upstream);
    var order := SortSet(adjacency[upstream]);
    SortSetFacts(adjacency[upstream]);
    StrictlySortedIsDistinct(order);
    indegree, ready := Release(g, done, upstream, order, indegree0, ready0);
  }

  lemma RestOf(wave: seq<Node>, i: nat)
    requires Distinct(wave) && i < |wave|
    ensures wave[i] in Elements(wave[i..]) && wave[i] !in Elements(wave[i + 1..])
    ensures Elements(wave[i..]) == Elements(wave[i + 1..]) + {wave[i]}
  {
    assert wave[i..] == [wave[i]] + wave[i + 1..];
  }

  lemma SplitWave(ready: seq<Node>, k: nat)
    requires Distinct(ready) && k <= |ready|
    ensures Distinct(ready[..k]) && Distinct(ready[k..])
    ensures Elements(ready[..k]) !! Elements(ready[k..])
    ensures Elements(ready) == Elements(ready[..k]) + Elements(ready[k..])
  {
    assert ready == ready[..k] + ready[k..];
  }

  /** The wave loop refines the definition: it takes the same waves. */
  method TakeWaves(ghost g: Graph, width: nat, adjacency: map<Node, set<Node>>, indegree: map<Node, int>)
    returns (waves: seq<seq<Node>>, processed: nat)
    requires width > 0 && Closed(g) && Linked(g, adjacency) && Counts(g, {}, indegree)
    ensures waves == Waves(g, width, {})
    ensures processed == |g.nodes| <==> Acyclic(g)
  {
    var free := set x | x in indegree && indegree[x] == 0;
    var ready := SortSet(free);
    WavesStart(g, width, indegree, free);
    waves, processed := TakeFrom(g, width, adjacency, indegree, ready);
  }

  lemma WavesStart(g: Graph, width: nat, indegree: map<Node, int>, free: set<Node>)
    requires width > 0 && Closed(g) && Counts(g, {}, indegree) && free == set x | x in indegree && indegree[x] == 0
    ensures KahnState(g, {}, indegree, SortSet(free)) && SortSet(free) == SortSet(Ready(g, {}))
    ensures TakenSoFar(g, width, {}, [], 0)
  {
    SortSetFacts(free);
    StrictlySortedIsDistinct(SortSet(free));
    StartState(g, indegree, SortSet(free));
    assert Waves(g, width, {}) == [] + Waves(g, width, {});
  }

  method TakeFrom(ghost g: Graph, width: nat, adjacency: map<Node, set<Node>>, indegree0: map<Node, int>, ready0: seq<Node>)
    returns (waves: seq<seq<Node>>, processed: nat)
    requires width > 0 && Closed(g) && Linked(g, adjacency)
    requires KahnState(g, {}, indegree0, ready0) && ready0 == SortSet(Ready(g, {})) && TakenSoFar(g, width, {}, [], 0)
    ensures waves == Waves(g, width, {})
    ensures processed == |g.nodes| <==> Acyclic(g)
  {
    var indegree, ready := indegree0, ready0;
    waves, processed := [], 0;
    ghost var done: set<Node> := {};
    while ready != []
      invariant KahnState(g, done, indegree, ready) && ready == SortSet(Ready(g, done))
      invariant TakenSoFar(g, width, done, waves, processed)
      decreases |g.nodes - done|
    {
      var wave;
      wave, indegree, ready := NextWaveStep(g, width, done, adjacency, indegree, ready);
      OneMoreTaken(g, width, done, waves, processed, wave);
      waves := waves + [wave];
      processed := processed + |wave|;
      done := done + Elements(wave);
    }
    AllTaken(g, width, done, waves, processed);
  }

  /** The waves taken so far are those the definition starts with, and avoid every cycle. */
  ghost predicate TakenSoFar(g: Graph, width: nat, done: set<Node>, waves: seq<seq<Node>>, processed: nat) {
    && width > 0 && processed == |done|
    && Waves(g, width, {}) == waves + Waves(g, width, done)
    && forall c :: IsCycle(g, c) ==> Elements(c) !! done
  }

  lemma OneMoreTaken(g: Graph, width: nat, done: set<Node>, waves: seq<seq<Node>>, processed: nat, wave: seq<Node>)
    requires TakenSoFar(g, width, done, waves, processed)
    requires wave == NextWave(g, width, done) && wave != []
    ensures TakenSoFar(g, width, done + Elements(wave), waves + [wave], processed + |wave|)
    ensures |g.nodes - (done + Elements(wave))| < |g.nodes - done|
  {
    var done' := done + Elements(wave);
    NextWaveFacts(g, width, done);
    Shrinks(g, done, wave);
    DistinctCardinality(wave);
    assert waves + ([wave] + Waves(g, width, done')) == (waves + [wave]) + Waves(g, width, done');
    forall c | IsCycle(g, c) ensures Elements(c) !! done' {
      WaveAvoidsCycle(g, done, wave, c);
    }
  }

  lemma WaveAvoidsCycle(g: Graph, done: set<Node>, wave: seq<Node>, c: seq<Node>)
    requires Elements(wave) <= Ready(g, done) && IsCycle(g, c) && Elements(c) !! done
    ensures Elements(c) !! done + Elements(wave)
  {
    forall x | x in c ensures x !in Elements(wave) {
      CycleWaits(g, done, c, x);
    }
  }

  lemma AllTaken(g: Graph, width: nat, done: set<Node>, waves: seq<seq<Node>>, processed: nat)
    requires TakenSoFar(g, width, done, waves, processed) && Closed(g) && done <= g.nodes
    requires SortSet(Ready(g, done)) == []
    ensures waves == Waves(g, width, {})
    ensures processed == |g.nodes| <==> Acyclic(g)
  {
    SortSetFacts(Ready(g, done));
    assert waves + [] == waves;
    SubsetCardinality(done, g.nodes);
    if done != g.nodes {
      AcyclicOrStuck(g, done);
    } else {
      AllDoneNoCycle(g, done);
    }
  }

  method NextWaveStep(ghost g: Graph, width: nat, ghost done: set<Node>, adjacency: map<Node, set<Node>>,
                      indegree0: map<Node, int>, ready0: seq<Node>)
    returns (wave: seq<Node>, indegree: map<Node, int>, ready: seq<Node>)
    requires width > 0 && Closed(g) && Linked(g, adjacency) && ready0 != []
    requires KahnState(g, done, indegree0, ready0) && ready0 == SortSet(Ready(g, done))
    ensures wave == NextWave(g, width, done) && wave != []
    ensures KahnState(g, done + Elements(wave), indegree, ready)
    ensures ready == SortSet(Ready(g, done + Elements(wave)))
  {
    var k := if width < |ready0| then width else |ready0|;
    SplitWave(ready0, k);
    wave := ready0[..k];
    indegree, ready := ReleaseWave(g, done, wave, adjacency, indegree0, ready0[k..]);
    SortIsSortSet(ready);
    ready := Sort(ready);
    SortSetFacts(Ready(g, done + Elements(wave)));
    StrictlySortedIsDistinct(ready);
  }

  // ---------------------------------------------------------------- putting it together

  /** Items that come with extra identifiers leave the dependency graph acyclic. */
  lemma ExtraItemsAddNoCycle(plan: ChangePlan, items: seq<WorkItem>)
    requires PlanOk(plan) && ItemIds(plan.files) <= IdsOf(items)
    ensures Closed(ScheduleGraph(plan, items)) && Acyclic(ScheduleGraph(plan, items))
  {
    var g, h := PlanGraph(plan), ScheduleGraph(plan, items);
    forall c ensures !IsCycle(h, c) {
      if IsCycle(h, c) {
        forall i | 0 <= i < |c| ensures c[i] in g.nodes {
          var j := if i == 0 then 0 else i - 1;
          assert (c[j], c[j + 1]) in h.edges;
        }
        assert IsCycle(g, c);
      }
    }
  }

  lemma FilesCoverIds(plan: ChangePlan, items: seq<WorkItem>)
    requires forall f :: f in plan.files ==> FileHasItem(items, f)
    ensures ItemIds(plan.files) <= IdsOf(items)
  {
    forall f | f in plan.files ensures f.workItem in IdsOf(items) {
      var item :| item in items && item.id == f.workItem && item.owner == f.owner;
    }
  }

  ghost predicate Schedulable(plan: ChangePlan, items: seq<WorkItem>) {
    PlanOk(plan) && NoDeletedInterface(plan) && ItemsMatch(plan, items)
  }

  lemma MatchByParts(plan: ChangePlan, items: seq<WorkItem>)
    ensures ItemsMatch(plan, items) <==>
            && |IdsOf(items)| == |items|
            && AllHaveItems(plan.files, items)
            && AllWriteAsPlanned(plan.files, items)
            && AllDependAsPlanned(Elements(plan.dependencyEdges), items)
  {
    forall item ensures ItemMatches(plan, item) <==>
      WritesAsPlanned(plan.files, item) && DependsAsPlanned(Elements(plan.dependencyEdges), item)
    {
    }
  }

  /**
   `build_schedule`: it succeeds exactly on valid plans with matching items and no deleted
   interface, and the result is the greedy schedule of the dependency graph.
   */
  method BuildSchedule(plan: ChangePlan, items: seq<WorkItem>, maxConcurrency: nat)
    returns (result: Result<SchedulePlan, PlanError>)
    ensures result.Ok? <==> 1 <= maxConcurrency <= MAX_CONCURRENCY && Schedulable(plan, items)
    ensures result.Ok? ==> result.value == SchedulePlan(Waves(ScheduleGraph(plan, items), maxConcurrency, {}), maxConcurrency)
  {
    if !(1 <= maxConcurrency <= MAX_CONCURRENCY) {
      return Err(BadWidth);
    }
    var error := ValidateChangePlan(plan);
    if error.Some? {
      return Err(error.value);
    }
    result := ScheduleValid(plan, items, maxConcurrency);
  }

  method ScheduleValid(plan: ChangePlan, items: seq<WorkItem>, width: nat)
    returns (result: Result<SchedulePlan, PlanError>)
    requires PlanOk(plan) && width > 0
    ensures result.Ok? <==> NoDeletedInterface(plan) && ItemsMatch(plan, items)
    ensures result.Ok? ==> result.value == SchedulePlan(Waves(ScheduleGraph(plan, items), width, {}), width)
  {
    MatchByParts(plan, items);
    var error := CompareItems(plan, items);
    if error.Some? {
      return Err(error.value);
    }
    FilesCoverIds(plan, items);
    ExtraItemsAddNoCycle(plan, items);
    result := ScheduleItems(plan.dependencyEdges, items, width);
  }

  method ScheduleItems(edges: seq<Edge>, items: seq<WorkItem>, width: nat)
    returns (result: Result<SchedulePlan, PlanError>)
    requires width > 0 && |IdsOf(items)| == |items|
    ensures var g := Graph(IdsOf(items), Elements(edges));
            && (result.Ok? <==> Closed(g) && Acyclic(g) && AllDependAsPlanned(g.edges, items))
            && (result.Ok? ==> result.value == SchedulePlan(Waves(g, width, {}), width))
  {
    ghost var g := Graph(IdsOf(items), Elements(edges));
    var error, adjacency, indegree, edgeDependencies := LinkItemEdges(edges, set item | item in items :: item.id);
    if error.Some? {
      return Err(error.value);
    }
    error := CheckDependencies(g.edges, items, edgeDependencies);
    if error.Some? {
      return Err(error.value);
    }
    var waves, processed := TakeWaves(g, width, adjacency, indegree);
    if processed != |items| {
      return Err(CyclicPlan);
    }
    return Ok(SchedulePlan(waves, width));
  }

  method CompareItems(plan: ChangePlan, items: seq<WorkItem>) returns (error: Option<PlanError>)
    requires |NormalPaths(plan.files)| == |plan.files| && OwnersAgree(plan.files)
    ensures error.None? <==>
            && NoDeletedInterface(plan) && |IdsOf(items)| == |items|
            && AllHaveItems(plan.files, items) && AllWriteAsPlanned(plan.files, items)
  {
    if |set item | item in items :: item.id| != |items| {
      return Some(DuplicateItem);
    }
    var itemById := IndexItems(items);
    AllOwnedMeansAllHaveItems(plan.files, items, itemById);
    var facts;
    error, facts := CheckFiles(plan.files, itemById);
    if error.Some? {
      return;
    }
    RecordedFacts(plan.files, facts);
    if facts.deleted * facts.required != {} {
      return Some(DeletedInterface);
    }
    error := CheckWritePaths(plan.files, items, facts.plannedByItem);
  }

  ghost predicate AllHaveItems(files: seq<PlannedFile>, items: seq<WorkItem>) {
    forall f :: f in files ==> FileHasItem(items, f)
  }

  lemma AllOwnedMeansAllHaveItems(files: seq<PlannedFile>, items: seq<WorkItem>, itemById: map<Node, WorkItem>)
    requires |IdsOf(items)| == |items| && Indexes(items, itemById)
    ensures AllOwnedAs(files, itemById) <==> AllHaveItems(files, items)
  {
    forall f | f in files ensures OwnedAs(itemById, f) <==> FileHasItem(items, f) {
      OwnedAsIsFileHasItem(items, itemById, f);
    }
  }
}
