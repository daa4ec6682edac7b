/** Plans and work items, and what a valid plan is. */
module Plans {
  import opened Outcomes
  import opened Ordering
  import opened Dag
  import opened Paths
  import opened Policies

  datatype Operation = Create | Modify | Delete

  datatype PlannedFile = PlannedFile(
    workItem: Node, path: string, operation: Operation, owner: string, requiredInterfaces: seq<string>)

  datatype ChangePlan = ChangePlan(
    files: seq<PlannedFile>, dependencyEdges: seq<Edge>, riskFlags: set<RiskFlag>,
    scopeExpansionReason: Option<string>)

  datatype WorkItemKind = Code | Repair

  datatype WorkItem = WorkItem(
    id: Node, kind: WorkItemKind, dependencies: seq<Node>, allowedWritePaths: seq<string>,
    readPaths: seq<string>, owner: string, attempt: nat)

  datatype PlanError =
    | NoFiles | TooManyFiles | BadPath | DuplicatePath | OwnerMismatch
    | UnknownEdgeEnd | SelfEdge | CyclicPlan
    | BadWidth | DuplicateItem | UnknownItem | DeletedInterface | WritePathMismatch | DependencyMismatch
    | RepairNeedsPriorPaths | PathsNeedFeedback | BadArchive
    | OutsideScope | ScopeTooWide | NoExpansionReason | CreateExists | TargetMissing

  const MAX_PLANNED_FILES := 20

  /** The normal form of an acceptable path. */
  function PathOf(path: string): string {
    match NormalizePlanPath(path)
    case Some(n) => n
    case None => ""
  }

  ghost function ItemIds(files: seq<PlannedFile>): set<Node> {
    set f | f in files :: f.workItem
  }

  ghost function NormalPaths(files: seq<PlannedFile>): set<string> {
    set f | f in files :: PathOf(f.path)
  }

  ghost function PlanGraph(plan: ChangePlan): Graph {
    Graph(ItemIds(plan.files), Elements(plan.dependencyEdges))
  }

  ghost predicate OwnersAgree(files: seq<PlannedFile>) {
    forall f, g :: f in files && g in files && f.workItem == g.workItem ==> f.owner == g.owner
  }

  ghost predicate FileOk(f: PlannedFile) {
    NormalizePlanPath(f.path).Some?
    && forall p :: p in f.requiredInterfaces ==> NormalizePlanPath(p).Some?
  }

  ghost predicate EdgesOk(plan: ChangePlan) {
    forall e :: e in plan.dependencyEdges ==>
      e.0 in ItemIds(plan.files) && e.1 in ItemIds(plan.files) && e.0 != e.1
  }

  /** Everything a plan must satisfy besides having no dependency cycle. */
  ghost predicate WellShaped(plan: ChangePlan) {
    && 1 <= |plan.files| <= MAX_PLANNED_FILES
    && (forall f :: f in plan.files ==> FileOk(f))
    && |NormalPaths(plan.files)| == |plan.files|
    && OwnersAgree(plan.files)
    && EdgesOk(plan)
  }

  ghost predicate PlanOk(plan: ChangePlan) {
    WellShaped(plan) && Acyclic(PlanGraph(plan))
  }

  // ---------------------------------------------------------------- unique ownership

  /** In a valid plan two different entries never have the same normal path. */
  lemma PathsAreUnique(files: seq<PlannedFile>)
    requires |NormalPaths(files)| == |files|
    ensures forall i, j :: 0 <= i < j < |files| ==> PathOf(files[i].path) != PathOf(files[j].path)
  {
    var paths := seq(|files|, i requires 0 <= i < |files| => PathOf(files[i].path));
    assert Elements(paths) == NormalPaths(files) by {
      forall f | f in files ensures PathOf(f.path) in Elements(paths) {
        var i :| 0 <= i < |files| && files[i] == f;
        assert paths[i] == PathOf(f.path);
      }
      forall p | p in Elements(paths) ensures p in NormalPaths(files) {
        var i :| 0 <= i < |paths| && paths[i] == p;
        assert files[i] in files;
      }
    }
    ElementsBound(paths);
    forall i, j | 0 <= i < j < |files| ensures PathOf(files[i].path) != PathOf(files[j].path) {
      assert paths[i] != paths[j];
    }
  }

  ghost function WritePaths(files: seq<PlannedFile>, id: Node): set<string> {
    set f | f in files && f.workItem == id :: PathOf(f.path)
  }

  ghost function RequiredPaths(files: seq<PlannedFile>, id: Node): set<string> {
    set f, p | f in files && f.workItem == id && p in f.requiredInterfaces :: PathOf(p)
  }

  /** Work items of a valid plan own disjoint sets of files. */
  lemma OwnershipIsDisjoint(plan: ChangePlan, a: Node, b: Node)
    requires |NormalPaths(plan.files)| == |plan.files| && a != b
    ensures WritePaths(plan.files, a) !! WritePaths(plan.files, b)
  {
    PathsAreUnique(plan.files);
    forall p | p in WritePaths(plan.files, a) ensures p !in WritePaths(plan.files, b) {
      var f :| f in plan.files && f.workItem == a && PathOf(f.path) == p;
      var i :| 0 <= i < |plan.files| && plan.files[i] == f;
      forall g | g in plan.files && g.workItem == b ensures PathOf(g.path) != p {
        var j :| 0 <= j < |plan.files| && plan.files[j] == g;
        assert i != j;
      }
    }
  }

  ghost function OwnerOf(files: seq<PlannedFile>, id: Node): string
    requires id in ItemIds(files)
  {
    var f :| f in files && f.workItem == id;
    f.owner
  }

  // ---------------------------------------------------------------- work items of a plan

  ghost function ItemOf(plan: ChangePlan, id: Node): WorkItem
    requires id in ItemIds(plan.files)
  {
    WorkItem(
      id, Code,
      SortSet(Upstreams(PlanGraph(plan), id)),
      SortSet(WritePaths(plan.files, id)),
      SortSet(RequiredPaths(plan.files, id) + WritePaths(plan.files, id)),
      OwnerOf(plan.files, id), 1)
  }

  /** The work items of a plan: one for every identifier, in identifier order. */
  ghost function ItemsOf(plan: ChangePlan): seq<WorkItem> {
    var ids := SortSet(ItemIds(plan.files));
    SortSetFacts(ItemIds(plan.files));
    seq(|ids|, i requires 0 <= i < |ids| => assert ids[i] in Elements(ids); ItemOf(plan, ids[i]))
  }

  ghost function IdsOf(items: seq<WorkItem>): set<Node> {
    set item | item in items :: item.id
  }

  ghost function DeletedPaths(files: seq<PlannedFile>): set<string> {
    set f | f in files && f.operation == Delete :: PathOf(f.path)
  }

  ghost function AllRequired(files: seq<PlannedFile>): set<string> {
    set f, p | f in files && p in f.requiredInterfaces :: PathOf(p)
  }

  /** No path the plan deletes is an interface some entry still requires. */
  ghost predicate NoDeletedInterface(plan: ChangePlan) {
    DeletedPaths(plan.files) * AllRequired(plan.files) == {}
  }

  ghost predicate ItemMatches(plan: ChangePlan, item: WorkItem) {
    && (forall p :: p in item.allowedWritePaths ==> NormalizePlanPath(p).Some?)
    && (set p | p in item.allowedWritePaths :: PathOf(p)) == WritePaths(plan.files, item.id)
    && Elements(item.dependencies) == Upstreams(PlanGraph(plan), item.id)
  }

  ghost predicate FileHasItem(items: seq<WorkItem>, f: PlannedFile) {
    exists item :: item in items && item.id == f.workItem && item.owner == f.owner
  }

  /** What `build_schedule` demands of the work items it is given with a plan. */
  ghost predicate ItemsMatch(plan: ChangePlan, items: seq<WorkItem>) {
    && |IdsOf(items)| == |items|
    && (forall f :: f in plan.files ==> FileHasItem(items, f))
    && (forall item :: item in items ==> ItemMatches(plan, item))
  }

  ghost function ScheduleGraph(plan: ChangePlan, items: seq<WorkItem>): Graph {
    Graph(IdsOf(items), Elements(plan.dependencyEdges))
  }

  lemma ItemAt(plan: ChangePlan, id: Node) returns (i: nat)
    requires id in ItemIds(plan.files)
    ensures i < |ItemsOf(plan)| && ItemsOf(plan)[i] == ItemOf(plan, id)
  {
    var ids := SortSet(ItemIds(plan.files));
    SortSetFacts(ItemIds(plan.files));
    assert id in Elements(ids);
    i :| 0 <= i < |ids| && ids[i] == id;
  }

  lemma ItemComesFrom(plan: ChangePlan, item: WorkItem)
    requires item in ItemsOf(plan)
    ensures item.id in ItemIds(plan.files) && item == ItemOf(plan, item.id)
  {
    var ids := SortSet(ItemIds(plan.files));
    SortSetFacts(ItemIds(plan.files));
    var i :| 0 <= i < |ids| && ItemsOf(plan)[i] == item;
    assert ids[i] in Elements(ids);
  }

  lemma ItemsHaveTheIds(plan: ChangePlan)
    ensures IdsOf(ItemsOf(plan)) == ItemIds(plan.files)
  {
    forall id | id in ItemIds(plan.files) ensures id in IdsOf(ItemsOf(plan)) {
      var i := ItemAt(plan, id);
      assert ItemsOf(plan)[i] in ItemsOf(plan);
    }
    forall item | item in ItemsOf(plan) ensures item.id in ItemIds(plan.files) {
      ItemComesFrom(plan, item);
    }
  }

  lemma FileFindsItsItem(plan: ChangePlan, f: PlannedFile)
    requires OwnersAgree(plan.files) && f in plan.files
    ensures FileHasItem(ItemsOf(plan), f)
  {
    var i := ItemAt(plan, f.workItem);
    var item := ItemsOf(plan)[i];
    assert item in ItemsOf(plan) && item.owner == OwnerOf(plan.files, f.workItem) == f.owner;
  }

  lemma FilesFindTheirItems(plan: ChangePlan)
    requires OwnersAgree(plan.files)
    ensures forall f :: f in plan.files ==> FileHasItem(ItemsOf(plan), f)
  {
    forall f | f in plan.files ensures FileHasItem(ItemsOf(plan), f) {
      FileFindsItsItem(plan, f);
    }
  }

  lemma ItemsMatchTheirFiles(plan: ChangePlan)
    requires WellShaped(plan)
    ensures forall item :: item in ItemsOf(plan) ==> ItemMatches(plan, item)
  {
    forall item | item in ItemsOf(plan) ensures ItemMatches(plan, item) {
      ItemComesFrom(plan, item);
      MaterializedItemMatches(plan, item.id);
    }
  }

  /** The work items made from a valid plan always match it. */
  lemma MaterializedItemsMatch(plan: ChangePlan)
    requires WellShaped(plan)
    ensures ItemsMatch(plan, ItemsOf(plan))
    ensures IdsOf(ItemsOf(plan)) == ItemIds(plan.files)
  {
    var items := ItemsOf(plan);
    ItemsHaveTheIds(plan);
    SortSetFacts(ItemIds(plan.files));
    FilesFindTheirItems(plan);
    ItemsMatchTheirFiles(plan);
  }

  /** Normal paths are their own normal form. */
  lemma WritePathsAreNormal(files: seq<PlannedFile>, id: Node, p: string)
    requires (forall f :: f in files ==> FileOk(f)) && p in WritePaths(files, id)
    ensures NormalizePlanPath(p) == Some(p) && PathOf(p) == p
  {
    var f :| f in files && f.workItem == id && PathOf(f.path) == p;
    assert FileOk(f);
    PlanPathNormalForm(f.path);
  }

  lemma MaterializedItemMatches(plan: ChangePlan, id: Node)
    requires WellShaped(plan) && id in ItemIds(plan.files)
    ensures ItemMatches(plan, ItemOf(plan, id))
  {
    var owned := WritePaths(plan.files, id);
    var paths := SortSet(owned);
    SortSetFacts(owned);
    SortSetFacts(Upstreams(PlanGraph(plan), id));
    forall p ensures p in paths <==> p in owned {
      assert p in Elements(paths) <==> p in owned;
    }
    forall p | p in owned ensures NormalizePlanPath(p) == Some(p) && PathOf(p) == p {
      WritePathsAreNormal(plan.files, id, p);
    }
    SelfImage(paths, owned);
  }

  lemma SelfImage(paths: seq<string>, owned: set<string>)
    requires forall p :: p in paths <==> p in owned
    requires forall p :: p in owned ==> PathOf(p) == p
    ensures (set p | p in paths :: PathOf(p)) == owned
  {
    forall p | p in owned ensures p in (set q | q in paths :: PathOf(q)) {
      assert p in paths && PathOf(p) == p;
    }
  }

  // ---------------------------------------------------------------- listing order is irrelevant

  /** The same files, possibly in another order, and the same edges, possibly repeated. */
  ghost predicate SamePlan(p: ChangePlan, q: ChangePlan) {
    && multiset(p.files) == multiset(q.files)
    && Elements(p.dependencyEdges) == Elements(q.dependencyEdges)
  }

  lemma SameFilesSameSets(p: seq<PlannedFile>, q: seq<PlannedFile>)
    requires forall f :: f in p <==> f in q
    ensures ItemIds(p) == ItemIds(q) && NormalPaths(p) == NormalPaths(q)
    ensures forall id :: WritePaths(p, id) == WritePaths(q, id)
    ensures forall id :: RequiredPaths(p, id) == RequiredPaths(q, id)
    ensures DeletedPaths(p) == DeletedPaths(q) && AllRequired(p) == AllRequired(q)
  {
  }

  lemma SamePlanSameFiles(p: ChangePlan, q: ChangePlan)
    requires SamePlan(p, q)
    ensures |p.files| == |q.files|
    ensures forall f :: f in p.files <==> f in q.files
    ensures forall e :: e in p.dependencyEdges <==> e in q.dependencyEdges
  {
    assert |multiset(p.files)| == |multiset(q.files)|;
    forall f ensures f in p.files <==> f in q.files {
      assert f in multiset(p.files) <==> f in multiset(q.files);
    }
    forall e ensures e in p.dependencyEdges <==> e in q.dependencyEdges {
      assert e in Elements(p.dependencyEdges) <==> e in Elements(q.dependencyEdges);
    }
  }

  lemma SamePlanSameShape(p: ChangePlan, q: ChangePlan)
    requires SamePlan(p, q)
    ensures PlanGraph(p) == PlanGraph(q)
    ensures WellShaped(p) <==> WellShaped(q)
    ensures NoDeletedInterface(p) <==> NoDeletedInterface(q)
  {
    SamePlanSameFiles(p, q);
    SameFilesSameSets(p.files, q.files);
  }

  lemma SameItem(p: ChangePlan, q: ChangePlan, id: Node)
    requires SamePlan(p, q) && OwnersAgree(p.files) && id in ItemIds(p.files)
    ensures id in ItemIds(q.files) && ItemOf(p, id) == ItemOf(q, id)
  {
    SamePlanSameFiles(p, q);
    SameFilesSameSets(p.files, q.files);
    assert OwnerOf(p.files, id) == OwnerOf(q.files, id);
  }

  /** Reordering files and repeating edges changes neither validity nor the work items. */
  lemma ItemsAreCanonical(p: ChangePlan, q: ChangePlan)
    requires SamePlan(p, q)
    ensures PlanOk(p) <==> PlanOk(q)
    ensures PlanOk(p) ==> ItemsOf(p) == ItemsOf(q)
  {
    SamePlanSameShape(p, q);
    if PlanOk(p) {
      SameItems(p, q);
    }
  }

  lemma SameItems(p: ChangePlan, q: ChangePlan)
    requires SamePlan(p, q) && OwnersAgree(p.files) && PlanGraph(p) == PlanGraph(q)
    ensures ItemsOf(p) == ItemsOf(q)
  {
    var ids := SortSet(ItemIds(p.files));
    SortSetFacts(ItemIds(p.files));
    forall i | 0 <= i < |ids| ensures ItemsOf(p)[i] == ItemsOf(q)[i] {
      assert ids[i] in Elements(ids);
      SameItem(p, q, ids[i]);
    }
  }
}
