/** `str.strip` as it is used here: does a text say anything at all. */
module Texts {

  predicate IsSpace(c: char) {
    || '\t' <= c <= '\r' || '\U{1C}' <= c <= ' ' || c == '\U{85}' || c == '\U{A0}' || c == '\U{1680}'
    || '\U{2000}' <= c <= '\U{200A}' || c == '\U{2028}' || c == '\U{2029}' || c == '\U{202F}'
    || c == '\U{205F}' || c == '\U{3000}'
  }

  predicate Blank(s: string) {
    forall c | c in s :: IsSpace(c)
  }

  /** Spaces, tabs and line ends say nothing; any visible ASCII character does. */
  lemma BlankSaysNothing(s: string)
    ensures (forall c :: c in s ==> c == ' ' || c == '\t' || c == '\n' || c == '\r') ==> Blank(s)
    ensures (exists c :: c in s && '!' <= c <= '~') ==> !Blank(s)
  {
    if c :| c in s && '!' <= c <= '~' {
      assert !IsSpace(c);
    }
  }
}

/**
 The planning activity: what it accepts from the model, and what the workflow may rely on. The
 model's answer is an argument; a failing model call is an activity that raises.
 */
module Planning {
  import opened Outcomes
  import opened Ordering
  import opened Texts
  import opened Paths
  import opened Dag
  import opened Policies
  import opened Plans
  import opened Scheduler
  import opened ScheduleLaws

  const MAX_EXPANSION := 3

  /** `feedback` says whether this is a repair, `archive` lists the files of the snapshot. */
  datatype PlanRequest = PlanRequest(
    attempt: nat, feedback: bool, allowedRepairPaths: seq<string>, allowScopeExpansion: bool, archive: seq<string>)

  datatype PlanChangeResult = PlanChangeResult(
    riskLevel: RiskLevel, plannedFiles: seq<PlannedFile>, workItems: seq<WorkItem>,
    waves: seq<seq<Node>>, scopeExpansionPaths: seq<string>)

  ghost function NormalSet(paths: seq<string>): set<string> {
    set p | p in paths :: PathOf(p)
  }

  ghost predicate RequestOk(request: PlanRequest) {
    if request.feedback then
      && request.allowedRepairPaths != [] && request.attempt >= 2
      && AllAccepted(request.allowedRepairPaths) && AllAccepted(request.archive)
    else request.allowedRepairPaths == []
  }

  /** The planned files outside the paths a repair may touch. */
  ghost function Extra(request: PlanRequest, plan: ChangePlan): set<string> {
    if request.feedback then NormalPaths(plan.files) - NormalSet(request.allowedRepairPaths) else {}
  }

  ghost predicate ExpansionOk(request: PlanRequest, plan: ChangePlan) {
    Extra(request, plan) != {} ==>
    && request.allowScopeExpansion
    && |Extra(request, plan)| <= MAX_EXPANSION
    && plan.scopeExpansionReason.Some? && !Blank(plan.scopeExpansionReason.value)
  }

  /** A repair creates only what is missing, and changes or deletes only what is there. */
  ghost predicate TargetOk(existing: set<string>, f: PlannedFile) {
    if f.operation == Create then PathOf(f.path) !in existing else PathOf(f.path) in existing
  }

  ghost predicate TargetsOk(request: PlanRequest, plan: ChangePlan) {
    request.feedback ==> forall f :: f in plan.files ==> TargetOk(NormalSet(request.archive), f)
  }

  ghost function FinalFlags(request: PlanRequest, plan: ChangePlan): set<RiskFlag> {
    plan.riskFlags + InferredFlags(plan.files) + if Extra(request, plan) == {} then {} else {LargeScope}
  }

  /** Exactly what the activity accepts. */
  ghost predicate Acceptable(request: PlanRequest, plan: ChangePlan) {
    && RequestOk(request) && PlanOk(plan)
    && ExpansionOk(request, plan) && TargetsOk(request, plan)
    && NoDeletedInterface(plan)
  }

  /** The items of a repair carry its kind and attempt. */
  function Stamp(request: PlanRequest, item: WorkItem): WorkItem {
    if request.feedback then item.(kind := Repair, attempt := request.attempt) else item
  }

  ghost function StampAll(request: PlanRequest, items: seq<WorkItem>): seq<WorkItem> {
    seq(|items|, i requires 0 <= i < |items| => Stamp(request, items[i]))
  }

  ghost predicate IsResult(request: PlanRequest, plan: ChangePlan, result: PlanChangeResult) {
    && result.riskLevel == ClassifyRisk(FinalFlags(request, plan))
    && result.plannedFiles == plan.files
    && result.workItems == StampAll(request, ItemsOf(plan))
    && result.scopeExpansionPaths == SortSet(Extra(request, plan))
    && result.waves == WavesOf(plan, result.workItems, MAX_CONCURRENCY)
  }

  // ---------------------------------------------------------------- the activity

  method PlanChange(request: PlanRequest, modelPlan: ChangePlan) returns (result: Result<PlanChangeResult, PlanError>)
    ensures result.Ok? <==> Acceptable(request, modelPlan)
    ensures result.Ok? ==> IsResult(request, modelPlan, result.value)
  {
    var scope := RepairScope(request);
    if scope.Err? {
      return Err(scope.error);
    }
    var error := ValidateChangePlan(modelPlan);
    if error.Some? {
      return Err(error.value);
    }
    ShapeByParts(modelPlan);
    var flagged := AddInferredRiskFlags(modelPlan);
    var plan := flagged.value;
    var expansion: seq<string> := [];
    if request.feedback {
      var scoped := ApplyScope(request, modelPlan, plan, scope.value.0, scope.value.1);
      if scoped.Err? {
        return Err(scoped.error);
      }
      plan, expansion := scoped.value.0, scoped.value.1;
    }
    result := ScheduleAccepted(request, modelPlan, plan, expansion);
  }

  /** The allowed and the existing paths of a repair, in normal form. */
  method RepairScope(request: PlanRequest) returns (result: Result<(set<string>, set<string>), PlanError>)
    ensures result.Ok? <==> RequestOk(request)
    ensures result.Ok? && request.feedback ==>
              result.value == (NormalSet(request.allowedRepairPaths), NormalSet(request.archive))
  {
    if !request.feedback {
      return if request.allowedRepairPaths != [] then Err(PathsNeedFeedback) else Ok(({}, {}));
    }
    if request.allowedRepairPaths == [] || request.attempt < 2 {
      return Err(RepairNeedsPriorPaths);
    }
    var allowed := NormalizeAll(request.allowedRepairPaths);
    if allowed.None? {
      return Err(BadPath);
    }
    var existing := NormalizeAll(request.archive);
    if existing.None? {
      return Err(BadArchive);
    }
    ListedPaths(request.allowedRepairPaths, allowed.value);
    ListedPaths(request.archive, existing.value);
    return Ok((set p | p in allowed.value, set p | p in existing.value));
  }

  method ApplyScope(request: PlanRequest, ghost modelPlan: ChangePlan, flagged: ChangePlan, allowed: set<string>, existing: set<string>)
    returns (result: Result<(ChangePlan, seq<string>), PlanError>)
    requires request.feedback
    requires allowed == NormalSet(request.allowedRepairPaths) && existing == NormalSet(request.archive)
    requires flagged == modelPlan.(riskFlags := modelPlan.riskFlags + InferredFlags(modelPlan.files))
    ensures result.Ok? <==> ExpansionOk(request, modelPlan) && TargetsOk(request, modelPlan)
    ensures result.Ok? ==> result.value.0 == modelPlan.(riskFlags := FinalFlags(request, modelPlan))
    ensures result.Ok? ==> result.value.1 == SortSet(Extra(request, modelPlan))
  {
    var plan, expansion := flagged, [];
    var extra := ExtraFiles(plan.files, allowed);
    assert extra == Extra(request, modelPlan);
    if extra != {} {
      var refused := CheckExpansion(request, flagged, extra);
      if refused.Some? {
        return Err(refused.value);
      }
      expansion := SortSet(extra);
      plan := plan.(riskFlags := plan.riskFlags + {LargeScope});
    }
    var error := CheckTargets(plan.files, existing);
    if error.Some? {
      return Err(error.value);
    }
    return Ok((plan, expansion));
  }

  method CheckExpansion(request: PlanRequest, plan: ChangePlan, extra: set<string>) returns (error: Option<PlanError>)
    ensures error.None? <==>
              && request.allowScopeExpansion && |extra| <= MAX_EXPANSION
              && plan.scopeExpansionReason.Some? && !Blank(plan.scopeExpansionReason.value)
  {
    if !request.allowScopeExpansion {
      return Some(OutsideScope);
    }
    if |extra| > MAX_EXPANSION {
      return Some(ScopeTooWide);
    }
    if plan.scopeExpansionReason.None? || Blank(plan.scopeExpansionReason.value) {
      return Some(NoExpansionReason);
    }
    return None;
  }

  method ExtraFiles(files: seq<PlannedFile>, allowed: set<string>) returns (extra: set<string>)
    ensures extra == NormalPaths(files) - allowed
  {
    extra := {};
    for i := 0 to |files|
      invariant extra == NormalPaths(files[..i]) - allowed
    {
      assert files[..i + 1] == files[..i] + [files[i]];
      FilesGrow(files[..i], files[i]);
      if PathOf(files[i].path) !in allowed {
        extra := extra + {PathOf(files[i].path)};
      }
    }
    assert files[..|files|] == files;
  }

  ghost predicate AllTargetsOk(existing: set<string>, files: seq<PlannedFile>) {
    forall f :: f in files ==> TargetOk(existing, f)
  }

  method CheckTargets(files: seq<PlannedFile>, existing: set<string>) returns (error: Option<PlanError>)
    ensures error.None? <==> AllTargetsOk(existing, files)
  {
    for i := 0 to |files|
      invariant AllTargetsOk(existing, files[..i])
    {
      assert files[i] in files && files[..i + 1] == files[..i] + [files[i]];
      var path := PathOf(files[i].path);
      if files[i].operation == Create && path in existing {
        return Some(CreateExists);
      }
      if files[i].operation in {Modify, Delete} && path !in existing {
        return Some(TargetMissing);
      }
    }
    assert files[..|files|] == files;
    return None;
  }

  method ScheduleAccepted(request: PlanRequest, ghost modelPlan: ChangePlan, plan: ChangePlan, expansion: seq<string>)
    returns (result: Result<PlanChangeResult, PlanError>)
    requires PlanOk(modelPlan) && plan == modelPlan.(riskFlags := FinalFlags(request, modelPlan))
    requires expansion == SortSet(Extra(request, modelPlan))
    ensures result.Ok? <==> NoDeletedInterface(modelPlan)
    ensures result.Ok? ==> IsResult(request, modelPlan, result.value)
  {
    FlagsDoNotMatter(modelPlan, plan);
    var materialized := MaterializeWorkItems(plan);
    var items := StampItems(request, materialized.value);
    StampedPlansSchedule(request, plan);
    var schedule := BuildSchedule(plan, items, MAX_CONCURRENCY);
    if schedule.Err? {
      return Err(schedule.error);
    }
    ScheduleIsCanonical(modelPlan, plan, items, items, MAX_CONCURRENCY);
    return Ok(PlanChangeResult(ClassifyRisk(plan.riskFlags), plan.files, items, schedule.value.waves, expansion));
  }

  method StampItems(request: PlanRequest, items: seq<WorkItem>) returns (stamped: seq<WorkItem>)
    ensures stamped == StampAll(request, items)
  {
    stamped := [];
    for i := 0 to |items|
      invariant stamped == StampAll(request, items)[..i]
    {
      stamped := stamped + [Stamp(request, items[i])];
    }
  }

  lemma FlagsDoNotMatter(p: ChangePlan, q: ChangePlan)
    requires q == p.(riskFlags := q.riskFlags)
    ensures SamePlan(p, q)
    ensures PlanOk(p) <==> PlanOk(q)
    ensures PlanOk(p) ==> ItemsOf(p) == ItemsOf(q)
    ensures NoDeletedInterface(p) <==> NoDeletedInterface(q)
  {
    ItemsAreCanonical(p, q);
  }

  lemma StampedIds(request: PlanRequest, items: seq<WorkItem>)
    ensures IdsOf(StampAll(request, items)) == IdsOf(items)
  {
    var stamped := StampAll(request, items);
    forall item | item in items ensures item.id in IdsOf(stamped) {
      var i :| 0 <= i < |items| && items[i] == item;
      assert stamped[i] in stamped;
    }
    forall item | item in stamped ensures item.id in IdsOf(items) {
      var i :| 0 <= i < |stamped| && stamped[i] == item;
      assert items[i] in items;
    }
  }

  lemma StampedMatch(request: PlanRequest, plan: ChangePlan, items: seq<WorkItem>)
    requires ItemsMatch(plan, items)
    ensures ItemsMatch(plan, StampAll(request, items))
  {
    var stamped := StampAll(request, items);
    StampedIds(request, items);
    forall f | f in plan.files ensures FileHasItem(stamped, f) {
      var item :| item in items && item.id == f.workItem && item.owner == f.owner;
      var i :| 0 <= i < |items| && items[i] == item;
      assert stamped[i] in stamped;
    }
    forall item | item in stamped ensures ItemMatches(plan, item) {
      var i :| 0 <= i < |stamped| && stamped[i] == item;
      assert items[i] in items && ItemMatches(plan, items[i]);
    }
  }

  lemma StampedPlansSchedule(request: PlanRequest, plan: ChangePlan)
    requires PlanOk(plan)
    ensures Schedulable(plan, StampAll(request, ItemsOf(plan))) <==> NoDeletedInterface(plan)
  {
    MaterializedItemsMatch(plan);
    StampedMatch(request, plan, ItemsOf(plan));
  }

  // ---------------------------------------------------------------- what the workflow relies on

  /**
   An accepted repair stays within the allowed paths and at most three declared new ones, and
   declaring any raises the risk to at least medium.
   */
  lemma RepairStaysInScope(request: PlanRequest, plan: ChangePlan, result: PlanChangeResult)
    requires request.feedback && Acceptable(request, plan) && IsResult(request, plan, result)
    ensures NormalPaths(result.plannedFiles) <= NormalSet(request.allowedRepairPaths) + Elements(result.scopeExpansionPaths)
    ensures |result.scopeExpansionPaths| <= MAX_EXPANSION
    ensures result.scopeExpansionPaths != [] ==> request.allowScopeExpansion && result.riskLevel.Rank() >= 1
    ensures NormalSet(result.scopeExpansionPaths) == Elements(result.scopeExpansionPaths)
    ensures AllAccepted(result.scopeExpansionPaths)
  {
    var extra := Extra(request, plan);
    SortSetFacts(extra);
    EmptyElements(result.scopeExpansionPaths);
    ExpansionRaisesRisk(request, plan);
    ExpansionIsNormal(plan.files, result.scopeExpansionPaths);
  }

  lemma ExpansionRaisesRisk(request: PlanRequest, plan: ChangePlan)
    ensures Extra(request, plan) != {} ==> ClassifyRisk(FinalFlags(request, plan)).Rank() >= 1
  {
    assert Extra(request, plan) != {} ==> LargeScope in FinalFlags(request, plan) * MEDIUM_RISK_FLAGS;
  }

  lemma ExpansionIsNormal(files: seq<PlannedFile>, paths: seq<string>)
    requires forall f :: f in files ==> FileOk(f)
    requires Elements(paths) <= NormalPaths(files)
    ensures NormalSet(paths) == Elements(paths) && AllAccepted(paths)
  {
    forall p | p in paths ensures NormalizePlanPath(p) == Some(p) && PathOf(p) == p {
      assert p in Elements(paths);
      NormalPathsAreNormal(files, p);
    }
    SelfImage(paths, Elements(paths));
  }

  lemma NormalPathsAreNormal(files: seq<PlannedFile>, p: string)
    requires (forall f :: f in files ==> FileOk(f)) && p in NormalPaths(files)
    ensures NormalizePlanPath(p) == Some(p) && PathOf(p) == p
  {
    var f :| f in files && PathOf(f.path) == p;
    assert FileOk(f);
    PlanPathNormalForm(f.path);
  }

  /** The risk an accepted plan reports covers what its paths make obvious. */
  lemma ReportedRiskCoversPaths(request: PlanRequest, plan: ChangePlan, result: PlanChangeResult)
    requires IsResult(request, plan, result)
    ensures TouchesManifest(plan.files) || TouchesWorkflow(plan.files) || |plan.files| >= 10 ==> result.riskLevel.Rank() >= 1
    ensures ClassifyRisk(plan.riskFlags).Rank() <= result.riskLevel.Rank()
  {
    MoreFlagsMoreApprovals(plan.riskFlags, FinalFlags(request, plan), RiskBased);
    MoreFlagsMoreApprovals(InferredFlags(plan.files), FinalFlags(request, plan), RiskBased);
    InferredRisk(TouchesManifest(plan.files), TouchesWorkflow(plan.files), |plan.files|);
  }

  lemma InferredRisk(manifest: bool, workflow: bool, count: nat)
    ensures manifest || workflow || count >= 10 ==> ClassifyRisk(FlagsFor(manifest, workflow, count)).Rank() >= 1
  {
    var medium := FlagsFor(manifest, workflow, count) * MEDIUM_RISK_FLAGS;
    assert manifest ==> DependencyChange in medium;
    assert workflow ==> CiConfig in medium;
    assert count >= 10 ==> LargeScope in medium;
  }

  /** What a work item says about the plan it was made from. */
  ghost predicate SaysThePlan(request: PlanRequest, plan: ChangePlan, item: WorkItem) {
    && (if request.feedback then item.kind.Repair? && item.attempt == request.attempt else item.kind.Code? && item.attempt == 1)
    && (forall path :: path in item.allowedWritePaths <==>
          exists f :: f in plan.files && f.workItem == item.id && PathOf(f.path) == path)
    && (forall path :: path in item.readPaths <==>
          || path in item.allowedWritePaths
          || exists f, q :: f in plan.files && f.workItem == item.id && q in f.requiredInterfaces && PathOf(q) == path)
    && (forall id :: id in item.dependencies <==> (id, item.id) in plan.dependencyEdges)
    && (forall f :: f in plan.files && f.workItem == item.id ==> f.owner == item.owner)
    && StrictlySorted(item.allowedWritePaths) && StrictlySorted(item.readPaths) && StrictlySorted(item.dependencies)
  }

  lemma SortedMembers(s: set<string>)
    ensures StrictlySorted(SortSet(s)) && forall x :: x in SortSet(s) <==> x in s
  {
    SortSetFacts(s);
    forall x ensures x in SortSet(s) <==> x in s {
      assert x in SortSet(s) <==> x in Elements(SortSet(s));
    }
  }

  /** Every item of an accepted planning result says what the plan says, and the items are the plan's, in order. */
  lemma ItemsSayThePlan(request: PlanRequest, plan: ChangePlan, result: PlanChangeResult, item: WorkItem)
    requires Acceptable(request, plan) && IsResult(request, plan, result) && item in result.workItems
    ensures SaysThePlan(request, plan, item)
  {
    var i :| 0 <= i < |result.workItems| && result.workItems[i] == item;
    var made := ItemsOf(plan)[i];
    assert item == Stamp(request, made) && made in ItemsOf(plan);
    ItemComesFrom(plan, made);
    SortedMembers(Upstreams(PlanGraph(plan), item.id));
    SortedMembers(WritePaths(plan.files, item.id));
    SortedMembers(RequiredPaths(plan.files, item.id) + WritePaths(plan.files, item.id));
  }
}
