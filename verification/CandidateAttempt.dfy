/**
 One candidate attempt: wave by wave, every item of the wave is developed against the head at the
 wave's start, and then the proposals are integrated one after the other.
 */
module CandidateAttempt {
  import opened Outcomes
  import opened Ordering
  import opened Dag
  import opened Plans
  import opened Scheduler
  import opened ScheduleLaws
  import opened Workspace
  import opened Developer
  import opened Integration
  import P = Planning

  datatype AttemptError = NotDeveloped(developer: DeveloperError) | NotIntegrated(integration: IntegrationError)

  type Done = map<Node, Proposal>

  // ---------------------------------------------------------------- the tree so far

  ghost predicate TouchedBy(done: Done, path: string) {
    exists id :: id in done && path in done[id].patch.changes
  }

  /** The start overlaid with every integrated edit. */
  ghost predicate OverlaidBy(codec: Codec, start: Tree, done: Done, head: Tree) {
    && (forall id, path :: id in done && path in done[id].patch.changes ==>
          Lookup(head, path) == Encoded(codec, done[id].patch.changes[path].after))
    && (forall path :: !TouchedBy(done, path) ==> Lookup(head, path) == Lookup(start, path))
  }

  /** Every proposal changes only paths that the plan gives to its item. */
  ghost predicate Owned(plan: ChangePlan, done: Done) {
    forall id :: id in done ==> done[id].item == id && done[id].patch.changes.Keys <= WritePaths(plan.files, id)
  }

  lemma OthersDoNotTouch(plan: ChangePlan, done: Done, id: Node, path: string)
    requires |NormalPaths(plan.files)| == |plan.files| && Owned(plan, done) && id !in done && path in WritePaths(plan.files, id)
    ensures !TouchedBy(done, path)
  {
    forall other | other in done ensures path !in done[other].patch.changes {
      OwnershipIsDisjoint(plan, id, other);
      assert path in done[other].patch.changes.Keys ==> path in WritePaths(plan.files, other);
    }
  }

  lemma StillUntouched(plan: ChangePlan, codec: Codec, start: Tree, before: Done, input: Tree, done: Done, head: Tree, p: Proposal)
    requires |NormalPaths(plan.files)| == |plan.files| && Owned(plan, before) && Owned(plan, done)
    requires OverlaidBy(codec, start, before, input) && OverlaidBy(codec, start, done, head)
    requires p.item !in before && p.item !in done && p.input == input && p.patch.changes.Keys <= WritePaths(plan.files, p.item)
    ensures Untouched(head, p)
  {
    forall path | path in p.patch.changes ensures Lookup(head, path) == Lookup(input, path) {
      assert path in p.patch.changes.Keys;
      OthersDoNotTouch(plan, before, p.item, path);
      OthersDoNotTouch(plan, done, p.item, path);
    }
  }

  lemma OverlaidMore(plan: ChangePlan, codec: Codec, start: Tree, done: Done, head: Tree, p: Proposal)
    requires |NormalPaths(plan.files)| == |plan.files| && Owned(plan, done) && OverlaidBy(codec, start, done, head)
    requires p.item !in done && p.patch.changes.Keys <= WritePaths(plan.files, p.item)
    ensures Owned(plan, done[p.item := p]) && OverlaidBy(codec, start, done[p.item := p], Overlay(codec, head, p.patch.changes))
  {
    var done', head' := done[p.item := p], Overlay(codec, head, p.patch.changes);
    forall id, path | id in done' && path in done'[id].patch.changes
      ensures Lookup(head', path) == Encoded(codec, done'[id].patch.changes[path].after)
    {
      OverlayAt(codec, head, p.patch.changes, path);
      if id != p.item && path in p.patch.changes.Keys {
        OthersDoNotTouch(plan, done, p.item, path);
        assert TouchedBy(done, path);
      }
    }
    forall path | !TouchedBy(done', path) ensures Lookup(head', path) == Lookup(start, path) {
      OverlayAt(codec, head, p.patch.changes, path);
      assert p.item in done' && done'[p.item] == p;
      forall id | id in done ensures path !in done[id].patch.changes {
        assert done'[id] == done[id];
      }
    }
  }

  /** The tree after an attempt is determined by what was integrated, whatever the order. */
  lemma AttemptIsDeterminate(codec: Codec, start: Tree, done: Done, a: Tree, b: Tree)
    requires OverlaidBy(codec, start, done, a) && OverlaidBy(codec, start, done, b)
    ensures a == b
  {
    forall path ensures Lookup(a, path) == Lookup(b, path) {
      if id :| id in done && path in done[id].patch.changes {
        assert Lookup(a, path) == Encoded(codec, done[id].patch.changes[path].after);
      } else {
        assert !TouchedBy(done, path);
      }
    }
    SameLookups(a, b);
  }

  // ---------------------------------------------------------------- lookups

  ghost predicate FilesById(files: seq<PlannedFile>, byId: map<Node, seq<PlannedFile>>) {
    && byId.Keys == ItemIds(files)
    && forall id, f :: id in byId ==> (f in byId[id] <==> f in files && f.workItem == id)
  }

  method GroupFiles(files: seq<PlannedFile>) returns (byId: map<Node, seq<PlannedFile>>)
    ensures FilesById(files, byId)
  {
    byId := map[];
    for i := 0 to |files|
      invariant FilesById(files[..i], byId)
    {
      var f := files[i];
      assert files[..i + 1] == files[..i] + [f];
      byId := byId[f.workItem := (if f.workItem in byId then byId[f.workItem] else []) + [f]];
    }
    assert files[..|files|] == files;
  }

  // ---------------------------------------------------------------- one wave

  /** The proposals of the upstream items: every lookup finds one. */
  method Upstream(item: WorkItem, integrated: Done) returns (proposals: seq<Proposal>)
    requires Elements(item.dependencies) <= integrated.Keys
    ensures |proposals| == |item.dependencies|
    ensures forall i :: 0 <= i < |proposals| ==> proposals[i] == integrated[item.dependencies[i]]
  {
    proposals := [];
    for i := 0 to |item.dependencies|
      invariant |proposals| == i && forall k :: 0 <= k < i ==> proposals[k] == integrated[item.dependencies[k]]
    {
      assert item.dependencies[i] in Elements(item.dependencies);
      proposals := proposals + [integrated[item.dependencies[i]]];
    }
  }

  /** A proposal of the item; the plain developer's changes every planned file. */
  ghost predicate Fits(agentMode: bool, item: WorkItem, input: Tree, files: seq<PlannedFile>, p: Proposal) {
    IsProposal(item, input, p) && FollowsPlan(p, files) && (!agentMode ==> p.patch.changes.Keys == NormalPaths(files))
  }

  /** Either developer, with whatever its model answers or its agent does. */
  method Develop(codec: Codec, agentMode: bool, item: WorkItem, input: Tree, files: seq<PlannedFile>, allowDependencies: bool)
    returns (r: Result<Proposal, DeveloperError>)
    requires codec.Lossless()
    ensures r.Ok? ==> Fits(agentMode, item, input, files, r.value)
  {
    var rendering: Rendering := *;
    if agentMode {
      var ops: seq<Op> := *;
      r := DevelopPatchWithAgent(codec, item, input, files, allowDependencies, ops, rendering);
    } else {
      var first: Edit, rest: seq<Edit> := *, *;
      r := DevelopPatch(codec, item, input, files, allowDependencies, [first] + rest, rendering);
    }
  }

  /** What the attempt works on: a developer, a schedulable plan, its items by id, and its files by item. */
  datatype Job = Job(agentMode: bool, plan: ChangePlan, items: map<Node, WorkItem>, files: map<Node, seq<PlannedFile>>)

  ghost predicate ValidJob(job: Job) {
    && PlanOk(job.plan) && FilesById(job.plan.files, job.files) && job.items.Keys == job.files.Keys
    && forall id :: id in job.items ==> job.items[id].id == id
  }

  /** The attempt so far: who is integrated, and the head they make. */
  ghost predicate Progress(job: Job, codec: Codec, start: Tree, done: Done, head: Tree) {
    Owned(job.plan, done) && OverlaidBy(codec, start, done, head) && NoneCreates(done) && NonePlannedToCreate(job, done)
  }

  ghost predicate NoneCreates(done: Done) {
    forall id :: id in done ==> !Creates(done[id])
  }

  /** With the plain developer, no integrated item has a file to create. */
  ghost predicate NonePlannedToCreate(job: Job, done: Done) {
    !job.agentMode ==> forall f :: f in job.plan.files && f.workItem in done ==> !f.operation.Create?
  }

  ghost predicate FitsAt(job: Job, input: Tree, id: Node, p: Proposal) {
    id in job.items && id in job.files && Fits(job.agentMode, job.items[id], input, job.files[id], p)
  }

  lemma FitsItsPaths(job: Job, id: Node, input: Tree, p: Proposal)
    requires ValidJob(job) && FitsAt(job, input, id, p)
    ensures p.item == id && p.input == input && p.patch.changes.Keys <= WritePaths(job.plan.files, id)
  {
    forall path | path in p.patch.changes.Keys ensures path in WritePaths(job.plan.files, id) {
      var f :| f in job.files[id] && FilePath(f) == Some(path);
      assert f in job.plan.files && f.workItem == id && PathOf(f.path) == path;
    }
  }

  /** The plain developer must create what the plan creates, and integration refuses that. */
  lemma PlannedCreationIsRefused(job: Job, id: Node, input: Tree, p: Proposal, f: PlannedFile)
    requires ValidJob(job) && FitsAt(job, input, id, p) && !job.agentMode
    requires f in job.plan.files && f.workItem == id && f.operation.Create?
    ensures Creates(p)
  {
    var path := PathOf(f.path);
    assert f in job.files[id] && path in NormalPaths(job.files[id]);
    var g := PlannedChange(p, job.files[id], path);
    OneFilePerPath(job.plan.files, f, g);
  }

  lemma PlannedChange(p: Proposal, files: seq<PlannedFile>, path: string) returns (f: PlannedFile)
    requires FollowsPlan(p, files) && path in p.patch.changes
    ensures f in files && PathOf(f.path) == path && (p.patch.changes[path].before.None? <==> f.operation.Create?)
  {
    f :| f in files && FilePath(f) == Some(path) && (p.patch.changes[path].before.None? <==> f.operation.Create?);
  }

  lemma OneFilePerPath(files: seq<PlannedFile>, f: PlannedFile, g: PlannedFile)
    requires |NormalPaths(files)| == |files| && f in files && g in files && PathOf(f.path) == PathOf(g.path)
    ensures f == g
  {
    PathsAreUnique(files);
    var i :| 0 <= i < |files| && files[i] == f;
    var j :| 0 <= j < |files| && files[j] == g;
    assert !(i < j) && !(j < i);
  }

  lemma StillNoneCreates(job: Job, integrated: Done, id: Node, p: Proposal)
    requires ValidJob(job) && FitsAt(job, p.input, id, p) && !Creates(p)
    requires NoneCreates(integrated) && NonePlannedToCreate(job, integrated)
    ensures NoneCreates(integrated[id := p]) && NonePlannedToCreate(job, integrated[id := p])
  {
    if !job.agentMode {
      forall f | f in job.plan.files && f.workItem == id ensures !f.operation.Create? {
        if f.operation.Create? {
          PlannedCreationIsRefused(job, id, p.input, p, f);
        }
      }
    }
  }

  lemma PassingCreatesNothing(host: Host, item: WorkItem, p: Proposal, allowed: seq<string>, deps: bool)
    requires host.codec.Lossless() && IsProposal(item, p.input, p) && Passes(host, p, allowed, deps)
    ensures !Creates(p)
  {
    CreatingIsRefused(host, item, p);
  }

  /** Accepting a proposal that passes its checks is progress. */
  lemma AcceptanceIsProgress(host: Host, job: Job, start: Tree, integrated: Done, head: Tree, id: Node, p: Proposal, deps: bool)
    requires ValidJob(job) && host.codec.Lossless() && FitsAt(job, p.input, id, p) && id !in integrated
    requires Progress(job, host.codec, start, integrated, head) && Passes(host, p, job.items[id].allowedWritePaths, deps)
    ensures Progress(job, host.codec, start, integrated[id := p], Overlay(host.codec, head, p.patch.changes))
  {
    FitsItsPaths(job, id, p.input, p);
    PassingCreatesNothing(host, job.items[id], p, job.items[id].allowedWritePaths, deps);
    StillNoneCreates(job, integrated, id, p);
    OverlaidMore(job.plan, host.codec, start, integrated, head, p);
  }

  /**
   A proposal of a wave that began at `input`: if it passes its checks it is accepted, whatever
   of the wave is integrated already, and the head gains exactly its changes.
   */
  lemma AcceptedInItsWave(host: Host, job: Job, start: Tree, before: Done, input: Tree, integrated: Done, head: Tree,
                          id: Node, p: Proposal, deps: bool)
    requires ValidJob(job) && host.codec.Lossless() && FitsAt(job, input, id, p) && id !in integrated && id !in before
    requires Owned(job.plan, before) && OverlaidBy(host.codec, start, before, input)
    requires Progress(job, host.codec, start, integrated, head)
    ensures Integrated(host, head, p, job.items[id].allowedWritePaths, deps) ==
              if Passes(host, p, job.items[id].allowedWritePaths, deps) then Some(Overlay(host.codec, head, p.patch.changes)) else None
  {
    if Passes(host, p, job.items[id].allowedWritePaths, deps) {
      FitsItsPaths(job, id, input, p);
      StillUntouched(job.plan, host.codec, start, before, input, integrated, head, p);
      AcceptedWithoutConflict(host, job.items[id], head, p, job.items[id].allowedWritePaths, deps);
    }
  }

  ghost predicate UpstreamDone(job: Job, integrated: set<Node>, id: Node) {
    id in job.items && Elements(job.items[id].dependencies) <= integrated
  }

  ghost predicate WaveReady(job: Job, integrated: set<Node>, wave: seq<Node>) {
    forall i :: 0 <= i < |wave| ==> UpstreamDone(job, integrated, wave[i])
  }

  /** `good` relates the two lists place by place, as far as the second goes. */
  ghost predicate Paired<A, B>(good: (A, B) -> bool, xs: seq<A>, ys: seq<B>) {
    |ys| <= |xs| && forall i :: 0 <= i < |ys| ==> good(xs[i], ys[i])
  }

  lemma PairedGrows<A, B>(good: (A, B) -> bool, xs: seq<A>, ys: seq<B>, y: B)
    requires Paired(good, xs, ys) && |ys| < |xs| && good(xs[|ys|], y)
    ensures Paired(good, xs, ys + [y])
  {
  }

  ghost predicate WaveProposals(job: Job, input: Tree, wave: seq<Node>, ps: seq<Proposal>) {
    Paired((id, p) => FitsAt(job, input, id, p), wave, ps)
  }

  method DevelopOne(service: RepositoryService, job: Job, integrated: Done, id: Node, allowDependencies: bool)
    returns (r: Result<Proposal, DeveloperError>)
    requires ValidJob(job) && service.host.codec.Lossless() && UpstreamDone(job, integrated.Keys, id)
    ensures r.Ok? ==> FitsAt(job, service.head, id, r.value)
  {
    var _ := Upstream(job.items[id], integrated);
    var input := service.CreateDeveloperContext();
    r := Develop(service.host.codec, job.agentMode, job.items[id], input, job.files[id], allowDependencies);
  }

  lemma WaveGrows(job: Job, input: Tree, wave: seq<Node>, ps: seq<Proposal>, p: Proposal)
    requires WaveProposals(job, input, wave, ps) && |ps| < |wave| && FitsAt(job, input, wave[|ps|], p)
    ensures WaveProposals(job, input, wave, ps + [p])
  {
    PairedGrows((id, q) => FitsAt(job, input, id, q), wave, ps, p);
  }

  /** Contexts and proposals of a wave: all from the same head, which developing does not move. */
  method DevelopWave(service: RepositoryService, job: Job, integrated: Done, wave: seq<Node>, allowDependencies: bool)
    returns (r: Result<seq<Proposal>, DeveloperError>)
    requires ValidJob(job) && service.host.codec.Lossless() && WaveReady(job, integrated.Keys, wave)
    ensures r.Ok? ==> |r.value| == |wave| && WaveProposals(job, service.head, wave, r.value)
  {
    var proposals: seq<Proposal> := [];
    for i := 0 to |wave|
      invariant |proposals| == i && WaveProposals(job, service.head, wave, proposals)
    {
      var p :- DevelopOne(service, job, integrated, wave[i], allowDependencies);
      WaveGrows(job, service.head, wave, proposals, p);
      proposals := proposals + [p];
    }
    return Ok(proposals);
  }

  /** The proposals of a wave change disjoint files, because the plan gives each item files of its own. */
  lemma WaveIsOneWave(job: Job, input: Tree, wave: seq<Node>, ps: seq<Proposal>)
    requires ValidJob(job) && Distinct(wave) && |ps| == |wave| && WaveProposals(job, input, wave, ps)
    ensures OneWave(input, ps, job.items)
  {
    forall i | 0 <= i < |ps|
      ensures ps[i].item == wave[i] && wave[i] in job.items && IsProposal(job.items[wave[i]], input, ps[i])
      ensures ps[i].patch.changes.Keys <= WritePaths(job.plan.files, wave[i])
    {
      ProposalAt(job, input, wave, ps, i);
      FitsItsPaths(job, wave[i], input, ps[i]);
    }
    forall i, j | 0 <= i < j < |ps| ensures ps[i].patch.changes.Keys !! ps[j].patch.changes.Keys {
      OwnershipIsDisjoint(job.plan, wave[i], wave[j]);
    }
  }

  /** The first `i` proposals of a wave are integrated, on top of what was before it. */
  ghost predicate WaveAt(job: Job, codec: Codec, start: Tree, before: Done, wave: seq<Node>, i: nat, done: Done, head: Tree) {
    Progress(job, codec, start, done, head) && i <= |wave| && done.Keys == before.Keys + Elements(wave[..i])
  }

  lemma WaveStep(wave: seq<Node>, i: nat)
    requires Distinct(wave) && i < |wave|
    ensures wave[i] in Elements(wave) && wave[i] !in Elements(wave[..i])
    ensures Elements(wave[..i + 1]) == Elements(wave[..i]) + {wave[i]}
  {
  }

  ghost predicate NewWave(before: set<Node>, wave: seq<Node>) {
    Distinct(wave) && Elements(wave) !! before
  }

  lemma WaveAdvances(host: Host, job: Job, start: Tree, before: Done, input: Tree, wave: seq<Node>, proposals: seq<Proposal>, i: nat,
                     done: Done, head: Tree, deps: bool)
    requires ValidJob(job) && host.codec.Lossless() && NewWave(before.Keys, wave)
    requires i < |proposals| && WaveProposals(job, input, wave, proposals)
    requires WaveAt(job, host.codec, start, before, wave, 0, before, input)
    requires WaveAt(job, host.codec, start, before, wave, i, done, head)
    ensures wave[i] in job.items && proposals[i].item == wave[i]
    ensures var p, allowed := proposals[i], job.items[wave[i]].allowedWritePaths;
            && (Integrated(host, head, p, allowed, deps).Some? <==> Passes(host, p, allowed, deps))
            && (Passes(host, p, allowed, deps) ==>
                  WaveAt(job, host.codec, start, before, wave, i + 1, done[wave[i] := p], Integrated(host, head, p, allowed, deps).value))
  {
    WaveKeys(before, wave, i, done, proposals[i]);
    ProposalAt(job, input, wave, proposals, i);
    FitsItsPaths(job, wave[i], input, proposals[i]);
    AcceptedInItsWave(host, job, start, before, input, done, head, wave[i], proposals[i], deps);
    if Passes(host, proposals[i], job.items[wave[i]].allowedWritePaths, deps) {
      AcceptanceIsProgress(host, job, start, done, head, wave[i], proposals[i], deps);
    }
  }

  lemma WaveKeys(before: Done, wave: seq<Node>, i: nat, done: Done, p: Proposal)
    requires NewWave(before.Keys, wave) && i < |wave| && done.Keys == before.Keys + Elements(wave[..i])
    ensures wave[i] !in done && wave[i] !in before
    ensures done[wave[i] := p].Keys == before.Keys + Elements(wave[..i + 1])
  {
    WaveStep(wave, i);
  }

  lemma ProposalAt(job: Job, input: Tree, wave: seq<Node>, proposals: seq<Proposal>, i: nat)
    requires i < |proposals| && WaveProposals(job, input, wave, proposals)
    ensures FitsAt(job, input, wave[i], proposals[i])
  {
  }

  ghost predicate FailsItsChecks(host: Host, job: Job, wave: seq<Node>, proposals: seq<Proposal>, i: nat, deps: bool) {
    && i < |proposals| && i < |wave| && wave[i] in job.items
    && !Passes(host, proposals[i], job.items[wave[i]].allowedWritePaths, deps)
  }

  /** Why integrating a wave's proposal fails: its own checks, a service that stopped, or a result that was lost. */
  ghost predicate Excused(host: Host, job: Job, wave: seq<Node>, proposals: seq<Proposal>, i: nat, deps: bool,
                          error: IntegrationError, lost: int) {
    && (FailsItsChecks(host, job, wave, proposals, i, deps) || error == Stopped || lost == 1)
    && (error == Conflict ==> lost == 1)
  }

  ghost predicate Onward(host: Host, items: map<Node, WorkItem>, p: Proposal, deps: bool, head: Tree, next: Tree) {
    p.item in items && Integrated(host, head, p, items[p.item].allowedWritePaths, deps) == Some(next)
  }

  /** Integrate one proposal of a wave. */
  method IntegrateOne(service: RepositoryService, job: Job, ghost start: Tree, ghost before: Done, ghost input: Tree, wave: seq<Node>,
                      proposals: seq<Proposal>, i: nat, done: Done, allowDependencies: bool) returns (r: Result<Done, IntegrationError>)
    requires ValidJob(job) && service.host.codec.Lossless() && NewWave(before.Keys, wave)
    requires i < |proposals| && WaveProposals(job, input, wave, proposals)
    requires WaveAt(job, service.host.codec, start, before, wave, 0, before, input)
    requires WaveAt(job, service.host.codec, start, before, wave, i, done, service.head)
    modifies service
    ensures r.Ok? ==> WaveAt(job, service.host.codec, start, before, wave, i + 1, r.value, service.head)
    ensures r.Ok? ==> service.commits == old(service.commits) + 1 && service.lost == old(service.lost)
    ensures service.lost == old(service.lost) || service.lost == old(service.lost) + 1
    ensures r.Err? && service.lost == old(service.lost) ==> service.head == old(service.head)
    ensures r.Ok? || service.lost != old(service.lost) ==>
              Onward(service.host, job.items, proposals[i], allowDependencies, old(service.head), service.head)
    ensures r.Err? ==>
              Excused(service.host, job, wave, proposals, i, allowDependencies, r.error, service.lost - old(service.lost))
  {
    WaveAdvances(service.host, job, start, before, input, wave, proposals, i, done, service.head, allowDependencies);
    var first: Course, second: Course, third: Course := *, *, *;
    var answer := service.IntegrateWithRetries(proposals[i], job.items[wave[i]].allowedWritePaths, allowDependencies, [first, second, third]);
    if answer.Err? {
      return Err(answer.error);
    }
    return Ok(done[wave[i] := proposals[i]]);
  }

  /** The head is what integrating the proposals in their order makes of `input`. */
  ghost predicate HeadIs(host: Host, input: Tree, ps: seq<Proposal>, items: map<Node, WorkItem>, deps: bool, head: Tree) {
    (forall p :: p in ps ==> p.item in items) && IntegrateAll(host, input, ps, items, deps) == Some(head)
  }

  lemma HeadAdvances(host: Host, items: map<Node, WorkItem>, input: Tree, ps: seq<Proposal>, i: nat, deps: bool, head: Tree, next: Tree)
    requires i < |ps| && HeadIs(host, input, ps[..i], items, deps, head) && Onward(host, items, ps[i], deps, head, next)
    ensures HeadIs(host, input, ps[..i + 1], items, deps, next)
  {
    assert ps[..i + 1] == ps[..i] + [ps[i]];
    IntegrateOneMore(host, input, ps[..i], ps[i], items, deps);
  }

  /**
   One after the other, up to the first that fails. The head holds the first `through` proposals:
   those before the failed one, and that one too if only its result was lost. Nothing else conflicts.
   */
  method IntegrateWave(service: RepositoryService, job: Job, ghost start: Tree, before: Done, wave: seq<Node>, proposals: seq<Proposal>,
                       allowDependencies: bool) returns (r: Result<Done, IntegrationError>, ghost failed: nat, ghost through: nat)
    requires ValidJob(job) && service.host.codec.Lossless() && NewWave(before.Keys, wave)
    requires |proposals| == |wave| && WaveProposals(job, service.head, wave, proposals)
    requires WaveAt(job, service.host.codec, start, before, wave, 0, before, service.head)
    modifies service
    ensures r.Ok? ==> WaveAt(job, service.host.codec, start, before, wave, |wave|, r.value, service.head)
    ensures r.Ok? ==> service.commits == old(service.commits) + |wave| && service.lost == old(service.lost)
    ensures through <= |proposals| && HeadIs(service.host, old(service.head), proposals[..through], job.items, allowDependencies, service.head)
    ensures through == failed + service.lost - old(service.lost) && (r.Ok? ==> through == |wave|)
    ensures r.Err? ==>
              Excused(service.host, job, wave, proposals, failed, allowDependencies, r.error, service.lost - old(service.lost))
  {
    ghost var input := service.head;
    var done := before;
    for i := 0 to |wave|
      invariant WaveAt(job, service.host.codec, start, before, wave, i, done, service.head)
      invariant service.commits == old(service.commits) + i && service.lost == old(service.lost)
      invariant HeadIs(service.host, input, proposals[..i], job.items, allowDependencies, service.head)
    {
      ghost var head := service.head;
      var answer := IntegrateOne(service, job, start, before, input, wave, proposals, i, done, allowDependencies);
      if answer.Ok? || service.lost != old(service.lost) {
        HeadAdvances(service.host, job.items, input, proposals, i, allowDependencies, head, service.head);
      }
      if answer.Err? {
        return answer, i, if service.lost == old(service.lost) then i else i + 1;
      }
      done := answer.value;
    }
    return Ok(done), |wave|, |wave|;
  }

  /** A wave, developed and then integrated in order. */
  method RunWave(service: RepositoryService, job: Job, ghost start: Tree, integrated: Done, wave: seq<Node>,
                 allowDependencies: bool) returns (r: Result<Done, AttemptError>)
    requires ValidJob(job) && service.host.codec.Lossless() && NewWave(integrated.Keys, wave)
    requires WaveReady(job, integrated.Keys, wave) && Progress(job, service.host.codec, start, integrated, service.head)
    modifies service
    ensures r.Ok? ==> WaveAt(job, service.host.codec, start, integrated, wave, |wave|, r.value, service.head)
    ensures r.Ok? ==> service.commits == old(service.commits) + |wave|
    ensures r.Ok? ==> service.lost == old(service.lost)
    ensures r == Err(NotIntegrated(Conflict)) ==> service.lost == old(service.lost) + 1
  {
    var developed := DevelopWave(service, job, integrated, wave, allowDependencies);
    if developed.Err? {
      return Err(NotDeveloped(developed.error));
    }
    assert wave[..0] == [];
    var answer, _, _ := IntegrateWave(service, job, start, integrated, wave, developed.value, allowDependencies);
    if answer.Err? {
      return Err(NotIntegrated(answer.error));
    }
    return Ok(answer.value);
  }

  // ---------------------------------------------------------------- all waves

  ghost predicate ValidRun(plan: ChangePlan, items: seq<WorkItem>, waves: seq<seq<Node>>) {
    && Schedulable(plan, items) && IdsOf(items) == ItemIds(plan.files)
    && waves == WavesOf(plan, items, MAX_CONCURRENCY)
  }

  /** What the planning activity returned can be run. */
  lemma AcceptedPlansCanRun(request: P.PlanRequest, plan: ChangePlan, result: P.PlanChangeResult)
    requires P.Acceptable(request, plan) && P.IsResult(request, plan, result)
    ensures ValidRun(plan, result.workItems, result.waves) && result.plannedFiles == plan.files
  {
    P.StampedPlansSchedule(request, plan);
    P.StampedIds(request, ItemsOf(plan));
    ItemsHaveTheIds(plan);
  }

  lemma WavesFacts(plan: ChangePlan, items: seq<WorkItem>, waves: seq<seq<Node>>)
    requires ValidRun(plan, items, waves)
    ensures Scheduled(waves) == IdsOf(items) && WaveSizes(MAX_CONCURRENCY, waves) && OneWaveEach(waves)
    ensures UpstreamsEarlier(ScheduleGraph(plan, items), {}, waves)
  {
    ScheduleIsSound(plan, items, MAX_CONCURRENCY);
  }

  /** Every wave is new after the waves before it, and they hold all upstreams of its items. */
  ghost predicate WavesReady(job: Job, waves: seq<seq<Node>>) {
    forall k :: 0 <= k < |waves| ==> NewWave(Scheduled(waves[..k]), waves[k]) && WaveReady(job, Scheduled(waves[..k]), waves[k])
  }

  lemma NextWaveIsNew(plan: ChangePlan, items: seq<WorkItem>, waves: seq<seq<Node>>, k: nat)
    requires ValidRun(plan, items, waves) && k < |waves|
    ensures NewWave(Scheduled(waves[..k]), waves[k])
  {
    WavesFacts(plan, items, waves);
    forall id | id in Scheduled(waves[..k]) ensures id !in Elements(waves[k]) {
      var j :| 0 <= j < k && id in waves[..k][j];
      assert id in waves[j];
    }
  }

  /** Any wave of a run integrates with the same result in every order. */
  lemma RunsAreConfluent(host: Host, job: Job, items: seq<WorkItem>, waves: seq<seq<Node>>, k: nat, input: Tree,
                         ps: seq<Proposal>, qs: seq<Proposal>, deps: bool)
    requires host.codec.Lossless() && ValidJob(job) && ValidRun(job.plan, items, waves) && k < |waves|
    requires |ps| == |waves[k]| && WaveProposals(job, input, waves[k], ps)
    requires Distinct(qs) && Elements(qs) == Elements(ps)
    ensures forall p :: p in ps + qs ==> p.item in job.items
    ensures IntegrateAll(host, input, ps, job.items, deps).Some? <==> AllPass(host, ps, job.items, deps)
    ensures IntegrateAll(host, input, qs, job.items, deps) == IntegrateAll(host, input, ps, job.items, deps)
    ensures AllPass(host, ps, job.items, deps) ==> Overlaid(host.codec, input, ps, IntegrateAll(host, input, ps, job.items, deps).value)
  {
    NextWaveIsNew(job.plan, items, waves, k);
    WaveIsOneWave(job, input, waves[k], ps);
    WaveOrderDoesNotMatter(host, input, ps, qs, job.items, deps);
  }

  lemma NextWaveReady(plan: ChangePlan, items: seq<WorkItem>, waves: seq<seq<Node>>, job: Job, k: nat)
    requires ValidRun(plan, items, waves) && Indexes(items, job.items) && k < |waves|
    ensures WaveReady(job, Scheduled(waves[..k]), waves[k])
  {
    WavesFacts(plan, items, waves);
    forall i | 0 <= i < |waves[k]| ensures UpstreamDone(job, Scheduled(waves[..k]), waves[k][i]) {
      var id := waves[k][i];
      assert id in waves[k] && id in Scheduled(waves);
      ItemMatchesPlan(plan, items, job.items, id);
      forall u | u in Elements(job.items[id].dependencies) ensures u in Scheduled(waves[..k]) {
        UpstreamIsDone(ScheduleGraph(plan, items), {}, waves, k, id, u);
      }
    }
  }

  lemma AllWavesReady(plan: ChangePlan, items: seq<WorkItem>, waves: seq<seq<Node>>, job: Job)
    requires ValidRun(plan, items, waves) && Indexes(items, job.items)
    ensures WavesReady(job, waves)
  {
    forall k | 0 <= k < |waves|
      ensures NewWave(Scheduled(waves[..k]), waves[k]) && WaveReady(job, Scheduled(waves[..k]), waves[k])
    {
      NextWaveIsNew(plan, items, waves, k);
      NextWaveReady(plan, items, waves, job, k);
    }
  }

  lemma ItemMatchesPlan(plan: ChangePlan, items: seq<WorkItem>, byId: map<Node, WorkItem>, id: Node)
    requires ItemsMatch(plan, items) && Indexes(items, byId) && id in IdsOf(items)
    ensures id in byId && Elements(byId[id].dependencies) == Upstreams(ScheduleGraph(plan, items), id)
  {
    assert byId[id] in items && ItemMatches(plan, byId[id]);
  }

  lemma UpstreamIsDone(g: Graph, before: set<Node>, waves: seq<seq<Node>>, k: nat, id: Node, u: Node)
    requires UpstreamsEarlier(g, before, waves) && k < |waves| && id in waves[k] && u in Upstreams(g, id)
    ensures u in before + Scheduled(waves[..k])
  {
    if u !in before {
      var j :| 0 <= j < k && u in waves[j];
      assert u in waves[..k][j];
    }
  }

  lemma ScheduledStep(waves: seq<seq<Node>>, k: nat)
    requires k < |waves|
    ensures Scheduled(waves[..k + 1]) == Scheduled(waves[..k]) + Elements(waves[k])
  {
    forall id ensures id in Scheduled(waves[..k + 1]) <==> id in Scheduled(waves[..k]) || id in Elements(waves[k]) {
      if id in Scheduled(waves[..k + 1]) {
        var j :| 0 <= j < k + 1 && id in waves[..k + 1][j];
        assert j < k ==> id in waves[..k][j];
      }
      if id in Scheduled(waves[..k]) {
        var j :| 0 <= j < k && id in waves[..k][j];
        assert id in waves[..k + 1][j];
      }
      if id in Elements(waves[k]) {
        assert id in waves[..k + 1][k];
      }
    }
  }

  lemma WaveCount(before: Done, wave: seq<Node>, after: Done)
    requires NewWave(before.Keys, wave) && after.Keys == before.Keys + Elements(wave)
    ensures |after| == |before| + |wave|
  {
    DistinctCardinality(wave);
    assert |after| == |after.Keys| && |before| == |before.Keys|;
  }

  /** The first `k` waves are through. */
  ghost predicate RunAt(job: Job, codec: Codec, start: Tree, waves: seq<seq<Node>>, k: nat, done: Done, head: Tree, commits: int) {
    k <= |waves| && done.Keys == Scheduled(waves[..k]) && commits == |done| && Progress(job, codec, start, done, head)
  }

  lemma RunAdvances(job: Job, codec: Codec, start: Tree, waves: seq<seq<Node>>, k: nat, before: Done, done: Done, head: Tree, commits: int)
    requires k < |waves| && before.Keys == Scheduled(waves[..k]) && NewWave(before.Keys, waves[k]) && commits == |before|
    requires WaveAt(job, codec, start, before, waves[k], |waves[k]|, done, head)
    ensures RunAt(job, codec, start, waves, k + 1, done, head, commits + |waves[k]|)
  {
    assert waves[k][..|waves[k]|] == waves[k];
    WaveCount(before, waves[k], done);
    ScheduledStep(waves, k);
  }

  method RunNext(service: RepositoryService, job: Job, waves: seq<seq<Node>>, ghost start: Tree, k: nat, done: Done,
                 allowDependencies: bool, ghost base: int) returns (r: Result<Done, AttemptError>)
    requires ValidJob(job) && WavesReady(job, waves) && service.host.codec.Lossless()
    requires k < |waves| && RunAt(job, service.host.codec, start, waves, k, done, service.head, service.commits - base)
    modifies service
    ensures r.Ok? ==> RunAt(job, service.host.codec, start, waves, k + 1, r.value, service.head, service.commits - base)
    ensures r.Ok? ==> service.lost == old(service.lost)
    ensures r == Err(NotIntegrated(Conflict)) ==> service.lost == old(service.lost) + 1
  {
    ghost var commits := service.commits - base;
    r := RunWave(service, job, start, done, waves[k], allowDependencies);
    if r.Ok? {
      RunAdvances(job, service.host.codec, start, waves, k, done, r.value, service.head, commits);
    }
  }

  /**
   The waves of one candidate attempt. Every lookup of an upstream's result succeeds; nothing
   conflicts, except a retry after a lost result, which ends the attempt; and an attempt that gets
   through has integrated every item exactly once, leaving the starting tree overlaid with every
   item's edits. With the plain developer no plan that creates a file ever gets through.
   */
  method RunWaves(service: RepositoryService, agentMode: bool, plan: ChangePlan, items: seq<WorkItem>, waves: seq<seq<Node>>,
                  allowDependencies: bool) returns (r: Result<Done, AttemptError>)
    requires ValidRun(plan, items, waves) && service.host.codec.Lossless()
    modifies service
    ensures r.Ok? ==> r.value.Keys == IdsOf(items) && service.commits == old(service.commits) + |items|
    ensures r.Ok? ==> Owned(plan, r.value) && OverlaidBy(service.host.codec, old(service.head), r.value, service.head)
    ensures r.Ok? ==> NoneCreates(r.value) && (!agentMode ==> forall f :: f in plan.files ==> !f.operation.Create?)
    ensures r.Ok? ==> service.lost == old(service.lost)
    ensures r == Err(NotIntegrated(Conflict)) ==> service.lost == old(service.lost) + 1
  {
    ghost var start, base := service.head, service.commits;
    var byId := IndexItems(items);
    var filesById := GroupFiles(plan.files);
    var job := Job(agentMode, plan, byId, filesById);
    AllWavesReady(plan, items, waves, job);
    var done: Done := map[];
    for k := 0 to |waves|
      invariant RunAt(job, service.host.codec, start, waves, k, done, service.head, service.commits - base)
      invariant service.lost == old(service.lost)
    {
      done :- RunNext(service, job, waves, start, k, done, allowDependencies, base);
    }
    WavesFacts(plan, items, waves);
    assert waves[..|waves|] == waves;
    assert |done| == |done.Keys|;
    return Ok(done);
  }
}
