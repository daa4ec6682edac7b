/**
 The integration worktree. A commit is the tree it records; a patch is applied to the tree it was
 made from, committed, and cherry-picked onto the head as a three-way merge path by path.
 */
module Integration {
  import opened Outcomes
  import opened Ordering
  import opened Dag
  import opened Policies
  import opened Plans
  import opened Workspace
  import opened Developer

  datatype IntegrationError = PatchPathDenied | DependencyDenied | ApplyFailed | GitFailed | Conflict | Stopped

  /**
   How one attempt of the activity goes: to its end, or stopped by a store, a time limit or a
   lost worker, before or after the head would move.
   */
  datatype Course = ToItsEnd | StoppedBefore | StoppedAfter

  /** `maximum_attempts` of the services' retry policy. */
  const MAX_ATTEMPTS := 3

  const MAX_TOUCHED_FILES := 20

  /** The fixed parts of the service: the text encoding, and whether a source file parses. */
  datatype Host = Host(codec: Codec, parses: (string, Bytes) -> bool)

  // ---------------------------------------------------------------- trees

  function Encoded(codec: Codec, text: Option<string>): Option<Bytes> {
    match text
    case None => None
    case Some(t) => Some(codec.encode(t))
  }

  function Overlay(codec: Codec, tree: Tree, changes: map<string, Change>): Tree {
    map path | path in tree.Keys + changes.Keys && (path in changes ==> changes[path].after.Some?) ::
      if path in changes then codec.encode(changes[path].after.value) else tree[path]
  }

  lemma OverlayAt(codec: Codec, tree: Tree, changes: map<string, Change>, path: string)
    ensures Lookup(Overlay(codec, tree, changes), path) ==
              if path in changes then Encoded(codec, changes[path].after) else Lookup(tree, path)
  {
  }

  /** `git apply --check`: there is a patch, and every file is as it expects. */
  ghost predicate Applies(codec: Codec, tree: Tree, changes: map<string, Change>) {
    && changes != map[]
    && forall path :: path in changes ==> Lookup(tree, path) == Encoded(codec, changes[path].before)
  }

  /** `git diff --name-only HEAD`: the changed files among those that are tracked. */
  function TrackedChanges(input: Tree, staged: Tree): set<string> {
    set path | path in input.Keys && Lookup(input, path) != Lookup(staged, path)
  }

  predicate Ours(input: Tree, staged: Tree, path: string) {
    Lookup(staged, path) == Lookup(input, path)
  }

  ghost predicate MergesCleanly(input: Tree, head: Tree, staged: Tree) {
    forall path ::
      || Lookup(staged, path) == Lookup(input, path)
      || Lookup(head, path) == Lookup(input, path)
      || Lookup(head, path) == Lookup(staged, path)
  }

  function Merged(input: Tree, head: Tree, staged: Tree): Tree {
    map path | path in head.Keys + staged.Keys
               && (if Ours(input, staged, path) then path in head else path in staged) ::
      if Ours(input, staged, path) then head[path] else staged[path]
  }

  lemma MergedAt(input: Tree, head: Tree, staged: Tree, path: string)
    ensures Lookup(Merged(input, head, staged), path) ==
              if Ours(input, staged, path) then Lookup(head, path) else Lookup(staged, path)
  {
  }

  // ---------------------------------------------------------------- what a patch must pass

  predicate IsPython(path: string) {
    |path| >= 3 && path[|path| - 3..] == ".py"
  }

  predicate ParsesAt(host: Host, staged: Tree, path: string) {
    IsPython(path) && path in staged ==> host.codec.decode(staged[path]).Some? && host.parses(path, staged[path])
  }

  ghost predicate AllParse(host: Host, staged: Tree, touched: seq<string>) {
    forall path :: path in touched ==> ParsesAt(host, staged, path)
  }

  /** The checks on a proposal, none of which looks at the head. */
  ghost predicate Passes(host: Host, p: Proposal, allowed: seq<string>, allowDependencies: bool) {
    var staged := Overlay(host.codec, p.input, p.patch.changes);
    && Elements(p.touched) <= Elements(allowed) && |p.touched| <= MAX_TOUCHED_FILES
    && (allowDependencies || !AnyManifest(p.touched))
    && p.patch.size <= MAX_PATCH_BYTES && !p.patch.unsafe
    && Applies(host.codec, p.input, p.patch.changes)
    && TrackedChanges(p.input, staged) == Elements(p.touched)
    && AllParse(host, staged, p.touched)
  }

  /** What becomes of the head: the merge, or none if the cherry-pick stops. */
  ghost function Integrated(host: Host, head: Tree, p: Proposal, allowed: seq<string>, allowDependencies: bool): Option<Tree> {
    var staged := Overlay(host.codec, p.input, p.patch.changes);
    var merged := Merged(p.input, head, staged);
    if Passes(host, p, allowed, allowDependencies) && staged != p.input && MergesCleanly(p.input, head, staged) && merged != head
    then Some(merged) else None
  }

  /** On every path that the proposal changes, the tree is as the proposal leaves it. */
  ghost predicate HoldsAlready(host: Host, head: Tree, p: Proposal) {
    var staged := Overlay(host.codec, p.input, p.patch.changes);
    forall path :: Lookup(staged, path) != Lookup(p.input, path) ==> Lookup(head, path) == Lookup(staged, path)
  }

  /** What a head already holds is never integrated into it: the cherry-pick comes out empty. */
  lemma HeldIsRefused(host: Host, head: Tree, p: Proposal, allowed: seq<string>, allowDependencies: bool)
    requires HoldsAlready(host, head, p)
    ensures Integrated(host, head, p, allowed, allowDependencies) == None
  {
    var staged := Overlay(host.codec, p.input, p.patch.changes);
    var merged := Merged(p.input, head, staged);
    forall path ensures Lookup(merged, path) == Lookup(head, path) {
      MergedAt(p.input, head, staged, path);
    }
    SameLookups(merged, head);
  }

  /** An integrated proposal is refused when it comes again. */
  lemma ReintegrationIsRefused(host: Host, head: Tree, p: Proposal, allowed: seq<string>, allowDependencies: bool)
    requires Integrated(host, head, p, allowed, allowDependencies).Some?
    ensures Integrated(host, Integrated(host, head, p, allowed, allowDependencies).value, p, allowed, allowDependencies) == None
  {
    var staged := Overlay(host.codec, p.input, p.patch.changes);
    var merged := Merged(p.input, head, staged);
    forall path | Lookup(staged, path) != Lookup(p.input, path) ensures Lookup(merged, path) == Lookup(staged, path) {
      MergedAt(p.input, head, staged, path);
    }
    HeldIsRefused(host, merged, p, allowed, allowDependencies);
  }

  /** The first attempt that gets past moving the head, if any does. */
  function FirstReached(courses: seq<Course>): (k: nat)
    ensures k <= |courses| && (k < |courses| ==> !courses[k].StoppedBefore?)
    ensures forall i :: 0 <= i < k ==> courses[i].StoppedBefore?
  {
    if courses == [] then 0
    else
      var n := |courses| - 1;
      var k := FirstReached(courses[..n]);
      if k < n || !courses[n].StoppedBefore? then k else n + 1
  }

  predicate Reached(courses: seq<Course>) {
    FirstReached(courses) < |courses|
  }

  /** The attempt that would move the head is stopped before its result is stored. */
  predicate LosesResult(courses: seq<Course>) {
    Reached(courses) && courses[FirstReached(courses)].StoppedAfter?
  }

  lemma FirstReachedMore(courses: seq<Course>, i: nat)
    requires i < |courses|
    ensures Reached(courses[..i + 1]) <==> Reached(courses[..i]) || !courses[i].StoppedBefore?
    ensures LosesResult(courses[..i + 1]) <==> if Reached(courses[..i]) then LosesResult(courses[..i]) else courses[i].StoppedAfter?
  {
    assert courses[..i + 1][..i] == courses[..i];
  }

  /** Once some attempt has got that far, those after it do not matter. */
  lemma {:induction false} FirstReachedStays(courses: seq<Course>, i: nat)
    requires i <= |courses| && (Reached(courses[..i]) || i == |courses|)
    ensures Reached(courses) == Reached(courses[..i]) && LosesResult(courses) == LosesResult(courses[..i])
    decreases |courses| - i
  {
    if i == |courses| {
      assert courses[..i] == courses;
    } else {
      FirstReachedMore(courses, i);
      FirstReachedStays(courses, i + 1);
    }
  }

  class RepositoryService {
    const host: Host
    var head: Tree
    var commits: nat
    /** How often the head has moved for a result that was then lost. */
    ghost var lost: nat

    constructor (host: Host, base: Tree)
      ensures this.host == host && head == base && commits == 0 && lost == 0
    {
      this.host, head, commits, lost := host, base, 0, 0;
    }

    /** `create_developer_context`: the revision to work on is the head. */
    method CreateDeveloperContext() returns (input: Tree)
      ensures input == head
    {
      return head;
    }

    /** What some attempts amount to, given what integrating would make of the head. */
    ghost predicate Settled(courses: seq<Course>, merged: Option<Tree>, head0: Tree, commits0: nat, lost0: nat,
                            r: Result<(), IntegrationError>)
      reads this
    {
      && (r.Ok? <==> merged.Some? && Reached(courses) && !LosesResult(courses))
      && head == (if merged.Some? && Reached(courses) then merged.value else head0)
      && commits == commits0 + (if merged.Some? && Reached(courses) then 1 else 0)
      && lost == lost0 + (if merged.Some? && LosesResult(courses) then 1 else 0)
      && (r.Err? && r.error != Stopped ==> merged.None? || LosesResult(courses))
    }

    /**
     The activity under its retry policy. The head moves at most once, and only if some attempt gets
     that far; the answer is the integration exactly when that very attempt ends well, because every
     later one finds the proposal integrated already and reports a conflict.
     */
    method IntegrateWithRetries(p: Proposal, allowed: seq<string>, allowDependencies: bool, courses: seq<Course>)
      returns (r: Result<(), IntegrationError>)
      requires |courses| == MAX_ATTEMPTS
      modifies this
      ensures Settled(courses, Integrated(host, old(head), p, allowed, allowDependencies), old(head), old(commits), old(lost), r)
      ensures r == Err(Conflict) ==> Passes(host, p, allowed, allowDependencies)
    {
      ghost var merged := Integrated(host, head, p, allowed, allowDependencies);
      var i := 0;
      r := Err(Stopped);
      while i < MAX_ATTEMPTS && r.Err?
        invariant i <= MAX_ATTEMPTS
        invariant Settled(courses[..i], merged, old(head), old(commits), old(lost), r)
        invariant r == Err(Conflict) ==> Passes(host, p, allowed, allowDependencies)
      {
        r := Retry(p, allowed, allowDependencies, courses, i, merged, old(head), old(commits), old(lost), r);
        i := i + 1;
      }
      FirstReachedStays(courses, i);
    }

    /** One more attempt. */
    method Retry(p: Proposal, allowed: seq<string>, allowDependencies: bool, courses: seq<Course>, i: nat,
                 ghost merged: Option<Tree>, ghost head0: Tree, ghost commits0: nat, ghost lost0: nat,
                 ghost before: Result<(), IntegrationError>) returns (r: Result<(), IntegrationError>)
      requires i < |courses| && merged == Integrated(host, head0, p, allowed, allowDependencies)
      requires before.Err? && Settled(courses[..i], merged, head0, commits0, lost0, before)
      modifies this
      ensures Settled(courses[..i + 1], merged, head0, commits0, lost0, r)
      ensures r == Err(Conflict) ==> Passes(host, p, allowed, allowDependencies)
    {
      FirstReachedMore(courses, i);
      if merged.Some? {
        ReintegrationIsRefused(host, head0, p, allowed, allowDependencies);
      }
      r := IntegratePatch(p, allowed, allowDependencies, courses[i]);
    }

    /** `integrate_patch`: the head moves by one commit to the merge, or stays where it is. */
    method IntegratePatch(p: Proposal, allowed: seq<string>, allowDependencies: bool, course: Course) returns (r: Result<(), IntegrationError>)
      modifies this
      ensures var merged := Integrated(host, old(head), p, allowed, allowDependencies);
              && (r.Ok? <==> merged.Some? && course.ToItsEnd?)
              && head == (if merged.Some? && !course.StoppedBefore? then merged.value else old(head))
              && commits == old(commits) + (if merged.Some? && !course.StoppedBefore? then 1 else 0)
              && lost == old(lost) + (if merged.Some? && course.StoppedAfter? then 1 else 0)
              && (r == Err(Stopped) <==> course.StoppedBefore? || (merged.Some? && course.StoppedAfter?))
              && (r == Err(Conflict) ==> Passes(host, p, allowed, allowDependencies) && merged.None?)
    {
      if course.StoppedBefore? {
        return Err(Stopped);
      }
      var checked := CheckBefore(p, allowed, allowDependencies);
      if checked.Some? {
        return Err(checked.value);
      }
      var staging := Stage(p);
      if staging.Err? {
        return Err(staging.error);
      }
      var staged := staging.value;
      if staged == p.input {
        return Err(GitFailed);
      }
      r := CherryPick(p.input, staged);
      if r.Ok? && course.StoppedAfter? {
        lost := lost + 1;
        return Err(Stopped);
      }
    }

    method CheckBefore(p: Proposal, allowed: seq<string>, allowDependencies: bool) returns (error: Option<IntegrationError>)
      ensures error.None? <==>
                && Elements(p.touched) <= Elements(allowed) && |p.touched| <= MAX_TOUCHED_FILES
                && (allowDependencies || !AnyManifest(p.touched))
                && p.patch.size <= MAX_PATCH_BYTES && !p.patch.unsafe
      ensures error != Some(Conflict) && error != Some(Stopped)
    {
      var denied := Elements(p.touched) - Elements(allowed);
      if denied != {} || |p.touched| > MAX_TOUCHED_FILES {
        assert denied != {} ==> exists path :: path in denied;
        return Some(PatchPathDenied);
      }
      assert forall path :: path in Elements(p.touched) ==> path !in denied;
      var manifests := DependencyManifestPaths(p.touched);
      if manifests != [] && !allowDependencies {
        return Some(DependencyDenied);
      }
      if p.patch.size > MAX_PATCH_BYTES || p.patch.unsafe {
        return Some(ApplyFailed);
      }
      return None;
    }

    /** Apply the patch in a staging worktree and look at what it changed. */
    method Stage(p: Proposal) returns (r: Result<Tree, IntegrationError>)
      ensures r.Ok? <==>
                var staged := Overlay(host.codec, p.input, p.patch.changes);
                && Applies(host.codec, p.input, p.patch.changes)
                && TrackedChanges(p.input, staged) == Elements(p.touched) && AllParse(host, staged, p.touched)
      ensures r.Ok? ==> r.value == Overlay(host.codec, p.input, p.patch.changes)
      ensures r != Err(Conflict) && r != Err(Stopped)
    {
      var changes := p.patch.changes;
      if changes == map[] || exists path | path in changes :: Lookup(p.input, path) != Encoded(host.codec, changes[path].before) {
        return Err(ApplyFailed);
      }
      var staged := Overlay(host.codec, p.input, changes);
      if TrackedChanges(p.input, staged) != Elements(p.touched) {
        return Err(PatchPathDenied);
      }
      for i := 0 to |p.touched|
        invariant AllParse(host, staged, p.touched[..i])
      {
        assert p.touched[..i + 1] == p.touched[..i] + [p.touched[i]];
        if !ParsesAt(host, staged, p.touched[i]) {
          assert p.touched[i] in p.touched;
          return Err(ApplyFailed);
        }
      }
      assert p.touched[..|p.touched|] == p.touched;
      return Ok(staged);
    }

    /** A conflict, or a merge that changes nothing, stops the cherry-pick and is aborted. */
    method CherryPick(input: Tree, staged: Tree) returns (r: Result<(), IntegrationError>)
      modifies this
      ensures r.Ok? <==> MergesCleanly(input, old(head), staged) && Merged(input, old(head), staged) != old(head)
      ensures r.Ok? ==> head == Merged(input, old(head), staged) && commits == old(commits) + 1
      ensures r.Err? ==> r == Err(Conflict) && head == old(head) && commits == old(commits)
      ensures lost == old(lost)
    {
      if path :| path in input.Keys + head.Keys + staged.Keys
                 && Lookup(staged, path) != Lookup(input, path) && Lookup(head, path) != Lookup(input, path)
                 && Lookup(head, path) != Lookup(staged, path) {
        return Err(Conflict);
      }
      var merged := Merged(input, head, staged);
      if merged == head {
        return Err(Conflict);
      }
      head, commits := merged, commits + 1;
      return Ok(());
    }
  }

  // ---------------------------------------------------------------- proposals of the developers

  lemma RealChangesShow(host: Host, item: WorkItem, p: Proposal, path: string)
    requires host.codec.Lossless() && IsProposal(item, p.input, p) && Applies(host.codec, p.input, p.patch.changes)
    ensures var staged := Overlay(host.codec, p.input, p.patch.changes);
            Lookup(staged, path) != Lookup(p.input, path) <==> path in p.patch.changes
  {
    OverlayAt(host.codec, p.input, p.patch.changes, path);
    if path in p.patch.changes {
      EncodingIsInjective(host.codec, p.patch.changes[path].before, p.patch.changes[path].after);
    }
  }

  lemma EncodingIsInjective(codec: Codec, a: Option<string>, b: Option<string>)
    requires codec.Lossless()
    ensures Encoded(codec, a) == Encoded(codec, b) ==> a == b
  {
    if a.Some? && b.Some? {
      assert codec.decode(codec.encode(a.value)) == Some(a.value) && codec.decode(codec.encode(b.value)) == Some(b.value);
    }
  }

  /**
   Only tracked files are listed as changed, so of the developers' proposals exactly those that
   create a file fail the comparison with the touched paths.
   */
  lemma CreatingIsRefused(host: Host, item: WorkItem, p: Proposal)
    requires host.codec.Lossless() && IsProposal(item, p.input, p) && Applies(host.codec, p.input, p.patch.changes)
    ensures TrackedChanges(p.input, Overlay(host.codec, p.input, p.patch.changes)) == Elements(p.touched) <==> !Creates(p)
  {
    var tracked := TrackedChanges(p.input, Overlay(host.codec, p.input, p.patch.changes));
    forall path ensures path in tracked <==> path in p.patch.changes && p.patch.changes[path].before.Some? {
      RealChangesShow(host, item, p, path);
    }
    if Creates(p) {
      var path :| path in p.patch.changes && p.patch.changes[path].before.None?;
      assert path in Elements(p.touched) && path !in tracked;
    }
  }

  predicate EndsInPy(path: string) {
    3 <= |path| && path[|path| - 3] == '.' && path[|path| - 2] == 'p' && path[|path| - 1] == 'y'
  }

  /**
   No proposal of a developer brings a Python file into a head that does not decode and parse: every
   file that the merge changes there has been checked.
   */
  lemma OnlyParsingPython(host: Host, item: WorkItem, head: Tree, p: Proposal, allowed: seq<string>, deps: bool, path: string)
    requires host.codec.Lossless() && IsProposal(item, p.input, p) && Integrated(host, head, p, allowed, deps).Some?
    requires EndsInPy(path)
    ensures var merged := Integrated(host, head, p, allowed, deps).value;
            path in merged && Lookup(merged, path) != Lookup(head, path) ==>
              host.codec.decode(merged[path]).Some? && host.parses(path, merged[path])
  {
    var staged := Overlay(host.codec, p.input, p.patch.changes);
    var merged := Merged(p.input, head, staged);
    if path in merged && Lookup(merged, path) != Lookup(head, path) {
      MergeTakesStaged(p.input, head, staged, path);
      StagedParses(host, item, p, path);
    }
  }

  lemma MergeTakesStaged(input: Tree, head: Tree, staged: Tree, path: string)
    requires Lookup(Merged(input, head, staged), path) != Lookup(head, path)
    ensures Lookup(Merged(input, head, staged), path) == Lookup(staged, path) && Lookup(staged, path) != Lookup(input, path)
  {
    MergedAt(input, head, staged, path);
  }

  lemma StagedParses(host: Host, item: WorkItem, p: Proposal, path: string)
    requires host.codec.Lossless() && IsProposal(item, p.input, p) && Applies(host.codec, p.input, p.patch.changes)
    requires EndsInPy(path)
    requires var staged := Overlay(host.codec, p.input, p.patch.changes);
             AllParse(host, staged, p.touched) && Lookup(staged, path) != Lookup(p.input, path)
    ensures var staged := Overlay(host.codec, p.input, p.patch.changes);
            path in staged ==> host.codec.decode(staged[path]).Some? && host.parses(path, staged[path])
  {
    RealChangesShow(host, item, p, path);
    assert path in p.patch.changes.Keys && path in Elements(p.touched);
    assert path[|path| - 3..] == ".py";
    assert ParsesAt(host, Overlay(host.codec, p.input, p.patch.changes), path);
  }

  /** A proposal that creates one file and does nothing else. */
  function CreationOf(item: WorkItem, input: Tree, path: string, text: string): Proposal {
    Proposal(item.id, input, Patch(map[path := Change(None, Some(text))], 0, false), [path])
  }

  /** A new file on the item's own allowlist, as small and harmless as can be: it applies, and no head takes it. */
  lemma CreatedFileIsRefused(host: Host, item: WorkItem, input: Tree, path: string, text: string, head: Tree, deps: bool)
    requires host.codec.Lossless() && path in item.allowedWritePaths && path !in input
    ensures var p := CreationOf(item, input, path, text);
            && IsProposal(item, input, p) && Creates(p) && Applies(host.codec, input, p.patch.changes)
            && Integrated(host, head, p, item.allowedWritePaths, deps) == None
  {
    var p := CreationOf(item, input, path, text);
    assert path in p.patch.changes && p.touched[0] == path;
    CreatingIsRefused(host, item, p);
  }

  // ---------------------------------------------------------------- when a developer's patch applies

  /** Creating needs a free path; any other change needs a source with one kind of line end, that ends in it. */
  ghost predicate EditApplies(edit: Edit, source: Option<string>) {
    if edit.operation.Create? then source.None? else source.Some? && OneLineEnd(source.value)
  }

  /**
   A patch is made of texts with one kind of line end and a final one, and is applied to the files
   as they are: it applies exactly when every file it changes or deletes is already of that form.
   */
  lemma PatchAppliesExactly(codec: Codec, input: Tree, paths: set<string>, edits: map<string, Edit>, changes: map<string, Change>)
    requires codec.Lossless() && Readable(codec, input, paths) && ChangesOf(edits, SourcesOf(codec, input, paths), changes)
    ensures Applies(codec, input, changes) <==>
              edits != map[] && forall path :: path in edits ==> EditApplies(edits[path], SourceAt(codec, input, path))
  {
    assert edits.Keys == changes.Keys;
    assert edits == map[] <==> edits.Keys == {};
    assert changes == map[] <==> changes.Keys == {};
    forall path | path in edits
      ensures path in paths
      ensures Lookup(input, path) == Encoded(codec, changes[path].before) <==> EditApplies(edits[path], SourceAt(codec, input, path))
    {
      assert ChangeAt(edits, SourcesOf(codec, input, paths), path) == Some(changes[path]);
      ChangeApplies(codec, input, path, edits[path]);
    }
  }

  lemma ChangeApplies(codec: Codec, input: Tree, path: string, edit: Edit)
    requires codec.Lossless() && (path in input ==> codec.decode(input[path]).Some?)
    requires ChangeFor(edit, SourceAt(codec, input, path)).Some?
    ensures Lookup(input, path) == Encoded(codec, ChangeFor(edit, SourceAt(codec, input, path)).value.before) <==>
              EditApplies(edit, SourceAt(codec, input, path))
  {
    var source := SourceAt(codec, input, path);
    if !edit.operation.Create? {
      var before := PatchText(TextOf(source), NewlineOf(source));
      EncodingIsInjective(codec, source, Some(before));
      assert source.Some? ==> Lookup(input, path) == Encoded(codec, source);
      if source.Some? {
        OwnPatchText(source.value);
      }
    }
  }

  // ---------------------------------------------------------------- what an agent's patch gives

  /** Each changed file that is still there has the line ends of what it was made from. */
  ghost predicate ChangesEndAlike(codec: Codec, original: Tree, current: Tree) {
    forall path :: path in Changed(original, current) && path in current && codec.decode(current[path]).Some? ==>
      EndsAlike(codec.decode(current[path]).value, SourceAt(codec, original, path))
  }

  lemma RebuiltAt(codec: Codec, original: Tree, current: Tree, changes: map<string, Change>, path: string)
    requires codec.Lossless() && TextChanges(codec, original, current)
    requires var edits := AgentChanges(codec, original, current);
             SaysTheEdits(edits, SourcesOf(codec, original, edits.Keys), changes)
    ensures Lookup(Overlay(codec, original, changes), path) == Lookup(current, path) <==>
              (path in Changed(original, current) && path in current && codec.decode(current[path]).Some? ==>
                 EndsAlike(codec.decode(current[path]).value, SourceAt(codec, original, path)))
  {
    OverlayAt(codec, original, changes, path);
    if path in Changed(original, current) {
      assert path in changes.Keys;
      var source, edit := SourceAt(codec, original, path), AgentEdit(codec, original, current, path);
      assert SaysTheEdit(edit, source, changes[path]);
      if path in current {
        var text := codec.decode(current[path]).value;
        WrittenAsIs(text, source);
        EncodingIsInjective(codec, Some(AsPatched(LinesOf(text), source)), Some(text));
      }
    }
  }

  /** The agent's patch rebuilds its workspace exactly when its files end their lines as before. */
  lemma AgentPatchRebuilds(codec: Codec, original: Tree, current: Tree, changes: map<string, Change>)
    requires codec.Lossless() && TextChanges(codec, original, current)
    requires var edits := AgentChanges(codec, original, current);
             SaysTheEdits(edits, SourcesOf(codec, original, edits.Keys), changes)
    ensures Overlay(codec, original, changes) == current <==> ChangesEndAlike(codec, original, current)
  {
    var rebuilt := Overlay(codec, original, changes);
    forall path
      ensures Lookup(rebuilt, path) == Lookup(current, path) <==>
                (path in Changed(original, current) && path in current && codec.decode(current[path]).Some? ==>
                   EndsAlike(codec.decode(current[path]).value, SourceAt(codec, original, path)))
    {
      RebuiltAt(codec, original, current, changes, path);
    }
    if ChangesEndAlike(codec, original, current) {
      SameLookups(rebuilt, current);
    }
  }

  // ---------------------------------------------------------------- untouched paths

  /** On the proposal's own paths the head is still as the proposal found it. */
  ghost predicate Untouched(head: Tree, p: Proposal) {
    forall path :: path in p.patch.changes ==> Lookup(head, path) == Lookup(p.input, path)
  }

  /**
   A proposal that passes the checks, on paths that nobody has changed since, is always accepted:
   the cherry-pick meets no conflict, and the head becomes itself overlaid with the changes.
   */
  lemma AcceptedWithoutConflict(host: Host, item: WorkItem, head: Tree, p: Proposal, allowed: seq<string>, allowDependencies: bool)
    requires host.codec.Lossless() && IsProposal(item, p.input, p) && Untouched(head, p)
    requires Passes(host, p, allowed, allowDependencies)
    ensures Integrated(host, head, p, allowed, allowDependencies) == Some(Overlay(host.codec, head, p.patch.changes))
  {
    var staged := Overlay(host.codec, p.input, p.patch.changes);
    forall path ensures Lookup(staged, path) != Lookup(p.input, path) <==> path in p.patch.changes {
      RealChangesShow(host, item, p, path);
    }
    var merged, overlaid := Merged(p.input, head, staged), Overlay(host.codec, head, p.patch.changes);
    forall path ensures Lookup(merged, path) == Lookup(overlaid, path) {
      MergedAt(p.input, head, staged, path);
      OverlayAt(host.codec, head, p.patch.changes, path);
      OverlayAt(host.codec, p.input, p.patch.changes, path);
    }
    SameLookups(merged, overlaid);
    var path :| path in p.patch.changes.Keys;
    assert Lookup(staged, path) != Lookup(p.input, path);
    MergedAt(p.input, head, staged, path);
    assert merged != head by {
      assert Lookup(merged, path) == Lookup(staged, path);
    }
  }

  // ---------------------------------------------------------------- a wave in any order

  /** Integrate a list of proposals, each under its own item's allowlist. */
  ghost function IntegrateAll(host: Host, head: Tree, ps: seq<Proposal>, items: map<Node, WorkItem>, deps: bool): Option<Tree>
    requires forall p :: p in ps ==> p.item in items
    decreases |ps|
  {
    if ps == [] then Some(head)
    else
      match Integrated(host, head, ps[0], items[ps[0].item].allowedWritePaths, deps)
      case None => None
      case Some(next) => IntegrateAll(host, next, ps[1..], items, deps)
  }

  /** Proposals of different items, all made from `input`, on paths of their own. */
  ghost predicate OneWave(input: Tree, ps: seq<Proposal>, items: map<Node, WorkItem>) {
    && (forall p :: p in ps ==> p.item in items && IsProposal(items[p.item], input, p))
    && (forall i, j :: 0 <= i < j < |ps| ==> ps[i].patch.changes.Keys !! ps[j].patch.changes.Keys)
  }

  ghost predicate AllPass(host: Host, ps: seq<Proposal>, items: map<Node, WorkItem>, deps: bool)
    requires forall p :: p in ps ==> p.item in items
  {
    forall p :: p in ps ==> Passes(host, p, items[p.item].allowedWritePaths, deps)
  }

  /** The head overlaid with every edit: each path as the one proposal that changes it leaves it. */
  ghost predicate Overlaid(codec: Codec, head: Tree, ps: seq<Proposal>, final: Tree) {
    && (forall p, path :: p in ps && path in p.patch.changes ==> Lookup(final, path) == Encoded(codec, p.patch.changes[path].after))
    && (forall path :: (forall p :: p in ps ==> path !in p.patch.changes) ==> Lookup(final, path) == Lookup(head, path))
  }

  ghost predicate AllUntouched(head: Tree, ps: seq<Proposal>) {
    forall p :: p in ps ==> Untouched(head, p)
  }

  lemma {:induction false} WaveIntegrates(host: Host, input: Tree, head: Tree, ps: seq<Proposal>, items: map<Node, WorkItem>, deps: bool)
    returns (final: Tree)
    requires host.codec.Lossless() && OneWave(input, ps, items) && AllPass(host, ps, items, deps) && AllUntouched(head, ps)
    ensures IntegrateAll(host, head, ps, items, deps) == Some(final) && Overlaid(host.codec, head, ps, final)
    decreases |ps|
  {
    if ps == [] {
      final := head;
    } else {
      var next := Overlay(host.codec, head, ps[0].patch.changes);
      RestOfWave(host, input, ps, items, deps);
      FirstOfWave(host, input, head, ps, items, deps);
      final := WaveIntegrates(host, input, next, ps[1..], items, deps);
      OverlaidFirst(host.codec, head, ps, final);
    }
  }

  lemma FirstOfWave(host: Host, input: Tree, head: Tree, ps: seq<Proposal>, items: map<Node, WorkItem>, deps: bool)
    requires ps != [] && host.codec.Lossless() && OneWave(input, ps, items) && AllPass(host, ps, items, deps) && AllUntouched(head, ps)
    ensures var next := Overlay(host.codec, head, ps[0].patch.changes);
            && ps[0].item in items && Integrated(host, head, ps[0], items[ps[0].item].allowedWritePaths, deps) == Some(next)
            && AllUntouched(next, ps[1..])
  {
    assert ps[0] in ps;
    AcceptedWithoutConflict(host, items[ps[0].item], head, ps[0], items[ps[0].item].allowedWritePaths, deps);
    forall q | q in ps[1..] ensures Untouched(Overlay(host.codec, head, ps[0].patch.changes), q) {
      NextIsUntouched(host.codec, head, ps, q);
    }
  }

  lemma RestOfWave(host: Host, input: Tree, ps: seq<Proposal>, items: map<Node, WorkItem>, deps: bool)
    requires ps != [] && OneWave(input, ps, items) && AllPass(host, ps, items, deps)
    ensures ps[0] in ps && (forall p :: p in ps[1..] ==> p in ps)
    ensures OneWave(input, ps[1..], items) && AllPass(host, ps[1..], items, deps)
  {
  }

  lemma NextIsUntouched(codec: Codec, head: Tree, ps: seq<Proposal>, q: Proposal)
    requires ps != [] && q in ps[1..] && Untouched(head, q)
    requires forall i, j :: 0 <= i < j < |ps| ==> ps[i].patch.changes.Keys !! ps[j].patch.changes.Keys
    ensures Untouched(Overlay(codec, head, ps[0].patch.changes), q)
  {
    var j :| 1 <= j < |ps| && ps[j] == q;
    forall path | path in q.patch.changes
      ensures Lookup(Overlay(codec, head, ps[0].patch.changes), path) == Lookup(q.input, path)
    {
      OverlayAt(codec, head, ps[0].patch.changes, path);
      assert path in ps[j].patch.changes.Keys;
    }
  }

  lemma OverlaidFirst(codec: Codec, head: Tree, ps: seq<Proposal>, final: Tree)
    requires ps != [] && Overlaid(codec, Overlay(codec, head, ps[0].patch.changes), ps[1..], final)
    requires forall i, j :: 0 <= i < j < |ps| ==> ps[i].patch.changes.Keys !! ps[j].patch.changes.Keys
    ensures Overlaid(codec, head, ps, final)
  {
    var next := Overlay(codec, head, ps[0].patch.changes);
    forall p, path | p in ps && path in p.patch.changes
      ensures Lookup(final, path) == Encoded(codec, p.patch.changes[path].after)
    {
      if p !in ps[1..] {
        assert p == ps[0];
        OverlayAt(codec, head, ps[0].patch.changes, path);
        forall q | q in ps[1..] ensures path !in q.patch.changes {
          var j :| 1 <= j < |ps| && ps[j] == q;
          assert path in ps[0].patch.changes.Keys;
        }
      }
    }
    forall path | forall p :: p in ps ==> path !in p.patch.changes ensures Lookup(final, path) == Lookup(head, path) {
      OverlayAt(codec, head, ps[0].patch.changes, path);
      assert ps[0] in ps;
      assert forall q :: q in ps[1..] ==> q in ps;
    }
  }

  lemma OverlaidIsUnique(codec: Codec, head: Tree, ps: seq<Proposal>, a: Tree, b: Tree)
    requires Overlaid(codec, head, ps, a) && Overlaid(codec, head, ps, b)
    ensures a == b
  {
    forall path ensures Lookup(a, path) == Lookup(b, path) {
      if p :| p in ps && path in p.patch.changes {
        assert Lookup(a, path) == Encoded(codec, p.patch.changes[path].after);
      }
    }
    SameLookups(a, b);
  }

  lemma {:induction false} OnlyPassingWavesIntegrate(host: Host, head: Tree, ps: seq<Proposal>, items: map<Node, WorkItem>, deps: bool)
    requires forall p :: p in ps ==> p.item in items
    requires IntegrateAll(host, head, ps, items, deps).Some?
    ensures AllPass(host, ps, items, deps)
    decreases |ps|
  {
    if ps != [] {
      var next := Integrated(host, head, ps[0], items[ps[0].item].allowedWritePaths, deps);
      OnlyPassingWavesIntegrate(host, next.value, ps[1..], items, deps);
      assert forall p :: p in ps ==> p == ps[0] || p in ps[1..];
    }
  }

  lemma {:induction false} IntegrateOneMore(host: Host, head: Tree, ps: seq<Proposal>, p: Proposal, items: map<Node, WorkItem>, deps: bool)
    requires p.item in items && forall q :: q in ps ==> q.item in items
    ensures forall q :: q in ps + [p] ==> q.item in items
    ensures IntegrateAll(host, head, ps + [p], items, deps) ==
              match IntegrateAll(host, head, ps, items, deps)
              case None => None
              case Some(next) => Integrated(host, next, p, items[p.item].allowedWritePaths, deps)
    decreases |ps|
  {
    if ps == [] {
      assert [] + [p] == [p] && [p][1..] == [];
    } else {
      assert (ps + [p])[0] == ps[0] && (ps + [p])[1..] == ps[1..] + [p];
      var next := Integrated(host, head, ps[0], items[ps[0].item].allowedWritePaths, deps);
      if next.Some? {
        IntegrateOneMore(host, next.value, ps[1..], p, items, deps);
      }
    }
  }

  /**
   Confluence: a wave gets through exactly when each proposal passes its own checks, in whatever
   order it is integrated, and every order leaves the same tree: the input overlaid with all edits.
   */
  lemma WaveOrderDoesNotMatter(host: Host, input: Tree, ps: seq<Proposal>, qs: seq<Proposal>, items: map<Node, WorkItem>, deps: bool)
    requires host.codec.Lossless() && OneWave(input, ps, items)
    requires Distinct(qs) && Elements(qs) == Elements(ps)
    ensures forall q :: q in qs ==> q.item in items
    ensures IntegrateAll(host, input, ps, items, deps).Some? <==> AllPass(host, ps, items, deps)
    ensures IntegrateAll(host, input, qs, items, deps) == IntegrateAll(host, input, ps, items, deps)
    ensures AllPass(host, ps, items, deps) ==> Overlaid(host.codec, input, ps, IntegrateAll(host, input, ps, items, deps).value)
  {
    SameMembers(ps, qs);
    DisjointInAnyOrder(ps, qs);
    if AllPass(host, ps, items, deps) {
      var a := WaveIntegrates(host, input, input, ps, items, deps);
      var b := WaveIntegrates(host, input, input, qs, items, deps);
      assert Overlaid(host.codec, input, ps, b);
      OverlaidIsUnique(host.codec, input, ps, a, b);
    } else {
      FailingWave(host, input, ps, items, deps);
      FailingWave(host, input, qs, items, deps);
    }
  }

  lemma FailingWave(host: Host, head: Tree, ps: seq<Proposal>, items: map<Node, WorkItem>, deps: bool)
    requires (forall p :: p in ps ==> p.item in items) && !AllPass(host, ps, items, deps)
    ensures IntegrateAll(host, head, ps, items, deps) == None
  {
    if IntegrateAll(host, head, ps, items, deps).Some? {
      OnlyPassingWavesIntegrate(host, head, ps, items, deps);
    }
  }

  lemma SameMembers<T>(xs: seq<T>, ys: seq<T>)
    requires Elements(xs) == Elements(ys)
    ensures forall x :: x in xs <==> x in ys
  {
    forall x ensures x in xs <==> x in ys {
      assert x in xs <==> x in Elements(xs);
      assert x in ys <==> x in Elements(ys);
    }
  }

  lemma DisjointInAnyOrder(ps: seq<Proposal>, qs: seq<Proposal>)
    requires Distinct(qs) && forall q :: q in qs ==> q in ps
    requires forall i, j :: 0 <= i < j < |ps| ==> ps[i].patch.changes.Keys !! ps[j].patch.changes.Keys
    ensures forall i, j :: 0 <= i < j < |qs| ==> qs[i].patch.changes.Keys !! qs[j].patch.changes.Keys
  {
    forall i, j | 0 <= i < j < |qs| ensures qs[i].patch.changes.Keys !! qs[j].patch.changes.Keys {
      assert qs[i] in ps && qs[j] in ps && qs[i] != qs[j];
      var m :| 0 <= m < |ps| && ps[m] == qs[i];
      var n :| 0 <= n < |ps| && ps[n] == qs[j];
      assert m < n || n < m;
    }
  }
}
