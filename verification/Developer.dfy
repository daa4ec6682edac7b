/**
 From a plan's files to a patch proposal: the two developer activities. What the model answers,
 and what the agent does in its workspace, is arbitrary; what may leave the activity is not.
 */
module Developer {
  import opened Outcomes
  import opened Ordering
  import opened Dag
  import opened Paths
  import opened Policies
  import opened Plans
  import Scheduler
  import opened Workspace

  datatype Change = Change(before: Option<string>, after: Option<string>)

  /** The changes of a unified diff, and what integration asks about its text. */
  datatype Patch = Patch(changes: map<string, Change>, size: nat, unsafe: bool)

  datatype Proposal = Proposal(item: Node, input: Tree, patch: Patch, touched: seq<string>)

  datatype DeveloperError =
    | ForeignFiles | AllowlistMismatch | PolicyDenied | BadSource | BadEdit | EditsMismatch | OperationMismatch
    | PatchTooLarge | WrongTarget | NoChange | OutsideAllowlist(error: WorkspaceError) | BadWorkspace(reason: LoadError)

  /** How the diff of some changes renders as text. */
  datatype Rendering = Rendering(size: nat, unsafe: bool)

  const MAX_PATCH_BYTES := 5 * 1024 * 1024
  const MAX_CONTEXT_FILE_BYTES := 1024 * 1024
  const MAX_CONTEXT_BYTES := 4 * 1024 * 1024

  // ---------------------------------------------------------------- patch text

  /** Every line end becomes a line feed. */
  function WithLineFeeds(s: string): string {
    if s == "" then ""
    else if s[0] == '\r' then "\n" + WithLineFeeds(if |s| > 1 && s[1] == '\n' then s[2..] else s[1..])
    else [s[0]] + WithLineFeeds(s[1..])
  }

  function LineFeedsTo(s: string, newline: string): string {
    if s == "" then "" else (if s[0] == '\n' then newline else [s[0]]) + LineFeedsTo(s[1..], newline)
  }

  predicate HasCrlf(s: string) {
    exists i :: 0 < i < |s| && s[i - 1] == '\r' && s[i] == '\n'
  }

  function Ended(s: string): string {
    if s != "" && s[|s| - 1] != '\n' then s + "\n" else s
  }

  /** `_patch_lines`, joined: one kind of line end, and a final one. */
  function PatchText(content: string, newline: string): string {
    LineFeedsTo(Ended(WithLineFeeds(content)), newline)
  }

  function TextOf(text: Option<string>): string {
    if text.Some? then text.value else ""
  }

  /** The line end of a patch: the one that the source uses somewhere. */
  function NewlineOf(source: Option<string>): string {
    if HasCrlf(TextOf(source)) then "\r\n" else "\n"
  }

  /** Carriage returns and line feeds come in pairs only. */
  predicate CrlfOnly(s: string) {
    forall i :: 0 <= i < |s| ==> PairedAt(s, i)
  }

  predicate PairedAt(s: string, i: nat)
    requires i < |s|
  {
    && (s[i] == '\r' ==> i + 1 < |s| && s[i + 1] == '\n')
    && (s[i] == '\n' ==> 0 < i && s[i - 1] == '\r')
  }

  lemma PairsShift(s: string, k: nat)
    requires k <= |s| && (0 < k < |s| ==> s[k - 1] != '\r' && s[k] != '\n')
    ensures CrlfOnly(s) <==> (forall i :: 0 <= i < k ==> PairedAt(s, i)) && CrlfOnly(s[k..])
  {
    forall i | k <= i < |s| ensures PairedAt(s, i) <==> PairedAt(s[k..], i - k) {
      if k < i {
        assert s[k..][i - k - 1] == s[i - 1];
      }
    }
    forall i | 0 <= i < |s| - k ensures PairedAt(s[k..], i) <==> PairedAt(s, k + i) {
    }
  }

  predicate EndsInNewline(s: string) {
    s == "" || s[|s| - 1] == '\n'
  }

  lemma {:induction false} NoReturnsLeft(s: string)
    ensures '\r' !in WithLineFeeds(s)
    ensures '\r' !in s ==> WithLineFeeds(s) == s
    decreases |s|
  {
    if s != "" {
      NoReturnsLeft(s[1..]);
      if |s| > 1 {
        NoReturnsLeft(s[2..]);
      }
      assert s == [s[0]] + s[1..];
    }
  }

  lemma {:induction false} LineFeedsStay(s: string)
    ensures LineFeedsTo(s, "\n") == s
  {
    if s != "" {
      LineFeedsStay(s[1..]);
      assert s == [s[0]] + s[1..];
    }
  }

  lemma {:induction false} LineFeedsToPairs(s: string)
    requires '\r' !in s
    ensures var r := LineFeedsTo(s, "\r\n");
            && CrlfOnly(r) && (r != "" ==> r[0] != '\n') && (EndsInNewline(s) ==> EndsInNewline(r))
  {
    if s != "" {
      LineFeedsToPairs(s[1..]);
      var r, k := LineFeedsTo(s, "\r\n"), if s[0] == '\n' then 2 else 1;
      assert r[k..] == LineFeedsTo(s[1..], "\r\n");
      PairsShift(r, k);
    }
  }

  /** One step of turning line ends into line feeds: the character it gives, and how much it takes. */
  lemma FirstLineFeed(s: string) returns (first: char, k: nat)
    requires s != ""
    ensures k == (if s[0] == '\r' && |s| > 1 && s[1] == '\n' then 2 else 1) && first == (if s[0] == '\r' then '\n' else s[0])
    ensures WithLineFeeds(s) == [first] + WithLineFeeds(s[k..])
  {
    first, k := if s[0] == '\r' then '\n' else s[0], if s[0] == '\r' && |s| > 1 && s[1] == '\n' then 2 else 1;
  }

  lemma {:induction false} EndStays(s: string)
    ensures EndsInNewline(s) ==> EndsInNewline(WithLineFeeds(s))
    decreases |s|
  {
    if s != "" {
      var first, k := FirstLineFeed(s);
      EndStays(s[k..]);
      if s[k..] != "" {
        var _, _ := FirstLineFeed(s[k..]);
      }
    }
  }

  lemma LineFeedsFirst(first: char, rest: string, newline: string)
    ensures LineFeedsTo([first] + rest, newline) == (if first == '\n' then newline else [first]) + LineFeedsTo(rest, newline)
  {
    assert ([first] + rest)[1..] == rest;
  }

  lemma {:induction false} PairsComeBack(s: string, newline: string)
    requires CrlfOnly(s) && newline == "\r\n"
    ensures LineFeedsTo(WithLineFeeds(s), newline) == s
    decreases |s|
  {
    if s != "" {
      assert PairedAt(s, 0);
      var first, k := FirstLineFeed(s);
      PairsRest(s, k);
      PairsComeBack(s[k..], newline);
      LineFeedsFirst(first, WithLineFeeds(s[k..]), newline);
      assert s[..k] == (if first == '\n' then newline else [first]);
      assert s == s[..k] + s[k..];
    }
  }

  lemma PairsRest(s: string, k: nat)
    requires s != "" && CrlfOnly(s) && k == (if s[0] == '\r' then 2 else 1)
    ensures k <= |s| && CrlfOnly(s[k..])
  {
    assert PairedAt(s, 0);
    assert k < |s| ==> PairedAt(s, k);
    PairsShift(s, k);
  }

  /** A text has one kind of line end, and ends in it. */
  predicate OneLineEnd(s: string) {
    (if HasCrlf(s) then CrlfOnly(s) else '\r' !in s) && EndsInNewline(s)
  }

  lemma OwnCrlfText(s: string, newline: string)
    requires newline == "\r\n"
    ensures LineFeedsTo(Ended(WithLineFeeds(s)), newline) == s <==> CrlfOnly(s) && EndsInNewline(s)
  {
    NoReturnsLeft(s);
    LineFeedsToPairs(Ended(WithLineFeeds(s)));
    if CrlfOnly(s) && EndsInNewline(s) {
      EndStays(s);
      PairsComeBack(s, newline);
    }
  }

  lemma OwnUnixText(s: string, newline: string)
    requires newline == "\n"
    ensures LineFeedsTo(Ended(WithLineFeeds(s)), newline) == s <==> '\r' !in s && EndsInNewline(s)
  {
    NoReturnsLeft(s);
    LineFeedsStay(Ended(WithLineFeeds(s)));
  }

  /** A text is its own patch text exactly when it has one kind of line end, and ends in it. */
  lemma OwnPatchText(s: string)
    ensures PatchText(s, NewlineOf(Some(s))) == s <==> OneLineEnd(s)
  {
    if HasCrlf(s) {
      OwnCrlfText(s, "\r\n");
    } else {
      OwnUnixText(s, "\n");
    }
  }

  /** The change an edit makes to a file, if the diff shows any. */
  function ChangeFor(edit: Edit, source: Option<string>): Option<Change> {
    var newline := NewlineOf(source);
    var before, after := PatchText(TextOf(source), newline), PatchText(TextOf(edit.content), newline);
    if before == after then None
    else Some(Change(if edit.operation.Create? then None else Some(before), if edit.operation.Delete? then None else Some(after)))
  }

  // ---------------------------------------------------------------- what the patch says

  /** Where the first line ends: at the first carriage return or line feed, or at the end of the text. */
  function LineEnd(s: string): (k: nat)
    ensures k <= |s| && (k < |s| ==> s[k] == '\r' || s[k] == '\n')
    ensures forall i :: 0 <= i < k ==> s[i] != '\r' && s[i] != '\n'
  {
    if s == "" || s[0] == '\r' || s[0] == '\n' then 0 else 1 + LineEnd(s[1..])
  }

  /** How many characters a line end takes at its place. */
  function EndWidth(s: string, k: nat): nat
    requires k < |s|
  {
    if s[k] == '\r' && k + 1 < |s| && s[k + 1] == '\n' then 2 else 1
  }

  /** The lines of a text without their ends; what follows the last end is a line unless it is empty. */
  function LinesOf(s: string): seq<string>
    decreases |s|
  {
    var k := LineEnd(s);
    if s == "" then [] else if k == |s| then [s] else [s[..k]] + LinesOf(s[k + EndWidth(s, k)..])
  }

  /** Lines, each ended in the same way. */
  function Joined(lines: seq<string>, newline: string): string {
    if lines == [] then "" else lines[0] + newline + Joined(lines[1..], newline)
  }

  /** A line holds no line end. */
  predicate Plain(line: string) {
    '\r' !in line && '\n' !in line
  }

  lemma {:induction false} LineFeedsFirstLine(s: string)
    ensures var k := LineEnd(s);
            WithLineFeeds(s) == s[..k] + if k == |s| then "" else "\n" + WithLineFeeds(s[k + EndWidth(s, k)..])
  {
    var k := LineEnd(s);
    if k > 0 {
      LineFeedsFirstLine(s[1..]);
      assert LineEnd(s[1..]) == k - 1;
      assert s[..k] == [s[0]] + s[1..][..k - 1];
      if k < |s| {
        assert s[1..][k - 1 + EndWidth(s[1..], k - 1)..] == s[k + EndWidth(s, k)..];
      } else {
        assert s == [s[0]] + s[1..];
      }
    }
  }

  lemma {:induction false} PlainIsKept(line: string, rest: string, newline: string)
    requires Plain(line)
    ensures LineFeedsTo(line + rest, newline) == line + LineFeedsTo(rest, newline)
  {
    if line == "" {
      assert line + rest == rest;
    } else {
      PlainTail(line);
      PlainIsKept(line[1..], rest, newline);
      assert line + rest == [line[0]] + (line[1..] + rest);
      FirstIsKept(line[0], line[1..] + rest, newline);
      assert line == [line[0]] + line[1..];
    }
  }

  lemma PlainTail(line: string)
    requires line != "" && Plain(line)
    ensures Plain(line[1..]) && line[0] != '\n'
  {
    assert forall c :: c in line[1..] ==> c in line;
  }

  lemma FirstIsKept(first: char, rest: string, newline: string)
    requires first != '\n'
    ensures LineFeedsTo([first] + rest, newline) == [first] + LineFeedsTo(rest, newline)
  {
    assert ([first] + rest)[1..] == rest;
  }

  lemma EndedAfterLine(line: string, rest: string)
    ensures Ended(line + "\n" + rest) == line + "\n" + Ended(rest)
  {
    if rest == "" {
      assert line + "\n" + rest == line + "\n";
    } else {
      assert (line + "\n" + rest)[|line| + 1 + |rest| - 1] == rest[|rest| - 1];
      assert line + "\n" + rest + "\n" == line + "\n" + (rest + "\n");
    }
  }

  lemma LineThenRest(line: string, rest: string, newline: string)
    requires Plain(line)
    ensures LineFeedsTo(line + "\n" + rest, newline) == line + newline + LineFeedsTo(rest, newline)
  {
    assert line + "\n" + rest == line + ("\n" + rest);
    PlainIsKept(line, "\n" + rest, newline);
    assert ("\n" + rest)[1..] == rest;
    assert line + newline + LineFeedsTo(rest, newline) == line + (newline + LineFeedsTo(rest, newline));
  }

  /** The text of a patch has the lines of the content, each with the one kind of end. */
  lemma {:induction false} PatchTextIsItsLines(s: string, newline: string)
    ensures PatchText(s, newline) == Joined(LinesOf(s), newline)
    decreases |s|
  {
    if s != "" {
      var k := LineEnd(s);
      LineFeedsFirstLine(s);
      if k == |s| {
        LastLine(s, newline);
      } else {
        var rest := s[k + EndWidth(s, k)..];
        PatchTextIsItsLines(rest, newline);
        FirstLine(s[..k], rest, newline);
        assert WithLineFeeds(s) == s[..k] + "\n" + WithLineFeeds(rest);
        assert LinesOf(s) == [s[..k]] + LinesOf(rest);
        assert LinesOf(s)[1..] == LinesOf(rest);
      }
    }
  }

  lemma LastLine(s: string, newline: string)
    requires s != "" && Plain(s) && WithLineFeeds(s) == s
    ensures PatchText(s, newline) == s + newline + Joined([], newline)
  {
    assert s + "\n" == s + "\n" + "";
    LineThenRest(s, "", newline);
  }

  lemma FirstLine(line: string, rest: string, newline: string)
    requires Plain(line)
    ensures LineFeedsTo(Ended(line + "\n" + WithLineFeeds(rest)), newline) == line + newline + PatchText(rest, newline)
  {
    EndedAfterLine(line, WithLineFeeds(rest));
    LineThenRest(line, Ended(WithLineFeeds(rest)), newline);
  }

  lemma {:induction false} LinesArePlain(s: string)
    ensures forall i :: 0 <= i < |LinesOf(s)| ==> Plain(LinesOf(s)[i])
    decreases |s|
  {
    var k := LineEnd(s);
    if k < |s| {
      LinesArePlain(s[k + EndWidth(s, k)..]);
    }
  }

  lemma {:induction false} LineEndAt(line: string, rest: string)
    requires Plain(line) && (rest == "" || rest[0] == '\r' || rest[0] == '\n')
    ensures LineEnd(line + rest) == |line|
  {
    if line == "" {
      assert line + rest == rest;
    } else {
      assert (line + rest)[0] == line[0] && (line + rest)[1..] == line[1..] + rest;
      LineEndAt(line[1..], rest);
    }
  }

  /** Joined lines have the same lines again. */
  lemma {:induction false} LinesComeBack(lines: seq<string>, newline: string)
    requires newline == "\n" || newline == "\r\n"
    requires forall i :: 0 <= i < |lines| ==> Plain(lines[i])
    ensures LinesOf(Joined(lines, newline)) == lines
  {
    if lines != [] {
      var rest := Joined(lines[1..], newline);
      LinesComeBack(lines[1..], newline);
      var s := lines[0] + newline + rest;
      assert s == lines[0] + (newline + rest);
      LineEndAt(lines[0], newline + rest);
      assert s[..|lines[0]|] == lines[0];
      NewlineWidth(lines[0], newline, rest);
      assert s[|lines[0]| + |newline|..] == rest;
    }
  }

  lemma NewlineWidth(line: string, newline: string, rest: string)
    requires newline == "\n" || newline == "\r\n"
    ensures EndWidth(line + newline + rest, |line|) == |newline|
  {
  }

  // ---------------------------------------------------------------- what a proposal promises

  /** The change is visible, and agrees with its operation on which side is missing. */
  predicate RealChange(c: Change) {
    c.before != c.after
  }

  ghost predicate IsProposal(item: WorkItem, input: Tree, p: Proposal) {
    && p.item == item.id && p.input == input
    && Elements(p.touched) == p.patch.changes.Keys && p.patch.changes.Keys <= Elements(item.allowedWritePaths)
    && p.patch.changes.Keys != {}
    && forall path :: path in p.patch.changes ==> RealChange(p.patch.changes[path])
  }

  predicate Creates(p: Proposal) {
    exists path <- p.patch.changes :: p.patch.changes[path].before.None?
  }

  // ---------------------------------------------------------------- the common checks

  function EditPath(edit: Edit): Option<string> {
    NormalizePlanPath(edit.path)
  }

  function FilePath(f: PlannedFile): Option<string> {
    NormalizePlanPath(f.path)
  }

  ghost predicate Keyed<T(!new)>(key: T -> Option<string>, xs: seq<T>) {
    forall x :: x in xs ==> key(x).Some?
  }

  /** The last entry under each key. */
  function Last<T>(key: T -> Option<string>, xs: seq<T>): map<string, T> {
    if xs == [] then map[]
    else
      var rest, x := Last(key, xs[..|xs| - 1]), xs[|xs| - 1];
      match key(x)
      case None => rest
      case Some(k) => rest[k := x]
  }

  lemma {:induction false} LastFinds<T(!new)>(key: T -> Option<string>, xs: seq<T>)
    ensures forall k :: k in Last(key, xs) ==> Last(key, xs)[k] in xs && key(Last(key, xs)[k]) == Some(k)
    ensures forall x :: x in xs && key(x).Some? ==> key(x).value in Last(key, xs)
    ensures |Last(key, xs)| <= |xs|
  {
    if xs != [] {
      var n := |xs| - 1;
      LastFinds(key, xs[..n]);
      assert xs == xs[..n] + [xs[n]];
      if key(xs[n]).Some? {
        assert Last(key, xs).Keys == Last(key, xs[..n]).Keys + {key(xs[n]).value};
        assert |Last(key, xs)| == |Last(key, xs).Keys| && |Last(key, xs[..n])| == |Last(key, xs[..n]).Keys|;
      }
    }
  }

  /** A key that is repeated, or missing, is never made up for later. */
  lemma {:induction false} LastGrows<T(!new)>(key: T -> Option<string>, xs: seq<T>, i: nat)
    requires i <= |xs|
    ensures |Last(key, xs)| <= |Last(key, xs[..i])| + |xs| - i
    decreases |xs|
  {
    if i == |xs| {
      assert xs[..i] == xs;
    } else {
      var n := |xs| - 1;
      LastGrows(key, xs[..n], i);
      assert xs[..n][..i] == xs[..i];
      if key(xs[n]).Some? {
        assert Last(key, xs).Keys == Last(key, xs[..n]).Keys + {key(xs[n]).value};
        assert |Last(key, xs)| == |Last(key, xs).Keys| && |Last(key, xs[..n])| == |Last(key, xs[..n]).Keys|;
      }
    }
  }

  lemma LastStep<T(!new)>(key: T -> Option<string>, xs: seq<T>, i: nat)
    requires i < |xs|
    ensures Keyed(key, xs[..i + 1]) <==> Keyed(key, xs[..i]) && key(xs[i]).Some?
    ensures Last(key, xs[..i + 1]) ==
              match key(xs[i]) case None => Last(key, xs[..i]) case Some(k) => Last(key, xs[..i])[k := xs[i]]
  {
    assert xs[..i + 1] == xs[..i] + [xs[i]] && xs[..i + 1][..i] == xs[..i];
  }

  /** A dictionary by key. A missing key raises; so does a repeated one where that is asked. */
  method Index<T(!new)>(key: T -> Option<string>, xs: seq<T>, distinct: bool) returns (r: Option<map<string, T>>)
    ensures r.Some? <==> Keyed(key, xs) && (distinct ==> |Last(key, xs)| == |xs|)
    ensures r.Some? ==> r.value == Last(key, xs)
  {
    var m: map<string, T> := map[];
    for i := 0 to |xs|
      invariant Keyed(key, xs[..i]) && m == Last(key, xs[..i]) && (distinct ==> |m| == i)
    {
      LastStep(key, xs, i);
      var k := key(xs[i]);
      if k.None? {
        assert xs[i] in xs;
        return None;
      }
      if distinct && k.value in m {
        assert m[k.value := xs[i]].Keys == m.Keys;
        assert |m[k.value := xs[i]]| == |m[k.value := xs[i]].Keys| && |m| == |m.Keys|;
        LastGrows(key, xs, i + 1);
        return None;
      }
      m := m[k.value := xs[i]];
    }
    assert xs[..|xs|] == xs;
    return Some(m);
  }

  /** The values that `f` gives for the keys, if it gives one for each. */
  method MapAll<V(!new)>(f: string -> Option<V>, keys: seq<string>) returns (r: Option<map<string, V>>)
    ensures r.Some? <==> forall k :: k in keys ==> f(k).Some?
    ensures r.Some? ==> r.value.Keys == Elements(keys) && forall k :: k in r.value ==> f(k) == Some(r.value[k])
  {
    var m: map<string, V> := map[];
    for i := 0 to |keys|
      invariant m.Keys == Elements(keys[..i]) && forall k :: k in m ==> f(k) == Some(m[k])
      invariant forall k :: k in keys[..i] ==> f(k).Some?
    {
      var v := f(keys[i]);
      assert keys[i] in keys && keys[..i + 1] == keys[..i] + [keys[i]];
      if v.None? {
        return None;
      }
      m := m[keys[i] := v.value];
    }
    assert keys[..|keys|] == keys;
    return Some(m);
  }

  ghost predicate ManifestAmong(paths: set<string>) {
    exists path :: path in paths && IsManifest(ManifestForm(path))
  }

  lemma SortedManifests(paths: set<string>)
    ensures AnyManifest(SortSet(paths)) <==> ManifestAmong(paths)
  {
    SortSetFacts(paths);
    forall path ensures path in SortSet(paths) <==> path in paths {
      assert path in SortSet(paths) <==> path in Elements(SortSet(paths));
    }
  }

  lemma IndexedPaths(files: seq<PlannedFile>)
    requires Keyed(FilePath, files)
    ensures Last(FilePath, files).Keys == NormalPaths(files)
  {
    var planned := Last(FilePath, files);
    LastFinds(FilePath, files);
    forall path | path in planned.Keys ensures path in NormalPaths(files) {
      assert planned[path] in files && FilePath(planned[path]) == Some(path);
    }
    forall f | f in files ensures PathOf(f.path) in planned.Keys {
      assert FilePath(f).Some?;
    }
  }

  /** The planned files are this item's, cover its allowlist, and touch manifests only if allowed. */
  ghost predicate PlannedOk(item: WorkItem, files: seq<PlannedFile>, allowDependencies: bool) {
    && Keyed(FilePath, files) && (forall f :: f in files ==> f.workItem == item.id)
    && NormalPaths(files) == Elements(item.allowedWritePaths)
    && (allowDependencies || !ManifestAmong(NormalPaths(files)))
  }

  method CheckPlanned(item: WorkItem, files: seq<PlannedFile>, allowDependencies: bool)
    returns (r: Result<map<string, PlannedFile>, DeveloperError>)
    ensures r.Ok? <==> PlannedOk(item, files, allowDependencies)
    ensures r.Ok? ==> r.value == Last(FilePath, files) && r.value.Keys == NormalPaths(files)
  {
    var planned := Index(FilePath, files, false);
    if planned.None? {
      return Err(BadEdit);
    }
    if exists f :: f in files && f.workItem != item.id {
      return Err(ForeignFiles);
    }
    IndexedPaths(files);
    if planned.value.Keys != Elements(item.allowedWritePaths) {
      return Err(AllowlistMismatch);
    }
    var manifests := DependencyManifestPaths(SortSet(planned.value.Keys));
    SortedManifests(planned.value.Keys);
    if manifests != [] && !allowDependencies {
      return Err(PolicyDenied);
    }
    return Ok(planned.value);
  }

  /** The source text of each path, or that it has none. */
  type Sources = map<string, Option<string>>

  function SourceAt(codec: Codec, input: Tree, path: string): Option<string> {
    if path in input then codec.decode(input[path]) else None
  }

  ghost predicate Readable(codec: Codec, input: Tree, paths: set<string>) {
    forall path :: path in paths && path in input ==> codec.decode(input[path]).Some?
  }

  function SourcesOf(codec: Codec, input: Tree, paths: set<string>): Sources {
    map path | path in paths :: SourceAt(codec, input, path)
  }

  /** `original_text` */
  method ReadFiles(codec: Codec, input: Tree, paths: set<string>) returns (r: Option<Sources>)
    ensures r.Some? <==> Readable(codec, input, paths)
    ensures r.Some? ==> r.value == SourcesOf(codec, input, paths)
  {
    if exists path | path in paths :: path in input && codec.decode(input[path]).None? {
      return None;
    }
    return Some(SourcesOf(codec, input, paths));
  }

  /** A requested file is small enough, and text. */
  ghost predicate FileFits(codec: Codec, input: Tree, requested: set<string>, path: string) {
    path in requested && path in input ==> |input[path]| <= MAX_CONTEXT_FILE_BYTES && codec.decode(input[path]).Some?
  }

  /** How many bytes the requested files among those named hold together. */
  function ContextSize(input: Tree, names: seq<string>, requested: set<string>): nat {
    if names == [] then 0
    else
      var name := names[|names| - 1];
      ContextSize(input, names[..|names| - 1], requested) + if name in requested && name in input then |input[name]| else 0
  }

  /** The requested files can be shown to the model. */
  ghost predicate WithinContext(codec: Codec, input: Tree, requested: set<string>) {
    && (forall path :: path in input ==> FileFits(codec, input, requested, path))
    && ContextSize(input, SortSet(input.Keys), requested) <= MAX_CONTEXT_BYTES
  }

  lemma {:induction false} ContextGrows(input: Tree, names: seq<string>, requested: set<string>, i: nat)
    requires i <= |names|
    ensures ContextSize(input, names[..i], requested) <= ContextSize(input, names, requested)
    decreases |names|
  {
    if i == |names| {
      assert names[..i] == names;
    } else {
      ContextGrows(input, names[..|names| - 1], requested, i);
      assert names[..|names| - 1][..i] == names[..i];
    }
  }

  /** The texts of the requested files among those named so far. */
  ghost predicate ReadSoFar(codec: Codec, input: Tree, requested: set<string>, names: seq<string>, result: Sources) {
    && result.Keys == requested
    && (forall path :: path in requested ==> result[path] == if path in names then SourceAt(codec, input, path) else None)
    && (forall path :: path in names ==> FileFits(codec, input, requested, path))
  }

  lemma ReadMore(codec: Codec, input: Tree, requested: set<string>, names: seq<string>, i: nat, result: Sources)
    requires i < |names| && ReadSoFar(codec, input, requested, names[..i], result) && names[i] in input
    requires FileFits(codec, input, requested, names[i])
    ensures var result' := if names[i] in requested then result[names[i] := codec.decode(input[names[i]])] else result;
            ReadSoFar(codec, input, requested, names[..i + 1], result')
    ensures ContextSize(input, names[..i + 1], requested) ==
              ContextSize(input, names[..i], requested) + if names[i] in requested then |input[names[i]]| else 0
  {
    assert names[..i + 1] == names[..i] + [names[i]] && names[..i + 1][..i] == names[..i];
  }

  lemma AllRead(codec: Codec, input: Tree, requested: set<string>, names: seq<string>, result: Sources)
    requires Elements(names) == input.Keys && ReadSoFar(codec, input, requested, names, result)
    ensures result == SourcesOf(codec, input, requested)
    ensures forall path :: path in input ==> FileFits(codec, input, requested, path)
  {
    forall path ensures path in input <==> path in names {
      assert path in names <==> path in Elements(names);
    }
  }

  /** `_read_visible_files`: the requested files of the archive, within the limits of a model's context. */
  method ReadVisibleFiles(codec: Codec, input: Tree, requested: set<string>) returns (r: Option<Sources>)
    ensures r.Some? <==> WithinContext(codec, input, requested)
    ensures r.Some? ==> r.value == SourcesOf(codec, input, requested)
  {
    var names := SortSet(input.Keys);
    SortSetFacts(input.Keys);
    var result: Sources := map path | path in requested :: None;
    var total := 0;
    for i := 0 to |names|
      invariant ReadSoFar(codec, input, requested, names[..i], result)
      invariant total == ContextSize(input, names[..i], requested) <= MAX_CONTEXT_BYTES
    {
      var name := names[i];
      assert name in Elements(names);
      if name !in requested {
        ReadMore(codec, input, requested, names, i, result);
        continue;
      }
      var text := codec.decode(input[name]);
      if |input[name]| > MAX_CONTEXT_FILE_BYTES || text.None? {
        assert !FileFits(codec, input, requested, name);
        return None;
      }
      ReadMore(codec, input, requested, names, i, result);
      total := total + |input[name]|;
      if total > MAX_CONTEXT_BYTES {
        ContextGrows(input, names, requested, i + 1);
        return None;
      }
      result := result[name := text];
    }
    assert names[..|names|] == names;
    AllRead(codec, input, requested, names, result);
    return Some(result);
  }

  /** Creating needs a free path; modifying and deleting need a file. */
  predicate TargetFits(edit: Edit, source: Option<string>) {
    edit.operation.Create? <==> source.None?
  }

  ghost predicate DesignFits(actual: map<string, Edit>, planned: map<string, PlannedFile>, sources: Sources) {
    && actual.Keys == planned.Keys
    && forall path :: path in actual ==>
         actual[path].operation == planned[path].operation && path in sources && TargetFits(actual[path], sources[path])
  }

  /** `_validate_design`, after the edits have been collected. */
  method ValidateDesign(actual: map<string, Edit>, planned: map<string, PlannedFile>, sources: Sources, size: nat)
    returns (error: Option<DeveloperError>)
    requires planned.Keys <= sources.Keys
    ensures error.None? <==> DesignFits(actual, planned, sources) && size <= MAX_PATCH_BYTES
  {
    if actual.Keys != planned.Keys {
      return Some(EditsMismatch);
    }
    if exists path | path in actual :: actual[path].operation != planned[path].operation {
      return Some(OperationMismatch);
    }
    if size > MAX_PATCH_BYTES {
      return Some(PatchTooLarge);
    }
    if exists path | path in actual :: !TargetFits(actual[path], sources[path]) {
      return Some(WrongTarget);
    }
    return None;
  }

  /** The change that the edit of a path makes. */
  function ChangeAt(edits: map<string, Edit>, sources: Sources, path: string): Option<Change> {
    if path in edits && path in sources then ChangeFor(edits[path], sources[path]) else None
  }

  ghost predicate AllChange(edits: map<string, Edit>, sources: Sources) {
    forall path :: path in edits ==> ChangeAt(edits, sources, path).Some?
  }

  ghost predicate ChangesOf(edits: map<string, Edit>, sources: Sources, changes: map<string, Change>) {
    && changes.Keys == edits.Keys
    && forall path :: path in changes ==> ChangeAt(edits, sources, path) == Some(changes[path])
  }

  predicate PairBetween(s: string, before: string, after: string) {
    s == before + "\r\n" + after
  }

  /** The source ends some line with a carriage return and a line feed. */
  ghost predicate UsesPairs(source: Option<string>) {
    exists before, after :: PairBetween(TextOf(source), before, after)
  }

  lemma PairsByPosition(source: Option<string>)
    ensures HasCrlf(TextOf(source)) <==> UsesPairs(source)
  {
    var s := TextOf(source);
    if i :| 0 < i < |s| && s[i - 1] == '\r' && s[i] == '\n' {
      assert PairBetween(s, s[..i - 1], s[i + 1..]);
    }
    if before, after :| PairBetween(s, before, after) {
      assert s[|before|] == '\r' && s[|before| + 1] == '\n';
    }
  }

  /** Lines as a patch writes them for that source. */
  ghost function AsPatched(lines: seq<string>, source: Option<string>): string {
    Joined(lines, if UsesPairs(source) then "\r\n" else "\n")
  }

  /**
   What a change says, in terms of lines. It is there exactly when source and content have different
   lines. The side before is missing for a creation, and has the lines of the source; the side after
   is missing for a deletion, and has the lines of the content; both with the source's kind of end.
   */
  lemma ChangeSaysTheEdit(edit: Edit, source: Option<string>)
    ensures ChangeFor(edit, source).Some? <==> LinesOf(TextOf(source)) != LinesOf(TextOf(edit.content))
    ensures ChangeFor(edit, source).Some? ==> SaysTheEdit(edit, source, ChangeFor(edit, source).value)
  {
    var newline := if UsesPairs(source) then "\r\n" else "\n";
    PairsByPosition(source);
    var old', new' := TextOf(source), TextOf(edit.content);
    PatchTextIsItsLines(old', newline);
    PatchTextIsItsLines(new', newline);
    LinesArePlain(old');
    LinesArePlain(new');
    LinesComeBack(LinesOf(old'), newline);
    LinesComeBack(LinesOf(new'), newline);
  }

  /** The text has the source's kind of line end only, and ends in it. */
  ghost predicate EndsAlike(content: string, source: Option<string>) {
    (if UsesPairs(source) then CrlfOnly(content) else '\r' !in content) && EndsInNewline(content)
  }

  /** A text comes out of a patch as it is exactly when it is in that form already. */
  lemma WrittenAsIs(content: string, source: Option<string>)
    ensures AsPatched(LinesOf(content), source) == content <==> EndsAlike(content, source)
  {
    var newline := if UsesPairs(source) then "\r\n" else "\n";
    PairsByPosition(source);
    PatchTextIsItsLines(content, newline);
    if UsesPairs(source) {
      OwnCrlfText(content, newline);
    } else {
      OwnUnixText(content, newline);
    }
  }

  /** Every edit changes the lines of its file. */
  ghost predicate AllShow(edits: map<string, Edit>, sources: Sources) {
    && edits.Keys <= sources.Keys
    && forall path :: path in edits ==> LinesOf(TextOf(sources[path])) != LinesOf(TextOf(edits[path].content))
  }

  ghost predicate SaysTheEdit(edit: Edit, source: Option<string>, c: Change) {
    && c.before == (if edit.operation.Create? then None else Some(AsPatched(LinesOf(TextOf(source)), source)))
    && c.after == (if edit.operation.Delete? then None else Some(AsPatched(LinesOf(TextOf(edit.content)), source)))
  }

  /** The changes turn the lines of each source into those of its edit's content. */
  ghost predicate SaysTheEdits(edits: map<string, Edit>, sources: Sources, changes: map<string, Change>) {
    && changes.Keys == edits.Keys
    && forall path :: path in changes ==> path in edits && path in sources && SaysTheEdit(edits[path], sources[path], changes[path])
  }

  lemma ChangesSayTheEdits(edits: map<string, Edit>, sources: Sources, changes: map<string, Change>)
    requires ChangesOf(edits, sources, changes)
    ensures SaysTheEdits(edits, sources, changes)
  {
    forall path | path in changes ensures path in edits && path in sources && SaysTheEdit(edits[path], sources[path], changes[path]) {
      assert path in edits.Keys && ChangeAt(edits, sources, path) == Some(changes[path]);
      ChangeSaysTheEdit(edits[path], sources[path]);
    }
  }

  lemma AllShowExactly(edits: map<string, Edit>, sources: Sources)
    ensures AllChange(edits, sources) <==> AllShow(edits, sources)
  {
    forall path | path in edits
      ensures ChangeAt(edits, sources, path).Some? <==>
                path in sources && LinesOf(TextOf(sources[path])) != LinesOf(TextOf(edits[path].content))
    {
      if path in sources {
        ChangeSaysTheEdit(edits[path], sources[path]);
      }
    }
    if AllChange(edits, sources) {
      forall path | path in edits.Keys ensures path in sources.Keys {
        assert ChangeAt(edits, sources, path).Some?;
      }
    }
  }

  /** `_build_patch`: the change of every edit, refused when one shows no difference. */
  method BuildPatch(edits: map<string, Edit>, sources: Sources, rendering: Rendering) returns (r: Result<Patch, DeveloperError>)
    ensures r.Ok? <==> rendering.size <= MAX_PATCH_BYTES && AllShow(edits, sources)
    ensures r.Ok? ==> r.value.size == rendering.size && r.value.unsafe == rendering.unsafe
    ensures r.Ok? ==> ChangesOf(edits, sources, r.value.changes) && SaysTheEdits(edits, sources, r.value.changes)
  {
    AllShowExactly(edits, sources);
    var changes := MapAll(path => ChangeAt(edits, sources, path), SortSet(edits.Keys));
    SortSetFacts(edits.Keys);
    assert forall path :: path in edits <==> path in Elements(SortSet(edits.Keys));
    if changes.None? {
      return Err(NoChange);
    }
    if rendering.size > MAX_PATCH_BYTES {
      return Err(PatchTooLarge);
    }
    ChangesSayTheEdits(edits, sources, changes.value);
    return Ok(Patch(changes.value, rendering.size, rendering.unsafe));
  }

  lemma ChangesAreReal(edit: Edit, source: Option<string>)
    requires ChangeFor(edit, source).Some?
    ensures RealChange(ChangeFor(edit, source).value)
    ensures ChangeFor(edit, source).value.before.None? <==> edit.operation.Create?
  {
  }

  // ---------------------------------------------------------------- the two activities

  /** Each change is of a planned file, and creates exactly where the plan does. */
  ghost predicate FollowsPlan(p: Proposal, files: seq<PlannedFile>) {
    forall path :: path in p.patch.changes ==>
      exists f :: f in files && FilePath(f) == Some(path) && (p.patch.changes[path].before.None? <==> f.operation.Create?)
  }

  /** The paths that the item may read or write, as it names them. */
  function NamedPaths(item: WorkItem): seq<string> {
    item.readPaths + item.allowedWritePaths
  }

  /** What the model gets to see: the files the item may read or write. */
  ghost function Visible(item: WorkItem): set<string> {
    set path | path in NamedPaths(item) :: PathOf(path)
  }

  lemma VisibleExactly(item: WorkItem, path: string)
    ensures path in Visible(item) <==>
              (exists p :: p in item.readPaths && PathOf(p) == path) || (exists p :: p in item.allowedWritePaths && PathOf(p) == path)
  {
    if p :| p in item.readPaths && PathOf(p) == path {
      assert p in NamedPaths(item);
    }
    if p :| p in item.allowedWritePaths && PathOf(p) == path {
      assert p in NamedPaths(item);
    }
  }

  lemma AllowlistIsVisible(item: WorkItem, files: seq<PlannedFile>)
    requires Keyed(FilePath, files) && NormalPaths(files) == Elements(item.allowedWritePaths)
    ensures NormalPaths(files) <= Visible(item)
  {
    forall path | path in NormalPaths(files) ensures path in Visible(item) {
      var f :| f in files && PathOf(f.path) == path;
      assert FilePath(f).Some?;
      PlanPathNormalForm(f.path);
      assert path in Elements(item.allowedWritePaths) && path in NamedPaths(item) && PathOf(path) == path;
    }
  }

  /** `_read_visible_files` on the item's own paths. */
  method ReadContext(codec: Codec, item: WorkItem, input: Tree) returns (r: Option<Sources>)
    ensures r.Some? <==> Scheduler.AllAccepted(NamedPaths(item)) && WithinContext(codec, input, Visible(item))
    ensures r.Some? ==> r.value == SourcesOf(codec, input, Visible(item))
  {
    var paths := Scheduler.NormalizeAll(NamedPaths(item));
    if paths.None? {
      return None;
    }
    var requested := Elements(paths.value);
    forall path ensures path in requested <==> path in Visible(item) {
      if path in Visible(item) {
        var i :| 0 <= i < |NamedPaths(item)| && PathOf(NamedPaths(item)[i]) == path;
        assert paths.value[i] == path;
      }
      if path in requested {
        var i :| 0 <= i < |paths.value| && paths.value[i] == path;
        assert NamedPaths(item)[i] in NamedPaths(item);
      }
    }
    assert requested == Visible(item);
    r := ReadVisibleFiles(codec, input, requested);
  }

  /** How many bytes the model's answer has in its files' contents. */
  function DesignSize(codec: Codec, design: seq<Edit>): nat {
    if design == [] then 0
    else
      var content := design[|design| - 1].content;
      DesignSize(codec, design[..|design| - 1]) + if content.Some? then |codec.encode(content.value)| else 0
  }

  /** The size is the sum over the edits of the bytes that encode their contents. */
  lemma DesignSizeAdds(codec: Codec, design: seq<Edit>, edit: Edit)
    ensures DesignSize(codec, []) == 0
    ensures edit.content.None? ==> DesignSize(codec, design + [edit]) == DesignSize(codec, design)
    ensures edit.content.Some? ==> DesignSize(codec, design + [edit]) == DesignSize(codec, design) + |codec.encode(edit.content.value)|
  {
    assert (design + [edit])[..|design|] == design;
  }

  /** A design that edits every planned file once, as planned, on a fitting target, and to a visible effect. */
  ghost predicate DesignOk(planned: map<string, PlannedFile>, sources: Sources, design: seq<Edit>, size: nat, rendering: Rendering) {
    && Keyed(EditPath, design) && |Last(EditPath, design)| == |design|
    && DesignFits(Last(EditPath, design), planned, sources) && AllShow(Last(EditPath, design), sources)
    && size <= MAX_PATCH_BYTES && rendering.size <= MAX_PATCH_BYTES
  }

  /** The model's answer: collected, validated and turned into a patch. */
  method DesignPatch(planned: map<string, PlannedFile>, sources: Sources, design: seq<Edit>, size: nat, rendering: Rendering)
    returns (r: Result<Patch, DeveloperError>)
    requires planned.Keys <= sources.Keys
    ensures r.Ok? <==> DesignOk(planned, sources, design, size, rendering)
    ensures r.Ok? ==> ChangesOf(Last(EditPath, design), sources, r.value.changes)
    ensures r.Ok? ==> SaysTheEdits(Last(EditPath, design), sources, r.value.changes)
  {
    var actual := Index(EditPath, design, true);
    if actual.None? {
      return Err(BadEdit);
    }
    var error := ValidateDesign(actual.value, planned, sources, size);
    if error.Some? {
      return Err(error.value);
    }
    r := BuildPatch(actual.value, sources, rendering);
  }

  /** When a design becomes a patch. */
  ghost predicate Developable(codec: Codec, item: WorkItem, input: Tree, files: seq<PlannedFile>, allowDependencies: bool,
                              design: seq<Edit>, rendering: Rendering) {
    && PlannedOk(item, files, allowDependencies)
    && Scheduler.AllAccepted(NamedPaths(item)) && WithinContext(codec, input, Visible(item))
    && DesignOk(Last(FilePath, files), SourcesOf(codec, input, Visible(item)), design, DesignSize(codec, design), rendering)
  }

  lemma DesignHolds(item: WorkItem, input: Tree, files: seq<PlannedFile>, sources: Sources, design: seq<Edit>, p: Proposal)
    requires design != [] && Keyed(EditPath, design) && Keyed(FilePath, files)
    requires NormalPaths(files) == Elements(item.allowedWritePaths)
    requires DesignFits(Last(EditPath, design), Last(FilePath, files), sources)
    requires ChangesOf(Last(EditPath, design), sources, p.patch.changes)
    requires p.item == item.id && p.input == input && p.touched == SortSet(NormalPaths(files))
    ensures IsProposal(item, input, p) && FollowsPlan(p, files) && p.patch.changes.Keys == NormalPaths(files)
  {
    IndexedPaths(files);
    SortSetFacts(NormalPaths(files));
    LastFinds(EditPath, design);
    assert design[0] in design && EditPath(design[0]).value in Last(EditPath, design).Keys;
    ProposalHolds(item, input, files, Last(EditPath, design), sources, p);
  }

  /** `develop_patch`: one design that must edit every planned file as planned. */
  method DevelopPatch(codec: Codec, item: WorkItem, input: Tree, files: seq<PlannedFile>, allowDependencies: bool,
                      design: seq<Edit>, rendering: Rendering) returns (r: Result<Proposal, DeveloperError>)
    requires design != []
    ensures r.Ok? <==> Developable(codec, item, input, files, allowDependencies, design, rendering)
    ensures r.Ok? ==> IsProposal(item, input, r.value) && FollowsPlan(r.value, files)
    ensures r.Ok? ==> r.value.touched == SortSet(NormalPaths(files)) && r.value.patch.changes.Keys == NormalPaths(files)
    ensures r.Ok? ==>
              var edits, sources := Last(EditPath, design), SourcesOf(codec, input, Visible(item));
              ChangesOf(edits, sources, r.value.patch.changes) && SaysTheEdits(edits, sources, r.value.patch.changes)
  {
    var planned :- CheckPlanned(item, files, allowDependencies);
    var sources := ReadContext(codec, item, input);
    if sources.None? {
      return Err(BadSource);
    }
    AllowlistIsVisible(item, files);
    assert planned.Keys <= sources.value.Keys;
    var patch :- DesignPatch(planned, sources.value, design, DesignSize(codec, design), rendering);
    var proposal := Proposal(item.id, input, patch, SortSet(planned.Keys));
    DesignHolds(item, input, files, sources.value, design, proposal);
    return Ok(proposal);
  }

  lemma ProposalHolds(item: WorkItem, input: Tree, files: seq<PlannedFile>, edits: map<string, Edit>, sources: Sources, p: Proposal)
    requires Keyed(FilePath, files) && NormalPaths(files) == Elements(item.allowedWritePaths)
    requires edits.Keys != {} && edits.Keys <= NormalPaths(files) && ChangesOf(edits, sources, p.patch.changes)
    requires var planned := Last(FilePath, files);
             forall path :: path in edits ==> path in planned && edits[path].operation == planned[path].operation
    requires p.item == item.id && p.input == input && Elements(p.touched) == edits.Keys
    ensures IsProposal(item, input, p) && FollowsPlan(p, files)
  {
    var planned := Last(FilePath, files);
    LastFinds(FilePath, files);
    forall path | path in p.patch.changes
      ensures RealChange(p.patch.changes[path]) && planned[path] in files && FilePath(planned[path]) == Some(path)
      ensures p.patch.changes[path].before.None? <==> planned[path].operation.Create?
    {
      assert ChangeAt(edits, sources, path) == Some(p.patch.changes[path]);
      ChangesAreReal(edits[path], sources[path]);
    }
  }

  /** What the agent does in its workspace: any writes and deletes, of which some are refused. */
  method Work(backend: ArchiveWorkspaceBackend, ops: seq<Op>, writePaths: seq<string>)
    modifies backend
    ensures backend.current == Session(backend.codec, old(backend.current), ops, writePaths)
  {
    for i := 0 to |ops|
      invariant backend.current == Session(backend.codec, old(backend.current), ops[..i], writePaths)
    {
      assert ops[..i + 1][..i] == ops[..i];
      match ops[i]
      case Write(path, content) => var _ := backend.WriteFile(path, content, writePaths);
      case Remove(path) => var _ := backend.DeleteFile(path, writePaths);
    }
    assert ops[..|ops|] == ops;
  }

  function EditMap(edits: seq<Edit>): map<string, Edit> {
    if edits == [] then map[] else EditMap(edits[..|edits| - 1])[edits[|edits| - 1].path := edits[|edits| - 1]]
  }

  lemma {:induction false} EditMapHolds(edits: seq<Edit>)
    ensures EditMap(edits).Keys == Elements(PathsOf(edits))
    ensures forall path :: path in EditMap(edits) ==> EditMap(edits)[path] in edits && EditMap(edits)[path].path == path
  {
    if edits != [] {
      var n := |edits| - 1;
      EditMapHolds(edits[..n]);
      assert PathsOf(edits) == PathsOf(edits[..n]) + [edits[n].path];
      ElementsAppend(PathsOf(edits[..n]), [edits[n].path]);
    }
  }

  /** What became of a path in the agent's workspace, as an edit. */
  function AgentEdit(codec: Codec, original: Tree, current: Tree, path: string): Edit {
    Edit(path, if path !in current then Delete else if path in original then Modify else Create,
         if path in current then codec.decode(current[path]) else None)
  }

  function AgentChanges(codec: Codec, original: Tree, current: Tree): map<string, Edit> {
    map path | path in Changed(original, current) :: AgentEdit(codec, original, current, path)
  }

  lemma EditsAreChanges(codec: Codec, original: Tree, current: Tree, edits: seq<Edit>)
    requires codec.Lossless() && AllFit(codec, original, current, edits) && Elements(PathsOf(edits)) == Changed(original, current)
    ensures EditMap(edits) == AgentChanges(codec, original, current)
  {
    EditMapHolds(edits);
    forall path | path in EditMap(edits) ensures EditMap(edits)[path] == AgentEdit(codec, original, current, path) {
      var i :| 0 <= i < |edits| && edits[i] == EditMap(edits)[path];
      FittingEdit(codec, original, current, edits[i]);
    }
  }

  lemma FittingEdit(codec: Codec, original: Tree, current: Tree, edit: Edit)
    requires codec.Lossless() && EditFits(codec, original, current, edit)
    ensures edit == AgentEdit(codec, original, current, edit.path)
  {
  }

  /** Each change has its planned operation. */
  ghost predicate AsPlanned(edits: map<string, Edit>, planned: map<string, PlannedFile>) {
    forall path :: path in edits ==> path in planned && edits[path].operation == planned[path].operation
  }

  /** The workspace edits, if they may be reported, there are any, and each has its planned operation. */
  method AgentEdits(backend: ArchiveWorkspaceBackend, planned: map<string, PlannedFile>)
    returns (r: Result<map<string, Edit>, DeveloperError>)
    requires backend.codec.Lossless()
    ensures r.Ok? <==>
              var changed, writePaths := Changed(backend.original, backend.current), SortSet(planned.Keys);
              && AllNormal(writePaths) && changed <= Normals(writePaths) && changed != {}
              && TextChanges(backend.codec, backend.original, backend.current)
              && AsPlanned(AgentChanges(backend.codec, backend.original, backend.current), planned)
    ensures r.Ok? ==> r.value == AgentChanges(backend.codec, backend.original, backend.current)
  {
    var reported := backend.FinalEdits(SortSet(planned.Keys));
    if reported.Err? {
      return Err(OutsideAllowlist(reported.error));
    }
    SortSetFacts(Changed(backend.original, backend.current));
    EditsAreChanges(backend.codec, backend.original, backend.current, reported.value);
    EmptyElements(PathsOf(reported.value));
    if reported.value == [] {
      return Err(NoChange);
    }
    assert PathsOf(reported.value) != [];
    var edits := EditMap(reported.value);
    if exists path | path in edits :: path !in planned || planned[path].operation != edits[path].operation {
      return Err(OperationMismatch);
    }
    return Ok(edits);
  }

  /** The agent's session in a workspace of its own, and the edits it amounts to. */
  method AgentSession(codec: Codec, input: Tree, planned: map<string, PlannedFile>, ops: seq<Op>)
    returns (r: Result<map<string, Edit>, DeveloperError>)
    requires codec.Lossless()
    ensures var current := Session(codec, input, ops, SortSet(planned.Keys));
            && (r.Ok? <==> AgentChanges(codec, input, current) != map[] && AsPlanned(AgentChanges(codec, input, current), planned))
            && (r.Ok? ==> r.value == AgentChanges(codec, input, current))
  {
    var backend := new ArchiveWorkspaceBackend(codec, input);
    Work(backend, ops, SortSet(planned.Keys));
    SessionStaysInside(codec, input, ops, SortSet(planned.Keys));
    assert AgentChanges(codec, input, backend.current).Keys == Changed(input, backend.current);
    r := AgentEdits(backend, planned);
  }

  /** When an agent's session becomes a patch: it changed something, and each change shows and is as planned. */
  ghost predicate SessionDevelopable(codec: Codec, item: WorkItem, input: Tree, files: seq<PlannedFile>, allowDependencies: bool,
                                     current: Tree, rendering: Rendering) {
    var edits := AgentChanges(codec, input, current);
    && PlannedOk(item, files, allowDependencies) && edits != map[] && AsPlanned(edits, Last(FilePath, files))
    && Readable(codec, input, edits.Keys) && AllShow(edits, SourcesOf(codec, input, edits.Keys))
    && rendering.size <= MAX_PATCH_BYTES
  }

  /** The tree in the workspace after the agent's session. */
  function AfterSession(codec: Codec, input: Tree, files: seq<PlannedFile>, ops: seq<Op>): Tree {
    Session(codec, input, ops, SortSet(Last(FilePath, files).Keys))
  }

  lemma SessionHolds(item: WorkItem, input: Tree, files: seq<PlannedFile>, edits: map<string, Edit>, sources: Sources, p: Proposal)
    requires Keyed(FilePath, files) && NormalPaths(files) == Elements(item.allowedWritePaths)
    requires edits != map[] && AsPlanned(edits, Last(FilePath, files)) && ChangesOf(edits, sources, p.patch.changes)
    requires p.item == item.id && p.input == input && p.touched == SortSet(edits.Keys)
    ensures IsProposal(item, input, p) && FollowsPlan(p, files)
  {
    IndexedPaths(files);
    SortSetFacts(edits.Keys);
    forall path | path in edits.Keys ensures path in NormalPaths(files) {
      assert path in Last(FilePath, files).Keys;
    }
    ProposalHolds(item, input, files, edits, sources, p);
  }

  /** The files that the agent's workspace starts from. */
  function WorkspaceOf(input: Tree): Tree {
    Contents(Kept(Packed(input)))
  }

  /** `develop_patch_with_agent`: whatever the agent did, the patch is its workspace's changes. */
  method DevelopPatchWithAgent(codec: Codec, item: WorkItem, input: Tree, files: seq<PlannedFile>, allowDependencies: bool,
                               ops: seq<Op>, rendering: Rendering) returns (r: Result<Proposal, DeveloperError>)
    requires codec.Lossless()
    ensures var original := WorkspaceOf(input);
            var current := AfterSession(codec, original, files, ops);
            && (r.Ok? <==>
                  && Loadable(Packed(input))
                  && SessionDevelopable(codec, item, original, files, allowDependencies, current, rendering))
            && (r.Ok? ==>
                  var edits := AgentChanges(codec, original, current);
                  && r.value.touched == SortSet(edits.Keys)
                  && ChangesOf(edits, SourcesOf(codec, original, edits.Keys), r.value.patch.changes)
                  && SaysTheEdits(edits, SourcesOf(codec, original, edits.Keys), r.value.patch.changes))
    ensures r.Ok? ==> IsProposal(item, input, r.value) && FollowsPlan(r.value, files)
  {
    var planned :- CheckPlanned(item, files, allowDependencies);
    var archive := Pack(input);
    var loaded := Load(archive);
    if loaded.Err? {
      return Err(BadWorkspace(loaded.error));
    }
    var original := loaded.value;
    var edits :- AgentSession(codec, original, planned, ops);
    var sources := ReadFiles(codec, original, edits.Keys);
    if sources.None? {
      return Err(BadSource);
    }
    var patch :- BuildPatch(edits, sources.value, rendering);
    var proposal := Proposal(item.id, input, patch, SortSet(edits.Keys));
    SessionHolds(item, input, files, edits, sources.value, proposal);
    return Ok(proposal);
  }
}
