/**
 The coding agent's workspace: a tracked snapshot, staged edits on exact paths, and the archives
 it is loaded from and packed into.
 */
module Workspace {
  import opened Outcomes
  import opened Ordering
  import opened Paths
  import opened Plans

  type Bytes = seq<bv8>

  type Tree = map<string, Bytes>

  /** UTF-8: text and the bytes that encode it. */
  datatype Codec = Codec(encode: string -> Bytes, decode: Bytes -> Option<string>) {
    ghost predicate Lossless() {
      && (forall text :: decode(encode(text)) == Some(text))
      && (forall bytes :: decode(bytes).Some? ==> encode(decode(bytes).value) == bytes)
    }
  }

  /** A character as a run of zeros, ended by a one. */
  function Zeros(n: nat): (bytes: Bytes)
    ensures |bytes| == n && forall i :: 0 <= i < n ==> bytes[i] == 0
  {
    seq(n, i => 0)
  }

  function InUnary(text: string): Bytes {
    if text == "" then [] else Zeros(text[0] as int) + [1] + InUnary(text[1..])
  }

  function LeadingZeros(bytes: Bytes): nat {
    if bytes == [] || bytes[0] != 0 then 0 else 1 + LeadingZeros(bytes[1..])
  }

  lemma {:induction false} ZerosLead(n: nat, rest: Bytes)
    ensures LeadingZeros(Zeros(n) + [1] + rest) == n
  {
    if n > 0 {
      assert (Zeros(n) + [1] + rest)[1..] == Zeros(n - 1) + [1] + rest;
      ZerosLead(n - 1, rest);
    }
  }

  lemma UnaryHead(m: nat, n: nat, a: Bytes, b: Bytes)
    requires Zeros(m) + [1] + a == Zeros(n) + [1] + b
    ensures m == n && a == b
  {
    ZerosLead(m, a);
    ZerosLead(n, b);
    assert a == (Zeros(m) + [1] + a)[m + 1..] && b == (Zeros(n) + [1] + b)[n + 1..];
  }

  lemma {:induction false} UnaryIsInjective(a: string, b: string)
    requires InUnary(a) == InUnary(b)
    ensures a == b
  {
    if a != "" && b != "" {
      UnaryHead(a[0] as int, b[0] as int, InUnary(a[1..]), InUnary(b[1..]));
      UnaryIsInjective(a[1..], b[1..]);
      assert a == [a[0]] + a[1..] && b == [b[0]] + b[1..];
    }
  }

  predicate Encodes(text: string, bytes: Bytes) {
    InUnary(text) == bytes
  }

  ghost function FromUnary(bytes: Bytes): Option<string> {
    if exists text :: Encodes(text, bytes) then
      var text :| Encodes(text, bytes);
      Some(text)
    else None
  }

  /** There are encodings that lose nothing. */
  lemma SomeCodecIsLossless() returns (codec: Codec)
    ensures codec.Lossless()
  {
    codec := Codec(InUnary, bytes => FromUnary(bytes));
    forall text ensures codec.decode(codec.encode(text)) == Some(text) {
      assert Encodes(text, InUnary(text));
      UnaryIsInjective(FromUnary(InUnary(text)).value, text);
    }
  }

  datatype Edit = Edit(path: string, operation: Operation, content: Option<string>)

  datatype WorkspaceError = PathDenied | NoSuchFile | Unapproved(paths: seq<string>) | NotText

  // ---------------------------------------------------------------- changes and edits

  function Lookup(tree: Tree, path: string): Option<Bytes> {
    if path in tree then Some(tree[path]) else None
  }

  function Changed(original: Tree, current: Tree): set<string> {
    set path | path in original.Keys + current.Keys && Lookup(original, path) != Lookup(current, path)
  }

  predicate AllNormal(paths: seq<string>) {
    forall p :: p in paths ==> NormalizeRelativePath(p).Some?
  }

  ghost function Normals(paths: seq<string>): set<string> {
    set p | p in paths && NormalizeRelativePath(p).Some? :: NormalizeRelativePath(p).value
  }

  lemma NormalsStep(paths: seq<string>, i: nat)
    requires i < |paths|
    ensures AllNormal(paths[..i + 1]) <==> AllNormal(paths[..i]) && NormalizeRelativePath(paths[i]).Some?
    ensures Normals(paths[..i + 1]) ==
              Normals(paths[..i]) + match NormalizeRelativePath(paths[i]) case Some(n) => {n} case None => {}
  {
    assert paths[..i + 1] == paths[..i] + [paths[i]];
  }

  /** What applying an edit to a tree gives. */
  function Applied(codec: Codec, tree: Tree, edit: Edit): Tree {
    match edit.content
    case None => tree - {edit.path}
    case Some(text) => tree[edit.path := codec.encode(text)]
  }

  function Replayed(codec: Codec, tree: Tree, edits: seq<Edit>): Tree {
    if edits == [] then tree else Applied(codec, Replayed(codec, tree, edits[..|edits| - 1]), edits[|edits| - 1])
  }

  /** The edit says what became of its path. */
  predicate EditFits(codec: Codec, original: Tree, current: Tree, edit: Edit) {
    && Lookup(original, edit.path) != Lookup(current, edit.path)
    && edit.operation == (if edit.path !in current then Delete else if edit.path in original then Modify else Create)
    && (edit.content.None? <==> edit.path !in current)
    && (edit.content.Some? ==> codec.encode(edit.content.value) == current[edit.path])
  }

  function PathsOf(edits: seq<Edit>): seq<string> {
    seq(|edits|, i requires 0 <= i < |edits| => edits[i].path)
  }

  ghost predicate AllFit(codec: Codec, original: Tree, current: Tree, edits: seq<Edit>) {
    forall i :: 0 <= i < |edits| ==> EditFits(codec, original, current, edits[i])
  }

  /** Edits that fit agree with the current tree on their paths and leave the others alone. */
  lemma {:induction false} ReplayedAt(codec: Codec, original: Tree, current: Tree, edits: seq<Edit>, path: string)
    requires AllFit(codec, original, current, edits)
    ensures Lookup(Replayed(codec, original, edits), path) ==
              if path in PathsOf(edits) then Lookup(current, path) else Lookup(original, path)
  {
    if edits != [] {
      var n := |edits| - 1;
      ReplayedAt(codec, original, current, edits[..n], path);
      assert EditFits(codec, original, current, edits[n]);
      assert PathsOf(edits) == PathsOf(edits[..n]) + [edits[n].path];
    }
  }

  /** Edits that fit and cover every change rebuild the current tree from the original. */
  lemma ReplayGivesCurrent(codec: Codec, original: Tree, current: Tree, edits: seq<Edit>)
    requires AllFit(codec, original, current, edits) && Elements(PathsOf(edits)) == Changed(original, current)
    ensures Replayed(codec, original, edits) == current
  {
    var replayed := Replayed(codec, original, edits);
    forall path ensures Lookup(replayed, path) == Lookup(current, path) {
      ReplayedAt(codec, original, current, edits, path);
      assert path in PathsOf(edits) <==> path in Elements(PathsOf(edits));
    }
    SameLookups(replayed, current);
  }

  lemma SameLookups(a: Tree, b: Tree)
    requires forall path :: Lookup(a, path) == Lookup(b, path)
    ensures a == b
  {
    forall path ensures path in a <==> path in b {
      assert Lookup(a, path) == Lookup(b, path);
    }
    forall path | path in a ensures a[path] == b[path] {
      assert Lookup(a, path) == Lookup(b, path);
    }
  }

  class ArchiveWorkspaceBackend {
    const codec: Codec
    const original: Tree
    var current: Tree

    constructor (codec: Codec, files: Tree)
      ensures this.codec == codec && original == files && current == files
    {
      this.codec, original, current := codec, files, files;
    }

    method WriteFile(path: string, content: string, writePaths: seq<string>) returns (r: Result<string, WorkspaceError>)
      modifies this
      ensures current == Performed(codec, old(current), Write(path, content), writePaths)
      ensures r.Ok? <==> RequireAllowedPath(path, writePaths).Some?
      ensures r.Ok? ==> r.value in Normals(writePaths) && r.value in current && current[r.value] == codec.encode(content)
    {
      var allowed := RequireAllowedPath(path, writePaths);
      if allowed.None? {
        return Err(PathDenied);
      }
      AllowedIsNormal(path, writePaths);
      current := current[allowed.value := codec.encode(content)];
      return Ok(allowed.value);
    }

    method DeleteFile(path: string, writePaths: seq<string>) returns (r: Result<string, WorkspaceError>)
      modifies this
      ensures current == Performed(codec, old(current), Remove(path), writePaths)
      ensures r.Ok? <==> RequireAllowedPath(path, writePaths).Some? && RequireAllowedPath(path, writePaths).value in old(current)
      ensures r.Ok? ==> r.value in Normals(writePaths) && r.value !in current
    {
      var allowed := RequireAllowedPath(path, writePaths);
      if allowed.None? {
        return Err(PathDenied);
      }
      if allowed.value !in current {
        return Err(NoSuchFile);
      }
      AllowedIsNormal(path, writePaths);
      current := current - {allowed.value};
      return Ok(allowed.value);
    }

    /** `final_edits`: exactly the changes, in order, or the reason they cannot be reported. */
    method FinalEdits(writePaths: seq<string>) returns (r: Result<seq<Edit>, WorkspaceError>)
      requires codec.Lossless()
      ensures r.Ok? <==>
                AllNormal(writePaths) && Changed(original, current) <= Normals(writePaths) && TextChanges(codec, original, current)
      ensures r.Ok? ==> PathsOf(r.value) == SortSet(Changed(original, current)) && AllFit(codec, original, current, r.value)
      ensures r.Ok? ==> Replayed(codec, original, r.value) == current
    {
      var error := Unreportable(writePaths);
      if error.Some? {
        return Err(error.value);
      }
      SortSetFacts(Changed(original, current));
      r := EditsFor(SortSet(Changed(original, current)));
    }

    method Unreportable(writePaths: seq<string>) returns (error: Option<WorkspaceError>)
      ensures error.None? <==> AllNormal(writePaths) && Changed(original, current) <= Normals(writePaths)
    {
      var allowed := NormalizeAllowed(writePaths);
      if allowed.None? {
        return Some(PathDenied);
      }
      var denied := Changed(original, current) - allowed.value;
      if denied != {} {
        return Some(Unapproved(SortSet(denied)));
      }
      assert forall path :: path in Changed(original, current) ==> path !in denied;
      return None;
    }

    method EditsFor(paths: seq<string>) returns (r: Result<seq<Edit>, WorkspaceError>)
      requires codec.Lossless() && Elements(paths) == Changed(original, current)
      ensures r.Ok? <==> TextChanges(codec, original, current)
      ensures r.Ok? ==> PathsOf(r.value) == paths && AllFit(codec, original, current, r.value)
      ensures r.Ok? ==> Replayed(codec, original, r.value) == current
    {
      var edits: seq<Edit> := [];
      for i := 0 to |paths|
        invariant PathsOf(edits) == paths[..i] && AllFit(codec, original, current, edits)
        invariant forall k :: 0 <= k < i ==> IsText(codec, current, paths[k])
      {
        assert paths[i] in Elements(paths);
        var edit :- EditFor(paths[i]);
        assert PathsOf(edits + [edit]) == PathsOf(edits) + [paths[i]];
        edits := edits + [edit];
      }
      assert paths[..|paths|] == paths;
      forall path | path in Changed(original, current) ensures IsText(codec, current, path) {
        assert path in Elements(paths);
      }
      ReplayGivesCurrent(codec, original, current, edits);
      return Ok(edits);
    }

    method EditFor(path: string) returns (r: Result<Edit, WorkspaceError>)
      requires codec.Lossless() && path in Changed(original, current)
      ensures r.Ok? <==> IsText(codec, current, path)
      ensures r.Ok? ==> r.value.path == path && EditFits(codec, original, current, r.value)
    {
      if path !in current {
        return Ok(Edit(path, Delete, None));
      }
      var text := codec.decode(current[path]);
      if text.None? {
        return Err(NotText);
      }
      return Ok(Edit(path, if path in original then Modify else Create, text));
    }

    method NormalizeAllowed(paths: seq<string>) returns (r: Option<set<string>>)
      ensures r.Some? <==> AllNormal(paths)
      ensures r.Some? ==> r.value == Normals(paths)
    {
      var normals: set<string> := {};
      for i := 0 to |paths|
        invariant AllNormal(paths[..i]) && normals == Normals(paths[..i])
      {
        var normal := NormalizeRelativePath(paths[i]);
        assert paths[i] in paths;
        NormalsStep(paths, i);
        if normal.None? {
          return None;
        }
        normals := normals + {normal.value};
      }
      assert paths[..|paths|] == paths;
      return Some(normals);
    }
  }

  predicate IsText(codec: Codec, current: Tree, path: string) {
    path in current ==> codec.decode(current[path]).Some?
  }

  ghost predicate TextChanges(codec: Codec, original: Tree, current: Tree) {
    forall path :: path in Changed(original, current) ==> IsText(codec, current, path)
  }

  // ---------------------------------------------------------------- whole sessions

  datatype Op = Write(path: string, content: string) | Remove(path: string)

  /** The tree after a write or a delete; one that is refused leaves it as it is. */
  function Performed(codec: Codec, tree: Tree, op: Op, writePaths: seq<string>): Tree {
    match RequireAllowedPath(op.path, writePaths)
    case None => tree
    case Some(path) => if op.Write? then tree[path := codec.encode(op.content)] else tree - {path}
  }

  function Session(codec: Codec, tree: Tree, ops: seq<Op>, writePaths: seq<string>): Tree {
    if ops == [] then tree
    else Performed(codec, Session(codec, tree, ops[..|ops| - 1], writePaths), ops[|ops| - 1], writePaths)
  }

  lemma AllowedIsNormal(value: string, writePaths: seq<string>)
    requires RequireAllowedPath(value, writePaths).Some?
    ensures AllNormal(writePaths) && RequireAllowedPath(value, writePaths).value in Normals(writePaths)
  {
  }

  /**
   A whole session: nothing outside the allowlist has changed, what has changed is text, and so
   the final edits can be reported for that allowlist unless it was refused all along.
   */
  lemma {:induction false} SessionStaysInside(codec: Codec, original: Tree, ops: seq<Op>, writePaths: seq<string>)
    requires codec.Lossless()
    ensures var current := Session(codec, original, ops, writePaths);
            && Changed(original, current) <= Normals(writePaths)
            && TextChanges(codec, original, current)
            && (current != original ==> AllNormal(writePaths))
  {
    if ops != [] {
      var n := |ops| - 1;
      SessionStaysInside(codec, original, ops[..n], writePaths);
      var before := Session(codec, original, ops[..n], writePaths);
      var current := Session(codec, original, ops, writePaths);
      if RequireAllowedPath(ops[n].path, writePaths).Some? {
        AllowedIsNormal(ops[n].path, writePaths);
        var path := RequireAllowedPath(ops[n].path, writePaths).value;
        forall other | other in Changed(original, current)
          ensures other in Normals(writePaths) && IsText(codec, current, other)
        {
          if other != path {
            assert other in Changed(original, before);
          }
        }
      }
    }
  }

  // ---------------------------------------------------------------- archives

  datatype Member = Member(name: string, isFile: bool, content: Bytes)

  datatype LoadError = BadName | DuplicateOrTooMany | TooLarge

  const MAX_ARCHIVE_FILES := 20_000
  const MAX_ARCHIVE_BYTES := 128 * 1024 * 1024

  datatype Entry = Entry(path: string, content: Bytes)

  function MemberPath(m: Member): Option<string> {
    NormalizeRelativePath(RemovePrefix(m.name, "./"))
  }

  predicate Hidden(path: string) {
    StartsWith(path, ".repopilot/") || StartsWith(path, ".git/")
  }

  /** The workflow's own directory and git's are hidden, and nothing else is. */
  lemma HiddenExactly(path: string)
    ensures Hidden(path) <==> exists rest :: path == ".repopilot/" + rest || path == ".git/" + rest
  {
    if Hidden(path) {
      assert path == ".repopilot/" + path[if ".repopilot/" <= path then 11 else 0..] || path == ".git/" + path[if ".git/" <= path then 5 else 0..];
    }
  }

  /** What a member contributes. */
  function EntryOf(m: Member): Option<Entry> {
    if !m.isFile || MemberPath(m).None? || Hidden(MemberPath(m).value) then None
    else Some(Entry(MemberPath(m).value, m.content))
  }

  function Append<T>(xs: seq<T>, x: Option<T>): seq<T> {
    if x.Some? then xs + [x.value] else xs
  }

  /** The values that `f` gives for the elements of a list, in order. */
  function Collect<T, U>(f: T -> Option<U>, xs: seq<T>): seq<U> {
    if xs == [] then [] else Append(Collect(f, xs[..|xs| - 1]), f(xs[|xs| - 1]))
  }

  lemma {:induction false} CollectAll<T, U>(f: T -> Option<U>, xs: seq<T>, ys: seq<U>)
    requires |xs| == |ys| && forall k :: 0 <= k < |xs| ==> f(xs[k]) == Some(ys[k])
    ensures Collect(f, xs) == ys
  {
    if xs != [] {
      CollectAll(f, xs[..|xs| - 1], ys[..|ys| - 1]);
    }
  }

  lemma {:induction false} CollectedFrom<T, U>(f: T -> Option<U>, xs: seq<T>, y: U) returns (k: nat)
    requires y in Collect(f, xs)
    ensures k < |xs| && f(xs[k]) == Some(y)
  {
    var n := |xs| - 1;
    if f(xs[n]) == Some(y) {
      k := n;
    } else {
      k := CollectedFrom(f, xs[..n], y);
    }
  }

  /** What an archive contributes, in order. */
  function Kept(archive: seq<Member>): seq<Entry> {
    Collect(EntryOf, archive)
  }

  function Size(entries: seq<Entry>): nat {
    if entries == [] then 0 else Size(entries[..|entries| - 1]) + |entries[|entries| - 1].content|
  }

  function PathList(entries: seq<Entry>): seq<string> {
    seq(|entries|, i requires 0 <= i < |entries| => entries[i].path)
  }

  function Contents(entries: seq<Entry>): Tree {
    if entries == [] then map[]
    else Contents(entries[..|entries| - 1])[entries[|entries| - 1].path := entries[|entries| - 1].content]
  }

  predicate MemberOk(m: Member) {
    m.isFile ==> MemberPath(m).Some?
  }

  ghost predicate NamesOk(archive: seq<Member>) {
    forall i :: 0 <= i < |archive| ==> MemberOk(archive[i])
  }

  ghost predicate WithinLimits(entries: seq<Entry>) {
    Distinct(PathList(entries)) && |entries| <= MAX_ARCHIVE_FILES && Size(entries) <= MAX_ARCHIVE_BYTES
  }

  /** What an archive must satisfy to be loaded. */
  ghost predicate Loadable(archive: seq<Member>) {
    NamesOk(archive) && WithinLimits(Kept(archive))
  }

  lemma AppendEntry(entries: seq<Entry>, e: Entry)
    ensures var all := entries + [e];
            && Contents(all) == Contents(entries)[e.path := e.content] && Size(all) == Size(entries) + |e.content|
            && PathList(all) == PathList(entries) + [e.path]
  {
    assert (entries + [e])[..|entries|] == entries;
  }

  lemma {:induction false} ContentsKeys(entries: seq<Entry>)
    ensures Contents(entries).Keys == Elements(PathList(entries))
  {
    if entries != [] {
      var n := |entries| - 1;
      ContentsKeys(entries[..n]);
      assert entries == entries[..n] + [entries[n]];
      AppendEntry(entries[..n], entries[n]);
      ElementsAppend(PathList(entries[..n]), [entries[n].path]);
    }
  }

  lemma DistinctStep(paths: seq<string>, path: string)
    ensures Distinct(paths + [path]) <==> Distinct(paths) && path !in Elements(paths)
  {
    var all := paths + [path];
    if Distinct(all) {
      forall i, j | 0 <= i < j < |paths| ensures paths[i] != paths[j] {
        assert all[i] != all[j];
      }
      forall k | 0 <= k < |paths| ensures paths[k] != path {
        assert all[k] != all[|paths|];
      }
    }
  }

  /** When one entry more is within the limits, as the loader decides it. */
  lemma EntryFits(entries: seq<Entry>, e: Entry)
    ensures WithinLimits(entries + [e]) <==>
              && WithinLimits(entries) && e.path !in Contents(entries)
              && |Contents(entries)| < MAX_ARCHIVE_FILES && Size(entries) + |e.content| <= MAX_ARCHIVE_BYTES
  {
    AppendEntry(entries, e);
    DistinctStep(PathList(entries), e.path);
    ContentsKeys(entries);
    if Distinct(PathList(entries)) {
      DistinctCardinality(PathList(entries));
      assert |Contents(entries)| == |Contents(entries).Keys|;
    }
    assert e.path in Contents(entries) <==> e.path in Contents(entries).Keys;
  }

  lemma LoadStep(archive: seq<Member>, i: nat)
    requires i < |archive|
    ensures Kept(archive[..i + 1]) == Append(Kept(archive[..i]), EntryOf(archive[i]))
    ensures Loadable(archive[..i + 1]) <==>
              NamesOk(archive[..i]) && MemberOk(archive[i]) && WithinLimits(Append(Kept(archive[..i]), EntryOf(archive[i])))
  {
    assert archive[..i + 1][..i] == archive[..i];
    assert archive[..i + 1] == archive[..i] + [archive[i]];
  }

  /** A longer archive is no easier to load. */
  lemma {:induction false} LoadablePrefix(archive: seq<Member>, n: nat)
    requires Loadable(archive) && n <= |archive|
    ensures Loadable(archive[..n])
    decreases |archive| - n
  {
    assert archive[..|archive|] == archive;
    if n < |archive| {
      LoadablePrefix(archive, n + 1);
      LoadStep(archive, n);
      if EntryOf(archive[n]).Some? {
        EntryFits(Kept(archive[..n]), EntryOf(archive[n]).value);
      }
    }
  }

  /** How the loader decides on one member more. */
  predicate Admits(files: Tree, size: nat, m: Member) {
    && MemberOk(m)
    && (EntryOf(m).Some? ==>
          EntryOf(m).value.path !in files && |files| < MAX_ARCHIVE_FILES && size + |m.content| <= MAX_ARCHIVE_BYTES)
  }

  lemma AdmitsExactly(archive: seq<Member>, i: nat)
    requires i < |archive| && Loadable(archive[..i])
    ensures var kept, next := Kept(archive[..i]), Kept(archive[..i + 1]);
            && (Loadable(archive[..i + 1]) <==> Admits(Contents(kept), Size(kept), archive[i]))
            && match EntryOf(archive[i])
               case None => next == kept
               case Some(e) => Contents(next) == Contents(kept)[e.path := e.content] && Size(next) == Size(kept) + |e.content|
    ensures Loadable(archive) ==> Loadable(archive[..i + 1])
  {
    LoadStep(archive, i);
    if EntryOf(archive[i]).Some? {
      EntryFits(Kept(archive[..i]), EntryOf(archive[i]).value);
      AppendEntry(Kept(archive[..i]), EntryOf(archive[i]).value);
    }
    if Loadable(archive) {
      LoadablePrefix(archive, i + 1);
    }
  }

  /** `_load_regular_files` */
  method Load(archive: seq<Member>) returns (r: Result<Tree, LoadError>)
    ensures r.Ok? <==> Loadable(archive)
    ensures r.Ok? ==> r.value == Contents(Kept(archive))
  {
    var files: Tree := map[];
    var size := 0;
    for i := 0 to |archive|
      invariant Loadable(archive[..i]) && files == Contents(Kept(archive[..i])) && size == Size(Kept(archive[..i]))
    {
      AdmitsExactly(archive, i);
      var member := archive[i];
      if !member.isFile {
        continue;
      }
      var path := MemberPath(member);
      if path.None? {
        return Err(BadName);
      }
      if Hidden(path.value) {
        continue;
      }
      if path.value in files || |files| >= MAX_ARCHIVE_FILES {
        return Err(DuplicateOrTooMany);
      }
      size := size + |member.content|;
      if size > MAX_ARCHIVE_BYTES {
        return Err(TooLarge);
      }
      files := files[path.value := member.content];
    }
    assert archive[..|archive|] == archive;
    return Ok(files);
  }

  function MemberFor(files: Tree, path: string): Member {
    Member(path, true, if path in files then files[path] else [])
  }

  function Members(files: Tree, paths: seq<string>): seq<Member> {
    seq(|paths|, i requires 0 <= i < |paths| => MemberFor(files, paths[i]))
  }

  lemma MembersStep(files: Tree, paths: seq<string>, i: nat)
    requires i < |paths|
    ensures Members(files, paths[..i + 1]) == Members(files, paths[..i]) + [MemberFor(files, paths[i])]
  {
  }

  function Packed(files: Tree): seq<Member> {
    Members(files, SortSet(files.Keys))
  }

  /** `_pack_regular_files` */
  method Pack(files: Tree) returns (archive: seq<Member>)
    ensures archive == Packed(files)
  {
    var paths := SortSet(files.Keys);
    SortSetFacts(files.Keys);
    archive := [];
    for i := 0 to |paths|
      invariant archive == Members(files, paths[..i])
    {
      assert paths[i] in Elements(paths);
      MembersStep(files, paths, i);
      archive := archive + [Member(paths[i], true, files[paths[i]])];
    }
    assert paths[..|paths|] == paths;
  }

  function Entries(files: Tree, paths: seq<string>): seq<Entry> {
    seq(|paths|, i requires 0 <= i < |paths| => Entry(paths[i], if paths[i] in files then files[paths[i]] else []))
  }

  /** A path that the archives can carry: visible, and its own normal form. */
  predicate Storable(path: string) {
    NormalizeRelativePath(path) == Some(path) && !Hidden(path)
  }

  ghost predicate Packable(files: Tree) {
    && (forall path :: path in files ==> Storable(path))
    && |files| <= MAX_ARCHIVE_FILES && Size(Entries(files, SortSet(files.Keys))) <= MAX_ARCHIVE_BYTES
  }

  /** A normal form does not start with `./`, so the archive names keep it. */
  lemma NormalKeepsItsName(value: string)
    requires NormalizeRelativePath(value).Some?
    ensures RemovePrefix(NormalizeRelativePath(value).value, "./") == NormalizeRelativePath(value).value
  {
    RelativeNormalForm(value);
    NamesJoined(Denotes(value).trail);
  }

  lemma StorableIsKept(files: Tree, path: string)
    requires path in files && Storable(path)
    ensures EntryOf(MemberFor(files, path)) == Some(Entry(path, files[path])) && MemberOk(MemberFor(files, path))
  {
    NormalKeepsItsName(path);
  }

  lemma {:induction false} ContentsAt(entries: seq<Entry>, k: nat)
    requires k < |entries| && Distinct(PathList(entries))
    ensures entries[k].path in Contents(entries) && Contents(entries)[entries[k].path] == entries[k].content
  {
    var n := |entries| - 1;
    assert entries == entries[..n] + [entries[n]];
    AppendEntry(entries[..n], entries[n]);
    DistinctStep(PathList(entries[..n]), entries[n].path);
    if k < n {
      assert PathList(entries[..n])[k] == entries[k].path;
      ContentsAt(entries[..n], k);
    }
  }

  lemma PackedIsKept(files: Tree)
    requires forall path :: path in files ==> Storable(path)
    ensures Kept(Packed(files)) == Entries(files, SortSet(files.Keys)) && NamesOk(Packed(files))
  {
    var paths := SortSet(files.Keys);
    SortSetFacts(files.Keys);
    var members, entries := Members(files, paths), Entries(files, paths);
    forall k | 0 <= k < |paths| ensures EntryOf(members[k]) == Some(entries[k]) && MemberOk(members[k]) {
      assert paths[k] in Elements(paths);
      StorableIsKept(files, paths[k]);
    }
    CollectAll(EntryOf, members, entries);
  }

  lemma EntriesGiveTheTree(files: Tree)
    ensures var entries := Entries(files, SortSet(files.Keys));
            Contents(entries) == files && Distinct(PathList(entries)) && |entries| == |files|
  {
    var paths := SortSet(files.Keys);
    var entries := Entries(files, paths);
    SortSetFacts(files.Keys);
    StrictlySortedIsDistinct(paths);
    assert PathList(entries) == paths;
    ContentsKeys(entries);
    assert Contents(entries).Keys == files.Keys;
    forall path | path in files ensures Contents(entries)[path] == files[path] {
      EntryOfPath(files, paths, path);
    }
  }

  lemma EntryOfPath(files: Tree, paths: seq<string>, path: string)
    requires path in files && path in Elements(paths) && Distinct(paths)
    ensures path in Contents(Entries(files, paths)) && Contents(Entries(files, paths))[path] == files[path]
  {
    var entries := Entries(files, paths);
    assert PathList(entries) == paths;
    var k :| 0 <= k < |paths| && paths[k] == path;
    ContentsAt(entries, k);
  }

  /** Packing and then loading gives the same tree, for every tree the limits and the names admit. */
  lemma PackThenLoad(files: Tree)
    requires Packable(files)
    ensures Loadable(Packed(files)) && Contents(Kept(Packed(files))) == files
  {
    PackedIsKept(files);
    EntriesGiveTheTree(files);
  }

  lemma LoadedName(archive: seq<Member>, path: string) returns (value: string)
    requires path in Contents(Kept(archive))
    ensures NormalizeRelativePath(value) == Some(path) && !Hidden(path)
  {
    var entry := EntryWithPath(Kept(archive), path);
    var k := CollectedFrom(EntryOf, archive, entry);
    value := RemovePrefix(archive[k].name, "./");
  }

  lemma EntryWithPath(entries: seq<Entry>, path: string) returns (entry: Entry)
    requires path in Contents(entries)
    ensures entry in entries && entry.path == path
  {
    ContentsKeys(entries);
    assert path in Elements(PathList(entries));
    var k :| 0 <= k < |entries| && PathList(entries)[k] == path;
    entry := entries[k];
  }

  /** A loaded path is a normal form, and as its own name was loaded too, it is its own normal form. */
  lemma LoadedIsStorable(files: Tree, path: string)
    requires Loadable(Packed(files)) && Contents(Kept(Packed(files))) == files && path in files
    ensures Storable(path)
  {
    var value := LoadedName(Packed(files), path);
    NormalKeepsItsName(value);
    RelativeIdempotentExactly(value);
    SortSetFacts(files.Keys);
    assert path in Elements(SortSet(files.Keys));
    var j :| 0 <= j < |SortSet(files.Keys)| && SortSet(files.Keys)[j] == path;
    assert MemberOk(Packed(files)[j]);
  }

  /** The round trip works exactly for the trees that can be packed. */
  lemma RoundTripsExactly(files: Tree)
    ensures Loadable(Packed(files)) && Contents(Kept(Packed(files))) == files <==> Packable(files)
  {
    if Packable(files) {
      PackThenLoad(files);
    }
    if Loadable(Packed(files)) && Contents(Kept(Packed(files))) == files {
      forall path | path in files ensures Storable(path) {
        LoadedIsStorable(files, path);
      }
      PackedIsKept(files);
      EntriesGiveTheTree(files);
    }
  }
}
