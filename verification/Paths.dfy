/**
 The two path normalisers. `NormalizePlanPath` guards plans; `NormalizeRelativePath` guards
 the tools an agent may call. Both are compared with `Denotes`, which walks the components of
 a path from the repository root without building any normal form.
 */
module Paths {
  import opened Outcomes

  // ---------------------------------------------------------------- strings

  function ToSlashes(s: string): (r: string)
    ensures |r| == |s|
    ensures forall i :: 0 <= i < |s| ==> r[i] == if s[i] == '\\' then '/' else s[i]
  {
    seq(|s|, i requires 0 <= i < |s| => if s[i] == '\\' then '/' else s[i])
  }

  predicate StartsWith(s: string, prefix: string) { prefix <= s }

  function RemovePrefix(s: string, prefix: string): string {
    if prefix <= s then s[|prefix|..] else s
  }

  function Split(s: string): (parts: seq<string>)
    ensures |parts| >= 1
    ensures forall i :: 0 <= i < |parts| ==> '/' !in parts[i]
    ensures '\\' !in s ==> forall i :: 0 <= i < |parts| ==> '\\' !in parts[i]
  {
    if s == "" then [""]
    else
      var rest := Split(s[1..]);
      if s[0] == '/' then [""] + rest else [[s[0]] + rest[0]] + rest[1..]
  }

  function Join(parts: seq<string>): string {
    if parts == [] then ""
    else if |parts| == 1 then parts[0]
    else parts[0] + "/" + Join(parts[1..])
  }

  lemma {:induction false} SplitPart(c: string)
    requires '/' !in c
    ensures Split(c) == [c]
  {
    if c != "" {
      SplitPart(c[1..]);
      assert c == [c[0]] + c[1..];
    }
  }

  lemma {:induction false} SplitFirst(c: string, t: string)
    requires '/' !in c
    ensures Split(c + "/" + t) == [c] + Split(t)
  {
    if c == "" {
      assert (c + "/" + t)[1..] == t;
    } else {
      SplitFirst(c[1..], t);
      assert (c + "/" + t)[1..] == c[1..] + "/" + t;
      assert c == [c[0]] + c[1..];
    }
  }

  /** Splitting undoes joining, so a joined path determines its components. */
  lemma {:induction false} SplitJoin(parts: seq<string>)
    requires parts != [] && forall i :: 0 <= i < |parts| ==> '/' !in parts[i]
    ensures Split(Join(parts)) == parts
  {
    if |parts| == 1 {
      SplitPart(parts[0]);
    } else {
      SplitJoin(parts[1..]);
      SplitFirst(parts[0], Join(parts[1..]));
    }
  }

  lemma {:induction false} JoinHasNoBackslash(parts: seq<string>)
    requires forall i :: 0 <= i < |parts| ==> '\\' !in parts[i]
    ensures '\\' !in Join(parts)
  {
    if |parts| > 1 {
      JoinHasNoBackslash(parts[1..]);
    }
  }

  // ---------------------------------------------------------------- what a path denotes

  /** A place reached from the repository root: the names below it, or somewhere else. */
  datatype Place = Outside | Inside(trail: seq<string>)

  /** One step of the walk. Leaving the root once is final, whatever follows. */
  function Step(at: Place, part: string): Place {
    if at.Outside? || part == "" || part == "." then at
    else if part != ".." then Inside(at.trail + [part])
    else if at.trail == [] then Outside
    else Inside(at.trail[..|at.trail| - 1])
  }

  function Walk(at: Place, parts: seq<string>): Place
    decreases |parts|
  {
    if parts == [] then at else Walk(Step(at, parts[0]), parts[1..])
  }

  /** The place a path text denotes; an absolute path denotes nothing in the repository. */
  function Denotes(path: string): Place {
    var text := ToSlashes(path);
    if StartsWith(text, "/") then Outside else Walk(Inside([]), Split(text))
  }

  predicate IsName(part: string) {
    part != "" && part != "." && part != ".." && '/' !in part && '\\' !in part
  }

  ghost predicate Names(trail: seq<string>) {
    forall i :: 0 <= i < |trail| ==> IsName(trail[i])
  }

  // ---------------------------------------------------------------- normalize_plan_path

  /** The component loop of POSIX `normpath`. */
  function Collapse(rooted: bool, parts: seq<string>, kept: seq<string>): seq<string>
    decreases |parts|
  {
    if parts == [] then kept
    else
      var part := parts[0];
      var kept' :=
        if part == "" || part == "." then kept
        else if part != ".." || (!rooted && kept == []) || (kept != [] && kept[|kept| - 1] == "..")
        then kept + [part]
        else if kept != [] then kept[..|kept| - 1]
        else kept;
      Collapse(rooted, parts[1..], kept')
  }

  /** POSIX allows one or two leading slashes to be special; three or more count as one. */
  function Root(path: string): string {
    if !StartsWith(path, "/") then ""
    else if !StartsWith(path, "//") || StartsWith(path, "///") then "/"
    else "//"
  }

  function NormPath(path: string): string {
    if path == "" then "."
    else
      var root := Root(path);
      var rest := if root == "" then path else path[|root|..];
      var text := root + Join(Collapse(root != "", Split(rest), []));
      if text == "" then "." else text
  }

  function NormalizePlanPath(path: string): Option<string> {
    var normalized := RemovePrefix(NormPath(ToSlashes(path)), "./");
    if normalized in {"", ".", ".."} || StartsWith(normalized, "../") then None
    else if StartsWith(normalized, "/") then None
    else Some(normalized)
  }

  // ---------------------------------------------------------------- normalize_relative_path

  predicate HasDrive(value: string) {
    |value| >= 2 && ('A' <= value[0] <= 'Z' || 'a' <= value[0] <= 'z') && value[1] == ':'
  }

  /** A drive prefix is one ASCII letter, of either case, and a colon. */
  lemma DriveExactly(letter: char, rest: string)
    ensures HasDrive([letter] + ":" + rest) <==> 'a' <= letter <= 'z' || 'A' <= letter <= 'Z'
    ensures !HasDrive("") && !HasDrive([letter]) && forall other: char :: other != ':' ==> !HasDrive([letter, other] + rest)
  {
    assert ([letter] + ":" + rest)[0] == letter && ([letter] + ":" + rest)[1] == ':';
    forall other: char | other != ':' ensures !HasDrive([letter, other] + rest) {
      assert ([letter, other] + rest)[1] == other;
    }
  }

  function DropDots(parts: seq<string>): seq<string> {
    if parts == [] then []
    else if parts[0] == "" || parts[0] == "." then DropDots(parts[1..])
    else [parts[0]] + DropDots(parts[1..])
  }

  /** `PurePosixPath(path).as_posix()` */
  function PurePosix(path: string): string {
    var root := Root(path);
    var rest := if root == "" then path else path[|root|..];
    var text := root + Join(DropDots(Split(rest)));
    if text == "" then "." else text
  }

  function NormalizeRelativePath(value: string): Option<string> {
    if value == "" || '\0' in value then None
    else if StartsWith(value, "/") || StartsWith(value, "\\\\") || HasDrive(value) then None
    else
      var text := ToSlashes(value);
      var parts := Split(text);
      if "" in parts || ".." in parts then None
      else
        var normalized := PurePosix(text);
        if normalized in {"", "."} then None else Some(normalized)
  }

  function RequireAllowedPath(value: string, allowed: seq<string>): Option<string> {
    var normalized := NormalizeRelativePath(value);
    if normalized.None? then None
    else if exists p | p in allowed :: NormalizeRelativePath(p).None? then None
    else if exists p | p in allowed :: NormalizeRelativePath(p) == normalized then normalized
    else None
  }

  // ---------------------------------------------------------------- joined names

  lemma NamesJoined(trail: seq<string>)
    requires Names(trail) && trail != []
    ensures Split(Join(trail)) == trail
    ensures ToSlashes(Join(trail)) == Join(trail)
    ensures Root(Join(trail)) == ""
    ensures Join(trail) !in {"", ".", ".."}
    ensures !StartsWith(Join(trail), "/") && !StartsWith(Join(trail), "./") && !StartsWith(Join(trail), "../")
  {
    var text := Join(trail);
    SplitJoin(trail);
    JoinHasNoBackslash(trail);
    FirstComponent(text, "");
    FirstComponent(text, ".");
    FirstComponent(text, "..");
  }

  /** A text equal to `c`, or starting with `c/`, has `c` as its first component. */
  lemma FirstComponent(text: string, c: string)
    requires '/' !in c
    ensures text == c || StartsWith(text, c + "/") ==> Split(text)[0] == c
  {
    if text == c {
      SplitPart(c);
    } else if StartsWith(text, c + "/") {
      SplitFirst(c, text[|c| + 1..]);
      assert text == c + "/" + text[|c| + 1..];
    }
  }

  // ---------------------------------------------------------------- the two agree with the walk

  /**
   The component loop keeps either the trail of the walk, or a list that starts with `..`
   exactly when the walk has left the repository.
   */
  ghost predicate Tracks(kept: seq<string>, at: Place) {
    match at
    case Inside(trail) => kept == trail && Names(trail)
    case Outside => kept != [] && kept[0] == ".." && forall i :: 0 <= i < |kept| ==> '/' !in kept[i]
  }

  lemma {:induction false} CollapseTracksWalk(parts: seq<string>, kept: seq<string>, at: Place)
    requires forall i :: 0 <= i < |parts| ==> '/' !in parts[i] && '\\' !in parts[i]
    requires Tracks(kept, at)
    ensures Tracks(Collapse(false, parts, kept), Walk(at, parts))
  {
    if parts != [] {
      var part := parts[0];
      var kept' :=
        if part == "" || part == "." then kept
        else if part != ".." || kept == [] || kept[|kept| - 1] == ".." then kept + [part]
        else kept[..|kept| - 1];
      assert Tracks(kept', Step(at, part));
      CollapseTracksWalk(parts[1..], kept', Step(at, part));
    }
  }

  lemma {:induction false} WalkNames(at: Place, trail: seq<string>)
    requires at.Inside? && Names(trail)
    ensures Walk(at, trail) == Inside(at.trail + trail)
    decreases |trail|
  {
    if trail == [] {
      assert at.trail + trail == at.trail;
    } else {
      WalkNames(Step(at, trail[0]), trail[1..]);
      assert at.trail + [trail[0]] + trail[1..] == at.trail + trail;
    }
  }

  lemma SlashesHaveNoBackslash(path: string)
    ensures '\\' !in ToSlashes(path)
  {
  }

  lemma WalkKeepsNames(path: string)
    ensures Denotes(path).Inside? ==> Names(Denotes(path).trail)
    ensures !StartsWith(ToSlashes(path), "/") ==>
              Tracks(Collapse(false, Split(ToSlashes(path)), []), Denotes(path))
  {
    var text := ToSlashes(path);
    SlashesHaveNoBackslash(path);
    if !StartsWith(text, "/") {
      CollapseTracksWalk(Split(text), [], Inside([]));
    }
  }

  /**
   `normalize_plan_path` accepts exactly the paths that denote something below the repository
   root, and answers with the names on the way to it.
   */
  lemma PlanPathExact(path: string)
    ensures NormalizePlanPath(path) ==
            (if Denotes(path).Inside? && Denotes(path).trail != []
             then Some(Join(Denotes(path).trail)) else None)
  {
    var text := ToSlashes(path);
    if StartsWith(text, "/") {
      RootedStaysRooted(text);
    } else {
      WalkKeepsNames(path);
      var kept := Collapse(false, Split(text), []);
      if text == "" {
        SplitPart("");
      }
      match Denotes(path)
      case Inside(trail) =>
        if trail == [] {
          assert NormPath(text) == ".";
        } else {
          NamesJoined(trail);
          assert NormPath(text) == Join(trail);
        }
      case Outside =>
        if |kept| == 1 {
          assert NormPath(text) == "..";
        } else {
          assert Join(kept) == "../" + Join(kept[1..]);
          assert NormPath(text) == Join(kept);
        }
    }
  }

  lemma RootedStaysRooted(text: string)
    requires StartsWith(text, "/")
    ensures StartsWith(NormPath(text), "/")
  {
  }

  /** Normalising a plan path keeps the file it denotes, and normalising again changes nothing. */
  lemma PlanPathNormalForm(path: string)
    requires NormalizePlanPath(path).Some?
    ensures var n := NormalizePlanPath(path).value;
            NormalizePlanPath(n) == Some(n) && Denotes(n) == Denotes(path)
  {
    PlanPathExact(path);
    WalkKeepsNames(path);
    var trail := Denotes(path).trail;
    NamesJoined(trail);
    WalkNames(Inside([]), trail);
    assert [] + trail == trail;
    PlanPathExact(Join(trail));
  }

  /** Two accepted plan paths name the same file exactly when their normal forms are equal. */
  lemma SameFileSameNormalForm(p: string, q: string)
    requires NormalizePlanPath(p).Some? && NormalizePlanPath(q).Some?
    ensures Denotes(p) == Denotes(q) <==> NormalizePlanPath(p) == NormalizePlanPath(q)
  {
    PlanPathNormalForm(p);
    PlanPathNormalForm(q);
    PlanPathExact(p);
    PlanPathExact(q);
  }

  // ---------------------------------------------------------------- the tool normaliser

  lemma {:induction false} DropDotsWalk(parts: seq<string>, at: Place)
    requires at.Inside? && ".." !in parts
    requires forall i :: 0 <= i < |parts| ==> '/' !in parts[i] && '\\' !in parts[i]
    ensures Walk(at, parts) == Inside(at.trail + DropDots(parts))
    ensures Names(DropDots(parts))
    decreases |parts|
  {
    if parts == [] {
      assert at.trail + [] == at.trail;
    } else {
      DropDotsWalk(parts[1..], Step(at, parts[0]));
      assert at.trail + [parts[0]] + DropDots(parts[1..]) == at.trail + ([parts[0]] + DropDots(parts[1..]));
    }
  }

  /** What the guards of the tool normaliser leave: a relative text without empty or `..` parts. */
  lemma RelativeParts(value: string)
    requires NormalizeRelativePath(value).Some?
    ensures var text := ToSlashes(value);
            && !StartsWith(text, "/") && "" !in Split(text) && ".." !in Split(text)
            && PurePosix(text) == NormalizeRelativePath(value).value
            && NormalizeRelativePath(value).value !in {"", "."}
  {
    var text := ToSlashes(value);
    FirstComponent(text, "");
    assert Split(text)[0] in Split(text);
  }

  lemma RelativeNormalForm(value: string)
    requires NormalizeRelativePath(value).Some?
    ensures Denotes(value).Inside? && Denotes(value).trail != [] && Names(Denotes(value).trail)
    ensures Denotes(value).trail == DropDots(Split(ToSlashes(value)))
    ensures NormalizeRelativePath(value).value == Join(Denotes(value).trail)
  {
    var text := ToSlashes(value);
    RelativeParts(value);
    SlashesHaveNoBackslash(value);
    DropDotsWalk(Split(text), Inside([]));
    assert [] + DropDots(Split(text)) == DropDots(Split(text));
  }

  /** Whatever the tools accept, plans accept, with the same answer and the same file. */
  lemma RelativeIsPlanPath(value: string)
    requires NormalizeRelativePath(value).Some?
    ensures NormalizePlanPath(value) == NormalizeRelativePath(value)
    ensures Denotes(NormalizeRelativePath(value).value) == Denotes(value)
  {
    RelativeNormalForm(value);
    PlanPathExact(value);
    PlanPathNormalForm(value);
  }

  /** The first component that is not `.`; what the normal form will start with. */
  function FirstNamed(parts: seq<string>): string {
    if parts == [] then ""
    else if parts[0] == "" || parts[0] == "." then FirstNamed(parts[1..])
    else parts[0]
  }

  lemma {:induction false} FirstNamedIsHead(parts: seq<string>)
    requires DropDots(parts) != []
    ensures FirstNamed(parts) == DropDots(parts)[0]
  {
    if parts[0] == "" || parts[0] == "." {
      FirstNamedIsHead(parts[1..]);
    }
  }

  /**
   The tool normaliser is idempotent except on values that hide a drive prefix behind leading
   `.` components: those are accepted, but their own normal form is refused.
   */
  lemma RelativeIdempotentExactly(value: string)
    requires NormalizeRelativePath(value).Some?
    ensures var n := NormalizeRelativePath(value).value;
            NormalizeRelativePath(n) ==
            if HasDrive(FirstNamed(Split(ToSlashes(value)))) then None else Some(n)
  {
    RelativeNormalForm(value);
    var trail := Denotes(value).trail;
    var n := Join(trail);
    NamesJoined(trail);
    FirstNamedIsHead(Split(ToSlashes(value)));
    var head := trail[0];
    assert HasDrive(n) <==> HasDrive(head) by {
      if |trail| > 1 {
        assert n == head + "/" + Join(trail[1..]);
      }
    }
    DropDotsNames(trail);
    assert !StartsWith(n, "\\\\") by { JoinHasNoBackslash(trail); }
    assert "" !in trail && ".." !in trail;
    NoNulInNormalForm(value);
  }

  lemma {:induction false} DropDotsNames(trail: seq<string>)
    requires Names(trail)
    ensures DropDots(trail) == trail
  {
    if trail != [] {
      DropDotsNames(trail[1..]);
      assert trail == [trail[0]] + trail[1..];
    }
  }

  lemma NoNulInNormalForm(value: string)
    requires '\0' !in value
    ensures '\0' !in Join(DropDots(Split(ToSlashes(value))))
  {
    assert '\0' !in ToSlashes(value);
    SplitHasNo('\0', ToSlashes(value));
    JoinHasNo('\0', Split(ToSlashes(value)));
  }

  lemma {:induction false} SplitHasNo(c: char, s: string)
    requires c !in s
    ensures forall i :: 0 <= i < |Split(s)| ==> c !in Split(s)[i]
  {
    if s != "" {
      SplitHasNo(c, s[1..]);
    }
  }

  lemma {:induction false} JoinHasNo(c: char, parts: seq<string>)
    requires c != '/' && forall i :: 0 <= i < |parts| ==> c !in parts[i]
    ensures c !in Join(DropDots(parts))
    ensures forall i :: 0 <= i < |DropDots(parts)| ==> c !in DropDots(parts)[i]
  {
    if parts != [] {
      JoinHasNo(c, parts[1..]);
      if parts[0] != "" && parts[0] != "." {
        assert DropDots(parts)[1..] == DropDots(parts[1..]);
      }
    }
  }

  /** A value on which applying the tool normaliser twice fails, for instance `./C:x`. */
  lemma HiddenDriveIsRefusedTheSecondTime(name: string)
    requires IsName(name) && HasDrive(name) && '\0' !in name
    ensures NormalizeRelativePath("./" + name) == Some(name)
    ensures NormalizeRelativePath(name) == None
  {
    DotSlash(name);
    assert [".", name][1..] == [name] && [name][1..] == [];
    assert DropDots([name]) == [name] + DropDots([]);
    assert DropDots([".", name]) == [name];
    var value := "./" + name;
    assert value[0] == '.' && value[1] == '/';
    assert "" !in Split(value) && ".." !in Split(value);
    assert PurePosix(value) == name;
  }

  lemma DotSlash(name: string)
    requires IsName(name)
    ensures ToSlashes("./" + name) == "./" + name
    ensures Split("./" + name) == [".", name]
    ensures Root("./" + name) == ""
  {
    SplitPart(name);
    SplitFirst(".", name);
    assert "./" + name == "." + "/" + name;
    assert ("./" + name)[0] == '.';
  }

  /**
   A path is allowed exactly when it and the whole allowlist are acceptable and some entry denotes
   the same file; the answer is its normal form.
   */
  lemma AllowedExactly(value: string, allowed: seq<string>)
    ensures RequireAllowedPath(value, allowed) ==
            if && NormalizeRelativePath(value).Some? && (forall p :: p in allowed ==> NormalizeRelativePath(p).Some?)
               && (exists p :: p in allowed && Denotes(p) == Denotes(value))
            then NormalizeRelativePath(value) else None
  {
    if NormalizeRelativePath(value).Some? && forall p :: p in allowed ==> NormalizeRelativePath(p).Some? {
      forall p | p in allowed
        ensures NormalizeRelativePath(p) == NormalizeRelativePath(value) <==> Denotes(p) == Denotes(value)
      {
        RelativeIsPlanPath(value);
        RelativeIsPlanPath(p);
        SameFileSameNormalForm(p, value);
      }
    }
  }
}
