/** Risk classification and the approval stages it asks for. */
module Policies {
  import opened Ordering
  import Paths

  datatype RiskFlag =
    | DependencyChange
    | AuthChange
    | Migration
    | CiConfig
    | LargeScope
    | UnclearAcceptanceCriteria
    | PromptInjectionSuspected

  datatype RiskLevel = Low | Medium | High {
    function Rank(): nat {
      match this case Low => 0 case Medium => 1 case High => 2
    }
  }

  function HigherRisk(a: RiskLevel, b: RiskLevel): RiskLevel {
    if b.Rank() > a.Rank() then b else a
  }

  datatype ApprovalMode = Automatic | Manual

  datatype StagePolicy = StagePolicy(plan: ApprovalMode, execution: ApprovalMode, delivery: ApprovalMode)

  /** Custom settings are present exactly in custom mode, so the mode carries them. */
  datatype ApprovalPolicy = RiskBased | Custom(stages: StagePolicy)

  const HIGH_RISK_FLAGS: set<RiskFlag> := {AuthChange, Migration, PromptInjectionSuspected}
  const MEDIUM_RISK_FLAGS: set<RiskFlag> := {DependencyChange, CiConfig, LargeScope, UnclearAcceptanceCriteria}

  function ClassifyRisk(flags: set<RiskFlag>): RiskLevel {
    if flags * HIGH_RISK_FLAGS != {} then High
    else if flags * MEDIUM_RISK_FLAGS != {} then Medium
    else Low
  }

  function ResolveApprovalPolicy(risk: RiskLevel, policy: ApprovalPolicy): StagePolicy {
    match policy
    case Custom(stages) => stages
    case RiskBased =>
      match risk
      case Low => StagePolicy(Automatic, Automatic, Automatic)
      case Medium => StagePolicy(Manual, Automatic, Automatic)
      case High => StagePolicy(Manual, Manual, Automatic)
  }

  /** `b` asks for a human wherever `a` does. */
  predicate AtLeastAsStrict(a: StagePolicy, b: StagePolicy) {
    && (a.plan.Manual? ==> b.plan.Manual?)
    && (a.execution.Manual? ==> b.execution.Manual?)
    && (a.delivery.Manual? ==> b.delivery.Manual?)
  }

  /** Each flag has its level: the highest of them is the risk. */
  lemma RiskByFlag(flags: set<RiskFlag>)
    ensures ClassifyRisk(flags).High? <==> AuthChange in flags || Migration in flags || PromptInjectionSuspected in flags
    ensures ClassifyRisk(flags).Low? <==> flags == {}
    ensures ClassifyRisk(flags).Medium? <==>
              && AuthChange !in flags && Migration !in flags && PromptInjectionSuspected !in flags
              && (DependencyChange in flags || CiConfig in flags || LargeScope in flags || UnclearAcceptanceCriteria in flags)
  {
    assert flags * HIGH_RISK_FLAGS != {} <==> AuthChange in flags || Migration in flags || PromptInjectionSuspected in flags by {
      assert forall f :: f in HIGH_RISK_FLAGS <==> f.AuthChange? || f.Migration? || f.PromptInjectionSuspected?;
      assert AuthChange in flags ==> AuthChange in flags * HIGH_RISK_FLAGS;
      assert Migration in flags ==> Migration in flags * HIGH_RISK_FLAGS;
      assert PromptInjectionSuspected in flags ==> PromptInjectionSuspected in flags * HIGH_RISK_FLAGS;
    }
    assert flags * MEDIUM_RISK_FLAGS != {} <==>
             DependencyChange in flags || CiConfig in flags || LargeScope in flags || UnclearAcceptanceCriteria in flags by {
      assert DependencyChange in flags ==> DependencyChange in flags * MEDIUM_RISK_FLAGS;
      assert CiConfig in flags ==> CiConfig in flags * MEDIUM_RISK_FLAGS;
      assert LargeScope in flags ==> LargeScope in flags * MEDIUM_RISK_FLAGS;
      assert UnclearAcceptanceCriteria in flags ==> UnclearAcceptanceCriteria in flags * MEDIUM_RISK_FLAGS;
    }
    forall f: RiskFlag ensures f in HIGH_RISK_FLAGS || f in MEDIUM_RISK_FLAGS {
      assert f.AuthChange? || f.Migration? || f.PromptInjectionSuspected? || f in MEDIUM_RISK_FLAGS;
    }
    if f :| f in flags {
      assert f in flags * HIGH_RISK_FLAGS || f in flags * MEDIUM_RISK_FLAGS;
    }
  }

  /** More flags never lower the risk, and more risk never removes a human decision. */
  lemma MoreFlagsMoreApprovals(flags: set<RiskFlag>, more: set<RiskFlag>, policy: ApprovalPolicy)
    requires flags <= more
    ensures ClassifyRisk(flags).Rank() <= ClassifyRisk(more).Rank()
    ensures AtLeastAsStrict(ResolveApprovalPolicy(ClassifyRisk(flags), policy),
                            ResolveApprovalPolicy(ClassifyRisk(more), policy))
  {
    assert flags * HIGH_RISK_FLAGS <= more * HIGH_RISK_FLAGS;
    assert flags * MEDIUM_RISK_FLAGS <= more * MEDIUM_RISK_FLAGS;
  }

  /**
   `str.lower` on the letters that matter for manifest names: ASCII capitals, and the Kelvin
   sign, the one other character whose lower case is a single ASCII letter.
   */
  function Lower(s: string): (r: string)
    ensures |r| == |s|
  {
    if s == "" then ""
    else
      var c := s[0];
      var l := if 'A' <= c <= 'Z' then (c as int + 32) as char else if c == '\U{212A}' then 'k' else c;
      [l] + Lower(s[1..])
  }

  predicate EndsWith(s: string, suffix: string) {
    |suffix| <= |s| && s[|s| - |suffix|..] == suffix
  }

  /** The part of a path after its last slash. */
  function BaseName(path: string): string {
    var parts := Paths.Split(path);
    parts[|parts| - 1]
  }

  predicate IsManifest(normalized: string) {
    var name := Lower(BaseName(normalized));
    || name in {"pyproject.toml", "uv.lock", "setup.py", "setup.cfg"}
    || ("requirements" <= name && (EndsWith(name, ".txt") || EndsWith(name, ".in")))
  }

  function ManifestForm(path: string): string {
    Paths.RemovePrefix(Paths.ToSlashes(path), "./")
  }

  lemma {:induction false} LastPart(dir: string, name: string)
    requires '/' !in name
    ensures var parts := Paths.Split(dir + "/" + name);
            |parts| > 1 && parts[|parts| - 1] == name
  {
    if dir == "" {
      assert dir + "/" + name == "/" + name && ("/" + name)[1..] == name;
      OnePart(name);
    } else {
      assert (dir + "/" + name)[0] == dir[0] && (dir + "/" + name)[1..] == dir[1..] + "/" + name;
      LastPart(dir[1..], name);
    }
  }

  lemma {:induction false} OnePart(name: string)
    requires '/' !in name
    ensures Paths.Split(name) == [name]
  {
    if name != "" {
      assert forall c :: c in name[1..] ==> c in name;
      OnePart(name[1..]);
      assert name == [name[0]] + name[1..];
    }
  }

  /** The base name is what follows the last slash, and the whole text where there is none. */
  lemma BaseNameExactly(dir: string, name: string)
    requires '/' !in name
    ensures BaseName(dir + "/" + name) == name && BaseName(name) == name
  {
    LastPart(dir, name);
    OnePart(name);
  }

  lemma {:induction false} LowerExactly(s: string, i: nat)
    requires i < |s|
    ensures 'A' <= s[i] <= 'Z' ==> Lower(s)[i] as int == s[i] as int - 'A' as int + 'a' as int
    ensures s[i] < 'A' || ('Z' < s[i] && s[i] != '\U{212A}') ==> Lower(s)[i] == s[i]
  {
    if i > 0 {
      LowerExactly(s[1..], i - 1);
    }
  }

  /** Which files are manifests: by name, in any directory and in any case. */
  lemma ManifestByName(dir: string, name: string)
    requires '/' !in name
    ensures var lower := Lower(name);
            IsManifest(dir + "/" + name) <==>
              || lower == "pyproject.toml" || lower == "uv.lock" || lower == "setup.py" || lower == "setup.cfg"
              || (exists rest :: lower == "requirements" + rest && (EndsWith(lower, ".txt") || EndsWith(lower, ".in")))
    ensures IsManifest(name) <==> IsManifest(dir + "/" + name)
  {
    BaseNameExactly(dir, name);
    var lower := Lower(name);
    assert "requirements" <= lower ==> lower == "requirements" + lower[12..];
  }

  ghost function ManifestsOf(paths: seq<string>): set<string> {
    set p | p in paths && IsManifest(ManifestForm(p)) :: ManifestForm(p)
  }

  ghost predicate AnyManifest(paths: seq<string>) {
    exists p :: p in paths && IsManifest(ManifestForm(p))
  }

  /** The manifest files among `paths`, each once, in order. */
  method DependencyManifestPaths(paths: seq<string>) returns (manifests: seq<string>)
    ensures manifests == SortSet(ManifestsOf(paths))
    ensures manifests != [] <==> AnyManifest(paths)
  {
    var found: seq<string> := [];
    for i := 0 to |paths|
      invariant Elements(found) == ManifestsOf(paths[..i])
    {
      assert paths[..i + 1] == paths[..i] + [paths[i]];
      ManifestsGrow(paths[..i], paths[i]);
      var normalized := ManifestForm(paths[i]);
      if IsManifest(normalized) {
        ElementsAppend(found, [normalized]);
        found := found + [normalized];
      }
    }
    assert paths[..|paths|] == paths;
    manifests := SortSet(set m | m in found);
    SortSetFacts(set m | m in found);
    assert Elements(found) == set m | m in found;
    EmptyElements(manifests);
    NoManifests(paths);
  }

  lemma ManifestsGrow(paths: seq<string>, p: string)
    ensures ManifestsOf(paths + [p]) == ManifestsOf(paths) + if IsManifest(ManifestForm(p)) then {ManifestForm(p)} else {}
  {
    forall q | q in paths + [p] ensures q in paths || q == p {
    }
    assert p in paths + [p];
  }

  lemma NoManifests(paths: seq<string>)
    ensures ManifestsOf(paths) != {} <==> AnyManifest(paths)
  {
    forall p | p in paths && IsManifest(ManifestForm(p)) ensures ManifestForm(p) in ManifestsOf(paths) {
    }
    forall m | m in ManifestsOf(paths) ensures AnyManifest(paths) {
      var p :| p in paths && IsManifest(ManifestForm(p)) && ManifestForm(p) == m;
    }
  }
}
