/** What the whole table of config.json rules makes of the objects it addresses. */
module MigrationEffect {
  import opened Wrappers
  import opened Migration

  /** An object after the due rules with the given path. */
  function Applied(o: map<string, Json>, rules: seq<Rule>, version: Option<Version>, path: seq<string>): map<string, Json> {
    if rules == [] then o
    else
      var r := rules[|rules| - 1];
      var before := Applied(o, rules[..|rules| - 1], version, path);
      if Due(r, version) && r.path == path then Apply(before, r) else before
  }

  lemma ApartUntouched(path: seq<string>, r: Rule, a: Address)
    requires Apart(path, r.path) && Addressed(path, a)
    ensures !Touched(r.path, r, a)
  {
  }

  /** A pass does to every object on a path what the rules with that path say, one after the other. */
  lemma {:induction false} PassEffect(node: Json, rules: seq<Rule>, version: Option<Version>, path: seq<string>, a: Address, o: map<string, Json>)
    requires forall i :: 0 <= i < |rules| ==> rules[i].path == path || Apart(path, rules[i].path)
    requires Addressed(path, a) && Get(node, a) == Some(Object(o))
    ensures Get(Pass(node, rules, version), a) == Some(Object(Applied(o, rules, version, path)))
    decreases |rules|
  {
    hide Apply, Walk, Get, Addressed, Due, Touched, Apart;
    if rules != [] {
      var n := |rules| - 1;
      var r, before := rules[n], Pass(node, rules[..n], version);
      PassEffect(node, rules[..n], version, path, a, o);
      if Due(r, version) {
        if r.path == path {
          WalkEffect(before, path, r, a);
        } else {
          ApartUntouched(path, r, a);
          WalkFrame(before, r.path, r, a);
        }
      }
    }
  }

  /** A pass leaves every node alone that no due rule addresses. */
  lemma {:induction false} PassFrame(node: Json, rules: seq<Rule>, version: Option<Version>, a: Address)
    requires forall i :: 0 <= i < |rules| && Due(rules[i], version) ==> !Touched(rules[i].path, rules[i], a)
    ensures Get(Pass(node, rules, version), a) == Get(node, a)
    decreases |rules|
  {
    hide Walk, Get, Due, Touched;
    if rules != [] {
      var n := |rules| - 1;
      PassFrame(node, rules[..n], version, a);
      if Due(rules[n], version) {
        WalkFrame(Pass(node, rules[..n], version), rules[n].path, rules[n], a);
      }
    }
  }

  lemma AppliedStep(o: map<string, Json>, version: Option<Version>, path: seq<string>, i: nat)
    requires i < |RULES|
    ensures Applied(o, RULES[..i + 1], version, path) ==
            var before := Applied(o, RULES[..i], version, path);
            if Due(RULES[i], version) && RULES[i].path == path then Apply(before, RULES[i]) else before
  {
    hide Apply, Due;
    assert RULES[..i + 1][..i] == RULES[..i];
  }

  const LLM := ["llm"]
  const GLOBAL := ["global"]

  /** The paths in the table. */
  predicate InTable(path: seq<string>) {
    path == SCENES || path == LLM || path == GLOBAL || path == VAD
  }

  lemma PathsDiffer()
    ensures SCENES != VAD && SCENES != LLM && SCENES != GLOBAL && VAD != LLM && VAD != GLOBAL && LLM != GLOBAL
  {
    StringsDiffer();
    assert |SCENES| == 3 && |VAD| == 2 && LLM[0] != GLOBAL[0];
  }

  lemma PathsApart(path: seq<string>)
    requires InTable(path)
    ensures forall i :: 0 <= i < |RULES| ==> RULES[i].path == path || Apart(path, RULES[i].path)
  {
    StringsDiffer();
  }

  function Lookup(o: map<string, Json>, key: string): Option<Json> {
    if key in o then Some(o[key]) else None
  }

  function Or(a: Option<Json>, b: Option<Json>): Option<Json> {
    if a.Some? then a else b
  }

  /** The rules from i to j have other paths. */
  lemma {:induction false} AppliedOthers(o: map<string, Json>, version: Option<Version>, path: seq<string>, i: nat, j: nat)
    requires i <= j <= |RULES| && forall k :: i <= k < j ==> RULES[k].path != path
    ensures Applied(o, RULES[..j], version, path) == Applied(o, RULES[..i], version, path)
    decreases j - i
  {
    hide Apply, Due, Applied;
    if i < j {
      AppliedOthers(o, version, path, i, j - 1);
      AppliedStep(o, version, path, j - 1);
    }
  }

  lemma AppliedNone(o: map<string, Json>, version: Option<Version>, path: seq<string>)
    ensures Applied(o, RULES[..0], version, path) == o && RULES[..|RULES|] == RULES
  {
  }

  /** A rule, if it is due. */
  function ApplyDue(o: map<string, Json>, r: Rule, version: Option<Version>): map<string, Json> {
    if Due(r, version) then Apply(o, r) else o
  }

  lemma AppliedToScene(o: map<string, Json>, version: Option<Version>)
    ensures Applied(o, RULES, version, SCENES) == ApplyDue(ApplyDue(ApplyDue(o, RULES[0], version), RULES[2], version), RULES[3], version)
  {
    hide Apply, Applied, Due;
    PathsDiffer();
    AppliedNone(o, version, SCENES);
    AppliedStep(o, version, SCENES, 0);
    AppliedStep(o, version, SCENES, 1);
    AppliedStep(o, version, SCENES, 2);
    AppliedStep(o, version, SCENES, 3);
    AppliedOthers(o, version, SCENES, 4, 10);
  }

  lemma AppliedToVad(o: map<string, Json>, version: Option<Version>)
    ensures Applied(o, RULES, version, VAD) ==
            ApplyDue(ApplyDue(ApplyDue(ApplyDue(ApplyDue(o, RULES[5], version), RULES[6], version), RULES[7], version), RULES[8], version), RULES[9], version)
  {
    hide Apply, Applied, Due;
    PathsDiffer();
    AppliedNone(o, version, VAD);
    AppliedOthers(o, version, VAD, 0, 5);
    AppliedStep(o, version, VAD, 5);
    AppliedStep(o, version, VAD, 6);
    AppliedStep(o, version, VAD, 7);
    AppliedStep(o, version, VAD, 8);
    AppliedStep(o, version, VAD, 9);
  }

  lemma AppliedToLlm(o: map<string, Json>, version: Option<Version>)
    ensures Applied(o, RULES, version, LLM) == ApplyDue(o, RULES[1], version)
  {
    hide Apply, Applied, Due;
    PathsDiffer();
    AppliedNone(o, version, LLM);
    AppliedStep(o, version, LLM, 0);
    AppliedStep(o, version, LLM, 1);
    AppliedOthers(o, version, LLM, 2, 10);
  }

  lemma AppliedToGlobal(o: map<string, Json>, version: Option<Version>)
    ensures Applied(o, RULES, version, GLOBAL) == ApplyDue(o, RULES[4], version)
  {
    hide Apply, Applied, Due;
    PathsDiffer();
    AppliedNone(o, version, GLOBAL);
    AppliedOthers(o, version, GLOBAL, 0, 4);
    AppliedStep(o, version, GLOBAL, 4);
    AppliedOthers(o, version, GLOBAL, 5, 10);
  }

  /** A configuration without a version counts as older than every version. */
  predicate Older(version: Option<Version>, than: Version) {
    version.None? || Before(version.value, than)
  }

  /**
    A key of a scene after the pass: what an older configuration called candidate_count and show_raw has its new
    name, unless that was taken, and raw_prev is there.
   */
  function SceneValue(o: map<string, Json>, k: string, version: Option<Version>): Option<Json> {
    if Older(version, Version(2, 3, 15)) && k == "candidate_count" then None
    else if Older(version, Version(2, 3, 15)) && k == "count" then Or(Lookup(o, "count"), Lookup(o, "candidate_count"))
    else if Older(version, Version(2, 3, 25)) && k == "show_raw" then None
    else if Older(version, Version(2, 3, 25)) && k == "raw_cand" then Or(Lookup(o, "raw_cand"), Lookup(o, "show_raw"))
    else if Older(version, Version(2, 3, 25)) && k == "raw_prev" then Or(Lookup(o, "raw_prev"), Some(Bool(true)))
    else Lookup(o, k)
  }

  lemma KeysDiffer()
    ensures "candidate_count" != "show_raw" && "candidate_count" != "count" && "candidate_count" != "raw_cand" && "candidate_count" != "raw_prev"
    ensures "show_raw" != "count" && "show_raw" != "raw_cand" && "show_raw" != "raw_prev"
    ensures "count" != "raw_cand" && "count" != "raw_prev" && "raw_cand" != "raw_prev"
  {
    StringsDiffer();
  }

  lemma RenameLookup(o: map<string, Json>, r: Rule, k: string)
    requires r.action.Rename? && r.key != r.action.newKey
    ensures Lookup(Apply(o, r), k) ==
            if k == r.key then None else if k == r.action.newKey then Or(Lookup(o, k), Lookup(o, r.key)) else Lookup(o, k)
  {
  }

  lemma EnsureLookup(o: map<string, Json>, r: Rule, k: string)
    requires r.action.Ensure?
    ensures Lookup(Apply(o, r), k) == if k == r.key then Or(Lookup(o, k), Some(r.action.value)) else Lookup(o, k)
  {
  }

  lemma RemoveLookup(o: map<string, Json>, r: Rule, k: string)
    requires r.action.Remove?
    ensures Lookup(Apply(o, r), k) == if k == r.key then None else Lookup(o, k)
  {
  }

  lemma ReplaceLookup(o: map<string, Json>, r: Rule, k: string)
    requires r.action.ReplaceIfDefault?
    ensures Lookup(Apply(o, r), k) ==
            if k == r.key && k in o && JsonEquals(o[k], r.action.expected) then Some(r.action.to) else Lookup(o, k)
  {
  }

  lemma SceneLookup(o: map<string, Json>, k: string, version: Option<Version>)
    ensures var o' := ApplyDue(ApplyDue(ApplyDue(o, RULES[0], version), RULES[2], version), RULES[3], version);
            Lookup(o', k) == SceneValue(o, k, version)
  {
    hide Apply, Before;
    KeysDiffer();
    var o1 := ApplyDue(o, RULES[0], version);
    var o2 := ApplyDue(o1, RULES[2], version);
    EnsureLookup(o2, RULES[3], k);
    RenameLookup(o1, RULES[2], k);
    RenameLookup(o, RULES[0], k);
    RenameLookup(o, RULES[0], "show_raw");
  }

  /** For every version: each key of each scene has the value above, so nothing else in a scene changes. */
  lemma ScenesAreMigrated(node: Json, version: Option<Version>, a: Address, o: map<string, Json>, k: string)
    requires Addressed(SCENES, a) && Get(node, a) == Some(Object(o))
    ensures var after := Get(Pass(node, RULES, version), a);
            after.Some? && after.value.Object? && Lookup(after.value.members, k) == SceneValue(o, k, version)
  {
    hide Apply, Get, Addressed, Pass, Applied, Due, SceneValue;
    PathsApart(SCENES);
    PassEffect(node, RULES, version, SCENES, a, o);
    AppliedToScene(o, version);
    SceneLookup(o, k, version);
  }

  // ---------------------------------------------------------------------------------------------
  // Voice activity detection

  /** A number near an old default becomes the new one. */
  function Upgraded(v: Option<Json>, old': real, new': real): Option<Json> {
    if v.Some? && v.value.Number? && -0.0001 < v.value.n - old' < 0.0001 then Some(Number(new')) else v
  }

  function VadValue(v: Option<Json>, k: string): Option<Json> {
    if k == "threshold" then Upgraded(v, 0.45, 0.35)
    else if k == "min_speech_duration" then Upgraded(v, 0.15, 0.10)
    else if k == "min_silence_duration" then Upgraded(v, 0.5, 1.2)
    else if k == "speech_pad_ms" then Upgraded(Upgraded(v, 30.0, 500.0), 300.0, 500.0)
    else v
  }

  lemma UpgradeLookup(o: map<string, Json>, r: Rule, k: string, old': real, new': real)
    requires r.action == ReplaceIfDefault(Number(old'), Number(new'))
    ensures Lookup(Apply(o, r), k) == if k == r.key then Upgraded(Lookup(o, k), old', new') else Lookup(o, k)
  {
    hide Apply;
    ReplaceLookup(o, r, k);
  }

  lemma VadKeysDiffer()
    ensures |"threshold"| == 9 && |"min_speech_duration"| == 19 && |"min_silence_duration"| == 20 && |"speech_pad_ms"| == 13
  {
  }

  lemma VadLookup(o: map<string, Json>, k: string, version: Option<Version>)
    ensures Lookup(ApplyDue(ApplyDue(ApplyDue(ApplyDue(ApplyDue(o, RULES[5], version), RULES[6], version), RULES[7], version), RULES[8], version), RULES[9], version), k)
            == if Older(version, Version(2, 4, 0)) then VadValue(Lookup(o, k), k) else Lookup(o, k)
  {
    hide Apply, Upgraded, Before;
    VadKeysDiffer();
    if Older(version, Version(2, 4, 0)) {
      var o1 := Apply(o, RULES[5]);
      var o2 := Apply(o1, RULES[6]);
      var o3 := Apply(o2, RULES[7]);
      var o4 := Apply(o3, RULES[8]);
      UpgradeLookup(o, RULES[5], k, 0.45, 0.35);
      UpgradeLookup(o1, RULES[6], k, 0.15, 0.10);
      UpgradeLookup(o2, RULES[7], k, 0.5, 1.2);
      UpgradeLookup(o3, RULES[8], k, 30.0, 500.0);
      UpgradeLookup(o4, RULES[9], k, 300.0, 500.0);
    }
  }

  /** For every version: the settings of an older configuration that are still the old defaults get the new ones; nothing else changes. */
  lemma VadIsUpgraded(node: Json, version: Option<Version>, a: Address, o: map<string, Json>, k: string)
    requires Addressed(VAD, a) && Get(node, a) == Some(Object(o))
    ensures var after := Get(Pass(node, RULES, version), a);
            && after.Some? && after.value.Object?
            && Lookup(after.value.members, k) == if Older(version, Version(2, 4, 0)) then VadValue(Lookup(o, k), k) else Lookup(o, k)
  {
    hide Apply, Get, Addressed, Pass, Applied, VadValue, Due, Older;
    PathsApart(VAD);
    PassEffect(node, RULES, version, VAD, a, o);
    AppliedToVad(o, version);
    VadLookup(o, k, version);
  }

  // ---------------------------------------------------------------------------------------------
  // Language models and global settings

  /** A key of the settings for language models: what an older configuration called adaptors has its new name, unless that was taken. */
  function LlmValue(o: map<string, Json>, k: string, version: Option<Version>): Option<Json> {
    if Older(version, Version(2, 3, 15)) && k == "adaptors" then None
    else if Older(version, Version(2, 3, 15)) && k == "adapters" then Or(Lookup(o, "adapters"), Lookup(o, "adaptors"))
    else Lookup(o, k)
  }

  lemma LlmIsMigrated(node: Json, version: Option<Version>, a: Address, o: map<string, Json>, k: string)
    requires Addressed(LLM, a) && Get(node, a) == Some(Object(o))
    ensures var after := Get(Pass(node, RULES, version), a);
            after.Some? && after.value.Object? && Lookup(after.value.members, k) == LlmValue(o, k, version)
  {
    hide Apply, Get, Addressed, Pass, Applied;
    PathsApart(LLM);
    PassEffect(node, RULES, version, LLM, a, o);
    AppliedToLlm(o, version);
    assert "adaptors"[5] != "adapters"[5];
    RenameLookup(o, RULES[1], k);
  }

  /** A global setting: an older configuration loses its default language. */
  function GlobalValue(o: map<string, Json>, k: string, version: Option<Version>): Option<Json> {
    if Older(version, Version(2, 3, 27)) && k == "default_language" then None else Lookup(o, k)
  }

  lemma GlobalIsMigrated(node: Json, version: Option<Version>, a: Address, o: map<string, Json>, k: string)
    requires Addressed(GLOBAL, a) && Get(node, a) == Some(Object(o))
    ensures var after := Get(Pass(node, RULES, version), a);
            after.Some? && after.value.Object? && Lookup(after.value.members, k) == GlobalValue(o, k, version)
  {
    hide Apply, Get, Addressed, Pass, Applied;
    PathsApart(GLOBAL);
    PassEffect(node, RULES, version, GLOBAL, a, o);
    AppliedToGlobal(o, version);
    RemoveLookup(o, RULES[4], k);
  }

  // ---------------------------------------------------------------------------------------------
  // All paths

  /** A key, after the pass, of an object that a path of the table leads to. */
  function ValueAfter(path: seq<string>, o: map<string, Json>, k: string, version: Option<Version>): Option<Json> {
    if path == SCENES then SceneValue(o, k, version)
    else if path == LLM then LlmValue(o, k, version)
    else if path == GLOBAL then GlobalValue(o, k, version)
    else if path == VAD && Older(version, Version(2, 4, 0)) then VadValue(Lookup(o, k), k)
    else Lookup(o, k)
  }

  lemma PassValues(node: Json, version: Option<Version>, path: seq<string>, a: Address, o: map<string, Json>, k: string)
    requires InTable(path) && Addressed(path, a) && Get(node, a) == Some(Object(o))
    ensures var after := Get(Pass(node, RULES, version), a);
            after.Some? && after.value.Object? && Lookup(after.value.members, k) == ValueAfter(path, o, k, version)
  {
    PathsDiffer();
    hide Get, Addressed, Pass, SceneValue, LlmValue, GlobalValue, VadValue, Older, Lookup;
    if path == SCENES {
      ScenesAreMigrated(node, version, a, o, k);
    } else if path == LLM {
      LlmIsMigrated(node, version, a, o, k);
    } else if path == GLOBAL {
      GlobalIsMigrated(node, version, a, o, k);
    } else {
      VadIsUpgraded(node, version, a, o, k);
    }
  }
}
