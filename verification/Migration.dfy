/** The JSON side of the table-driven configuration migration of src/common/config/config_migration.cpp. */
module Migration {
  import opened Wrappers

  datatype Json =
    | Null
    | Bool(b: bool)
    | Number(n: real)
    | Text(s: string)
    | Array(items: seq<Json>)
    | Object(members: map<string, Json>)

  datatype Version = Version(major: nat, minor: nat, patch: nat)

  predicate Before(a: Version, b: Version) {
    a.major < b.major || (a.major == b.major && (a.minor < b.minor || (a.minor == b.minor && a.patch < b.patch)))
  }

  datatype Action =
    | Rename(newKey: string)
    | Remove
    | Ensure(value: Json)
    | ReplaceIfDefault(expected: Json, to: Json)

  /** A rule: what to do with `key` in every object that `path` leads to, where "*" stands for any child. */
  datatype Rule = Rule(version: Version, action: Action, path: seq<string>, key: string)

  const V2_3_15 := Version(2, 3, 15)
  const V2_3_25 := Version(2, 3, 25)
  const V2_3_27 := Version(2, 3, 27)
  const V2_4_0 := Version(2, 4, 0)
  const SCENES := ["scenes", "*", "*"]
  const VAD := ["asr", "vad"]

  /** The rules for config.json. */
  const RULES: seq<Rule> := [
    Rule(V2_3_15, Rename("count"), SCENES, "candidate_count"),
    Rule(V2_3_15, Rename("adapters"), ["llm"], "adaptors"),
    Rule(V2_3_25, Rename("raw_cand"), SCENES, "show_raw"),
    Rule(V2_3_25, Ensure(Bool(true)), SCENES, "raw_prev"),
    Rule(V2_3_27, Remove, ["global"], "default_language"),
    Rule(V2_4_0, ReplaceIfDefault(Number(0.45), Number(0.35)), VAD, "threshold"),
    Rule(V2_4_0, ReplaceIfDefault(Number(0.15), Number(0.10)), VAD, "min_speech_duration"),
    Rule(V2_4_0, ReplaceIfDefault(Number(0.5), Number(1.2)), VAD, "min_silence_duration"),
    Rule(V2_4_0, ReplaceIfDefault(Number(30.0), Number(500.0)), VAD, "speech_pad_ms"),
    Rule(V2_4_0, ReplaceIfDefault(Number(300.0), Number(500.0)), VAD, "speech_pad_ms")]

  /** Equality of scalars; numbers are equal within a tolerance, containers never are. */
  predicate JsonEquals(actual: Json, expected: Json) {
    if expected.Number? && actual.Number? then -0.0001 < actual.n - expected.n < 0.0001
    else if actual.Bool? || actual.Text? then actual == expected
    else actual.Null? && expected.Null?
  }

  // ---------------------------------------------------------------------------------------------
  // One rule

  predicate Fires(o: map<string, Json>, r: Rule) {
    match r.action
    case Rename(_) => r.key in o
    case Remove => r.key in o
    case Ensure(_) => r.key !in o
    case ReplaceIfDefault(expected, _) => r.key in o && JsonEquals(o[r.key], expected)
  }

  function Apply(o: map<string, Json>, r: Rule): map<string, Json> {
    if !Fires(o, r) then o
    else
      match r.action
      case Rename(newKey) => (if newKey in o then o else o[newKey := o[r.key]]) - {r.key}
      case Remove => o - {r.key}
      case Ensure(value) => o[r.key := value]
      case ReplaceIfDefault(_, to) => o[r.key := to]
  }

  /** The tree after WalkAndApply. */
  function Walk(node: Json, path: seq<string>, r: Rule): Json
    decreases |path|
  {
    if path == [] then (if node.Object? then Object(Apply(node.members, r)) else node)
    else if path[0] == "*" then
      match node
      case Object(m) => Object(map k | k in m :: Walk(m[k], path[1..], r))
      case Array(items) => Array(seq(|items|, i requires 0 <= i < |items| => Walk(items[i], path[1..], r)))
      case _ => node
    else if node.Object? && path[0] in node.members then
      Object(node.members[path[0] := Walk(node.members[path[0]], path[1..], r)])
    else node
  }

  datatype Place = Key(key: string) | Index(index: nat)

  type Address = seq<Place>

  /** The objects for which WalkAndApply logs a change, by address. */
  function Hits(node: Json, path: seq<string>, r: Rule): set<Address>
    decreases |path|
  {
    if path == [] then (if node.Object? && Fires(node.members, r) then {[]} else {})
    else if path[0] == "*" then
      match node
      case Object(m) => set k, a | k in m && a in Hits(m[k], path[1..], r) :: [Key(k)] + a
      case Array(items) => set i, a | 0 <= i < |items| && a in Hits(items[i], path[1..], r) :: [Index(i)] + a
      case _ => {}
    else if node.Object? && path[0] in node.members then
      set a | a in Hits(node.members[path[0]], path[1..], r) :: [Key(path[0])] + a
    else {}
  }

  /** What a rule must have for a second application to find nothing: its own result is not what it looks for. */
  predicate RuleOk(r: Rule) {
    r.action.ReplaceIfDefault? ==> !JsonEquals(r.action.to, r.action.expected)
  }

  // ---------------------------------------------------------------------------------------------
  // Addresses

  function Child(node: Json, p: Place): Option<Json> {
    match p
    case Key(k) => if node.Object? && k in node.members then Some(node.members[k]) else None
    case Index(i) => if node.Array? && i < |node.items| then Some(node.items[i]) else None
  }

  function Get(node: Json, a: Address): Option<Json> {
    if a == [] then Some(node)
    else
      var child := Child(node, a[0]);
      if child.None? then None else Get(child.value, a[1..])
  }

  predicate StepMatches(segment: string, p: Place) {
    segment == "*" || p == Key(segment)
  }

  /** The address is one that the path leads to. */
  predicate Addressed(path: seq<string>, a: Address)
    decreases |path|
  {
    |a| == |path| && (path != [] ==> StepMatches(path[0], a[0]) && Addressed(path[1..], a[1..]))
  }

  /** The node at the address is renamed, removed, added or replaced by the rule, or lies below or above such a node. */
  predicate Touched(path: seq<string>, r: Rule, a: Address)
    decreases |path|
  {
    a == [] ||
    if path == [] then a[0] == Key(r.key) || (r.action.Rename? && a[0] == Key(r.action.newKey))
    else StepMatches(path[0], a[0]) && Touched(path[1..], r, a[1..])
  }

  lemma WalkChild(node: Json, path: seq<string>, r: Rule, p: Place)
    requires path != []
    ensures var child := Child(node, p);
            Child(Walk(node, path, r), p) == if child.Some? && StepMatches(path[0], p) then Some(Walk(child.value, path[1..], r)) else child
  {
  }

  /** The whole effect on an object the path leads to. */
  lemma {:induction false} WalkEffect(node: Json, path: seq<string>, r: Rule, a: Address)
    requires Addressed(path, a)
    ensures var before := Get(node, a);
            Get(Walk(node, path, r), a) ==
            if before.Some? && before.value.Object? then Some(Object(Apply(before.value.members, r))) else before
    decreases |path|
  {
    hide Apply;
    if path != [] {
      hide Walk;
      WalkChild(node, path, r, a[0]);
      var child := Child(node, a[0]);
      if child.Some? {
        WalkEffect(child.value, path[1..], r, a[1..]);
      }
    }
  }

  /** Nothing else changes. */
  lemma {:induction false} WalkFrame(node: Json, path: seq<string>, r: Rule, a: Address)
    requires !Touched(path, r, a)
    ensures Get(Walk(node, path, r), a) == Get(node, a)
    decreases |path|
  {
    if path == [] {
      if node.Object? {
        ApplyFrame(node.members, r, a[0]);
      }
    } else {
      hide Walk;
      WalkChild(node, path, r, a[0]);
      var child := Child(node, a[0]);
      if child.Some? && StepMatches(path[0], a[0]) {
        WalkFrame(child.value, path[1..], r, a[1..]);
      }
    }
  }

  lemma ApplyFrame(o: map<string, Json>, r: Rule, p: Place)
    requires p != Key(r.key) && !(r.action.Rename? && p == Key(r.action.newKey))
    ensures Child(Object(Apply(o, r)), p) == Child(Object(o), p)
  {
  }

  /** Renaming never overwrites: a value under the new key stays, else the old value moves there. */
  lemma RenameNeverOverwrites(o: map<string, Json>, r: Rule)
    requires r.action.Rename? && r.action.newKey != r.key
    ensures var o' := Apply(o, r);
            && r.key !in o'
            && (r.action.newKey in o ==> r.action.newKey in o' && o'[r.action.newKey] == o[r.action.newKey])
            && (r.action.newKey !in o && r.key in o ==> r.action.newKey in o' && o'[r.action.newKey] == o[r.key])
            && (r.action.newKey !in o && r.key !in o ==> r.action.newKey !in o')
            && (forall k :: k != r.key && k != r.action.newKey ==> (k in o <==> k in o') && (k in o ==> o'[k] == o[k]))
  {
  }

  // ---------------------------------------------------------------------------------------------
  // The log

  /** A change is logged exactly for the objects on the path that the rule applies to. */
  lemma {:induction false} HitsExact(node: Json, path: seq<string>, r: Rule, a: Address)
    ensures a in Hits(node, path, r) <==>
            Addressed(path, a) && Get(node, a).Some? && Get(node, a).value.Object? && Fires(Get(node, a).value.members, r)
    decreases |path|
  {
    hide Fires;
    if path != [] && a != [] {
      HitsChild(node, path, r, a);
      hide Hits;
      var child := Child(node, a[0]);
      if child.Some? {
        HitsExact(child.value, path[1..], r, a[1..]);
      }
    }
  }

  lemma HitsChild(node: Json, path: seq<string>, r: Rule, a: Address)
    requires path != [] && a != []
    ensures var child := Child(node, a[0]);
            a in Hits(node, path, r) <==> child.Some? && StepMatches(path[0], a[0]) && a[1..] in Hits(child.value, path[1..], r)
  {
    hide Fires;
    assert a == [a[0]] + a[1..];
    if a in Hits(node, path, r) {
      HitChildIn(node, path, r, a);
    }
  }

  lemma HitChildIn(node: Json, path: seq<string>, r: Rule, a: Address)
    requires path != [] && a != [] && a in Hits(node, path, r)
    ensures var child := Child(node, a[0]); child.Some? && StepMatches(path[0], a[0]) && a[1..] in Hits(child.value, path[1..], r)
  {
    hide Fires;
    if path[0] == "*" {
      if node.Object? {
        var k, b :| k in node.members && b in Hits(node.members[k], path[1..], r) && a == [Key(k)] + b;
        assert a[1..] == b;
      } else {
        var i, b :| 0 <= i < |node.items| && b in Hits(node.items[i], path[1..], r) && a == [Index(i)] + b;
        assert a[1..] == b;
      }
    } else {
      var b :| b in Hits(node.members[path[0]], path[1..], r) && a == [Key(path[0])] + b;
      assert a[1..] == b;
    }
  }

  /** The rule applies nowhere in the tree. */
  predicate Quiet(node: Json, path: seq<string>, r: Rule)
    decreases |path|
  {
    if path == [] then node.Object? ==> !Fires(node.members, r)
    else if path[0] == "*" then
      match node
      case Object(m) => forall k :: k in m ==> Quiet(m[k], path[1..], r)
      case Array(items) => forall i :: 0 <= i < |items| ==> Quiet(items[i], path[1..], r)
      case _ => true
    else node.Object? && path[0] in node.members ==> Quiet(node.members[path[0]], path[1..], r)
  }

  lemma QuietChild(node: Json, path: seq<string>, r: Rule, p: Place)
    requires path != [] && Quiet(node, path, r) && StepMatches(path[0], p) && Child(node, p).Some?
    ensures Quiet(Child(node, p).value, path[1..], r)
  {
  }

  lemma {:induction false} QuietHitsNothing(node: Json, path: seq<string>, r: Rule)
    ensures Quiet(node, path, r) <==> Hits(node, path, r) == {}
  {
    if Quiet(node, path, r) {
      forall a ensures a !in Hits(node, path, r) {
        if a in Hits(node, path, r) {
          QuietNoHit(node, path, r, a);
        }
      }
    } else {
      var a := LoudHit(node, path, r);
    }
  }

  lemma {:induction false} QuietNoHit(node: Json, path: seq<string>, r: Rule, a: Address)
    requires Quiet(node, path, r)
    ensures a !in Hits(node, path, r)
    decreases |path|
  {
    hide Fires;
    if a in Hits(node, path, r) && path != [] {
      assert a != [];
      HitChildIn(node, path, r, a);
      QuietChild(node, path, r, a[0]);
      QuietNoHit(Child(node, a[0]).value, path[1..], r, a[1..]);
    }
  }

  lemma {:induction false} LoudHit(node: Json, path: seq<string>, r: Rule) returns (a: Address)
    requires !Quiet(node, path, r)
    ensures a in Hits(node, path, r)
    decreases |path|
  {
    hide Fires;
    if path == [] {
      a := [];
    } else {
      var p := LoudChild(node, path, r);
      var b := LoudHit(Child(node, p).value, path[1..], r);
      a := [p] + b;
      assert a[1..] == b;
      HitsChild(node, path, r, a);
    }
  }

  lemma LoudChild(node: Json, path: seq<string>, r: Rule) returns (p: Place)
    requires path != [] && !Quiet(node, path, r)
    ensures StepMatches(path[0], p) && Child(node, p).Some? && !Quiet(Child(node, p).value, path[1..], r)
  {
    if path[0] != "*" {
      p := Key(path[0]);
    } else if node.Object? {
      var k :| k in node.members && !Quiet(node.members[k], path[1..], r);
      p := Key(k);
    } else {
      var i :| 0 <= i < |node.items| && !Quiet(node.items[i], path[1..], r);
      p := Index(i);
    }
  }

  /** The tree stays the same exactly when no change is logged. */
  lemma {:induction false} LoggedIffChanged(node: Json, path: seq<string>, r: Rule)
    requires RuleOk(r)
    ensures Walk(node, path, r) == node <==> Hits(node, path, r) == {}
  {
    QuietHitsNothing(node, path, r);
    if Quiet(node, path, r) {
      QuietWalk(node, path, r);
    } else {
      LoudWalk(node, path, r);
    }
  }

  lemma {:induction false} QuietWalk(node: Json, path: seq<string>, r: Rule)
    requires Quiet(node, path, r)
    ensures Walk(node, path, r) == node
    decreases |path|
  {
    hide Fires;
    if path != [] {
      var w := Walk(node, path, r);
      if path[0] == "*" {
        if node.Object? {
          forall k | k in node.members ensures w.members[k] == node.members[k] {
            QuietWalk(node.members[k], path[1..], r);
          }
          assert w.members == node.members;
        } else if node.Array? {
          forall i | 0 <= i < |node.items| ensures w.items[i] == node.items[i] {
            QuietWalk(node.items[i], path[1..], r);
          }
          assert w.items == node.items;
        }
      } else if node.Object? && path[0] in node.members {
        QuietWalk(node.members[path[0]], path[1..], r);
        assert w.members == node.members;
      }
    }
  }

  lemma ApplyChanges(o: map<string, Json>, r: Rule)
    requires RuleOk(r) && Fires(o, r)
    ensures Apply(o, r) != o
  {
  }

  lemma {:induction false} LoudWalk(node: Json, path: seq<string>, r: Rule)
    requires RuleOk(r) && !Quiet(node, path, r)
    ensures Walk(node, path, r) != node
    decreases |path|
  {
    if path == [] {
      ApplyChanges(node.members, r);
    } else {
      var p := LoudChild(node, path, r);
      LoudWalk(Child(node, p).value, path[1..], r);
      WalkChild(node, path, r, p);
    }
  }

  // ---------------------------------------------------------------------------------------------
  // Rules do not undo each other

  lemma ApplySettles(o: map<string, Json>, r: Rule)
    requires RuleOk(r)
    ensures !Fires(Apply(o, r), r)
  {
  }

  lemma {:induction false} WalkSettles(node: Json, path: seq<string>, r: Rule)
    requires RuleOk(r)
    ensures Quiet(Walk(node, path, r), path, r)
  {
    SamePathKeeps(node, path, r, r, true);
  }

  /** What r2 does to an object never makes r1 apply to it. */
  predicate Spares(r2: Rule, r1: Rule) {
    match r1.action
    case Rename(_) => !(r2.action.Rename? && r2.action.newKey == r1.key) && !(r2.action.Ensure? && r2.key == r1.key)
    case Remove => !(r2.action.Rename? && r2.action.newKey == r1.key) && !(r2.action.Ensure? && r2.key == r1.key)
    case Ensure(_) => !((r2.action.Rename? || r2.action.Remove?) && r2.key == r1.key)
    case ReplaceIfDefault(expected, _) =>
      && !(r2.action.Rename? && r2.action.newKey == r1.key) && !(r2.action.Ensure? && r2.key == r1.key)
      && !(r2.action.ReplaceIfDefault? && r2.key == r1.key && JsonEquals(r2.action.to, expected))
  }

  lemma SparedStaysQuiet(o: map<string, Json>, r1: Rule, r2: Rule)
    requires Spares(r2, r1) && !Fires(o, r1)
    ensures !Fires(Apply(o, r2), r1)
  {
  }

  /** Over the same path: r1 stays quiet under r2, or becomes so under r1 itself. */
  lemma {:induction false} SamePathKeeps(node: Json, path: seq<string>, r1: Rule, r2: Rule, same: bool)
    requires if same then r1 == r2 && RuleOk(r1) else Spares(r2, r1) && Quiet(node, path, r1)
    ensures Quiet(Walk(node, path, r2), path, r1)
    decreases |path|
  {
    if path == [] {
      if node.Object? {
        if same { ApplySettles(node.members, r1); } else { SparedStaysQuiet(node.members, r1, r2); }
      }
    } else {
      forall p | Child(Walk(node, path, r2), p).Some? && StepMatches(path[0], p)
        ensures Quiet(Child(Walk(node, path, r2), p).value, path[1..], r1)
      {
        WalkChild(node, path, r2, p);
        if !same { QuietChild(node, path, r1, p); }
        SamePathKeeps(Child(node, p).value, path[1..], r1, r2, same);
      }
      QuietFromChildren(Walk(node, path, r2), path, r1);
    }
  }

  lemma QuietFromChildren(node: Json, path: seq<string>, r: Rule)
    requires path != []
    requires forall p :: Child(node, p).Some? && StepMatches(path[0], p) ==> Quiet(Child(node, p).value, path[1..], r)
    ensures Quiet(node, path, r)
  {
    hide Fires;
    if !Quiet(node, path, r) {
      var p := LoudChild(node, path, r);
    }
  }

  predicate Apart(p: seq<string>, q: seq<string>) {
    p != [] && q != [] && p[0] != "*" && q[0] != "*" && p[0] != q[0]
  }

  lemma ApartKeeps(node: Json, r1: Rule, r2: Rule)
    requires Apart(r1.path, r2.path) && Quiet(node, r1.path, r1)
    ensures Quiet(Walk(node, r2.path, r2), r1.path, r1)
  {
  }

  /** A later rule that never wakes an earlier one. */
  predicate Compatible(earlier: Rule, later: Rule) {
    Apart(earlier.path, later.path) || (earlier.path == later.path && Spares(later, earlier))
  }

  predicate TableOk(rules: seq<Rule>) {
    && (forall i :: 0 <= i < |rules| ==> RuleOk(rules[i]))
    && (forall i, j :: 0 <= i < j < |rules| ==> Compatible(rules[i], rules[j]))
  }

  lemma StringsDiffer()
    ensures "scenes"[0] == 's' && "llm"[0] == 'l' && "global"[0] == 'g' && "asr"[0] == 'a' && "*"[0] == '*'
    ensures |"candidate_count"| == 15 && |"count"| == 5 && |"show_raw"| == 8 && |"raw_cand"| == 8 && |"raw_prev"| == 8
    ensures "show_raw"[0] == 's' && "raw_cand"[4] == 'c' && "raw_prev"[4] == 'p'
  {
  }

  /** Every pair of rules in the table of which the first comes before the second. */
  lemma PairOk(i: nat, j: nat)
    requires i < j < |RULES|
    ensures Compatible(RULES[i], RULES[j])
  {
    StringsDiffer();
  }

  lemma RulesOk()
    ensures TableOk(RULES)
  {
    hide Compatible;
    forall i, j | 0 <= i < j < |RULES| ensures Compatible(RULES[i], RULES[j]) {
      PairOk(i, j);
    }
  }

  // ---------------------------------------------------------------------------------------------
  // The whole pass

  /** A rule runs on a configuration without a version, and on one older than the rule. */
  predicate Due(r: Rule, version: Option<Version>) {
    version.None? || Before(version.value, r.version)
  }

  function Pass(node: Json, rules: seq<Rule>, version: Option<Version>): Json {
    if rules == [] then node
    else
      var r := rules[|rules| - 1];
      var before := Pass(node, rules[..|rules| - 1], version);
      if Due(r, version) then Walk(before, r.path, r) else before
  }

  /** The log of a pass: the rule and the object of each change. */
  function Log(node: Json, rules: seq<Rule>, version: Option<Version>): set<(Rule, Address)> {
    if rules == [] then {}
    else
      var r := rules[|rules| - 1];
      var before := Pass(node, rules[..|rules| - 1], version);
      Log(node, rules[..|rules| - 1], version)
      + (if Due(r, version) then set a | a in Hits(before, r.path, r) :: (r, a) else {})
  }

  predicate AllQuiet(node: Json, rules: seq<Rule>, version: Option<Version>) {
    forall i :: 0 <= i < |rules| && Due(rules[i], version) ==> Quiet(node, rules[i].path, rules[i])
  }

  lemma {:induction false} PassSettles(node: Json, rules: seq<Rule>, version: Option<Version>)
    requires TableOk(rules)
    ensures AllQuiet(Pass(node, rules, version), rules, version)
    decreases |rules|
  {
    hide Walk, Quiet, Due;
    if rules != [] {
      var n := |rules| - 1;
      var r, front := rules[n], rules[..n];
      PassSettles(node, front, version);
      var before := Pass(node, front, version);
      if Due(r, version) {
        WalkSettles(before, r.path, r);
        forall i | 0 <= i < n && Due(rules[i], version) ensures Quiet(Walk(before, r.path, r), rules[i].path, rules[i]) {
          assert front[i] == rules[i] && Compatible(rules[i], r);
          if Apart(rules[i].path, r.path) {
            ApartKeeps(before, rules[i], r);
          } else {
            SamePathKeeps(before, r.path, rules[i], r, false);
          }
        }
      } else {
        forall i | 0 <= i < n && Due(rules[i], version) ensures Quiet(before, rules[i].path, rules[i]) {
          assert front[i] == rules[i];
        }
      }
    }
  }

  lemma {:induction false} QuietPass(node: Json, rules: seq<Rule>, version: Option<Version>)
    requires AllQuiet(node, rules, version)
    ensures Pass(node, rules, version) == node && Log(node, rules, version) == {}
    decreases |rules|
  {
    hide Walk, Quiet, Due, Hits;
    if rules != [] {
      var n := |rules| - 1;
      QuietPass(node, rules[..n], version);
      if Due(rules[n], version) {
        QuietWalk(node, rules[n].path, rules[n]);
        QuietHitsNothing(node, rules[n].path, rules[n]);
      }
    }
  }

  /** A second pass changes nothing and logs nothing. */
  lemma PassIdempotent(node: Json, version: Option<Version>)
    ensures var once := Pass(node, RULES, version); Pass(once, RULES, version) == once && Log(once, RULES, version) == {}
  {
    hide AllQuiet, Pass, Log;
    RulesOk();
    PassSettles(node, RULES, version);
    QuietPass(Pass(node, RULES, version), RULES, version);
  }

  /** A pass changes the tree exactly when it logs something. */
  lemma PassLogsIffChanged(node: Json, version: Option<Version>)
    ensures Pass(node, RULES, version) == node <==> Log(node, RULES, version) == {}
  {
    hide AllQuiet, Pass, Log;
    RulesOk();
    PassSettles(node, RULES, version);
    if Pass(node, RULES, version) == node {
      QuietPass(node, RULES, version);
    } else if Log(node, RULES, version) == {} {
      NoLogNoChange(node, RULES, version);
    }
  }

  lemma LastHits(node: Json, rules: seq<Rule>, version: Option<Version>)
    requires rules != []
    ensures var r := rules[|rules| - 1];
            Due(r, version) && Hits(Pass(node, rules[..|rules| - 1], version), r.path, r) != {} ==> Log(node, rules, version) != {}
  {
    hide Walk, Due, Hits, Pass;
    var r := rules[|rules| - 1];
    var hits := Hits(Pass(node, rules[..|rules| - 1], version), r.path, r);
    if Due(r, version) && hits != {} {
      var a :| a in hits;
      assert (r, a) in Log(node, rules, version);
    }
  }

  lemma {:induction false} NoLogNoChange(node: Json, rules: seq<Rule>, version: Option<Version>)
    requires TableOk(rules) && Log(node, rules, version) == {}
    ensures Pass(node, rules, version) == node
    decreases |rules|
  {
    hide Walk, Due, Hits;
    if rules != [] {
      var n := |rules| - 1;
      var r, before := rules[n], Pass(node, rules[..n], version);
      NoLogNoChange(node, rules[..n], version);
      if Due(r, version) {
        LastHits(node, rules, version);
        LoggedIffChanged(before, r.path, r);
      }
    }
  }
}
