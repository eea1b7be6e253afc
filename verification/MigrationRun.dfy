/** RunConfigMigration of src/common/config/config_migration.cpp, for a configuration without vinput.conf. */
module MigrationRun {
  import opened Wrappers
  import JsonScanner
  import opened Migration
  import opened MigrationEffect

  // ---------------------------------------------------------------------------------------------
  // Versions

  method MaxRuleVersion(rules: seq<Rule>) returns (max: Version)
    ensures forall r :: r in rules ==> !Before(max, r.version)
    ensures max == Version(0, 0, 0) || exists r :: r in rules && r.version == max
  {
    max := Version(0, 0, 0);
    for i := 0 to |rules|
      invariant forall j :: 0 <= j < i ==> !Before(max, rules[j].version)
      invariant max == Version(0, 0, 0) || exists r :: r in rules && r.version == max
    {
      if Before(max, rules[i].version) {
        max := rules[i].version;
      }
    }
  }

  /** The greatest version in the table. */
  lemma NewestRule(max: Version)
    requires forall r :: r in RULES ==> !Before(max, r.version)
    requires max == Version(0, 0, 0) || exists r :: r in RULES && r.version == max
    ensures max == V2_4_0 == Version(2, 4, 0)
  {
    assert !Before(max, RULES[9].version);
    if max != Version(0, 0, 0) {
      var r :| r in RULES && r.version == max;
    }
  }

  function Digits(n: nat): string {
    (if n < 10 then "" else Digits(n / 10)) + ["0123456789"[n % 10]]
  }

  function Constraint(v: Version): string {
    ">=" + Digits(v.major) + "." + Digits(v.minor) + "." + Digits(v.patch)
  }

  const TARGET: string := ">=2.4.0"

  lemma TargetIsNewest()
    ensures Constraint(V2_4_0) == TARGET
  {
    assert Digits(2) == "2" && Digits(4) == "4" && Digits(0) == "0";
  }

  function TrimRight(s: string): string {
    if s != [] && JsonScanner.IsSpace(s[|s| - 1]) then TrimRight(s[..|s| - 1]) else s
  }

  function UpToComma(s: string): string {
    if s == [] || s[0] == ',' then [] else [s[0]] + UpToComma(s[1..])
  }

  function WithoutOperator(s: string): string {
    if s != [] && (s[0] == '>' || s[0] == '=' || s[0] == ' ') then WithoutOperator(s[1..]) else s
  }

  /** ParseConfigLowerBoundVersion, over any parser of plain versions. */
  function LowerBound(s: string, parse: string -> Option<Version>): Option<Version> {
    var s := TrimRight(JsonScanner.SkipSpace(s));
    if s == [] then None else parse(WithoutOperator(UpToComma(s)))
  }

  // What a bound is read from: blanks, operators, a version, and what follows a comma

  predicate IsOperator(c: char) {
    c == '>' || c == '=' || c == ' '
  }

  lemma {:induction false} SkipsBlanks(lead: string, s: string)
    requires JsonScanner.Blank(lead) && s != [] && !JsonScanner.IsSpace(s[0])
    ensures JsonScanner.SkipSpace(lead + s) == s
  {
    if lead == [] {
      assert lead + s == s;
    } else {
      assert (lead + s)[1..] == lead[1..] + s;
      SkipsBlanks(lead[1..], s);
    }
  }

  lemma {:induction false} TrimsBlanks(s: string, trail: string)
    requires JsonScanner.Blank(trail) && s != [] && !JsonScanner.IsSpace(s[|s| - 1])
    ensures TrimRight(s + trail) == s
    decreases |trail|
  {
    if trail == [] {
      assert s + trail == s;
    } else {
      var n := |trail| - 1;
      assert (s + trail)[..|s + trail| - 1] == s + trail[..n];
      TrimsBlanks(s, trail[..n]);
    }
  }

  /** Whatever is trimmed behind a comma, the comma stays. */
  lemma {:induction false} TrimStopsAtComma(s: string, rest: string)
    ensures var t := TrimRight(s + "," + rest); |s| < |t| <= |s| + 1 + |rest| && t[..|s|] == s && t[|s|] == ','
    decreases |rest|
  {
    var u := s + "," + rest;
    if rest != [] && JsonScanner.IsSpace(rest[|rest| - 1]) {
      assert u[..|u| - 1] == s + "," + rest[..|rest| - 1];
      TrimStopsAtComma(s, rest[..|rest| - 1]);
    } else {
      assert u[|u| - 1] == if rest == [] then ',' else rest[|rest| - 1];
    }
  }

  lemma {:induction false} CutsAtComma(s: string, tail: string)
    requires ',' !in s && (tail == [] || tail[0] == ',')
    ensures UpToComma(s + tail) == s
  {
    if s == [] {
      assert s + tail == tail;
    } else {
      assert (s + tail)[1..] == s[1..] + tail;
      CutsAtComma(s[1..], tail);
    }
  }

  lemma {:induction false} DropsOperators(ops: string, s: string)
    requires (forall i :: 0 <= i < |ops| ==> IsOperator(ops[i])) && (s == [] || !IsOperator(s[0]))
    ensures WithoutOperator(ops + s) == s
  {
    if ops == [] {
      assert ops + s == s;
    } else {
      assert (ops + s)[1..] == ops[1..] + s;
      DropsOperators(ops[1..], s);
    }
  }

  /** A bound is the version behind the operators, up to the first comma; blanks around it do not matter. */
  lemma BoundReads(lead: string, ops: string, version: string, trail: string, parse: string -> Option<Version>)
    requires JsonScanner.Blank(lead) && JsonScanner.Blank(trail) && (forall i :: 0 <= i < |ops| ==> IsOperator(ops[i])) && (ops != [] ==> ops[0] != ' ')
    requires version != [] && ',' !in version && !IsOperator(version[0])
    requires !JsonScanner.IsSpace(version[0]) && !JsonScanner.IsSpace(version[|version| - 1])
    ensures LowerBound(lead + (ops + version) + trail, parse) == parse(version)
  {
    hide JsonScanner.SkipSpace, TrimRight, UpToComma, WithoutOperator;
    var s := ops + version;
    assert lead + s + trail == lead + (s + trail) && s[|s| - 1] == version[|version| - 1];
    SkipsBlanks(lead, s + trail);
    TrimsBlanks(s, trail);
    assert s + [] == s;
    CutsAtComma(s, []);
    DropsOperators(ops, version);
  }

  lemma BoundReadsFirst(lead: string, ops: string, version: string, rest: string, parse: string -> Option<Version>)
    requires JsonScanner.Blank(lead) && (forall i :: 0 <= i < |ops| ==> IsOperator(ops[i])) && (ops != [] ==> ops[0] != ' ')
    requires ',' !in version && (version != [] ==> !IsOperator(version[0]) && !JsonScanner.IsSpace(version[0]))
    ensures LowerBound(lead + (ops + version + "," + rest), parse) == parse(version)
  {
    hide JsonScanner.SkipSpace, TrimRight, UpToComma, WithoutOperator;
    var s := ops + version;
    SkipsBlanks(lead, s + "," + rest);
    TrimStopsAtComma(s, rest);
    var t := TrimRight(s + "," + rest);
    assert t == s + t[|s|..];
    CutsAtComma(s, t[|s|..]);
    DropsOperators(ops, version);
  }

  lemma {:induction false} BlankHasNoBound(s: string, parse: string -> Option<Version>)
    requires JsonScanner.Blank(s)
    ensures LowerBound(s, parse) == None
  {
    if s != [] {
      BlankHasNoBound(s[1..], parse);
    }
  }

  /** The order of versions is the order of the numbers that have their parts as digits. */
  lemma BeforeIsNumeric(a: Version, b: Version, base: nat)
    requires a.major < base && a.minor < base && a.patch < base && b.major < base && b.minor < base && b.patch < base
    ensures Before(a, b) <==> (a.major * base + a.minor) * base + a.patch < (b.major * base + b.minor) * base + b.patch
  {
    var m, n := a.major * base + a.minor, b.major * base + b.minor;
    DigitsOrder(a.major, a.minor, b.major, b.minor, base);
    DigitsOrder(m, a.patch, n, b.patch, base);
    DigitsOrder(b.major, b.minor, a.major, a.minor, base);
    DigitsOrder(n, b.patch, m, a.patch, base);
  }

  lemma DigitsOrder(h: nat, l: nat, h': nat, l': nat, base: nat)
    requires l < base && l' < base
    ensures h * base + l < h' * base + l' <==> h < h' || (h == h' && l < l')
  {
    if h < h' {
      assert (h + 1) * base <= h' * base;
    } else if h' < h {
      assert (h' + 1) * base <= h * base;
    }
  }

  /** Scalars other than numbers are equal when they are the same; arrays and objects never are. */
  lemma EqualMeans(actual: Json, expected: Json)
    ensures actual.Number? && expected.Number? ==> (JsonEquals(actual, expected) <==> -0.0001 < expected.n - actual.n < 0.0001)
    ensures actual.Array? || actual.Object? || expected.Array? || expected.Object? ==> !JsonEquals(actual, expected)
    ensures !actual.Number? && !actual.Array? && !actual.Object? ==> (JsonEquals(actual, expected) <==> actual == expected)
  {
  }

  lemma TargetBound(parse: string -> Option<Version>)
    ensures LowerBound(TARGET, parse) == parse("2.4.0")
  {
    hide LowerBound;
    var version := "2.4.0";
    assert forall i :: 0 <= i < |version| ==> version[i] != ',';
    BoundReads("", ">=", version, "", parse);
    assert "" + (">=" + version) + "" == TARGET;
  }

  // ---------------------------------------------------------------------------------------------
  // The specification of a run

  /** config.json: not there, not readable as JSON, or a tree. */
  datatype ConfigFile = Absent | Broken | Parsed(json: Json)

  datatype Report = Report(needed: bool, applied: bool, failed: bool)

  /** The rest of the system: how versions parse, what the host satisfies, whether files can be written. */
  datatype Host = Host(parse: string -> Option<Version>, satisfies: string -> bool, backs: bool, writes: bool)

  function VersionOf(m: map<string, Json>, host: Host): Option<Version> {
    if "version" in m && m["version"].Text? then LowerBound(m["version"].s, host.parse) else None
  }

  /** The version of a configuration: read from a text under "version", and else none. */
  lemma VersionIsRead(m: map<string, Json>, host: Host, lead: string, ops: string, version: string, trail: string)
    requires JsonScanner.Blank(lead) && JsonScanner.Blank(trail) && (forall i :: 0 <= i < |ops| ==> IsOperator(ops[i])) && (ops != [] ==> ops[0] != ' ')
    requires version != [] && ',' !in version && !IsOperator(version[0])
    requires !JsonScanner.IsSpace(version[0]) && !JsonScanner.IsSpace(version[|version| - 1])
    ensures "version" !in m || !m["version"].Text? ==> VersionOf(m, host) == None
    ensures "version" in m && m["version"] == Text(lead + (ops + version) + trail) ==> VersionOf(m, host) == host.parse(version)
  {
    hide LowerBound;
    BoundReads(lead, ops, version, trail, host.parse);
  }

  /** Nothing to do: the version field says so, and there is no legacy field. */
  predicate UpToDate(json: Json, host: Host) {
    && json.Object? && "version" in json.members && json.members["version"].Text? && "vinput_version" !in json.members
    && VersionOf(json.members, host).Some? && !Before(VersionOf(json.members, host).value, V2_4_0)
    && host.satisfies(json.members["version"].s)
  }

  predicate Stamped(m: map<string, Json>) {
    "version" in m && m["version"] == Text(TARGET)
  }

  function Restamped(m: map<string, Json>): map<string, Json> {
    var m := m - {"vinput_version"};
    if Stamped(m) then m else m["version" := Text(TARGET)]
  }

  function Migrated(json: Json, host: Host): Json {
    if !json.Object? then json else
    var after := Pass(json, RULES, VersionOf(json.members, host));
    if after.Object? then Object(Restamped(after.members)) else after
  }

  /** Something was logged. */
  predicate Logs(json: Json, host: Host) {
    json.Object? &&
    var version := VersionOf(json.members, host);
    var after := Pass(json, RULES, version);
    Log(json, RULES, version) != {} || (after.Object? && ("vinput_version" in after.members || !Stamped(after.members)))
  }

  // ---------------------------------------------------------------------------------------------
  // The pass leaves the version fields alone

  predicate Elsewhere(r: Rule, key: string) {
    r.path != [] && r.path[0] != "*" && r.path[0] != key
  }

  lemma RulesElsewhere(i: nat)
    requires i < |RULES|
    ensures Elsewhere(RULES[i], "version") && Elsewhere(RULES[i], "vinput_version")
  {
    StringsDiffer();
    assert "version"[0] == 'v' && "vinput_version"[0] == 'v';
  }

  lemma WalkElsewhere(m: map<string, Json>, r: Rule, key: string)
    requires Elsewhere(r, key)
    ensures var w := Walk(Object(m), r.path, r); w.Object? && Child(w, Key(key)) == Child(Object(m), Key(key))
  {
    WalkChild(Object(m), r.path, r, Key(key));
  }

  lemma {:induction false} PassElsewhere(m: map<string, Json>, rules: seq<Rule>, version: Option<Version>, key: string)
    requires forall i :: 0 <= i < |rules| ==> Elsewhere(rules[i], key)
    ensures var w := Pass(Object(m), rules, version); w.Object? && Child(w, Key(key)) == Child(Object(m), Key(key))
    decreases |rules|
  {
    hide Walk, Due;
    if rules != [] {
      var n := |rules| - 1;
      PassElsewhere(m, rules[..n], version, key);
      WalkElsewhere(Pass(Object(m), rules[..n], version).members, rules[n], key);
    }
  }

  lemma PassKeepsVersions(m: map<string, Json>, version: Option<Version>)
    ensures var w := Pass(Object(m), RULES, version);
            && w.Object? && Child(w, Key("version")) == Child(Object(m), Key("version"))
            && Child(w, Key("vinput_version")) == Child(Object(m), Key("vinput_version"))
  {
    hide Pass, Elsewhere;
    forall i | 0 <= i < |RULES| ensures Elsewhere(RULES[i], "version") && Elsewhere(RULES[i], "vinput_version") {
      RulesElsewhere(i);
    }
    PassElsewhere(m, RULES, version, "version");
    PassElsewhere(m, RULES, version, "vinput_version");
  }

  /** A run logs something exactly when it changes the tree. */
  lemma LogsIffMigrated(json: Json, host: Host)
    ensures Logs(json, host) <==> Migrated(json, host) != json
  {
    hide Pass, Log, LowerBound;
    if json.Object? {
      var version := VersionOf(json.members, host);
      PassKeepsVersions(json.members, version);
      PassLogsIffChanged(json, version);
      Restamps(json.members, Pass(json, RULES, version).members);
    }
  }

  lemma Restamps(m: map<string, Json>, after: map<string, Json>)
    requires Child(Object(after), Key("version")) == Child(Object(m), Key("version"))
    requires Child(Object(after), Key("vinput_version")) == Child(Object(m), Key("vinput_version"))
    ensures Restamped(after) == m <==> after == m && "vinput_version" !in after && Stamped(after)
  {
    var result := Restamped(after);
    StampedSame(after);
    assert Stamped(result) && "vinput_version" !in result by { VersionsDiffer(); }
    if result == m {
      forall k ensures (k in after <==> k in m) && (k in m ==> after[k] == m[k]) {
        assert k != "version" && k != "vinput_version" ==> (k in after <==> k in result) && (k in after ==> after[k] == result[k]);
        assert Child(Object(after), Key(k)) == if k in after then Some(after[k]) else None;
        assert Child(Object(m), Key(k)) == if k in m then Some(m[k]) else None;
      }
      assert after == m;
    }
  }

  lemma VersionsDiffer()
    ensures "version" != "vinput_version"
  {
    assert |"version"| != |"vinput_version"|;
  }

  // ---------------------------------------------------------------------------------------------
  // A run

  ghost predicate IsRun(file: ConfigFile, dryRun: bool, host: Host, report: Report, after: ConfigFile) {
    match file
    case Absent => report == Report(false, false, false) && after == file
    case Broken => report == Report(false, false, true) && after == file
    case Parsed(json) =>
      var needed := !UpToDate(json, host) && Logs(json, host);
      if !needed || dryRun then report == Report(needed, false, false) && after == file
      else if !host.backs || !host.writes then report == Report(true, false, true) && after == file
      else report == Report(true, true, false) && after == Parsed(Migrated(json, host))
  }

  method RunConfigMigration(file: ConfigFile, dryRun: bool, host: Host) returns (report: Report, after: ConfigFile)
    ensures IsRun(file, dryRun, host, report, after)
  {
    hide Walk, Hits, LowerBound, Due;
    after := file;
    if file.Absent? {
      return Report(false, false, false), after;
    }
    if file.Broken? {
      return Report(false, false, true), after;
    }
    var data := file.json;
    if UpToDate(data, host) {
      return Report(false, false, false), after;
    }
    var changed := false;
    if data.Object? {
      var version := VersionOf(data.members, host);
      for i := 0 to |RULES|
        invariant data == Pass(file.json, RULES[..i], version)
        invariant changed <==> Log(file.json, RULES[..i], version) != {}
      {
        assert RULES[..i + 1][..i] == RULES[..i];
        if Due(RULES[i], version) {
          ghost var before := data;
          var hits := Hits(data, RULES[i].path, RULES[i]);
          LogGrows(file.json, i, version);
          data := Walk(data, RULES[i].path, RULES[i]);
          changed := changed || hits != {};
        }
      }
      assert RULES[..|RULES|] == RULES;
      PassKeepsVersions(file.json.members, version);
      var m := data.members;
      if "vinput_version" in m {
        m := m - {"vinput_version"};
        changed := true;
      }
      if "version" !in m || m["version"] != Text(TARGET) {
        m := m["version" := Text(TARGET)];
        changed := true;
      }
      StampedSame(data.members);
      data := Object(m);
    }
    if !changed || dryRun {
      return Report(changed, false, false), after;
    }
    if !host.backs || !host.writes {
      return Report(true, false, true), after;
    }
    return Report(true, true, false), Parsed(data);
  }

  lemma StampedSame(m: map<string, Json>)
    ensures Stamped(m - {"vinput_version"}) == Stamped(m)
    ensures "vinput_version" !in m ==> m - {"vinput_version"} == m
  {
    VersionsDiffer();
  }

  lemma LogGrows(json: Json, i: nat, version: Option<Version>)
    requires i < |RULES| && Due(RULES[i], version)
    ensures Log(json, RULES[..i + 1], version) != {} <==>
            Log(json, RULES[..i], version) != {} || Hits(Pass(json, RULES[..i], version), RULES[i].path, RULES[i]) != {}
  {
    hide Walk, Hits, Due;
    assert RULES[..i + 1][..i] == RULES[..i];
    LastHits(json, RULES[..i + 1], version);
  }

  /** A run asks for a migration only when it would change the tree, and a dry run predicts a real one. */
  lemma NeededIffChanges(file: ConfigFile, host: Host, dry: Report, afterDry: ConfigFile, real': Report, after: ConfigFile)
    requires IsRun(file, true, host, dry, afterDry) && IsRun(file, false, host, real', after)
    ensures dry.needed == real'.needed && afterDry == file
    ensures real'.needed && !real'.failed <==> after != file
  {
    if file.Parsed? {
      LogsIffMigrated(file.json, host);
    }
  }

  /**
    After a run that did not fail nothing more is needed, whatever the host version, as long as the
    parser understands the version the migration itself writes.
   */
  lemma SecondRunNeedsNothing(file: ConfigFile, host: Host, dryRun: bool, first: Report, after: ConfigFile, second: Report, last: ConfigFile)
    requires host.parse("2.4.0") == Some(V2_4_0)
    requires IsRun(file, false, host, first, after) && !first.failed && IsRun(after, dryRun, host, second, last)
    ensures !second.needed && !second.applied && last == after
  {
    hide Pass, Log;
    if first.applied && file.json.Object? {
      PassKeepsVersions(file.json.members, VersionOf(file.json.members, host));
      MigratedIsQuiet(file.json, host);
    }
  }

  lemma MigratedIsQuiet(json: Json, host: Host)
    requires json.Object? && host.parse("2.4.0") == Some(V2_4_0) && Pass(json, RULES, VersionOf(json.members, host)).Object?
    ensures !Logs(Migrated(json, host), host)
  {
    hide Pass, Log, LowerBound;
    VersionsDiffer();
    TargetBound(host.parse);
    var done := Migrated(json, host);
    assert VersionOf(done.members, host) == Some(V2_4_0);
    NothingDue();
    QuietPass(done, RULES, Some(V2_4_0));
  }

  lemma NothingDue()
    ensures forall json :: AllQuiet(json, RULES, Some(V2_4_0))
  {
  }

  // ---------------------------------------------------------------------------------------------
  // Which configurations are migrated, and to what

  /**
    Exactly when a migration is needed: the version is missing, does not parse or is older than 2.4.0, or there is the
    legacy field, or the host does not satisfy a version constraint other than the one a migration writes.
   */
  lemma NeededExactly(m: map<string, Json>, dryRun: bool, host: Host, report: Report, after: ConfigFile)
    requires host.parse("2.4.0") == Some(Version(2, 4, 0)) && IsRun(Parsed(Object(m)), dryRun, host, report, after)
    ensures report.needed <==>
            || Older(VersionOf(m, host), Version(2, 4, 0)) || "vinput_version" in m
            || (m["version"].s != ">=2.4.0" && !host.satisfies(m["version"].s))
  {
    hide Pass, Log, LowerBound;
    TargetBound(host.parse);
    PassKeepsVersions(m, VersionOf(m, host));
    var w := Pass(Object(m), RULES, VersionOf(m, host));
    SameFields(m, w.members);
    if Stamped(m) {
      NothingDue();
      QuietPass(Object(m), RULES, Some(V2_4_0));
    }
  }

  lemma SameFields(m: map<string, Json>, after: map<string, Json>)
    requires Child(Object(after), Key("version")) == Child(Object(m), Key("version"))
    requires Child(Object(after), Key("vinput_version")) == Child(Object(m), Key("vinput_version"))
    ensures (Stamped(after) <==> Stamped(m)) && ("vinput_version" in after <==> "vinput_version" in m)
  {
  }

  predicate VersionField(p: Place) {
    p == Key("version") || p == Key("vinput_version")
  }

  lemma RestampKeeps(m: map<string, Json>, a: Address)
    requires a != [] && !VersionField(a[0])
    ensures Get(Object(Restamped(m)), a) == Get(Object(m), a)
  {
  }

  lemma PathsHaveNoVersion(path: seq<string>, a: Address)
    requires InTable(path) && Addressed(path, a)
    ensures a != [] && !VersionField(a[0])
  {
    StringsDiffer();
    assert "version"[0] == 'v' && "vinput_version"[0] == 'v';
  }

  /**
    An older configuration is migrated: unless it is a dry run or a file cannot be written, the result is a tree that
    carries the new version, no legacy field, and at every object of the table the new values.
   */
  lemma OldIsMigrated(m: map<string, Json>, host: Host, report: Report, after: ConfigFile)
    requires host.parse("2.4.0") == Some(Version(2, 4, 0)) && IsRun(Parsed(Object(m)), false, host, report, after)
    requires Older(VersionOf(m, host), Version(2, 4, 0)) && host.backs && host.writes
    ensures report == Report(true, true, false) && after.Parsed? && after.json.Object?
    ensures var m' := after.json.members; "version" in m' && m'["version"] == Text(">=2.4.0") && "vinput_version" !in m'
  {
    hide Pass, Logs, VersionOf;
    NeededExactly(m, false, host, report, after);
    PassKeepsVersions(m, VersionOf(m, host));
    VersionsDiffer();
  }

  /** Whatever is migrated: each key of each object the table leads to has its new value. */
  lemma MigratedValues(m: map<string, Json>, host: Host, report: Report, after: ConfigFile, path: seq<string>, a: Address, o: map<string, Json>, k: string)
    requires IsRun(Parsed(Object(m)), false, host, report, after) && report.applied
    requires InTable(path) && Addressed(path, a) && Get(Object(m), a) == Some(Object(o))
    ensures after.Parsed? && var now := Get(after.json, a);
            now.Some? && now.value.Object? && Lookup(now.value.members, k) == ValueAfter(path, o, k, VersionOf(m, host))
  {
    hide Pass, Logs, VersionOf, Get, ValueAfter, InTable, Addressed, Restamped;
    PassKeepsVersions(m, VersionOf(m, host));
    PassValues(Object(m), VersionOf(m, host), path, a, o, k);
    PathsHaveNoVersion(path, a);
    RestampKeeps(Pass(Object(m), RULES, VersionOf(m, host)).members, a);
  }

  /** And every node that no due rule addresses is as it was. */
  lemma MigratedFrame(m: map<string, Json>, host: Host, report: Report, after: ConfigFile, a: Address)
    requires IsRun(Parsed(Object(m)), false, host, report, after) && a != [] && !VersionField(a[0])
    requires forall i :: 0 <= i < |RULES| && Due(RULES[i], VersionOf(m, host)) ==> !Touched(RULES[i].path, RULES[i], a)
    ensures after.Parsed? && Get(after.json, a) == Get(Object(m), a)
  {
    hide Pass, Logs, VersionOf, Get, Restamped;
    PassKeepsVersions(m, VersionOf(m, host));
    PassFrame(Object(m), RULES, VersionOf(m, host), a);
    RestampKeeps(Pass(Object(m), RULES, VersionOf(m, host)).members, a);
  }
}
