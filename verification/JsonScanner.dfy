/** The check of src/common/json/json_access.h that a text holds exactly one JSON value. */
module JsonScanner {
  import opened Wrappers

  // ---------------------------------------------------------------------------------------------
  // The scanner

  /** std::isspace in the C locale. */
  predicate IsSpace(c: char) {
    c == ' ' || c == '\t' || c == '\n' || c == '\r' || c == '\U{0b}' || c == '\U{0c}'
  }

  predicate Blank(s: string) {
    forall i :: 0 <= i < |s| ==> IsSpace(s[i])
  }

  /** Where the scanner stands: outside strings, inside one, or right behind a backslash in one. */
  datatype Mode = Outside | Inside | Escaped

  /** What follows the bracket that brings the depth to zero, if there is one. */
  function AfterNested(s: string, depth: int, mode: Mode): Option<string> {
    if s == [] then None
    else
      match mode
      case Escaped => AfterNested(s[1..], depth, Inside)
      case Inside =>
        AfterNested(s[1..], depth, if s[0] == '\\' then Escaped else if s[0] == '"' then Outside else Inside)
      case Outside =>
        if s[0] == '"' then AfterNested(s[1..], depth, Inside)
        else if s[0] == '{' || s[0] == '[' then AfterNested(s[1..], depth + 1, Outside)
        else if s[0] == '}' || s[0] == ']' then
          if depth == 1 then Some(s[1..]) else AfterNested(s[1..], depth - 1, Outside)
        else AfterNested(s[1..], depth, Outside)
  }

  /** What follows the closing quote; a string left open runs to the end of the text, unless a lone backslash ends it. */
  function AfterString(s: string, escaped: bool): Option<string> {
    if s == [] then (if escaped then None else Some([]))
    else if escaped then AfterString(s[1..], false)
    else if s[0] == '\\' then AfterString(s[1..], true)
    else if s[0] == '"' then Some(s[1..])
    else AfterString(s[1..], false)
  }

  function SkipSpace(s: string): (r: string)
    ensures |r| <= |s| && r == s[|s| - |r|..] && Blank(s[..|s| - |r|]) && (r != [] ==> !IsSpace(r[0]))
  {
    if s != [] && IsSpace(s[0]) then
      var r := SkipSpace(s[1..]);
      assert s[..|s| - |r|] == [s[0]] + s[1..][..|s| - 1 - |r|];
      r
    else s
  }

  function SkipToken(s: string): (r: string)
    ensures |r| <= |s| && r == s[|s| - |r|..] && (r != [] ==> IsSpace(r[0]))
    ensures forall i :: 0 <= i < |s| - |r| ==> !IsSpace(s[i])
  {
    if s != [] && !IsSpace(s[0]) then
      var r := SkipToken(s[1..]);
      assert forall i :: 0 < i < |s| - |r| ==> s[i] == s[1..][i - 1];
      r
    else s
  }

  /** The text holds one value, as far as the scanner looks. */
  predicate Single(text: string) {
    var s := SkipSpace(text);
    s != [] &&
    if s[0] == '{' || s[0] == '[' then
      var rest := AfterNested(s, 0, Outside); rest.Some? && Blank(rest.value)
    else if s[0] == '"' then
      var rest := AfterString(s[1..], false); rest.Some? && Blank(rest.value)
    else Blank(SkipToken(s))
  }

  lemma BlankSuffix(s: string)
    ensures Blank(s) <==> SkipSpace(s) == []
  {
    var r := SkipSpace(s);
    if r == [] {
      assert s[..|s|] == s;
    } else {
      assert s[|s| - |r|] == r[0];
    }
  }

  method IsSingleJsonValue(text: string) returns (single: bool)
    ensures single == Single(text)
  {
    hide AfterNested, AfterString, SkipToken, SkipSpace, Blank, IsSpace;
    var pos := PastSpace(text, 0);
    assert text[0..] == text;
    if pos >= |text| {
      return false;
    }
    var first := text[pos];
    if first == '{' || first == '[' {
      var closed: bool;
      pos, closed := PastNested(text, pos);
      if !closed {
        return false;
      }
    } else if first == '"' {
      pos := PastQuote(text, pos + 1);
      if pos > |text| {
        return false;
      }
    } else {
      pos := PastToken(text, pos);
    }
    BlankSuffix(text[pos..]);
    pos := PastSpace(text, pos);
    single := pos == |text|;
  }

  method PastSpace(text: string, start: nat) returns (pos: nat)
    requires start <= |text|
    ensures start <= pos <= |text| && text[pos..] == SkipSpace(text[start..])
  {
    pos := start;
    while pos < |text| && IsSpace(text[pos])
      invariant start <= pos <= |text| && SkipSpace(text[pos..]) == SkipSpace(text[start..])
    {
      pos := pos + 1;
    }
  }

  method PastToken(text: string, start: nat) returns (pos: nat)
    requires start <= |text|
    ensures start <= pos <= |text| && text[pos..] == SkipToken(text[start..])
  {
    pos := start;
    while pos < |text| && !IsSpace(text[pos])
      invariant start <= pos <= |text| && SkipToken(text[pos..]) == SkipToken(text[start..])
    {
      pos := pos + 1;
    }
  }

  /** The position behind the bracket that closes the first one; the depth never turns negative, so that test of the original is left out. */
  method PastNested(text: string, start: nat) returns (pos: nat, closed: bool)
    requires start < |text| && (text[start] == '{' || text[start] == '[')
    ensures closed ==> pos <= |text|
    ensures AfterNested(text[start..], 0, Outside) == if closed then Some(text[pos..]) else None
  {
    pos, closed := start, false;
    var depth := 0;
    var inString := false;
    while pos < |text|
      invariant start <= pos <= |text| + 1
      invariant depth >= 0 && (depth == 0 ==> pos == start && !inString)
      invariant AfterNested(text[start..], 0, Outside) ==
                if pos <= |text| then AfterNested(text[pos..], depth, if inString then Inside else Outside) else None
    {
      var c := text[pos];
      if inString {
        if c == '\\' {
          pos := pos + 1;
        } else if c == '"' {
          inString := false;
        }
      } else if c == '"' {
        inString := true;
      } else if c == '{' || c == '[' {
        depth := depth + 1;
      } else if c == '}' || c == ']' {
        depth := depth - 1;
        if depth == 0 {
          pos := pos + 1;
          return pos, true;
        }
      }
      pos := pos + 1;
    }
  }

  /** The position behind the closing quote; one past the end of the text behind a lone backslash. */
  method PastQuote(text: string, start: nat) returns (pos: nat)
    requires start <= |text|
    ensures pos <= |text| + 1
    ensures AfterString(text[start..], false) == if pos <= |text| then Some(text[pos..]) else None
  {
    pos := start;
    while pos < |text|
      invariant pos <= |text| + 1
      invariant AfterString(text[start..], false) == if pos <= |text| then AfterString(text[pos..], false) else None
    {
      if text[pos] == '\\' {
        pos := pos + 1;
      } else if text[pos] == '"' {
        pos := pos + 1;
        return;
      }
      pos := pos + 1;
    }
  }

  // ---------------------------------------------------------------------------------------------
  // JSON texts (sections 2 and 7 of RFC 8259), with every possible layout

  datatype Item = Plain(c: char) | Escape(c: char)

  datatype Doc =
    | Scalar(token: string)
    | Text(items: seq<Item>)
    | Array(blank: string, elements: Elements)
    | Object(blank: string, members: Members)

  datatype Elements = NoElement | Element(before: string, value: Doc, after: string, more: Elements)

  datatype Members =
    | NoMember
    | Member(before: string, key: seq<Item>, afterKey: string, beforeValue: string, value: Doc, after: string, others: Members)

  predicate ItemOk(i: Item) {
    i.Plain? ==> i.c != '"' && i.c != '\\'
  }

  predicate ItemsOk(items: seq<Item>) {
    forall i :: 0 <= i < |items| ==> ItemOk(items[i])
  }

  predicate Structural(c: char) {
    c == '"' || c == '{' || c == '}' || c == '[' || c == ']'
  }

  /** A number, true, false or null has neither quotes nor brackets nor space. */
  predicate ScalarChar(c: char) {
    !Structural(c) && !IsSpace(c)
  }

  predicate ScalarOk(s: string) {
    s != [] && forall i :: 0 <= i < |s| ==> ScalarChar(s[i])
  }

  predicate DocOk(d: Doc) {
    match d
    case Scalar(token) => ScalarOk(token)
    case Text(items) => ItemsOk(items)
    case Array(blank, elements) => Blank(blank) && ElementsOk(elements)
    case Object(blank, members) => Blank(blank) && MembersOk(members)
  }

  predicate ElementsOk(e: Elements) {
    e.NoElement? || (Blank(e.before) && DocOk(e.value) && Blank(e.after) && ElementsOk(e.more))
  }

  predicate MembersOk(m: Members) {
    m.NoMember? ||
    (Blank(m.before) && ItemsOk(m.key) && Blank(m.afterKey) && Blank(m.beforeValue) && DocOk(m.value) && Blank(m.after) && MembersOk(m.others))
  }

  function PrintItems(items: seq<Item>): string {
    if items == [] then ""
    else (if items[0].Plain? then [items[0].c] else ['\\', items[0].c]) + PrintItems(items[1..])
  }

  function Quoted(items: seq<Item>): string {
    "\"" + (PrintItems(items) + "\"")
  }

  function Print(d: Doc): string {
    match d
    case Scalar(token) => token
    case Text(items) => Quoted(items)
    case Array(blank, elements) => "[" + ((blank + PrintElements(elements)) + "]")
    case Object(blank, members) => "{" + ((blank + PrintMembers(members)) + "}")
  }

  function PrintElements(e: Elements): string {
    match e
    case NoElement => ""
    case Element(before, value, after, more) =>
      (before + (Print(value) + after)) + (if more.NoElement? then "" else "," + PrintElements(more))
  }

  function PrintMembers(m: Members): string {
    match m
    case NoMember => ""
    case Member(before, key, afterKey, beforeValue, value, after, others) =>
      ((before + (Quoted(key) + afterKey)) + (":" + beforeValue)) + ((Print(value) + after) + (if others.NoMember? then "" else "," + PrintMembers(others)))
  }

  // ---------------------------------------------------------------------------------------------
  // Scanning over a printed value changes nothing

  /** The scanner, at a depth of at least one, comes out of p where it went in. */
  ghost predicate Passes(p: string) {
    forall rest: string, depth: nat :: depth >= 1 ==> AfterNested(p + rest, depth, Outside) == AfterNested(rest, depth, Outside)
  }

  lemma PassesBoth(p: string, q: string)
    requires Passes(p) && Passes(q)
    ensures Passes(p + q)
  {
    forall rest: string, depth: nat | depth >= 1
      ensures AfterNested((p + q) + rest, depth, Outside) == AfterNested(rest, depth, Outside)
    {
      assert (p + q) + rest == p + (q + rest);
    }
  }

  lemma {:induction false} PlainPasses(p: string)
    requires forall i :: 0 <= i < |p| ==> !Structural(p[i])
    ensures Passes(p)
  {
    if p == [] {
      forall rest: string, depth: nat | depth >= 1 ensures AfterNested(p + rest, depth, Outside) == AfterNested(rest, depth, Outside) {
        assert p + rest == rest;
      }
    } else {
      PlainPasses(p[1..]);
      forall rest: string, depth: nat | depth >= 1 ensures AfterNested(p + rest, depth, Outside) == AfterNested(rest, depth, Outside) {
        assert (p + rest)[1..] == p[1..] + rest;
      }
    }
  }

  lemma {:induction false} ItemsPass(items: seq<Item>, rest: string, depth: nat)
    requires ItemsOk(items)
    ensures AfterNested(PrintItems(items) + ("\"" + rest), depth, Inside) == AfterNested(rest, depth, Outside)
    decreases |items|
  {
    var all := PrintItems(items) + ("\"" + rest);
    if items == [] {
      assert all == "\"" + rest && all[1..] == rest;
    } else {
      ItemsPass(items[1..], rest, depth);
      var tail := PrintItems(items[1..]) + ("\"" + rest);
      if items[0].Plain? {
        assert all == [items[0].c] + tail && all[1..] == tail;
      } else {
        assert all == ['\\', items[0].c] + tail && all[1..] == [items[0].c] + tail && all[1..][1..] == tail;
      }
    }
  }

  lemma QuotedPasses(items: seq<Item>)
    requires ItemsOk(items)
    ensures Passes(Quoted(items))
  {
    forall rest: string, depth: nat | depth >= 1
      ensures AfterNested(Quoted(items) + rest, depth, Outside) == AfterNested(rest, depth, Outside)
    {
      ItemsPass(items, rest, depth);
      assert (Quoted(items) + rest)[1..] == PrintItems(items) + ("\"" + rest);
    }
  }

  lemma BracketsPass(open: string, inner: string, close: string)
    requires (open == "[" || open == "{") && (close == "]" || close == "}") && Passes(inner)
    ensures Passes(open + (inner + close))
  {
    forall rest: string, depth: nat | depth >= 1
      ensures AfterNested((open + (inner + close)) + rest, depth, Outside) == AfterNested(rest, depth, Outside)
    {
      var all := (open + (inner + close)) + rest;
      assert all[1..] == inner + (close + rest);
      assert (close + rest)[1..] == rest;
    }
  }

  lemma {:induction false} PrintPasses(d: Doc)
    requires DocOk(d)
    ensures Passes(Print(d))
  {
    hide Passes;
    match d
    case Scalar(token) => PlainPasses(token);
    case Text(items) => QuotedPasses(items);
    case Array(blank, elements) =>
      PlainPasses(blank);
      ElementsPass(elements);
      PassesBoth(blank, PrintElements(elements));
      BracketsPass("[", blank + PrintElements(elements), "]");
    case Object(blank, members) =>
      PlainPasses(blank);
      MembersPass(members);
      PassesBoth(blank, PrintMembers(members));
      BracketsPass("{", blank + PrintMembers(members), "}");
  }

  lemma {:induction false} ElementsPass(e: Elements)
    requires ElementsOk(e)
    ensures Passes(PrintElements(e))
  {
    hide Passes;
    PlainPasses("");
    PlainPasses(",");
    if e.Element? {
      PlainPasses(e.before);
      PlainPasses(e.after);
      PrintPasses(e.value);
      PassesBoth(Print(e.value), e.after);
      PassesBoth(e.before, Print(e.value) + e.after);
      ElementsPass(e.more);
      PassesBoth(",", PrintElements(e.more));
      PassesBoth(e.before + (Print(e.value) + e.after), if e.more.NoElement? then "" else "," + PrintElements(e.more));
    }
  }

  lemma {:induction false} MembersPass(m: Members)
    requires MembersOk(m)
    ensures Passes(PrintMembers(m))
  {
    hide Passes;
    PlainPasses("");
    PlainPasses(",");
    PlainPasses(":");
    if m.Member? {
      PlainPasses(m.before);
      PlainPasses(m.afterKey);
      PlainPasses(m.beforeValue);
      PlainPasses(m.after);
      QuotedPasses(m.key);
      PrintPasses(m.value);
      MembersPass(m.others);
      PassesBoth(Quoted(m.key), m.afterKey);
      PassesBoth(m.before, Quoted(m.key) + m.afterKey);
      PassesBoth(":", m.beforeValue);
      PassesBoth(m.before + (Quoted(m.key) + m.afterKey), ":" + m.beforeValue);
      PassesBoth(Print(m.value), m.after);
      PassesBoth(",", PrintMembers(m.others));
      var end := if m.others.NoMember? then "" else "," + PrintMembers(m.others);
      PassesBoth(Print(m.value) + m.after, end);
      PassesBoth((m.before + (Quoted(m.key) + m.afterKey)) + (":" + m.beforeValue), (Print(m.value) + m.after) + end);
    }
  }

  // ---------------------------------------------------------------------------------------------
  // The main result

  lemma {:induction false} SkipsLead(lead: string, s: string)
    requires Blank(lead) && s != [] && !IsSpace(s[0])
    ensures SkipSpace(lead + s) == s
    decreases |lead|
  {
    if lead == [] {
      assert lead + s == s;
    } else {
      SkipsLead(lead[1..], s);
      assert (lead + s)[1..] == lead[1..] + s;
    }
  }

  lemma {:induction false} StringEnds(items: seq<Item>, rest: string)
    requires ItemsOk(items)
    ensures AfterString(PrintItems(items) + ("\"" + rest), false) == Some(rest)
    decreases |items|
  {
    var all := PrintItems(items) + ("\"" + rest);
    if items == [] {
      assert all == "\"" + rest && all[1..] == rest;
    } else {
      StringEnds(items[1..], rest);
      var tail := PrintItems(items[1..]) + ("\"" + rest);
      if items[0].Plain? {
        assert all == [items[0].c] + tail && all[1..] == tail;
      } else {
        assert all == ['\\', items[0].c] + tail && all[1..] == [items[0].c] + tail && all[1..][1..] == tail;
      }
    }
  }

  lemma BracketsEnd(open: string, blank: string, inner: string, close: string, tail: string)
    requires (open == "[" || open == "{") && (close == "]" || close == "}") && Blank(blank) && Passes(inner)
    ensures AfterNested((open + ((blank + inner) + close)) + tail, 0, Outside) == Some(tail)
  {
    PlainPasses(blank);
    PassesBoth(blank, inner);
    var all := (open + ((blank + inner) + close)) + tail;
    assert all[1..] == (blank + inner) + (close + tail);
    assert (close + tail)[1..] == tail;
  }

  lemma DocEnds(d: Doc, tail: string)
    requires DocOk(d) && !d.Scalar?
    ensures var s := Print(d) + tail;
            && s != [] && s[0] == (if d.Text? then '"' else if d.Array? then '[' else '{')
            && (if d.Text? then AfterString(s[1..], false) else AfterNested(s, 0, Outside)) == Some(tail)
  {
    hide Passes, AfterNested, AfterString;
    match d
    case Text(items) =>
      StringEnds(items, tail);
      assert (Print(d) + tail)[1..] == PrintItems(items) + ("\"" + tail);
    case Array(blank, elements) =>
      ElementsPass(elements);
      BracketsEnd("[", blank, PrintElements(elements), "]", tail);
    case Object(blank, members) =>
      MembersPass(members);
      BracketsEnd("{", blank, PrintMembers(members), "}", tail);
  }

  /**
    For every object, array or string, in every layout and behind any leading space: the text is a single
    value exactly when what follows the value is blank.
   */
  lemma SingleExactlyOnBlankTail(lead: string, d: Doc, tail: string)
    requires Blank(lead) && DocOk(d) && !d.Scalar?
    ensures Single(lead + (Print(d) + tail)) <==> Blank(tail)
  {
    hide AfterNested, AfterString, Print, DocOk, Blank, SkipSpace;
    DocEnds(d, tail);
    SkipsLead(lead, Print(d) + tail);
  }

  lemma {:induction false} TokenEnds(token: string, tail: string)
    requires ScalarOk(token)
    ensures SkipToken(token + tail) == SkipToken(tail)
    decreases |token|
  {
    assert (token + tail)[1..] == token[1..] + tail;
    if |token| > 1 {
      TokenEnds(token[1..], tail);
    } else {
      assert token[1..] + tail == tail;
    }
  }

  /** Behind a number, true, false or null, what is not space is taken for part of it. */
  lemma SingleAfterScalar(lead: string, token: string, tail: string)
    requires Blank(lead) && ScalarOk(token)
    ensures Single(lead + (token + tail)) <==> Blank(SkipToken(tail))
  {
    assert ScalarChar(token[0]) && (token + tail)[0] == token[0];
    hide AfterNested, AfterString, Blank, SkipSpace, SkipToken, ScalarOk;
    SkipsLead(lead, token + tail);
    TokenEnds(token, tail);
  }

  lemma {:induction false} StringRunsOut(items: seq<Item>)
    requires ItemsOk(items)
    ensures AfterString(PrintItems(items), false) == Some([]) && AfterString(PrintItems(items) + "\\", false) == None
    decreases |items|
  {
    var p, tail := PrintItems(items), PrintItems(if items == [] then [] else items[1..]);
    if items == [] {
      assert (p + "\\")[1..] == [];
    } else {
      StringRunsOut(items[1..]);
      if items[0].Plain? {
        assert p[1..] == tail && (p + "\\")[1..] == tail + "\\";
      } else {
        assert p[1..] == [items[0].c] + tail && p[1..][1..] == tail;
        assert (p + "\\")[1..] == [items[0].c] + (tail + "\\") && (p + "\\")[1..][1..] == tail + "\\";
      }
    }
  }

  /** A string that is never closed passes for a value, unless it breaks off right behind a backslash. */
  lemma OpenStringPasses(lead: string, items: seq<Item>)
    requires Blank(lead) && ItemsOk(items)
    ensures Single(lead + ("\"" + PrintItems(items))) && !Single(lead + ("\"" + (PrintItems(items) + "\\")))
  {
    hide AfterNested, AfterString, PrintItems, SkipSpace;
    StringRunsOut(items);
    var p := PrintItems(items);
    SkipsLead(lead, "\"" + p);
    SkipsLead(lead, "\"" + (p + "\\"));
    assert ("\"" + p)[1..] == p && ("\"" + (p + "\\"))[1..] == p + "\\";
  }

  // ---------------------------------------------------------------------------------------------
  // Everything that can stand behind an opening quote

  /** The string is closed, and the tail follows it. */
  ghost predicate ClosedBefore(s: string, tail: string) {
    exists items :: ItemsOk(items) && s == PrintItems(items) + ("\"" + tail)
  }

  /** The string is never closed. */
  ghost predicate NeverClosed(s: string) {
    exists items :: ItemsOk(items) && s == PrintItems(items)
  }

  /** The string breaks off right behind a backslash. */
  ghost predicate BreaksOff(s: string) {
    exists items :: ItemsOk(items) && s == PrintItems(items) + "\\"
  }

  lemma PrintOne(item: Item, items: seq<Item>)
    ensures PrintItems([item] + items) == (if item.Plain? then [item.c] else ['\\', item.c]) + PrintItems(items)
  {
    assert ([item] + items)[1..] == items;
  }

  /** One more item in front leaves the shape as it is. */
  lemma ShapeGrows(item: Item, s: string)
    requires ItemOk(item)
    ensures var s' := (if item.Plain? then [item.c] else ['\\', item.c]) + s;
            && (forall tail :: ClosedBefore(s, tail) ==> ClosedBefore(s', tail))
            && (NeverClosed(s) ==> NeverClosed(s')) && (BreaksOff(s) ==> BreaksOff(s'))
  {
    hide PrintItems;
    var front := if item.Plain? then [item.c] else ['\\', item.c];
    var s' := front + s;
    forall tail | ClosedBefore(s, tail) ensures ClosedBefore(s', tail) {
      var items :| ItemsOk(items) && s == PrintItems(items) + ("\"" + tail);
      PrintOne(item, items);
      assert s' == PrintItems([item] + items) + ("\"" + tail);
    }
    if NeverClosed(s) {
      var items :| ItemsOk(items) && s == PrintItems(items);
      PrintOne(item, items);
      assert s' == PrintItems([item] + items);
    }
    if BreaksOff(s) {
      var items :| ItemsOk(items) && s == PrintItems(items) + "\\";
      PrintOne(item, items);
      assert s' == PrintItems([item] + items) + "\\";
    }
  }

  lemma ShortShapes()
    ensures NeverClosed("") && BreaksOff("\\") && forall tail :: ClosedBefore("\"" + tail, tail)
  {
    assert PrintItems([]) == "";
    assert "" == PrintItems([]);
    assert "\\" == PrintItems([]) + "\\";
    forall tail ensures ClosedBefore("\"" + tail, tail) {
      assert "\"" + tail == PrintItems([]) + ("\"" + tail);
    }
  }

  /** Every text behind a quote has one of the three shapes. */
  lemma {:induction false} Shapes(s: string)
    ensures (exists tail :: ClosedBefore(s, tail)) || NeverClosed(s) || BreaksOff(s)
    decreases |s|
  {
    hide ClosedBefore, NeverClosed, BreaksOff;
    ShortShapes();
    if s != [] {
      if s[0] == '"' {
        assert s == "\"" + s[1..];
      } else if s[0] != '\\' {
        Shapes(s[1..]);
        ShapeGrows(Plain(s[0]), s[1..]);
        assert s == [s[0]] + s[1..];
      } else if |s| == 1 {
        assert s == "\\";
      } else {
        Shapes(s[2..]);
        ShapeGrows(Escape(s[1]), s[2..]);
        assert s == ['\\', s[1]] + s[2..];
      }
    }
  }

  /** And the scanner tells the three apart. */
  lemma ShapesTellApart(s: string)
    ensures forall tail :: ClosedBefore(s, tail) ==> AfterString(s, false) == Some(tail)
    ensures NeverClosed(s) ==> AfterString(s, false) == Some([])
    ensures BreaksOff(s) ==> AfterString(s, false) == None
  {
    hide AfterString, PrintItems;
    forall tail | ClosedBefore(s, tail) ensures AfterString(s, false) == Some(tail) {
      var items :| ItemsOk(items) && s == PrintItems(items) + ("\"" + tail);
      StringEnds(items, tail);
    }
    if NeverClosed(s) {
      var items :| ItemsOk(items) && s == PrintItems(items);
      StringRunsOut(items);
    }
    if BreaksOff(s) {
      var items :| ItemsOk(items) && s == PrintItems(items) + "\\";
      StringRunsOut(items);
    }
  }

  /**
    The exact condition for every text that begins with a quote: it passes for a single value if and only if
    the string is closed with nothing but space behind it, or is never closed and does not break off behind a backslash.
   */
  lemma SingleAfterQuote(lead: string, s: string)
    requires Blank(lead)
    ensures Single(lead + ("\"" + s)) <==> (exists tail :: ClosedBefore(s, tail) && Blank(tail)) || NeverClosed(s)
  {
    hide AfterNested, AfterString, SkipSpace, SkipToken, ClosedBefore, NeverClosed, BreaksOff;
    SkipsLead(lead, "\"" + s);
    assert ("\"" + s)[1..] == s;
    Shapes(s);
    ShapesTellApart(s);
  }


  // ---------------------------------------------------------------------------------------------
  // Everything that can stand behind an opening bracket

  /** What the scanner sees between two brackets: it tells brackets from the rest, but not their kinds from each other. */
  datatype Piece = Mark(c: char) | Quote(items: seq<Item>) | Nest(open: char, inner: Pieces, close: char)

  datatype Pieces = NoPiece | Pieces(head: Piece, rest: Pieces)

  predicate Opens(c: char) {
    c == '{' || c == '['
  }

  predicate Closes(c: char) {
    c == '}' || c == ']'
  }

  predicate PieceOk(p: Piece) {
    match p
    case Mark(c) => !Structural(c)
    case Quote(items) => ItemsOk(items)
    case Nest(open, inner, close) => Opens(open) && Closes(close) && PiecesOk(inner)
  }

  predicate PiecesOk(ps: Pieces) {
    ps.NoPiece? || (PieceOk(ps.head) && PiecesOk(ps.rest))
  }

  function PrintPiece(p: Piece): string {
    match p
    case Mark(c) => [c]
    case Quote(items) => Quoted(items)
    case Nest(open, inner, close) => [open] + (PrintPieces(inner) + [close])
  }

  function PrintPieces(ps: Pieces): string {
    if ps.NoPiece? then "" else PrintPiece(ps.head) + PrintPieces(ps.rest)
  }

  lemma {:induction false} PiecePasses(p: Piece)
    requires PieceOk(p)
    ensures Passes(PrintPiece(p))
  {
    hide Passes;
    match p
    case Mark(c) => PlainPasses([c]);
    case Quote(items) => QuotedPasses(items);
    case Nest(open, inner, close) =>
      PiecesPass(inner);
      BracketsPass([open], PrintPieces(inner), [close]);
  }

  lemma {:induction false} PiecesPass(ps: Pieces)
    requires PiecesOk(ps)
    ensures Passes(PrintPieces(ps))
  {
    hide Passes;
    PlainPasses("");
    if ps.Pieces? {
      PiecePasses(ps.head);
      PiecesPass(ps.rest);
      PassesBoth(PrintPiece(ps.head), PrintPieces(ps.rest));
    }
  }

  lemma {:induction false} InsideRunsOut(items: seq<Item>, depth: nat)
    requires ItemsOk(items)
    ensures AfterNested(PrintItems(items), depth, Inside) == None && AfterNested(PrintItems(items) + "\\", depth, Inside) == None
    decreases |items|
  {
    var p, tail := PrintItems(items), PrintItems(if items == [] then [] else items[1..]);
    if items == [] {
      assert (p + "\\")[1..] == [];
    } else {
      InsideRunsOut(items[1..], depth);
      if items[0].Plain? {
        assert p[1..] == tail && (p + "\\")[1..] == tail + "\\";
      } else {
        assert p[1..] == [items[0].c] + tail && p[1..][1..] == tail;
        assert (p + "\\")[1..] == [items[0].c] + (tail + "\\") && (p + "\\")[1..][1..] == tail + "\\";
      }
    }
  }

  /** A string inside brackets that the scanner gets through is closed. */
  lemma InsideIsClosed(s: string, depth: nat) returns (items: seq<Item>, tail: string)
    requires AfterNested(s, depth, Inside).Some?
    ensures ItemsOk(items) && s == PrintItems(items) + ("\"" + tail)
    ensures AfterNested(s, depth, Inside) == AfterNested(tail, depth, Outside)
  {
    hide AfterNested, PrintItems;
    Shapes(s);
    NotOpen(s, depth);
    tail :| ClosedBefore(s, tail);
    items :| ItemsOk(items) && s == PrintItems(items) + ("\"" + tail);
    ItemsPass(items, tail, depth);
  }

  lemma NotOpen(s: string, depth: nat)
    requires AfterNested(s, depth, Inside).Some?
    ensures !NeverClosed(s) && !BreaksOff(s)
  {
    hide AfterNested, PrintItems;
    if NeverClosed(s) {
      var items :| ItemsOk(items) && s == PrintItems(items);
      InsideRunsOut(items, depth);
    }
    if BreaksOff(s) {
      var items :| ItemsOk(items) && s == PrintItems(items) + "\\";
      InsideRunsOut(items, depth);
    }
  }

  lemma Prepends(p: Piece, more: Pieces, close: char, tail: string)
    ensures PrintPiece(p) + (PrintPieces(more) + ([close] + tail)) == PrintPieces(Pieces(p, more)) + ([close] + tail)
  {
    hide PrintPiece;
  }

  lemma QuotePiece(items: seq<Item>, after: string)
    ensures "\"" + (PrintItems(items) + ("\"" + after)) == PrintPiece(Quote(items)) + after
  {
    hide PrintItems;
  }

  lemma NestPiece(open: char, inner: Pieces, close: char, after: string)
    ensures [open] + (PrintPieces(inner) + ([close] + after)) == PrintPiece(Nest(open, inner, close)) + after
  {
  }

  lemma OutsideStep(c: char, rest: string, depth: nat)
    requires depth >= 1
    ensures AfterNested([c] + rest, depth, Outside) ==
            if c == '"' then AfterNested(rest, depth, Inside)
            else if Opens(c) then AfterNested(rest, depth + 1, Outside)
            else if Closes(c) then (if depth == 1 then Some(rest) else AfterNested(rest, depth - 1, Outside))
            else AfterNested(rest, depth, Outside)
  {
    assert ([c] + rest)[1..] == rest;
  }

  lemma NothingEnds(s: string, depth: nat)
    requires AfterNested(s, depth, Outside).Some?
    ensures s != []
  {
  }

  /** The bracket that closes the innermost nest, and what stands before and behind it. */
  lemma {:induction false} NestEnds(s: string, depth: nat) returns (inner: Pieces, close: char, tail: string)
    requires depth >= 1 && AfterNested(s, depth, Outside).Some?
    ensures PiecesOk(inner) && Closes(close) && s == PrintPieces(inner) + ([close] + tail)
    ensures AfterNested(s, depth, Outside) == if depth == 1 then Some(tail) else AfterNested(tail, depth - 1, Outside)
    decreases |s|, 1
  {
    hide AfterNested, PrintPieces, PrintPiece, PrintItems;
    NothingEnds(s, depth);
    var c, rest := s[0], s[1..];
    assert s == [c] + rest;
    OutsideStep(c, rest, depth);
    if Closes(c) {
      inner, close, tail := NoPiece, c, rest;
      PrintsNothing();
    } else {
      var piece, after := FirstPiece(c, rest, depth);
      var more: Pieces;
      more, close, tail := NestEnds(after, depth);
      inner := Pieces(piece, more);
      Prepends(piece, more, close, tail);
    }
  }

  lemma PrintsNothing()
    ensures forall s: string :: PrintPieces(NoPiece) + s == s
  {
    assert forall s: string :: "" + s == s;
  }

  /** The first piece of a text that does not begin with a closing bracket. */
  lemma {:induction false} FirstPiece(c: char, rest: string, depth: nat) returns (piece: Piece, after: string)
    requires depth >= 1 && !Closes(c) && AfterNested([c] + rest, depth, Outside).Some?
    ensures PieceOk(piece) && [c] + rest == PrintPiece(piece) + after && |after| <= |rest|
    ensures AfterNested([c] + rest, depth, Outside) == AfterNested(after, depth, Outside)
    decreases |rest| + 1, 0
  {
    hide AfterNested, PrintPieces, PrintItems;
    OutsideStep(c, rest, depth);
    if c == '"' {
      var items, tail := InsideIsClosed(rest, depth);
      QuotePiece(items, tail);
      piece, after := Quote(items), tail;
    } else if Opens(c) {
      var inner, end, tail := NestEnds(rest, depth + 1);
      NestPiece(c, inner, end, tail);
      piece, after := Nest(c, inner, end), tail;
    } else {
      piece, after := Mark(c), rest;
    }
  }

  /** The brackets close, whatever their kinds, and the tail follows them. */
  ghost predicate NestedBefore(s: string, tail: string) {
    exists inner, close :: PiecesOk(inner) && Closes(close) && s == PrintPieces(inner) + ([close] + tail)
  }

  lemma NestedMeans(open: char, s: string)
    requires Opens(open)
    ensures forall tail :: NestedBefore(s, tail) ==> AfterNested([open] + s, 0, Outside) == Some(tail)
    ensures AfterNested([open] + s, 0, Outside).Some? ==> NestedBefore(s, AfterNested([open] + s, 0, Outside).value)
  {
    assert ([open] + s)[1..] == s;
    assert AfterNested([open] + s, 0, Outside) == AfterNested(s, 1, Outside);
    hide AfterNested, PrintPieces;
    forall tail | NestedBefore(s, tail) ensures AfterNested([open] + s, 0, Outside) == Some(tail) {
      var inner, close :| PiecesOk(inner) && Closes(close) && s == PrintPieces(inner) + ([close] + tail);
      PiecesPass(inner);
      CloseEnds(close, tail);
    }
    if AfterNested(s, 1, Outside).Some? {
      var inner, close, tail := NestEnds(s, 1);
    }
  }

  lemma CloseEnds(close: char, tail: string)
    requires Closes(close)
    ensures AfterNested([close] + tail, 1, Outside) == Some(tail)
  {
    assert ([close] + tail)[1..] == tail;
  }

  /**
    The exact condition for every text that begins with a bracket: a single value if and only if the brackets close,
    of whatever kinds they are, and nothing but space follows.
   */
  lemma SingleAfterBracket(lead: string, open: char, s: string)
    requires Blank(lead) && Opens(open)
    ensures Single(lead + ([open] + s)) <==> exists tail :: NestedBefore(s, tail) && Blank(tail)
  {
    hide AfterNested, AfterString, SkipSpace, SkipToken, NestedBefore;
    SkipsLead(lead, [open] + s);
    NestedMeans(open, s);
  }

  /** And for every text that begins with anything else: whatever is not space is taken for one token. */
  lemma SingleAfterOther(lead: string, c: char, tail: string)
    requires Blank(lead) && !IsSpace(c) && c != '"' && !Opens(c)
    ensures Single(lead + ([c] + tail)) <==> Blank(SkipToken(tail))
  {
    assert ([c] + tail)[1..] == tail;
    assert SkipToken([c] + tail) == SkipToken(tail);
    hide AfterNested, AfterString, SkipSpace, SkipToken;
    SkipsLead(lead, [c] + tail);
  }

  /** A text of nothing but space holds no value; with the lemmas above, every text has its exact condition. */
  lemma BlankHoldsNone(text: string)
    requires Blank(text)
    ensures !Single(text)
  {
    BlankSuffix(text);
  }

  /** Brackets of different kinds close each other, and a closing bracket alone is a token. */
  lemma MismatchPasses()
    ensures Single("[}") && Single("}")
  {
    assert "" + ("[" + "}") == "[}" && "" + (['}'] + "") == "}";
    assert "}" == PrintPieces(NoPiece) + (['}'] + "");
    assert NestedBefore("}", "");
    SingleAfterBracket("", '[', "}");
    SingleAfterOther("", '}', "");
  }
}
