/** The vocabulary exporter and validator of src/common/asr/bpe_vocab_exporter.cpp. */
module BpeVocab {
  import opened Wrappers
  import opened Bits
  import opened Protobuf

  const MAX_MODEL_BYTES: nat := 67108864
  const MAX_VOCAB_BYTES: nat := 268435456
  const MAX_PIECES: nat := 1000000
  const MAX_PIECE_BYTES: nat := 1048576

  const TAB: Byte := 9
  const LF: Byte := 10
  const CR: Byte := 13

  /** A piece and the 32 bits of its score. */
  datatype Record = Record(piece: seq<Byte>, score: nat)

  /** Floating-point scores: which bit patterns are finite, how they print, how text parses. */
  datatype Scores = Scores(finite: nat -> bool, print_: nat -> seq<Byte>, parse: seq<Byte> -> Option<nat>)

  predicate Without(s: seq<Byte>, b: Byte) {
    forall i :: 0 <= i < |s| ==> s[i] != b
  }

  predicate Clean(s: seq<Byte>) {
    Without(s, TAB) && Without(s, CR) && Without(s, LF)
  }

  /** Parsing undoes printing, and a printed score stays on its line. */
  ghost predicate Invertible(f: Scores) {
    forall x: nat :: f.finite(x) ==> f.parse(f.print_(x)) == Some(x) && f.print_(x) != [] && Clean(f.print_(x))
  }

  // ---------------------------------------------------------------------------------------------
  // Reading a model

  function FieldOf(key: nat): nat {
    key / 8 % 4294967296
  }

  /** ParseSentencePiece: the last piece text and the last score win. */
  function ParsePiece(s: seq<Byte>, record: Record, found: bool): Option<Record>
    decreases |s|
  {
    if s == [] then (if found then Some(record) else None)
    else
      var key := ReadVarint(s);
      if key.None? then None
      else
        var rest, field, wire := key.value.rest, FieldOf(key.value.value), key.value.value % 8;
        Consumes(s, wire); Consumes(rest, wire);
        if field == 1 && wire == 2 then
          var value := LengthDelimited(rest);
          if value.None? then None else ParsePiece(value.value.rest, record.(piece := value.value.value), true)
        else if field == 2 && wire == 5 then
          var score := Fixed32(rest);
          if score.None? then None else ParsePiece(score.value.rest, record.(score := score.value.value), found)
        else
          var after := SkipField(rest, wire);
          if after.None? then None else ParsePiece(after.value, record, found)
  }

  predicate Supported(r: Record, f: Scores) {
    r.piece != [] && |r.piece| <= MAX_PIECE_BYTES && f.finite(r.score) && Clean(r.piece)
  }

  /** The pieces of a model, in order; None for a model that is malformed or has an unsupported piece. */
  function Records(s: seq<Byte>, f: Scores): Option<seq<Record>>
    decreases |s|
  {
    if s == [] then Some([])
    else
      var key := ReadVarint(s);
      if key.None? then None
      else
        var rest, field, wire := key.value.rest, FieldOf(key.value.value), key.value.value % 8;
        Consumes(s, wire); Consumes(rest, wire);
        if field == 1 && wire == 2 then
          var message := LengthDelimited(rest);
          if message.None? then None
          else
            var record := ParsePiece(message.value.value, Record([], 0), false);
            if record.None? || !Supported(record.value, f) then None
            else Prepended(record.value, Records(message.value.rest, f))
        else
          var after := SkipField(rest, wire);
          if after.None? then None else Records(after.value, f)
  }

  function Prepended(r: Record, rs: Option<seq<Record>>): Option<seq<Record>> {
    if rs.None? then None else Some([r] + rs.value)
  }

  // ---------------------------------------------------------------------------------------------
  // Writing the vocabulary

  function Line(r: Record, f: Scores): seq<Byte> {
    r.piece + [TAB] + f.print_(r.score)
  }

  function Text(rs: seq<Record>, f: Scores): seq<Byte>
    decreases |rs|
  {
    if rs == [] then [] else Text(rs[..|rs| - 1], f) + Line(rs[|rs| - 1], f) + [LF]
  }

  /** The file the exporter writes, if it writes one. */
  function Export(model: seq<Byte>, f: Scores): Option<seq<Byte>> {
    var rs := Records(model, f);
    if |model| > MAX_MODEL_BYTES || rs.None? || rs.value == [] || |rs.value| > MAX_PIECES || |Text(rs.value, f)| > MAX_VOCAB_BYTES
    then None else Some(Text(rs.value, f))
  }

  method ParseSentencePiece(message: seq<Byte>) returns (r: Option<Record>)
    ensures r == ParsePiece(message, Record([], 0), false)
  {
    hide Varint, LengthDelimited, Fixed32, SkipField, ParsePiece;
    var reader := new ByteReader(message);
    var record, found := Record([], 0), false;
    while reader.buffer != []
      invariant ParsePiece(reader.buffer, record, found) == ParsePiece(message, Record([], 0), false)
      invariant fresh(reader)
      decreases |reader.buffer|
    {
      PieceTurn(reader.buffer, record, found);
      var key := reader.ReadVarint();
      if key.None? {
        return None;
      }
      var field, wire := FieldOf(key.value), key.value % 8;
      if field == 1 && wire == 2 {
        var value := reader.ReadLengthDelimited();
        if value.None? {
          return None;
        }
        record := record.(piece := value.value);
        found := true;
      } else if field == 2 && wire == 5 {
        var score := reader.ReadFixed32();
        if score.None? {
          return None;
        }
        record := record.(score := score.value);
      } else {
        var ok := reader.Skip(wire);
        if !ok {
          return None;
        }
      }
    }
    PieceEnd(record, found);
    return if found then Some(record) else None;
  }

  lemma PieceEnd(record: Record, found: bool)
    ensures ParsePiece([], record, found) == if found then Some(record) else None
  {
  }

  /** One turn of the loop. */
  lemma PieceTurn(s: seq<Byte>, record: Record, found: bool)
    requires s != []
    ensures var key := ReadVarint(s);
            if key.None? then ParsePiece(s, record, found) == None
            else
              var rest, field, wire := key.value.rest, FieldOf(key.value.value), key.value.value % 8;
              |rest| < |s| &&
              if field == 1 && wire == 2 then
                var value := LengthDelimited(rest);
                if value.None? then ParsePiece(s, record, found) == None
                else |value.value.rest| < |s| && ParsePiece(s, record, found) == ParsePiece(value.value.rest, record.(piece := value.value.value), true)
              else if field == 2 && wire == 5 then
                var score := Fixed32(rest);
                if score.None? then ParsePiece(s, record, found) == None
                else |score.value.rest| < |s| && ParsePiece(s, record, found) == ParsePiece(score.value.rest, record.(score := score.value.value), found)
              else
                var after := SkipField(rest, wire);
                if after.None? then ParsePiece(s, record, found) == None
                else |after.value| < |s| && ParsePiece(s, record, found) == ParsePiece(after.value, record, found)
  {
    hide ReadVarint, LengthDelimited, Fixed32, SkipField;
    var key := ReadVarint(s);
    if key.Some? {
      Consumes(s, 0);
      Consumes(key.value.rest, key.value.value % 8);
    }
  }

  lemma RecordsTurn(s: seq<Byte>, f: Scores)
    requires s != []
    ensures var key := ReadVarint(s);
            if key.None? then Records(s, f) == None
            else
              var rest, field, wire := key.value.rest, FieldOf(key.value.value), key.value.value % 8;
              |rest| < |s| &&
              if field == 1 && wire == 2 then
                var message := LengthDelimited(rest);
                if message.None? then Records(s, f) == None
                else
                  |message.value.rest| < |s| &&
                  var record := ParsePiece(message.value.value, Record([], 0), false);
                  if record.None? || !Supported(record.value, f) then Records(s, f) == None
                  else Records(s, f) == Prepended(record.value, Records(message.value.rest, f))
              else
                var after := SkipField(rest, wire);
                if after.None? then Records(s, f) == None else |after.value| < |s| && Records(s, f) == Records(after.value, f)
  {
    hide ReadVarint, LengthDelimited, SkipField, ParsePiece, Supported;
    var key := ReadVarint(s);
    if key.Some? {
      Consumes(s, 0);
      Consumes(key.value.rest, key.value.value % 8);
    }
  }

  /** What was collected so far, and what is still to be read. */
  function Joined(done: seq<Record>, more: Option<seq<Record>>): Option<seq<Record>> {
    if more.None? then None else Some(done + more.value)
  }

  lemma JoinedStep(done: seq<Record>, r: Record, more: Option<seq<Record>>)
    ensures Joined(done, Prepended(r, more)) == Joined(done + [r], more)
  {
    if more.Some? {
      assert done + ([r] + more.value) == (done + [r]) + more.value;
    }
  }

  lemma {:induction false} TextGrows(done: seq<Record>, more: seq<Record>, f: Scores)
    ensures |Text(done + more, f)| >= |Text(done, f)|
    decreases |more|
  {
    if more == [] {
      assert done + more == done;
    } else {
      TextGrows(done, more[..|more| - 1], f);
      assert (done + more)[..|done + more| - 1] == done + more[..|more| - 1];
    }
  }

  lemma OverLimit(model: seq<Byte>, f: Scores, done: seq<Record>, more: Option<seq<Record>>)
    requires Records(model, f) == Joined(done, more) && (|done| > MAX_PIECES || |Text(done, f)| > MAX_VOCAB_BYTES)
    ensures Export(model, f) == None
  {
    hide Records, Text;
    if more.Some? {
      TextGrows(done, more.value, f);
    }
  }

  method ExportSentencePieceVocabulary(model: seq<Byte>, f: Scores) returns (r: Option<seq<Byte>>)
    ensures r == Export(model, f)
  {
    hide Varint, LengthDelimited, SkipField, ParsePiece, Records, Text, Supported, Prepended;
    if |model| > MAX_MODEL_BYTES {
      return None;
    }
    var out: seq<Byte> := [];
    var reader := new ByteReader(model);
    var count := 0;
    ghost var done: seq<Record> := [];
    StartJoined(model, f);
    while reader.buffer != []
      invariant fresh(reader)
      invariant Records(model, f) == Joined(done, Records(reader.buffer, f))
      invariant out == Text(done, f) && count == |done| <= MAX_PIECES && |out| <= MAX_VOCAB_BYTES
      decreases |reader.buffer|
    {
      RecordsTurn(reader.buffer, f);
      var key := reader.ReadVarint();
      if key.None? {
        return None;
      }
      var field, wire := FieldOf(key.value), key.value % 8;
      if field == 1 && wire == 2 {
        var message := reader.ReadLengthDelimited();
        if message.None? {
          return None;
        }
        var record := ParseSentencePiece(message.value);
        if record.None? || !Supported(record.value, f) {
          return None;
        }
        JoinedStep(done, record.value, Records(reader.buffer, f));
        TextSnoc(done, record.value, f);
        out := out + Line(record.value, f) + [LF];
        count := count + 1;
        done := done + [record.value];
        if count > MAX_PIECES || |out| > MAX_VOCAB_BYTES {
          OverLimit(model, f, done, Records(reader.buffer, f));
          return None;
        }
      } else {
        var ok := reader.Skip(wire);
        if !ok {
          return None;
        }
      }
    }
    EndJoined(done, f);
    if count == 0 {
      return None;
    }
    return Some(out);
  }

  lemma StartJoined(model: seq<Byte>, f: Scores)
    ensures Records(model, f) == Joined([], Records(model, f)) && Text([], f) == []
  {
    hide Records;
    if Records(model, f).Some? {
      assert [] + Records(model, f).value == Records(model, f).value;
    }
  }

  lemma EndJoined(done: seq<Record>, f: Scores)
    ensures Joined(done, Records([], f)) == Some(done)
  {
    assert done + [] == done;
  }

  lemma TextSnoc(done: seq<Record>, r: Record, f: Scores)
    ensures Text(done + [r], f) == Text(done, f) + Line(r, f) + [LF]
  {
    assert (done + [r])[..|done|] == done;
  }

  // ---------------------------------------------------------------------------------------------
  // The validator

  /** The place of the first b, or the length. */
  function Find(s: seq<Byte>, b: Byte): (k: nat)
    ensures k <= |s| && Without(s[..k], b) && (k < |s| ==> s[k] == b)
  {
    if s == [] || s[0] == b then 0
    else
      var k := Find(s[1..], b);
      assert s[..k + 1] == [s[0]] + s[1..][..k];
      k + 1
  }

  /** The lines std::getline gives. */
  function Lines(s: seq<Byte>): seq<seq<Byte>>
    decreases |s|
  {
    if s == [] then []
    else
      var k := Find(s, LF);
      if k == |s| then [s] else [s[..k]] + Lines(s[k + 1..])
  }

  function ChopCr(line: seq<Byte>): seq<Byte> {
    if line != [] && line[|line| - 1] == CR then line[..|line| - 1] else line
  }

  /** The piece and the score of a line; None for a line the validator rejects. */
  function SplitLine(line: seq<Byte>, f: Scores): Option<Record> {
    var line := ChopCr(line);
    var tab := Find(line, TAB);
    if tab == |line| || tab == 0 || tab + 1 >= |line| || tab > MAX_PIECE_BYTES then None
    else
      var score := f.parse(line[tab + 1..]);
      if score.None? || !f.finite(score.value) then None else Some(Record(line[..tab], score.value))
  }

  predicate LinesOk(lines: seq<seq<Byte>>, f: Scores) {
    forall i :: 0 <= i < |lines| ==> SplitLine(lines[i], f).Some?
  }

  predicate Accepted(text: seq<Byte>, f: Scores) {
    0 < |text| <= 256 * 1024 * 1024 && |Lines(text)| <= 1000000 && LinesOk(Lines(text), f)
  }

  method ValidateBpeVocabulary(text: seq<Byte>, f: Scores) returns (ok: bool)
    ensures ok == Accepted(text, f)
  {
    hide Find, SplitLine;
    if |text| == 0 || |text| > MAX_VOCAB_BYTES {
      return false;
    }
    var input, count := text, 0;
    while input != []
      invariant count <= MAX_PIECES && count + |Lines(input)| == |Lines(text)|
      invariant Lines(input) == Lines(text)[count..]
      invariant forall i :: 0 <= i < count ==> SplitLine(Lines(text)[i], f).Some?
      decreases |input|
    {
      var end := Find(input, LF);
      var line := input[..end];
      assert line == Lines(input)[0] == Lines(text)[count];
      input := if end == |input| then [] else input[end + 1..];
      var split := SplitLine(line, f);
      if split.None? {
        return false;
      }
      count := count + 1;
      if count > MAX_PIECES {
        return false;
      }
    }
    return true;
  }

  // ---------------------------------------------------------------------------------------------
  // What is exported is accepted, and splits back

  lemma {:induction false} FindAt(s: seq<Byte>, b: Byte, k: nat)
    requires k < |s| && s[k] == b && Without(s[..k], b)
    ensures Find(s, b) == k
    decreases |s|
  {
    if k > 0 {
      assert s[..k][0] == s[0] && s[1..][..k - 1] == s[..k][1..];
      FindAt(s[1..], b, k - 1);
    }
  }

  lemma LineSplits(r: Record, f: Scores)
    requires Supported(r, f) && Invertible(f)
    ensures SplitLine(Line(r, f), f) == Some(r) && Without(Line(r, f), LF) && Line(r, f) != []
  {
    hide Find;
    var line, score := Line(r, f), f.print_(r.score);
    assert line[|line| - 1] == score[|score| - 1];
    assert ChopCr(line) == line;
    assert line[..|r.piece|] == r.piece && line[|r.piece| + 1..] == score;
    FindAt(line, TAB, |r.piece|);
  }

  lemma {:induction false} LinesSnoc(s: seq<Byte>, line: seq<Byte>)
    requires Without(line, LF) && (s == [] || s[|s| - 1] == LF)
    ensures Lines(s + line + [LF]) == Lines(s) + [line]
    decreases |s|
  {
    hide Find;
    var all := s + line + [LF];
    if s == [] {
      assert all[..|line|] == line && all[|line| + 1..] == [];
      FindAt(all, LF, |line|);
    } else {
      var k := Find(s, LF);
      assert k < |s| by { FindLast(s); }
      assert all[..k] == s[..k] && all[k + 1..] == s[k + 1..] + line + [LF];
      FindAt(all, LF, k);
      LinesSnoc(s[k + 1..], line);
    }
  }

  lemma FindLast(s: seq<Byte>)
    requires s != [] && s[|s| - 1] == LF
    ensures Find(s, LF) < |s|
  {
    hide Find;
    var k := Find(s, LF);
    assert s[..|s|] == s;
  }

  lemma {:induction false} TextSplits(rs: seq<Record>, f: Scores)
    requires Invertible(f) && forall i :: 0 <= i < |rs| ==> Supported(rs[i], f)
    ensures |Lines(Text(rs, f))| == |rs| && (rs != [] ==> Text(rs, f) != [] && Text(rs, f)[|Text(rs, f)| - 1] == LF)
    ensures forall i :: 0 <= i < |rs| ==> SplitLine(Lines(Text(rs, f))[i], f) == Some(rs[i])
    decreases |rs|
  {
    hide Lines, SplitLine, Invertible, Supported, Line;
    if rs == [] {
      LinesOfNothing();
    } else {
      var n := |rs| - 1;
      var front := rs[..n];
      TextSplits(front, f);
      LineSplits(rs[n], f);
      assert n == 0 ==> Text(front, f) == [];
      LinesSnoc(Text(front, f), Line(rs[n], f));
    }
  }

  lemma LinesOfNothing()
    ensures Lines([]) == []
  {
  }

  lemma {:induction false} RecordsSupported(s: seq<Byte>, f: Scores)
    requires Records(s, f).Some?
    ensures forall i :: 0 <= i < |Records(s, f).value| ==> Supported(Records(s, f).value[i], f)
    decreases |s|
  {
    if s != [] {
      RecordsTurn(s, f);
      hide Records, ReadVarint, LengthDelimited, SkipField, ParsePiece, Supported;
      var key := ReadVarint(s).value;
      var wire := key.value % 8;
      if FieldOf(key.value) == 1 && wire == 2 {
        RecordsSupported(LengthDelimited(key.rest).value.rest, f);
      } else {
        RecordsSupported(SkipField(key.rest, wire).value, f);
      }
    }
  }

  /** Every vocabulary that is exported is accepted by the validator and splits back into the pieces of the model. */
  lemma ExportedIsAccepted(model: seq<Byte>, f: Scores)
    requires Invertible(f) && Export(model, f).Some?
    ensures var text, rs := Export(model, f).value, Records(model, f);
            && Accepted(text, f) && rs.Some? && |Lines(text)| == |rs.value|
            && forall i :: 0 <= i < |rs.value| ==> SplitLine(Lines(text)[i], f) == Some(rs.value[i])
  {
    hide Records, Text, Lines, SplitLine, Invertible, Supported;
    RecordsSupported(model, f);
    TextSplits(Records(model, f).value, f);
  }

  // ---------------------------------------------------------------------------------------------
  // What is read from a message, field by field

  function FieldNumber(fd: Field): nat {
    Digits128(fd.key) / 8 % 4294967296
  }

  /** A field that holds the text of a piece, or at the top a piece. */
  function TextOf(fd: Field): Option<seq<Byte>> {
    if FieldNumber(fd) == 1 && fd.value.BytesValue? then Some(fd.value.bytes) else None
  }

  function LowestFirst(b: seq<Byte>): nat {
    if b == [] then 0 else b[0] as nat + 256 * LowestFirst(b[1..])
  }

  /** A field that holds a score: four bytes, the lowest first. */
  function ScoreOf(fd: Field): Option<nat> {
    if FieldNumber(fd) == 2 && fd.value.Fixed32Value? && |fd.value.bytes| == 4 then
      Some(LowestFirst(fd.value.bytes))
    else None
  }

  function LastText(fields: seq<Field>): Option<seq<Byte>> {
    if fields == [] then None
    else
      var last := TextOf(fields[|fields| - 1]);
      if last.Some? then last else LastText(fields[..|fields| - 1])
  }

  function LastScore(fields: seq<Field>): Option<nat> {
    if fields == [] then None
    else
      var last := ScoreOf(fields[|fields| - 1]);
      if last.Some? then last else LastScore(fields[..|fields| - 1])
  }

  /** The record a list of fields stands for, on top of what is already known. */
  function Read(fields: seq<Field>, record: Record, found: bool): Option<Record> {
    var text, score := LastText(fields), LastScore(fields);
    if text.None? && !found then None
    else Some(Record(if text.Some? then text.value else record.piece, if score.Some? then score.value else record.score))
  }

  lemma {:induction false} LastOfRest(fields: seq<Field>)
    requires fields != []
    ensures LastText(fields) == if LastText(fields[1..]).Some? then LastText(fields[1..]) else TextOf(fields[0])
    ensures LastScore(fields) == if LastScore(fields[1..]).Some? then LastScore(fields[1..]) else ScoreOf(fields[0])
    decreases |fields|
  {
    hide TextOf, ScoreOf;
    var n := |fields| - 1;
    if n > 0 {
      LastOfRest(fields[..n]);
      assert fields[..n][1..] == fields[1..][..n - 1] && fields[1..][n - 1] == fields[n];
    }
  }

  lemma ReadStep(fields: seq<Field>, record: Record, found: bool)
    requires fields != []
    ensures var text, score := TextOf(fields[0]), ScoreOf(fields[0]);
            Read(fields, record, found) ==
            Read(fields[1..], Record(if text.Some? then text.value else record.piece, if score.Some? then score.value else record.score), found || text.Some?)
  {
    hide TextOf, ScoreOf, LastText, LastScore;
    LastOfRest(fields);
  }

  lemma ScoreReads(bytes: seq<Byte>, rest: seq<Byte>)
    requires |bytes| == 4
    ensures Fixed32(bytes + rest) == Some(Number(LowestFirst(bytes), rest))
  {
    hide Word;
    WordAdds(bytes[0], bytes[1], bytes[2], bytes[3]);
    assert bytes[1..][1..][1..][1..] == [] && LowestFirst(bytes[1..][1..][1..]) == bytes[3];
    assert LowestFirst(bytes[1..][1..]) == bytes[2] as nat + 256 * (bytes[3] as nat);
    assert (bytes + rest)[4..] == rest;
  }

  /** A piece record reads as its last text and its last score, whatever other fields are before, between and behind. */
  lemma {:induction false} PieceReadsBack(fields: seq<Field>, record: Record, found: bool)
    requires ValidFields(fields)
    ensures ParsePiece(Message(fields), record, found) == Read(fields, record, found)
    decreases |fields|
  {
    hide ReadVarint, LengthDelimited, Fixed32, SkipField, ParsePiece, VarintForm, Digits128, Read;
    if fields == [] {
      PieceEnd(record, found);
      ReadNothing(record, found);
    } else {
      var fd, more := fields[0], fields[1..];
      var value, rest := ValueBytes(fd.value), Message(more);
      FieldReads(fields);
      PieceTurn(Message(fields), record, found);
      ReadStep(fields, record, found);
      var text, score := TextOf(fd), ScoreOf(fd);
      var next := Record(if text.Some? then text.value else record.piece, if score.Some? then score.value else record.score);
      if text.Some? {
        SlicesValue(fd.value.length, fd.value.bytes, rest);
      } else if score.Some? {
        ScoreReads(fd.value.bytes, rest);
      } else {
        SkipsValue(fd.value, rest);
      }
      PieceReadsBack(more, next, found || text.Some?);
    }
  }

  lemma ReadNothing(record: Record, found: bool)
    ensures Read([], record, found) == if found then Some(record) else None
  {
  }

  lemma FieldReads(fields: seq<Field>)
    requires fields != [] && ValidField(fields[0])
    ensures Message(fields) != []
    ensures ReadVarint(Message(fields)) == Some(Number(Digits128(fields[0].key), ValueBytes(fields[0].value) + Message(fields[1..])))
  {
    hide ReadVarint, Digits128;
    ReadsEveryForm(fields[0].key, ValueBytes(fields[0].value) + Message(fields[1..]));
  }

  /** Only messages of valid fields are read as a piece. */
  lemma {:induction false} PieceIsMessage(s: seq<Byte>, record: Record, found: bool) returns (fields: seq<Field>)
    requires ParsePiece(s, record, found).Some?
    ensures ValidFields(fields) && s == Message(fields)
    decreases |s|
  {
    hide ReadVarint, LengthDelimited, Fixed32, SkipField, ParsePiece, VarintForm, Digits128;
    if s == [] {
      fields := [];
    } else {
      PieceTurn(s, record, found);
      var n := ReadsOnlyVarints(s);
      var rest, field, wire := s[n..], FieldOf(Digits128(s[..n])), Digits128(s[..n]) % 8;
      var v: Value;
      if field == 1 && wire == 2 {
        v := SlicedIsValue(rest);
        fields := PieceIsMessage(LengthDelimited(rest).value.rest, record.(piece := LengthDelimited(rest).value.value), true);
      } else if field == 2 && wire == 5 {
        v := ScoredIsValue(rest);
        fields := PieceIsMessage(Fixed32(rest).value.rest, record.(score := Fixed32(rest).value.value), found);
      } else {
        v := SkippedIsValue(rest, wire);
        fields := PieceIsMessage(SkipField(rest, wire).value, record, found);
      }
      fields := Grown(s, n, v, fields);
    }
  }

  lemma ScoredIsValue(s: seq<Byte>) returns (v: Value)
    requires Fixed32(s).Some?
    ensures v.Fixed32Value? && ValidValue(v) && s == ValueBytes(v) + Fixed32(s).value.rest
  {
    v := Fixed32Value(s[..4]);
  }

  lemma Grown(s: seq<Byte>, n: nat, v: Value, more: seq<Field>) returns (fields: seq<Field>)
    requires n <= |s| && s[n..] == ValueBytes(v) + Message(more) && ValidFields(more) && ValidField(Field(s[..n], v))
    ensures ValidFields(fields) && s == Message(fields)
  {
    hide ValidField, ValueBytes;
    fields := [Field(s[..n], v)] + more;
    assert fields[1..] == more && s == s[..n] + s[n..];
  }

  /** The pieces of a model, as bytes. */
  function Pieces(fields: seq<Field>): seq<seq<Byte>> {
    if fields == [] then []
    else
      var text := TextOf(fields[0]);
      (if text.Some? then [text.value] else []) + Pieces(fields[1..])
  }

  /** The bytes of a piece that the exporter takes. */
  predicate PieceOk(bytes: seq<Byte>, f: Scores) {
    var record := ParsePiece(bytes, Record([], 0), false);
    record.Some? && Supported(record.value, f)
  }

  /**
    A model is read exactly when all its pieces are, in order, whatever other fields are before, between and behind them.
   */
  lemma {:induction false} ModelReadsBack(fields: seq<Field>, f: Scores)
    requires ValidFields(fields)
    ensures var ps, rs := Pieces(fields), Records(Message(fields), f);
            && (rs.Some? <==> forall i :: 0 <= i < |ps| ==> PieceOk(ps[i], f))
            && (rs.Some? ==> |rs.value| == |ps| && forall i :: 0 <= i < |ps| ==> ParsePiece(ps[i], Record([], 0), false) == Some(rs.value[i]))
    decreases |fields|
  {
    hide ReadVarint, LengthDelimited, SkipField, ParsePiece, VarintForm, Digits128, Records, PieceOk;
    if fields == [] {
      EndJoined([], f);
    } else {
      var fd, more := fields[0], fields[1..];
      var rest := Message(more);
      FieldReads(fields);
      RecordsTurn(Message(fields), f);
      ModelReadsBack(more, f);
      var text := TextOf(fd);
      if text.Some? {
        SlicesValue(fd.value.length, fd.value.bytes, rest);
        assert Pieces(fields) == [text.value] + Pieces(more);
        FirstPiece(text.value, Pieces(more), f, Records(Message(fields), f), Records(rest, f));
      } else {
        SkipsValue(fd.value, rest);
        assert Pieces(fields) == Pieces(more);
      }
    }
  }

  lemma FirstPiece(p: seq<Byte>, more: seq<seq<Byte>>, f: Scores, all: Option<seq<Record>>, rest: Option<seq<Record>>)
    requires var record := ParsePiece(p, Record([], 0), false);
             if record.None? || !Supported(record.value, f) then all == None else all == Prepended(record.value, rest)
    requires rest.Some? <==> forall i :: 0 <= i < |more| ==> PieceOk(more[i], f)
    requires rest.Some? ==> |rest.value| == |more| && forall i :: 0 <= i < |more| ==> ParsePiece(more[i], Record([], 0), false) == Some(rest.value[i])
    ensures var ps := [p] + more;
            && (all.Some? <==> forall i :: 0 <= i < |ps| ==> PieceOk(ps[i], f))
            && (all.Some? ==> |all.value| == |ps| && forall i :: 0 <= i < |ps| ==> ParsePiece(ps[i], Record([], 0), false) == Some(all.value[i]))
  {
    var ps := [p] + more;
    if all.Some? {
      hide ParsePiece, Supported;
      forall i | 0 <= i < |ps| ensures PieceOk(ps[i], f) && ParsePiece(ps[i], Record([], 0), false) == Some(all.value[i]) {
        if i > 0 {
          assert ps[i] == more[i - 1] && all.value[i] == rest.value[i - 1];
        }
      }
    } else if rest.None? {
      hide PieceOk;
      var i :| 0 <= i < |more| && !PieceOk(more[i], f);
      assert ps[i + 1] == more[i];
    } else {
      assert !PieceOk(ps[0], f);
    }
  }

  /** Only messages of valid fields are read as a model. */
  lemma {:induction false} ModelIsMessage(s: seq<Byte>, f: Scores) returns (fields: seq<Field>)
    requires Records(s, f).Some?
    ensures ValidFields(fields) && s == Message(fields)
    decreases |s|
  {
    hide ReadVarint, LengthDelimited, SkipField, ParsePiece, VarintForm, Digits128, Records, Supported;
    if s == [] {
      fields := [];
    } else {
      RecordsTurn(s, f);
      var n := ReadsOnlyVarints(s);
      var rest, wire := s[n..], Digits128(s[..n]) % 8;
      var v: Value;
      if FieldOf(Digits128(s[..n])) == 1 && wire == 2 {
        v := SlicedIsValue(rest);
        fields := ModelIsMessage(LengthDelimited(rest).value.rest, f);
      } else {
        v := SkippedIsValue(rest, wire);
        fields := ModelIsMessage(SkipField(rest, wire).value, f);
      }
      fields := Grown(s, n, v, fields);
    }
  }

  /**
    Exactly which models are exported: messages within 64 MiB with at least one and at most a million pieces, all of them
    supported, and a text within 256 MiB, which then is written.
   */
  lemma ExportsExactly(fields: seq<Field>, f: Scores, rs: seq<Record>)
    requires ValidFields(fields) && |rs| == |Pieces(fields)|
    requires forall i :: 0 <= i < |rs| ==> ParsePiece(Pieces(fields)[i], Record([], 0), false) == Some(rs[i])
    ensures Export(Message(fields), f).Some? <==>
            && |Message(fields)| <= 64 * 1024 * 1024 && 1 <= |rs| <= 1000000 && |Text(rs, f)| <= 256 * 1024 * 1024
            && forall i :: 0 <= i < |rs| ==> 1 <= |rs[i].piece| <= 1024 * 1024 && f.finite(rs[i].score) && Clean(rs[i].piece)
    ensures Export(Message(fields), f).Some? ==> Export(Message(fields), f).value == Text(rs, f)
  {
    hide ParsePiece, Records, Text, Clean;
    ModelReadsBack(fields, f);
    var ps := Pieces(fields);
    if Records(Message(fields), f).Some? {
      assert Records(Message(fields), f).value == rs;
      forall i | 0 <= i < |rs| ensures Supported(rs[i], f) {
        assert PieceOk(ps[i], f);
      }
    } else {
      var i :| 0 <= i < |ps| && !PieceOk(ps[i], f);
      assert !Supported(rs[i], f);
    }
  }

  // ---------------------------------------------------------------------------------------------
  // The lines and columns of the validator

  function Unlines(lines: seq<seq<Byte>>): seq<Byte> {
    if lines == [] then [] else lines[0] + [LF] + Unlines(lines[1..])
  }

  /** The lines hold no line feed, and put together they are the text, up to a line feed missing at its end. */
  lemma {:induction false} LinesExactly(s: seq<Byte>)
    ensures forall i :: 0 <= i < |Lines(s)| ==> Without(Lines(s)[i], LF)
    ensures Unlines(Lines(s)) == Ended(s)
    decreases |s|
  {
    hide Find, Unlines, Without, Lines, Ended;
    if s == [] {
      NoLines();
    } else {
      var k := LinesTurn(s);
      if k == |s| {
        LastLine(s);
      } else {
        LinesExactly(s[k + 1..]);
        UnlinesCons(s[..k], Lines(s[k + 1..]));
        EndedBehind(s, k);
      }
    }
  }

  /** With a line feed at its end. */
  function Ended(s: seq<Byte>): seq<Byte> {
    if s == [] || s[|s| - 1] == LF then s else s + [LF]
  }

  lemma LinesTurn(s: seq<Byte>) returns (k: nat)
    requires s != []
    ensures k <= |s| && Without(s[..k], LF) && (k < |s| ==> s[k] == LF)
    ensures Lines(s) == if k == |s| then [s] else [s[..k]] + Lines(s[k + 1..])
    ensures k == |s| ==> Without(s, LF)
  {
    hide Find;
    k := Find(s, LF);
    assert s[..|s|] == s;
  }

  lemma LastLine(s: seq<Byte>)
    requires s != [] && Without(s, LF)
    ensures Unlines([s]) == Ended(s)
  {
    NoLines();
    UnlinesCons(s, []);
    hide Unlines, Lines;
    assert [s] + [] == [s] && s + [LF] + [] == s + [LF];
  }

  lemma EndedBehind(s: seq<Byte>, k: nat)
    requires k < |s| && s[k] == LF
    ensures Ended(s) == s[..k] + [LF] + Ended(s[k + 1..])
  {
    var rest := s[k + 1..];
    assert s == s[..k] + [LF] + rest;
    if rest != [] {
      assert rest[|rest| - 1] == s[|s| - 1];
    }
  }

  lemma NoLines()
    ensures Unlines([]) == [] && Lines([]) == [] && Ended([]) == []
  {
  }

  lemma UnlinesCons(line: seq<Byte>, more: seq<seq<Byte>>)
    ensures Unlines([line] + more) == line + [LF] + Unlines(more)
  {
    assert ([line] + more)[1..] == more;
  }

  /** A line splits at its first tab, and a carriage return at its end makes no difference. */
  lemma SplitsExactly(piece: seq<Byte>, text: seq<Byte>, f: Scores)
    requires Without(piece, TAB) && (text == [] || text[|text| - 1] != CR)
    ensures var line := piece + [TAB] + text;
            && SplitLine(line + [CR], f) == SplitLine(line, f)
            && SplitLine(line, f) ==
               if 1 <= |piece| <= 1024 * 1024 && text != [] && f.parse(text).Some? && f.finite(f.parse(text).value)
               then Some(Record(piece, f.parse(text).value)) else None
  {
    hide Find;
    var line := piece + [TAB] + text;
    assert line[|line| - 1] == if text == [] then TAB else text[|text| - 1];
    assert (line + [CR])[..|line|] == line;
    assert ChopCr(line) == line && ChopCr(line + [CR]) == line;
    assert line[..|piece|] == piece && line[|piece| + 1..] == text;
    FindAt(line, TAB, |piece|);
  }

  /** A line without a tab is rejected. */
  lemma NoTabRejected(line: seq<Byte>, f: Scores)
    requires Without(line, TAB)
    ensures SplitLine(line, f) == None
  {
    hide Find;
    var k := Find(ChopCr(line), TAB);
  }
}
