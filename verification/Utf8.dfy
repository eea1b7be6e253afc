/** The UTF-8 codec of 3rdparty/unicodelib/unicodelib_encodings.h and its users in the addon. */
module Utf8 {
  import opened Wrappers

  type Byte = bv8
  type CodePoint = bv32

  /** A code point and the number of bytes it was read from. */
  datatype Read = Read(cp: CodePoint, length: nat)

  // ---------------------------------------------------------------------------------------------
  // One code point

  /** A Unicode scalar value. */
  predicate Scalar(cp: CodePoint) {
    cp < 0xD800 || 0xE000 <= cp < 0x110000
  }

  function Put1(cp: CodePoint): seq<Byte> {
    [(cp & 0x7F) as Byte]
  }

  function Put2(cp: CodePoint): seq<Byte> {
    [(0xC0 | ((cp >> 6) & 0x1F)) as Byte, (0x80 | (cp & 0x3F)) as Byte]
  }

  function Put3(cp: CodePoint): seq<Byte> {
    [(0xE0 | ((cp >> 12) & 0xF)) as Byte, (0x80 | ((cp >> 6) & 0x3F)) as Byte, (0x80 | (cp & 0x3F)) as Byte]
  }

  function Put4(cp: CodePoint): seq<Byte> {
    [(0xF0 | ((cp >> 18) & 0x7)) as Byte, (0x80 | ((cp >> 12) & 0x3F)) as Byte, (0x80 | ((cp >> 6) & 0x3F)) as Byte,
     (0x80 | (cp & 0x3F)) as Byte]
  }

  function EncodeCodepoint(cp: CodePoint): seq<Byte> {
    if cp < 0x80 then Put1(cp)
    else if cp < 0x800 then Put2(cp)
    else if cp < 0xD800 then Put3(cp)
    else if cp < 0xE000 then []
    else if cp < 0x10000 then Put3(cp)
    else if cp < 0x110000 then Put4(cp)
    else []
  }

  predicate Lead1(b: Byte) {
    b & 0x80 == 0
  }

  predicate Lead2(b: Byte) {
    b & 0xE0 == 0xC0
  }

  predicate Lead3(b: Byte) {
    b & 0xF0 == 0xE0
  }

  predicate Lead4(b: Byte) {
    b & 0xF8 == 0xF0
  }

  predicate Tail(b: Byte) {
    b & 0xC0 == 0x80
  }

  function Two(a: Byte, b: Byte): CodePoint {
    (((a & 0x1F) as CodePoint) << 6) | ((b & 0x3F) as CodePoint)
  }

  function Three(a: Byte, b: Byte, c: Byte): CodePoint {
    (((a & 0x0F) as CodePoint) << 12) | (((b & 0x3F) as CodePoint) << 6) | ((c & 0x3F) as CodePoint)
  }

  function Four(a: Byte, b: Byte, c: Byte, d: Byte): CodePoint {
    (((a & 0x07) as CodePoint) << 18) | (((b & 0x3F) as CodePoint) << 12) | (((c & 0x3F) as CodePoint) << 6) | ((d & 0x3F) as CodePoint)
  }

  function DecodeCodepoint(s: seq<Byte>): Option<Read> {
    if s == [] then None
    else if Lead1(s[0]) then Some(Read(s[0] as CodePoint, 1))
    else if Lead2(s[0]) then
      if |s| >= 2 && Tail(s[1]) && Two(s[0], s[1]) >= 0x80 then Some(Read(Two(s[0], s[1]), 2)) else None
    else if Lead3(s[0]) then
      if |s| >= 3 && Tail(s[1]) && Tail(s[2]) then
        var cp := Three(s[0], s[1], s[2]);
        if cp >= 0x800 && (cp < 0xD800 || cp >= 0xE000) then Some(Read(cp, 3)) else None
      else None
    else if Lead4(s[0]) then
      if |s| >= 4 && Tail(s[1]) && Tail(s[2]) && Tail(s[3]) then
        var cp := Four(s[0], s[1], s[2], s[3]);
        if 0x10000 <= cp < 0x110000 then Some(Read(cp, 4)) else None
      else None
    else None
  }

  // ---------------------------------------------------------------------------------------------
  // The grammar of section 4 of RFC 3629

  predicate In(b: Byte, lo: Byte, hi: Byte) {
    lo <= b <= hi
  }

  predicate Char1(a: Byte) {
    In(a, 0x00, 0x7F)
  }

  predicate Char2(a: Byte, b: Byte) {
    In(a, 0xC2, 0xDF) && In(b, 0x80, 0xBF)
  }

  predicate Char3(a: Byte, b: Byte, c: Byte) {
    In(c, 0x80, 0xBF) &&
    ((a == 0xE0 && In(b, 0xA0, 0xBF)) || (In(a, 0xE1, 0xEC) && In(b, 0x80, 0xBF)) || (a == 0xED && In(b, 0x80, 0x9F))
     || (In(a, 0xEE, 0xEF) && In(b, 0x80, 0xBF)))
  }

  predicate Char4(a: Byte, b: Byte, c: Byte, d: Byte) {
    In(c, 0x80, 0xBF) && In(d, 0x80, 0xBF) &&
    ((a == 0xF0 && In(b, 0x90, 0xBF)) || (In(a, 0xF1, 0xF3) && In(b, 0x80, 0xBF)) || (a == 0xF4 && In(b, 0x80, 0x8F)))
  }

  predicate IsChar(s: seq<Byte>) {
    (|s| == 1 && Char1(s[0])) || (|s| == 2 && Char2(s[0], s[1])) || (|s| == 3 && Char3(s[0], s[1], s[2]))
    || (|s| == 4 && Char4(s[0], s[1], s[2], s[3]))
  }

  /** UTF8-octets = *( UTF8-char ) */
  ghost predicate WellFormed(s: seq<Byte>)
    decreases |s|
  {
    s == [] || exists n: nat :: 1 <= n <= 4 && n <= |s| && IsChar(s[..n]) && WellFormed(s[n..])
  }

  // ---------------------------------------------------------------------------------------------
  // Facts about bits

  lemma Leads(a: Byte)
    ensures Lead1(a) <==> In(a, 0x00, 0x7F)
    ensures Lead2(a) <==> In(a, 0xC0, 0xDF)
    ensures Lead3(a) <==> In(a, 0xE0, 0xEF)
    ensures Lead4(a) <==> In(a, 0xF0, 0xF7)
    ensures Tail(a) <==> In(a, 0x80, 0xBF)
  {
  }

  lemma Bits1(a: Byte)
    requires Lead1(a)
    ensures (a as CodePoint) < 0x80 && Put1(a as CodePoint) == [a]
  {
  }

  lemma Range2(a: Byte, b: Byte)
    requires Lead2(a) && Tail(b)
    ensures Two(a, b) < 0x800 && (Two(a, b) >= 0x80 <==> Char2(a, b))
  {
  }

  lemma Bytes2(a: Byte, b: Byte)
    requires Lead2(a) && Tail(b)
    ensures var cp := Two(a, b); (0xC0 | ((cp >> 6) & 0x1F)) as Byte == a && (0x80 | (cp & 0x3F)) as Byte == b
  {
  }

  lemma Bits2(a: Byte, b: Byte)
    requires Lead2(a) && Tail(b)
    ensures Two(a, b) < 0x800 && (Two(a, b) >= 0x80 <==> Char2(a, b)) && Put2(Two(a, b)) == [a, b]
  {
    hide Lead2, Tail, Two, Char2;
    Range2(a, b);
    Bytes2(a, b);
  }

  lemma Range3(a: Byte, b: Byte, c: Byte)
    requires Lead3(a) && Tail(b) && Tail(c)
    ensures var cp := Three(a, b, c); cp < 0x10000 && (cp >= 0x800 && (cp < 0xD800 || cp >= 0xE000) <==> Char3(a, b, c))
  {
  }

  lemma Bytes3(a: Byte, b: Byte, c: Byte)
    requires Lead3(a) && Tail(b) && Tail(c)
    ensures var cp := Three(a, b, c);
            (0xE0 | ((cp >> 12) & 0xF)) as Byte == a && (0x80 | ((cp >> 6) & 0x3F)) as Byte == b && (0x80 | (cp & 0x3F)) as Byte == c
  {
  }

  lemma Bits3(a: Byte, b: Byte, c: Byte)
    requires Lead3(a) && Tail(b) && Tail(c)
    ensures var cp := Three(a, b, c);
            cp < 0x10000 && (cp >= 0x800 && (cp < 0xD800 || cp >= 0xE000) <==> Char3(a, b, c)) && Put3(cp) == [a, b, c]
  {
    hide Lead3, Tail, Three, Char3;
    Range3(a, b, c);
    Bytes3(a, b, c);
  }

  lemma Range4(a: Byte, b: Byte, c: Byte, d: Byte)
    requires Lead4(a) && Tail(b) && Tail(c) && Tail(d)
    ensures 0x10000 <= Four(a, b, c, d) < 0x110000 <==> Char4(a, b, c, d)
  {
  }

  lemma Bytes4(a: Byte, b: Byte, c: Byte, d: Byte)
    requires Lead4(a) && Tail(b) && Tail(c) && Tail(d)
    ensures var cp := Four(a, b, c, d);
            && (0xF0 | ((cp >> 18) & 0x7)) as Byte == a && (0x80 | ((cp >> 12) & 0x3F)) as Byte == b
            && (0x80 | ((cp >> 6) & 0x3F)) as Byte == c && (0x80 | (cp & 0x3F)) as Byte == d
  {
  }

  lemma Bits4(a: Byte, b: Byte, c: Byte, d: Byte)
    requires Lead4(a) && Tail(b) && Tail(c) && Tail(d)
    ensures var cp := Four(a, b, c, d);
            (0x10000 <= cp < 0x110000 <==> Char4(a, b, c, d)) && Put4(cp) == [a, b, c, d]
  {
    hide Lead4, Tail, Four, Char4;
    Range4(a, b, c, d);
    Bytes4(a, b, c, d);
  }

  lemma Puts1(cp: CodePoint)
    requires cp < 0x80
    ensures var s := Put1(cp); Lead1(s[0]) && s[0] as CodePoint == cp
  {
  }

  lemma Puts2(cp: CodePoint)
    requires 0x80 <= cp < 0x800
    ensures var s := Put2(cp); Lead2(s[0]) && Tail(s[1]) && Two(s[0], s[1]) == cp
  {
  }

  lemma Puts3(cp: CodePoint)
    requires 0x800 <= cp < 0x10000
    ensures var s := Put3(cp); Lead3(s[0]) && Tail(s[1]) && Tail(s[2]) && Three(s[0], s[1], s[2]) == cp
  {
  }

  lemma Puts4(cp: CodePoint)
    requires 0x10000 <= cp < 0x110000
    ensures var s := Put4(cp); Lead4(s[0]) && Tail(s[1]) && Tail(s[2]) && Tail(s[3]) && Four(s[0], s[1], s[2], s[3]) == cp
  {
  }

  // ---------------------------------------------------------------------------------------------
  // One code point, both ways

  /** What the decoder accepts is a well-formed sequence, and is how the code point is encoded. */
  lemma DecodedIsChar(s: seq<Byte>)
    requires DecodeCodepoint(s).Some?
    ensures var r := DecodeCodepoint(s).value;
            1 <= r.length <= |s| && IsChar(s[..r.length]) && Scalar(r.cp) && EncodeCodepoint(r.cp) == s[..r.length]
  {
    hide Lead1, Lead2, Lead3, Lead4, Tail, Two, Three, Four, Put1, Put2, Put3, Put4, Char2, Char3, Char4;
    var a := s[0];
    LeadsApart(a);
    if Lead1(a) {
      Bits1(a);
      assert s[..1] == [a];
    } else if Lead2(a) {
      Bits2(a, s[1]);
      assert s[..2] == [a, s[1]];
    } else if Lead3(a) {
      Bits3(a, s[1], s[2]);
      assert s[..3] == [a, s[1], s[2]];
    } else {
      Bits4(a, s[1], s[2], s[3]);
      assert s[..4] == [a, s[1], s[2], s[3]];
    }
  }

  lemma LeadsApart(a: Byte)
    ensures Lead1(a) ==> Char1(a) && !Lead2(a) && !Lead3(a) && !Lead4(a)
    ensures Lead2(a) ==> !Lead3(a) && !Lead4(a)
    ensures Lead3(a) ==> !Lead4(a)
    ensures Char1(a) ==> Lead1(a)
  {
  }

  /** Every well-formed sequence is accepted, whatever follows it. */
  lemma CharIsDecoded(s: seq<Byte>, n: nat)
    requires 1 <= n <= |s| && IsChar(s[..n])
    ensures DecodeCodepoint(s).Some? && DecodeCodepoint(s).value.length == n
  {
    hide Lead1, Lead2, Lead3, Lead4, Tail, Two, Three, Four, Char1, Char2, Char3, Char4;
    var a := s[0];
    LeadsApart(a);
    if n == 2 {
      CharBits2(a, s[1]);
    } else if n == 3 {
      CharBits3(a, s[1], s[2]);
    } else if n == 4 {
      CharBits4(a, s[1], s[2], s[3]);
    }
  }

  lemma CharBits2(a: Byte, b: Byte)
    requires Char2(a, b)
    ensures Lead2(a) && !Lead1(a) && Tail(b) && Two(a, b) >= 0x80
  {
    Leads(a);
    Leads(b);
    Bits2(a, b);
  }

  lemma CharBits3(a: Byte, b: Byte, c: Byte)
    requires Char3(a, b, c)
    ensures Lead3(a) && !Lead1(a) && !Lead2(a) && Tail(b) && Tail(c)
    ensures var cp := Three(a, b, c); cp >= 0x800 && (cp < 0xD800 || cp >= 0xE000)
  {
    Leads(a);
    Leads(b);
    Leads(c);
    Bits3(a, b, c);
  }

  lemma CharBits4(a: Byte, b: Byte, c: Byte, d: Byte)
    requires Char4(a, b, c, d)
    ensures Lead4(a) && !Lead1(a) && !Lead2(a) && !Lead3(a) && Tail(b) && Tail(c) && Tail(d)
    ensures 0x10000 <= Four(a, b, c, d) < 0x110000
  {
    Leads(a);
    Leads(b);
    Leads(c);
    Leads(d);
    Bits4(a, b, c, d);
  }

  /** The decoder accepts exactly the well-formed sequences. */
  lemma AcceptsExactlyChars(s: seq<Byte>)
    ensures DecodeCodepoint(s).Some? <==> exists n: nat :: 1 <= n <= |s| && IsChar(s[..n])
  {
    hide IsChar, DecodeCodepoint;
    if DecodeCodepoint(s).Some? {
      DecodedIsChar(s);
    } else {
      forall n: nat | 1 <= n <= |s| ensures !IsChar(s[..n]) {
        if IsChar(s[..n]) { CharIsDecoded(s, n); }
      }
    }
  }

  /** What is encoded is decoded, whatever follows it. */
  lemma EncodedIsDecoded(cp: CodePoint, rest: seq<Byte>)
    requires Scalar(cp)
    ensures EncodeCodepoint(cp) != [] && DecodeCodepoint(EncodeCodepoint(cp) + rest) == Some(Read(cp, |EncodeCodepoint(cp)|))
  {
    hide Lead1, Lead2, Lead3, Lead4, Tail, Two, Three, Four;
    var s := EncodeCodepoint(cp) + rest;
    LeadsApart(s[0]);
    if cp < 0x80 {
      Puts1(cp);
    } else if cp < 0x800 {
      Puts2(cp);
    } else if cp < 0x10000 {
      Puts3(cp);
    } else {
      Puts4(cp);
    }
  }

  // ---------------------------------------------------------------------------------------------
  // Texts

  /** The number of bytes to go on by: one when they are ill-formed. */
  function Stride(s: seq<Byte>): (n: nat)
    requires s != []
    ensures 1 <= n <= |s|
  {
    var r := DecodeCodepoint(s);
    if r.Some? then DecodedIsChar(s); r.value.length else 1
  }

  function Decode(s: seq<Byte>): seq<CodePoint>
    decreases |s|
  {
    if s == [] then []
    else
      var r := DecodeCodepoint(s);
      (if r.Some? then [r.value.cp] else []) + Decode(s[Stride(s)..])
  }

  function Encode(cps: seq<CodePoint>): seq<Byte> {
    if cps == [] then [] else EncodeCodepoint(cps[0]) + Encode(cps[1..])
  }

  predicate Scalars(cps: seq<CodePoint>) {
    forall i :: 0 <= i < |cps| ==> Scalar(cps[i])
  }

  function Sanitize(s: seq<Byte>): seq<Byte> {
    Encode(Decode(s))
  }

  method DecodeText(s: seq<Byte>) returns (out: seq<CodePoint>)
    ensures out == Decode(s)
  {
    hide DecodeCodepoint, Decode;
    out := [];
    var i := 0;
    assert s[0..] == s;
    EmptyText(s[|s|..]);
    while i < |s|
      invariant 0 <= i <= |s| && out + Decode(s[i..]) == Decode(s)
      decreases |s| - i
    {
      var bytes := 1;
      var r := DecodeCodepoint(s[i..]);
      ghost var before := out;
      DecodeStep(s[i..]);
      if r.Some? {
        out := out + [r.value.cp];
        bytes := r.value.length;
      }
      assert s[i..][bytes..] == s[i + bytes..];
      assert out + Decode(s[i + bytes..]) == before + Decode(s[i..]);
      i := i + bytes;
    }
  }

  lemma EmptyText(s: seq<Byte>)
    requires s == []
    ensures Decode(s) == []
  {
  }

  lemma DecodeStep(s: seq<Byte>)
    requires s != []
    ensures var r := DecodeCodepoint(s);
            && (r.None? ==> Decode(s) == Decode(s[1..]))
            && (r.Some? ==> 1 <= r.value.length <= |s| && Decode(s) == [r.value.cp] + Decode(s[r.value.length..]))
  {
    hide DecodeCodepoint;
    var n := Stride(s);
  }

  method EncodeText(cps: seq<CodePoint>) returns (out: seq<Byte>)
    ensures out == Encode(cps)
  {
    hide EncodeCodepoint;
    out := [];
    assert cps[0..] == cps;
    for i := 0 to |cps|
      invariant out + Encode(cps[i..]) == Encode(cps)
    {
      assert cps[i..][1..] == cps[i + 1..];
      out := out + EncodeCodepoint(cps[i]);
    }
  }

  /** codepoint_count: the number of code points that decoding gives. */
  method CodepointCount(s: seq<Byte>) returns (count: nat)
    ensures count == |Decode(s)|
  {
    hide DecodeCodepoint;
    count := 0;
    var i := 0;
    assert s[0..] == s;
    while i < |s|
      invariant 0 <= i <= |s| && count + |Decode(s[i..])| == |Decode(s)|
      decreases |s| - i
    {
      var r := DecodeCodepoint(s[i..]);
      var bytes := if r.Some? then r.value.length else 0;
      ghost var n := Stride(s[i..]);
      assert s[i..][n..] == s[i + n..];
      assert r.Some? ==> n == bytes;
      if bytes > 0 {
        count := count + 1;
        i := i + bytes;
      } else {
        i := i + 1;
      }
    }
  }

  method SanitizeUtf8(text: seq<Byte>) returns (r: seq<Byte>)
    ensures r == Sanitize(text)
  {
    hide DecodeCodepoint;
    if text == [] {
      return text;
    }
    var decoded := DecodeText(text);
    r := EncodeText(decoded);
  }

  lemma {:induction false} DecodedScalars(s: seq<Byte>)
    ensures Scalars(Decode(s))
    decreases |s|
  {
    hide DecodeCodepoint, EncodeCodepoint, IsChar, Scalar;
    if s != [] {
      DecodedScalars(s[Stride(s)..]);
      if DecodeCodepoint(s).Some? { DecodedIsChar(s); }
    }
  }

  /** Decoding undoes encoding. */
  lemma {:induction false} DecodeEncode(cps: seq<CodePoint>)
    requires Scalars(cps)
    ensures Decode(Encode(cps)) == cps
    decreases |cps|
  {
    hide DecodeCodepoint, EncodeCodepoint, Scalar;
    if cps != [] {
      var first, rest := EncodeCodepoint(cps[0]), Encode(cps[1..]);
      EncodedIsDecoded(cps[0], rest);
      DecodeEncode(cps[1..]);
      assert (first + rest)[|first|..] == rest;
    }
  }

  /** What is encoded is well-formed. */
  lemma {:induction false} EncodedIsWellFormed(cps: seq<CodePoint>)
    requires Scalars(cps)
    ensures WellFormed(Encode(cps))
    decreases |cps|
  {
    hide DecodeCodepoint, EncodeCodepoint, Scalar, IsChar;
    if cps != [] {
      var first, rest := EncodeCodepoint(cps[0]), Encode(cps[1..]);
      EncodedIsDecoded(cps[0], rest);
      DecodedIsChar(first + rest);
      EncodedIsWellFormed(cps[1..]);
      LeadingChar(first + rest, |first|);
      assert (first + rest)[|first|..] == rest;
    }
  }

  lemma LeadingChar(s: seq<Byte>, n: nat)
    requires 1 <= n <= |s| && IsChar(s[..n])
    ensures n <= 4 && (WellFormed(s[n..]) ==> WellFormed(s))
  {
    hide Char1, Char2, Char3, Char4;
  }

  /** The first character of a well-formed text, and the rest. */
  lemma FirstChar(s: seq<Byte>) returns (n: nat)
    requires WellFormed(s) && s != []
    ensures 1 <= n <= |s| && IsChar(s[..n]) && WellFormed(s[n..]) && n == Stride(s) && DecodeCodepoint(s).Some?
  {
    hide IsChar, DecodeCodepoint;
    n :| 1 <= n <= 4 && n <= |s| && IsChar(s[..n]) && WellFormed(s[n..]);
    CharIsDecoded(s, n);
  }

  lemma EncodeNothing()
    ensures Encode([]) == []
  {
  }

  lemma EncodeCons(cp: CodePoint, rest: seq<CodePoint>)
    ensures Encode([cp] + rest) == EncodeCodepoint(cp) + Encode(rest)
  {
    assert ([cp] + rest)[1..] == rest;
  }

  lemma {:induction false} EncodeDecode(s: seq<Byte>)
    requires WellFormed(s)
    ensures Encode(Decode(s)) == s
    decreases |s|
  {
    hide IsChar, DecodeCodepoint, EncodeCodepoint, Decode, Encode;
    if s == [] {
      EmptyText(s);
      EncodeNothing();
    } else {
      var n := FirstChar(s);
      DecodedIsChar(s);
      EncodeDecode(s[n..]);
      DecodeStep(s);
      EncodeCons(DecodeCodepoint(s).value.cp, Decode(s[n..]));
    }
  }

  /** Sanitizing gives well-formed text, changes nothing else, and a second time changes nothing. */
  lemma SanitizeKeepsExactlyWellFormed(s: seq<Byte>)
    ensures Sanitize(s) == s <==> WellFormed(s)
    ensures WellFormed(Sanitize(s)) && Sanitize(Sanitize(s)) == Sanitize(s) && Decode(Sanitize(s)) == Decode(s)
  {
    hide Decode, Encode, WellFormed, Scalars;
    DecodedScalars(s);
    DecodeEncode(Decode(s));
    EncodedIsWellFormed(Decode(s));
    if WellFormed(s) { EncodeDecode(s); }
  }

  // ---------------------------------------------------------------------------------------------
  // The last character

  /**
    PopLastUtf8Char cuts the text at its last byte that is no continuation byte; from well-formed text that
    takes off exactly the last code point.
   */
  method PopLastUtf8Char(text: seq<Byte>) returns (r: seq<Byte>)
    ensures text == [] ==> r == []
    ensures text != [] ==> |r| < |text| && r == text[..|r|] && LastCut(text, |r|)
    ensures WellFormed(text) && text != [] ==> WellFormed(r) && Decode(r) == Decode(text)[..|Decode(text)| - 1]
  {
    if text == [] {
      return text;
    }
    var pos := |text|;
    while pos > 0
      invariant 0 <= pos <= |text|
      invariant forall i :: pos <= i < |text| ==> Tail(text[i])
      decreases pos
    {
      pos := pos - 1;
      if !Tail(text[pos]) {
        break;
      }
    }
    r := text[..pos];
    if WellFormed(text) {
      PopsOneCodepoint(text, pos);
    }
  }

  /** Where a cut is that leaves only continuation bytes behind its first byte, in a well-formed text. */
  predicate LastCut(s: seq<Byte>, k: nat) {
    && k < |s| && (k > 0 ==> !Tail(s[k])) && (forall i :: k < i < |s| ==> Tail(s[i]))
  }

  lemma CharTails(s: seq<Byte>)
    requires IsChar(s)
    ensures |s| > 0 && !Tail(s[0]) && forall i :: 1 <= i < |s| ==> Tail(s[i])
  {
    hide Tail;
    forall i | 0 <= i < |s| ensures Tail(s[i]) <==> In(s[i], 0x80, 0xBF) { Leads(s[i]); }
  }

  /** In well-formed text the cut takes off exactly the last code point. */
  lemma {:induction false} PopsOneCodepoint(s: seq<Byte>, k: nat)
    requires WellFormed(s) && LastCut(s, k)
    ensures WellFormed(s[..k]) && Decode(s) != [] && Decode(s[..k]) == Decode(s)[..|Decode(s)| - 1]
    decreases |s|
  {
    hide IsChar, DecodeCodepoint, Tail, Decode, WellFormed;
    var n := FirstChar(s);
    CharTails(s[..n]);
    DecodeStep(s);
    var rest := s[n..];
    if k < n {
      NoInnerCut(s, n, k);
      OnlyChar(s, n);
      NothingLeft(s[..0]);
    } else {
      RestCut(s, n, k);
      PopsOneCodepoint(rest, k - n);
      var front := s[..k];
      assert front[n..] == rest[..k - n] && front[..n] == s[..n];
      LeadingChar(front, n);
      CharIsDecoded(front, n);
      SameFirst(s, k, n);
      DecodeStep(front);
    }
  }

  lemma NothingLeft(s: seq<Byte>)
    requires s == []
    ensures WellFormed(s) && Decode(s) == []
  {
  }

  lemma RestCut(s: seq<Byte>, n: nat, k: nat)
    requires n <= k && LastCut(s, k)
    ensures LastCut(s[n..], k - n)
  {
    hide Tail;
    assert k > n ==> s[n..][k - n] == s[k];
  }

  lemma NoInnerCut(s: seq<Byte>, n: nat, k: nat)
    requires k < n <= |s| && LastCut(s, k) && forall i :: 1 <= i < n ==> Tail(s[..n][i])
    ensures k == 0
  {
    assert s[..n][k] == s[k];
  }

  lemma StartsWithLead(s: seq<Byte>)
    requires WellFormed(s) && s != []
    ensures !Tail(s[0])
  {
    var n := FirstChar(s);
    CharTails(s[..n]);
    assert s[..n][0] == s[0];
  }

  lemma OnlyChar(s: seq<Byte>, n: nat)
    requires 1 <= n <= |s| && IsChar(s[..n]) && WellFormed(s[n..]) && forall i :: 0 < i < |s| ==> Tail(s[i])
    ensures |Decode(s)| == 1
  {
    hide IsChar, DecodeCodepoint, Tail;
    CharIsDecoded(s, n);
    var rest := s[n..];
    if rest != [] {
      StartsWithLead(rest);
    }
    assert rest == [];
  }

  /** A character reads the same whatever follows it. */
  lemma SameFirst(s: seq<Byte>, k: nat, n: nat)
    requires 1 <= n <= k <= |s| && DecodeCodepoint(s).Some? && DecodeCodepoint(s).value.length == n
    requires DecodeCodepoint(s[..k]).Some? && DecodeCodepoint(s[..k]).value.length == n
    ensures DecodeCodepoint(s[..k]).value.cp == DecodeCodepoint(s).value.cp
  {
    hide Lead1, Lead2, Lead3, Lead4, Tail, Two, Three, Four;
  }
}
