/** The UTF-16 codec of 3rdparty/unicodelib/unicodelib_encodings.h, and the conversions between the two. */
module Utf16 {
  import opened Wrappers
  import Utf8

  type Unit = bv16
  type CodePoint = Utf8.CodePoint

  // ---------------------------------------------------------------------------------------------
  // One code point

  predicate High(u: Unit) {
    0xD800 <= u < 0xDC00
  }

  predicate Low(u: Unit) {
    0xDC00 <= u < 0xE000
  }

  predicate Plain(u: Unit) {
    u < 0xD800 || u >= 0xE000
  }

  function HighOf(cp: CodePoint): Unit {
    (0xD800 + (((cp - 0x10000) >> 10) & 0x3FF)) as Unit
  }

  function LowOf(cp: CodePoint): Unit {
    (0xDC00 + ((cp - 0x10000) & 0x3FF)) as Unit
  }

  function UnitOf(cp: CodePoint): Unit {
    (cp & 0xFFFF) as Unit
  }

  function CodeOf(u: Unit): CodePoint {
    u as CodePoint
  }

  function EncodeCodepoint(cp: CodePoint): seq<Unit> {
    if cp < 0xD800 then [UnitOf(cp)]
    else if cp < 0xE000 then []
    else if cp < 0x10000 then [UnitOf(cp)]
    else if cp < 0x110000 then [HighOf(cp), LowOf(cp)]
    else []
  }

  function Pair(first: Unit, second: Unit): CodePoint {
    (((((first - 0xD800) as CodePoint) << 10) | ((second - 0xDC00) as CodePoint)) + 0x10000)
  }

  function DecodeCodepoint(s: seq<Unit>): Option<Utf8.Read> {
    if s == [] then None
    else if High(s[0]) then
      if |s| >= 2 && Low(s[1]) then Some(Utf8.Read(Pair(s[0], s[1]), 2)) else None
    else if Plain(s[0]) then Some(Utf8.Read(CodeOf(s[0]), 1))
    else None
  }

  /** A character as section 2 of RFC 2781 has it: a unit that is no surrogate, or a surrogate pair. */
  predicate IsChar(s: seq<Unit>) {
    (|s| == 1 && Plain(s[0])) || (|s| == 2 && High(s[0]) && Low(s[1]))
  }

  ghost predicate WellFormed(s: seq<Unit>)
    decreases |s|
  {
    s == [] || exists n: nat :: 1 <= n <= 2 && n <= |s| && IsChar(s[..n]) && WellFormed(s[n..])
  }

  // ---------------------------------------------------------------------------------------------
  // Facts about bits

  lemma PairRange(a: Unit, b: Unit)
    requires High(a) && Low(b)
    ensures 0x10000 <= Pair(a, b) < 0x110000 && HighOf(Pair(a, b)) == a && LowOf(Pair(a, b)) == b
  {
  }

  lemma PlainRange(a: Unit)
    requires Plain(a)
    ensures var cp := CodeOf(a); cp < 0x10000 && (cp < 0xD800 || 0xE000 <= cp) && UnitOf(cp) == a
  {
  }

  lemma PutsPair(cp: CodePoint)
    requires 0x10000 <= cp < 0x110000
    ensures High(HighOf(cp)) && Low(LowOf(cp)) && Pair(HighOf(cp), LowOf(cp)) == cp
  {
  }

  lemma PutsOne(cp: CodePoint)
    requires cp < 0xD800 || 0xE000 <= cp < 0x10000
    ensures Plain(UnitOf(cp)) && !High(UnitOf(cp)) && CodeOf(UnitOf(cp)) == cp
  {
    Fits(cp);
    var u := UnitOf(cp);
    hide UnitOf;
    assert CodeOf(u) == cp;
  }

  lemma Fits(cp: CodePoint)
    requires cp < 0x10000
    ensures CodeOf(UnitOf(cp)) == cp
  {
    assert cp & 0xFFFF == cp;
  }

  // ---------------------------------------------------------------------------------------------
  // One code point, both ways

  lemma DecodedIsChar(s: seq<Unit>)
    requires DecodeCodepoint(s).Some?
    ensures var r := DecodeCodepoint(s).value;
            1 <= r.length <= |s| && IsChar(s[..r.length]) && Utf8.Scalar(r.cp) && EncodeCodepoint(r.cp) == s[..r.length]
  {
    hide Pair, Plain, High, Low, UnitOf, HighOf, LowOf, CodeOf;
    if High(s[0]) {
      PairRange(s[0], s[1]);
      assert s[..2] == [s[0], s[1]];
    } else {
      PlainRange(s[0]);
      assert s[..1] == [s[0]];
    }
  }

  /** The decoder accepts exactly the characters. */
  lemma AcceptsExactlyChars(s: seq<Unit>)
    ensures DecodeCodepoint(s).Some? <==> exists n: nat :: 1 <= n <= |s| && IsChar(s[..n])
  {
    hide Pair, EncodeCodepoint;
    if DecodeCodepoint(s).Some? {
      DecodedIsChar(s);
    }
  }

  lemma CharIsDecoded(s: seq<Unit>, n: nat)
    requires 1 <= n <= |s| && IsChar(s[..n])
    ensures DecodeCodepoint(s).Some? && DecodeCodepoint(s).value.length == n
  {
    hide Pair;
  }

  lemma EncodedIsDecoded(cp: CodePoint, rest: seq<Unit>)
    requires Utf8.Scalar(cp)
    ensures EncodeCodepoint(cp) != [] && DecodeCodepoint(EncodeCodepoint(cp) + rest) == Some(Utf8.Read(cp, |EncodeCodepoint(cp)|))
  {
    hide Pair, Plain, High, Low, UnitOf, HighOf, LowOf, CodeOf;
    if cp < 0x10000 {
      PutsOne(cp);
    } else {
      PutsPair(cp);
    }
  }

  // ---------------------------------------------------------------------------------------------
  // Texts

  function Stride(s: seq<Unit>): (n: nat)
    requires s != []
    ensures 1 <= n <= |s|
  {
    var r := DecodeCodepoint(s);
    if r.Some? then DecodedIsChar(s); r.value.length else 1
  }

  function Decode(s: seq<Unit>): seq<CodePoint>
    decreases |s|
  {
    if s == [] then []
    else
      var r := DecodeCodepoint(s);
      (if r.Some? then [r.value.cp] else []) + Decode(s[Stride(s)..])
  }

  function Encode(cps: seq<CodePoint>): seq<Unit> {
    if cps == [] then [] else EncodeCodepoint(cps[0]) + Encode(cps[1..])
  }

  lemma DecodeStep(s: seq<Unit>)
    requires s != []
    ensures var r := DecodeCodepoint(s);
            && (r.None? ==> Decode(s) == Decode(s[1..]))
            && (r.Some? ==> 1 <= r.value.length <= |s| && Decode(s) == [r.value.cp] + Decode(s[r.value.length..]))
  {
    hide DecodeCodepoint;
    var n := Stride(s);
  }

  lemma EmptyText(s: seq<Unit>)
    requires s == []
    ensures Decode(s) == []
  {
  }

  method DecodeText(s: seq<Unit>) returns (out: seq<CodePoint>)
    ensures out == Decode(s)
  {
    hide DecodeCodepoint, Decode;
    out := [];
    var i := 0;
    assert s[0..] == s;
    EmptyText(s[|s|..]);
    while i < |s|
      invariant 0 <= i <= |s| && out + Decode(s[i..]) == Decode(s)
      decreases |s| - i
    {
      var length := 1;
      var r := DecodeCodepoint(s[i..]);
      ghost var before := out;
      DecodeStep(s[i..]);
      if r.Some? {
        out := out + [r.value.cp];
        length := r.value.length;
      }
      assert s[i..][length..] == s[i + length..];
      assert out + Decode(s[i + length..]) == before + Decode(s[i..]);
      i := i + length;
    }
  }

  method EncodeText(cps: seq<CodePoint>) returns (out: seq<Unit>)
    ensures out == Encode(cps)
  {
    hide EncodeCodepoint;
    out := [];
    assert cps[0..] == cps;
    for i := 0 to |cps|
      invariant out + Encode(cps[i..]) == Encode(cps)
    {
      assert cps[i..][1..] == cps[i + 1..];
      out := out + EncodeCodepoint(cps[i]);
    }
  }

  /** The length of the code point at the front, 0 for an unpaired surrogate. */
  function CodepointLength(s: seq<Unit>): (n: nat)
    ensures n == if DecodeCodepoint(s).Some? then DecodeCodepoint(s).value.length else 0
  {
    if |s| >= 2 && High(s[0]) && Low(s[1]) then 2
    else if s != [] && Plain(s[0]) then 1
    else 0
  }

  method CodepointCount(s: seq<Unit>) returns (count: nat)
    ensures count == |Decode(s)|
  {
    hide DecodeCodepoint, CodepointLength, Decode;
    count := 0;
    var i := 0;
    assert s[0..] == s;
    EmptyText(s[|s|..]);
    while i < |s|
      invariant 0 <= i <= |s| && count + |Decode(s[i..])| == |Decode(s)|
      decreases |s| - i
    {
      var length := CodepointLength(s[i..]);
      DecodeStep(s[i..]);
      assert length > 0 ==> length <= |s| - i && s[i..][length..] == s[i + length..];
      assert s[i..][1..] == s[i + 1..];
      if length > 0 {
        count := count + 1;
        i := i + length;
      } else {
        i := i + 1;
      }
    }
  }

  lemma {:induction false} DecodedScalars(s: seq<Unit>)
    ensures Utf8.Scalars(Decode(s))
    decreases |s|
  {
    hide DecodeCodepoint, EncodeCodepoint, IsChar, Utf8.Scalar;
    if s != [] {
      DecodedScalars(s[Stride(s)..]);
      if DecodeCodepoint(s).Some? { DecodedIsChar(s); }
    }
  }

  /** Decoding undoes encoding. */
  lemma {:induction false} DecodeEncode(cps: seq<CodePoint>)
    requires Utf8.Scalars(cps)
    ensures Decode(Encode(cps)) == cps
    decreases |cps|
  {
    hide DecodeCodepoint, EncodeCodepoint, Utf8.Scalar;
    if cps != [] {
      var first, rest := EncodeCodepoint(cps[0]), Encode(cps[1..]);
      EncodedIsDecoded(cps[0], rest);
      DecodeEncode(cps[1..]);
      assert (first + rest)[|first|..] == rest;
    }
  }

  lemma {:induction false} EncodedIsWellFormed(cps: seq<CodePoint>)
    requires Utf8.Scalars(cps)
    ensures WellFormed(Encode(cps))
    decreases |cps|
  {
    hide DecodeCodepoint, EncodeCodepoint, Utf8.Scalar;
    if cps != [] {
      var first, rest := EncodeCodepoint(cps[0]), Encode(cps[1..]);
      EncodedIsDecoded(cps[0], rest);
      DecodedIsChar(first + rest);
      EncodedIsWellFormed(cps[1..]);
      assert (first + rest)[|first|..] == rest;
    }
  }

  lemma EncodeNothing()
    ensures Encode([]) == []
  {
  }

  lemma EncodeCons(cp: CodePoint, rest: seq<CodePoint>)
    ensures Encode([cp] + rest) == EncodeCodepoint(cp) + Encode(rest)
  {
    assert ([cp] + rest)[1..] == rest;
  }

  lemma {:induction false} EncodeDecode(s: seq<Unit>)
    requires WellFormed(s)
    ensures Encode(Decode(s)) == s
    decreases |s|
  {
    hide DecodeCodepoint, EncodeCodepoint, IsChar, Decode, Encode;
    if s == [] {
      EmptyText(s);
      EncodeNothing();
    } else {
      var n: nat :| 1 <= n <= 2 && n <= |s| && IsChar(s[..n]) && WellFormed(s[n..]);
      CharIsDecoded(s, n);
      DecodedIsChar(s);
      EncodeDecode(s[n..]);
      DecodeStep(s);
      EncodeCons(DecodeCodepoint(s).value.cp, Decode(s[n..]));
    }
  }

  // ---------------------------------------------------------------------------------------------
  // Conversions

  function ToUtf8(s: seq<Unit>): seq<Utf8.Byte> {
    Utf8.Encode(Decode(s))
  }

  function ToUtf16(s: seq<Utf8.Byte>): seq<Unit> {
    Encode(Utf8.Decode(s))
  }

  /** There and back is sanitizing: it loses nothing of a well-formed text, and only of such a text nothing. */
  lemma ThereAndBack(s: seq<Utf8.Byte>)
    ensures ToUtf8(ToUtf16(s)) == Utf8.Sanitize(s)
    ensures ToUtf8(ToUtf16(s)) == s <==> Utf8.WellFormed(s)
  {
    hide Decode, Encode, Utf8.Decode, Utf8.Encode, Utf8.WellFormed, Utf8.Scalars;
    Utf8.DecodedScalars(s);
    DecodeEncode(Utf8.Decode(s));
    Utf8.SanitizeKeepsExactlyWellFormed(s);
  }

  lemma BackAndThere(s: seq<Unit>)
    ensures ToUtf16(ToUtf8(s)) == s <==> WellFormed(s)
  {
    hide Decode, Encode, Utf8.Decode, Utf8.Encode, WellFormed, Utf8.Scalars;
    DecodedScalars(s);
    Utf8.DecodeEncode(Decode(s));
    EncodedIsWellFormed(Decode(s));
    if WellFormed(s) { EncodeDecode(s); }
  }
}
