/** The protobuf reader of src/common/asr/bpe_vocab_exporter.cpp. */
module Protobuf {
  import opened Wrappers
  import opened Bits

  type Byte = n: nat | n < 256

  /** A number or a slice, and what is left to read. */
  datatype Number = Number(value: nat, rest: seq<Byte>)

  datatype Slice = Slice(value: seq<Byte>, rest: seq<Byte>)

  // ---------------------------------------------------------------------------------------------
  // Varints

  /** ReadVarint from the byte that is shifted by `shift`, with the bits read before it. */
  function Varint(s: seq<Byte>, shift: nat, result: nat): Option<Number>
    decreases |s|
  {
    if shift >= 64 || s == [] then None
    else if shift == 63 && s[0] % 128 > 1 then None
    else
      var result := Or(result, (s[0] % 128) * Pow2(shift));
      if s[0] < 128 then Some(Number(result, s[1..])) else Varint(s[1..], shift + 7, result)
  }

  function ReadVarint(s: seq<Byte>): Option<Number> {
    Varint(s, 0, 0)
  }

  function LengthDelimited(s: seq<Byte>): Option<Slice> {
    var r := ReadVarint(s);
    if r.None? || r.value.value > |r.value.rest| then None
    else Some(Slice(r.value.rest[..r.value.value], r.value.rest[r.value.value..]))
  }

  /** Four bytes, the lowest first. */
  function Word(b0: nat, b1: nat, b2: nat, b3: nat): nat {
    Or(Or(Or(b0, b1 * Pow2(8)), b2 * Pow2(16)), b3 * Pow2(24))
  }

  function Fixed32(s: seq<Byte>): Option<Number> {
    if |s| < 4 then None else Some(Number(Word(s[0], s[1], s[2], s[3]), s[4..]))
  }

  function SkipField(s: seq<Byte>, wire: nat): Option<seq<Byte>> {
    if wire == 0 then
      var r := ReadVarint(s); if r.Some? then Some(r.value.rest) else None
    else if wire == 1 then (if |s| < 8 then None else Some(s[8..]))
    else if wire == 2 then
      var r := LengthDelimited(s); if r.Some? then Some(r.value.rest) else None
    else if wire == 5 then (if |s| < 4 then None else Some(s[4..]))
    else None
  }

  class ByteReader {
    var buffer: seq<Byte>

    constructor (bytes: seq<Byte>)
      ensures buffer == bytes
    {
      buffer := bytes;
    }

    method ReadVarint() returns (r: Option<nat>)
      modifies this
      ensures var spec := Varint(old(buffer), 0, 0);
              if spec.Some? then r == Some(spec.value.value) && buffer == spec.value.rest else r == None
    {
      hide Or, Pow2;
      var result, shift := 0, 0;
      while shift < 64
        invariant Varint(buffer, shift, result) == Varint(old(buffer), 0, 0)
        decreases |buffer|
      {
        if buffer == [] {
          return None;
        }
        var byte := buffer[0];
        buffer := buffer[1..];
        if shift == 63 && byte % 128 > 1 {
          return None;
        }
        result := Or(result, (byte % 128) * Pow2(shift));
        if byte < 128 {
          return Some(result);
        }
        shift := shift + 7;
      }
      return None;
    }

    method ReadLengthDelimited() returns (r: Option<seq<Byte>>)
      modifies this
      ensures var spec := LengthDelimited(old(buffer));
              if spec.Some? then r == Some(spec.value.value) && buffer == spec.value.rest else r == None
    {
      hide Varint;
      var len := ReadVarint();
      if len.None? || len.value > |buffer| {
        return None;
      }
      r := Some(buffer[..len.value]);
      buffer := buffer[len.value..];
    }

    method ReadFixed32() returns (r: Option<nat>)
      modifies this
      ensures var spec := Fixed32(old(buffer));
              if spec.Some? then r == Some(spec.value.value) && buffer == spec.value.rest else r == None
    {
      hide Word;
      if |buffer| < 4 {
        return None;
      }
      var b0, b1, b2, b3 := buffer[0], buffer[1], buffer[2], buffer[3];
      buffer := buffer[4..];
      r := Some(Word(b0, b1, b2, b3));
    }

    method Skip(wire: nat) returns (ok: bool)
      modifies this
      ensures var spec := SkipField(old(buffer), wire);
              ok == spec.Some? && (spec.Some? ==> buffer == spec.value)
    {
      hide Varint, LengthDelimited;
      if wire == 0 {
        var r := ReadVarint();
        return r.Some?;
      } else if wire == 1 && |buffer| >= 8 {
        buffer := buffer[8..];
        return true;
      } else if wire == 2 {
        var r := ReadLengthDelimited();
        return r.Some?;
      } else if wire == 5 && |buffer| >= 4 {
        buffer := buffer[4..];
        return true;
      }
      return false;
    }
  }

  // ---------------------------------------------------------------------------------------------
  // Varints: no overflow, and the inverse of the base-128 encoding

  lemma {:induction false} OrSwaps(a: nat, b: nat)
    ensures Or(a, b) == Or(b, a)
    decreases a + b
  {
    if a != 0 || b != 0 {
      OrSwaps(a / 2, b / 2);
    }
  }

  /** Bits above those already read are added. */
  lemma OrAdds(result: nat, chunk: nat, shift: nat)
    requires result < Pow2(shift)
    ensures Or(result, chunk * Pow2(shift)) == result + chunk * Pow2(shift)
  {
    OrSwaps(result, chunk * Pow2(shift));
    OrHigh(chunk, 0, result, shift);
    OrSwaps(0, result);
    OrZero(result);
  }

  /** Appending seven bits, or one at the top. */
  lemma ChunkFits(result: nat, chunk: nat, shift: nat, width: nat)
    requires result < Pow2(shift) && chunk < Pow2(width)
    ensures Or(result, chunk * Pow2(shift)) == result + chunk * Pow2(shift) < Pow2(shift + width)
  {
    OrAdds(result, chunk, shift);
    Pow2Sum(width, shift);
    Bits.Monotone(chunk + 1, Pow2(width), Pow2(shift));
    assert (chunk + 1) * Pow2(shift) == chunk * Pow2(shift) + Pow2(shift);
  }

  /** Whatever is read fits into 64 bits, and at least one byte is consumed. */
  lemma {:induction false} VarintFits(s: seq<Byte>, shift: nat, result: nat)
    requires shift % 7 == 0 && result < Pow2(shift)
    ensures var r := Varint(s, shift, result); r.Some? ==> r.value.value < Pow2(64) && |r.value.rest| < |s|
    decreases |s|
  {
    hide Or, Pow2;
    if shift < 64 && s != [] && !(shift == 63 && s[0] % 128 > 1) {
      var width := if shift == 63 then 1 else 7;
      Pow2Small();
      ChunkFits(result, s[0] % 128, shift, width);
      Pow2Grows(shift + width, 64);
      if shift < 63 {
        VarintFits(s[1..], shift + 7, Or(result, (s[0] % 128) * Pow2(shift)));
      } else {
        TooLong(s[1..], shift + 7, Or(result, (s[0] % 128) * Pow2(shift)));
      }
    }
  }

  lemma Pow2Small()
    ensures Pow2(0) == 1 && Pow2(1) == 2 && Pow2(7) == 128
  {
  }

  lemma TooLong(s: seq<Byte>, shift: nat, result: nat)
    requires shift >= 64
    ensures Varint(s, shift, result) == None
  {
  }

  /** What the number of a varint is: base 128, the lowest digit first. */
  function Digits128(b: seq<Byte>): nat {
    if b == [] then 0 else b[0] % 128 + 128 * Digits128(b[1..])
  }

  /** At most so many bytes, the high bit on all but the last; the longest form has one bit in its last byte. */
  predicate VarintForm(b: seq<Byte>, most: nat) {
    && 1 <= |b| <= most && (forall i :: 0 <= i < |b| - 1 ==> b[i] >= 128) && b[|b| - 1] < 128
    && (|b| == most ==> b[|b| - 1] <= 1)
  }

  lemma Regroup(chunk: nat, high: nat, p: nat)
    ensures chunk * p + high * (128 * p) == (chunk + 128 * high) * p
  {
    assert high * (128 * p) == (128 * high) * p;
  }

  lemma {:induction false} VarintReads(b: seq<Byte>, rest: seq<Byte>, k: nat, result: nat)
    requires k <= 9 && VarintForm(b, 10 - k) && result < Pow2(7 * k)
    ensures Varint(b + rest, 7 * k, result) == Some(Number(result + Digits128(b) * Pow2(7 * k), rest))
    decreases |b|
  {
    hide Or, Pow2, Varint;
    if |b| == 1 {
      LastByte(b, rest, k, result);
    } else {
      FirstByte(b, rest, k, result);
      VarintReads(b[1..], rest, k + 1, result + b[0] % 128 * Pow2(7 * k));
      Pow2Small();
      Pow2Sum(7, 7 * k);
      Regroup(b[0] % 128, Digits128(b[1..]), Pow2(7 * k));
    }
  }

  lemma LastByte(b: seq<Byte>, rest: seq<Byte>, k: nat, result: nat)
    requires k <= 9 && |b| == 1 && VarintForm(b, 10 - k) && result < Pow2(7 * k)
    ensures Varint(b + rest, 7 * k, result) == Some(Number(result + Digits128(b) * Pow2(7 * k), rest))
  {
    hide Or, Pow2;
    OrAdds(result, b[0] % 128, 7 * k);
    assert (b + rest)[1..] == rest;
    assert Digits128(b) == b[0] % 128;
  }

  lemma FirstByte(b: seq<Byte>, rest: seq<Byte>, k: nat, result: nat)
    requires k <= 9 && |b| > 1 && VarintForm(b, 10 - k) && result < Pow2(7 * k)
    ensures var more := result + b[0] % 128 * Pow2(7 * k);
            && k <= 8 && VarintForm(b[1..], 9 - k) && more < Pow2(7 * (k + 1))
            && Varint(b + rest, 7 * k, result) == Varint(b[1..] + rest, 7 * (k + 1), more)
  {
    hide Or, Pow2;
    Pow2Small();
    ChunkFits(result, b[0] % 128, 7 * k, 7);
    assert (b + rest)[0] == b[0] && (b + rest)[1..] == b[1..] + rest;
    assert forall i :: 0 <= i < |b| - 2 ==> b[1..][i] == b[i + 1];
  }

  lemma {:induction false} ReadIsVarint(s: seq<Byte>, k: nat, result: nat) returns (n: nat)
    requires k <= 9 && Varint(s, 7 * k, result).Some?
    ensures n <= |s| && VarintForm(s[..n], 10 - k) && Varint(s, 7 * k, result).value.rest == s[n..]
    decreases |s|
  {
    hide Or, Pow2;
    if s[0] < 128 {
      n := 1;
    } else {
      n := ReadIsVarint(s[1..], k + 1, Or(result, (s[0] % 128) * Pow2(7 * k)));
      n := n + 1;
      assert s[..n] == [s[0]] + s[1..][..n - 1] && s[n..] == s[1..][n - 1..];
    }
  }

  /** Every varint is read, in whatever form, up to its end. */
  lemma ReadsEveryForm(b: seq<Byte>, rest: seq<Byte>)
    requires VarintForm(b, 10)
    ensures ReadVarint(b + rest) == Some(Number(Digits128(b), rest))
  {
    hide Varint, Pow2, Digits128, VarintForm;
    Pow2Small();
    VarintReads(b, rest, 0, 0);
  }

  /** Nothing else is read. */
  lemma ReadsOnlyVarints(s: seq<Byte>) returns (n: nat)
    requires ReadVarint(s).Some?
    ensures n <= |s| && VarintForm(s[..n], 10) && ReadVarint(s) == Some(Number(Digits128(s[..n]), s[n..]))
  {
    hide Varint, Digits128, VarintForm;
    n := ReadIsVarint(s, 0, 0);
    assert s == s[..n] + s[n..];
    ReadsEveryForm(s[..n], s[n..]);
  }

  /** The base-128 encoding. */
  function Encode(n: nat): (s: seq<Byte>)
    ensures |s| >= 1
  {
    if n < 128 then [n] else [n % 128 + 128] + Encode(n / 128)
  }

  lemma HalfShift(n: nat, k: nat)
    requires n < Pow2(k) && n >= 128
    ensures k >= 8 && n / 128 < Pow2(k - 7)
  {
    hide Pow2;
    Pow2Small();
    if k < 8 {
      Pow2Grows(k, 7);
    } else {
      Pow2Sum(7, k - 7);
    }
  }

  lemma FormGrows(c: Byte, e: seq<Byte>, most: nat)
    requires most >= 1 && VarintForm(e, most - 1) && c >= 128
    ensures VarintForm([c] + e, most) && Digits128([c] + e) == c % 128 + 128 * Digits128(e)
  {
    var b := [c] + e;
    assert b[1..] == e;
    assert forall i :: 0 < i < |b| ==> b[i] == e[i - 1];
  }

  lemma OneDigit(n: nat, k: nat)
    requires k <= 9 && n < 128 && n < Pow2(64 - 7 * k)
    ensures Encode(n) == [n] && VarintForm([n], 10 - k) && Digits128([n]) == n
  {
    hide Pow2;
    Pow2Small();
  }

  lemma {:induction false} EncodedIsVarint(n: nat, k: nat)
    requires k <= 9 && n < Pow2(64 - 7 * k)
    ensures VarintForm(Encode(n), 10 - k) && Digits128(Encode(n)) == n
    decreases n
  {
    hide Pow2, VarintForm, Digits128;
    if n < 128 {
      OneDigit(n, k);
    } else {
      HalfShift(n, 64 - 7 * k);
      EncodedIsVarint(n / 128, k + 1);
      FormGrows(n % 128 + 128, Encode(n / 128), 10 - k);
      assert (n % 128 + 128) % 128 == n % 128;
    }
  }

  /** Reading gives back every number below 2^64 that was encoded, and stops right behind it. */
  lemma ReadsBack(n: nat, rest: seq<Byte>)
    requires n < Pow2(64)
    ensures ReadVarint(Encode(n) + rest) == Some(Number(n, rest))
  {
    hide ReadVarint, Encode, Pow2, VarintForm, Digits128;
    EncodedIsVarint(n, 0);
    ReadsEveryForm(Encode(n), rest);
  }

  /** The four bytes of a 32-bit number. */
  function EncodeFixed32(n: nat): (s: seq<Byte>)
    ensures |s| == 4
  {
    [n % 256, n / 256 % 256, n / 256 / 256 % 256, n / 256 / 256 / 256 % 256]
  }

  lemma Fixed32Inverts(n: nat, rest: seq<Byte>)
    requires n < Pow2(32)
    ensures Fixed32(EncodeFixed32(n) + rest) == Some(Number(n, rest))
  {
    hide Or, Word, Pow2;
    Pow2Bytes();
    var e := EncodeFixed32(n);
    WordAdds(e[0], e[1], e[2], e[3]);
    FourDigits(n);
    assert (e + rest)[4..] == rest;
  }

  lemma FourDigits(n: nat)
    requires n < 4294967296
    ensures n % 256 + (n / 256 % 256) * 256 + (n / 256 / 256 % 256) * 65536 + (n / 256 / 256 / 256 % 256) * 16777216 == n
  {
    var a := n / 256;
    var b := a / 256;
    var c := b / 256;
    assert c < 256;
  }

  lemma Pow2Bytes()
    ensures Pow2(8) == 256 && Pow2(16) == 65536 && Pow2(24) == 16777216 && Pow2(32) == 4294967296
  {
    Pow2Sum(8, 8);
    Pow2Sum(8, 16);
    Pow2Sum(16, 16);
  }

  lemma WordAdds(b0: nat, b1: nat, b2: nat, b3: nat)
    requires b0 < 256 && b1 < 256 && b2 < 256 && b3 < 256
    ensures Word(b0, b1, b2, b3) == b0 + b1 * 256 + b2 * 65536 + b3 * 16777216
  {
    hide Or, Pow2;
    Pow2Bytes();
    ChunkFits(b0, b1, 8, 8);
    ChunkFits(b0 + b1 * 256, b2, 16, 8);
    ChunkFits(b0 + b1 * 256 + b2 * 65536, b3, 24, 8);
  }

  lemma Consumes(s: seq<Byte>, wire: nat)
    ensures ReadVarint(s).Some? ==> |ReadVarint(s).value.rest| < |s| && ReadVarint(s).value.value < Pow2(64)
    ensures LengthDelimited(s).Some? ==> |LengthDelimited(s).value.rest| < |s|
    ensures Fixed32(s).Some? ==> |Fixed32(s).value.rest| < |s|
    ensures SkipField(s, wire).Some? ==> |SkipField(s, wire).value| < |s|
  {
    hide Varint, Pow2, Word;
    Pow2Small();
    VarintFits(s, 0, 0);
  }

  // ---------------------------------------------------------------------------------------------
  // The wire format: what a message is, whoever reads it

  datatype Value =
    | VarintValue(number: seq<Byte>)
    | Fixed64Value(bytes: seq<Byte>)
    | BytesValue(length: seq<Byte>, bytes: seq<Byte>)
    | Fixed32Value(bytes: seq<Byte>)

  /** A field: its key, which holds its number and wire type, and its value. */
  datatype Field = Field(key: seq<Byte>, value: Value)

  function Wire(v: Value): nat {
    match v
    case VarintValue(_) => 0
    case Fixed64Value(_) => 1
    case BytesValue(_, _) => 2
    case Fixed32Value(_) => 5
  }

  predicate ValidValue(v: Value) {
    match v
    case VarintValue(number) => VarintForm(number, 10)
    case Fixed64Value(bytes) => |bytes| == 8
    case BytesValue(length, bytes) => VarintForm(length, 10) && Digits128(length) == |bytes|
    case Fixed32Value(bytes) => |bytes| == 4
  }

  predicate ValidField(fd: Field) {
    VarintForm(fd.key, 10) && Digits128(fd.key) % 8 == Wire(fd.value) && ValidValue(fd.value)
  }

  predicate ValidFields(fields: seq<Field>) {
    forall i :: 0 <= i < |fields| ==> ValidField(fields[i])
  }

  function ValueBytes(v: Value): seq<Byte> {
    match v
    case VarintValue(number) => number
    case Fixed64Value(bytes) => bytes
    case BytesValue(length, bytes) => length + bytes
    case Fixed32Value(bytes) => bytes
  }

  /** The bytes of a message: its fields, one behind the other. */
  function Message(fields: seq<Field>): seq<Byte> {
    if fields == [] then [] else fields[0].key + (ValueBytes(fields[0].value) + Message(fields[1..]))
  }

  lemma SlicesValue(length: seq<Byte>, bytes: seq<Byte>, rest: seq<Byte>)
    requires VarintForm(length, 10) && Digits128(length) == |bytes|
    ensures LengthDelimited((length + bytes) + rest) == Some(Slice(bytes, rest))
  {
    hide ReadVarint, VarintForm, Digits128;
    assert (length + bytes) + rest == length + (bytes + rest);
    ReadsEveryForm(length, bytes + rest);
    assert (bytes + rest)[..|bytes|] == bytes && (bytes + rest)[|bytes|..] == rest;
  }

  /** Skipping a value of any wire type leads right behind it. */
  lemma SkipsValue(v: Value, rest: seq<Byte>)
    requires ValidValue(v)
    ensures SkipField(ValueBytes(v) + rest, Wire(v)) == Some(rest)
  {
    hide ReadVarint, LengthDelimited, VarintForm, Digits128;
    match v
    case VarintValue(number) => ReadsEveryForm(number, rest);
    case Fixed64Value(bytes) => assert (bytes + rest)[8..] == rest;
    case BytesValue(length, bytes) => SlicesValue(length, bytes, rest);
    case Fixed32Value(bytes) => assert (bytes + rest)[4..] == rest;
  }

  lemma SlicedIsValue(s: seq<Byte>) returns (v: Value)
    requires LengthDelimited(s).Some?
    ensures v.BytesValue? && ValidValue(v) && v.bytes == LengthDelimited(s).value.value && s == ValueBytes(v) + LengthDelimited(s).value.rest
  {
    hide ReadVarint, VarintForm, Digits128;
    var n := ReadsOnlyVarints(s);
    v := BytesValue(s[..n], LengthDelimited(s).value.value);
    assert s == s[..n] + s[n..];
  }

  /** Only a value of its wire type is skipped; there are values of wire type 0, 1, 2 and 5 only. */
  lemma SkippedIsValue(s: seq<Byte>, wire: nat) returns (v: Value)
    requires SkipField(s, wire).Some?
    ensures ValidValue(v) && Wire(v) == wire && s == ValueBytes(v) + SkipField(s, wire).value
  {
    hide ReadVarint, LengthDelimited, VarintForm, Digits128;
    if wire == 0 {
      var n := ReadsOnlyVarints(s);
      v := VarintValue(s[..n]);
    } else if wire == 1 {
      v := Fixed64Value(s[..8]);
    } else if wire == 2 {
      v := SlicedIsValue(s);
    } else {
      v := Fixed32Value(s[..4]);
    }
  }
}
