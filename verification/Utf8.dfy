/** The text validator (src/common/checked.c:125-172) against sections 3 and 4 of
    RFC 3629: it accepts exactly the concatenations of encodings of Unicode scalar
    values other than the C0 controls and DEL. */
module Utf8 {
  import opened Base

  // ---- The standard ----

  /** A code point that section 3 of RFC 3629 lets UTF-8 encode. */
  predicate Scalar(v: int) {
    0 <= v < 0xd800 || 0xe000 <= v <= 0x10ffff
  }

  /** The encoding of section 3 of RFC 3629: the payload bits are spread over the
      least number of bytes that holds them. */
  function Encode(v: int): seq<byte>
    requires Scalar(v)
  {
    if v < 0x80 then [v]
    else if v < 0x800 then [0xc0 + v / 64, 0x80 + v % 64]
    else if v < 0x1_0000 then [0xe0 + v / 4096, 0x80 + v / 64 % 64, 0x80 + v % 64]
    else [0xf0 + v / 262144, 0x80 + v / 4096 % 64, 0x80 + v / 64 % 64, 0x80 + v % 64]
  }

  predicate Printable(v: int) {
    Scalar(v) && v >= 0x20 && v != 0x7f
  }

  predicate AllPrintable(text: seq<int>) {
    forall k :: 0 <= k < |text| ==> Printable(text[k])
  }

  function EncodeAll(text: seq<int>): seq<byte>
    requires AllPrintable(text)
  {
    if text == [] then [] else Encode(text[0]) + EncodeAll(text[1..])
  }

  // ---- What one turn of the loop accepts ----

  /** Top two bits 10. */
  predicate Continuation(b: byte) {
    b / 64 == 2
  }

  /** Bytes announced by a leading byte above ASCII, zero for none. */
  function Announced(first: byte): nat {
    if 0xc2 <= first <= 0xdf then 2
    else if 0xe0 <= first <= 0xef then 3
    else if 0xf0 <= first <= 0xf4 then 4
    else 0
  }

  /** The second byte rules out longer-than-needed forms, surrogates and values
      past the last code point. */
  predicate SecondFits(first: byte, second: byte) {
    !(first == 0xe0 && second < 0xa0) && !(first == 0xed && second > 0x9f)
    && !(first == 0xf0 && second < 0x90) && !(first == 0xf4 && second > 0x8f)
  }

  /** Size of the accepted sequence at the head of a text, zero for none. */
  function Accepted(data: seq<byte>): (n: nat)
    requires data != []
    ensures n <= |data|
  {
    var first, n := data[0], Announced(data[0]);
    if first <= 0x7f then if first < 0x20 || first == 0x7f then 0 else 1
    else if n == 0 || n > |data| then 0
    else if !Continuation(data[1]) || (n >= 3 && !Continuation(data[2])) || (n == 4 && !Continuation(data[3])) then 0
    else if !SecondFits(first, data[1]) then 0
    else n
  }

  predicate WellFormed(data: seq<byte>) {
    data == [] || (Accepted(data) > 0 && WellFormed(data[Accepted(data)..]))
  }

  /** `jg_utf8_text_valid`. Every index is in bounds. */
  method TextValid(data: array<byte>, allowEmpty: bool) returns (valid: bool)
    ensures valid == (WellFormed(data[..]) && (allowEmpty || data.Length != 0))
    ensures valid <==>
              (allowEmpty || data.Length != 0) && exists text :: AllPrintable(text) && data[..] == EncodeAll(text)
  {
    AcceptsExactlyUtf8(data[..]);
    if !allowEmpty && data.Length == 0 { return false; }
    var index := 0;
    assert data[index..] == data[..];
    while index < data.Length
      invariant index <= data.Length && WellFormed(data[..]) == WellFormed(data[index..])
    {
      ghost var rest := data[index..];
      var first := data[index];
      if first <= 0x7f {
        if first < 0x20 || first == 0x7f { return false; }
        assert rest[1..] == data[index + 1..];
        index := index + 1;
        continue;
      }
      var size := 0;
      if 0xc2 <= first && first <= 0xdf { size := 2; }
      else if 0xe0 <= first && first <= 0xef { size := 3; }
      else if 0xf0 <= first && first <= 0xf4 { size := 4; }
      else { return false; }
      if size > data.Length - index { return false; }
      if !Continuation(data[index + 1]) || (size >= 3 && !Continuation(data[index + 2]))
         || (size == 4 && !Continuation(data[index + 3])) {
        return false;
      }
      if (first == 0xe0 && data[index + 1] < 0xa0) || (first == 0xed && data[index + 1] > 0x9f)
         || (first == 0xf0 && data[index + 1] < 0x90) || (first == 0xf4 && data[index + 1] > 0x8f) {
        return false;
      }
      assert rest[size..] == data[index + size..];
      index := index + size;
    }
    valid := true;
  }

  // ---- The loop accepts exactly the standard ----

  /** The value carried by an accepted sequence. */
  function Decode(data: seq<byte>): int
    requires data != [] && Accepted(data) > 0
  {
    match Accepted(data)
    case 1 => data[0]
    case 2 => Low(data[0], 32) * 64 + Low(data[1], 64)
    case 3 => Low(data[0], 16) * 4096 + Low(data[1], 64) * 64 + Low(data[2], 64)
    case _ => Low(data[0], 8) * 262144 + Low(data[1], 64) * 4096 + Low(data[2], 64) * 64 + Low(data[3], 64)
  }

  /** The payload bits of a byte. */
  function Low(b: byte, limit: int): int
    requires limit > 0
  {
    b % limit
  }

  lemma DecodesTwo(data: seq<byte>)
    requires data != [] && Accepted(data) == 2
    ensures Printable(Decode(data)) && Encode(Decode(data)) == data[..2]
  {
  }

  lemma DecodesThree(data: seq<byte>)
    requires data != [] && Accepted(data) == 3
    ensures Printable(Decode(data)) && Encode(Decode(data)) == data[..3]
  {
    var a: int, b: int, c: int := data[0] % 16, data[1] % 64, data[2] % 64;
    var v := a * 4096 + b * 64 + c;
    assert v / 4096 == a && v / 64 == a * 64 + b && v % 64 == c;
  }

  /** Base-64 digits and the number they make determine each other. */
  lemma Digits(v: int, a: int, b: int, c: int, d: int)
    requires 0 <= v && 0 <= a && 0 <= b < 64 && 0 <= c < 64 && 0 <= d < 64
    ensures v == a * 262144 + b * 4096 + c * 64 + d <==>
              a == v / 262144 && b == v / 4096 % 64 && c == v / 64 % 64 && d == v % 64
  {
    var x, y := v / 4096, v / 64;
    assert v == y * 64 + v % 64 && y == x * 64 + y % 64 && x == v / 262144 * 64 + x % 64;
  }

  lemma DecodesFour(data: seq<byte>)
    requires data != [] && Accepted(data) == 4
    ensures Printable(Decode(data)) && Encode(Decode(data)) == data[..4]
  {
    var a, b, c, d := Low(data[0], 8), Low(data[1], 64), Low(data[2], 64), Low(data[3], 64);
    assert data[0] == 0xf0 + a && data[1] == 0x80 + b && data[2] == 0x80 + c && data[3] == 0x80 + d;
    Digits(Decode(data), a, b, c, d);
  }

  /** An accepted sequence is the encoding of the value it carries. */
  lemma HeadDecodes(data: seq<byte>)
    requires data != [] && Accepted(data) > 0
    ensures Printable(Decode(data)) && Encode(Decode(data)) == data[..Accepted(data)]
  {
    if Accepted(data) == 2 { DecodesTwo(data); }
    else if Accepted(data) == 3 { DecodesThree(data); }
    else if Accepted(data) == 4 { DecodesFour(data); }
  }

  lemma EncodesTwo(v: int, data: seq<byte>)
    requires Printable(v) && 0x80 <= v < 0x800 && Encode(v) <= data
    ensures Accepted(data) == 2 && Decode(data) == v
  {
    assert data[0] == 0xc0 + v / 64 && data[1] == 0x80 + v % 64;
  }

  lemma EncodesThree(v: int, data: seq<byte>)
    requires Printable(v) && 0x800 <= v < 0x1_0000 && Encode(v) <= data
    ensures Accepted(data) == 3 && Decode(data) == v
  {
    var a, b, c := v / 4096, v / 64 % 64, v % 64;
    assert v == a * 4096 + b * 64 + c;
    assert data[0] == 0xe0 + a && data[1] == 0x80 + b && data[2] == 0x80 + c;
  }

  lemma EncodesFour(v: int, data: seq<byte>)
    requires Printable(v) && 0x1_0000 <= v && Encode(v) <= data
    ensures Accepted(data) == 4 && Decode(data) == v
  {
    var a, b, c, d := v / 262144, v / 4096 % 64, v / 64 % 64, v % 64;
    Digits(v, a, b, c, d);
    assert data[0] == 0xf0 + a && data[1] == 0x80 + b && data[2] == 0x80 + c && data[3] == 0x80 + d;
  }

  /** Every encoding is accepted, whatever follows, and carries its value. */
  lemma HeadEncodes(v: int, rest: seq<byte>)
    requires Printable(v)
    ensures var data := Encode(v) + rest; Accepted(data) == |Encode(v)| && Decode(data) == v
  {
    var data := Encode(v) + rest;
    if 0x80 <= v < 0x800 { EncodesTwo(v, data); }
    else if 0x800 <= v < 0x1_0000 { EncodesThree(v, data); }
    else if 0x1_0000 <= v { EncodesFour(v, data); }
  }

  lemma {:induction false} EncodedIsWellFormed(text: seq<int>)
    requires AllPrintable(text)
    ensures WellFormed(EncodeAll(text))
  {
    if text != [] {
      var rest := EncodeAll(text[1..]);
      EncodedIsWellFormed(text[1..]);
      HeadEncodes(text[0], rest);
      assert (Encode(text[0]) + rest)[|Encode(text[0])|..] == rest;
    }
  }

  lemma {:induction false} WellFormedIsEncoded(data: seq<byte>) returns (text: seq<int>)
    requires WellFormed(data)
    ensures AllPrintable(text) && data == EncodeAll(text)
    decreases |data|
  {
    text := [];
    if data != [] {
      var n := Accepted(data);
      var rest := WellFormedIsEncoded(data[n..]);
      HeadDecodes(data);
      text := [Decode(data)] + rest;
      assert text[1..] == rest;
      assert data == data[..n] + data[n..];
    }
  }

  /** A byte string is accepted exactly if it encodes some text of printable
      scalar values. */
  lemma AcceptsExactlyUtf8(data: seq<byte>)
    ensures WellFormed(data) <==> exists text :: AllPrintable(text) && data == EncodeAll(text)
  {
    if WellFormed(data) {
      var text := WellFormedIsEncoded(data);
    }
    forall text | AllPrintable(text) && data == EncodeAll(text) ensures WellFormed(data) {
      EncodedIsWellFormed(text);
    }
  }

  /** No byte string encodes two texts. */
  lemma {:induction false} EncodingIsUnique(a: seq<int>, b: seq<int>)
    requires AllPrintable(a) && AllPrintable(b) && EncodeAll(a) == EncodeAll(b)
    ensures a == b
  {
    if a != [] && b != [] {
      HeadEncodes(a[0], EncodeAll(a[1..]));
      HeadEncodes(b[0], EncodeAll(b[1..]));
      var n := |Encode(a[0])|;
      assert EncodeAll(a)[n..] == EncodeAll(a[1..]) && EncodeAll(b)[n..] == EncodeAll(b[1..]);
      EncodingIsUnique(a[1..], b[1..]);
      assert a == [a[0]] + a[1..] && b == [b[0]] + b[1..];
    }
  }
}
