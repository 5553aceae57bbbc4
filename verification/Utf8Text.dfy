/** Well-formed UTF-8, byte by byte (Unicode Standard, table 3-7). */
module Utf8Text {
  import opened Bytes

  predicate Continuation(b: byte) { 0x80 <= b <= 0xBF }

  /** Length of the well-formed sequence at the head of s, or 0. */
  function HeadLen(s: seq<byte>): (n: nat)
    requires s != []
    ensures n <= |s|
  {
    if s[0] <= 0x7F then 1
    else if |s| >= 2 && 0xC2 <= s[0] <= 0xDF && Continuation(s[1]) then 2
    else if |s| >= 3 && ThirdOk(s[0], s[1]) && Continuation(s[2]) then 3
    else if |s| >= 4 && FourthOk(s[0], s[1]) && Continuation(s[2]) && Continuation(s[3]) then 4
    else 0
  }

  predicate ThirdOk(a: byte, b: byte) {
    || (a == 0xE0 && 0xA0 <= b <= 0xBF)
    || (0xE1 <= a <= 0xEC && Continuation(b))
    || (a == 0xED && 0x80 <= b <= 0x9F)
    || (0xEE <= a <= 0xEF && Continuation(b))
  }

  predicate FourthOk(a: byte, b: byte) {
    || (a == 0xF0 && 0x90 <= b <= 0xBF)
    || (0xF1 <= a <= 0xF3 && Continuation(b))
    || (a == 0xF4 && 0x80 <= b <= 0x8F)
  }

  predicate IsUtf8(s: seq<byte>)
    decreases |s|
  {
    s == [] || (HeadLen(s) > 0 && IsUtf8(s[HeadLen(s)..]))
  }

  // ---------------------------------------------------------------- what it means

  /** A Unicode scalar value. */
  type scalar = c: int | 0 <= c < 0xD800 || 0xE000 <= c < 0x11_0000 witness 0

  /** Its encoding (section 3 of RFC 3629). */
  function EncodeScalar(c: scalar): (s: seq<byte>)
    ensures s != []
  {
    if c < 0x80 then [c]
    else if c < 0x800 then [0xC0 + c / 64, 0x80 + c % 64]
    else if c < 0x1_0000 then [0xE0 + c / 64 / 64, 0x80 + c / 64 % 64, 0x80 + c % 64]
    else [0xF0 + c / 64 / 64 / 64, 0x80 + c / 64 / 64 % 64, 0x80 + c / 64 % 64, 0x80 + c % 64]
  }

  function EncodeText(cs: seq<scalar>): seq<byte> {
    if cs == [] then [] else EncodeScalar(cs[0]) + EncodeText(cs[1..])
  }

  /** An encoded scalar at the head of s is what HeadLen takes. */
  lemma HeadOfScalar(c: scalar, s: seq<byte>)
    requires EncodeScalar(c) <= s
    ensures HeadLen(s) == |EncodeScalar(c)|
  {
    var e := EncodeScalar(c);
    assert forall i :: 0 <= i < |e| ==> s[i] == e[i];
  }

  lemma Digits(a: nat, b: nat)
    requires b < 64
    ensures (a * 64 + b) / 64 == a && (a * 64 + b) % 64 == b
  {
  }

  lemma TwoBytes(s: seq<byte>) returns (c: scalar)
    requires s != [] && HeadLen(s) == 2
    ensures EncodeScalar(c) == s[..2]
  {
    Digits(s[0] - 0xC0, s[1] - 0x80);
    c := ((s[0] as int) - 0xC0) * 64 + s[1] - 0x80;
  }

  lemma ThreeBytes(s: seq<byte>) returns (c: scalar)
    requires s != [] && HeadLen(s) == 3
    ensures EncodeScalar(c) == s[..3]
  {
    var high: nat := ((s[0] as int) - 0xE0) * 64 + s[1] - 0x80;
    Digits(s[0] - 0xE0, s[1] - 0x80);
    Digits(high, s[2] - 0x80);
    c := high * 64 + s[2] - 0x80;
  }

  lemma FourBytes(s: seq<byte>) returns (c: scalar)
    requires s != [] && HeadLen(s) == 4
    ensures EncodeScalar(c) == s[..4]
  {
    var high: nat := ((s[0] as int) - 0xF0) * 64 + s[1] - 0x80;
    var middle: nat := high * 64 + s[2] - 0x80;
    Digits(s[0] - 0xF0, s[1] - 0x80);
    Digits(high, s[2] - 0x80);
    Digits(middle, s[3] - 0x80);
    c := middle * 64 + s[3] - 0x80;
  }

  /** And what HeadLen takes is an encoded scalar. */
  lemma ScalarOfHead(s: seq<byte>) returns (c: scalar)
    requires s != [] && HeadLen(s) > 0
    ensures EncodeScalar(c) == s[..HeadLen(s)]
  {
    if HeadLen(s) == 1 {
      c := s[0];
    } else if HeadLen(s) == 2 {
      c := TwoBytes(s);
    } else if HeadLen(s) == 3 {
      c := ThreeBytes(s);
    } else {
      c := FourBytes(s);
    }
  }

  lemma {:induction false} EncodedIsUtf8(cs: seq<scalar>)
    ensures IsUtf8(EncodeText(cs))
  {
    if cs != [] {
      var s := EncodeText(cs);
      HeadOfScalar(cs[0], s);
      assert s[HeadLen(s)..] == EncodeText(cs[1..]);
      EncodedIsUtf8(cs[1..]);
    }
  }

  lemma {:induction false} Utf8IsEncoded(s: seq<byte>) returns (cs: seq<scalar>)
    requires IsUtf8(s)
    ensures EncodeText(cs) == s
    decreases |s|
  {
    cs := [];
    if s != [] {
      var c := ScalarOfHead(s);
      var rest := Utf8IsEncoded(s[HeadLen(s)..]);
      cs := [c] + rest;
      assert cs[1..] == rest;
    }
  }

  /** The bytes that pass are exactly the encodings of texts. */
  lemma IsUtf8Exactly(s: seq<byte>)
    ensures IsUtf8(s) <==> exists cs: seq<scalar> :: EncodeText(cs) == s
  {
    if IsUtf8(s) {
      var cs := Utf8IsEncoded(s);
    }
    forall cs: seq<scalar> | EncodeText(cs) == s ensures IsUtf8(s) {
      EncodedIsUtf8(cs);
    }
  }
}
