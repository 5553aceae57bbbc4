/**
 base64url_decode, with its signed 32-bit accumulator, inverts the encoding of RFC 4648
 after the alphabet change of section 5 and without the padding.
 */
module Base64Url {
  import opened Wrappers
  import opened Bytes
  import opened Base64

  // ---------------------------------------------------------------- what a text stands for

  // The three bytes that four sextets hold.
  function First(p: sextet, q: sextet): byte { (p as int) * 4 + q / 16 }
  function Second(q: sextet, r: sextet): byte { (q % 16) * 16 + r / 4 }
  function Third(r: sextet, t: sextet): byte { (r % 4) * 64 + t }

  /** The bytes that a sequence of sextets holds; up to five bits left over are dropped. */
  function Decoded(xs: seq<sextet>): seq<byte> {
    if |xs| <= 1 then []
    else if |xs| == 2 then [First(xs[0], xs[1])]
    else if |xs| == 3 then [First(xs[0], xs[1]), Second(xs[1], xs[2])]
    else [First(xs[0], xs[1]), Second(xs[1], xs[2]), Third(xs[2], xs[3])] + Decoded(xs[4..])
  }

  /** Line ends are skipped; a byte outside the alphabet makes the text malformed. */
  function Values(text: seq<byte>): Option<seq<sextet>> {
    if text == [] then Some([])
    else
      var rest := Values(text[1..]);
      if Value(text[0]) >= 0 then (if rest.Some? then Some([Value(text[0])] + rest.value) else None)
      else if text[0] == CR || text[0] == LF then rest
      else None
  }

  function Decode(text: seq<byte>): seq<byte> {
    if Values(text).Some? then Decoded(Values(text).value) else []
  }

  // ---------------------------------------------------------------- inversion

  lemma FirstBack(a: byte, b: byte)
    ensures First(a / 4, a % 4 * 16 + b / 16) == a
  {
    assert (a % 4 * 16 + b / 16) / 16 == a % 4;
  }

  lemma SecondBack(a: byte, b: byte, c: byte)
    ensures Second(a % 4 * 16 + b / 16, b % 16 * 4 + c / 64) == b
  {
    assert (a % 4 * 16 + b / 16) % 16 == b / 16;
    assert (b % 16 * 4 + c / 64) / 4 == b % 16;
  }

  lemma ThirdBack(b: byte, c: byte)
    ensures Third(b % 16 * 4 + c / 64, c % 64) == c
  {
    assert (b % 16 * 4 + c / 64) % 4 == c / 64;
  }

  lemma DecodedFour(p: sextet, q: sextet, r: sextet, t: sextet, rest: seq<sextet>)
    ensures Decoded([p, q, r, t] + rest) == [First(p, q), Second(q, r), Third(r, t)] + Decoded(rest)
  {
    var xs := [p, q, r, t] + rest;
    assert xs[4..] == rest && xs[0] == p && xs[1] == q && xs[2] == r && xs[3] == t;
  }

  lemma DecodedGroup(a: byte, b: byte, c: byte, rest: seq<sextet>)
    ensures Decoded(Group(a, b, c) + rest) == [a, b, c] + Decoded(rest)
  {
    var q, r := a % 4 * 16 + b / 16, b % 16 * 4 + c / 64;
    DecodedFour(a / 4, q, r, c % 64, rest);
    FirstBack(a, b);
    SecondBack(a, b, c);
    ThirdBack(b, c);
  }

  lemma DecodedOne(a: byte)
    ensures Decoded(Group(a, 0, 0)[..2]) == [a]
  {
    FirstBack(a, 0);
    assert Group(a, 0, 0)[..2] == [a / 4, a % 4 * 16 + 0 / 16];
  }

  lemma DecodedTwo(a: byte, b: byte)
    ensures Decoded(Group(a, b, 0)[..3]) == [a, b]
  {
    FirstBack(a, b);
    SecondBack(a, b, 0);
    assert Group(a, b, 0)[..3] == [a / 4, a % 4 * 16 + b / 16, b % 16 * 4 + 0 / 64];
  }

  /** Decoding gives back the bytes that were encoded. */
  lemma {:induction false} DecodedBack(data: seq<byte>)
    ensures Decoded(Sextets(data)) == data
    decreases |data|
  {
    if |data| == 0 {
    } else if |data| == 1 {
      DecodedOne(data[0]);
    } else if |data| == 2 {
      DecodedTwo(data[0], data[1]);
    } else {
      DecodedGroup(data[0], data[1], data[2], Sextets(data[3..]));
      DecodedBack(data[3..]);
      assert data == [data[0], data[1], data[2]] + data[3..];
    }
  }

  lemma GroupFilled(a: byte, b: byte)
    ensures Group(a, 0, 0)[..2] + Zeros(2) == Group(a, 0, 0)
    ensures Group(a, b, 0)[..3] + Zeros(1) == Group(a, b, 0)
  {
  }

  lemma {:induction false} DecodedShortPadded(data: seq<byte>)
    requires 1 <= |data| <= 2
    ensures Decoded(Sextets(data) + Zeros(|Padding(|data|)|)) == data + Zeros(|Padding(|data|)|)
  {
    var a, b: byte := data[0], if |data| == 2 then data[1] else 0;
    GroupFilled(a, b);
    DecodedGroup(a, b, 0, []);
    assert Group(a, b, 0) + [] == Group(a, b, 0);
    assert Decoded([]) == [];
    assert data + Zeros(3 - |data|) == [a, b, 0];
  }

  /** Padding counted as zero sextets turns into zero bytes at the end. */
  lemma {:induction false} DecodedPadded(data: seq<byte>)
    ensures Decoded(Sextets(data) + Zeros(|Padding(|data|)|)) == data + Zeros(|Padding(|data|)|)
    decreases |data|
  {
    if |data| == 0 {
    } else if |data| <= 2 {
      DecodedShortPadded(data);
    } else {
      var a, b, c, rest := data[0], data[1], data[2], data[3..];
      PaddingOfRest(data);
      DecodedPadded(rest);
      DecodedPrefix(a, b, c, Sextets(rest), rest, Zeros(|Padding(|data|)|));
      assert data == [a, b, c] + rest;
    }
  }

  lemma {:induction false} DecodedPrefix(a: byte, b: byte, c: byte, xs: seq<sextet>, rest: seq<byte>, zeros: seq<byte>)
    requires forall i :: 0 <= i < |zeros| ==> zeros[i] < 64
    requires Decoded(xs + zeros) == rest + zeros
    ensures Decoded(Group(a, b, c) + xs + zeros) == [a, b, c] + rest + zeros
  {
    DecodedGroup(a, b, c, xs + zeros);
    assert Group(a, b, c) + xs + zeros == Group(a, b, c) + (xs + zeros);
  }

  function Zeros(n: nat): (z: seq<byte>)
    ensures |z| == n && forall i :: 0 <= i < n ==> z[i] == 0
  {
    seq(n, i => 0)
  }

  /** The url-safe letters of some sextets. */
  function UrlText(xs: seq<sextet>): (s: seq<byte>)
    ensures |s| == |xs|
  {
    seq(|xs|, i requires 0 <= i < |xs| => UrlSafe(Letters(xs)[i]))
  }

  function StripLineEnds(text: seq<byte>): seq<byte> {
    if text == [] then []
    else (if text[0] == CR || text[0] == LF then [] else [text[0]]) + StripLineEnds(text[1..])
  }

  lemma {:induction false} ValuesOfUrl(xs: seq<sextet>)
    ensures Values(UrlText(xs)) == Some(xs)
  {
    if xs != [] {
      ValueOfLetter(xs[0]);
      assert UrlText(xs)[0] == UrlSafe(Letter(xs[0])) && UrlText(xs)[1..] == UrlText(xs[1..]);
      ValuesOfUrl(xs[1..]);
      assert [xs[0]] + xs[1..] == xs;
    } else {
      assert UrlText(xs) == [];
    }
  }

  lemma {:induction false} LineEndsDoNotMatter(text: seq<byte>)
    ensures Values(text) == Values(StripLineEnds(text))
  {
    if text != [] {
      LineEndsDoNotMatter(text[1..]);
      var rest := StripLineEnds(text[1..]);
      if text[0] == CR || text[0] == LF {
        assert StripLineEnds(text) == [] + rest == rest;
      } else {
        assert StripLineEnds(text) == [text[0]] + rest;
        assert ([text[0]] + rest)[1..] == rest;
      }
    }
  }

  /** The url-safe, unpadded encoding of any data, with line ends anywhere, decodes to it. */
  lemma DecodeInvertsEncode(data: seq<byte>, text: seq<byte>)
    requires StripLineEnds(text) == UrlText(Sextets(data))
    ensures Decode(text) == data
  {
    LineEndsDoNotMatter(text);
    ValuesOfUrl(Sextets(data));
    DecodedBack(data);
  }

  /** The table knows the letters of section 5 and, as if it were one, the padding character. */
  lemma TableIsAlphabet(c: byte)
    ensures Value(c) >= 0 <==> c == PAD || exists x: sextet :: c == UrlSafe(Letter(x))
    ensures Value(c) >= 0 && c != PAD ==> c == UrlSafe(Letter(Value(c)))
  {
    forall x: sextet ensures Value(UrlSafe(Letter(x))) == x {
      ValueOfLetter(x);
    }
    if Value(c) >= 0 && c != PAD {
      var x: sextet := Value(c);
      assert c == UrlSafe(Letter(x));
    }
  }

  /** A text is malformed, and decodes to nothing, as soon as it has one byte that is neither in
      the table nor a line end. */
  lemma {:induction false} MalformedExactly(text: seq<byte>)
    ensures Values(text).Some? <==>
            forall i :: 0 <= i < |text| ==> Value(text[i]) >= 0 || text[i] == CR || text[i] == LF
    ensures Values(text).None? ==> Decode(text) == []
  {
    if text != [] {
      var rest := text[1..];
      MalformedExactly(rest);
      assert forall i :: 0 <= i < |rest| ==> rest[i] == text[i + 1];
      assert forall i :: 1 <= i < |text| ==> text[i] == rest[i - 1];
    }
  }

  lemma {:induction false} ValuesOfPads(xs: seq<sextet>, pads: seq<byte>)
    requires forall i :: 0 <= i < |pads| ==> pads[i] == PAD
    ensures Values(UrlText(xs) + pads) == Some(xs + Zeros(|pads|))
  {
    var text := UrlText(xs) + pads;
    if xs != [] {
      ValueOfLetter(xs[0]);
      assert text[0] == UrlSafe(Letter(xs[0])) && text[1..] == UrlText(xs[1..]) + pads;
      ValuesOfPads(xs[1..], pads);
      assert [xs[0]] + (xs[1..] + Zeros(|pads|)) == xs + Zeros(|pads|);
    } else if pads != [] {
      assert UrlText([]) == [];
      assert text[1..] == UrlText([]) + pads[1..];
      ValuesOfPads([], pads[1..]);
      assert text[0] == PAD;
      assert [0] + ([] + Zeros(|pads[1..]|)) == [] + Zeros(|pads|);
    } else {
      assert text == [];
    }
  }

  /** Padding is not ignored, although the code means to: padded text decodes to the data
      followed by one zero byte for each '='. */
  lemma PaddingBecomesZeros(data: seq<byte>)
    ensures Decode(UrlText(Sextets(data)) + Padding(|data|)) == data + Zeros(|Padding(|data|)|)
    ensures Decode(UrlText(Sextets(data)) + Padding(|data|)) == data <==> |data| % 3 == 0
  {
    var pads := Padding(|data|);
    ValuesOfPads(Sextets(data), pads);
    assert Zeros(|pads|) == seq(|pads|, i => 0);
    DecodedPadded(data);
    assert |data + Zeros(|pads|)| == |data| + |pads|;
  }

  // ---------------------------------------------------------------- the decoder

  /** 32-bit two's complement. */
  function Signed(x: int): (w: int)
    ensures -0x8000_0000 <= w < 0x8000_0000
  {
    x - (x + 0x8000_0000) / WORD * WORD
  }

  /** The bytes that are complete after some sextets, and the bits that wait for the next. */
  function Waiting(xs: seq<sextet>): nat {
    if |xs| == 0 then 0
    else if |xs| == 1 then xs[0]
    else if |xs| == 2 then xs[1] % 16
    else if |xs| == 3 then xs[2] % 4
    else Waiting(xs[4..])
  }

  datatype Quarter = Q0 | Q1 | Q2 | Q3

  function QuarterOf(n: nat): Quarter {
    if n % 4 == 0 then Q0 else if n % 4 == 1 then Q1 else if n % 4 == 2 then Q2 else Q3
  }

  function NextQuarter(q: Quarter): Quarter {
    match q case Q0 => Q1 case Q1 => Q2 case Q2 => Q3 case Q3 => Q0
  }

  lemma QuarterStep(n: nat)
    ensures QuarterOf(n + 1) == NextQuarter(QuarterOf(n))
  {
  }

  /** The bits counter at the start of a quarter. */
  function BitsAt(q: Quarter): nat {
    match q case Q0 => 0 case Q1 => 6 case Q2 => 4 case Q3 => 2
  }

  lemma {:induction false} WaitingRange(xs: seq<sextet>)
    ensures QuarterOf(|xs|).Q1? ==> Waiting(xs) < 64
    ensures QuarterOf(|xs|).Q2? ==> Waiting(xs) < 16
    ensures QuarterOf(|xs|).Q3? ==> Waiting(xs) < 4
    decreases |xs|
  {
    if |xs| >= 4 {
      WaitingRange(xs[4..]);
    }
  }

  /** The byte that one more sextet completes. */
  function NewByte(q: Quarter, waiting: nat, v: sextet): seq<byte>
    requires q.Q1? ==> waiting < 64
    requires q.Q2? ==> waiting < 16
    requires q.Q3? ==> waiting < 4
  {
    match q
    case Q0 => []
    case Q1 => [waiting * 4 + v / 16]
    case Q2 => [waiting * 16 + v / 4]
    case Q3 => [waiting * 64 + v]
  }

  function NewWaiting(q: Quarter, v: sextet): nat {
    match q case Q0 => v case Q1 => v % 16 case Q2 => v % 4 case Q3 => 0
  }

  /** What is decoded and waiting after one more sextet. */
  predicate Grows(xs: seq<sextet>, v: sextet)
  {
    var q := QuarterOf(|xs|);
    WaitingRange(xs);
    && Decoded(xs + [v]) == Decoded(xs) + NewByte(q, Waiting(xs), v)
    && Waiting(xs + [v]) == NewWaiting(q, v)
  }

  lemma {:induction false} DecodedMore(xs: seq<sextet>, v: sextet)
    ensures Grows(xs, v)
    decreases |xs|
  {
    if |xs| >= 4 {
      GrowsBehindGroup(xs, v);
      DecodedMore(xs[4..], v);
    } else {
      FirstQuarters(xs, v);
    }
  }

  lemma GrowsBehindGroup(xs: seq<sextet>, v: sextet)
    requires |xs| >= 4
    ensures Grows(xs[4..], v) ==> Grows(xs, v)
  {
    var rest := xs[4..];
    assert (xs + [v])[4..] == rest + [v];
    assert QuarterOf(|rest|) == QuarterOf(|xs|);
    var head := [First(xs[0], xs[1]), Second(xs[1], xs[2]), Third(xs[2], xs[3])];
    assert Decoded(xs + [v]) == head + Decoded(rest + [v]);
    assert Decoded(xs) == head + Decoded(rest);
    assert Waiting(xs + [v]) == Waiting(rest + [v]) && Waiting(xs) == Waiting(rest);
  }

  lemma FirstQuarters(xs: seq<sextet>, v: sextet)
    requires |xs| < 4
    ensures Grows(xs, v)
  {
    if |xs| == 0 {
      assert xs + [v] == [v];
    } else if |xs| == 1 {
      assert xs + [v] == [xs[0], v];
    } else if |xs| == 2 {
      assert xs + [v] == [xs[0], xs[1], v];
    } else {
      assert xs + [v] == [xs[0], xs[1], xs[2], v] + [];
      DecodedFour(xs[0], xs[1], xs[2], v, []);
    }
  }

  predicate HoldsBits(val: int, q: Quarter, waiting: nat) {
    match q
    case Q0 => true
    case Q1 => val % 64 == waiting
    case Q2 => val % 16 == waiting
    case Q3 => val % 4 == waiting
  }

  // The accumulator after a shift by six and a new sextet: only multiples of 2^32 are lost.

  lemma Lost(x: int) returns (j: int)
    ensures Signed(x) == x + j * WORD
  {
    j := -((x + 0x8000_0000) / WORD);
  }

  lemma Over4(x: int, r: int)
    requires 0 <= r < 4
    ensures (4 * x + r) / 4 == x && (4 * x + r) % 4 == r
  {
  }

  lemma Over256(x: int, r: int)
    requires 0 <= r < 256
    ensures (256 * x + r) % 256 == r
  {
  }

  lemma QuarterWord(val: int, v: sextet)
    ensures var w := Signed(val * 64 + v);
            w % 64 == v && w % 16 == v % 16 && w % 4 == v % 4
  {
    var j := Lost(val * 64 + v);
    var k := val + j * 0x400_0000;
    var v16, r16, v4, r4 := v / 16, v % 16, v / 4, v % 4;
    Over64(k, v);
    Over16(4 * k + v16, r16);
    Over4(16 * k + v4, r4);
  }

  lemma SecondByte(val: int, v: sextet)
    ensures Signed(val * 64 + v) / 16 % 256 == val % 64 * 4 + v / 16
  {
    var j := Lost(val * 64 + v);
    var k, m, h, l := val / 64, val % 64, v / 16, v % 16;
    Over16(256 * (k + j * 0x10_0000) + (m * 4 + h), l);
    Over256(k + j * 0x10_0000, m * 4 + h);
  }

  lemma ThirdByte(val: int, v: sextet)
    ensures Signed(val * 64 + v) / 4 % 256 == val % 16 * 16 + v / 4
  {
    var j := Lost(val * 64 + v);
    var k, m, h, l := val / 16, val % 16, v / 4, v % 4;
    Over4(256 * (k + j * 0x40_0000) + (m * 16 + h), l);
    Over256(k + j * 0x40_0000, m * 16 + h);
  }

  lemma FourthByte(val: int, v: sextet)
    ensures Signed(val * 64 + v) % 256 == val % 4 * 64 + v
  {
    var j := Lost(val * 64 + v);
    var k, m := val / 4, val % 4;
    Over256(k + j * 0x100_0000, m * 64 + v);
  }

  /** One step of the accumulator: the byte that comes out, and what waits. */
  lemma AccumulatorStep(val: int, q: Quarter, waiting: nat, v: sextet)
    requires HoldsBits(val, q, waiting)
    requires q.Q1? ==> waiting < 64
    requires q.Q2? ==> waiting < 16
    requires q.Q3? ==> waiting < 4
    ensures var w := Signed(val * 64 + v);
            && HoldsBits(w, NextQuarter(q), NewWaiting(q, v))
            && (!q.Q0? ==> [w / Pow2(BitsAt(NextQuarter(q))) % 256] == NewByte(q, waiting, v))
  {
    QuarterWord(val, v);
    match q
    case Q0 =>
    case Q1 => SecondByte(val, v);
    case Q2 => ThirdByte(val, v);
    case Q3 => FourthByte(val, v);
  }

  /** One character of the decoder's loop, for a legal letter. */
  method DecodeLetter(out: seq<byte>, val: int, bits: nat, v: sextet, ghost xs: seq<sextet>)
      returns (out': seq<byte>, val': int, bits': nat)
    requires out == Decoded(xs) && bits == BitsAt(QuarterOf(|xs|)) && HoldsBits(val, QuarterOf(|xs|), Waiting(xs))
    ensures out' == Decoded(xs + [v]) && bits' == BitsAt(QuarterOf(|xs + [v]|))
    ensures HoldsBits(val', QuarterOf(|xs + [v]|), Waiting(xs + [v]))
  {
    WaitingRange(xs);
    DecodedMore(xs, v);
    QuarterStep(|xs|);
    AccumulatorStep(val, QuarterOf(|xs|), Waiting(xs), v);
    val' := Signed(val * 64 + v);
    out', bits' := out, bits + 6;
    if bits' >= 8 {
      bits' := bits' - 8;
      out' := out' + [val' / Pow2(bits') % 256];
    }
  }

  /** tokens.cpp base64url_decode */
  method Base64UrlDecode(text: seq<byte>) returns (out: seq<byte>)
    ensures out == Decode(text)
  {
    out := [];
    var bits: nat, val: int := 0, 0;
    ghost var xs: seq<sextet> := [];
    assert text[0..] == text;
    PrependNothing(Values(text));
    for i := 0 to |text|
      invariant out == Decoded(xs)
      invariant bits == BitsAt(QuarterOf(|xs|)) && HoldsBits(val, QuarterOf(|xs|), Waiting(xs))
      invariant Values(text) == Prepend(xs, Values(text[i..]))
    {
      assert text[i..][0] == text[i] && text[i..][1..] == text[i + 1..];
      var v := Value(text[i]);
      if v < 0 {
        if text[i] == PAD || text[i] == CR || text[i] == LF {
          continue;
        }
        return [];
      }
      out, val, bits := DecodeLetter(out, val, bits, v, xs);
      PrependOne(xs, v, Values(text[i + 1..]));
      xs := xs + [v];
    }
    assert text[|text|..] == [] && xs + [] == xs;
  }

  function Prepend(xs: seq<sextet>, rest: Option<seq<sextet>>): Option<seq<sextet>> {
    if rest.Some? then Some(xs + rest.value) else None
  }

  lemma PrependNothing(rest: Option<seq<sextet>>)
    ensures Prepend([], rest) == rest
  {
    if rest.Some? {
      assert [] + rest.value == rest.value;
    }
  }

  lemma PrependOne(xs: seq<sextet>, v: sextet, rest: Option<seq<sextet>>)
    ensures Prepend(xs, Prepend([v], rest)) == Prepend(xs + [v], rest)
  {
    if rest.Some? {
      assert xs + ([v] + rest.value) == xs + [v] + rest.value;
    }
  }
}
