/**
 base64_encode, with an accumulator of 32 bits that wraps, against the groups of
 RFC 4648 section 4.
 */
module Base64 {
  import opened Bytes

  type sextet = x: int | 0 <= x < 64

  const WORD: int := 0x1_0000_0000

  // ---------------------------------------------------------------- alphabets

  /** The alphabet of section 4. */
  function Letter(x: sextet): byte {
    if x < 26 then 65 + x
    else if x < 52 then 97 + (x - 26)
    else if x < 62 then 48 + (x - 52)
    else if x == 62 then 43 else 47
  }

  /** The two letters that section 5 replaces. */
  function UrlSafe(c: byte): byte {
    if c == 43 then 45 else if c == 47 then 95 else c
  }

  const PAD: byte := 61
  const CR: byte := 13
  const LF: byte := 10

  /** The decoder's table: '=' counts as 0; anything else but the url alphabet is -1. */
  function Value(c: byte): (v: int)
    ensures -1 <= v < 64
  {
    if 65 <= c <= 90 then c - 65
    else if 97 <= c <= 122 then c - 97 + 26
    else if 48 <= c <= 57 then c - 48 + 52
    else if c == 45 then 62
    else if c == 95 then 63
    else if c == PAD then 0
    else -1
  }

  lemma ValueOfLetter(x: sextet)
    ensures Value(UrlSafe(Letter(x))) == x
  {
  }

  // ---------------------------------------------------------------- RFC 4648, section 4

  /** Three bytes as four groups of six bits. */
  function Group(a: byte, b: byte, c: byte): seq<sextet> {
    [a / 4, a % 4 * 16 + b / 16, b % 16 * 4 + c / 64, c % 64]
  }

  /** Groups of three bytes; one or two bytes at the end are filled up with zero bits. */
  function Sextets(data: seq<byte>): seq<sextet> {
    if |data| == 0 then []
    else if |data| == 1 then Group(data[0], 0, 0)[..2]
    else if |data| == 2 then Group(data[0], data[1], 0)[..3]
    else Group(data[0], data[1], data[2]) + Sextets(data[3..])
  }

  function Letters(xs: seq<sextet>): (s: seq<byte>)
    ensures |s| == |xs|
    ensures forall i :: 0 <= i < |xs| ==> s[i] == Letter(xs[i])
  {
    seq(|xs|, i requires 0 <= i < |xs| => Letter(xs[i]))
  }

  function Padding(n: nat): seq<byte> {
    if n % 3 == 1 then [PAD, PAD] else if n % 3 == 2 then [PAD] else []
  }

  function Encode(data: seq<byte>): seq<byte> { Letters(Sextets(data)) + Padding(|data|) }

  // What the groups and the alphabet are, by value.

  lemma AlphabetIs(x: sextet)
    ensures x < 26 ==> Letter(x) == 'A' as int + x
    ensures 26 <= x < 52 ==> Letter(x) == 'a' as int + x - 26
    ensures 52 <= x < 62 ==> Letter(x) == '0' as int + x - 52
    ensures x == 62 ==> Letter(x) == '+' as int && UrlSafe(Letter(x)) == '-' as int
    ensures x == 63 ==> Letter(x) == '/' as int && UrlSafe(Letter(x)) == '_' as int
    ensures x < 62 ==> UrlSafe(Letter(x)) == Letter(x)
    ensures PAD == '=' as int
  {
  }

  /** Four sextets hold the bits of three bytes, in order. */
  lemma GroupBits(a: byte, b: byte, c: byte)
    ensures var g := Group(a, b, c);
            && |g| == 4
            && (((g[0] as int) * 64 + g[1]) * 64 + g[2]) * 64 + g[3] == ((a as int) * 256 + b) * 256 + c
  {
  }

  lemma {:induction false} SextetsAt(data: seq<byte>, i: nat)
    requires 3 * i + 3 <= |data|
    ensures 4 * i + 4 <= |Sextets(data)|
    ensures Sextets(data)[4 * i..4 * i + 4] == Group(data[3 * i], data[3 * i + 1], data[3 * i + 2])
    decreases i
  {
    if i > 0 {
      SextetsAt(data[3..], i - 1);
      assert Sextets(data)[4..] == Sextets(data[3..]);
      assert Sextets(data)[4 * i..4 * i + 4] == Sextets(data[3..])[4 * (i - 1)..4 * (i - 1) + 4];
    }
  }

  /** Every full group of the data, by value: four letters for three bytes. */
  lemma {:induction false} EncodedGroup(data: seq<byte>, i: nat)
    requires 3 * i + 3 <= |data|
    ensures var out, xs, k := Encode(data), Sextets(data), 4 * i;
            && k + 4 <= |xs| <= |out|
            && (((xs[k] as int) * 64 + xs[k + 1]) * 64 + xs[k + 2]) * 64 + xs[k + 3]
               == ((data[3 * i] as int) * 256 + data[3 * i + 1]) * 256 + data[3 * i + 2]
            && out[k] == Letter(xs[k]) && out[k + 1] == Letter(xs[k + 1])
            && out[k + 2] == Letter(xs[k + 2]) && out[k + 3] == Letter(xs[k + 3])
  {
    SextetsAt(data, i);
    GroupBits(data[3 * i], data[3 * i + 1], data[3 * i + 2]);
    var g := Sextets(data)[4 * i..4 * i + 4];
    assert g[0] == Sextets(data)[4 * i] && g[1] == Sextets(data)[4 * i + 1];
    assert g[2] == Sextets(data)[4 * i + 2] && g[3] == Sextets(data)[4 * i + 3];
  }

  lemma {:induction false} SextetsEnd(data: seq<byte>)
    ensures var xs, n, m := Sextets(data), |data|, |data| / 3;
            && (n % 3 == 0 ==> |xs| == 4 * m)
            && (n % 3 == 1 ==>
                  |xs| == 4 * m + 2 && (xs[4 * m] as int) * 64 + xs[4 * m + 1] == (data[n - 1] as int) * 16)
            && (n % 3 == 2 ==>
                  && |xs| == 4 * m + 3
                  && ((xs[4 * m] as int) * 64 + xs[4 * m + 1]) * 64 + xs[4 * m + 2]
                     == ((data[n - 2] as int) * 256 + data[n - 1]) * 4)
    decreases |data|
  {
    if |data| >= 3 {
      SextetsEnd(data[3..]);
    }
  }

  /** And what is left over: two letters and two pads for one byte, three and one for two. */
  lemma {:induction false} EncodedEnd(data: seq<byte>)
    ensures var out, xs, n, m := Encode(data), Sextets(data), |data|, |data| / 3;
            && (n % 3 == 0 ==> |xs| == 4 * m && |out| == 4 * m)
            && (n % 3 == 1 ==>
                  && |xs| == 4 * m + 2 && |out| == 4 * m + 4
                  && (xs[4 * m] as int) * 64 + xs[4 * m + 1] == (data[n - 1] as int) * 16
                  && out[4 * m..] == [Letter(xs[4 * m]), Letter(xs[4 * m + 1]), 61, 61])
            && (n % 3 == 2 ==>
                  && |xs| == 4 * m + 3 && |out| == 4 * m + 4
                  && ((xs[4 * m] as int) * 64 + xs[4 * m + 1]) * 64 + xs[4 * m + 2]
                     == ((data[n - 2] as int) * 256 + data[n - 1]) * 4
                  && out[4 * m..] == [Letter(xs[4 * m]), Letter(xs[4 * m + 1]), Letter(xs[4 * m + 2]), 61])
  {
    SextetsEnd(data);
  }

  // ---------------------------------------------------------------- the encoder

  /** The sextets that are complete once data has been read: a last group of one or two bytes
      still lacks its last one. */
  function Complete(data: seq<byte>): seq<sextet> {
    if |data| == 0 then []
    else if |data| == 1 then [data[0] / 4]
    else if |data| == 2 then [data[0] / 4, data[0] % 4 * 16 + data[1] / 16]
    else Group(data[0], data[1], data[2]) + Complete(data[3..])
  }

  datatype Phase = Zero | One | Two

  function PhaseOf(n: nat): Phase {
    if n % 3 == 0 then Zero else if n % 3 == 1 then One else Two
  }

  /** The bits that wait for the next sextet. */
  function Held(data: seq<byte>): (h: nat)
    ensures PhaseOf(|data|).Zero? ==> h == 0
    ensures PhaseOf(|data|).One? ==> h < 4
    ensures PhaseOf(|data|).Two? ==> h < 16
  {
    if |data| == 0 then 0
    else if |data| == 1 then data[0] % 4
    else if |data| == 2 then data[1] % 16
    else Held(data[3..])
  }

  /** What one more byte completes: one sextet, or two where it ends a group. */
  function NewSextets(phase: Phase, held: nat, b: byte): seq<sextet>
    requires phase.One? ==> held < 4
    requires phase.Two? ==> held < 16
  {
    match phase
    case Zero => [b / 4]
    case One => [held * 16 + b / 16]
    case Two => [held * 4 + b / 64, b % 64]
  }

  function NewHeld(phase: Phase, b: byte): nat {
    match phase
    case Zero => b % 4
    case One => b % 16
    case Two => 0
  }

  lemma {:induction false} CompleteMore(data: seq<byte>, b: byte)
    ensures Complete(data + [b]) == Complete(data) + NewSextets(PhaseOf(|data|), Held(data), b)
    ensures Held(data + [b]) == NewHeld(PhaseOf(|data|), b)
    decreases |data|
  {
    if |data| >= 3 {
      var rest := data[3..];
      assert (data + [b])[3..] == rest + [b];
      assert PhaseOf(|rest|) == PhaseOf(|data|);
      CompleteMore(rest, b);
    } else {
      CompleteShort(data, b);
    }
  }

  lemma {:induction false} CompleteShort(data: seq<byte>, b: byte)
    requires |data| < 3
    ensures Complete(data + [b]) == Complete(data) + NewSextets(PhaseOf(|data|), Held(data), b)
    ensures Held(data + [b]) == NewHeld(PhaseOf(|data|), b)
  {
    if |data| == 2 {
      assert (data + [b])[3..] == [];
    }
  }

  /** The sextet that the encoder adds at the end, filled up with zero bits. */
  function LastSextet(phase: Phase, held: nat): seq<sextet>
    requires phase.One? ==> held < 4
    requires phase.Two? ==> held < 16
  {
    match phase
    case Zero => []
    case One => [held * 16]
    case Two => [held * 4]
  }

  lemma {:induction false} SextetsFromComplete(data: seq<byte>)
    ensures Sextets(data) == Complete(data) + LastSextet(PhaseOf(|data|), Held(data))
    decreases |data|
  {
    if |data| >= 3 {
      SextetsFromComplete(data[3..]);
    }
  }

  lemma PaddingOfRest(data: seq<byte>)
    requires |data| >= 3
    ensures Padding(|data[3..]|) == Padding(|data|)
  {
    assert |data[3..]| % 3 == |data| % 3;
  }

  lemma OneGroupMore(n: nat)
    ensures (n + 3 + 2) / 3 == (n + 2) / 3 + 1
  {
  }

  lemma {:induction false} SextetCount(data: seq<byte>)
    ensures |Sextets(data)| + |Padding(|data|)| == (|data| + 2) / 3 * 4
    decreases |data|
  {
    if |data| >= 3 {
      var rest := data[3..];
      PaddingOfRest(data);
      OneGroupMore(|rest|);
      SextetCount(rest);
    }
  }

  // The 32-bit word after a shift by eight and a new byte, and the few low bits it is read for.

  /** The word keeps its low 24 bits and gains a byte. */
  lemma Shifted(w: nat, b: byte)
    ensures (w * 256 + b) % WORD == w % 0x100_0000 * 256 + b
  {
    var q, h := w / 0x100_0000, w % 0x100_0000;
    assert w * 256 + b == q * WORD + (h * 256 + b);
  }

  lemma LowBits(w: nat)
    ensures w % 0x100_0000 % 4 == w % 4 && w % 0x100_0000 % 16 == w % 16
  {
    var q, h := w / 0x100_0000, w % 0x100_0000;
    assert w == 16 * (q * 0x10_0000) + h;
    assert w == 4 * (q * 0x40_0000) + h;
  }

  lemma FirstOfGroup(w: nat, b: byte)
    ensures var w' := (w * 256 + b) % WORD; w' / 4 % 64 == b / 4 && w' % 4 == b % 4
  {
    Shifted(w, b);
    var h := w % 0x100_0000;
    assert (h * 256 + b) / 4 == h * 64 + b / 4;
  }

  lemma SecondOfGroup(w: nat, b: byte)
    ensures var w' := (w * 256 + b) % WORD; w' / 16 % 64 == w % 4 * 16 + b / 16 && w' % 16 == b % 16
  {
    Shifted(w, b);
    LowBits(w);
    var h := w % 0x100_0000;
    var k, m, t, l := h / 4, h % 4, b / 16, b % 16;
    Over16(64 * k + (16 * m + t), l);
    Over64(k, 16 * m + t);
  }

  lemma ThirdOfGroup(w: nat, b: byte)
    ensures var w' := (w * 256 + b) % WORD; w' / 64 % 64 == w % 16 * 4 + b / 64 && w' % 64 == b % 64
  {
    Shifted(w, b);
    LowBits(w);
    var h := w % 0x100_0000;
    var k, m, t, l := h / 16, h % 16, b / 64, b % 64;
    Over64(64 * k + (4 * m + t), l);
    Over64(k, 4 * m + t);
  }

  lemma Over16(x: int, r: int)
    requires 0 <= r < 16
    ensures (16 * x + r) / 16 == x && (16 * x + r) % 16 == r
  {
  }

  lemma Over64(x: int, r: int)
    requires 0 <= r < 64
    ensures (64 * x + r) / 64 == x && (64 * x + r) % 64 == r
  {
  }

  function Pow2(n: nat): nat
    requires n <= 8
  {
    if n == 0 then 1 else if n == 1 then 2 else if n == 2 then 4 else if n == 3 then 8 else if n == 4 then 16
    else if n == 5 then 32 else if n == 6 then 64 else if n == 7 then 128 else 256
  }

  /** The 32-bit word holds the waiting bits, for the phase it is in. */
  predicate Holds(val: nat, phase: Phase, held: nat) {
    match phase
    case Zero => true
    case One => val % 4 == held
    case Two => val % 16 == held
  }

  lemma WordStep(val: nat, phase: Phase, held: nat, b: byte)
    requires Holds(val, phase, held)
    requires phase.One? ==> held < 4
    requires phase.Two? ==> held < 16
    ensures var w := (val * 256 + b) % WORD;
            && phase.Zero? ==> [w / 4 % 64] == NewSextets(phase, held, b) && w % 4 == NewHeld(phase, b)
    ensures var w := (val * 256 + b) % WORD;
            && phase.One? ==> [w / 16 % 64] == NewSextets(phase, held, b) && w % 16 == NewHeld(phase, b)
    ensures var w := (val * 256 + b) % WORD;
            && phase.Two? ==> [w / 64 % 64, w % 64] == NewSextets(phase, held, b)
  {
    match phase
    case Zero => FirstOfGroup(val, b);
    case One => SecondOfGroup(val, b);
    case Two => ThirdOfGroup(val, b);
  }

  /** The letters that one byte completes, taken out of the word at valb, valb - 6, ... */
  method PushLetters(ret: seq<byte>, val: nat, valb: nat) returns (out: seq<byte>, rest: int)
    requires valb == 2 || valb == 4 || valb == 6
    ensures rest == (if valb == 6 then -6 else valb - 6)
    ensures valb == 2 ==> out == ret + Letters([val / 4 % 64])
    ensures valb == 4 ==> out == ret + Letters([val / 16 % 64])
    ensures valb == 6 ==> out == ret + Letters([val / 64 % 64, val % 64])
  {
    out, rest := ret, valb;
    while rest >= 0
      invariant rest == valb || rest == valb - 6 || (valb == 6 && rest == -6)
      invariant rest == valb ==> out == ret
      invariant rest == -4 ==> out == ret + [Letter(val / 4 % 64)]
      invariant rest == -2 ==> out == ret + [Letter(val / 16 % 64)]
      invariant rest == 0 ==> out == ret + [Letter(val / 64 % 64)]
      invariant rest == -6 ==> out == ret + [Letter(val / 64 % 64), Letter(val % 64)]
      decreases rest + 6
    {
      out := out + [Letter(val / Pow2(rest) % 64)];
      rest := rest - 6;
    }
  }

  /** valb at the start of a phase. */
  function Start(phase: Phase): int {
    match phase
    case Zero => -6
    case One => -4
    case Two => -2
  }

  function NextPhase(phase: Phase): Phase {
    match phase
    case Zero => One
    case One => Two
    case Two => Zero
  }

  lemma PhaseStep(n: nat)
    ensures PhaseOf(n + 1) == NextPhase(PhaseOf(n))
  {
  }

  /** One byte of the encoder's loop. */
  method EncodeByte(ret: seq<byte>, val: nat, valb: int, b: byte, ghost data: seq<byte>)
      returns (ret': seq<byte>, val': nat, valb': int)
    requires val < WORD && valb == Start(PhaseOf(|data|))
    requires ret == Letters(Complete(data)) && Holds(val, PhaseOf(|data|), Held(data))
    ensures val' < WORD && valb' == Start(PhaseOf(|data + [b]|))
    ensures ret' == Letters(Complete(data + [b])) && Holds(val', PhaseOf(|data + [b]|), Held(data + [b]))
  {
    CompleteMore(data, b);
    PhaseStep(|data|);
    WordStep(val, PhaseOf(|data|), Held(data), b);
    val' := (val * 256 + b) % WORD;
    ret', valb' := PushLetters(ret, val', valb + 8);
  }

  /** The padding loop. */
  method Pad(ret: seq<byte>, n: nat) returns (out: seq<byte>)
    requires |ret| + |Padding(n)| == (n + 2) / 3 * 4
    ensures out == ret + Padding(n)
  {
    out := ret;
    while |out| % 4 != 0
      invariant |ret| <= |out| && out <= ret + Padding(n)
      decreases |ret| + |Padding(n)| - |out|
    {
      out := out + [PAD];
    }
  }

  lemma LastLetter(w: nat, phase: Phase, held: nat)
    requires Holds(w, phase, held)
    requires phase.One? ==> held < 4
    requires phase.Two? ==> held < 16
    ensures !phase.Zero? ==> [w * 256 % WORD / Pow2(Start(phase) + 8) % 64] == LastSextet(phase, held)
  {
    SecondOfGroup(w, 0);
    ThirdOfGroup(w, 0);
  }

  /** playback.cpp base64_encode: val is a 32-bit word that wraps; still, data of any length is
      encoded as the RFC says. */
  method Base64Encode(data: seq<byte>) returns (ret: seq<byte>)
    ensures ret == Encode(data)
  {
    ret := [];
    var val: nat := 0;
    var valb: int := -6;
    for i := 0 to |data|
      invariant val < WORD && valb == Start(PhaseOf(i))
      invariant ret == Letters(Complete(data[..i]))
      invariant Holds(val, PhaseOf(i), Held(data[..i]))
    {
      assert data[..i] + [data[i]] == data[..i + 1];
      ret, val, valb := EncodeByte(ret, val, valb, data[i], data[..i]);
    }
    assert data[..|data|] == data;
    SextetsFromComplete(data);
    LastLetter(val, PhaseOf(|data|), Held(data));
    if valb > -6 {
      ret := ret + [Letter(val * 256 % WORD / Pow2(valb + 8) % 64)];
    }
    assert ret == Letters(Sextets(data));
    SextetCount(data);
    ret := Pad(ret, |data|);
  }
}
