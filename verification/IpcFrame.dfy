/**
 The frame that supervisor and worker exchange over the worker's stdin and
 stdout: a 20-byte big-endian header, then the payload.  Encode and Decode are
 the reference definitions that every reader and writer of the two programs is
 proved against.
 */
module IpcFrame {
  import opened Bytes

  const MAGIC: u32 := 0x5756_3249
  const VERSION: u16 := 1
  const KIND_REQUEST: u16 := 1
  const KIND_RESPONSE: u16 := 2
  const OP_DECRYPT_BATCH: u16 := 7
  const OP_SHUTDOWN: u16 := 8
  const HEADER_LEN: nat := 20
  // The worker refuses larger payloads; the supervisor has no bound but the field width.
  const WORKER_MAX_PAYLOAD: nat := 256 * 1024 * 1024
  const NO_CAP: nat := U32_LIMIT - 1

  datatype Frame = Frame(kind: u16, requestId: u32, opcode: u16, flags: u16, payload: seq<byte>)

  /** The payload length fits the header's 32-bit field. */
  predicate Sendable(f: Frame) {
    |f.payload| < U32_LIMIT
  }

  function Stem(f: Frame): (h: seq<byte>)
    ensures |h| == 16
  {
    U32(MAGIC) + U16(VERSION) + U16(f.kind) + U32(f.requestId) + U16(f.opcode) + U16(f.flags)
  }

  function Header(f: Frame, len: u32): (h: seq<byte>)
    ensures |h| == HEADER_LEN
  {
    Stem(f) + U32(len)
  }

  function Encode(f: Frame): (s: seq<byte>)
    requires Sendable(f)
    ensures |s| == HEADER_LEN + |f.payload|
  {
    Header(f, |f.payload|) + f.payload
  }

  predicate GoodMagic(s: seq<byte>)
    requires |s| >= HEADER_LEN
  {
    ReadU32(s, 0) == MAGIC
  }

  predicate GoodVersion(s: seq<byte>)
    requires |s| >= HEADER_LEN
  {
    ReadU16(s, 4) == VERSION
  }

  function PayloadLen(s: seq<byte>): u32
    requires |s| >= HEADER_LEN
  {
    ReadU32(s, 16)
  }

  /** The frame whose header fields are in s[..20], with the given payload. */
  function FrameAt(s: seq<byte>, payload: seq<byte>): Frame
    requires |s| >= HEADER_LEN
  {
    Frame(ReadU16(s, 6), ReadU32(s, 8), ReadU16(s, 12), ReadU16(s, 14), payload)
  }

  datatype Decoded =
    | NeedMore
    | BadMagic
    | BadVersion
    | TooLarge
    | Got(frame: Frame, size: nat)

  /** What a reader that accepts payloads of at most cap bytes makes of the stream s. */
  function Decode(s: seq<byte>, cap: nat): Decoded {
    if |s| < HEADER_LEN then NeedMore
    else if !GoodMagic(s) then BadMagic
    else if !GoodVersion(s) then BadVersion
    else if PayloadLen(s) > cap then TooLarge
    else if |s| < HEADER_LEN + PayloadLen(s) then NeedMore
    else Got(FrameAt(s, s[HEADER_LEN..HEADER_LEN + PayloadLen(s)]), HEADER_LEN + PayloadLen(s))
  }

  /** Twenty bytes of an encoded frame already tell its header. */
  lemma HeaderFields(f: Frame, len: u32, s: seq<byte>)
    requires Header(f, len) <= s
    ensures GoodMagic(s) && GoodVersion(s) && PayloadLen(s) == len
    ensures forall p: seq<byte> :: FrameAt(s, p) == f.(payload := p)
  {
    var h := Stem(f);
    assert h == s[..16];
    assert s[0..4] == h[0..4] == U32(MAGIC);
    assert s[4..6] == h[4..6] == U16(VERSION);
    assert s[6..8] == h[6..8] == U16(f.kind);
    assert s[8..12] == h[8..12] == U32(f.requestId);
    assert s[12..14] == h[12..14] == U16(f.opcode);
    assert s[14..16] == h[14..16] == U16(f.flags);
    assert s[16..20] == Header(f, len)[16..20] == U32(len);
    ReadU32Back(s, 0, MAGIC);
    ReadU16Back(s, 4, VERSION);
    ReadU16Back(s, 6, f.kind);
    ReadU32Back(s, 8, f.requestId);
    ReadU16Back(s, 12, f.opcode);
    ReadU16Back(s, 14, f.flags);
    ReadU32Back(s, 16, len);
  }

  /** Any part of an encoded frame that covers the header reads as that frame's header. */
  lemma PrefixFields(f: Frame, p: seq<byte>)
    requires Sendable(f) && p <= Encode(f) && |p| >= HEADER_LEN
    ensures GoodMagic(p) && GoodVersion(p) && PayloadLen(p) == |f.payload|
    ensures forall q: seq<byte> :: FrameAt(p, q) == f.(payload := q)
  {
    assert Header(f, |f.payload|) == Encode(f)[..HEADER_LEN] == p[..HEADER_LEN];
    HeaderFields(f, |f.payload|, p);
  }

  /** Decoding inverts encoding whatever follows; over the cap it is refused. */
  lemma DecodeEncode(f: Frame, rest: seq<byte>, cap: nat)
    requires Sendable(f)
    ensures Decode(Encode(f) + rest, cap)
         == if |f.payload| <= cap then Got(f, |Encode(f)|) else TooLarge
  {
    var s := Encode(f) + rest;
    assert Header(f, |f.payload|) <= s;
    HeaderFields(f, |f.payload|, s);
    assert s[HEADER_LEN..HEADER_LEN + |f.payload|] == f.payload;
  }

  /** A proper prefix of an encoded frame is never mistaken for a frame. */
  lemma PrefixNeedsMore(f: Frame, p: seq<byte>, cap: nat)
    requires Sendable(f) && |f.payload| <= cap
    requires p <= Encode(f) && p != Encode(f)
    ensures Decode(p, cap) == NeedMore
  {
    if |p| >= HEADER_LEN {
      PrefixFields(f, p);
    }
  }

  /** The header bytes of an accepted stream are the header of the frame it yields. */
  lemma HeaderBack(s: seq<byte>, payload: seq<byte>)
    requires |s| >= HEADER_LEN && GoodMagic(s) && GoodVersion(s)
    ensures Header(FrameAt(s, payload), PayloadLen(s)) == s[..HEADER_LEN]
  {
    WriteU32Back(s, 0);
    WriteU16Back(s, 4);
    WriteU16Back(s, 6);
    WriteU32Back(s, 8);
    WriteU16Back(s, 12);
    WriteU16Back(s, 14);
    WriteU32Back(s, 16);
    assert s[..HEADER_LEN] == s[0..4] + s[4..6] + s[6..8] + s[8..12] + s[12..14] + s[14..16] + s[16..20];
  }

  /** Only encodings decode: an accepted frame occupies exactly its own encoding. */
  lemma DecodeIsEncoding(s: seq<byte>, cap: nat)
    requires Decode(s, cap).Got?
    ensures var d := Decode(s, cap);
            && Sendable(d.frame) && |d.frame.payload| <= cap
            && d.size <= |s| && s[..d.size] == Encode(d.frame)
  {
    var d := Decode(s, cap);
    HeaderBack(s, d.frame.payload);
    assert s[..d.size] == s[..HEADER_LEN] + s[HEADER_LEN..d.size];
  }

  /** Two readers with different caps agree on every frame both allow. */
  lemma CapsAgree(s: seq<byte>, small: nat, large: nat)
    requires small <= large
    ensures Decode(s, small).Got? <==> Decode(s, large).Got? && |Decode(s, large).frame.payload| <= small
    ensures Decode(s, small).Got? ==> Decode(s, small) == Decode(s, large)
  {
  }

  function EncodeAll(fs: seq<Frame>): seq<byte>
    requires forall f :: f in fs ==> Sendable(f)
  {
    if fs == [] then [] else Encode(fs[0]) + EncodeAll(fs[1..])
  }

  lemma {:induction false} EncodeAllAppend(fs: seq<Frame>, f: Frame)
    requires Sendable(f) && forall g :: g in fs ==> Sendable(g)
    ensures EncodeAll(fs + [f]) == EncodeAll(fs) + Encode(f)
  {
    if fs == [] {
      assert fs + [f] == [f] && [f][1..] == [];
    } else {
      assert (fs + [f])[1..] == fs[1..] + [f];
      EncodeAllAppend(fs[1..], f);
    }
  }

  /** The frames at the start of s, and the bytes left when no more can be decoded. */
  function DecodeAll(s: seq<byte>, cap: nat): (seq<Frame>, seq<byte>)
    decreases |s|
  {
    var d := Decode(s, cap);
    if !d.Got? then ([], s)
    else
      var rest := DecodeAll(s[d.size..], cap);
      ([d.frame] + rest.0, rest.1)
  }

  lemma DecodeAllStep(f: Frame, rest: seq<byte>, cap: nat)
    requires Sendable(f) && |f.payload| <= cap
    ensures var d := DecodeAll(rest, cap); DecodeAll(Encode(f) + rest, cap) == ([f] + d.0, d.1)
  {
    var s := Encode(f) + rest;
    DecodeEncode(f, rest, cap);
    assert s[|Encode(f)|..] == rest;
  }

  /** A concatenation of encoded frames decodes to these frames, with nothing left over. */
  lemma {:induction false} DecodeAllInvertsEncodeAll(fs: seq<Frame>, cap: nat)
    requires cap <= NO_CAP && forall f :: f in fs ==> |f.payload| <= cap
    ensures DecodeAll(EncodeAll(fs), cap) == (fs, [])
  {
    if fs != [] {
      DecodeAllInvertsEncodeAll(fs[1..], cap);
      DecodeAllStep(fs[0], EncodeAll(fs[1..]), cap);
      assert [fs[0]] + fs[1..] == fs;
    }
  }

  predicate Within(fs: seq<Frame>, cap: nat) {
    forall f :: f in fs ==> Sendable(f) && |f.payload| <= cap
  }

  lemma EncodeAllStep(s: seq<byte>, f: Frame, fs: seq<Frame>, rest: seq<byte>, cap: nat)
    requires Sendable(f) && |f.payload| <= cap && Within(fs, cap)
    requires Encode(f) <= s && EncodeAll(fs) + rest == s[|Encode(f)|..]
    ensures Within([f] + fs, cap) && EncodeAll([f] + fs) + rest == s
  {
    assert ([f] + fs)[1..] == fs;
    var head, tail := Encode(f), EncodeAll(fs);
    assert EncodeAll([f] + fs) == head + tail;
    assert head + tail + rest == head + (tail + rest) == s;
  }

  lemma DecodeAllGot(s: seq<byte>, cap: nat)
    requires Decode(s, cap).Got?
    ensures var d := Decode(s, cap);
            && Sendable(d.frame) && |d.frame.payload| <= cap
            && |Encode(d.frame)| == d.size <= |s| && Encode(d.frame) <= s
            && DecodeAll(s, cap) == ([d.frame] + DecodeAll(s[d.size..], cap).0, DecodeAll(s[d.size..], cap).1)
  {
    DecodeIsEncoding(s, cap);
  }

  /** Whatever was decoded is the encoding of the frames that it gave. */
  lemma {:induction false} EncodeAllInvertsDecodeAll(s: seq<byte>, cap: nat)
    requires cap <= NO_CAP
    ensures var d := DecodeAll(s, cap); Within(d.0, cap) && EncodeAll(d.0) + d.1 == s
    decreases |s|
  {
    var d := Decode(s, cap);
    if d.Got? {
      DecodeAllGot(s, cap);
      var tail := s[d.size..];
      EncodeAllInvertsDecodeAll(tail, cap);
      EncodeAllStep(s, d.frame, DecodeAll(tail, cap).0, DecodeAll(tail, cap).1, cap);
    } else {
      assert EncodeAll([]) + s == s;
    }
  }

  /** Decoding a stream whose first twenty bytes were read apart. */
  lemma DecodeInParts(h: seq<byte>, body: seq<byte>, cap: nat)
    requires |h| == HEADER_LEN
    ensures Decode(h + body, cap) ==
            if !GoodMagic(h) then BadMagic
            else if !GoodVersion(h) then BadVersion
            else if PayloadLen(h) > cap then TooLarge
            else if |body| < PayloadLen(h) then NeedMore
            else Got(FrameAt(h, body[..PayloadLen(h)]), HEADER_LEN + PayloadLen(h))
  {
    var s := h + body;
    assert forall i :: 0 <= i < HEADER_LEN ==> s[i] == h[i];
    assert s[HEADER_LEN..] == body;
    if PayloadLen(h) <= |body| {
      assert s[HEADER_LEN..HEADER_LEN + PayloadLen(h)] == body[..PayloadLen(h)];
    }
  }
}
