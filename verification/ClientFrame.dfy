/** The frame of the TCP decrypt protocol: a 16-byte header, then the payload. */
module ClientFrame {
  import opened Bytes
  import opened ByteChannel

  const MAGIC: u32 := 0x5756_3244
  const VERSION: u16 := 1
  const KIND_BATCH: u16 := 1
  const KIND_OK: u16 := 2
  const KIND_ERROR: u16 := 3
  const KIND_CLOSE: u16 := 9
  const HEADER_LEN: nat := 16

  datatype DFrame = DFrame(kind: u16, requestId: u32, payload: seq<byte>)

  predicate Sendable(f: DFrame) { |f.payload| < U32_LIMIT }

  function Header(f: DFrame): (h: seq<byte>)
    requires Sendable(f)
    ensures |h| == HEADER_LEN
  {
    U32(MAGIC) + U16(VERSION) + U16(f.kind) + U32(f.requestId) + U32(|f.payload|)
  }

  function Encode(f: DFrame): seq<byte>
    requires Sendable(f)
  {
    Header(f) + f.payload
  }

  datatype Decoded = NeedMore | Bad | Got(frame: DFrame, size: nat)

  function Decode(s: seq<byte>): Decoded {
    if |s| < HEADER_LEN then NeedMore
    else if ReadU32(s, 0) != MAGIC || ReadU16(s, 4) != VERSION then Bad
    else if |s| < HEADER_LEN + ReadU32(s, 12) then NeedMore
    else Got(DFrame(ReadU16(s, 6), ReadU32(s, 8), s[HEADER_LEN..HEADER_LEN + ReadU32(s, 12)]),
             HEADER_LEN + ReadU32(s, 12))
  }

  lemma DecodeEncode(f: DFrame, rest: seq<byte>)
    requires Sendable(f)
    ensures Decode(Encode(f) + rest) == Got(f, HEADER_LEN + |f.payload|)
  {
    var s := Encode(f) + rest;
    var h := Header(f);
    assert s[..HEADER_LEN] == h;
    assert s[0..4] == h[0..4] == U32(MAGIC);
    assert s[4..6] == h[4..6] == U16(VERSION);
    assert s[6..8] == h[6..8] == U16(f.kind);
    assert s[8..12] == h[8..12] == U32(f.requestId);
    assert s[12..16] == h[12..16] == U32(|f.payload|);
    ReadU32Back(s, 0, MAGIC);
    ReadU16Back(s, 4, VERSION);
    ReadU16Back(s, 6, f.kind);
    ReadU32Back(s, 8, f.requestId);
    ReadU32Back(s, 12, |f.payload|);
    assert s[HEADER_LEN..HEADER_LEN + |f.payload|] == f.payload;
  }

  function EncodeAll(fs: seq<DFrame>): seq<byte>
    requires forall f :: f in fs ==> Sendable(f)
  {
    if fs == [] then [] else EncodeAll(fs[..|fs| - 1]) + Encode(fs[|fs| - 1])
  }

  /** Decoding a stream whose first sixteen bytes were read apart. */
  lemma DecodeInParts(h: seq<byte>, body: seq<byte>)
    requires |h| == HEADER_LEN
    ensures Decode(h + body) ==
            if ReadU32(h, 0) != MAGIC || ReadU16(h, 4) != VERSION then Bad
            else if |body| < ReadU32(h, 12) then NeedMore
            else Got(DFrame(ReadU16(h, 6), ReadU32(h, 8), body[..ReadU32(h, 12)]), HEADER_LEN + ReadU32(h, 12))
  {
    var s := h + body;
    assert forall i :: 0 <= i < HEADER_LEN ==> s[i] == h[i];
    assert s[HEADER_LEN..] == body;
    if ReadU32(h, 12) <= |body| {
      assert s[HEADER_LEN..HEADER_LEN + ReadU32(h, 12)] == body[..ReadU32(h, 12)];
    }
  }

  datatype ReadResult = Frame(frame: DFrame) | EndOfInput | Invalid

  /** protocol::read_decrypt_frame */
  method ReadFrame(c: Channel) returns (r: ReadResult)
    modifies c`input
    ensures Tail(old(c.input), c.input)
    ensures r.Frame? ==> Decode(old(c.input)) == Got(r.frame, |old(c.input)| - |c.input|)
    ensures c.sound ==> (r.Frame? <==> Decode(old(c.input)).Got?)
    ensures r.Invalid? ==> Decode(old(c.input)) == Bad
  {
    ghost var all := c.input;
    var h := new byte[HEADER_LEN];
    var ok := ReadFull(c, h);
    if !ok {
      return EndOfInput;
    }
    ghost var body := c.input;
    assert all == h[..] + body;
    DecodeInParts(h[..], body);
    if ReadU32(h[..], 0) != MAGIC || ReadU16(h[..], 4) != VERSION {
      return Invalid;
    }
    var payload := new byte[ReadU32(h[..], 12)];
    ok := ReadFull(c, payload);
    if !ok {
      return EndOfInput;
    }
    assert body == payload[..] + c.input;
    assert body[..payload.Length] == payload[..];
    return Frame(DFrame(ReadU16(h[..], 6), ReadU32(h[..], 8), payload[..]));
  }

  /** protocol::write_decrypt_frame */
  method WriteFrame(c: Channel, f: DFrame) returns (ok: bool)
    modifies c`output
    ensures old(c.output) <= c.output
    ensures Sendable(f) ==> c.output <= old(c.output) + Encode(f)
    ensures ok ==> Sendable(f) && c.output == old(c.output) + Encode(f)
    ensures c.sound ==> (ok <==> Sendable(f))
    ensures !Sendable(f) ==> c.output == old(c.output)
  {
    if |f.payload| >= U32_LIMIT {
      return false;
    }
    var h := U32(MAGIC) + U16(VERSION) + U16(f.kind) + U32(f.requestId) + U32(|f.payload|);
    ok := WriteFull(c, h);
    if ok {
      ok := WriteFull(c, f.payload);
    }
  }
}
