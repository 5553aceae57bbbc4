/**
 The IPC frame readers and writers of both programs over a byte stream, and the
 worker program's main loop.
 */
module IpcStream {
  import opened Wrappers
  import opened Bytes
  import opened IpcFrame
  import opened ByteChannel

  // ---------------------------------------------------------------- the worker program (C++)

  /** read_frame: succeeds exactly on a frame of at most 256 MiB, and consumes just that frame. */
  method ReadFrame(c: Channel) returns (r: Option<Frame>)
    modifies c`input
    ensures Tail(old(c.input), c.input)
    ensures r.Some? ==> Decode(old(c.input), WORKER_MAX_PAYLOAD) == Got(r.value, |old(c.input)| - |c.input|)
    ensures c.sound ==> (r.Some? <==> Decode(old(c.input), WORKER_MAX_PAYLOAD).Got?)
  {
    ghost var all := c.input;
    var h := new byte[HEADER_LEN];
    var ok := ReadFull(c, h);
    if !ok {
      return None;
    }
    ghost var body := c.input;
    assert all == h[..] + body;
    DecodeInParts(h[..], body, WORKER_MAX_PAYLOAD);
    if ReadU32(h[..], 0) != MAGIC || ReadU16(h[..], 4) != VERSION {
      return None;
    }
    var payloadLen := ReadU32(h[..], 16);
    if payloadLen > WORKER_MAX_PAYLOAD {
      return None;
    }
    var payload := new byte[payloadLen];
    if payloadLen > 0 {
      ok := ReadFull(c, payload);
      if !ok {
        return None;
      }
    }
    assert body == payload[..] + c.input;
    assert body[..payloadLen] == payload[..];
    return Some(FrameAt(h[..], payload[..]));
  }

  /** What write_frame puts on the wire: the length field keeps the low 32 bits only. */
  function Wire(f: Frame): seq<byte> {
    Header(f, |f.payload| % U32_LIMIT) + f.payload
  }

  lemma WireIsEncoding(f: Frame)
    requires Sendable(f)
    ensures Wire(f) == Encode(f)
  {
  }

  /** What the worker writes is read back exactly if the payload fits the length field. */
  lemma WireReadsBack(f: Frame)
    ensures Decode(Wire(f), NO_CAP) == Got(f, |Wire(f)|) <==> Sendable(f)
  {
    if Sendable(f) {
      WireIsEncoding(f);
      DecodeEncode(f, [], NO_CAP);
      assert Encode(f) + [] == Encode(f);
    } else if Decode(Wire(f), NO_CAP) == Got(f, |Wire(f)|) {
      DecodeIsEncoding(Wire(f), NO_CAP);
    }
  }

  /** write_frame */
  method WriteFrame(c: Channel, f: Frame) returns (ok: bool)
    modifies c`output
    ensures old(c.output) <= c.output <= old(c.output) + Wire(f)
    ensures ok ==> c.output == old(c.output) + Wire(f)
    ensures c.sound ==> ok
  {
    var h := U32(MAGIC);
    h := h + U16(VERSION);
    h := h + U16(f.kind);
    h := h + U32(f.requestId);
    h := h + U16(f.opcode);
    h := h + U16(f.flags);
    h := h + U32(|f.payload| % U32_LIMIT);
    assert h == Header(f, |f.payload| % U32_LIMIT);
    ok := WriteFull(c, h);
    if ok && f.payload != [] {
      ok := WriteFull(c, f.payload);
    }
  }

  /** The answer to a request after the requests before it, which stand for what the account and
      the caches have become; None where dispatch ends the process. */
  type Dispatch = (seq<Frame>, Frame) -> Option<Frame>

  /** The output of the main loop on the input s, after the requests past. */
  function Served(s: seq<byte>, past: seq<Frame>, dispatch: Dispatch): seq<byte>
    decreases |s|
  {
    var d := Decode(s, WORKER_MAX_PAYLOAD);
    if !d.Got? then []
    else if d.frame.kind != KIND_REQUEST then Served(s[d.size..], past, dispatch)
    else if dispatch(past, d.frame).None? then []
    else Wire(dispatch(past, d.frame).value) + Served(s[d.size..], past + [d.frame], dispatch)
  }

  /** The main loop's output from a stream that begins with the frame f. */
  function ServedFrom(f: Frame, rest: seq<byte>, past: seq<Frame>, dispatch: Dispatch): seq<byte> {
    if f.kind != KIND_REQUEST then Served(rest, past, dispatch)
    else if dispatch(past, f).None? then []
    else Wire(dispatch(past, f).value) + Served(rest, past + [f], dispatch)
  }

  lemma ServedGot(s: seq<byte>, rest: seq<byte>, f: Frame, past: seq<Frame>, dispatch: Dispatch)
    requires Tail(s, rest) && Decode(s, WORKER_MAX_PAYLOAD) == Got(f, |s| - |rest|)
    ensures |rest| < |s|
    ensures Served(s, past, dispatch) == ServedFrom(f, rest, past, dispatch)
  {
    var n := |s| - |rest|;
    assert n >= HEADER_LEN && s[n..] == rest;
  }

  /** run_ipc_worker: one reply per request frame, in order, until the input ends or is bad. */
  method RunIpcWorker(c: Channel, dispatch: Dispatch)
    modifies c
    ensures old(c.output) <= c.output <= old(c.output) + Served(old(c.input), [], dispatch)
    ensures c.sound ==> c.output == old(c.output) + Served(old(c.input), [], dispatch)
  {
    ghost var total := c.output + Served(c.input, [], dispatch);
    var past: seq<Frame> := [];
    while true
      invariant old(c.output) <= c.output
      invariant c.output + Served(c.input, past, dispatch) == total
      decreases |c.input|
    {
      ghost var was, wrote := c.input, c.output;
      var req := ReadFrame(c);
      if req.None? {
        return;
      }
      ServedGot(was, c.input, req.value, past, dispatch);
      if req.value.kind != KIND_REQUEST {
        continue;
      }
      var resp := dispatch(past, req.value);
      if resp.None? {
        return;
      }
      past := past + [req.value];
      ghost var rest := Served(c.input, past, dispatch);
      assert total == (wrote + Wire(resp.value)) + rest;
      var ok := WriteFrame(c, resp.value);
      if !ok {
        return;
      }
    }
  }

  /** The answers to the request frames among fs, in order. */
  function Answers(fs: seq<Frame>, past: seq<Frame>, dispatch: Dispatch): seq<byte>
    decreases |fs|
  {
    if fs == [] then []
    else if fs[0].kind != KIND_REQUEST then Answers(fs[1..], past, dispatch)
    else if dispatch(past, fs[0]).None? then []
    else Wire(dispatch(past, fs[0]).value) + Answers(fs[1..], past + [fs[0]], dispatch)
  }

  /** However the frames of a session are cut into chunks, each request is answered once and
      in order, other frames are passed over, and nothing is left between frames. */
  lemma {:induction false} SessionIsServed(fs: seq<Frame>, past: seq<Frame>, dispatch: Dispatch)
    requires forall f :: f in fs ==> |f.payload| <= WORKER_MAX_PAYLOAD
    ensures Served(EncodeAll(fs), past, dispatch) == Answers(fs, past, dispatch)
    decreases |fs|
  {
    if fs != [] {
      var rest := EncodeAll(fs[1..]);
      DecodeEncode(fs[0], rest, WORKER_MAX_PAYLOAD);
      assert EncodeAll(fs)[|Encode(fs[0])|..] == rest;
      SessionIsServed(fs[1..], if fs[0].kind == KIND_REQUEST then past + [fs[0]] else past, dispatch);
    }
  }

  /** What is answered to requests only, where each gets an answer: the answers, in order, each with
      all requests before it in view. */
  lemma {:induction false} EveryRequestIsAnswered(fs: seq<Frame>, past: seq<Frame>, dispatch: Dispatch,
                                                  replies: seq<Frame>)
    requires |replies| == |fs|
    requires forall i :: 0 <= i < |fs| ==> fs[i].kind == 1 && dispatch(past + fs[..i], fs[i]) == Some(replies[i])
    ensures Answers(fs, past, dispatch) == Wires(replies)
    decreases |fs|
  {
    if fs != [] {
      assert past + fs[..0] == past;
      forall i | 0 <= i < |fs[1..]|
        ensures dispatch((past + [fs[0]]) + fs[1..][..i], fs[1..][i]) == Some(replies[1..][i])
      {
        assert (past + [fs[0]]) + fs[1..][..i] == past + fs[..i + 1];
      }
      EveryRequestIsAnswered(fs[1..], past + [fs[0]], dispatch, replies[1..]);
    }
  }

  function Wires(fs: seq<Frame>): seq<byte> {
    if fs == [] then [] else Wire(fs[0]) + Wires(fs[1..])
  }

  /** A frame that is no request is passed over, and one to which dispatch has no answer is the last. */
  lemma FirstFrameDecides(f: Frame, fs: seq<Frame>, past: seq<Frame>, dispatch: Dispatch)
    ensures f.kind != 1 ==> Answers([f] + fs, past, dispatch) == Answers(fs, past, dispatch)
    ensures f.kind == 1 && dispatch(past, f).None? ==> Answers([f] + fs, past, dispatch) == []
    ensures f.kind == 1 && dispatch(past, f).Some? ==>
              Answers([f] + fs, past, dispatch)
              == Wire(dispatch(past, f).value) + Answers(fs, past + [f], dispatch)
  {
    assert ([f] + fs)[1..] == fs;
  }

  /** A frame over the cap ends the session: neither it nor what follows is ever served. */
  lemma OversizedEndsSession(f: Frame, rest: seq<byte>, past: seq<Frame>, dispatch: Dispatch)
    requires Sendable(f) && |f.payload| > WORKER_MAX_PAYLOAD
    ensures Served(Encode(f) + rest, past, dispatch) == []
  {
    DecodeEncode(f, rest, WORKER_MAX_PAYLOAD);
  }

  // ---------------------------------------------------------------- the supervisor program (Rust)

  /** protocol::write_frame */
  method RustWriteFrame(c: Channel, f: Frame) returns (ok: bool)
    modifies c`output
    ensures !Sendable(f) ==> !ok && c.output == old(c.output)
    ensures Sendable(f) ==> old(c.output) <= c.output <= old(c.output) + Encode(f)
    ensures ok ==> c.output == old(c.output) + Encode(f)
    ensures c.sound ==> (ok <==> Sendable(f))
  {
    if |f.payload| > NO_CAP {
      return false;
    }
    var parts := [U32(MAGIC), U16(VERSION), U16(f.kind), U32(f.requestId), U16(f.opcode), U16(f.flags),
                  U32(|f.payload|), f.payload];
    PartsOfFrame(f, parts);
    var i := 0;
    while i < |parts|
      invariant 0 <= i <= |parts|
      invariant c.output == old(c.output) + Join(parts, i)
    {
      JoinGrows(parts, i + 1);
      assert old(c.output) + Join(parts, i + 1) == (old(c.output) + Join(parts, i)) + parts[i];
      ok := WriteFull(c, parts[i]);
      if !ok {
        return;
      }
      i := i + 1;
    }
    return true;
  }

  /** The first n parts, one after the other. */
  function Join(parts: seq<seq<byte>>, n: nat): seq<byte>
    requires n <= |parts|
  {
    if n == 0 then [] else Join(parts, n - 1) + parts[n - 1]
  }

  lemma {:induction false} JoinGrows(parts: seq<seq<byte>>, n: nat)
    requires n <= |parts|
    ensures Join(parts, n) <= Join(parts, |parts|)
    decreases |parts| - n
  {
    if n < |parts| {
      JoinGrows(parts, n + 1);
    }
  }

  lemma {:induction false} PartsOfFrame(f: Frame, parts: seq<seq<byte>>)
    requires Sendable(f)
    requires parts == [U32(MAGIC), U16(VERSION), U16(f.kind), U32(f.requestId), U16(f.opcode), U16(f.flags),
                       U32(|f.payload|), f.payload]
    ensures Join(parts, |parts|) == Encode(f)
  {
    assert Join(parts, 1) == U32(MAGIC);
    assert Join(parts, 3) == U32(MAGIC) + U16(VERSION) + U16(f.kind);
    assert Join(parts, 5) == U32(MAGIC) + U16(VERSION) + U16(f.kind) + U32(f.requestId) + U16(f.opcode);
    assert Join(parts, 6) == Stem(f);
    assert Join(parts, 7) == Header(f, |f.payload|);
  }

  /** protocol::read_frame: as the worker's reader, but without a cap. */
  method RustReadFrame(c: Channel) returns (r: Option<Frame>)
    modifies c`input
    ensures Tail(old(c.input), c.input)
    ensures r.Some? ==> Decode(old(c.input), NO_CAP) == Got(r.value, |old(c.input)| - |c.input|)
    ensures c.sound ==> (r.Some? <==> Decode(old(c.input), NO_CAP).Got?)
  {
    ghost var all := c.input;
    var h := new byte[HEADER_LEN];
    var ok := ReadFull(c, h);
    if !ok {
      return None;
    }
    ghost var body := c.input;
    assert all == h[..] + body;
    DecodeInParts(h[..], body, NO_CAP);
    if ReadU32(h[..], 0) != MAGIC {
      return None;
    }
    if ReadU16(h[..], 4) != VERSION {
      return None;
    }
    var payload := new byte[ReadU32(h[..], 16)];
    ok := ReadFull(c, payload);
    if !ok {
      return None;
    }
    assert body == payload[..] + c.input;
    assert body[..payload.Length] == payload[..];
    return Some(FrameAt(h[..], payload[..]));
  }
}
