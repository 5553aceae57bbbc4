/** One TCP client of the decrypt service, from its first frame to the end of its session. */
module ClientSession {
  import opened Wrappers
  import opened Bytes
  import opened ByteChannel
  import opened SampleList
  import opened ClientFrame
  import opened DecryptBatch
  import opened DecryptReply

  /** A decrypt request as the worker got it, and the payload of its binary reply, if any. */
  datatype Call = Call(request: seq<byte>, reply: Option<seq<byte>>)

  type Replies = seq<Option<seq<byte>>>

  function RepliesOf(calls: seq<Call>): (replies: Replies)
    ensures |replies| == |calls|
    ensures forall i :: 0 <= i < |calls| ==> replies[i] == calls[i].reply
  {
    seq(|calls|, i requires 0 <= i < |calls| => calls[i].reply)
  }

  function Requests(calls: seq<Call>): (requests: seq<seq<byte>>)
    ensures |requests| == |calls|
    ensures forall i :: 0 <= i < |calls| ==> requests[i] == calls[i].request
  {
    seq(|calls|, i requires 0 <= i < |calls| => calls[i].request)
  }

  /** Within one frame, if anything. */
  predicate Fits(reply: Option<seq<byte>>) { reply.Some? ==> |reply.value| < U32_LIMIT }

  /** The worker behind the supervisor.  What it makes of each request is given; only what fits one
      frame comes back. */
  class WorkerLink {
    const answer: seq<seq<byte>> -> Option<seq<byte>>
    var calls: seq<Call>

    constructor (answer: seq<seq<byte>> -> Option<seq<byte>>)
      ensures this.answer == answer && calls == []
    {
      this.answer, calls := answer, [];
    }

    /** The requests so far, this one included, decide on its reply. */
    method Exchange(request: seq<byte>) returns (reply: Option<seq<byte>>)
      modifies this`calls
      ensures calls == old(calls) + [Call(request, reply)]
      ensures reply == if Fits(answer(Requests(calls))) then answer(Requests(calls)) else None
    {
      reply := answer(Requests(calls) + [request]);
      if !Fits(reply) {
        reply := None;
      }
      calls := calls + [Call(request, reply)];
      assert Requests(calls) == Requests(old(calls)) + [request];
    }
  }

  /** The frames at the head of a stream, up to its end or the first bad header. */
  function Frames(s: seq<byte>): seq<DFrame>
    decreases |s|
  {
    var d := Decode(s);
    if d.Got? then [d.frame] + Frames(s[d.size..]) else []
  }

  predicate IsBatch(f: DFrame) { f.kind == KIND_BATCH && RustAccepts(f.payload) }

  /** A reply that can be handed on. */
  predicate Good(reply: Option<seq<byte>>) { reply.Some? && ReplyLayout(reply.value).Some? }

  function OkFrame(f: DFrame, reply: seq<byte>): DFrame { DFrame(KIND_OK, f.requestId, reply) }

  function ErrorFrame(f: DFrame, message: seq<byte>): DFrame { DFrame(KIND_ERROR, f.requestId, message) }

  // ---------------------------------------------------------------- what a session sends

  datatype Mark = Closing | Serving | Other

  function MarkOf(f: DFrame): Mark {
    if f.kind == KIND_CLOSE then Closing else if IsBatch(f) then Serving else Other
  }

  function Marks(fs: seq<DFrame>): (marks: seq<Mark>)
    ensures |marks| == |fs|
    ensures forall i :: 0 <= i < |fs| ==> marks[i] == MarkOf(fs[i])
  {
    seq(|fs|, i requires 0 <= i < |fs| => MarkOf(fs[i]))
  }

  function Goods(replies: Replies): (goods: seq<bool>)
    ensures |goods| == |replies|
    ensures forall i :: 0 <= i < |replies| ==> goods[i] == Good(replies[i])
  {
    seq(|replies|, i requires 0 <= i < |replies| => Good(replies[i]))
  }

  /** The first n frames are batches, with good replies. */
  predicate AllGood(marks: seq<Mark>, goods: seq<bool>, n: nat) {
    n <= |marks| && n <= |goods| && forall i :: 0 <= i < n ==> marks[i].Serving? && goods[i]
  }

  /** For how many batches the worker's reply is handed on: as many as come first. */
  function HandedOn(marks: seq<Mark>, goods: seq<bool>): (n: nat)
    ensures AllGood(marks, goods, n)
    ensures n < |marks| && n < |goods| ==> !marks[n].Serving? || !goods[n]
  {
    if marks == [] || goods == [] || !marks[0].Serving? || !goods[0] then 0
    else
      var n := HandedOn(marks[1..], goods[1..]);
      assert forall i :: 0 < i < n + 1 ==> marks[i] == marks[1..][i - 1] && goods[i] == goods[1..][i - 1];
      n + 1
  }

  /** Whether an error follows: for a frame that is no batch to serve, or for a bad reply. */
  predicate Fails(marks: seq<Mark>, goods: seq<bool>) {
    var n := HandedOn(marks, goods);
    n < |marks| && (marks[n].Other? || (marks[n].Serving? && n < |goods|))
  }

  /** The session got to its end: the worker has answered every batch it should have, and none
      besides. */
  predicate Complete(marks: seq<Mark>, goods: seq<bool>) {
    var n := HandedOn(marks, goods);
    |goods| == n + if n < |marks| && marks[n].Serving? then 1 else 0
  }

  predicate AllSendable(fs: seq<DFrame>) { forall f :: f in fs ==> Sendable(f) }

  /** OK frames for the first n frames, and an error for the next one if it failed. */
  function FramesSent(fs: seq<DFrame>, replies: Replies, n: nat, failed: bool, message: seq<byte>): (out: seq<DFrame>)
    requires n <= |fs| && n <= |replies| && (failed ==> n < |fs|)
    requires forall i :: 0 <= i < n ==> replies[i].Some?
    ensures |out| == n + if failed then 1 else 0
    ensures forall i :: 0 <= i < n ==> out[i] == OkFrame(fs[i], replies[i].value)
    ensures failed ==> out[n] == ErrorFrame(fs[n], message)
  {
    seq(n, i requires 0 <= i < n => OkFrame(fs[i], replies[i].value))
    + if failed then [ErrorFrame(fs[n], message)] else []
  }

  /** The frames sent in a session of frames fs, when the worker's replies to its batches are
      these; message is the text of the one error there may be. */
  function SessionOutput(fs: seq<DFrame>, replies: Replies, message: seq<byte>): (out: seq<DFrame>) {
    var marks, goods := Marks(fs), Goods(replies);
    FramesSent(fs, replies, HandedOn(marks, goods), Fails(marks, goods), message)
  }

  lemma HandedOnIs(marks: seq<Mark>, goods: seq<bool>, n: nat)
    requires AllGood(marks, goods, n)
    requires n == |marks| || n == |goods| || !marks[n].Serving? || !goods[n]
    ensures HandedOn(marks, goods) == n
  {
  }

  /** The i-th frame sent has the id of the i-th frame received; it is OK for a batch, with the
      worker's very reply, or the last one and an ERROR. */
  lemma SessionTrace(fs: seq<DFrame>, replies: Replies, message: seq<byte>, i: nat)
    requires i < |SessionOutput(fs, replies, message)|
    ensures var out := SessionOutput(fs, replies, message);
            && i < |fs| && out[i].requestId == fs[i].requestId && fs[i].kind != 9
            && if out[i].kind == 2
               then fs[i].kind == 1 && RustAccepts(fs[i].payload) && i < |replies| && replies[i] == Some(out[i].payload)
               else out[i].kind == 3 && out[i].payload == message && i == |out| - 1
  {
    var marks, goods := Marks(fs), Goods(replies);
    var n := HandedOn(marks, goods);
    if i < n {
      assert marks[i] == MarkOf(fs[i]) == Serving && goods[i] == Good(replies[i]);
    }
  }

  /** Why a session that got to its end has ended: an ERROR went out, and this for a frame that is
      no acceptable batch or got no good reply; or every frame before a CLOSE, or before the end
      of the input, was a batch and was answered. */
  lemma SessionEnds(fs: seq<DFrame>, replies: Replies, message: seq<byte>)
    requires Complete(Marks(fs), Goods(replies))
    ensures var out := SessionOutput(fs, replies, message);
            var n := |out|;
            && n <= |fs|
            && if n > 0 && out[n - 1].kind == 3
               then fs[n - 1].kind != 9
                    && (fs[n - 1].kind == 1 && RustAccepts(fs[n - 1].payload) ==>
                          |replies| == n && !Good(replies[n - 1]))
               else |replies| == n && (n == |fs| || fs[n].kind == 9)
  {
    var marks, goods := Marks(fs), Goods(replies);
    var n := HandedOn(marks, goods);
    if n < |fs| {
      assert marks[n] == MarkOf(fs[n]);
    }
    if n < |replies| {
      assert goods[n] == Good(replies[n]);
    }
  }

  // ---------------------------------------------------------------- one frame

  datatype Reaction = Close | Refuse | Reply(frame: DFrame)

  /** Worker::decrypt_batch: the worker is sent the client's very bytes, and what it answers is
      taken exactly if it is the encoding of some samples. */
  method Relay(w: WorkerLink, body: seq<byte>, batch: Batch) returns (r: Option<Samples>)
    requires |body| < U32_LIMIT && Layout(body) == Some(batch)
    modifies w
    ensures |w.calls| == |old(w.calls)| + 1 && old(w.calls) <= w.calls
    ensures var call := w.calls[|old(w.calls)|];
            && call.request == body
            && Fits(call.reply)
            && (r.Some? <==> Good(call.reply))
            && (r.Some? ==> ReplyFits(r.value) && EncodeReply(r.value) == call.reply.value)
  {
    RelayIsByteIdentical(body);
    var payload := RustEncode(batch);
    var reply := w.Exchange(payload.value);
    if reply.None? {
      return None;
    }
    r := RustParseReply(reply.value);
    if r.Some? {
      ReplyIsEncoding(reply.value);
    }
  }

  /** What the session does about one frame: a CLOSE closes it; for a batch the worker is called,
      once, and a good reply is handed on; anything else is refused. */
  method React(w: WorkerLink, f: DFrame) returns (r: Reaction)
    requires Sendable(f)
    modifies w
    ensures r.Close? <==> f.kind == 9
    ensures f.kind != 9 && !(f.kind == 1 && RustAccepts(f.payload)) ==> r == Refuse
    ensures !(f.kind == 1 && RustAccepts(f.payload)) ==> w.calls == old(w.calls)
    ensures f.kind == 1 && RustAccepts(f.payload) ==>
              && |w.calls| == |old(w.calls)| + 1 && old(w.calls) <= w.calls
              && var call := w.calls[|old(w.calls)|];
                 && call.request == f.payload
                 && r == if Good(call.reply) then Reply(DFrame(2, f.requestId, call.reply.value)) else Refuse
    ensures r.Reply? ==> Sendable(r.frame)
  {
    if f.kind == KIND_CLOSE {
      return Close;
    }
    if f.kind != KIND_BATCH {
      return Refuse;
    }
    var parsed := RustParse(f.payload);
    if parsed.Err? {
      return Refuse;
    }
    var plain := Relay(w, f.payload, parsed.value);
    if plain.None? {
      return Refuse;
    }
    var payload := RustBuildReply(plain.value);
    r := Reply(DFrame(KIND_OK, f.requestId, payload.value));
  }

  // ---------------------------------------------------------------- the loop

  /** Since the output was `out`, exactly the frames fs were written. */
  predicate Wrote(out: seq<byte>, output: seq<byte>, fs: seq<DFrame>) {
    AllSendable(fs) && output == out + EncodeAll(fs)
  }

  /** ... or all of them but a last part. */
  predicate WrotePart(out: seq<byte>, output: seq<byte>, fs: seq<DFrame>) {
    AllSendable(fs) && out <= output <= out + EncodeAll(fs)
  }

  lemma {:induction false} EncodeAllPrefix(fs: seq<DFrame>, more: seq<DFrame>)
    requires AllSendable(fs) && AllSendable(more)
    ensures AllSendable(fs + more) && EncodeAll(fs) <= EncodeAll(fs + more)
    decreases |more|
  {
    if more == [] {
      assert fs + more == fs;
    } else {
      var n := |more| - 1;
      assert (fs + more)[..|fs + more| - 1] == fs + more[..n];
      EncodeAllPrefix(fs, more[..n]);
    }
  }

  lemma PartOfMore(out: seq<byte>, output: seq<byte>, fs: seq<DFrame>, more: seq<DFrame>)
    requires WrotePart(out, output, fs) && AllSendable(more)
    ensures WrotePart(out, output, fs + more)
  {
    EncodeAllPrefix(fs, more);
  }

  /** One more frame to the client; on a faulty stream perhaps not all of it. */
  method Deliver(c: Channel, ghost out: seq<byte>, ghost sent: seq<DFrame>, f: DFrame) returns (ok: bool)
    requires Wrote(out, c.output, sent) && Sendable(f)
    modifies c`output
    ensures WrotePart(out, c.output, sent + [f])
    ensures ok ==> Wrote(out, c.output, sent + [f])
    ensures c.sound ==> ok
  {
    assert (sent + [f])[..|sent|] == sent;
    assert out + EncodeAll(sent + [f]) == c.output + Encode(f);
    ok := WriteFrame(c, f);
  }

  lemma OneFrame(s: seq<byte>, rest: seq<byte>, f: DFrame)
    requires Tail(s, rest) && Decode(s) == Got(f, |s| - |rest|)
    ensures |rest| < |s| && Frames(s) == [f] + Frames(rest)
  {
    assert s[|s| - |rest|..] == rest;
  }

  /** The worker was called for the first frames, with their bytes. */
  predicate Called(fs: seq<DFrame>, calls: seq<Call>) {
    |calls| <= |fs| && forall i :: 0 <= i < |calls| ==> calls[i].request == fs[i].payload
  }

  /** What was sent while all went well. */
  function SentFor(fs: seq<DFrame>, calls: seq<Call>): (out: seq<DFrame>)
    requires |calls| <= |fs| && AllGood(Marks(fs), Goods(RepliesOf(calls)), |calls|)
  {
    RepliesAreThere(calls);
    FramesSent(fs, RepliesOf(calls), |calls|, false, [])
  }

  lemma RepliesAreThere(calls: seq<Call>)
    requires forall i :: 0 <= i < |calls| ==> Goods(RepliesOf(calls))[i]
    ensures forall i :: 0 <= i < |calls| ==> RepliesOf(calls)[i].Some?
  {
    forall i | 0 <= i < |calls| ensures RepliesOf(calls)[i].Some? {
      assert Goods(RepliesOf(calls))[i] == Good(RepliesOf(calls)[i]);
    }
  }

  /** In the middle of a session, with rest still to come. */
  predicate Going(fs: seq<DFrame>, rest: seq<DFrame>, calls: seq<Call>) {
    && Called(fs, calls) && AllGood(Marks(fs), Goods(RepliesOf(calls)), |calls|) && fs[|calls|..] == rest
  }

  /** How a session ends, of which the frames sent were written wholly, or in part. */
  predicate Ended(fs: seq<DFrame>, calls: seq<Call>, message: seq<byte>, out: seq<byte>, output: seq<byte>,
                  whole: bool)
  {
    && Called(fs, calls)
    && var sent := SessionOutput(fs, RepliesOf(calls), message);
       && WrotePart(out, output, sent)
       && (whole ==> Complete(Marks(fs), Goods(RepliesOf(calls))) && Wrote(out, output, sent))
  }

  lemma NextFrame(fs: seq<DFrame>, f: DFrame, rest: seq<DFrame>, n: nat)
    requires n <= |fs| && fs[n..] == [f] + rest
    ensures n < |fs| && fs[n] == f && fs[n + 1..] == rest && Marks(fs)[n] == MarkOf(f)
  {
    assert fs[n] == fs[n..][0];
    assert fs[n + 1..] == fs[n..][1..];
  }

  /** The output of a session whose first n batches were handed on, and no more. */
  lemma OutputIs(fs: seq<DFrame>, calls: seq<Call>, n: nat, message: seq<byte>)
    requires AllGood(Marks(fs), Goods(RepliesOf(calls)), n)
    requires n == |fs| || n == |calls| || !Marks(fs)[n].Serving? || !Goods(RepliesOf(calls))[n]
    ensures HandedOn(Marks(fs), Goods(RepliesOf(calls))) == n
    ensures forall i :: 0 <= i < n ==> RepliesOf(calls)[i].Some?
    ensures SessionOutput(fs, RepliesOf(calls), message)
         == FramesSent(fs, RepliesOf(calls), n, Fails(Marks(fs), Goods(RepliesOf(calls))), message)
  {
    HandedOnIs(Marks(fs), Goods(RepliesOf(calls)), n);
  }

  lemma ErrorAppended(fs: seq<DFrame>, replies: Replies, n: nat, message: seq<byte>)
    requires n < |fs| && n <= |replies| && forall i :: 0 <= i < n ==> replies[i].Some?
    ensures FramesSent(fs, replies, n, true, message)
         == FramesSent(fs, replies, n, false, []) + [ErrorFrame(fs[n], message)]
  {
  }

  /** The session stops without an error: before a CLOSE, at the end of the input, or, where the
      stream is faulty, anywhere. */
  lemma StopsBetween(fs: seq<DFrame>, rest: seq<DFrame>, calls: seq<Call>, message: seq<byte>,
                     out: seq<byte>, output: seq<byte>, whole: bool)
    requires Going(fs, rest, calls) && |message| < U32_LIMIT
    requires WrotePart(out, output, SentFor(fs, calls))
    requires whole ==> Wrote(out, output, SentFor(fs, calls)) && (rest == [] || MarkOf(rest[0]) == Closing)
    ensures Ended(fs, calls, message, out, output, whole)
  {
    var n := |calls|;
    OutputIs(fs, calls, n, message);
    if Fails(Marks(fs), Goods(RepliesOf(calls))) {
      ErrorAppended(fs, RepliesOf(calls), n, message);
      PartOfMore(out, output, SentFor(fs, calls), [ErrorFrame(fs[n], message)]);
    }
    if whole {
      StopsCleanly(fs, rest, calls);
    }
  }

  lemma StopsCleanly(fs: seq<DFrame>, rest: seq<DFrame>, calls: seq<Call>)
    requires Going(fs, rest, calls) && (rest == [] || MarkOf(rest[0]) == Closing)
    requires HandedOn(Marks(fs), Goods(RepliesOf(calls))) == |calls|
    ensures !Fails(Marks(fs), Goods(RepliesOf(calls))) && Complete(Marks(fs), Goods(RepliesOf(calls)))
  {
    if rest != [] {
      assert rest == [rest[0]] + rest[1..];
      NextFrame(fs, rest[0], rest[1..], |calls|);
    }
  }

  /** Replies that agree on the first n calls. */
  lemma RepliesAgree(before: seq<Call>, calls: seq<Call>)
    requires before <= calls
    ensures forall i :: 0 <= i < |before| ==>
              RepliesOf(calls)[i] == RepliesOf(before)[i] && Goods(RepliesOf(calls))[i] == Goods(RepliesOf(before))[i]
  {
  }

  lemma SentAgrees(fs: seq<DFrame>, before: seq<Call>, calls: seq<Call>)
    requires before <= calls && |before| <= |fs| && AllGood(Marks(fs), Goods(RepliesOf(before)), |before|)
    ensures AllGood(Marks(fs), Goods(RepliesOf(calls)), |before|)
    ensures forall i :: 0 <= i < |before| ==> RepliesOf(calls)[i].Some?
    ensures FramesSent(fs, RepliesOf(calls), |before|, false, []) == SentFor(fs, before)
  {
    RepliesAgree(before, calls);
    RepliesAreThere(before);
  }

  /** What an ERROR is sent for: a frame that is no batch to serve, or a batch whose call was in vain. */
  predicate Failed(f: DFrame, before: seq<Call>, calls: seq<Call>) {
    || (MarkOf(f) == Other && calls == before)
    || (MarkOf(f) == Serving && |calls| == |before| + 1 && before <= calls
        && calls[|before|].request == f.payload && !Good(calls[|before|].reply))
  }

  /** It has handed on what was good before frame n, and an error follows. */
  predicate FailedAt(fs: seq<DFrame>, calls: seq<Call>, n: nat) {
    var marks, goods := Marks(fs), Goods(RepliesOf(calls));
    Called(fs, calls) && HandedOn(marks, goods) == n && Fails(marks, goods) && Complete(marks, goods)
  }

  /** ... which is no batch to serve, */
  lemma FailsOnFrame(fs: seq<DFrame>, f: DFrame, rest: seq<DFrame>, calls: seq<Call>)
    requires Going(fs, [f] + rest, calls) && MarkOf(f) == Other
    ensures FailedAt(fs, calls, |calls|)
  {
    NextFrame(fs, f, rest, |calls|);
    HandedOnIs(Marks(fs), Goods(RepliesOf(calls)), |calls|);
  }

  lemma CalledOnceMore(fs: seq<DFrame>, f: DFrame, rest: seq<DFrame>, before: seq<Call>, calls: seq<Call>)
    requires Going(fs, [f] + rest, before) && |calls| == |before| + 1 && before <= calls
    requires calls[|before|].request == f.payload
    ensures Called(fs, calls)
  {
    NextFrame(fs, f, rest, |before|);
  }

  lemma GoodBefore(fs: seq<DFrame>, before: seq<Call>, calls: seq<Call>)
    requires AllGood(Marks(fs), Goods(RepliesOf(before)), |before|) && before <= calls
    ensures AllGood(Marks(fs), Goods(RepliesOf(calls)), |before|)
  {
    RepliesAgree(before, calls);
  }

  /** ... or whose call was in vain. */
  lemma FailsOnReply(fs: seq<DFrame>, f: DFrame, rest: seq<DFrame>, before: seq<Call>, calls: seq<Call>)
    requires Going(fs, [f] + rest, before) && MarkOf(f) == Serving && |calls| == |before| + 1 && before <= calls
    requires calls[|before|].request == f.payload && !Good(calls[|before|].reply)
    ensures FailedAt(fs, calls, |before|)
  {
    var n := |before|;
    CalledOnceMore(fs, f, rest, before, calls);
    NextFrame(fs, f, rest, n);
    GoodBefore(fs, before, calls);
    assert !Goods(RepliesOf(calls))[n];
    HandedOnIs(Marks(fs), Goods(RepliesOf(calls)), n);
  }

  /** The session stops on an error. */
  lemma StopsOnError(fs: seq<DFrame>, f: DFrame, rest: seq<DFrame>, before: seq<Call>, calls: seq<Call>,
                     message: seq<byte>, out: seq<byte>, output: seq<byte>, whole: bool)
    requires Going(fs, [f] + rest, before) && |message| < U32_LIMIT
    requires Failed(f, before, calls)
    requires WrotePart(out, output, SentFor(fs, before) + [ErrorFrame(f, message)])
    requires whole ==> Wrote(out, output, SentFor(fs, before) + [ErrorFrame(f, message)])
    ensures Ended(fs, calls, message, out, output, whole)
  {
    if MarkOf(f) == Other {
      FailsOnFrame(fs, f, rest, before);
    } else {
      FailsOnReply(fs, f, rest, before, calls);
    }
    NextFrame(fs, f, rest, |before|);
    SentAgrees(fs, before, calls);
    ErrorAppended(fs, RepliesOf(calls), |before|, message);
  }

  /** One more batch was answered. */
  lemma GoesOn(fs: seq<DFrame>, f: DFrame, rest: seq<DFrame>, before: seq<Call>, calls: seq<Call>)
    requires Going(fs, [f] + rest, before) && MarkOf(f) == Serving
    requires |calls| == |before| + 1 && before <= calls
    requires calls[|before|].request == f.payload && Good(calls[|before|].reply)
    ensures Going(fs, rest, calls)
    ensures SentFor(fs, calls) == SentFor(fs, before) + [OkFrame(f, calls[|before|].reply.value)]
  {
    NextFrame(fs, f, rest, |before|);
    SentAgrees(fs, before, calls);
    assert Goods(RepliesOf(calls))[|before|] == Good(calls[|before|].reply);
    OkAppended(fs, RepliesOf(calls), |before|);
  }

  lemma OkAppended(fs: seq<DFrame>, replies: Replies, n: nat)
    requires n < |fs| && n < |replies| && forall i :: 0 <= i <= n ==> replies[i].Some?
    ensures FramesSent(fs, replies, n + 1, false, [])
         == FramesSent(fs, replies, n, false, []) + [OkFrame(fs[n], replies[n].value)]
  {
  }

  /** read_decrypt_frame, as a session sees it. */
  method NextFrameOf(c: Channel) returns (r: ReadResult)
    modifies c`input
    ensures r.Frame? ==> Sendable(r.frame) && |c.input| < |old(c.input)|
                         && Frames(old(c.input)) == [r.frame] + Frames(c.input)
    ensures c.sound && !r.Frame? ==> Frames(old(c.input)) == []
  {
    ghost var was := c.input;
    r := ReadFrame(c);
    if r.Frame? {
      OneFrame(was, c.input, r.frame);
    }
  }

  /** write_decrypt_error, which ends the session. */
  method Fail(c: Channel, f: DFrame, message: seq<byte>, ghost fs: seq<DFrame>, ghost rest: seq<DFrame>,
              ghost before: seq<Call>, ghost calls: seq<Call>, ghost out: seq<byte>)
    requires |message| < U32_LIMIT
    requires Going(fs, [f] + rest, before) && Failed(f, before, calls) && Wrote(out, c.output, SentFor(fs, before))
    modifies c`output
    ensures Ended(fs, calls, message, out, c.output, c.sound)
  {
    var _ := Deliver(c, out, SentFor(fs, before), ErrorFrame(f, message));
    StopsOnError(fs, f, rest, before, calls, message, out, c.output, c.sound);
  }

  /** The OK frame, after which the session goes on if it was written. */
  method HandOn(c: Channel, reply: DFrame, message: seq<byte>, ghost fs: seq<DFrame>, ghost rest: seq<DFrame>,
                ghost calls: seq<Call>, ghost sent: seq<DFrame>, ghost out: seq<byte>)
      returns (more: bool)
    requires |message| < U32_LIMIT && Sendable(reply)
    requires Going(fs, rest, calls) && SentFor(fs, calls) == sent + [reply] && Wrote(out, c.output, sent)
    modifies c`output
    ensures more ==> Wrote(out, c.output, SentFor(fs, calls))
    ensures !more ==> Ended(fs, calls, message, out, c.output, c.sound)
  {
    more := Deliver(c, out, sent, reply);
    if !more {
      StopsBetween(fs, rest, calls, message, out, c.output, false);
    }
  }

  /** The body of the loop, once a frame was read: the session goes on, or it has ended. */
  method ServeFrame(c: Channel, w: WorkerLink, message: seq<byte>, f: DFrame,
                    ghost fs: seq<DFrame>, ghost rest: seq<DFrame>, ghost out: seq<byte>)
      returns (more: bool)
    requires |message| < U32_LIMIT && Sendable(f)
    requires Going(fs, [f] + rest, w.calls) && Wrote(out, c.output, SentFor(fs, w.calls))
    modifies c`output, w
    ensures more ==> Going(fs, rest, w.calls) && Wrote(out, c.output, SentFor(fs, w.calls))
    ensures !more ==> Ended(fs, w.calls, message, out, c.output, c.sound)
  {
    ghost var before := w.calls;
    var reaction := React(w, f);
    match reaction {
      case Close =>
        StopsBetween(fs, [f] + rest, before, message, out, c.output, c.sound);
        more := false;
      case Refuse =>
        Fail(c, f, message, fs, rest, before, w.calls, out);
        more := false;
      case Reply(frame) =>
        ghost var sent := SentFor(fs, before);
        GoesOn(fs, f, rest, before, w.calls);
        more := HandOn(c, frame, message, fs, rest, w.calls, sent, out);
    }
  }

  /**
   handle_decrypt_client.  The worker is called for the first batches in order, with their very
   bytes; and on a sound stream, however it is cut, the session goes on to its end and sends
   exactly what SessionOutput says for the worker's replies.  On a faulty one it sends a part.
   */
  method HandleClient(c: Channel, w: WorkerLink, message: seq<byte>)
    requires |message| < U32_LIMIT && w.calls == []
    modifies c, w
    ensures Ended(Frames(old(c.input)), w.calls, message, old(c.output), c.output, c.sound)
  {
    ghost var fs, out := Frames(c.input), c.output;
    assert SentFor(fs, []) == [];
    while true
      invariant Going(fs, Frames(c.input), w.calls)
      invariant Wrote(out, c.output, SentFor(fs, w.calls))
      decreases |c.input|
    {
      ghost var rest := Frames(c.input);
      var r := NextFrameOf(c);
      if !r.Frame? {
        StopsBetween(fs, rest, w.calls, message, out, c.output, c.sound);
        return;
      }
      var more := ServeFrame(c, w, message, r.frame, fs, Frames(c.input), out);
      if !more {
        return;
      }
    }
  }
}
