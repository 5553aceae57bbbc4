/**
 A decrypt request from the client to the worker program and back, through both of the
 supervisor's parsers and builders.
 */
module EndToEnd {
  import opened Wrappers
  import opened Bytes
  import opened SampleList
  import opened ClientFrame
  import opened ClientSession
  import opened DecryptBatch
  import opened DecryptReply
  import DecryptPath
  import KeyCache

  /** In some state of its key cache, and some situation, the worker answers body with reply. */
  ghost predicate FromWorker(body: seq<byte>, reply: seq<byte>) {
    exists s: KeyCache.State, with: DecryptPath.Situation ::
      DecryptPath.Handled(s, with, body) == DecryptPath.Binary(reply)
  }

  /** ok is what a client expects for its batch: its id, and one plaintext for each sample, of the
      same length, in order; shorter than the request by 4 bytes and the two texts. */
  predicate Fitting(batch: DFrame, ok: DFrame) {
    && ok.kind == 2 && ok.requestId == batch.requestId
    && Layout(batch.payload).Some? && ReplyLayout(ok.payload).Some?
    && var b := Layout(batch.payload).value;
       && Sizes(ReplyLayout(ok.payload).value) == Sizes(b.samples)
       && |ok.payload| == |batch.payload| - 4 - |b.adam| - |b.uri|
  }

  /** Whatever the worker answers in binary can be handed on, and is what the client expects. */
  lemma WorkerReplyFits(f: DFrame, reply: seq<byte>)
    ensures FromWorker(f.payload, reply) ==> Good(Some(reply)) && Fitting(f, OkFrame(f, reply))
  {
    if FromWorker(f.payload, reply) {
      var s: KeyCache.State, with: DecryptPath.Situation :|
        DecryptPath.Handled(s, with, f.payload) == DecryptPath.Binary(reply);
      DecryptPath.HandledShape(s, with, f.payload);
    }
  }

  /** And for every batch that its parser takes there are a state and a situation in which it
      answers in binary. */
  lemma WorkerCanAnswer(body: seq<byte>) returns (reply: seq<byte>)
    ensures CppAccepts(body) ==> FromWorker(body, reply)
  {
    reply := [];
    if CppAccepts(body) {
      EncodeLayout(body);
      var b := Layout(body).value;
      var keep: nat -> KeyCache.Outcome := (i: nat) => KeyCache.Status(0);
      var with := DecryptPath.Situation(true, true, true, true, KeyCache.NoContext, keep);
      var s := KeyCache.State(map[KeyCache.Key(b.adam, b.uri) := 7], {}, {});
      KeyCache.NoneBad(DecryptPath.CallFor(b, with), 0);
      assert DecryptPath.Handled(s, with, body).Binary?;
      reply := DecryptPath.Handled(s, with, body).payload;
    }
  }

  /** All binary replies of a session are the worker's. */
  ghost predicate AllFromWorker(fs: seq<DFrame>, replies: Replies)
    requires |replies| <= |fs|
  {
    forall j :: 0 <= j < |replies| && replies[j].Some? ==> FromWorker(fs[j].payload, replies[j].value)
  }

  /** In any session with this worker, every OK frame is what the client expects for its batch. */
  lemma EveryOkFits(fs: seq<DFrame>, replies: Replies, message: seq<byte>, i: nat)
    requires i < |fs| && |replies| <= |fs|
    ensures var out := SessionOutput(fs, replies, message);
            AllFromWorker(fs, replies) && i < |out| && out[i].kind == KIND_OK ==> Fitting(fs[i], out[i])
  {
    var out := SessionOutput(fs, replies, message);
    if AllFromWorker(fs, replies) && i < |out| && out[i].kind == KIND_OK {
      SessionTrace(fs, replies, message, i);
      WorkerReplyFits(fs[i], out[i].payload);
      assert out[i] == OkFrame(fs[i], out[i].payload);
    }
  }

  /** And a client that sends batches only, all of which the worker answers in binary, gets one
      fitting OK frame for each, in order, and nothing else. */
  lemma EveryBatchIsAnswered(fs: seq<DFrame>, replies: Replies, message: seq<byte>)
    requires |replies| == |fs| && AllFromWorker(fs, replies)
    requires forall j :: 0 <= j < |fs| ==> MarkOf(fs[j]) == Serving && replies[j].Some?
    ensures var out := SessionOutput(fs, replies, message);
            |out| == |fs| && forall i :: 0 <= i < |fs| ==> Fitting(fs[i], out[i])
  {
    forall j | 0 <= j < |fs| ensures Good(replies[j]) && Fitting(fs[j], OkFrame(fs[j], replies[j].value)) {
      WorkerReplyFits(fs[j], replies[j].value);
    }
    HandedOnIs(Marks(fs), Goods(replies), |fs|);
  }

  // ---------------------------------------------------------------- bytes in, bytes out

  lemma DecodeLonger(p: seq<byte>, s: seq<byte>)
    requires p <= s && Decode(p).Got?
    ensures Decode(s) == Decode(p)
  {
    var size := Decode(p).size;
    assert forall i :: 0 <= i < HEADER_LEN ==> s[i] == p[i];
    assert s[HEADER_LEN..size] == p[HEADER_LEN..size];
  }

  /** Of a part of a stream the first frames are read. */
  lemma {:induction false} FramesOfPart(p: seq<byte>, s: seq<byte>)
    requires p <= s
    ensures Frames(p) <= Frames(s)
    decreases |p|
  {
    if Decode(p).Got? {
      DecodeLonger(p, s);
      var size := Decode(p).size;
      FramesOfPart(p[size..], s[size..]);
    }
  }

  lemma Joined(a: seq<byte>, b: seq<byte>, c: seq<byte>)
    ensures (a + b) + c == a + (b + c)
  {
  }

  lemma {:induction false} EncodeAllHead(fs: seq<DFrame>)
    requires AllSendable(fs) && fs != []
    ensures EncodeAll(fs) == Encode(fs[0]) + EncodeAll(fs[1..])
    decreases |fs|
  {
    var n := |fs| - 1;
    var start, tail := fs[..n], fs[1..];
    if n == 0 {
      assert start == [] && tail == [];
    } else {
      EncodeAllHead(start);
      assert start[1..] == tail[..n - 1] && start[0] == fs[0] && tail[n - 1] == fs[n];
      Joined(Encode(fs[0]), EncodeAll(tail[..n - 1]), Encode(fs[n]));
    }
  }

  /** What was written frame by frame is read frame by frame. */
  lemma {:induction false} FramesOfEncodeAll(fs: seq<DFrame>)
    requires AllSendable(fs)
    ensures Frames(EncodeAll(fs)) == fs
    decreases |fs|
  {
    if fs != [] {
      var rest := EncodeAll(fs[1..]);
      EncodeAllHead(fs);
      DecodeEncode(fs[0], rest);
      assert (Encode(fs[0]) + rest)[|Encode(fs[0])|..] == rest;
      FramesOfEncodeAll(fs[1..]);
    }
  }

  /** All binary replies in a record of calls are the worker's. */
  ghost predicate CallsAnswered(calls: seq<Call>) {
    forall j :: 0 <= j < |calls| && calls[j].reply.Some? ==> FromWorker(calls[j].request, calls[j].reply.value)
  }

  lemma OkSentFits(fs: seq<DFrame>, calls: seq<Call>, message: seq<byte>, i: nat)
    requires Called(fs, calls) && CallsAnswered(calls)
    ensures var sent := SessionOutput(fs, RepliesOf(calls), message);
            i < |sent| && sent[i].kind == KIND_OK ==> i < |fs| && Fitting(fs[i], sent[i])
  {
    var replies := RepliesOf(calls);
    if i < |SessionOutput(fs, replies, message)| {
      SessionTrace(fs, replies, message, i);
      EveryOkFits(fs, replies, message, i);
    }
  }

  /** What can be read of frames that were sent, in whole or in part. */
  lemma ReadsWhatWasSent(output: seq<byte>, sent: seq<DFrame>)
    requires WrotePart([], output, sent)
    ensures Frames(output) <= sent
  {
    assert [] + EncodeAll(sent) == EncodeAll(sent);
    FramesOfPart(output, EncodeAll(sent));
    FramesOfEncodeAll(sent);
  }

  /** From the bytes that a client sends to those that it gets, in a session with this worker that
      may break off anywhere: each OK frame it can read is what it expects for the batch that it
      sent in that place. */
  lemma EveryOkReadFits(input: seq<byte>, calls: seq<Call>, message: seq<byte>, output: seq<byte>, whole: bool,
                        i: nat)
    requires CallsAnswered(calls)
    ensures Ended(Frames(input), calls, message, [], output, whole)
            && i < |Frames(output)| && Frames(output)[i].kind == KIND_OK ==>
              i < |Frames(input)| && Fitting(Frames(input)[i], Frames(output)[i])
  {
    if Ended(Frames(input), calls, message, [], output, whole) {
      ReadsWhatWasSent(output, SessionOutput(Frames(input), RepliesOf(calls), message));
      OkSentFits(Frames(input), calls, message, i);
    }
  }
}
