/**
 What the worker program takes of what the TCP front end accepts: its frame reader and its
 batch parser have limits of their own.
 */
module WorkerLimits {
  import opened Wrappers
  import opened Bytes
  import opened IpcFrame
  import opened IpcStream
  import opened SampleList
  import opened DecryptBatch

  /** The request frame that carries a batch to the worker. */
  function BatchFrame(id: u32, body: seq<byte>): Frame {
    Frame(KIND_REQUEST, id, OP_DECRYPT_BATCH, 0, body)
  }

  /** The worker gets the whole request off its stdin, and its parser takes the batch in it. */
  predicate WorkerTakes(id: u32, body: seq<byte>)
    requires |body| < U32_LIMIT
  {
    Decode(Encode(BatchFrame(id, body)), WORKER_MAX_PAYLOAD).Got? && CppAccepts(body)
  }

  /** Of what the front end accepts, the worker takes exactly the payloads of at most 256 MiB. */
  lemma WorkerTakesExactly(id: u32, body: seq<byte>)
    requires RustAccepts(body) && |body| < U32_LIMIT
    ensures WorkerTakes(id, body) <==> |body| <= 268_435_456
  {
    var f := BatchFrame(id, body);
    DecodeEncode(f, [], WORKER_MAX_PAYLOAD);
    assert Encode(f) + [] == Encode(f);
    if |body| <= WORKER_MAX_PAYLOAD {
      WorkerTakesRelayed(body);
    }
  }

  /** A larger payload, once relayed, ends the worker's session: neither it nor anything behind it
      is answered. */
  lemma LargerEndsSession(id: u32, body: seq<byte>, rest: seq<byte>, past: seq<Frame>, dispatch: Dispatch)
    requires RustAccepts(body) && |body| < U32_LIMIT && !WorkerTakes(id, body)
    ensures Served(Encode(BatchFrame(id, body)) + rest, past, dispatch) == []
  {
    WorkerTakesExactly(id, body);
    OversizedEndsSession(BatchFrame(id, body), rest, past, dispatch);
  }

  /** n samples of 64 MiB, the largest that the front end accepts. */
  function Large(n: nat): (b: Batch)
    requires 0 < n < 64
    ensures WellFormed(b)
  {
    Batch([0x31], [0x78], seq(n, i => seq(RUST_MAX_SAMPLE, j => 0)))
  }

  lemma {:induction false} EqualSizes(samples: Samples, size: nat)
    requires forall i :: 0 <= i < |samples| ==> |samples[i]| == size
    ensures |Concat(samples)| == |samples| * size
    decreases |samples|
  {
    if samples != [] {
      EqualSizes(samples[1..], size);
    }
  }

  lemma LargeIsAccepted(n: nat)
    requires 0 < n < 64
    ensures var body := EncodeBatch(Large(n));
            && RustAccepts(body) && Layout(body) == Some(Large(n))
            && |body| == FIXED_LEN + 4 * n + 2 + n * RUST_MAX_SAMPLE
  {
    var b := Large(n);
    LayoutEncode(b);
    assert b.adam[1..] == [] && b.uri[1..] == [];
    RustAcceptsEncodings(EncodeBatch(b));
    EqualSizes(b.samples, RUST_MAX_SAMPLE);
    ReadBackExactly(b);
  }

  /** Four such samples are as much as the worker's parser takes, but the frame around them is
      already over its cap. */
  lemma FourSamplesEndTheSession(id: u32)
    ensures var body := EncodeBatch(Large(4));
            && |body| < U32_LIMIT && RustAccepts(body) && CppAccepts(body) && !WorkerTakes(id, body)
  {
    var body := EncodeBatch(Large(4));
    LargeIsAccepted(4);
    CppAcceptsEncodings(body);
    EqualSizes(Large(4).samples, RUST_MAX_SAMPLE);
    WorkerTakesExactly(id, body);
  }

  /** Five are refused by the parser as well. */
  lemma FiveSamplesAreTooMany()
    ensures var body := EncodeBatch(Large(5)); RustAccepts(body) && !CppAccepts(body)
  {
    LargeIsAccepted(5);
    CppAcceptsEncodings(EncodeBatch(Large(5)));
    EqualSizes(Large(5).samples, RUST_MAX_SAMPLE);
  }
}
