/**
 The payload of a decrypt reply: the plaintexts, in the order of the request.  The
 worker builds it, the supervisor parses it and builds it anew for the client.
 */
module DecryptReply {
  import opened Wrappers
  import opened Bytes
  import opened SampleList
  import opened DecryptBatch

  predicate ReplyFits(samples: Samples) {
    |samples| < U32_LIMIT && forall i :: 0 <= i < |samples| ==> |samples[i]| < U32_LIMIT
  }

  function EncodeReply(samples: Samples): seq<byte>
    requires ReplyFits(samples)
  {
    U32(|samples|) + Table(Sizes(samples)) + Concat(samples)
  }

  function ReplyLens(s: seq<byte>): seq<nat>
    requires |s| >= 4 && 4 + 4 * ReadU32(s, 0) <= |s|
  {
    ReadTable(s, 4, ReadU32(s, 0))
  }

  /** The samples that s is the encoding of, if it is one. */
  function ReplyLayout(s: seq<byte>): Option<Samples> {
    if |s| < 4 || 4 + 4 * ReadU32(s, 0) > |s| then None
    else if 4 + 4 * ReadU32(s, 0) + Sum(ReplyLens(s)) != |s| then None
    else Some(Cut(s[4 + 4 * ReadU32(s, 0)..], ReplyLens(s)))
  }

  lemma ReplyRoundTrip(samples: Samples)
    requires ReplyFits(samples)
    ensures ReplyLayout(EncodeReply(samples)) == Some(samples)
  {
    var s, lens := EncodeReply(samples), Sizes(samples);
    assert s[0..4] == U32(|samples|);
    ReadU32Back(s, 0, |samples|);
    assert s[4..4 + 4 * |lens|] == Table(lens);
    ReadTableBack(s, 4, lens);
    assert s[4 + 4 * |lens|..] == Concat(samples);
    CutConcat(samples);
  }

  lemma ReplyIsEncoding(s: seq<byte>)
    requires ReplyLayout(s).Some?
    ensures ReplyFits(ReplyLayout(s).value) && EncodeReply(ReplyLayout(s).value) == s
  {
    var samples := ReplyLayout(s).value;
    var end := 4 + 4 * ReadU32(s, 0);
    assert Sizes(samples) == ReplyLens(s);
    assert forall i :: 0 <= i < |samples| ==> |samples[i]| == ReplyLens(s)[i];
    ReplyHeadBack(s);
    ConcatCut(s[end..], ReplyLens(s));
    assert s == s[..end] + s[end..];
  }

  lemma ReplyHeadBack(s: seq<byte>)
    requires |s| >= 4 && 4 + 4 * ReadU32(s, 0) <= |s|
    ensures U32(ReadU32(s, 0)) + Table(ReplyLens(s)) == s[..4 + 4 * ReadU32(s, 0)]
  {
    var end := 4 + 4 * ReadU32(s, 0);
    WriteU32Back(s, 0);
    WriteTableBack(s, 4, ReadU32(s, 0));
    assert s[..end] == s[0..4] + s[4..end];
  }

  /** protocol.rs parse_decrypt_samples_payload */
  method RustParseReply(data: seq<byte>) returns (r: Option<Samples>)
    requires |data| < SLICE_LIMIT
    ensures r == ReplyLayout(data)
  {
    if |data| < 4 {
      return None;
    }
    var sampleCount: nat := ReadU32(data, 0);
    var tableEnd := 4 + sampleCount * 4;
    if |data| < tableEnd {
      return None;
    }
    var lengths := ReadLengths(data, sampleCount);
    var samples := TakeSamples(data, tableEnd, lengths);
    r := if samples.Ok? then Some(samples.value) else None;
  }

  method ReadLengths(data: seq<byte>, count: nat) returns (lengths: seq<nat>)
    requires 4 + 4 * count <= |data|
    ensures lengths == ReadTable(data, 4, count)
  {
    lengths := [];
    for i := 0 to count
      invariant lengths == ReadTable(data, 4, count)[..i]
    {
      lengths := lengths + [ReadU32(data, 4 + i * 4)];
    }
  }

  /** main.rs build_decrypt_samples_payload */
  method RustBuildReply(samples: Samples) returns (r: Option<seq<byte>>)
    ensures r.Some? <==>
              && |samples| <= 0xFFFF_FFFF && (forall i :: 0 <= i < |samples| ==> |samples[i]| <= 0xFFFF_FFFF)
              && 4 + 4 * |samples| + |Concat(samples)| < 0x1_0000_0000_0000_0000
    ensures r.Some? ==> ReplyFits(samples) && r.value == EncodeReply(samples)
  {
    if |samples| > 0xFFFF_FFFF {
      return None;
    }
    var ok := ReplySizesFit(4 + 4 * |samples|, samples);
    if !ok {
      return None;
    }
    var out := U32(|samples|);
    out := AppendTable(out, samples);
    out := AppendSamples(out, samples);
    r := Some(out);
  }

  /** The loop that adds up the sizes, from the size of the fixed fields. */
  method ReplySizesFit(fixed: nat, samples: Samples) returns (ok: bool)
    requires fixed < USIZE_LIMIT
    ensures ok <==>
              && (forall i :: 0 <= i < |samples| ==> |samples[i]| < U32_LIMIT)
              && fixed + |Concat(samples)| < USIZE_LIMIT
  {
    var size := fixed;
    for i := 0 to |samples|
      invariant size == fixed + |Concat(samples[..i])| < USIZE_LIMIT
      invariant forall j :: 0 <= j < i ==> |samples[j]| < U32_LIMIT
    {
      if |samples[i]| > 0xFFFF_FFFF {
        return false;
      }
      SizeStep(samples, i);
      if size + |samples[i]| >= USIZE_LIMIT {
        return false;
      }
      size := size + |samples[i]|;
    }
    assert samples[..|samples|] == samples;
    return true;
  }

  /** The lengths as a cast to 32 bits leaves them. */
  function Cast(lens: seq<nat>): (low: seq<nat>)
    ensures |low| == |lens| && AllU32(low)
  {
    seq(|lens|, i requires 0 <= i < |lens| => lens[i] % U32_LIMIT)
  }

  lemma CastFits(samples: Samples)
    requires ReplyFits(samples)
    ensures |samples| % U32_LIMIT == |samples| && Cast(Sizes(samples)) == Sizes(samples)
  {
    assert forall i :: 0 <= i < |samples| ==> Sizes(samples)[i] == |samples[i]| < U32_LIMIT;
  }

  /** ipc.cpp build_decrypt_response_payload: the casts keep the low 32 bits, so what does not
      fit the fields is written wrongly; what fits is encoded. */
  method CppBuildReply(samples: Samples) returns (out: seq<byte>)
    ensures out == U32(|samples| % U32_LIMIT) + Table(Cast(Sizes(samples))) + Concat(samples)
    ensures ReplyFits(samples) ==> out == EncodeReply(samples)
    ensures ReplyLayout(out) == Some(samples) <==>
              |samples| <= 0xFFFF_FFFF && forall i :: 0 <= i < |samples| ==> |samples[i]| <= 0xFFFF_FFFF
  {
    out := CppTable(U32(|samples| % U32_LIMIT), samples);
    out := AppendSamples(out, samples);
    if ReplyFits(samples) {
      CastFits(samples);
      ReplyRoundTrip(samples);
    } else if ReplyLayout(out) == Some(samples) {
      ReplyIsEncoding(out);
    }
  }

  /** Its length table. */
  method CppTable(start: seq<byte>, samples: Samples) returns (out: seq<byte>)
    ensures out == start + Table(Cast(Sizes(samples)))
  {
    out := start;
    ghost var low := Cast(Sizes(samples));
    for i := 0 to |samples|
      invariant out == start + Table(low[..i])
    {
      TableAppend(low[..i], low[i]);
      assert low[..i] + [low[i]] == low[..i + 1];
      assert start + (Table(low[..i]) + U32(low[i])) == start + Table(low[..i]) + U32(low[i]);
      out := out + U32(|samples[i]| % U32_LIMIT);
    }
    assert low[..|samples|] == low;
  }

  /**
   From the client's payload to the client's reply.  The worker answers an encoded batch with
   plaintexts of the same sizes, the supervisor parses that answer and builds the client's: it
   has the same number of samples with the same lengths in the same order, and is shorter than
   the request by 4 bytes and the two texts.
   */
  lemma ReplyShape(body: seq<byte>, plain: Samples)
    requires Layout(body).Some? && Sizes(plain) == Sizes(Layout(body).value.samples)
    ensures ReplyFits(plain) && ReplyLayout(EncodeReply(plain)) == Some(plain)
    ensures |EncodeReply(plain)| == |body| - 4 - |Layout(body).value.adam| - |Layout(body).value.uri|
  {
    var b := Layout(body).value;
    EncodeLayout(body);
    assert forall i :: 0 <= i < |plain| ==> |plain[i]| == Sizes(plain)[i] == |b.samples[i]|;
    ReplyRoundTrip(plain);
    assert |Concat(plain)| == |Concat(b.samples)|;
  }
}
