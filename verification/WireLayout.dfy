/**
 The wire formats byte by byte: which byte means what, in plain arithmetic.  The other modules
 show that readers and writers agree with each other; this one shows what they agree on.
 */
module WireLayout {
  import opened Wrappers
  import opened Bytes
  import opened SampleList
  import Ipc = IpcFrame
  import Client = ClientFrame
  import Stream = IpcStream
  import opened DecryptBatch
  import opened DecryptReply

  // ---------------------------------------------------------------- integers

  lemma U16Bytes(n: u16)
    ensures |U16(n)| == 2 && (U16(n)[0] as int) * 256 + U16(n)[1] == n
  {
  }

  lemma U32Bytes(n: u32)
    ensures |U32(n)| == 4
    ensures (((U32(n)[0] as int) * 256 + U32(n)[1]) * 256 + U32(n)[2]) * 256 + U32(n)[3] == n
  {
  }

  // ---------------------------------------------------------------- frames on the worker's pipes

  /** Twenty bytes: "WV2I", version 1, and five big-endian fields. */
  lemma IpcHeaderBytes(f: Ipc.Frame, len: u32)
    ensures var s := Ipc.Header(f, len);
            && |s| == 20 && s[..6] == [0x57, 0x56, 0x32, 0x49, 0, 1]
            && (s[6] as int) * 256 + s[7] == f.kind
            && (((s[8] as int) * 256 + s[9]) * 256 + s[10]) * 256 + s[11] == f.requestId
            && (s[12] as int) * 256 + s[13] == f.opcode
            && (s[14] as int) * 256 + s[15] == f.flags
            && (((s[16] as int) * 256 + s[17]) * 256 + s[18]) * 256 + s[19] == len
  {
    U16Bytes(f.kind);
    U32Bytes(f.requestId);
    U16Bytes(f.opcode);
    U16Bytes(f.flags);
    U32Bytes(len);
  }

  /** A frame is its header, with the payload's length in it, and the payload. */
  lemma IpcFrameBytes(f: Ipc.Frame)
    requires |f.payload| < 0x1_0000_0000
    ensures var s := Ipc.Encode(f);
            && |s| == 20 + |f.payload| && s[..6] == [0x57, 0x56, 0x32, 0x49, 0, 1]
            && (s[6] as int) * 256 + s[7] == f.kind
            && (((s[8] as int) * 256 + s[9]) * 256 + s[10]) * 256 + s[11] == f.requestId
            && (s[12] as int) * 256 + s[13] == f.opcode
            && (s[14] as int) * 256 + s[15] == f.flags
            && (((s[16] as int) * 256 + s[17]) * 256 + s[18]) * 256 + s[19] == |f.payload|
            && s[20..] == f.payload
  {
    IpcHeaderBytes(f, |f.payload|);
    assert Ipc.Encode(f)[..6] == Ipc.Header(f, |f.payload|)[..6];
  }

  /** The worker's own writer: only the low 32 bits of the length are kept. */
  lemma IpcWireBytes(f: Ipc.Frame)
    ensures var s := Stream.Wire(f);
            && |s| == 20 + |f.payload| && s[..6] == [0x57, 0x56, 0x32, 0x49, 0, 1]
            && (s[6] as int) * 256 + s[7] == f.kind
            && (((s[8] as int) * 256 + s[9]) * 256 + s[10]) * 256 + s[11] == f.requestId
            && (s[12] as int) * 256 + s[13] == f.opcode
            && (s[14] as int) * 256 + s[15] == f.flags
            && (((s[16] as int) * 256 + s[17]) * 256 + s[18]) * 256 + s[19] == |f.payload| % 0x1_0000_0000
            && s[20..] == f.payload
  {
    IpcHeaderBytes(f, |f.payload| % 0x1_0000_0000);
    assert Stream.Wire(f)[..6] == Ipc.Header(f, |f.payload| % 0x1_0000_0000)[..6];
  }

  /** And what a reader makes of bytes, in every case. */
  lemma IpcDecodeBytes(s: seq<byte>, cap: nat)
    ensures Ipc.Decode(s, cap).NeedMore? <==>
              || |s| < 20
              || (s[..6] == [0x57, 0x56, 0x32, 0x49, 0, 1]
                  && var len := (((s[16] as int) * 256 + s[17]) * 256 + s[18]) * 256 + s[19];
                     len <= cap && |s| < 20 + len)
    ensures Ipc.Decode(s, cap).BadMagic? <==> |s| >= 20 && s[..4] != [0x57, 0x56, 0x32, 0x49]
    ensures Ipc.Decode(s, cap).BadVersion? <==>
              |s| >= 20 && s[..4] == [0x57, 0x56, 0x32, 0x49] && s[4..6] != [0, 1]
    ensures Ipc.Decode(s, cap).Got? <==>
              && |s| >= 20 && s[..6] == [0x57, 0x56, 0x32, 0x49, 0, 1]
              && var len := (((s[16] as int) * 256 + s[17]) * 256 + s[18]) * 256 + s[19];
                 len <= cap && 20 + len <= |s|
    ensures Ipc.Decode(s, cap).Got? ==>
              var f := Ipc.Decode(s, cap).frame;
              && f.kind == (s[6] as int) * 256 + s[7]
              && f.requestId == (((s[8] as int) * 256 + s[9]) * 256 + s[10]) * 256 + s[11]
              && f.opcode == (s[12] as int) * 256 + s[13]
              && f.flags == (s[14] as int) * 256 + s[15]
              && Ipc.Decode(s, cap).size == 20 + |f.payload| && f.payload == s[20..20 + |f.payload|]
              && |f.payload| == (((s[16] as int) * 256 + s[17]) * 256 + s[18]) * 256 + s[19]
  {
    if |s| >= 20 {
      assert s[..4] == [s[0], s[1], s[2], s[3]] && s[4..6] == [s[4], s[5]];
      assert s[..6] == s[..4] + s[4..6];
    }
  }

  // ---------------------------------------------------------------- frames of the decrypt clients

  /** Sixteen bytes: "WV2D", version 1, and three big-endian fields; then the payload. */
  lemma ClientFrameBytes(f: Client.DFrame)
    requires |f.payload| < 0x1_0000_0000
    ensures var s := Client.Encode(f);
            && |s| == 16 + |f.payload| && s[..6] == [0x57, 0x56, 0x32, 0x44, 0, 1]
            && (s[6] as int) * 256 + s[7] == f.kind
            && (((s[8] as int) * 256 + s[9]) * 256 + s[10]) * 256 + s[11] == f.requestId
            && (((s[12] as int) * 256 + s[13]) * 256 + s[14]) * 256 + s[15] == |f.payload|
            && s[16..] == f.payload
  {
    U16Bytes(f.kind);
    U32Bytes(f.requestId);
    U32Bytes(|f.payload|);
  }

  lemma ClientDecodeBytes(s: seq<byte>)
    ensures Client.Decode(s).Bad? <==> |s| >= 16 && s[..6] != [0x57, 0x56, 0x32, 0x44, 0, 1]
    ensures Client.Decode(s).Got? <==>
              && |s| >= 16 && s[..6] == [0x57, 0x56, 0x32, 0x44, 0, 1]
              && 16 + (((s[12] as int) * 256 + s[13]) * 256 + s[14]) * 256 + s[15] <= |s|
    ensures Client.Decode(s).Got? ==>
              var f := Client.Decode(s).frame;
              && f.kind == (s[6] as int) * 256 + s[7]
              && f.requestId == (((s[8] as int) * 256 + s[9]) * 256 + s[10]) * 256 + s[11]
              && Client.Decode(s).size == 16 + |f.payload| && f.payload == s[16..16 + |f.payload|]
              && |f.payload| == (((s[12] as int) * 256 + s[13]) * 256 + s[14]) * 256 + s[15]
  {
    if |s| >= 16 {
      assert s[..6] == [s[0], s[1], s[2], s[3], s[4], s[5]];
    }
  }

  // ---------------------------------------------------------------- tables and samples

  lemma U32BytesAt(s: seq<byte>, k: nat, n: u32)
    requires k + 4 <= |s| && s[k..k + 4] == U32(n)
    ensures (((s[k] as int) * 256 + s[k + 1]) * 256 + s[k + 2]) * 256 + s[k + 3] == n
  {
    U32Bytes(n);
    var t := s[k..k + 4];
    assert t[0] == s[k] && t[1] == s[k + 1] && t[2] == s[k + 2] && t[3] == s[k + 3];
  }

  /** Entry i of a length table that begins at off. */
  lemma {:induction false} TableBytes(s: seq<byte>, off: nat, lens: seq<nat>, i: nat)
    requires AllU32(lens) && off + 4 * |lens| <= |s| && s[off..off + 4 * |lens|] == Table(lens) && i < |lens|
    ensures var k := off + 4 * i;
            (((s[k] as int) * 256 + s[k + 1]) * 256 + s[k + 2]) * 256 + s[k + 3] == lens[i]
  {
    var k := off + 4 * i;
    TableAt(lens, i);
    SliceOfSlice(s, off, off + 4 * |lens|, 4 * i, 4 * i + 4);
    U32BytesAt(s, k, lens[i]);
  }

  /** How many bytes the first i samples take. */
  function Before(samples: Samples, i: nat): nat
    requires i <= |samples|
  {
    if i == 0 then 0 else Before(samples, i - 1) + |samples[i - 1]|
  }

  lemma {:induction false} BeforeIs(samples: Samples, i: nat)
    requires i <= |samples|
    ensures Before(samples, i) == |Concat(samples[..i])|
  {
    if i > 0 {
      BeforeIs(samples, i - 1);
      ConcatAppend(samples[..i - 1], samples[i - 1]);
      assert samples[..i - 1] + [samples[i - 1]] == samples[..i];
    }
  }

  lemma Regroup(a: seq<byte>, b: seq<byte>, c: seq<byte>)
    ensures a + (b + c) == (a + b) + c
    ensures (a + b + c)[|a|..|a| + |b|] == b
  {
  }

  lemma {:induction false} ConcatTwo(a: Samples, b: Samples)
    ensures Concat(a + b) == Concat(a) + Concat(b)
    decreases |a|
  {
    if a == [] {
      assert a + b == b;
    } else {
      assert (a + b)[1..] == a[1..] + b && (a + b)[0] == a[0];
      ConcatTwo(a[1..], b);
      Regroup(a[0], Concat(a[1..]), Concat(b));
    }
  }

  /** Sample i stands behind the ones before it. */
  lemma {:induction false} SampleBytes(samples: Samples, i: nat)
    requires i < |samples|
    ensures var s, k := Concat(samples), Before(samples, i);
            k + |samples[i]| <= |s| && s[k..k + |samples[i]|] == samples[i]
  {
    BeforeIs(samples, i);
    Around(samples, i);
    Regroup(Concat(samples[..i]), samples[i], Concat(samples[i + 1..]));
  }

  lemma {:induction false} SampleAt(s: seq<byte>, start: nat, samples: Samples, i: nat)
    requires start <= |s| && s[start..] == Concat(samples) && i < |samples|
    ensures var k := start + Before(samples, i); k + |samples[i]| <= |s| && s[k..k + |samples[i]|] == samples[i]
  {
    SampleBytes(samples, i);
    SliceOfSlice(s, start, |s|, Before(samples, i), Before(samples, i) + |samples[i]|);
  }

  lemma {:induction false} Around(samples: Samples, i: nat)
    requires i < |samples|
    ensures Concat(samples) == Concat(samples[..i]) + samples[i] + Concat(samples[i + 1..])
  {
    assert samples == samples[..i] + samples[i..];
    ConcatTwo(samples[..i], samples[i..]);
    assert samples[i..][0] == samples[i] && samples[i..][1..] == samples[i + 1..];
    Regroup(Concat(samples[..i]), samples[i], Concat(samples[i + 1..]));
  }

  // ---------------------------------------------------------------- a decrypt request

  lemma FixedBytes(b: Batch)
    requires Encodable(b)
    ensures var s := Fixed(b);
            && (s[0] as int) * 256 + s[1] == |b.adam| && (s[2] as int) * 256 + s[3] == |b.uri|
            && (((s[4] as int) * 256 + s[5]) * 256 + s[6]) * 256 + s[7] == |b.samples|
  {
    U16Bytes(|b.adam|);
    U16Bytes(|b.uri|);
    U32Bytes(|b.samples|);
  }

  /** The three sizes, the length of each sample, the two texts, and the samples. */
  lemma BatchBytes(b: Batch)
    requires Encodable(b)
    ensures var s, n := EncodeBatch(b), |b.samples|;
            var k := 8 + 4 * n + |b.adam| + |b.uri|;
            && |s| == k + Before(b.samples, n)
            && (s[0] as int) * 256 + s[1] == |b.adam| && (s[2] as int) * 256 + s[3] == |b.uri|
            && (((s[4] as int) * 256 + s[5]) * 256 + s[6]) * 256 + s[7] == n
            && s[8 + 4 * n..8 + 4 * n + |b.adam|] == b.adam && s[8 + 4 * n + |b.adam|..k] == b.uri
  {
    var s := EncodeBatch(b);
    Pieces(s, Fixed(b), Table(Sizes(b.samples)), b.adam, b.uri, Concat(b.samples));
    FixedBytes(b);
    assert forall i :: 0 <= i < 8 ==> s[i] == Fixed(b)[i];
    BeforeIs(b.samples, |b.samples|);
    assert b.samples[..|b.samples|] == b.samples;
  }

  lemma BatchParts(b: Batch)
    requires Encodable(b)
    ensures var s, n := EncodeBatch(b), |b.samples|;
            var k := 8 + 4 * n + |b.adam| + |b.uri|;
            k <= |s| && s[8..8 + 4 * n] == Table(Sizes(b.samples)) && s[k..] == Concat(b.samples)
  {
    Pieces(EncodeBatch(b), Fixed(b), Table(Sizes(b.samples)), b.adam, b.uri, Concat(b.samples));
  }

  /** The length of sample i, and the sample. */
  lemma {:induction false} BatchSampleBytes(b: Batch, i: nat)
    requires Encodable(b) && i < |b.samples|
    ensures var s, n := EncodeBatch(b), |b.samples|;
            var t, k := 8 + 4 * i, 8 + 4 * n + |b.adam| + |b.uri| + Before(b.samples, i);
            && t + 4 <= k && k + |b.samples[i]| <= |s| && s[k..k + |b.samples[i]|] == b.samples[i]
            && (((s[t] as int) * 256 + s[t + 1]) * 256 + s[t + 2]) * 256 + s[t + 3] == |b.samples[i]|
  {
    BatchParts(b);
    TableBytes(EncodeBatch(b), 8, Sizes(b.samples), i);
    SampleAt(EncodeBatch(b), 8 + 4 * |b.samples| + |b.adam| + |b.uri|, b.samples, i);
  }

  // ---------------------------------------------------------------- a decrypt reply

  /** The count, the length of each sample, and the samples. */
  lemma ReplyBytes(samples: Samples)
    requires ReplyFits(samples)
    ensures var s, n := EncodeReply(samples), |samples|;
            && |s| == 4 + 4 * n + Before(samples, n)
            && (((s[0] as int) * 256 + s[1]) * 256 + s[2]) * 256 + s[3] == n
  {
    U32Bytes(|samples|);
    BeforeIs(samples, |samples|);
    assert samples[..|samples|] == samples;
    assert forall i :: 0 <= i < 4 ==> EncodeReply(samples)[i] == U32(|samples|)[i];
  }

  lemma ReplyParts(samples: Samples)
    requires ReplyFits(samples)
    ensures var s, n := EncodeReply(samples), |samples|;
            4 + 4 * n <= |s| && s[4..4 + 4 * n] == Table(Sizes(samples)) && s[4 + 4 * n..] == Concat(samples)
  {
  }

  lemma {:induction false} ReplySampleBytes(samples: Samples, i: nat)
    requires ReplyFits(samples) && i < |samples|
    ensures var s, n := EncodeReply(samples), |samples|;
            var t, k := 4 + 4 * i, 4 + 4 * n + Before(samples, i);
            && t + 4 <= k && k + |samples[i]| <= |s| && s[k..k + |samples[i]|] == samples[i]
            && (((s[t] as int) * 256 + s[t + 1]) * 256 + s[t + 2]) * 256 + s[t + 3] == |samples[i]|
  {
    ReplyParts(samples);
    TableBytes(EncodeReply(samples), 4, Sizes(samples), i);
    SampleAt(EncodeReply(samples), 4 + 4 * |samples|, samples, i);
  }
}
