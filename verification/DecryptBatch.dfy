/**
 The payload of a decrypt request: asset id, key uri and samples.  It is written by
 one program and parsed by two, with different limits; EncodeBatch and Layout are the
 reference that all of them are proved against.
 */
module DecryptBatch {
  import opened Wrappers
  import opened Bytes
  import opened SampleList
  import opened Utf8Text

  const FIXED_LEN: nat := 8
  const USIZE_LIMIT: nat := 0x1_0000_0000_0000_0000
  // A Rust slice is at most isize::MAX bytes long, and so is a C++ vector.
  const SLICE_LIMIT: nat := 0x8000_0000_0000_0000
  const RUST_MAX_SAMPLE: nat := 64 * 1024 * 1024
  const CPP_MAX_SAMPLES: nat := 256 * 1024 * 1024

  datatype Batch = Batch(adam: seq<byte>, uri: seq<byte>, samples: Samples)

  /** Fits the field widths; this much the encoder checks. */
  predicate Encodable(b: Batch) {
    && |b.adam| < U16_LIMIT && |b.uri| < U16_LIMIT
    && 0 < |b.samples| < U32_LIMIT
    && forall i :: 0 <= i < |b.samples| ==> 0 < |b.samples[i]| < U32_LIMIT
  }

  /** ... and has no empty text, which both parsers insist on. */
  predicate WellFormed(b: Batch) {
    Encodable(b) && b.adam != [] && b.uri != []
  }

  function EncodeBatch(b: Batch): seq<byte>
    requires Encodable(b)
  {
    Fixed(b) + Table(Sizes(b.samples)) + b.adam + b.uri + Concat(b.samples)
  }

  function Fixed(b: Batch): (f: seq<byte>)
    requires Encodable(b)
    ensures |f| == FIXED_LEN
  {
    U16(|b.adam|) + U16(|b.uri|) + U32(|b.samples|)
  }

  /** Five pieces one after the other, found again by their lengths. */
  lemma Pieces(s: seq<byte>, f: seq<byte>, t: seq<byte>, a: seq<byte>, u: seq<byte>, c: seq<byte>)
    requires s == f + t + a + u + c
    ensures var i := |f|; var j := i + |t|; var k := j + |a|; var l := k + |u|;
            && |s| == l + |c|
            && s[..i] == f && s[i..j] == t && s[j..k] == a && s[k..l] == u && s[l..] == c
  {
  }

  lemma JoinPieces(s: seq<byte>, i: nat, j: nat, k: nat, l: nat)
    requires i <= j <= k <= l <= |s|
    ensures s[..i] + s[i..j] + s[j..k] + s[k..l] + s[l..] == s
  {
  }

  // ---------------------------------------------------------------- the reference parser

  function AdamLen(s: seq<byte>): nat
    requires |s| >= FIXED_LEN
  {
    ReadU16(s, 0)
  }

  function UriLen(s: seq<byte>): nat
    requires |s| >= FIXED_LEN
  {
    ReadU16(s, 2)
  }

  function Count(s: seq<byte>): nat
    requires |s| >= FIXED_LEN
  {
    ReadU32(s, 4)
  }

  function TableEnd(s: seq<byte>): nat
    requires |s| >= FIXED_LEN
  {
    FIXED_LEN + 4 * Count(s)
  }

  /** Where the samples begin. */
  function FixedEnd(s: seq<byte>): nat
    requires |s| >= FIXED_LEN
  {
    TableEnd(s) + AdamLen(s) + UriLen(s)
  }

  predicate HeaderOk(s: seq<byte>) {
    |s| >= FIXED_LEN && AdamLen(s) != 0 && UriLen(s) != 0 && Count(s) != 0 && FixedEnd(s) <= |s|
  }

  function Lens(s: seq<byte>): seq<nat>
    requires HeaderOk(s)
  {
    ReadTable(s, FIXED_LEN, Count(s))
  }

  function Adam(s: seq<byte>): seq<byte>
    requires HeaderOk(s)
  {
    s[TableEnd(s)..TableEnd(s) + AdamLen(s)]
  }

  function Uri(s: seq<byte>): seq<byte>
    requires HeaderOk(s)
  {
    s[TableEnd(s) + AdamLen(s)..FixedEnd(s)]
  }

  predicate NoneEmpty(lens: seq<nat>) {
    forall i :: 0 <= i < |lens| ==> lens[i] != 0
  }

  predicate LengthsOk(lens: seq<nat>) {
    forall i :: 0 <= i < |lens| ==> 0 < lens[i] <= RUST_MAX_SAMPLE
  }

  /** The batch that s is the encoding of, if it is one; neither parser's limits. */
  function Layout(s: seq<byte>): Option<Batch> {
    if HeaderOk(s) && NoneEmpty(Lens(s)) && FixedEnd(s) + Sum(Lens(s)) == |s| then
      Some(Batch(Adam(s), Uri(s), Cut(s[FixedEnd(s)..], Lens(s))))
    else None
  }

  /** The first eight bytes hold the three sizes. */
  lemma FixedFields(b: Batch, s: seq<byte>)
    requires Encodable(b) && |s| >= FIXED_LEN && s[..FIXED_LEN] == Fixed(b)
    ensures AdamLen(s) == |b.adam| && UriLen(s) == |b.uri| && Count(s) == |b.samples|
  {
    var f := Fixed(b);
    assert s[0..2] == f[0..2] == U16(|b.adam|);
    assert s[2..4] == f[2..4] == U16(|b.uri|);
    assert s[4..8] == f[4..8] == U32(|b.samples|);
    ReadU16Back(s, 0, |b.adam|);
    ReadU16Back(s, 2, |b.uri|);
    ReadU32Back(s, 4, |b.samples|);
  }

  /** Where the parts of an encoded batch are. */
  lemma PartsOf(b: Batch, s: seq<byte>)
    requires WellFormed(b) && s == EncodeBatch(b)
    ensures HeaderOk(s) && Adam(s) == b.adam && Uri(s) == b.uri && s[FixedEnd(s)..] == Concat(b.samples)
    ensures s[FIXED_LEN..TableEnd(s)] == Table(Sizes(b.samples)) && Count(s) == |b.samples|
  {
    var lens := Sizes(b.samples);
    Pieces(s, Fixed(b), Table(lens), b.adam, b.uri, Concat(b.samples));
    FixedFields(b, s);
  }

  /** Every encoded batch is laid out as itself. */
  lemma LayoutEncode(b: Batch)
    requires WellFormed(b)
    ensures Layout(EncodeBatch(b)) == Some(b)
  {
    var s := EncodeBatch(b);
    PartsOf(b, s);
    ReadTableBack(s, FIXED_LEN, Sizes(b.samples));
    CutConcat(b.samples);
    assert |s[FixedEnd(s)..]| == |s| - FixedEnd(s);
  }

  lemma FixedBack(b: Batch, s: seq<byte>)
    requires Encodable(b) && |s| >= FIXED_LEN
    requires AdamLen(s) == |b.adam| && UriLen(s) == |b.uri| && Count(s) == |b.samples|
    ensures Fixed(b) == s[..FIXED_LEN]
  {
    WriteU16Back(s, 0);
    WriteU16Back(s, 2);
    WriteU32Back(s, 4);
    assert s[..FIXED_LEN] == s[0..2] + s[2..4] + s[4..8];
  }

  /** Only an encoding is laid out, and it is the encoding of what it is laid out as. */
  lemma EncodeLayout(s: seq<byte>)
    requires Layout(s).Some?
    ensures WellFormed(Layout(s).value) && EncodeBatch(Layout(s).value) == s
  {
    var b := Layout(s).value;
    LaidOutFits(s, b);
    FixedBack(b, s);
    TableBack(s, b);
    SamplesBack(s, b);
    JoinPieces(s, FIXED_LEN, TableEnd(s), TableEnd(s) + AdamLen(s), FixedEnd(s));
  }

  lemma SamplesBack(s: seq<byte>, b: Batch)
    requires Layout(s) == Some(b)
    ensures b.adam == s[TableEnd(s)..TableEnd(s) + AdamLen(s)] && b.uri == s[TableEnd(s) + AdamLen(s)..FixedEnd(s)]
    ensures Concat(b.samples) == s[FixedEnd(s)..]
  {
    ConcatCut(s[FixedEnd(s)..], Lens(s));
  }

  /** What is laid out has no empty text, no empty sample, and at least one sample. */
  lemma NothingIsEmpty(s: seq<byte>)
    requires Layout(s).Some?
    ensures var b := Layout(s).value;
            b.adam != [] && b.uri != [] && b.samples != [] && forall i :: 0 <= i < |b.samples| ==> b.samples[i] != []
  {
    LaidOutFits(s, Layout(s).value);
  }

  lemma TableBack(s: seq<byte>, b: Batch)
    requires HeaderOk(s) && Sizes(b.samples) == Lens(s)
    ensures Table(Sizes(b.samples)) == s[FIXED_LEN..TableEnd(s)]
  {
    WriteTableBack(s, FIXED_LEN, Count(s));
  }

  lemma LaidOutFits(s: seq<byte>, b: Batch)
    requires Layout(s) == Some(b)
    ensures WellFormed(b) && Sizes(b.samples) == Lens(s) && |b.samples| == Count(s)
    ensures |b.adam| == AdamLen(s) && |b.uri| == UriLen(s)
  {
    assert Sizes(b.samples) == Lens(s);
    assert forall i :: 0 <= i < |b.samples| ==> |b.samples[i]| == Lens(s)[i];
  }

  /** A payload is the encoding of at most one batch. */
  lemma EncodingIsUnique(a: Batch, b: Batch)
    requires WellFormed(a) && WellFormed(b) && EncodeBatch(a) == EncodeBatch(b)
    ensures a == b
  {
    LayoutEncode(a);
    LayoutEncode(b);
  }

  // ---------------------------------------------------------------- limits of the two parsers

  /** What the TCP front end (Rust) takes. */
  predicate RustTakes(b: Batch) {
    && (forall i :: 0 <= i < |b.samples| ==> |b.samples[i]| <= RUST_MAX_SAMPLE)
    && IsUtf8(b.adam) && IsUtf8(b.uri)
  }

  /** What the worker (C++) takes. */
  predicate CppTakes(b: Batch) {
    |Concat(b.samples)| <= CPP_MAX_SAMPLES
  }

  datatype BatchError =
    | TooShort | EmptyField | TooLarge | TruncatedHeader | BadSampleLength | NotUtf8 | TruncatedSample | TrailingBytes

  /** Unsigned 64-bit arithmetic. */
  function Wrap64(n: nat): nat { n % USIZE_LIMIT }

  lemma NoWrap(n: nat)
    requires n < USIZE_LIMIT
    ensures Wrap64(n) == n
  {
  }

  function CheckedAdd(a: nat, b: nat): Option<nat> {
    if a + b < USIZE_LIMIT then Some(a + b) else None
  }

  function CheckedMul(a: nat, b: nat): Option<nat> {
    if a * b < USIZE_LIMIT then Some(a * b) else None
  }

  /** Why the front end refuses a payload. */
  predicate Refuses(s: seq<byte>, e: BatchError) {
    match e
    case TooShort => |s| < FIXED_LEN
    case EmptyField => |s| >= FIXED_LEN && (AdamLen(s) == 0 || UriLen(s) == 0 || Count(s) == 0)
    case TooLarge => false
    case TruncatedHeader => |s| >= FIXED_LEN && |s| < FixedEnd(s)
    case BadSampleLength =>
      HeaderOk(s) && !LengthsOk(Lens(s))
    case NotUtf8 => HeaderOk(s) && !(IsUtf8(Adam(s)) && IsUtf8(Uri(s)))
    case TruncatedSample => HeaderOk(s) && FixedEnd(s) + Sum(Lens(s)) > |s|
    case TrailingBytes => HeaderOk(s) && FixedEnd(s) + Sum(Lens(s)) < |s|
  }

  /** The checks of the front end's parser, all of them passed. */
  predicate RustAccepts(s: seq<byte>) {
    && HeaderOk(s)
    && LengthsOk(Lens(s))
    && IsUtf8(Adam(s)) && IsUtf8(Uri(s))
    && FixedEnd(s) + Sum(Lens(s)) == |s|
  }

  /** The front end accepts exactly the encodings of batches within its limits. */
  lemma RustAcceptsEncodings(s: seq<byte>)
    ensures RustAccepts(s) <==> Layout(s).Some? && RustTakes(Layout(s).value)
    ensures Layout(s).Some? ==>
              var b := Layout(s).value;
              RustTakes(b) <==> IsUtf8(b.adam) && IsUtf8(b.uri)
                                && forall i :: 0 <= i < |b.samples| ==> |b.samples[i]| <= 67_108_864
  {
    if Layout(s).Some? {
      var b := Layout(s).value;
      assert Sizes(b.samples) == Lens(s);
      assert forall i :: 0 <= i < Count(s) ==> |b.samples[i]| == Lens(s)[i];
    }
  }

  /** The fixed part of parse_decrypt_batch_payload: sizes and bounds, with checked sums. */
  method RustHeader(body: seq<byte>) returns (e: Option<BatchError>, tableEnd: nat, fixedEnd: nat)
    requires |body| < SLICE_LIMIT
    ensures e.None? <==> HeaderOk(body)
    ensures e.None? ==> tableEnd == TableEnd(body) && fixedEnd == FixedEnd(body)
    ensures e.Some? ==> Refuses(body, e.value)
  {
    tableEnd, fixedEnd := 0, 0;
    if |body| < 8 {
      e := Some(TooShort);
      return;
    }
    var adamLen: nat := ReadU16(body, 0);
    var uriLen: nat := ReadU16(body, 2);
    var sampleCount: nat := ReadU32(body, 4);
    if adamLen == 0 || uriLen == 0 || sampleCount == 0 {
      e := Some(EmptyField);
      return;
    }
    var tableBytes := CheckedMul(sampleCount, 4);
    if tableBytes.None? { e := Some(TooLarge); return; }
    var end := CheckedAdd(8, tableBytes.value);
    if end.None? { e := Some(TooLarge); return; }
    tableEnd := end.value;
    end := CheckedAdd(tableEnd, adamLen);
    if end.None? { e := Some(TooLarge); return; }
    end := CheckedAdd(end.value, uriLen);
    if end.None? { e := Some(TooLarge); return; }
    fixedEnd := end.value;
    e := if |body| < fixedEnd then Some(TruncatedHeader) else None;
  }

  /** main.rs parse_decrypt_batch_payload: an accepted payload is the encoding of the result,
      and a refusal names something that is wrong with the payload. */
  method RustParse(body: seq<byte>) returns (r: Result<Batch, BatchError>)
    requires |body| < SLICE_LIMIT
    ensures r.Ok? <==> RustAccepts(body)
    ensures r.Ok? ==> Layout(body) == Some(r.value)
    ensures r.Err? ==> Refuses(body, r.error)
  {
    var e, tableEnd, sampleStart := RustHeader(body);
    if e.Some? {
      return Err(e.value);
    }
    var lengths, bad := TakeLengths(body, ReadU32(body, 4));
    if bad {
      return Err(BadSampleLength);
    }
    assert lengths == Lens(body);
    var uriStart := tableEnd + ReadU16(body, 0);
    var adam, uri := body[tableEnd..uriStart], body[uriStart..sampleStart];
    if !IsUtf8(adam) || !IsUtf8(uri) {
      return Err(NotUtf8);
    }
    var samples := TakeSamples(body, sampleStart, lengths);
    r := if samples.Ok? then Ok(Batch(adam, uri, samples.value)) else Err(samples.error);
  }

  /** The length loop of parse_decrypt_batch_payload. */
  method TakeLengths(body: seq<byte>, count: nat) returns (lengths: seq<nat>, bad: bool)
    requires 8 + 4 * count <= |body|
    ensures bad <==> !LengthsOk(ReadTable(body, FIXED_LEN, count))
    ensures !bad ==> lengths == ReadTable(body, FIXED_LEN, count)
  {
    ghost var lens := ReadTable(body, FIXED_LEN, count);
    lengths := [];
    for i := 0 to count
      invariant lengths == lens[..i]
      invariant forall j :: 0 <= j < i ==> 0 < lens[j] <= RUST_MAX_SAMPLE
    {
      var off := 8 + i * 4;
      var len := ReadU32(body, off);
      assert len == lens[i];
      if len == 0 || len > 64 * 1024 * 1024 {
        return lengths, true;
      }
      lengths := lengths + [len];
    }
    bad := false;
  }

  /** The sample loop and the final length check, which both Rust parsers have. */
  method TakeSamples(body: seq<byte>, start: nat, lengths: seq<nat>) returns (r: Result<Samples, BatchError>)
    requires start <= |body| < SLICE_LIMIT && AllU32(lengths)
    ensures r.Ok? <==> start + Sum(lengths) == |body|
    ensures r.Ok? ==> r.value == Cut(body[start..], lengths)
    ensures r == Err(TruncatedSample) ==> start + Sum(lengths) > |body|
    ensures r == Err(TrailingBytes) ==> start + Sum(lengths) < |body|
    ensures r.Err? ==> r.error.TruncatedSample? || r.error.TrailingBytes?
  {
    var offset: nat := start;
    var samples: Samples := [];
    NoneTaken(body, start, lengths);
    for i := 0 to |lengths|
      invariant Taken(body, start, lengths, i, offset, samples)
    {
      TakeOne(body, start, lengths, i, offset, samples);
      var end := CheckedAdd(offset, lengths[i]);
      if end.None? { return Err(TooLarge); }
      if end.value > |body| {
        return Err(TruncatedSample);
      }
      samples := samples + [body[offset..end.value]];
      offset := end.value;
    }
    AllTaken(body, start, lengths, offset, samples);
    if offset != |body| {
      return Err(TrailingBytes);
    }
    r := Ok(samples);
  }

  /** The first i samples were copied out of the payload, up to offset. */
  predicate Taken(s: seq<byte>, start: nat, lens: seq<nat>, i: nat, offset: nat, samples: Samples) {
    && i <= |lens| && start <= offset <= |s| && offset == start + Sum(lens[..i])
    && Sizes(samples) == lens[..i] && Concat(samples) == s[start..offset]
  }

  lemma NoneTaken(s: seq<byte>, start: nat, lens: seq<nat>)
    requires start <= |s|
    ensures Taken(s, start, lens, 0, start, [])
  {
  }

  /** One more sample. */
  lemma {:induction false} TakeOne(s: seq<byte>, start: nat, lens: seq<nat>, i: nat, offset: nat, samples: Samples)
    requires i < |lens| && Taken(s, start, lens, i, offset, samples)
    ensures offset + lens[i] <= start + Sum(lens)
    ensures offset + lens[i] <= |s| ==>
              Taken(s, start, lens, i + 1, offset + lens[i], samples + [s[offset..offset + lens[i]]])
  {
    SumStep(lens, i);
    var end := offset + lens[i];
    if end <= |s| {
      ConcatAppend(samples, s[offset..end]);
      assert s[start..end] == s[start..offset] + s[offset..end];
      assert Sizes(samples + [s[offset..end]]) == Sizes(samples) + [lens[i]];
    }
  }

  lemma AllTaken(s: seq<byte>, start: nat, lens: seq<nat>, offset: nat, samples: Samples)
    requires Taken(s, start, lens, |lens|, offset, samples)
    ensures offset == start + Sum(lens)
    ensures offset == |s| ==> Sum(lens) == |s[start..]| && samples == Cut(s[start..], lens)
  {
    assert lens[..|lens|] == lens;
    if offset == |s| {
      assert s[start..offset] == s[start..];
      CutIs(s[start..], lens, samples);
    }
  }

  lemma SumStep(lens: seq<nat>, i: nat)
    requires i < |lens|
    ensures lens[..i + 1] == lens[..i] + [lens[i]]
    ensures Sum(lens[..i + 1]) == Sum(lens[..i]) + lens[i] <= Sum(lens)
  {
    SumAppend(lens[..i], lens[i]);
    assert lens[..i] + [lens[i]] == lens[..i + 1];
    SumSplit(lens, i + 1);
  }

  predicate CppAccepts(s: seq<byte>) {
    && HeaderOk(s) && NoneEmpty(Lens(s))
    && Sum(Lens(s)) <= CPP_MAX_SAMPLES
    && FixedEnd(s) + Sum(Lens(s)) == |s|
  }

  /** The worker accepts exactly the encodings whose samples are at most 256 MiB together. */
  lemma CppAcceptsEncodings(s: seq<byte>)
    ensures CppAccepts(s) <==> Layout(s).Some? && CppTakes(Layout(s).value)
    ensures Layout(s).Some? ==> (CppTakes(Layout(s).value) <==> |Concat(Layout(s).value.samples)| <= 268_435_456)
  {
    if Layout(s).Some? {
      ConcatCut(s[FixedEnd(s)..], Lens(s));
    }
  }

  /** ipc.cpp parse_decrypt_payload.  Its 64-bit sums never wrap. */
  method CppParse(payload: seq<byte>) returns (r: Option<Batch>)
    requires |payload| < SLICE_LIMIT
    ensures r.Some? <==> CppAccepts(payload)
    ensures r.Some? ==> r == Layout(payload)
  {
    var header, tableEnd, fixed := CppHeader(payload);
    if !header {
      return None;
    }
    var lengths, sampleBytes, ok := CppLengths(payload, ReadU32(payload, 4));
    if !ok {
      return None;
    }
    NoWrap(fixed + sampleBytes);
    if Wrap64(fixed + sampleBytes) != |payload| {
      return None;
    }
    var uriStart := tableEnd + ReadU16(payload, 0);
    var samples := CppTake(payload, fixed, lengths);
    r := Some(Batch(payload[tableEnd..uriStart], payload[uriStart..fixed], samples));
  }

  /** The fixed part of parse_decrypt_payload. */
  method CppHeader(payload: seq<byte>) returns (ok: bool, tableEnd: nat, fixed: nat)
    ensures ok <==> HeaderOk(payload)
    ensures ok ==> tableEnd == TableEnd(payload) && fixed == FixedEnd(payload)
  {
    ok, tableEnd, fixed := false, 0, 0;
    if |payload| < 8 {
      return;
    }
    var adamLen: nat := ReadU16(payload, 0);
    var uriLen: nat := ReadU16(payload, 2);
    var sampleCount: nat := ReadU32(payload, 4);
    if adamLen == 0 || uriLen == 0 || sampleCount == 0 {
      return;
    }
    NoWrap(sampleCount * 4);
    NoWrap(8 + sampleCount * 4 + adamLen + uriLen);
    var tableBytes := Wrap64(sampleCount * 4);
    tableEnd := 8 + tableBytes;
    fixed := Wrap64(8 + tableBytes + adamLen + uriLen);
    ok := fixed <= |payload|;
  }

  /** The length loop of parse_decrypt_payload. */
  method CppLengths(payload: seq<byte>, count: nat) returns (lengths: seq<nat>, sampleBytes: nat, ok: bool)
    requires 8 + 4 * count <= |payload|
    ensures var lens := ReadTable(payload, FIXED_LEN, count);
            && (ok <==> NoneEmpty(lens) && Sum(lens) <= CPP_MAX_SAMPLES)
            && (ok ==> lengths == lens && sampleBytes == Sum(lens))
  {
    ghost var lens := ReadTable(payload, FIXED_LEN, count);
    lengths, sampleBytes := [], 0;
    for i := 0 to count
      invariant lengths == lens[..i]
      invariant NoneEmpty(lengths)
      invariant sampleBytes == Sum(lens[..i]) <= CPP_MAX_SAMPLES
    {
      var n := ReadU32(payload, 8 + i * 4);
      assert n == lens[i];
      SumStep(lens, i);
      if n == 0 {
        return lengths, sampleBytes, false;
      }
      NoWrap(sampleBytes + n);
      sampleBytes := Wrap64(sampleBytes + n);
      if sampleBytes > 256 * 1024 * 1024 {
        return lengths, sampleBytes, false;
      }
      lengths := lengths + [n];
    }
    assert lens[..count] == lens;
    ok := true;
  }

  /** The copying loop at the end of parse_decrypt_payload. */
  method CppTake(payload: seq<byte>, start: nat, lengths: seq<nat>) returns (samples: Samples)
    requires start + Sum(lengths) == |payload|
    ensures samples == Cut(payload[start..], lengths)
  {
    var s: nat := start;
    samples := [];
    NoneTaken(payload, start, lengths);
    for i := 0 to |lengths|
      invariant Taken(payload, start, lengths, i, s, samples)
    {
      TakeOne(payload, start, lengths, i, s, samples);
      samples := samples + [payload[s..s + lengths[i]]];
      s := s + lengths[i];
    }
    AllTaken(payload, start, lengths, s, samples);
  }

  /** protocol.rs decrypt_batch_payload: encodes exactly the batches that fit the fields. */
  method RustEncode(b: Batch) returns (r: Result<seq<byte>, BatchError>)
    ensures r.Ok? <==>
              && |b.adam| <= 65_535 && |b.uri| <= 65_535 && 0 < |b.samples| <= 0xFFFF_FFFF
              && (forall i :: 0 <= i < |b.samples| ==> 0 < |b.samples[i]| <= 0xFFFF_FFFF)
              && 8 + 4 * |b.samples| + |b.adam| + |b.uri| + |Concat(b.samples)| < 0x1_0000_0000_0000_0000
    ensures r.Ok? ==> Encodable(b) && r.value == EncodeBatch(b)
    ensures |b.samples| == 0 && |b.adam| < U16_LIMIT && |b.uri| < U16_LIMIT ==> r == Err(EmptyField)
  {
    if |b.adam| > 65535 || |b.uri| > 65535 || |b.samples| > 0xFFFF_FFFF {
      return Err(TooLarge);
    }
    if b.samples == [] {
      return Err(EmptyField);
    }
    var e := CheckSizes(8 + |b.samples| * 4 + |b.adam| + |b.uri|, b.samples);
    if e.Some? {
      return Err(e.value);
    }
    var out := U16(|b.adam|);
    out := out + U16(|b.uri|);
    out := out + U32(|b.samples|);
    out := AppendTable(out, b.samples);
    out := out + b.adam;
    out := out + b.uri;
    out := AppendSamples(out, b.samples);
    r := Ok(out);
  }

  /** The loop that adds up the sizes and refuses empty or oversized samples. */
  method CheckSizes(fixed: nat, samples: Samples) returns (e: Option<BatchError>)
    requires fixed < USIZE_LIMIT
    ensures e.None? <==>
              && (forall i :: 0 <= i < |samples| ==> 0 < |samples[i]| < U32_LIMIT)
              && fixed + |Concat(samples)| < USIZE_LIMIT
  {
    var size := fixed;
    for i := 0 to |samples|
      invariant size == fixed + |Concat(samples[..i])| < USIZE_LIMIT
      invariant forall j :: 0 <= j < i ==> 0 < |samples[j]| < U32_LIMIT
    {
      if |samples[i]| == 0 || |samples[i]| > 0xFFFF_FFFF {
        return Some(BadSampleLength);
      }
      SizeStep(samples, i);
      var next := CheckedAdd(size, |samples[i]|);
      if next.None? { return Some(TooLarge); }
      size := next.value;
    }
    assert samples[..|samples|] == samples;
    e := None;
  }

  lemma SizeStep(samples: Samples, i: nat)
    requires i < |samples|
    ensures |Concat(samples[..i + 1])| == |Concat(samples[..i])| + |samples[i]| <= |Concat(samples)|
  {
    ConcatPrefix(samples, i + 1);
    ConcatAppend(samples[..i], samples[i]);
    assert samples[..i] + [samples[i]] == samples[..i + 1];
  }

  lemma {:induction false} ConcatPrefix(samples: Samples, i: nat)
    requires i <= |samples|
    ensures |Concat(samples[..i])| <= |Concat(samples)|
    decreases |samples| - i
  {
    if i < |samples| {
      ConcatAppend(samples[..i], samples[i]);
      assert samples[..i] + [samples[i]] == samples[..i + 1];
      ConcatPrefix(samples, i + 1);
    } else {
      assert samples[..i] == samples;
    }
  }

  /** The loop that writes the length table. */
  method AppendTable(start: seq<byte>, samples: Samples) returns (out: seq<byte>)
    requires forall i :: 0 <= i < |samples| ==> |samples[i]| < U32_LIMIT
    ensures out == start + Table(Sizes(samples))
  {
    out := start;
    var lens := Sizes(samples);
    for i := 0 to |samples|
      invariant AllU32(lens[..i]) && out == start + Table(lens[..i])
    {
      TableAppend(lens[..i], lens[i]);
      assert lens[..i] + [lens[i]] == lens[..i + 1];
      assert start + (Table(lens[..i]) + U32(lens[i])) == start + Table(lens[..i]) + U32(lens[i]);
      out := out + U32(|samples[i]|);
    }
    assert lens[..|samples|] == lens;
  }

  /** The loop that writes the samples. */
  method AppendSamples(start: seq<byte>, samples: Samples) returns (out: seq<byte>)
    ensures out == start + Concat(samples)
  {
    out := start;
    for i := 0 to |samples|
      invariant out == start + Concat(samples[..i])
    {
      ConcatAppend(samples[..i], samples[i]);
      assert samples[..i] + [samples[i]] == samples[..i + 1];
      assert start + (Concat(samples[..i]) + samples[i]) == start + Concat(samples[..i]) + samples[i];
      out := out + samples[i];
    }
    assert samples[..|samples|] == samples;
  }

  // ---------------------------------------------------------------- agreement

  /** Every payload the front end accepts is re-encoded to the very same bytes, so the worker
      is sent what the client sent; and the encoder refuses none of them. */
  lemma RelayIsByteIdentical(body: seq<byte>)
    requires |body| < SLICE_LIMIT && Layout(body).Some?
    ensures Encodable(Layout(body).value)
    ensures EncodeBatch(Layout(body).value) == body && |body| < USIZE_LIMIT
  {
    EncodeLayout(body);
  }

  /** What the front end accepts, the worker's parser takes exactly if the samples are at most
      256 MiB together; in particular whenever the payload itself is. */
  lemma WorkerTakesRelayed(body: seq<byte>)
    requires RustAccepts(body)
    ensures CppAccepts(body) <==> |body| - FixedEnd(body) <= 268_435_456
    ensures |body| <= 268_435_456 ==> CppAccepts(body)
  {
  }

  /** The encoder lets an empty text through, which no parser accepts. */
  lemma EmptyTextIsLost(b: Batch)
    requires Encodable(b) && (b.adam == [] || b.uri == [])
    ensures Layout(EncodeBatch(b)).None?
  {
    var s := EncodeBatch(b);
    assert s[0..2] == U16(|b.adam|) && s[2..4] == U16(|b.uri|);
    ReadU16Back(s, 0, |b.adam|);
    ReadU16Back(s, 2, |b.uri|);
  }

  /** Of the batches that the encoder takes, exactly those without an empty text are read back. */
  lemma ReadBackExactly(b: Batch)
    requires Encodable(b)
    ensures Layout(EncodeBatch(b)) == Some(b) <==> b.adam != [] && b.uri != []
    ensures Layout(EncodeBatch(b)).Some? <==> b.adam != [] && b.uri != []
    ensures |EncodeBatch(b)| == FIXED_LEN + 4 * |b.samples| + |b.adam| + |b.uri| + |Concat(b.samples)|
  {
    if b.adam == [] || b.uri == [] {
      EmptyTextIsLost(b);
    } else {
      LayoutEncode(b);
    }
  }
}
