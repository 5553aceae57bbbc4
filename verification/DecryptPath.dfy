/**
 A decrypt request inside the worker program: parsed, decrypted with a cached or derived
 key context, and answered.
 */
module DecryptPath {
  import opened Wrappers
  import opened Bytes
  import opened SampleList
  import opened DecryptBatch
  import opened DecryptReply
  import KeyCache

  /** A JSON error, after which the supervisor may be asked to restart the worker, or binary plaintexts. */
  datatype Response = Refused(status: nat, restart: bool) | Binary(payload: seq<byte>)

  /** What the handler depends on besides the payload. */
  datatype Situation = Situation(initialized: bool, playbackReady: bool, authenticated: bool, loaded: bool,
                                 derivation: KeyCache.Derivation, outcomes: nat -> KeyCache.Outcome)

  /** The call of decrypt_samples that a batch leads to. */
  function CallFor(b: Batch, with: Situation): KeyCache.Call {
    KeyCache.Call(with.loaded, with.playbackReady, b.adam, b.uri, b.samples, with.derivation, with.outcomes)
  }

  predicate Serves(with: Situation) { with.initialized && with.playbackReady && with.authenticated }

  lemma OutputSizes(c: KeyCache.Call)
    ensures Sizes(KeyCache.Outputs(c)) == Sizes(c.ciphertexts)
  {
    var plain := KeyCache.Outputs(c);
    forall i | 0 <= i < |plain| ensures |plain[i]| == |c.ciphertexts[i]| {
      assert plain[i] == KeyCache.Output(c.ciphertexts[i], c.outcomes(i));
    }
  }

  /** Why a request is refused, if it is: by its situation, by the parser, or by the decryption.
      Only a failed decryption asks for a restart. */
  function Refusal(s: KeyCache.State, with: Situation, payload: seq<byte>): Option<Response> {
    if !with.initialized || !with.playbackReady then Some(Refused(503, false))
    else if !with.authenticated then Some(Refused(401, false))
    else if !CppAccepts(payload) then Some(Refused(400, false))
    else if KeyCache.Replied(s, CallFor(Layout(payload).value, with)).Err? then Some(Refused(502, true))
    else None
  }

  /** What the worker answers to a decrypt request in a state of its key cache. */
  function Handled(s: KeyCache.State, with: Situation, payload: seq<byte>): (r: Response)
    ensures r.Binary? <==>
              && Serves(with) && CppAccepts(payload)
              && KeyCache.Replied(s, CallFor(Layout(payload).value, with)).Ok?
  {
    if Refusal(s, with, payload).Some? then Refusal(s, with, payload).value
    else
      var plain := KeyCache.Outputs(CallFor(Layout(payload).value, with));
      OutputSizes(CallFor(Layout(payload).value, with));
      ReplyShape(payload, plain);
      Binary(EncodeReply(plain))
  }

  /** Every answer that is not binary: 503 before the worker is ready, 401 before a login, 400 for a
      payload that is no batch, and 502 for a failed decryption; only then a restart is asked for. */
  lemma RefusedExactly(s: KeyCache.State, with: Situation, payload: seq<byte>)
    ensures var r := Handled(s, with, payload);
            if !with.initialized || !with.playbackReady then r == Refused(503, false)
            else if !with.authenticated then r == Refused(401, false)
            else if !CppAccepts(payload) then r == Refused(400, false)
            else if KeyCache.Replied(s, CallFor(Layout(payload).value, with)).Err? then r == Refused(502, true)
            else r.Binary?
  {
  }

  /** The call of the decryption is made for the batch's own ids and samples. */
  lemma CallIsForTheBatch(b: Batch, with: Situation)
    ensures var c := CallFor(b, with);
            && c.adam == b.adam && c.uri == b.uri && c.ciphertexts == b.samples
            && c.loaded == with.loaded && c.ready == with.playbackReady
            && c.derivation == with.derivation && c.outcomes == with.outcomes
  {
  }

  /** A binary answer holds the plaintexts, sample for sample of the request's lengths. */
  lemma HandledShape(s: KeyCache.State, with: Situation, payload: seq<byte>)
    ensures var r := Handled(s, with, payload);
            r.Binary? ==>
              && Layout(payload).Some?
              && var b := Layout(payload).value;
                 var plain := KeyCache.Outputs(CallFor(b, with));
                 && ReplyLayout(r.payload) == Some(plain) && Sizes(plain) == Sizes(b.samples)
                 && |r.payload| == |payload| - 4 - |b.adam| - |b.uri|
  {
    if Handled(s, with, payload).Binary? {
      var c := CallFor(Layout(payload).value, with);
      OutputSizes(c);
      ReplyShape(payload, KeyCache.Outputs(c));
    }
  }

  /** The answer to a batch that the parser took. */
  function Decrypted(s: KeyCache.State, c: KeyCache.Call): Response
    requires ReplyFits(KeyCache.Outputs(c))
  {
    if KeyCache.Replied(s, c).Ok? then Binary(EncodeReply(KeyCache.Outputs(c))) else Refused(502, true)
  }

  lemma HandledParsed(s: KeyCache.State, with: Situation, payload: seq<byte>)
    requires Serves(with) && CppAccepts(payload)
    ensures var c := CallFor(Layout(payload).value, with);
            ReplyFits(KeyCache.Outputs(c)) && Handled(s, with, payload) == Decrypted(s, c)
  {
    var c := CallFor(Layout(payload).value, with);
    OutputSizes(c);
    ReplyShape(payload, KeyCache.Outputs(c));
  }

  /** handle_decrypt_batch from the decryption on. */
  method DecryptAndAnswer(cache: KeyCache.Cache, c: KeyCache.Call) returns (r: Response)
    requires ReplyFits(KeyCache.Outputs(c))
    modifies cache
    ensures r == Decrypted(old(cache.View()), c) && cache.View() == KeyCache.After(old(cache.View()), c)
  {
    var expected := |c.ciphertexts|;
    var decrypted := cache.DecryptSamples(c);
    if decrypted.Err? || |decrypted.value| != expected {
      return Refused(502, true);
    }
    var out := CppBuildReply(decrypted.value);
    r := Binary(out);
  }

  /** ipc.cpp handle_decrypt_batch: the answer, and what the key cache becomes. */
  method HandleDecryptBatch(cache: KeyCache.Cache, with: Situation, payload: seq<byte>) returns (r: Response)
    requires |payload| < SLICE_LIMIT
    modifies cache
    ensures r == Handled(old(cache.View()), with, payload)
    ensures if Serves(with) && CppAccepts(payload)
            then cache.View() == KeyCache.After(old(cache.View()), CallFor(Layout(payload).value, with))
            else cache.View() == old(cache.View())
  {
    if !with.initialized {
      return Refused(503, false);
    }
    if !with.playbackReady {
      return Refused(503, false);
    }
    if !with.authenticated {
      return Refused(401, false);
    }
    var batch := CppParse(payload);
    if batch.None? {
      return Refused(400, false);
    }
    HandledParsed(cache.View(), with, payload);
    r := DecryptAndAnswer(cache, CallFor(batch.value, with));
  }

  /** In the worker an accepted batch gets past the checks of decrypt_samples. */
  lemma AcceptedReaches(payload: seq<byte>, with: Situation)
    requires Serves(with) && CppAccepts(payload) && with.loaded
    ensures KeyCache.Reaches(CallFor(Layout(payload).value, with))
  {
    EncodeLayout(payload);
  }
}
