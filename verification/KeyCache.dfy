/**
 decrypt.cpp: the cache of native key contexts and the call that uses it.  The native key
 derivation and the native sample decryption are oracles: their outcomes are part of a call.
 */
module KeyCache {
  import opened Wrappers
  import opened Bytes
  import opened SampleList

  const NEWLINE: byte := 10

  /** The adam id of prefetched samples, "0". */
  const PREFETCH_ADAM: seq<byte> := [48]

  /** A native context: an address that is not null. */
  type Context = kd: nat | kd > 0 witness 1

  function Key(adam: seq<byte>, uri: seq<byte>): seq<byte> { adam + [NEWLINE] + uri }

  // ---------------------------------------------------------------- the call

  /** What the four native steps of a key derivation come to. */
  datatype Derivation = NoPersistentKey | NoContext | NullContext | NullInner | DeriveThrew | Derived(kd: Context)

  /** What the native decryption of one sample does: fail, throw, or overwrite the sample in place. */
  datatype Outcome = Status(status: int) | DecryptThrew | Overwrite(bytes: nat -> byte)

  datatype Cause =
    | PrefetchNotCached
    | DerivationFailed(how: Derivation)
    | EmptySample
    | SampleFailed(status: int)
    | Threw

  datatype Error = NotLoaded | NotReady | MissingId | NoSamples | Failed(first: Cause)

  datatype Call = Call(loaded: bool, ready: bool, adam: seq<byte>, uri: seq<byte>,
                       ciphertexts: Samples, derivation: Derivation, outcomes: nat -> Outcome)

  type Reply = Result<Samples, Error>

  /** A derivation that succeeded, and a context handed to the native decryption. */
  datatype Pairing = Pairing(adam: seq<byte>, uri: seq<byte>, kd: Context)

  datatype State = State(entries: map<seq<byte>, Context>, derived: set<Pairing>, used: set<Pairing>)

  const EMPTY: State := State(map[], {}, {})

  function Overwritten(chunk: seq<byte>, bytes: nat -> byte): (s: seq<byte>)
    ensures |s| == |chunk|
  {
    seq(|chunk|, i requires 0 <= i < |chunk| => bytes(i))
  }

  /** Why the sample at i cannot be decrypted, if so. */
  function Bad(chunk: seq<byte>, outcome: Outcome): Option<Cause> {
    if chunk == [] then Some(EmptySample)
    else match outcome
      case Status(status) => if status < 0 then Some(SampleFailed(status)) else None
      case DecryptThrew => Some(Threw)
      case Overwrite(_) => None
  }

  /** What is in the sample's buffer afterwards; a non-negative status with nothing written leaves it. */
  function Output(chunk: seq<byte>, outcome: Outcome): (s: seq<byte>)
    ensures |s| == |chunk|
  {
    if outcome.Overwrite? then Overwritten(chunk, outcome.bytes) else chunk
  }

  /** The first sample, from i on, that fails. */
  function FirstBad(c: Call, i: nat): Option<Cause>
    requires i <= |c.ciphertexts|
    decreases |c.ciphertexts| - i
  {
    if i == |c.ciphertexts| then None
    else
      var bad := Bad(c.ciphertexts[i], c.outcomes(i));
      if bad.Some? then bad else FirstBad(c, i + 1)
  }

  function Outputs(c: Call): (plain: Samples)
    ensures |plain| == |c.ciphertexts|
  {
    seq(|c.ciphertexts|, i requires 0 <= i < |c.ciphertexts| => Output(c.ciphertexts[i], c.outcomes(i)))
  }

  /** Whether the call gets past the checks at its start. */
  predicate Reaches(c: Call) {
    c.loaded && c.ready && c.adam != [] && c.uri != [] && c.ciphertexts != []
  }

  /** The context that the attempt works with: the cached one, or a new one, or none. */
  function Obtained(s: State, c: Call): Result<Context, Cause> {
    var key := Key(c.adam, c.uri);
    if key in s.entries then Ok(s.entries[key])
    else if c.adam == PREFETCH_ADAM then Err(PrefetchNotCached)
    else match c.derivation
      case Derived(kd) => Ok(kd)
      case DeriveThrew => Err(Threw)
      case _ => Err(DerivationFailed(c.derivation))
  }

  /** The state once a context was obtained: a new one is stored. */
  function Stored(s: State, c: Call, kd: Context): State {
    var key := Key(c.adam, c.uri);
    if key in s.entries then s
    else s.(entries := s.entries[key := kd], derived := s.derived + {Pairing(c.adam, c.uri, kd)})
  }

  function Used(s: State, c: Call, kd: Context): State
    requires c.ciphertexts != []
  {
    if c.ciphertexts[0] == [] then s else s.(used := s.used + {Pairing(c.adam, c.uri, kd)})
  }

  function Erased(s: State, c: Call): State { s.(entries := s.entries - {Key(c.adam, c.uri)}) }

  function After(s: State, c: Call): State {
    if !Reaches(c) then s
    else
      var kd := Obtained(s, c);
      if kd.Err? then Erased(s, c)
      else
        var s' := Used(Stored(s, c, kd.value), c, kd.value);
        if FirstBad(c, 0).Some? then Erased(s', c) else s'
  }

  function Replied(s: State, c: Call): Reply {
    if !c.loaded then Err(NotLoaded)
    else if !c.ready then Err(NotReady)
    else if c.adam == [] || c.uri == [] then Err(MissingId)
    else if c.ciphertexts == [] then Err(NoSamples)
    else
      var kd := Obtained(s, c);
      if kd.Err? then Err(Failed(kd.error))
      else if FirstBad(c, 0).Some? then Err(Failed(FirstBad(c, 0).value))
      else Ok(Outputs(c))
  }

  // ---------------------------------------------------------------- the code

  class Cache {
    var entries: map<seq<byte>, Context>
    ghost var derived: set<Pairing>
    ghost var used: set<Pairing>

    ghost function View(): State
      reads this
    {
      State(entries, derived, used)
    }

    constructor ()
      ensures View() == EMPTY
    {
      entries, derived, used := map[], {}, {};
    }

    /** decrypt.cpp find_cached_kd */
    method Find(adam: seq<byte>, uri: seq<byte>) returns (kd: Option<Context>)
      ensures kd == if Key(adam, uri) in entries then Some(entries[Key(adam, uri)]) else None
    {
      var key := Key(adam, uri);
      kd := if key in entries then Some(entries[key]) else None;
    }

    /** decrypt.cpp store_cached_kd */
    method Store(adam: seq<byte>, uri: seq<byte>, kd: Context)
      modifies this`entries
      ensures entries == old(entries)[Key(adam, uri) := kd]
    {
      entries := entries[Key(adam, uri) := kd];
    }

    /** decrypt.cpp erase_cached_kd */
    method Erase(adam: seq<byte>, uri: seq<byte>)
      modifies this`entries
      ensures entries == old(entries) - {Key(adam, uri)}
    {
      entries := entries - {Key(adam, uri)};
    }

    /** The native call on one sample, whose buffer is both its input and its output. */
    method DecryptInPlace(kd: Context, buffer: array<byte>, outcome: Outcome, ghost c: Call)
        returns (status: Option<int>)
      modifies buffer, this`used
      ensures used == old(used) + {Pairing(c.adam, c.uri, kd)}
      ensures buffer[..] == Output(old(buffer[..]), outcome)
      ensures status == if outcome.DecryptThrew? then None
                        else if outcome.Status? then Some(outcome.status)
                        else Some(0)
    {
      used := used + {Pairing(c.adam, c.uri, kd)};
      match outcome {
        case Status(n) =>
          status := Some(n);
        case DecryptThrew =>
          status := None;
        case Overwrite(bytes) =>
          forall i | 0 <= i < buffer.Length {
            buffer[i] := bytes(i);
          }
          assert buffer[..] == Overwritten(old(buffer[..]), bytes);
          status := Some(0);
      }
    }

    /** The samples of an attempt, one after the other, on copies of the request's. */
    method DecryptAll(kd: Context, c: Call) returns (r: Result<Samples, Cause>)
      requires c.ciphertexts != []
      modifies this`used
      ensures View() == Used(old(View()), c, kd)
      ensures r == if FirstBad(c, 0).Some? then Err(FirstBad(c, 0).value) else Ok(Outputs(c))
    {
      var plaintexts: Samples := [];
      ghost var use := Pairing(c.adam, c.uri, kd);
      for i := 0 to |c.ciphertexts|
        invariant FirstBad(c, 0) == FirstBad(c, i)
        invariant plaintexts == Outputs(c)[..i]
        invariant used == if i == 0 then old(used) else old(used) + {use}
        invariant i > 0 ==> c.ciphertexts[0] != []
      {
        var chunk := c.ciphertexts[i];
        if |chunk| == 0 {
          return Err(EmptySample);
        }
        var buffer := new byte[|chunk|](k requires 0 <= k < |chunk| => chunk[k]);
        assert buffer[..] == chunk;
        var status := DecryptInPlace(kd, buffer, c.outcomes(i), c);
        assert used == old(used) + {use};
        if status.None? {
          return Err(Threw);
        }
        if status.value < 0 {
          return Err(SampleFailed(status.value));
        }
        plaintexts := plaintexts + [buffer[..]];
      }
      assert plaintexts == Outputs(c);
      r := Ok(plaintexts);
    }

    /** The attempt of decrypt_samples; its exceptions are Err(Threw). */
    method DecryptOnce(c: Call) returns (r: Result<Samples, Cause>)
      requires Reaches(c)
      modifies this
      ensures var kd := Obtained(old(View()), c);
              && (kd.Err? ==> r == Err(kd.error) && View() == old(View()))
              && (kd.Ok? ==>
                    && View() == Used(Stored(old(View()), c, kd.value), c, kd.value)
                    && r == if FirstBad(c, 0).Some? then Err(FirstBad(c, 0).value) else Ok(Outputs(c)))
    {
      var kd := Find(c.adam, c.uri);
      if kd.None? && c.adam == PREFETCH_ADAM {
        return Err(PrefetchNotCached);
      }
      if kd.None? {
        match c.derivation {
          case Derived(made) =>
            Store(c.adam, c.uri, made);
            derived := derived + {Pairing(c.adam, c.uri, made)};
            kd := Some(made);
          case DeriveThrew =>
            return Err(Threw);
          case _ =>
            return Err(DerivationFailed(c.derivation));
        }
      }
      r := DecryptAll(kd.value, c);
    }

    /** decrypt.cpp decrypt_samples */
    method DecryptSamples(c: Call) returns (r: Reply)
      modifies this
      ensures View() == After(old(View()), c)
      ensures r == Replied(old(View()), c)
    {
      if !c.loaded {
        return Err(NotLoaded);
      }
      if !c.ready {
        return Err(NotReady);
      }
      if |c.adam| == 0 || |c.uri| == 0 {
        return Err(MissingId);
      }
      if |c.ciphertexts| == 0 {
        return Err(NoSamples);
      }
      var attempt := DecryptOnce(c);
      if attempt.Ok? {
        return Ok(attempt.value);
      }
      Erase(c.adam, c.uri);
      r := Err(Failed(attempt.error));
    }
  }

  // ---------------------------------------------------------------- the key

  /** Keys of ids without a newline tell the pairs apart. */
  lemma KeyIsInjective(adam: seq<byte>, uri: seq<byte>, adam': seq<byte>, uri': seq<byte>)
    requires NEWLINE !in adam && NEWLINE !in adam'
    requires Key(adam, uri) == Key(adam', uri')
    ensures adam == adam' && uri == uri'
  {
    var k, k' := Key(adam, uri), Key(adam', uri');
    assert k[|adam|] == NEWLINE && k'[|adam'|] == NEWLINE;
    assert forall i :: 0 <= i < |adam| ==> k[i] == adam[i];
    assert forall i :: 0 <= i < |adam'| ==> k'[i] == adam'[i];
    assert |adam| == |adam'|;
    assert k[..|adam|] == adam && k'[..|adam'|] == adam';
    assert k[|adam| + 1..] == uri && k'[|adam'| + 1..] == uri';
  }

  /** An id with a newline shares each of its keys with another pair. */
  lemma KeyCollides(adam: seq<byte>, uri: seq<byte>) returns (adam': seq<byte>, uri': seq<byte>)
    requires NEWLINE in adam
    ensures adam' != adam && Key(adam, uri) == Key(adam', uri')
  {
    var i :| 0 <= i < |adam| && adam[i] == NEWLINE;
    adam', uri' := adam[..i], adam[i + 1..] + [NEWLINE] + uri;
    assert adam == adam[..i] + [NEWLINE] + adam[i + 1..];
  }

  // ---------------------------------------------------------------- all runs

  function Run(s: State, calls: seq<Call>): State
    decreases |calls|
  {
    if calls == [] then s else Run(After(s, calls[0]), calls[1..])
  }

  /** A context that came from a derivation for this key. */
  ghost predicate FromKey(s: State, key: seq<byte>, kd: Context) {
    exists d :: d in s.derived && Key(d.adam, d.uri) == key && d.kd == kd
  }

  ghost predicate Coherent(s: State) {
    && (forall key :: key in s.entries ==> FromKey(s, key, s.entries[key]))
    && (forall u :: u in s.used ==> FromKey(s, Key(u.adam, u.uri), u.kd))
  }

  lemma FromKeyStays(s: State, t: State, key: seq<byte>, kd: Context)
    requires FromKey(s, key, kd) && s.derived <= t.derived
    ensures FromKey(t, key, kd)
  {
    var d :| d in s.derived && Key(d.adam, d.uri) == key && d.kd == kd;
    assert d in t.derived;
  }

  lemma StoredFrom(s: State, c: Call, kd: Context)
    requires Coherent(s) && Obtained(s, c) == Ok(kd)
    ensures FromKey(Stored(s, c, kd), Key(c.adam, c.uri), kd)
  {
    if Key(c.adam, c.uri) !in s.entries {
      assert Pairing(c.adam, c.uri, kd) in Stored(s, c, kd).derived;
    }
  }

  lemma AfterKeepsCoherent(s: State, c: Call)
    requires Coherent(s)
    ensures Coherent(After(s, c))
  {
    var t := After(s, c);
    assert s.derived <= t.derived;
    if Reaches(c) && Obtained(s, c).Ok? {
      var kd := Obtained(s, c).value;
      StoredFrom(s, c, kd);
      FromKeyStays(Stored(s, c, kd), t, Key(c.adam, c.uri), kd);
    }
    forall key | key in t.entries ensures FromKey(t, key, t.entries[key]) {
      if key != Key(c.adam, c.uri) || key in s.entries {
        FromKeyStays(s, t, key, s.entries[key]);
      }
    }
    forall u | u in t.used ensures FromKey(t, Key(u.adam, u.uri), u.kd) {
      if u in s.used {
        FromKeyStays(s, t, Key(u.adam, u.uri), u.kd);
      }
    }
  }

  lemma {:induction false} RunKeepsCoherent(s: State, calls: seq<Call>)
    requires Coherent(s)
    ensures Coherent(Run(s, calls))
    decreases |calls|
  {
    if calls != [] {
      AfterKeepsCoherent(s, calls[0]);
      RunKeepsCoherent(After(s, calls[0]), calls[1..]);
    }
  }

  /** The ids of the pairs that were worked on. */
  predicate Plain(s: State) {
    && (forall d :: d in s.derived ==> NEWLINE !in d.adam)
    && (forall u :: u in s.used ==> NEWLINE !in u.adam)
  }

  predicate PlainCalls(calls: seq<Call>) {
    forall i :: 0 <= i < |calls| ==> NEWLINE !in calls[i].adam
  }

  lemma {:induction false} RunKeepsPlain(s: State, calls: seq<Call>)
    requires Plain(s) && PlainCalls(calls)
    ensures Plain(Run(s, calls))
    decreases |calls|
  {
    if calls != [] {
      assert Plain(After(s, calls[0]));
      RunKeepsPlain(After(s, calls[0]), calls[1..]);
    }
  }

  /** In every run whose ids have no newline, each context used for a pair was derived for it. */
  lemma UsedForItsOwnPair(calls: seq<Call>, u: Pairing)
    requires PlainCalls(calls) && u in Run(EMPTY, calls).used
    ensures u in Run(EMPTY, calls).derived
  {
    var s := Run(EMPTY, calls);
    RunKeepsCoherent(EMPTY, calls);
    RunKeepsPlain(EMPTY, calls);
    assert FromKey(s, Key(u.adam, u.uri), u.kd);
    var d :| d in s.derived && Key(d.adam, d.uri) == Key(u.adam, u.uri) && d.kd == u.kd;
    KeyIsInjective(d.adam, d.uri, u.adam, u.uri);
  }

  /** Another pair that the checks and the prefetch rule let through has the same key: the key
      splits at another newline. */
  ghost predicate HasTwin(adam: seq<byte>, uri: seq<byte>) {
    exists i :: SplitsAt(Key(adam, uri), i) && i != |adam|
  }

  predicate SplitsAt(key: seq<byte>, i: int) {
    0 < i < |key| - 1 && key[i] == NEWLINE && key[..i] != PREFETCH_ADAM
  }

  /** Contexts are only derived for pairs that the checks let through. */
  predicate DerivedProperly(s: State) {
    forall d :: d in s.derived ==> d.adam != [] && d.uri != [] && d.adam != PREFETCH_ADAM
  }

  lemma {:induction false} RunDerivesProperly(s: State, calls: seq<Call>)
    requires DerivedProperly(s)
    ensures DerivedProperly(Run(s, calls))
    decreases |calls|
  {
    if calls != [] {
      RunDerivesProperly(After(s, calls[0]), calls[1..]);
    }
  }

  /** In every run at all, whatever is used for the pair was derived for the pair. */
  ghost predicate OwnOnly(adam: seq<byte>, uri: seq<byte>) {
    forall calls: seq<Call>, kd: Context ::
      Pairing(adam, uri, kd) in Run(EMPTY, calls).used ==> Pairing(adam, uri, kd) in Run(EMPTY, calls).derived
  }

  lemma KeySplits(adam: seq<byte>, uri: seq<byte>)
    requires adam != [] && uri != [] && adam != PREFETCH_ADAM
    ensures SplitsAt(Key(adam, uri), |adam|)
    ensures Key(adam, uri)[..|adam|] == adam && Key(adam, uri)[|adam| + 1..] == uri
  {
  }

  lemma NoTwinNoMixing(adam: seq<byte>, uri: seq<byte>, calls: seq<Call>, kd: Context)
    requires !HasTwin(adam, uri) && Pairing(adam, uri, kd) in Run(EMPTY, calls).used
    ensures Pairing(adam, uri, kd) in Run(EMPTY, calls).derived
  {
    var s := Run(EMPTY, calls);
    RunKeepsCoherent(EMPTY, calls);
    RunDerivesProperly(EMPTY, calls);
    assert FromKey(s, Key(adam, uri), kd);
    var d :| d in s.derived && Key(d.adam, d.uri) == Key(adam, uri) && d.kd == kd;
    KeySplits(d.adam, d.uri);
    assert |d.adam| == |adam|;
    assert Key(adam, uri)[..|adam|] == adam && Key(adam, uri)[|adam| + 1..] == uri;
  }

  /** A call that derives kd, and whose samples all decrypt. */
  function Deriving(adam: seq<byte>, uri: seq<byte>, kd: Context): Call {
    Call(true, true, adam, uri, [[9]], Derived(kd), (i: nat) => Status(0))
  }

  lemma DerivingStores(adam: seq<byte>, uri: seq<byte>, kd: Context)
    requires adam != [] && uri != [] && adam != PREFETCH_ADAM
    ensures var s := After(EMPTY, Deriving(adam, uri, kd));
            s.entries == map[Key(adam, uri) := kd] && s.derived == {Pairing(adam, uri, kd)}
  {
    var c := Deriving(adam, uri, kd);
    assert FirstBad(c, 0) == FirstBad(c, 1) == None;
  }

  lemma RunTwo(first: Call, second: Call)
    ensures Run(EMPTY, [first]) == After(EMPTY, first)
    ensures Run(EMPTY, [first, second]) == After(After(EMPTY, first), second)
  {
    assert [first][1..] == [] && [first, second][1..] == [second] && [second][1..] == [];
    var s := After(EMPTY, first);
    assert Run(After(s, second), []) == After(s, second);
    assert Run(s, [second]) == After(s, second);
  }

  /** The twin's context is used for the pair. */
  lemma TwinMixes(adam: seq<byte>, uri: seq<byte>) returns (calls: seq<Call>, kd: Context)
    requires adam != [] && uri != [] && HasTwin(adam, uri)
    ensures Pairing(adam, uri, kd) in Run(EMPTY, calls).used && Pairing(adam, uri, kd) !in Run(EMPTY, calls).derived
  {
    var key := Key(adam, uri);
    var i :| SplitsAt(key, i) && i != |adam|;
    kd := 7;
    var first, second := Deriving(key[..i], key[i + 1..], kd), Deriving(adam, uri, 8);
    assert Key(first.adam, first.uri) == key;
    DerivingStores(first.adam, first.uri, kd);
    RunTwo(first, second);
    calls := [first, second];
    assert |first.adam| != |adam|;
    var s := After(EMPTY, first);
    assert Obtained(s, second) == Ok(kd) && Stored(s, second, kd) == s;
    assert FirstBad(second, 0) == FirstBad(second, 1) == None;
    assert Run(EMPTY, calls) == Used(s, second, kd);
  }

  /** A pair only ever sees its own contexts exactly if its key does not split elsewhere. */
  lemma OwnContextExactly(adam: seq<byte>, uri: seq<byte>)
    requires adam != [] && uri != []
    ensures OwnOnly(adam, uri) <==> !HasTwin(adam, uri)
  {
    if HasTwin(adam, uri) {
      var calls, kd := TwinMixes(adam, uri);
    } else {
      forall calls: seq<Call>, kd: Context | Pairing(adam, uri, kd) in Run(EMPTY, calls).used
        ensures Pairing(adam, uri, kd) in Run(EMPTY, calls).derived
      {
        NoTwinNoMixing(adam, uri, calls, kd);
      }
    }
  }

  /** An example: two pairs of ids and uris with one key. */
  lemma UsedForAnotherPair()
    ensures Key([1, NEWLINE, 2], [3]) == Key([1], [2, NEWLINE, 3]) && !OwnOnly([1], [2, NEWLINE, 3])
  {
    var key := [1, NEWLINE, 2, NEWLINE, 3];
    assert Key([1, NEWLINE, 2], [3]) == key && Key([1], [2, NEWLINE, 3]) == key;
    assert SplitsAt(key, 3);
    OwnContextExactly([1], [2, NEWLINE, 3]);
  }

  // ---------------------------------------------------------------- the prefetch id

  /** No entry was made for the prefetch id, and none of another pair looks like one. */
  ghost predicate NoPrefetch(s: State) { forall uri :: Key(PREFETCH_ADAM, uri) !in s.entries }

  lemma AfterKeepsNoPrefetch(s: State, c: Call)
    requires NoPrefetch(s) && NEWLINE !in c.adam
    ensures NoPrefetch(After(s, c)) && (c.adam == PREFETCH_ADAM ==> Replied(s, c).Err?)
  {
    forall uri ensures Key(PREFETCH_ADAM, uri) !in After(s, c).entries {
      if Key(PREFETCH_ADAM, uri) == Key(c.adam, c.uri) {
        KeyIsInjective(PREFETCH_ADAM, uri, c.adam, c.uri);
      }
    }
  }

  lemma {:induction false} RunKeepsNoPrefetch(s: State, calls: seq<Call>)
    requires NoPrefetch(s) && PlainCalls(calls)
    ensures NoPrefetch(Run(s, calls))
    decreases |calls|
  {
    if calls != [] {
      AfterKeepsNoPrefetch(s, calls[0]);
      RunKeepsNoPrefetch(After(s, calls[0]), calls[1..]);
    }
  }

  /** After any such run a call for the prefetch id fails; one that gets past the checks says why. */
  lemma PrefetchAlwaysFails(calls: seq<Call>, c: Call)
    requires PlainCalls(calls) && c.adam == PREFETCH_ADAM
    ensures var r := Replied(Run(EMPTY, calls), c); r.Err? && (Reaches(c) ==> r == Err(Failed(PrefetchNotCached)))
  {
    RunKeepsNoPrefetch(EMPTY, calls);
  }

  /** In full: a call for the prefetch id that is sound otherwise fails in every run exactly if
      its key does not split elsewhere. */
  lemma PrefetchFailsExactly(c: Call)
    requires Reaches(c) && c.adam == PREFETCH_ADAM && FirstBad(c, 0).None?
    ensures (forall calls: seq<Call> :: Replied(Run(EMPTY, calls), c).Err?) <==> !HasTwin(c.adam, c.uri)
  {
    var key := Key(c.adam, c.uri);
    if HasTwin(c.adam, c.uri) {
      var i :| SplitsAt(key, i) && i != |c.adam|;
      var first := Deriving(key[..i], key[i + 1..], 7);
      assert Key(first.adam, first.uri) == key;
      DerivingStores(first.adam, first.uri, 7);
      RunTwo(first, first);
      assert Replied(Run(EMPTY, [first]), c).Ok?;
    } else {
      forall calls: seq<Call> ensures Replied(Run(EMPTY, calls), c).Err? {
        PrefetchKeyAbsent(c.uri, calls);
      }
    }
  }

  lemma PrefetchKeyAbsent(uri: seq<byte>, calls: seq<Call>)
    requires !HasTwin(PREFETCH_ADAM, uri)
    ensures Key(PREFETCH_ADAM, uri) !in Run(EMPTY, calls).entries
  {
    var s, key := Run(EMPTY, calls), Key(PREFETCH_ADAM, uri);
    RunKeepsCoherent(EMPTY, calls);
    RunDerivesProperly(EMPTY, calls);
    assert key[..1] == PREFETCH_ADAM;
    if key in s.entries {
      assert FromKey(s, key, s.entries[key]);
      var d :| d in s.derived && Key(d.adam, d.uri) == key;
      KeySplits(d.adam, d.uri);
      assert false;
    }
  }

  // ---------------------------------------------------------------- one call

  /** A call that is refused at once, and why; it changes nothing. */
  lemma ChecksFirst(s: State, c: Call)
    ensures !c.loaded ==> Replied(s, c) == Err(NotLoaded)
    ensures c.loaded && !c.ready ==> Replied(s, c) == Err(NotReady)
    ensures c.loaded && c.ready && (c.adam == [] || c.uri == []) ==> Replied(s, c) == Err(MissingId)
    ensures c.loaded && c.ready && c.adam != [] && c.uri != [] && c.ciphertexts == [] ==>
              Replied(s, c) == Err(NoSamples)
    ensures Reaches(c) <==> c.loaded && c.ready && c.adam != [] && c.uri != [] && c.ciphertexts != []
    ensures !Reaches(c) ==> After(s, c) == s
  {
  }

  /** The context that a call works with is the one stored under its id, a newline and its uri; or
      else, but not for the prefetch id "0", a new one, if the derivation makes one. */
  lemma ContextExactly(s: State, c: Call)
    ensures var key := c.adam + [10] + c.uri;
            if key in s.entries then Obtained(s, c) == Ok(s.entries[key])
            else if c.adam == [48] then Obtained(s, c) == Err(PrefetchNotCached)
            else
              && (c.derivation.Derived? ==> Obtained(s, c) == Ok(c.derivation.kd))
              && (c.derivation.DeriveThrew? ==> Obtained(s, c) == Err(Threw))
              && (!c.derivation.Derived? && !c.derivation.DeriveThrew? ==>
                    Obtained(s, c) == Err(DerivationFailed(c.derivation)))
  {
  }

  /** A failed call that got past the checks leaves no entry for its pair; a good one leaves the
      context that it worked with; no call touches another key. */
  lemma EntryAfter(s: State, c: Call)
    requires Reaches(c)
    ensures var key, t := c.adam + [10] + c.uri, After(s, c);
            && (key in t.entries <==> Replied(s, c).Ok?)
            && (key in t.entries ==> Obtained(s, c) == Ok(t.entries[key]))
            && forall other :: other != key ==>
                 (other in t.entries <==> other in s.entries)
                 && (other in s.entries ==> t.entries[other] == s.entries[other])
  {
  }

  lemma {:induction false} NoneBad(c: Call, i: nat)
    requires i <= |c.ciphertexts|
    ensures FirstBad(c, i).None? <==>
            forall j :: i <= j < |c.ciphertexts| ==> Bad(c.ciphertexts[j], c.outcomes(j)).None?
    decreases |c.ciphertexts| - i
  {
    if i < |c.ciphertexts| {
      NoneBad(c, i + 1);
    }
  }

  /** The sample at i is there, and its native decryption neither throws nor returns a negative status. */
  predicate Decrypts(c: Call, i: nat)
    requires i < |c.ciphertexts|
  {
    && |c.ciphertexts[i]| > 0
    && match c.outcomes(i)
       case Status(status) => status >= 0
       case DecryptThrew => false
       case Overwrite(_) => true
  }

  /** All or nothing: an answer holds one plaintext for each sample, in order and of its length,
      namely what the native decryption wrote over it; and there is one exactly when a context was
      had and every sample decrypts. */
  lemma AllOrNothing(s: State, c: Call)
    requires Reaches(c)
    ensures Replied(s, c).Ok? <==> Obtained(s, c).Ok? && forall i :: 0 <= i < |c.ciphertexts| ==> Decrypts(c, i)
    ensures Replied(s, c).Ok? ==>
              var plain := Replied(s, c).value;
              && |plain| == |c.ciphertexts|
              && forall i :: 0 <= i < |plain| ==> IsOutput(c.ciphertexts[i], c.outcomes(i), plain[i])
  {
    NoneBad(c, 0);
    forall i | 0 <= i < |c.ciphertexts| ensures Bad(c.ciphertexts[i], c.outcomes(i)).None? <==> Decrypts(c, i) {
    }
  }

  /** What the native decryption leaves in a sample's buffer. */
  predicate IsOutput(chunk: seq<byte>, outcome: Outcome, plain: seq<byte>) {
    && |plain| == |chunk|
    && (!outcome.Overwrite? ==> plain == chunk)
    && (outcome.Overwrite? ==> forall k :: 0 <= k < |plain| ==> plain[k] == outcome.bytes(k))
  }

  /** If a sample does not decrypt, the reply names the cause of the first such one. */
  lemma {:induction false} FirstFailureIsReported(s: State, c: Call, i: nat)
    requires Reaches(c) && Obtained(s, c).Ok? && i < |c.ciphertexts|
    requires !Decrypts(c, i) && forall j :: 0 <= j < i ==> Decrypts(c, j)
    ensures Replied(s, c).Err? && Replied(s, c).error.Failed?
    ensures var cause := Replied(s, c).error.first;
            if |c.ciphertexts[i]| == 0 then cause == EmptySample
            else if c.outcomes(i).DecryptThrew? then cause == Threw
            else cause == SampleFailed(c.outcomes(i).status)
  {
    FirstBadIs(c, 0, i);
  }

  lemma {:induction false} FirstBadIs(c: Call, from: nat, i: nat)
    requires from <= i < |c.ciphertexts| && !Decrypts(c, i) && forall j :: from <= j < i ==> Decrypts(c, j)
    ensures FirstBad(c, from) == Bad(c.ciphertexts[i], c.outcomes(i)) && FirstBad(c, from).Some?
    decreases i - from
  {
    if from < i {
      assert Decrypts(c, from);
      FirstBadIs(c, from + 1, i);
    }
  }

  /** Before a failing derivation no sample is looked at. */
  lemma NoContextIsReported(s: State, c: Call)
    requires Reaches(c) && Obtained(s, c).Err?
    ensures Replied(s, c) == Err(Failed(Obtained(s, c).error)) && After(s, c).used == s.used
  {
  }

  /** After a call that succeeded, a second one for the pair derives nothing: whatever a
      derivation would do, it is answered with the first one's context. */
  lemma SecondCallReuses(s: State, c: Call, again: Call)
    requires Reaches(c) && Replied(s, c).Ok?
    requires Reaches(again) && again.adam == c.adam && again.uri == c.uri
    ensures var t := After(s, c); After(t, again).derived == t.derived && Obtained(t, again) == Obtained(s, c)
  {
    EntryAfter(s, c);
  }
}
