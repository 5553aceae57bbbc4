/**
 One request on one worker's pipes: from the first byte written to the last byte
 of the reply read, whatever the chunks, the exchange stays in step.
 */
module SupervisorPipes {
  import opened Bytes
  import opened IpcFrame
  import opened SupervisorModel
  import opened SupervisorInvariant

  /** A reader that has a part of an encoded frame never refuses its header. */
  lemma PartNotRefused(f: Frame, buf: seq<byte>, cap: nat)
    requires Sendable(f) && |f.payload| <= cap && buf <= Encode(f)
    ensures !HeaderRefused(buf, cap)
    ensures Want(buf) <= |Encode(f)|
  {
    if |buf| >= HEADER_LEN {
      PrefixFields(f, buf);
    }
  }

  /** ... and takes it for a whole frame exactly when it has all of it. */
  lemma WholePart(f: Frame, buf: seq<byte>, cap: nat)
    requires Sendable(f) && buf <= Encode(f) && Whole(buf, cap)
    ensures buf == Encode(f) && FrameIn(buf, cap) == f
  {
    PrefixFields(f, buf);
    assert |buf| == |Encode(f)|;
    assert buf == Encode(f);
    assert buf[HEADER_LEN..] == f.payload;
    assert FrameIn(buf, cap) == FrameAt(buf, f.payload) == f;
  }

  lemma AskBegins(p: Proc, t: nat, req: Frame)
    requires AtBoundary(p) && Sendable(req) && req.kind == KIND_REQUEST
    ensures InFlight(AskProc(p, t, req), t, req, |p.asked|, 0, [])
  {
    assert Encode(req)[..0] == [];
  }

  lemma WriteKeeps(p: Proc, t: nat, req: Frame, k: nat, sent: nat, n: nat)
    requires InFlight(p, t, req, k, sent, []) && 1 <= n && sent + n <= |Encode(req)|
    ensures InFlight(WriteProc(p, Encode(req)[sent..sent + n]), t, req, k, sent + n, [])
  {
    var full := Encode(req);
    assert NotServed(p, req, k, sent, []);
    assert full[..sent + n] == full[..sent] + full[sent..sent + n];
    assert p.loop.buf + (p.stdin + full[sent..sent + n]) == (p.loop.buf + p.stdin) + full[sent..sent + n];
  }

  lemma ReadKeeps(p: Proc, t: nat, req: Frame, k: nat, got: seq<byte>, n: nat)
    requires Sendable(req) && InFlight(p, t, req, k, |Encode(req)|, got) && 1 <= n <= |p.stdout|
    ensures InFlight(ReadProc(p, n), t, req, k, |Encode(req)|, got + p.stdout[..n])
  {
    assert IsServed(p, req, k, |Encode(req)|, got);
    assert (got + p.stdout[..n]) + p.stdout[n..] == got + p.stdout;
  }

  /** What the client has read is always a part of the one reply on its way. */
  lemma GotPart(p: Proc, t: nat, req: Frame, k: nat, got: seq<byte>)
    requires Sendable(req) && InFlight(p, t, req, k, |Encode(req)|, got) && got != []
    ensures k < |p.served| && p.served[k].req == req && IsReply(req, p.served[k].resp)
    ensures got <= Encode(p.served[k].resp)
  {
    var full := Encode(p.served[k].resp);
    assert full == got + (p.stdout + Pending(p.loop));
  }

  /** A whole frame read back is the worker's own answer to the request just written. */
  lemma ReadEnds(p: Proc, t: nat, req: Frame, k: nat, got: seq<byte>)
    requires Sendable(req) && InFlight(p, t, req, k, |Encode(req)|, got) && Whole(got, NO_CAP)
    ensures !Mismatch(req, FrameIn(got, NO_CAP))
    ensures Delivered(p, t, req, k, FrameIn(got, NO_CAP))
  {
    GotPart(p, t, req, k, got);
    var resp := p.served[k].resp;
    WholePart(resp, got, NO_CAP);
    assert |p.stdout| + |Pending(p.loop)| == 0;
  }

  /** The worker's own steps keep the exchange in step too. */
  lemma WorkerKeeps(p: Proc, t: nat, req: Frame, k: nat, sent: nat, got: seq<byte>, step: WorkerStep)
    requires InFlight(p, t, req, k, sent, got) && ProcNext(p, step).Some?
    ensures InFlight(ProcNext(p, step).value, t, req, k, sent, got)
  {
    var full := Encode(req);
    match step
    case Collect(n) =>
      assert (p.loop.buf + p.stdin[..n]) + p.stdin[n..] == p.loop.buf + p.stdin;
    case Serve(resp) =>
      ServeKeeps(p, t, req, k, sent, got, resp);
    case Skip =>
      BufferIsRequest(p, t, req, k, sent, got);
    case Emit(n) =>
      assert p.loop.rest[..n] + p.loop.rest[n..] == p.loop.rest;
      assert got + (p.stdout + p.loop.rest[..n]) + p.loop.rest[n..] == got + p.stdout + p.loop.rest;
    case _ =>
  }

  /** A whole frame in the worker's buffer is the request being written, to its last byte. */
  lemma BufferIsRequest(p: Proc, t: nat, req: Frame, k: nat, sent: nat, got: seq<byte>)
    requires InFlight(p, t, req, k, sent, got)
    requires p.loop.Collecting? && Whole(p.loop.buf, WORKER_MAX_PAYLOAD)
    ensures NotServed(p, req, k, sent, got) && FrameIn(p.loop.buf, WORKER_MAX_PAYLOAD) == req
    ensures sent == |Encode(req)| && p.stdin == []
  {
    var buf := p.loop.buf;
    assert buf <= Encode(req)[..sent] <= Encode(req);
    WholePart(req, buf, WORKER_MAX_PAYLOAD);
  }

  lemma ServeKeeps(p: Proc, t: nat, req: Frame, k: nat, sent: nat, got: seq<byte>, resp: Frame)
    requires InFlight(p, t, req, k, sent, got) && ProcNext(p, Serve(resp)).Some?
    ensures InFlight(ProcNext(p, Serve(resp)).value, t, req, k, sent, got)
  {
    BufferIsRequest(p, t, req, k, sent, got);
    assert [] + [] + Encode(resp) == Encode(resp);
  }
}
