/**
 The supervisor's I/O with a deadline: poll, then move some bytes, until the whole
 buffer has moved or the deadline has passed.  A pipe may move any positive number
 of bytes, be interrupted, or have nothing ready, as often as it likes.
 */
module DeadlineIo {
  import opened Wrappers
  import opened Bytes
  import opened IpcFrame

  datatype IoError = TimedOut | Closed | OsError | PayloadTooLarge | InvalidMagic | InvalidVersion

  datatype PollResult = Ready | HungUp | Expired | PollInterrupted | PollFailed

  datatype Transfer = Moved | Nothing | Interrupted | WouldBlock | Failed

  /** What came of a poll that was started on this clock reading, or of a read or write. */
  datatype Event = Polled(reading: nat, result: PollResult) | Tried(moved: Transfer)

  /** Errors of the pipe itself, not of what came over it. */
  predicate OfPipe(e: Option<IoError>) {
    e.None? || e.value.TimedOut? || e.value.Closed? || e.value.OsError?
  }

  type span = d: nat | d > 0 witness 1

  /** Time is in nanoseconds. */
  const MILLI: nat := 1_000_000
  const MAX_POLL_MS: nat := 0x7FFF_FFFF

  function Later(a: nat, b: nat): nat { if a < b then b else a }

  /** The clock never goes back; what does not wait takes no longer than slack, and a call that
      was in vain takes some time. */
  class Clock {
    const slack: span
    var now: nat
    ghost var io: seq<Event>  // what its user's polls, reads and writes came to

    constructor (slack: span, now: nat)
      ensures this.slack == slack && this.now == now && io == []
    {
      this.slack, this.now, io := slack, now, [];
    }

    method Read() returns (t: nat)
      modifies this`now
      ensures old(now) <= t == now <= old(now) + slack
    {
      var passed: nat :| passed <= slack;
      now := now + passed;
      t := now;
    }

    method Sleep(d: nat)
      modifies this`now
      ensures old(now) + d < now <= old(now) + d + slack
    {
      var passed: nat :| 0 < passed <= slack;
      now := now + d + passed;
    }
  }

  /** A worker process as the supervisor holds it: its pid and both pipes. */
  class Process {
    const pid: span
    ghost const sends: seq<byte>  // all that the worker ever sends
    var incoming: seq<byte>       // what the worker sends from here on
    var outgoing: seq<byte>       // what has been written to the worker

    constructor (pid: span, sends: seq<byte>)
      ensures this.pid == pid && this.sends == incoming == sends && outgoing == []
    {
      this.pid, this.sends := pid, sends;
      incoming, outgoing := sends, [];
    }

    /** poll() with a timeout; it returns at most slack after it. */
    method Poll(c: Clock, reading: nat, timeoutMs: nat) returns (r: PollResult)
      modifies c
      ensures c.io == old(c.io) + [Polled(reading, r)]
      ensures old(c.now) < c.now <= old(c.now) + timeoutMs * MILLI + c.slack
      ensures r.Expired? ==> c.now >= old(c.now) + timeoutMs * MILLI
    {
      r :| r in {Ready, HungUp, Expired, PollInterrupted, PollFailed};
      c.io := c.io + [Polled(reading, r)];
      if r.Expired? {
        c.Sleep(timeoutMs * MILLI);
      } else {
        var waited: nat :| waited <= timeoutMs * MILLI;
        c.Sleep(waited);
      }
    }

    method Read(c: Clock, max: nat) returns (r: Transfer, chunk: seq<byte>)
      requires max > 0
      modifies c, this`incoming
      ensures old(c.now) < c.now <= old(c.now) + c.slack
      ensures chunk + incoming == old(incoming) && |chunk| <= max
      ensures (r.Moved? <==> chunk != []) && c.io == old(c.io) + [Tried(r)]
    {
      c.Sleep(0);
      r :| r in {Moved, Nothing, Interrupted, WouldBlock, Failed};
      chunk := [];
      if r.Moved? {
        if incoming == [] {
          r := Nothing;
        } else {
          var limit := if max <= |incoming| then max else |incoming|;
          var n: nat :| 1 <= n <= limit;
          chunk, incoming := incoming[..n], incoming[n..];
        }
      }
      c.io := c.io + [Tried(r)];
    }

    method Write(c: Clock, chunk: seq<byte>) returns (r: Transfer, n: nat)
      requires chunk != []
      modifies c, this`outgoing
      ensures old(c.now) < c.now <= old(c.now) + c.slack
      ensures n <= |chunk| && outgoing == old(outgoing) + chunk[..n]
      ensures (r.Moved? <==> n > 0) && c.io == old(c.io) + [Tried(r)]
    {
      c.Sleep(0);
      r :| r in {Moved, Nothing, Interrupted, WouldBlock, Failed};
      c.io := c.io + [Tried(r)];
      n := 0;
      if r.Moved? {
        n :| 1 <= n <= |chunk|;
        outgoing := outgoing + chunk[..n];
      } else {
        assert chunk[..0] == [];
      }
    }
  }

  /** Events were only added, and each poll was started on a clock reading before the deadline. */
  ghost predicate PollsInTime(before: seq<Event>, after: seq<Event>, deadline: nat) {
    before <= after && forall i :: |before| <= i < |after| && after[i].Polled? ==> after[i].reading < deadline
  }

  /** What a poll, a read or a write must have come to for this error. */
  predicate Explains(event: Event, e: IoError) {
    match e
    case TimedOut => event.Polled? && event.result.Expired?
    case Closed => (event.Polled? && event.result.HungUp?) || event == Tried(Nothing)
    case OsError => (event.Polled? && event.result.PollFailed?) || event == Tried(Failed)
    case _ => false
  }

  /** The last event is of this kind. */
  predicate EndsIn(before: seq<Event>, after: seq<Event>, e: IoError) {
    |before| < |after| && Explains(after[|after| - 1], e)
  }

  /** An error of the pipe is what the last event came to, or a timeout that the clock told. */
  predicate Blamed(e: IoError, before: seq<Event>, after: seq<Event>, now: nat, deadline: nat) {
    || (!e.TimedOut? && !e.Closed? && !e.OsError?)
    || EndsIn(before, after, e)
    || (e.TimedOut? && now >= deadline)
  }

  predicate HangsUp(event: Event) { event == Tried(Nothing) || (event.Polled? && event.result == HungUp) }

  predicate Breaks(event: Event) { event == Tried(Failed) || (event.Polled? && event.result == PollFailed) }

  predicate Expires(event: Event) { event.Polled? && event.result == Expired }

  /** A hang-up, a failure or a timeout is the last thing that happens, and it is reported as such. */
  predicate Heeded(before: seq<Event>, after: seq<Event>, e: Option<IoError>) {
    forall i :: |before| <= i < |after| ==>
      && (HangsUp(after[i]) ==> i == |after| - 1 && e == Some(Closed))
      && (Breaks(after[i]) ==> i == |after| - 1 && e == Some(OsError))
      && (Expires(after[i]) ==> i == |after| - 1 && e == Some(TimedOut))
  }

  function TimeLeft(now: nat, deadline: nat): nat {
    if now < deadline then deadline - now else 0
  }

  /** The timeout that poll is given: whole milliseconds, within 31 bits. */
  function PollMs(remaining: nat): (ms: nat)
    ensures ms * MILLI <= remaining
    ensures remaining < MAX_POLL_MS * MILLI ==> remaining < ms * MILLI + MILLI
  {
    if remaining / MILLI <= MAX_POLL_MS then remaining / MILLI else MAX_POLL_MS
  }

  /** A timeout is reported no more than a millisecond early, if the deadline is less than
      2^31 milliseconds ahead. */
  predicate Due(start: nat, now: nat, deadline: nat) {
    deadline < now + 1_000_000 || start + 2_147_483_647 * 1_000_000 <= deadline
  }

  /** wait_fd */
  method WaitReady(c: Clock, p: Process, deadline: nat) returns (e: Option<IoError>)
    modifies c
    ensures PollsInTime(old(c.io), c.io, deadline)
    ensures old(c.now) <= c.now <= Later(old(c.now), deadline) + 2 * c.slack
    ensures e.None? ==> old(c.now) < deadline && c.now <= deadline + c.slack
    ensures e.None? ==> |old(c.io)| < |c.io| && c.io[|c.io| - 1].Polled? && c.io[|c.io| - 1].result.Ready?
    ensures forall i :: |old(c.io)| <= i < |c.io| - 1 ==> c.io[i].Polled? && c.io[i].result.PollInterrupted?
    ensures Heeded(old(c.io), c.io, e)
    ensures e.Some? ==> Blamed(e.value, old(c.io), c.io, c.now, deadline)
    ensures e == Some(TimedOut) ==> Due(old(c.now), c.now, deadline)
    ensures old(c.now) >= deadline ==> e == Some(TimedOut) && c.io == old(c.io)
    ensures OfPipe(e)
  {
    while true
      invariant PollsInTime(old(c.io), c.io, deadline)
      invariant forall i :: |old(c.io)| <= i < |c.io| ==> c.io[i].Polled? && c.io[i].result.PollInterrupted?
      invariant c.now == old(c.now) || old(c.now) < c.now < deadline
      invariant old(c.now) >= deadline ==> c.io == old(c.io)
      decreases TimeLeft(c.now, deadline)
    {
      var t := c.Read();
      if t >= deadline {
        return Some(TimedOut);
      }
      var r := p.Poll(c, t, PollMs(deadline - t));
      match r {
        case Ready => return None;
        case HungUp => return Some(Closed);
        case Expired => return Some(TimedOut);
        case PollFailed => return Some(OsError);
        case PollInterrupted =>
          t := c.Read();
          if t >= deadline {
            return Some(TimedOut);
          }
      }
    }
  }

  /** write_all_timeout: None exactly when the whole buffer was written. */
  method WriteAll(c: Clock, p: Process, buf: seq<byte>, deadline: nat) returns (e: Option<IoError>)
    modifies c, p`outgoing
    ensures PollsInTime(old(c.io), c.io, deadline)
    ensures old(c.now) <= c.now <= Later(old(c.now), deadline) + 4 * c.slack
    ensures e.None? ==> c.now <= Later(old(c.now), deadline) + 2 * c.slack
    ensures old(p.outgoing) <= p.outgoing <= old(p.outgoing) + buf
    ensures e.None? <==> p.outgoing == old(p.outgoing) + buf
    ensures e.Some? ==> Blamed(e.value, old(c.io), c.io, c.now, deadline)
    ensures Heeded(old(c.io), c.io, e)
    ensures e == Some(TimedOut) ==> Due(old(c.now), c.now, deadline)
    ensures old(c.now) >= deadline && buf != [] ==> e == Some(TimedOut)
    ensures OfPipe(e)
  {
    var rest := buf;
    while rest != []
      invariant PollsInTime(old(c.io), c.io, deadline)
      invariant Heeded(old(c.io), c.io, None)
      invariant c.now == old(c.now) || old(c.now) < c.now <= deadline + 2 * c.slack
      invariant p.outgoing + rest == old(p.outgoing) + buf && old(p.outgoing) <= p.outgoing
      invariant old(c.now) >= deadline ==> rest == buf && c.now == old(c.now)
      decreases TimeLeft(c.now, deadline), |rest|
    {
      ghost var sent, todo := p.outgoing, rest;
      e := WaitReady(c, p, deadline);
      if e.Some? {
        return;
      }
      var r, n := p.Write(c, rest);
      rest := rest[n..];
      assert p.outgoing + rest == sent + (todo[..n] + todo[n..]);
      match r {
        case Moved =>
        case Nothing => return Some(Closed);
        case Interrupted =>
        case WouldBlock =>
        case Failed => return Some(OsError);
      }
    }
    e := None;
  }

  /** What the kernel does to the buffer on a read. */
  method Fill(buf: array<byte>, at: nat, chunk: seq<byte>)
    requires at + |chunk| <= buf.Length
    modifies buf
    ensures buf[..] == old(buf[..])[..at] + chunk + old(buf[..])[at + |chunk|..]
  {
    forall i | 0 <= i < |chunk| {
      buf[at + i] := chunk[i];
    }
  }

  /** A read into the buffer from at on. */
  method ReadInto(c: Clock, p: Process, buf: array<byte>, at: nat) returns (r: Transfer, n: nat)
    requires at < buf.Length
    modifies c, p`incoming, buf
    ensures old(c.now) < c.now <= old(c.now) + c.slack && c.io == old(c.io) + [Tried(r)]
    ensures at + n <= buf.Length && (r.Moved? <==> n > 0)
    ensures buf[..at + n] + p.incoming == old(buf[..at] + p.incoming)
  {
    ghost var head, tail := buf[..at], p.incoming;
    var chunk;
    r, chunk := p.Read(c, buf.Length - at);
    Fill(buf, at, chunk);
    n := |chunk|;
    assert buf[..at + n] == head + chunk;
    assert head + chunk + p.incoming == head + tail;
  }

  /** read_exact_timeout: fills buf in place; None exactly when it was filled. */
  method ReadExact(c: Clock, p: Process, buf: array<byte>, deadline: nat) returns (e: Option<IoError>)
    modifies c, p`incoming, buf
    ensures PollsInTime(old(c.io), c.io, deadline)
    ensures old(c.now) <= c.now <= Later(old(c.now), deadline) + 4 * c.slack
    ensures e.None? ==> c.now <= Later(old(c.now), deadline) + 2 * c.slack
    ensures Consumed(old(p.incoming), p.incoming) <= buf.Length && Tail(old(p.incoming), p.incoming)
    ensures e.None? <==> Consumed(old(p.incoming), p.incoming) == buf.Length
    ensures e.Some? ==> Blamed(e.value, old(c.io), c.io, c.now, deadline)
    ensures Heeded(old(c.io), c.io, e)
    ensures e.None? ==> buf[..] + p.incoming == old(p.incoming)
    ensures e == Some(TimedOut) ==> Due(old(c.now), c.now, deadline)
    ensures old(c.now) >= deadline && buf.Length > 0 ==> e == Some(TimedOut)
    ensures OfPipe(e)
  {
    var got := 0;
    assert buf[..0] == [];
    while got < buf.Length
      invariant PollsInTime(old(c.io), c.io, deadline)
      invariant Heeded(old(c.io), c.io, None)
      invariant c.now == old(c.now) || old(c.now) < c.now <= deadline + 2 * c.slack
      invariant 0 <= got <= buf.Length && buf[..got] + p.incoming == old(p.incoming)
      invariant old(c.now) >= deadline ==> got == 0 && c.now == old(c.now)
      decreases TimeLeft(c.now, deadline), buf.Length - got
    {
      e := WaitReady(c, p, deadline);
      if e.Some? {
        return;
      }
      var r, n := ReadInto(c, p, buf, got);
      got := got + n;
      match r {
        case Moved =>
        case Nothing => return Some(Closed);
        case Interrupted =>
        case WouldBlock =>
        case Failed => return Some(OsError);
      }
    }
    assert buf[..got] == buf[..];
    e := None;
  }

  function Consumed(before: seq<byte>, after: seq<byte>): nat {
    if |after| <= |before| then |before| - |after| else 0
  }

  /** Exactly one frame was taken off. */
  predicate ReadWhole(before: seq<byte>, after: seq<byte>) {
    var d := Decode(before, NO_CAP);
    d.Got? && d.size == Consumed(before, after)
  }

  /** write_frame_timeout: one frame, all of it or a part and an error. */
  method WriteFrame(c: Clock, p: Process, f: Frame, deadline: nat) returns (e: Option<IoError>)
    modifies c, p`outgoing
    ensures PollsInTime(old(c.io), c.io, deadline)
    ensures old(c.now) <= c.now <= Later(old(c.now), deadline) + 4 * c.slack
    ensures e.None? ==> old(c.now) < deadline && c.now <= deadline + 2 * c.slack
    ensures !Sendable(f) <==> e == Some(PayloadTooLarge)
    ensures !Sendable(f) ==> p.outgoing == old(p.outgoing)
    ensures Sendable(f) ==> old(p.outgoing) <= p.outgoing <= old(p.outgoing) + Encode(f)
    ensures Sendable(f) ==> (e.None? <==> p.outgoing == old(p.outgoing) + Encode(f))
    ensures Sendable(f) ==> OfPipe(e)
    ensures e.Some? ==> Blamed(e.value, old(c.io), c.io, c.now, deadline)
    ensures Heeded(old(c.io), c.io, e)
    ensures e == Some(TimedOut) ==> Due(old(c.now), c.now, deadline)
  {
    if |f.payload| > NO_CAP {
      return Some(PayloadTooLarge);
    }
    var bytes := U32(MAGIC);
    bytes := bytes + U16(VERSION);
    bytes := bytes + U16(f.kind);
    bytes := bytes + U32(f.requestId);
    bytes := bytes + U16(f.opcode);
    bytes := bytes + U16(f.flags);
    bytes := bytes + U32(|f.payload|);
    bytes := bytes + f.payload;
    e := WriteAll(c, p, bytes, deadline);
  }

  /** A new buffer of n bytes, filled by read_exact_timeout. */
  method ReadBuffer(c: Clock, p: Process, n: nat, deadline: nat) returns (e: Option<IoError>, bytes: seq<byte>)
    modifies c, p`incoming
    ensures PollsInTime(old(c.io), c.io, deadline)
    ensures old(c.now) <= c.now <= Later(old(c.now), deadline) + 4 * c.slack
    ensures e.None? ==> c.now <= Later(old(c.now), deadline) + 2 * c.slack
    ensures Consumed(old(p.incoming), p.incoming) <= n && Tail(old(p.incoming), p.incoming)
    ensures e.None? <==> Consumed(old(p.incoming), p.incoming) == n
    ensures e.None? ==> |bytes| == n && bytes + p.incoming == old(p.incoming)
    ensures e.Some? ==> Blamed(e.value, old(c.io), c.io, c.now, deadline)
    ensures Heeded(old(c.io), c.io, e)
    ensures e == Some(TimedOut) ==> Due(old(c.now), c.now, deadline)
    ensures old(c.now) >= deadline && n > 0 ==> e == Some(TimedOut)
    ensures OfPipe(e)
  {
    var buf := new byte[n];
    e := ReadExact(c, p, buf, deadline);
    bytes := buf[..];
  }

  /** read_frame_timeout: what it returns is what the bytes decode to, and exactly those
      bytes are consumed. */
  method ReadFrame(c: Clock, p: Process, deadline: nat) returns (r: Result<Frame, IoError>)
    modifies c, p`incoming
    ensures PollsInTime(old(c.io), c.io, deadline)
    ensures old(c.now) <= c.now <= Later(old(c.now), deadline) + 6 * c.slack
    ensures Tail(old(p.incoming), p.incoming)
    ensures r.Ok? <==> ReadWhole(old(p.incoming), p.incoming)
    ensures r.Ok? ==>
              Decode(old(p.incoming), NO_CAP) == Got(r.value, Consumed(old(p.incoming), p.incoming))
    ensures r.Err? ==> Blamed(r.error, old(c.io), c.io, c.now, deadline) && !r.error.PayloadTooLarge?
    ensures Heeded(old(c.io), c.io, if r.Err? then Some(r.error) else None)
    ensures r == Err(InvalidMagic) ==> Decode(old(p.incoming), NO_CAP) == BadMagic
    ensures r == Err(InvalidVersion) ==> Decode(old(p.incoming), NO_CAP) == BadVersion
    ensures r == Err(TimedOut) ==> Due(old(c.now), c.now, deadline)
    ensures old(c.now) >= deadline ==> r == Err(TimedOut)
  {
    var e, h := ReadBuffer(c, p, HEADER_LEN, deadline);
    if e.Some? {
      return Err(e.value);
    }
    ghost var body := p.incoming;
    DecodeInParts(h, body, NO_CAP);
    if ReadU32(h, 0) != MAGIC {
      return Err(InvalidMagic);
    }
    if ReadU16(h, 4) != VERSION {
      return Err(InvalidVersion);
    }
    var payload: seq<byte>;
    e, payload := ReadBuffer(c, p, PayloadLen(h), deadline);
    if e.Some? {
      return Err(e.value);
    }
    assert body[..|payload|] == payload;
    r := Ok(FrameAt(h, payload));
  }
}
