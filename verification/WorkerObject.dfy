/**
 The Worker object as one thread uses it: its methods update the cells that all threads
 share.  Between this thread's own steps the other threads take theirs; they leave the slot
 and the tracked request alone only while this thread holds the lock, and whoever gives the
 lock up leaves no request tracked; SupervisorOthers proves this of the transition system.
 A ghost log says what this thread saw and did: the slot each time it had the lock and gave it
 up, the exits it observed, the entry it read.
 */
module WorkerObject {
  import opened Wrappers
  import opened Bytes
  import opened IpcFrame
  import opened DeadlineIo
  import M = SupervisorModel

  /** How long lock_worker_timeout sleeps between two attempts, and restart_after_delay. */
  const NAP: nat := 10 * MILLI
  const RESTART_DELAY: nat := 1000 * MILLI

  datatype RequestError =
    | Busy
    | ExitProcess
    | SpawnFailed
    | ProbeFailed
    | WriteError(write: IoError)
    | ReadError(read: IoError)
    | Mismatched

  /** Errors that cost the worker its place: it is taken out of the slot and cleaned up. */
  predicate Evicts(e: RequestError) { e.WriteError? || e.ReadError? || e.Mismatched? }

  /** Errors of a request that never had the lock. */
  predicate Unlucky(e: RequestError) { e.Busy? || e.ExitProcess? }

  function RequestFrame(id: u32, opcode: u16, payload: seq<byte>): Frame {
    Frame(KIND_REQUEST, id, opcode, 0, payload)
  }

  /** resp was read off p, which had before to send, and answers req by its numbers. */
  predicate ReadOff(before: seq<byte>, after: seq<byte>, req: Frame, resp: Frame) {
    && Decode(before, NO_CAP) == Got(resp, Consumed(before, after))
    && Tail(before, after)
    && !M.Mismatch(req, resp)
  }

  // ---------------------------------------------------------------- an exchange that fails

  /** The pipes of a worker: what it has yet to send, and what was written to it. */
  datatype Pipes = Pipes(incoming: seq<byte>, outgoing: seq<byte>)

  predicate WroteWhole(before: Pipes, after: Pipes, req: Frame) {
    Sendable(req) && after.outgoing == before.outgoing + Encode(req)
  }

  /** An error of writing: the request did not go out whole, for it is too large, or for what the
      pipe or the clock came to. */
  predicate WriteFault(e: IoError, req: Frame, before: Pipes, after: Pipes) {
    && !WroteWhole(before, after, req)
    && if Sendable(req) then OfPipe(Some(e)) else e.PayloadTooLarge?
  }

  /** An error of reading: the request went out, but no whole frame came back, for its header is
      none, or for what the pipe or the clock came to. */
  predicate ReadFault(e: IoError, req: Frame, before: Pipes, after: Pipes) {
    && WroteWhole(before, after, req) && !ReadWhole(before.incoming, after.incoming)
    && match e
       case InvalidMagic => Decode(before.incoming, NO_CAP) == BadMagic
       case InvalidVersion => Decode(before.incoming, NO_CAP) == BadVersion
       case _ => OfPipe(Some(e))
  }

  /** The answer is whole, but not to this request. */
  predicate MatchFault(req: Frame, before: Pipes, after: Pipes) {
    && WroteWhole(before, after, req) && ReadWhole(before.incoming, after.incoming)
    && M.Mismatch(req, Decode(before.incoming, NO_CAP).frame)
  }

  /** What an error says of the exchange, which changed the pipes in this way. */
  predicate Faulted(e: RequestError, req: Frame, before: Pipes, after: Pipes) {
    match e
    case WriteError(why) => WriteFault(why, req, before, after)
    case ReadError(why) => ReadFault(why, req, before, after)
    case Mismatched => MatchFault(req, before, after)
    case _ => false
  }

  /** And its cause in what happened on the pipes. */
  predicate Explained(e: RequestError, before: seq<DeadlineIo.Event>, after: seq<DeadlineIo.Event>, start: nat,
                      now: nat, deadline: nat)
  {
    (e.WriteError? || e.ReadError?) ==>
      var why := if e.WriteError? then e.write else e.read;
      Blamed(why, before, after, now, deadline) && (why.TimedOut? ==> Due(start, now, deadline))
  }

  // ---------------------------------------------------------------- what a thread sees and does

  datatype Event =
    | Locked(slot: Option<Process>, pipes: Pipes)
    | Unlocked(slot: Option<Process>)
    | Probed(p: Process, exited: Option<bool>)
    | Spawned(child: Option<Process>)
    | WaitBegun
    | WaitOver
    | Tracked(tracked: M.Current)
    | Dropped(id: u32)
    | Saw(entry: Option<M.Current>)
    | Took(pid: nat)
    | PidZeroed
    | Slept(d: nat)

  /** What may become of an installed worker: it is replaced only after it was seen to have exited. */
  ghost predicate Kept(p: Process, events: seq<Event>, after: Option<Process>, e: Option<RequestError>) {
    if events == [Probed(p, None)] then after == Some(p) && e == Some(ProbeFailed)
    else if events == [Probed(p, Some(false))] then after == Some(p) && e.None?
    else
      && |events| == 2 && events[0] == Probed(p, Some(true)) && events[1].Spawned?
      && if events[1].child.Some? then after == events[1].child && e.None?
         else after == Some(p) && e == Some(SpawnFailed)
  }

  /** ... and of a slot: a worker is spawned into an empty one. */
  ghost predicate Provided(before: Option<Process>, events: seq<Event>, after: Option<Process>,
                           e: Option<RequestError>)
  {
    if before.Some? then Kept(before.value, events, after, e)
    else
      && events != [] && events[0].Spawned?
      && if events[0].child.Some? then Kept(events[0].child.value, events[1..], after, e)
         else |events| == 1 && after.None? && e == Some(SpawnFailed)
  }

  /** ensure_started does not look again at a worker that it has just spawned; and it forgets the pid
      of one that has exited. */
  ghost predicate Started(before: Option<Process>, events: seq<Event>, after: Option<Process>, ok: bool) {
    if before.None? then |events| == 1 && events[0].Spawned? && after == events[0].child && ok == after.Some?
    else if events == [Probed(before.value, None)] then after == before && !ok
    else if events == [Probed(before.value, Some(false))] then after == before && ok
    else
      && |events| == 3 && events[0] == Probed(before.value, Some(true)) && events[1].PidZeroed? && events[2].Spawned?
      && ok == events[2].child.Some?
      && after == if ok then events[2].child else before
  }

  /** What was written, from before to after, is one frame: this request. */
  ghost predicate Sent(before: seq<byte>, after: seq<byte>, id: u32, opcode: u16, payload: seq<byte>) {
    && before <= after
    && var bytes := after[|before|..];
       var d := Decode(bytes, NO_CAP);
       && d.Got? && d.size == |bytes|
       && d.frame.kind == 1 && d.frame.requestId == id && d.frame.opcode == opcode && d.frame.flags == 0
       && d.frame.payload == payload
  }

  /** What was read, from before to after, is one frame: resp, which answers this request. */
  ghost predicate Received(before: seq<byte>, after: seq<byte>, id: u32, opcode: u16, resp: Frame) {
    && Decode(before, NO_CAP).Got? && Decode(before, NO_CAP).frame == resp
    && after == before[Decode(before, NO_CAP).size..]
    && resp.kind == 2 && resp.requestId == id && resp.opcode == opcode
  }

  lemma RequestIsSent(before: seq<byte>, id: u32, opcode: u16, payload: seq<byte>)
    requires Sendable(RequestFrame(id, opcode, payload))
    ensures Sent(before, before + Encode(RequestFrame(id, opcode, payload)), id, opcode, payload)
  {
    var bytes := Encode(RequestFrame(id, opcode, payload));
    DecodeEncode(RequestFrame(id, opcode, payload), [], NO_CAP);
    assert bytes + [] == bytes && (before + bytes)[|before|..] == bytes;
  }

  class Worker {
    const requestTimeout: nat
    var nextId: u32
    var waitingCount: nat
    var pid: nat
    var slot: Option<Process>
    var current: Option<M.Current>

    /** How many other threads waitingCount counts; whether this one holds a WaitTracker, and the
        lock; what it handed to cleanup_worker; and what it saw and did. */
    ghost var others: nat
    ghost var waits: bool
    ghost var holds: bool
    ghost var cleaned: seq<Process>
    ghost var log: seq<Event>

    ghost predicate Valid()
      reads this
    {
      waitingCount == others + (if waits then 1 else 0)
    }

    /** This thread is in none of the methods below. */
    ghost predicate Outside()
      reads this
    {
      Valid() && !waits && !holds
    }

    ghost function InSlot(): set<Process>
      reads this
    {
      if slot.Some? then {slot.value} else {}
    }

    ghost function PipesNow(): Pipes
      reads this, InSlot()
    {
      if slot.Some? then PipesOf(slot.value) else Pipes([], [])
    }

    static ghost function PipesOf(p: Process): Pipes
      reads p
    {
      Pipes(p.incoming, p.outgoing)
    }

    /** A worker's pipes when it was found: these if it is the one found in the slot, and otherwise
        those of a new one. */
    static ghost function Start(p: Process, found: Option<Process>, pipes: Pipes): Pipes {
      if found == Some(p) then pipes else Pipes(p.sends, [])
    }

    constructor (timeout: nat)
      ensures Outside() && requestTimeout == timeout && cleaned == [] && log == []
      ensures nextId == 1 && waitingCount == 0 && pid == 0 && slot.None? && current.None?
    {
      requestTimeout := timeout;
      nextId := 1;
      waitingCount, others, pid := 0, 0, 0;
      slot, current := None, None;
      waits, holds := false, false;
      cleaned, log := [], [];
    }

    // -------------------------------------------------------------- the other threads

    /** What they may do at any time. */
    method Meanwhile()
      requires Valid()
      modifies this`nextId, this`waitingCount, this`others, this`pid
      ensures Valid()
    {
      nextId, pid := *, *;
      var change: bool := *;
      if change {
        var count: nat :| count > 0;
        waitingCount := count;
        others := count - if waits then 1 else 0;
      }
    }

    /** What they may do besides while this thread does not hold the lock: talk to the worker, take
        it out, put a new one in its place, and track requests of their own. */
    method MeanwhileUnlocked()
      requires Valid() && !holds
      modifies this, InSlot()
      ensures Valid() && !holds && waits == old(waits) && cleaned == old(cleaned) && log == old(log)
      ensures slot.Some? ==> slot == old(slot) || fresh(slot.value)
    {
      Meanwhile();
      current := *;
      var gone: bool, back: bool := *, *;
      if gone {
        slot := None;
      }
      if back {
        var number: span := *;
        var child := new Process(number, []);
        slot := Some(child);
      }
      if slot.Some? {
        slot.value.incoming, slot.value.outgoing := *, *;
      }
    }

    // -------------------------------------------------------------- the lock

    method TryLock() returns (ok: bool)
      requires Valid() && !holds
      modifies this, InSlot()
      ensures Valid() && ok == holds && (ok ==> current.None?)
      ensures waits == old(waits) && cleaned == old(cleaned)
      ensures log == old(log) + if ok then [Locked(slot, PipesNow())] else []
      ensures slot.Some? ==> slot == old(slot) || fresh(slot.value)
    {
      MeanwhileUnlocked();
      ok := *;
      if ok {
        current := None;
        holds := true;
        log := log + [Locked(slot, PipesNow())];
      }
    }

    /** lock_worker_timeout: gives up only at the deadline, and no later than one nap after it. */
    method LockTimeout(c: Clock, deadline: nat) returns (ok: bool)
      requires Valid() && !holds
      modifies this, c`now, InSlot()
      ensures Valid() && ok == holds && (ok ==> current.None?)
      ensures waits == old(waits) && cleaned == old(cleaned)
      ensures log == old(log) + if ok then [Locked(slot, PipesNow())] else []
      ensures slot.Some? ==> slot == old(slot) || fresh(slot.value)
      ensures !ok ==> c.now >= deadline
      ensures old(c.now) <= c.now <= Later(old(c.now), deadline) + 10_000_000 + 2 * c.slack
    {
      while true
        invariant Valid() && !holds
        invariant waits == old(waits) && cleaned == old(cleaned) && log == old(log)
        invariant slot.Some? ==> slot == old(slot) || fresh(slot.value)
        invariant c.now == old(c.now) || old(c.now) < c.now <= deadline + NAP + c.slack
        decreases TimeLeft(c.now, deadline)
      {
        ok := TryLock();
        if ok {
          return;
        }
        var t := c.Read();
        if t >= deadline {
          return;
        }
        c.Sleep(NAP);
      }
    }

    /** Mutex::lock, which waits as long as it takes. */
    method Lock()
      requires Valid() && !holds
      modifies this, InSlot()
      ensures Valid() && holds && current.None?
      ensures waits == old(waits) && cleaned == old(cleaned)
      ensures log == old(log) + [Locked(slot, PipesNow())]
      ensures slot.Some? ==> slot == old(slot) || fresh(slot.value)
    {
      MeanwhileUnlocked();
      current := None;
      holds := true;
      log := log + [Locked(slot, PipesNow())];
    }

    /** Only an empty entry may be left behind. */
    method Unlock()
      requires Valid() && holds && current.None?
      modifies this`holds, this`log
      ensures Valid() && !holds && log == old(log) + [Unlocked(slot)]
    {
      holds := false;
      log := log + [Unlocked(slot)];
    }

    // -------------------------------------------------------------- trackers

    method TrackWait()
      requires Outside()
      modifies this`waitingCount, this`waits, this`log
      ensures Valid() && waits && waitingCount == old(waitingCount) + 1 && log == old(log) + [WaitBegun]
    {
      waitingCount := waitingCount + 1;
      waits := true;
      log := log + [WaitBegun];
    }

    method DropWaitTracker()
      requires Valid() && waits
      modifies this`waitingCount, this`waits, this`log
      ensures Valid() && !waits && waitingCount == old(waitingCount) - 1 && log == old(log) + [WaitOver]
    {
      waitingCount := waitingCount - 1;
      waits := false;
      log := log + [WaitOver];
    }

    /** Never overwrites a live entry. */
    method TrackRequest(c: Clock, id: u32, opcode: u16)
      requires Valid() && holds && current.None?
      modifies this`current, this`log, c`now
      ensures current.Some? && current.value.id == id && current.value.opcode == opcode
      ensures log == old(log) + [Tracked(current.value)]
      ensures old(c.now) <= current.value.started == c.now <= old(c.now) + c.slack
    {
      var t := c.Read();
      current := Some(M.Current(id, opcode, t, t));  // its due date is no field of the source
      log := log + [Tracked(current.value)];
    }

    /** Clears the entry of its own id and no other. */
    method DropRequestTracker(id: u32)
      requires Valid() && holds
      modifies this`current, this`log
      ensures log == old(log) + [Dropped(id)]
      ensures old(current).None? || old(current).value.id == id ==> current.None?
      ensures old(current).Some? && old(current).value.id != id ==> current == old(current)
    {
      if current.Some? && current.value.id == id {
        current := None;
      }
      log := log + [Dropped(id)];
    }

    // -------------------------------------------------------------- workers

    /** spawn: a new process, whose pid is stored; or neither. */
    method Spawn(c: Clock) returns (p: Option<Process>)
      requires Valid() && holds
      modifies this, c`now
      ensures Valid() && holds && slot == old(slot) && current == old(current)
      ensures waits == old(waits) && cleaned == old(cleaned)
      ensures log == old(log) + [Spawned(p)]
      ensures p.Some? ==> fresh(p.value) && p.value.outgoing == [] && p.value.incoming == p.value.sends
      ensures p.Some? ==> pid == p.value.pid
      ensures old(c.now) <= c.now <= old(c.now) + c.slack
    {
      c.Sleep(0);
      Meanwhile();
      p := None;
      var ok: bool := *;
      if ok {
        var number: span := *;
        var sends: seq<byte> := *;
        var child := new Process(number, sends);
        pid := child.pid;
        p := Some(child);
      }
      log := log + [Spawned(p)];
    }

    /** try_wait on the installed worker: whether it has exited, if that can be told. */
    method TryWait() returns (exited: Option<bool>)
      requires slot.Some?
      modifies this`log
      ensures log == old(log) + [Probed(slot.value, exited)]
    {
      exited := *;
      log := log + [Probed(slot.value, exited)];
    }

    /** pid.store(0) */
    method ForgetPid()
      modifies this`pid, this`log
      ensures pid == 0 && log == old(log) + [PidZeroed]
    {
      pid := 0;
      log := log + [PidZeroed];
    }

    /** abandon_locked_worker: the slot's worker is handed to cleanup. */
    method AbandonLocked()
      requires Valid() && holds && slot.Some?
      modifies this`slot, this`pid, this`cleaned, this`log
      ensures Valid() && slot.None? && pid == 0
      ensures cleaned == old(cleaned) + [old(slot).value] && log == old(log) + [PidZeroed]
    {
      var prev := slot.value;
      slot := None;
      ForgetPid();
      cleaned := cleaned + [prev];
    }

    /** pid.swap(0) */
    method SwapPid() returns (taken: nat)
      modifies this`pid, this`log
      ensures taken == old(pid) && pid == 0 && log == old(log) + [Took(taken)]
    {
      taken := pid;
      pid := 0;
      log := log + [Took(taken)];
    }

    /**
     recover_stuck_worker_or_exit: without the lock, a pid is taken exactly if the request that
     is tracked at that moment is overdue; and then whatever pid is there by that time.
     */
    method RecoverStuck(c: Clock) returns (taken: Option<nat>)
      requires Valid() && !holds
      modifies this, c`now, InSlot()
      ensures Valid() && !holds && waits == old(waits) && cleaned == old(cleaned)
      ensures slot.Some? ==> slot == old(slot) || fresh(slot.value)
      ensures taken.Some? <==> old(current).Some? && old(current).value.started + requestTimeout <= c.now
      ensures log == old(log) + [Saw(old(current))] + if taken.Some? then [Took(taken.value)] else []
      ensures taken.Some? ==> pid == 0
      ensures old(c.now) <= c.now <= old(c.now) + c.slack
    {
      var observed := current;
      log := log + [Saw(observed)];
      var t := c.Read();
      if observed.None? || t < observed.value.started + requestTimeout {
        return None;
      }
      MeanwhileUnlocked();
      var found := SwapPid();
      taken := Some(found);
    }

    // -------------------------------------------------------------- request

    /** Sees to it that the installed worker is running, or has been replaced after it exited. */
    method Replace(c: Clock) returns (e: Option<RequestError>, ghost events: seq<Event>)
      requires Valid() && holds && slot.Some?
      modifies this, c`now
      ensures Valid() && holds && current == old(current) && waits == old(waits) && cleaned == old(cleaned)
      ensures log == old(log) + events && Kept(old(slot).value, events, slot, e)
      ensures slot != old(slot) ==> slot.Some? && fresh(slot.value)
      ensures slot.Some? ==> PipesNow() == Start(slot.value, old(slot), old(PipesNow()))
      ensures old(c.now) <= c.now <= old(c.now) + c.slack
    {
      var exited := TryWait();
      events := [Probed(slot.value, exited)];
      if exited.None? {
        return Some(ProbeFailed), events;
      }
      if exited.value {
        var p := Spawn(c);
        events := events + [Spawned(p)];
        if p.None? {
          return Some(SpawnFailed), events;
        }
        slot := p;
      }
      e := None;
    }

    /** The part of request() that makes sure of a worker: one is spawned into an empty slot,
        and one that was seen to have exited is replaced.  A running worker is kept. */
    method Provide(c: Clock) returns (e: Option<RequestError>, ghost events: seq<Event>)
      requires Valid() && holds
      modifies this, c`now
      ensures Valid() && holds && current == old(current) && waits == old(waits) && cleaned == old(cleaned)
      ensures log == old(log) + events && Provided(old(slot), events, slot, e)
      ensures old(slot).Some? && slot != old(slot) ==> Probed(old(slot).value, Some(true)) in events
      ensures slot != old(slot) ==> slot.Some? && fresh(slot.value)
      ensures slot.Some? ==> PipesNow() == Start(slot.value, old(slot), old(PipesNow()))
      ensures old(c.now) <= c.now <= old(c.now) + 2 * c.slack
    {
      ghost var before: seq<Event> := [];
      if slot.None? {
        var p := Spawn(c);
        if p.None? {
          return Some(SpawnFailed), [Spawned(p)];
        }
        slot := p;
        before := [Spawned(p)];
      }
      e, events := Replace(c);
      events := before + events;
    }

    /** The pid is forgotten with a worker that is cleaned up. */
    static function Zeroing(r: Result<Frame, RequestError>): seq<Event> {
      if r.Err? && Evicts(r.error) then [PidZeroed] else []
    }

    /** One request out, one frame back. */
    static method Converse(c: Clock, p: Process, req: Frame, deadline: nat) returns (r: Result<Frame, RequestError>)
      modifies c, p
      ensures r.Ok? ==>
                && Sendable(req) && p.outgoing == old(p.outgoing) + Encode(req)
                && ReadOff(old(p.incoming), p.incoming, req, r.value)
                && old(c.now) < deadline
      ensures r.Err? ==> Evicts(r.error) && Faulted(r.error, req, old(PipesOf(p)), PipesOf(p))
      ensures r.Err? ==> Explained(r.error, old(c.io), c.io, old(c.now), c.now, deadline)
      ensures PollsInTime(old(c.io), c.io, deadline)
      ensures old(c.now) <= c.now <= Later(old(c.now), deadline) + 8 * c.slack
    {
      var e := WriteFrame(c, p, req, deadline);
      if e.Some? {
        return Err(WriteError(e.value));
      }
      var resp := ReadFrame(c, p, deadline);
      if resp.Err? {
        return Err(ReadError(resp.error));
      }
      if M.Mismatch(req, resp.value) {
        return Err(Mismatched);
      }
      r := Ok(resp.value);
    }

    /**
     The part of request() that talks to the worker.  It keeps its place exactly if the whole
     request went out and the answer to it came back; otherwise it is cleaned up, for the cause
     that the error names.
     */
    method Talk(c: Clock, req: Frame, deadline: nat) returns (r: Result<Frame, RequestError>)
      requires Valid() && holds && slot.Some?
      modifies this, c, slot.value
      ensures Valid() && holds && current == old(current) && waits == old(waits)
      ensures log == old(log) + Zeroing(r)
      ensures var p := old(slot).value;
              if r.Ok? then
                && slot == old(slot) && cleaned == old(cleaned)
                && Sendable(req) && p.outgoing == old(p.outgoing) + Encode(req)
                && ReadOff(old(p.incoming), p.incoming, req, r.value)
                && old(c.now) < deadline
              else
                && Evicts(r.error) && slot.None? && cleaned == old(cleaned) + [p]
                && Faulted(r.error, req, old(PipesNow()), PipesOf(p))
      ensures r.Err? ==> Explained(r.error, old(c.io), c.io, old(c.now), c.now, deadline)
      ensures PollsInTime(old(c.io), c.io, deadline)
      ensures old(c.now) <= c.now <= Later(old(c.now), deadline) + 8 * c.slack
    {
      r := Converse(c, slot.value, req, deadline);
      if r.Err? {
        AbandonLocked();
      }
      Meanwhile();
    }

    /** What became of the worker had that a request was made with: it stays in the slot, or it is
        handed to cleanup. */
    ghost predicate Left(had: Option<Process>, r: Result<Frame, RequestError>, before: seq<Process>)
      reads this
    {
      if r.Err? && Evicts(r.error) then had.Some? && slot.None? && cleaned == before + [had.value]
      else slot == had && cleaned == before
    }

    /** The error of a request that had the lock, but no worker. */
    static function NoWorker(r: Result<Frame, RequestError>): Option<RequestError> {
      if r.Err? && !Evicts(r.error) then Some(r.error) else None
    }

    /** request() while its request is tracked: it looks for a worker as Provide does, and talks to it. */
    method Serve(c: Clock, id: u32, opcode: u16, payload: seq<byte>, deadline: nat)
        returns (r: Result<Frame, RequestError>, ghost looked: seq<Event>, ghost had: Option<Process>)
      requires Valid() && holds && !waits
      modifies this, c, InSlot()
      ensures Valid() && holds && !waits && current == old(current)
      ensures log == old(log) + looked + Zeroing(r)
      ensures Provided(old(slot), looked, had, NoWorker(r)) && Left(had, r, old(cleaned))
      ensures r.Ok? ==> slot.Some?
      ensures r.Ok? ==>
                var start := Start(slot.value, old(slot), old(PipesNow()));
                && Sent(start.outgoing, slot.value.outgoing, id, opcode, payload)
                && Received(start.incoming, slot.value.incoming, id, opcode, r.value)
      ensures slot.Some? ==> slot == old(slot) || fresh(slot.value)
      ensures r.Err? ==> !Unlucky(r.error)
      ensures r.Err? && Evicts(r.error) ==>
                && Faulted(r.error, RequestFrame(id, opcode, payload), Start(had.value, old(slot), old(PipesNow())),
                           PipesOf(had.value))
                && Explained(r.error, old(c.io), c.io, old(c.now), c.now, deadline)
      ensures PollsInTime(old(c.io), c.io, deadline)
      ensures old(c.now) <= c.now <= Later(old(c.now), deadline) + 10 * c.slack
    {
      var e;
      e, looked := Provide(c);
      had := slot;
      if e.Some? {
        r := Err(e.value);
      } else {
        ghost var start := PipesNow();
        assert start == Start(had.value, old(slot), old(PipesNow()));
        r := Talk(c, RequestFrame(id, opcode, payload), deadline);
        if r.Ok? {
          RequestIsSent(start.outgoing, id, opcode, payload);
        }
      }
    }

    /**
     request() from the moment it has the lock.  It looks for a worker as Provide does; with that
     one it exchanges the request for the next frame on its wire, or the worker is cleaned up.
     Every way out leaves the entry empty and the lock free.
     */
    method RequestLocked(c: Clock, id: u32, opcode: u16, payload: seq<byte>, deadline: nat)
        returns (r: Result<Frame, RequestError>, ghost entry: M.Current, ghost looked: seq<Event>,
                 ghost had: Option<Process>)
      requires Valid() && holds && !waits && current.None?
      modifies this, c, InSlot()
      ensures Outside() && current.None?
      ensures log == old(log) + [Tracked(entry)] + looked + Zeroing(r) + [Dropped(id), Unlocked(slot)]
      ensures entry.id == id && entry.opcode == opcode && old(c.now) <= entry.started <= c.now
      ensures Provided(old(slot), looked, had, NoWorker(r)) && Left(had, r, old(cleaned))
      ensures r.Ok? ==> slot.Some?
      ensures r.Ok? ==>
                var start := Start(slot.value, old(slot), old(PipesNow()));
                && Sent(start.outgoing, slot.value.outgoing, id, opcode, payload)
                && Received(start.incoming, slot.value.incoming, id, opcode, r.value)
      ensures slot.Some? ==> slot == old(slot) || fresh(slot.value)
      ensures r.Err? ==> !Unlucky(r.error)
      ensures r.Err? && Evicts(r.error) ==>
                && Faulted(r.error, RequestFrame(id, opcode, payload), Start(had.value, old(slot), old(PipesNow())),
                           PipesOf(had.value))
                && Explained(r.error, old(c.io), c.io, old(c.now), c.now, deadline)
      ensures PollsInTime(old(c.io), c.io, deadline)
      ensures old(c.now) <= c.now <= Later(old(c.now), deadline) + 11 * c.slack
    {
      TrackRequest(c, id, opcode);
      entry := current.value;
      r, looked, had := Serve(c, id, opcode, payload, deadline);
      DropRequestTracker(id);
      Unlock();
    }

    /** What a thread takes on giving up: the pid of a worker whose tracked request is overdue. */
    ghost predicate GivenUp(r: Result<Frame, RequestError>, first: Event, looked: seq<Event>, now: nat) {
      && r.Err? && Unlucky(r.error) && first.Saw?
      && if first.entry.Some? && first.entry.value.started + requestTimeout <= now
         then |looked| == 1 && looked[0].Took? && (r.error.ExitProcess? <==> looked[0].pid == 0)
         else looked == [] && r.error.Busy?
    }

    /** The part of request() that has not got the lock in time. */
    method GiveUp(c: Clock) returns (r: Result<Frame, RequestError>, ghost first: Event, ghost looked: seq<Event>)
      requires Valid() && !holds && waits
      modifies this, c`now, InSlot()
      ensures Outside() && cleaned == old(cleaned) && log == old(log) + [first] + looked + [WaitOver]
      ensures first == Saw(old(current)) && GivenUp(r, first, looked, c.now)
      ensures old(c.now) <= c.now <= old(c.now) + c.slack
    {
      first, looked := Saw(current), [];
      var taken := RecoverStuck(c);
      if taken.Some? {
        looked := [Took(taken.value)];
      }
      DropWaitTracker();
      r := Err(if taken == Some(0) then ExitProcess else Busy);
    }

    /** next_id.fetch_add(1) */
    method TakeId() returns (id: u32)
      modifies this`nextId
      ensures id == old(nextId) && nextId == if id == 0xFFFF_FFFF then 0 else id + 1
    {
      id := nextId;
      nextId := (nextId + 1) % U32_LIMIT;
    }

    /** request() up to having the lock, or having missed its deadline. */
    method Begin(c: Clock) returns (ok: bool, id: u32, deadline: nat)
      requires Outside()
      modifies this, c`now, InSlot()
      ensures Valid() && ok == holds && waits == !ok && cleaned == old(cleaned) && (ok ==> current.None?)
      ensures id == old(nextId) && old(c.now) + requestTimeout <= deadline <= old(c.now) + requestTimeout + c.slack
      ensures log == old(log) + [WaitBegun] + if ok then [Locked(slot, PipesNow())] + [WaitOver] else []
      ensures slot.Some? ==> slot == old(slot) || fresh(slot.value)
      ensures !ok ==> c.now >= deadline
      ensures old(c.now) <= c.now <= old(c.now) + requestTimeout + 10_000_000 + 3 * c.slack
    {
      id := TakeId();
      var begun := c.Read();
      deadline := begun + requestTimeout;
      TrackWait();
      ok := LockTimeout(c, deadline);
      if ok {
        DropWaitTracker();
      } else {
        MeanwhileUnlocked();
      }
    }

    /**
     request().  However it ends, and whatever the other threads do: the waiter count is what
     the others make of it, every poll was started in time, and it has returned by the deadline
     but for one nap and some steps that do not wait.  If it had the lock, it found in the slot
     what RequestLocked starts from.  If it never did, it is late, and takes a pid exactly if the
     request it saw tracked is overdue; it exits exactly if there was none to take.
     */
    method Request(c: Clock, opcode: u16, payload: seq<byte>)
        returns (r: Result<Frame, RequestError>, ghost first: Event, ghost entry: M.Current,
                 ghost looked: seq<Event>, ghost had: Option<Process>)
      requires Outside()
      modifies this, c, InSlot()
      ensures Outside()
      ensures r.Ok? || !Unlucky(r.error) ==>
                && current.None? && first.Locked?
                && log == old(log) + [WaitBegun] + [first] + [WaitOver] + [Tracked(entry)] + looked + Zeroing(r)
                          + [Dropped(old(nextId)), Unlocked(slot)]
                && entry.id == old(nextId) && entry.opcode == opcode && old(c.now) <= entry.started <= c.now
                && Provided(first.slot, looked, had, NoWorker(r)) && Left(had, r, old(cleaned))
      ensures r.Ok? ==> slot.Some?
      ensures r.Ok? ==>
                var start := Start(slot.value, first.slot, first.pipes);
                && Sent(start.outgoing, slot.value.outgoing, old(nextId), opcode, payload)
                && Received(start.incoming, slot.value.incoming, old(nextId), opcode, r.value)
      ensures r.Err? && Unlucky(r.error) ==>
                && c.io == old(c.io) && cleaned == old(cleaned) && c.now >= old(c.now) + requestTimeout
                && log == old(log) + [WaitBegun] + [first] + looked + [WaitOver] && GivenUp(r, first, looked, c.now)
      ensures PollsInTime(old(c.io), c.io, old(c.now) + requestTimeout + c.slack)
      ensures old(c.now) <= c.now <= old(c.now) + requestTimeout + 10_000_000 + 14 * c.slack
    {
      var ok, id, deadline := Begin(c);
      if ok {
        first := Locked(slot, PipesNow());
        r, entry, looked, had := RequestLocked(c, id, opcode, payload, deadline);
      } else {
        entry, had := M.Current(id, opcode, 0, 0), None;
        r, first, looked := GiveUp(c);
      }
    }

    // -------------------------------------------------------------- starting and restarting

    /** ensure_started: a running worker is kept, one that was seen to have exited is replaced, and
        an empty slot is filled; on an error the slot is as it was. */
    method EnsureStarted(c: Clock) returns (ok: bool, ghost first: Event, ghost events: seq<Event>)
      requires Outside()
      modifies this, c`now, InSlot()
      ensures Outside() && current.None? && cleaned == old(cleaned)
      ensures first.Locked? && log == old(log) + [first] + events + [Unlocked(slot)]
      ensures Started(first.slot, events, slot, ok) && (ok ==> slot.Some?)
      ensures first.slot.Some? && slot != first.slot ==> Probed(first.slot.value, Some(true)) in events
    {
      Lock();
      first, events := Locked(slot, PipesNow()), [];
      if slot.Some? {
        var exited := TryWait();
        events := [Probed(slot.value, exited)];
        if exited.None? {
          Unlock();
          ok := false;
          return;
        }
        if !exited.value {
          Unlock();
          ok := true;
          return;
        }
        ForgetPid();
        events := events + [PidZeroed];
      }
      var p := Spawn(c);
      events := events + [Spawned(p)];
      if p.Some? {
        slot := p;
      }
      ok := p.Some?;
      Unlock();
    }

    /** The first half of restart_after_delay: what is in the slot when the lock is had is taken out
        and cleaned up, once. */
    method TakeOut() returns (ghost first: Event)
      requires Outside()
      modifies this, InSlot()
      ensures Outside() && pid == 0 && first.Locked? && log == old(log) + [first, Unlocked(None), PidZeroed]
      ensures cleaned == old(cleaned) + if first.slot.Some? then [first.slot.value] else []
      ensures slot.Some? ==> slot == old(slot) || fresh(slot.value)
    {
      Lock();
      first := Locked(slot, PipesNow());
      var prev := slot;
      slot := None;
      Unlock();
      MeanwhileUnlocked();
      ForgetPid();
      if prev.Some? {
        cleaned := cleaned + [prev.value];
      }
    }

    /** Its second half: an empty slot is filled if a worker can be spawned. */
    method FillEmpty(c: Clock) returns (ghost first: Event, ghost events: seq<Event>)
      requires Outside()
      modifies this, c`now, InSlot()
      ensures Outside() && current.None? && cleaned == old(cleaned)
      ensures first.Locked? && log == old(log) + [first] + events + [Unlocked(slot)]
      ensures if first.slot.Some? then slot == first.slot && events == [] else events == [Spawned(slot)]
      ensures c.now >= old(c.now)
    {
      Lock();
      first, events := Locked(slot, PipesNow()), [];
      if slot.None? {
        slot := Spawn(c);
        events := [Spawned(slot)];
      }
      Unlock();
    }

    /**
     restart_after_delay: what is in the slot when the lock is had is taken out and cleaned up,
     once; after the delay a worker that is found there is left alone, and an empty slot is
     filled if a worker can be spawned.
     */
    method RestartAfterDelay(c: Clock) returns (ghost first: Event, ghost second: Event, ghost events: seq<Event>)
      requires Outside()
      modifies this, c`now, InSlot()
      ensures Outside() && current.None? && first.Locked? && second.Locked?
      ensures log == old(log) + [first, Unlocked(None), PidZeroed] + [Slept(1_000_000_000)] + [second] + events
                     + [Unlocked(slot)]
      ensures cleaned == old(cleaned) + if first.slot.Some? then [first.slot.value] else []
      ensures if second.slot.Some? then slot == second.slot && events == [] else events == [Spawned(slot)]
      ensures c.now > old(c.now) + 1_000_000_000
    {
      first := TakeOut();
      c.Sleep(RESTART_DELAY);
      log := log + [Slept(RESTART_DELAY)];
      second, events := FillEmpty(c);
    }
  }
}
