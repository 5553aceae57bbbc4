/**
 The supervisor's worker protocol as an interleaved transition system.

 Any number of client threads share the cells of one Worker object: the id
 counter, the wait counter, the published pid, the tracked request, and the
 worker slot behind its lock.  Worker processes are numbered in spawn order;
 each has its own two byte pipes and runs the frame loop of the worker program.
 An action is one atomic step of one thread or one worker; I/O moves any
 positive number of bytes and fails for a cause, and workers may crash at any
 point.  Time is in milliseconds.  Fields commented "history" are read by no
 step: the theorems speak of them.
 */
module SupervisorModel {
  import opened Wrappers
  import opened Bytes
  import opened IpcFrame

  // ---------------------------------------------------------------- workers

  /** Closed: the pipes are gone but the exit is not yet visible to try_wait. */
  datatype Status = Running | Closed | Exited

  /** Where a worker is in its loop: gathering a request frame, or writing a reply. */
  datatype Loop = Collecting(buf: seq<byte>) | Replying(rest: seq<byte>)

  datatype Ask = Ask(thread: nat, req: Frame)
  datatype Exchange = Exchange(req: Frame, resp: Frame)

  datatype Proc = Proc(
    pid: nat,
    status: Status,
    stdin: seq<byte>,
    stdout: seq<byte>,
    loop: Loop,
    asked: seq<Ask>,       // history: requests that threads began to write, in order
    served: seq<Exchange>  // history: requests dispatched and what was answered
  )

  function FreshProc(pid: nat): Proc {
    Proc(pid, Running, [], [], Collecting([]), [], [])
  }

  /** How many bytes a frame reader asks for after it has buf. */
  function Want(buf: seq<byte>): nat {
    if |buf| < HEADER_LEN then HEADER_LEN else HEADER_LEN + PayloadLen(buf)
  }

  /** buf is one whole frame within the cap. */
  predicate Whole(buf: seq<byte>, cap: nat) {
    Decode(buf, cap).Got? && Decode(buf, cap).size == |buf|
  }

  function FrameIn(buf: seq<byte>, cap: nat): Frame
    requires Whole(buf, cap)
  {
    Decode(buf, cap).frame
  }

  /** What the worker's dispatch may answer: same id and opcode, anything else its own. */
  predicate IsReply(req: Frame, resp: Frame) {
    && Sendable(resp)
    && resp.kind == KIND_RESPONSE
    && resp.requestId == req.requestId
    && resp.opcode == req.opcode
  }

  // ---------------------------------------------------------------- shared cells

  /** The in-flight request that RequestTracker publishes; due is history. */
  datatype Current = Current(id: u32, opcode: u16, started: nat, due: nat)

  datatype Shared = Shared(
    nextId: u32,
    waiting: nat,
    pid: nat,
    lock: Option<nat>,
    slot: Option<nat>,
    current: Option<Current>
  )

  datatype Job = Job(req: Frame, deadline: nat)

  function TakeId(c: Shared): Shared { c.(nextId := (c.nextId + 1) % U32_LIMIT) }
  function TrackWait(c: Shared): Shared { c.(waiting := c.waiting + 1) }
  function DropWait(c: Shared): Shared { c.(waiting := if c.waiting == 0 then 0 else c.waiting - 1) }
  function TakeLock(c: Shared, t: nat): Shared { c.(lock := Some(t)) }
  function Unlock(c: Shared): Shared { c.(lock := None) }
  function TrackRequest(c: Shared, job: Job, now: nat): Shared {
    c.(current := Some(Current(job.req.requestId, job.req.opcode, now, job.deadline)))
  }
  /** Only the entry of the same id is cleared. */
  function DropTracker(c: Shared, id: u32): Shared {
    if c.current.Some? && c.current.value.id == id then c.(current := None) else c
  }
  function StorePid(c: Shared, pid: nat): Shared { c.(pid := pid) }
  function Install(c: Shared, inc: nat): Shared { c.(slot := Some(inc)) }
  function TakeSlot(c: Shared): Shared { c.(slot := None) }

  /** The tracked request has been running for the whole timeout. */
  predicate Overdue(c: Shared, now: nat, timeout: nat) {
    c.current.Some? && now - c.current.value.started >= timeout
  }

  // ---------------------------------------------------------------- threads

  /** A worker on its way into the slot: not spawned yet, spawned, its pid stored. */
  datatype Child = Wanted | Spawned(inc: nat) | Published(inc: nat)

  /** Why a worker is abandoned (history; the code keeps it as the kind of its error). */
  datatype Why = Oversized | Late | Ended | OsError | Rejected

  /** request() while it holds the lock and a RequestTracker. */
  datatype Stage =
    | Tracked
    | Fill(child: Child)     // the slot was empty
    | Probing
    | Replace(child: Child)  // the worker had exited
    | Sending
    | Writing(inc: nat, k: nat, sent: nat)
    | Reading(inc: nat, k: nat, got: seq<byte>)
    | Abandoning(why: Why)
    | AbandonZero(prev: Option<nat>)
    | AbandonHand(prev: Option<nat>)
    | Failing
    | Answered(inc: nat, k: nat, resp: Frame)

  datatype Outcome = Silent | Reply(req: Frame, inc: nat, k: nat, resp: Frame)

  /** Other reasons to hold the lock. */
  datatype Errand =
    | Locked(job: Job)
    | Untracked(job: Job)
    | Restart(child: Child)
    | EnsureLook
    | EnsureZero
    | Ensure(child: Child)
    | Unlocking(out: Outcome)

  /** The next step of a client thread.  prev is what it took out of the slot.  Of the request that
      a thread saw to be stuck, due is the deadline and inc the worker (history). */
  datatype Pc =
    | Idle
    | Waiting(job: Job)
    | Denied(job: Job)
    | Expired(job: Job)
    | Stuck(job: Job, due: nat, inc: Option<nat>)
    | GaveUp(job: Job)
    | RestartTake
    | RestartZero(prev: Option<nat>)
    | RestartHand(prev: Option<nat>)
    | Sleeping
    | Holding(errand: Errand)
    | Serving(job: Job, stage: Stage)

  predicate HoldsLock(pc: Pc) { pc.Holding? || pc.Serving? }

  /** Threads that hold a WaitTracker. */
  predicate IsWaiting(pc: Pc) {
    pc.Waiting? || pc.Denied? || pc.Expired? || pc.Stuck? || pc.GaveUp? || (pc.Holding? && pc.errand.Locked?)
  }

  /** The spawn that a thread is in the middle of. */
  function ChildOf(pc: Pc): Option<Child> {
    if pc.Serving? then (if pc.stage.Fill? || pc.stage.Replace? then Some(pc.stage.child) else None)
    else if pc.Holding? then (if pc.errand.Restart? || pc.errand.Ensure? then Some(pc.errand.child) else None)
    else None
  }

  function WithChild(pc: Pc, child: Child): Pc
    requires ChildOf(pc).Some?
  {
    if pc.Serving? then pc.(stage := pc.stage.(child := child)) else pc.(errand := pc.errand.(child := child))
  }

  /** What a thread does next when its worker cannot be spawned. */
  function AfterSpawnFail(pc: Pc): Pc {
    if pc.Serving? then Serving(pc.job, Failing) else Holding(Unlocking(Silent))
  }

  /** ... and once the new worker is in the slot. */
  function AfterInstall(pc: Pc): Pc {
    if pc.Serving? then Serving(pc.job, if pc.stage.Fill? then Probing else Sending)
    else Holding(Unlocking(Silent))
  }

  /** Workers that only this thread refers to: spawned but not installed, or taken out. */
  function HandOf(pc: Pc): Option<nat> {
    if ChildOf(pc).Some? then NewBorn(ChildOf(pc).value)
    else if pc.Serving? then (if pc.stage.AbandonZero? || pc.stage.AbandonHand? then pc.stage.prev else None)
    else if pc.RestartZero? || pc.RestartHand? then pc.prev
    else None
  }

  function NewBorn(child: Child): Option<nat> {
    if child.Wanted? then None else Some(child.inc)
  }

  // ---------------------------------------------------------------- whole state

  datatype Kill = Kill(pid: nat, inc: Option<nat>, due: nat, at: nat)
  datatype Answer = Answer(thread: nat, req: Frame, resp: Frame, inc: nat, k: nat)

  datatype State = State(
    timeout: nat,
    now: nat,
    cells: Shared,
    threads: seq<Pc>,
    procs: seq<Proc>,
    exited: bool,
    stored: nat,                // history: how many workers had their pid stored
    pub: Option<nat>,           // history: whose pid the pid cell holds
    handed: multiset<nat>,      // history: workers given to cleanup_worker
    replaced: multiset<nat>,    // history: workers overwritten in the slot
    kills: seq<Kill>,           // history: pids taken by recovering threads
    answers: seq<Answer>        // history: Ok results of request()
  )

  function Init(timeout: nat, clients: nat): State {
    State(timeout, 0, Shared(1, 0, 0, None, None, None), seq(clients, i => Idle), [], false, 0, None,
          multiset{}, multiset{}, [], [])
  }

  // ---------------------------------------------------------------- steps

  /** request() up to holding the lock, or giving up on it. */
  datatype WaitStep =
    | Begin(opcode: u16, payload: seq<byte>) | Acquire | Miss | Retry | Expire | Inspect | SwapPid | GiveUp

  /** Steps under the lock but without a RequestTracker: request() and ensure_started(). */
  datatype HoldStep =
    | StopWaiting | Track | EnsureCheck | EnsureFail | EnsurePid | Release(restart: bool)

  /** request() with its RequestTracker, including abandon_locked_worker(). */
  datatype ServeStep =
    | LookSlot | Probe | ProbeFail | AbandonSlot | AbandonPid | AbandonCleanup | Untrack

  /** write_frame_timeout() and read_frame_timeout(), a chunk at a time. */
  datatype IoStep =
    | Send | Write(n: nat) | WriteFail(why: Why) | WriteDone
    | Read(n: nat) | ReadFail(why: Why) | ReadReject | ReadDone

  /** spawn() and the assignment of its result to the slot. */
  datatype SpawnStep = Spawn(pid: nat) | SpawnFail | Publish | PutInSlot

  /** restart_after_delay(), and the lock of ensure_started(), which the program calls once at
      its start; here any idle thread may do so at any time. */
  datatype RestartStep = RestartSlot | RestartPid | RestartCleanup | RestartWake | EnsureLock

  datatype WorkerStep =
    | Crash | Die | Collect(n: nat) | Refuse | Skip | Serve(resp: Frame) | Emit(n: nat)

  datatype Action =
    | Tick
    | ByWait(t: nat, wait: WaitStep)
    | ByHold(t: nat, hold: HoldStep)
    | ByServe(t: nat, serve: ServeStep)
    | ByIo(t: nat, io: IoStep)
    | BySpawn(t: nat, spawn: SpawnStep)
    | ByRestart(t: nat, restart: RestartStep)
    | ByWorker(i: nat, worker: WorkerStep)

  predicate Thread(s: State, t: nat) { t < |s.threads| }

  function Move(s: State, t: nat, pc: Pc): State
    requires Thread(s, t)
  {
    s.(threads := s.threads[t := pc])
  }

  function Share(s: State, c: Shared): State { s.(cells := c) }

  function SetProc(s: State, i: nat, p: Proc): State
    requires i < |s.procs|
  {
    s.(procs := s.procs[i := p])
  }

  function Add(bag: multiset<nat>, o: Option<nat>): multiset<nat> {
    if o.Some? then bag + multiset{o.value} else bag
  }

  function ZeroPid(s: State): State {
    s.(cells := StorePid(s.cells, 0), pub := None)
  }

  predicate Mismatch(req: Frame, resp: Frame) {
    resp.kind != KIND_RESPONSE || resp.requestId != req.requestId || resp.opcode != req.opcode
  }

  /** decrypt_batch may restart the worker only after a reply that is not binary. */
  predicate MayRestart(out: Outcome) {
    out.Reply? && out.resp.opcode == OP_DECRYPT_BATCH && out.resp.flags % 2 == 0
  }

  /** The installed worker's record; None where the slot is empty. */
  function Installed(s: State): Option<Proc> {
    if s.cells.slot.Some? && s.cells.slot.value < |s.procs| then Some(s.procs[s.cells.slot.value]) else None
  }

  /** The worker that the lock holder has to do with: what it is putting into the slot or has taken
      out, and otherwise the installed one. */
  function Facing(s: State): Option<nat> {
    var t := s.cells.lock;
    if t.None? || t.value >= |s.threads| then None
    else if HandOf(s.threads[t.value]).Some? then HandOf(s.threads[t.value])
    else s.cells.slot
  }

  function WaitNext(s: State, t: nat, step: WaitStep): Option<State>
    requires Thread(s, t)
  {
    var pc := s.threads[t];
    match step
    case Begin(opcode, payload) =>
      if !pc.Idle? then None else
      var job := Job(Frame(KIND_REQUEST, s.cells.nextId, opcode, 0, payload), s.now + s.timeout);
      Some(Move(Share(s, TrackWait(TakeId(s.cells))), t, Waiting(job)))
    case Acquire =>
      if !pc.Waiting? || s.cells.lock.Some? then None else
      Some(Move(Share(s, TakeLock(s.cells, t)), t, Holding(Locked(pc.job))))
    case Miss =>
      if !pc.Waiting? || s.cells.lock.None? then None else
      Some(Move(s, t, Denied(pc.job)))
    case Retry =>
      if !pc.Denied? || s.now >= pc.job.deadline then None else
      Some(Move(s, t, Waiting(pc.job)))
    case Expire =>
      if !pc.Denied? || s.now < pc.job.deadline then None else
      Some(Move(s, t, Expired(pc.job)))
    case Inspect =>
      if !pc.Expired? then None else
      Some(Move(s, t, if Overdue(s.cells, s.now, s.timeout) then Stuck(pc.job, s.cells.current.value.due, Facing(s))
                      else GaveUp(pc.job)))
    case SwapPid =>
      if !pc.Stuck? then None else
      if s.cells.pid == 0 then Some(s.(exited := true)) else
      var kill := Kill(s.cells.pid, s.pub, pc.due, s.now);
      Some(Move(ZeroPid(s).(kills := s.kills + [kill]), t, GaveUp(pc.job)))
    case GiveUp =>
      if !pc.GaveUp? then None else
      Some(Move(Share(s, DropWait(s.cells)), t, Idle))
  }

  function HoldNext(s: State, t: nat, step: HoldStep): Option<State>
    requires Thread(s, t) && s.threads[t].Holding?
  {
    match (step, s.threads[t].errand)
    case (StopWaiting, Locked(job)) =>
      Some(Move(Share(s, DropWait(s.cells)), t, Holding(Untracked(job))))
    case (Track, Untracked(job)) =>
      Some(Move(Share(s, TrackRequest(s.cells, job, s.now)), t, Serving(job, Tracked)))
    case (EnsureCheck, EnsureLook) =>
      if Installed(s).None? then Some(Move(s, t, Holding(Ensure(Wanted)))) else
      Some(Move(s, t, Holding(if Installed(s).value.status == Exited then EnsureZero else Unlocking(Silent))))
    case (EnsureFail, EnsureLook) =>
      if s.cells.slot.None? then None else Some(Move(s, t, Holding(Unlocking(Silent))))
    case (EnsurePid, EnsureZero) =>
      Some(Move(ZeroPid(s), t, Holding(Ensure(Wanted))))
    case (Release(restart), Unlocking(out)) =>
      if restart && !MayRestart(out) then None else
      var s' := Move(Share(s, Unlock(s.cells)), t, if restart then RestartTake else Idle);
      Some(if out.Reply? then s'.(answers := s.answers + [Answer(t, out.req, out.resp, out.inc, out.k)]) else s')
    case _ => None
  }

  function ServeNext(s: State, t: nat, step: ServeStep): Option<State>
    requires Thread(s, t) && s.threads[t].Serving?
  {
    var job := s.threads[t].job;
    match (step, s.threads[t].stage)
    case (LookSlot, Tracked) =>
      Some(Move(s, t, Serving(job, if s.cells.slot.None? then Fill(Wanted) else Probing)))
    case (Probe, Probing) =>
      if Installed(s).None? then None else
      Some(Move(s, t, Serving(job, if Installed(s).value.status == Exited then Replace(Wanted) else Sending)))
    case (ProbeFail, Probing) =>
      Some(Move(s, t, Serving(job, Failing)))
    case (AbandonSlot, Abandoning(_)) =>
      Some(Move(Share(s, TakeSlot(s.cells)), t, Serving(job, AbandonZero(s.cells.slot))))
    case (AbandonPid, AbandonZero(prev)) =>
      Some(Move(ZeroPid(s), t, Serving(job, AbandonHand(prev))))
    case (AbandonCleanup, AbandonHand(prev)) =>
      Some(Move(s.(handed := Add(s.handed, prev)), t, Serving(job, Failing)))
    case (Untrack, Failing) =>
      Some(Move(Share(s, DropTracker(s.cells, job.req.requestId)), t, Holding(Unlocking(Silent))))
    case (Untrack, Answered(inc, k, resp)) =>
      Some(Move(Share(s, DropTracker(s.cells, job.req.requestId)), t,
                Holding(Unlocking(Reply(job.req, inc, k, resp)))))
    case _ => None
  }

  /** A reader that holds buf may take n more of the available bytes. */
  predicate MayTake(buf: seq<byte>, available: seq<byte>, n: nat, cap: nat) {
    && 1 <= n <= |available|
    && |buf| + n <= Want(buf)
    && !HeaderRefused(buf, cap)
  }

  predicate HeaderRefused(buf: seq<byte>, cap: nat) {
    |buf| >= HEADER_LEN && (!GoodMagic(buf) || !GoodVersion(buf) || PayloadLen(buf) > cap)
  }

  /** The longest time that poll can be given. */
  const MAX_POLL: nat := 0x7FFF_FFFF

  /** A wait for the worker may have ended in a timeout: poll is given whole milliseconds, so that
      is less than one before the deadline; or it is after the longest time that poll can wait. */
  predicate TimeIsUp(s: State, job: Job) {
    s.now + 1 >= job.deadline || s.timeout > MAX_POLL
  }

  /** There is more to write, or to read, for which to wait. */
  predicate Awaits(job: Job, stage: Stage) {
    if stage.Writing? then Sendable(job.req) && stage.sent < |Encode(job.req)|
    else stage.Reading? && |stage.got| < Want(stage.got) && !HeaderRefused(stage.got, NO_CAP)
  }

  /** How waiting can fail.  The pipes close only with their process. */
  predicate MayFail(s: State, job: Job, inc: nat, why: Why) {
    match why
    case Late => TimeIsUp(s, job)
    case Ended => inc < |s.procs| && s.procs[inc].status != Running
    case OsError => true
    case _ => false
  }

  function IoNext(s: State, t: nat, step: IoStep): Option<State>
    requires Thread(s, t) && s.threads[t].Serving?
  {
    var job := s.threads[t].job;
    match (step, s.threads[t].stage)
    case (Send, Sending) =>
      if Installed(s).None? then None else
      if !Sendable(job.req) then Some(Move(s, t, Serving(job, Abandoning(Oversized)))) else
      var inc := s.cells.slot.value;
      var p := s.procs[inc];
      Some(Move(SetProc(s, inc, AskProc(p, t, job.req)), t, Serving(job, Writing(inc, |p.asked|, 0))))
    case (Write(n), Writing(inc, k, sent)) =>
      if !Sendable(job.req) || inc >= |s.procs| then None else
      if s.procs[inc].status != Running || n == 0 || sent + n > |Encode(job.req)| then None else
      Some(Move(SetProc(s, inc, WriteProc(s.procs[inc], Encode(job.req)[sent..sent + n])), t,
                Serving(job, Writing(inc, k, sent + n))))
    case (WriteFail(why), Writing(inc, _, _)) =>
      if !Awaits(job, s.threads[t].stage) || !MayFail(s, job, inc, why) then None else
      Some(Move(s, t, Serving(job, Abandoning(why))))
    case (WriteDone, Writing(inc, k, sent)) =>
      if !Sendable(job.req) || sent != |Encode(job.req)| then None else
      Some(Move(s, t, Serving(job, Reading(inc, k, []))))
    case (Read(n), Reading(inc, k, got)) =>
      if inc >= |s.procs| || !MayTake(got, s.procs[inc].stdout, n, NO_CAP) then None else
      Some(Move(SetProc(s, inc, ReadProc(s.procs[inc], n)), t,
                Serving(job, Reading(inc, k, got + s.procs[inc].stdout[..n]))))
    case (ReadFail(why), Reading(inc, _, _)) =>
      if !Awaits(job, s.threads[t].stage) || !MayFail(s, job, inc, why) then None else
      Some(Move(s, t, Serving(job, Abandoning(why))))
    case (ReadReject, Reading(_, _, got)) =>
      if !HeaderRefused(got, NO_CAP) then None else Some(Move(s, t, Serving(job, Abandoning(Rejected))))
    case (ReadDone, Reading(inc, k, got)) =>
      if !Whole(got, NO_CAP) then None else
      var resp := FrameIn(got, NO_CAP);
      Some(Move(s, t, Serving(job, if Mismatch(job.req, resp) then Abandoning(Rejected) else Answered(inc, k, resp))))
    case _ => None
  }

  function AskProc(p: Proc, t: nat, req: Frame): Proc { p.(asked := p.asked + [Ask(t, req)]) }

  function WriteProc(p: Proc, chunk: seq<byte>): Proc { p.(stdin := p.stdin + chunk) }

  function ReadProc(p: Proc, n: nat): Proc
    requires n <= |p.stdout|
  {
    p.(stdout := p.stdout[n..])
  }

  /** The OS gives a new child a nonzero pid that no unreaped child has. */
  predicate FreePid(s: State, pid: nat) {
    pid != 0 && forall i :: 0 <= i < |s.procs| && s.procs[i].status != Exited ==> s.procs[i].pid != pid
  }

  function SpawnNext(s: State, t: nat, step: SpawnStep): Option<State>
    requires Thread(s, t)
  {
    var pc := s.threads[t];
    match (step, ChildOf(pc))
    case (Spawn(pid), Some(Wanted)) =>
      if !FreePid(s, pid) then None else
      Some(Move(s.(procs := s.procs + [FreshProc(pid)]), t, WithChild(pc, Spawned(|s.procs|))))
    case (SpawnFail, Some(Wanted)) =>
      Some(Move(s, t, AfterSpawnFail(pc)))
    case (Publish, Some(Spawned(inc))) =>
      if inc >= |s.procs| then None else
      Some(Move(s.(cells := StorePid(s.cells, s.procs[inc].pid), pub := Some(inc), stored := s.stored + 1), t,
                WithChild(pc, Published(inc))))
    case (PutInSlot, Some(Published(inc))) =>
      Some(Move(s.(cells := Install(s.cells, inc), replaced := Add(s.replaced, s.cells.slot)), t, AfterInstall(pc)))
    case _ => None
  }

  function RestartNext(s: State, t: nat, step: RestartStep): Option<State>
    requires Thread(s, t)
  {
    match (step, s.threads[t])
    case (RestartSlot, RestartTake) =>
      if s.cells.lock.Some? then None else
      Some(Move(Share(s, TakeSlot(s.cells)), t, RestartZero(s.cells.slot)))
    case (RestartPid, RestartZero(prev)) =>
      Some(Move(ZeroPid(s), t, RestartHand(prev)))
    case (RestartCleanup, RestartHand(prev)) =>
      Some(Move(s.(handed := Add(s.handed, prev)), t, Sleeping))
    case (RestartWake, Sleeping) =>
      if s.cells.lock.Some? then None else
      if s.cells.slot.Some? then Some(Move(s, t, Idle)) else
      Some(Move(Share(s, TakeLock(s.cells, t)), t, Holding(Restart(Wanted))))
    case (EnsureLock, Idle) =>
      if s.cells.lock.Some? then None else
      Some(Move(Share(s, TakeLock(s.cells, t)), t, Holding(EnsureLook)))
    case _ => None
  }

  /** One step of a worker process; only Die can follow the end of a worker. */
  function ProcNext(p: Proc, step: WorkerStep): Option<Proc> {
    if step == Die then (if p.status == Closed then Some(p.(status := Exited)) else None)
    else if p.status != Running then None
    else
      match step
      case Crash => Some(p.(status := Closed))
      case Die => None
      case Collect(n) =>
        if !p.loop.Collecting? || !MayTake(p.loop.buf, p.stdin, n, WORKER_MAX_PAYLOAD) then None else
        Some(p.(stdin := p.stdin[n..], loop := Collecting(p.loop.buf + p.stdin[..n])))
      case Refuse =>
        if !p.loop.Collecting? || !HeaderRefused(p.loop.buf, WORKER_MAX_PAYLOAD) then None else
        Some(p.(status := Closed))
      case Skip =>
        if !p.loop.Collecting? || !Whole(p.loop.buf, WORKER_MAX_PAYLOAD) then None else
        if FrameIn(p.loop.buf, WORKER_MAX_PAYLOAD).kind == KIND_REQUEST then None else
        Some(p.(loop := Collecting([])))
      case Serve(resp) =>
        if !p.loop.Collecting? || !Whole(p.loop.buf, WORKER_MAX_PAYLOAD) then None else
        var req := FrameIn(p.loop.buf, WORKER_MAX_PAYLOAD);
        if req.kind != KIND_REQUEST || req.opcode == OP_SHUTDOWN || !IsReply(req, resp) then None else
        Some(p.(loop := Replying(Encode(resp)), served := p.served + [Exchange(req, resp)]))
      case Emit(n) =>
        if !p.loop.Replying? || n == 0 || n > |p.loop.rest| then None else
        var rest := p.loop.rest[n..];
        Some(p.(stdout := p.stdout + p.loop.rest[..n],
                loop := if rest == [] then Collecting([]) else Replying(rest)))
  }

  /** The state after an action, or None where the action is not possible. */
  function Next(s: State, a: Action): Option<State> {
    if s.exited then None else
    match a
    case Tick => Some(s.(now := s.now + 1))
    case ByWait(t, step) => if Thread(s, t) then WaitNext(s, t, step) else None
    case ByHold(t, step) => if Thread(s, t) && s.threads[t].Holding? then HoldNext(s, t, step) else None
    case ByServe(t, step) => if Thread(s, t) && s.threads[t].Serving? then ServeNext(s, t, step) else None
    case ByIo(t, step) => if Thread(s, t) && s.threads[t].Serving? then IoNext(s, t, step) else None
    case BySpawn(t, step) => if Thread(s, t) then SpawnNext(s, t, step) else None
    case ByRestart(t, step) => if Thread(s, t) then RestartNext(s, t, step) else None
    case ByWorker(i, step) =>
      if i >= |s.procs| then None else
      match ProcNext(s.procs[i], step)
      case None => None
      case Some(p) => Some(SetProc(s, i, p))
  }

  /** The state after a run, or None where some action was not possible. */
  function Run(s: State, acts: seq<Action>): Option<State>
    decreases |acts|
  {
    if acts == [] then Some(s)
    else
      match Run(s, acts[..|acts| - 1])
      case None => None
      case Some(m) => Next(m, acts[|acts| - 1])
  }
}
