/**
 Runs of the supervisor with two clients, step by step: one in which a request is answered,
 and five that show what does not hold in every run.  SupervisorExactly has when it does.
 */
module SupervisorExample {
  import opened Wrappers
  import opened Bytes
  import opened IpcFrame
  import opened SupervisorModel
  import opened SupervisorExactly

  /** A minute, as the program has it by default. */
  const TIMEOUT: nat := 60_000
  const PID: nat := 5
  const OTHER_PID: nat := 6

  type client = t: nat | t < 2

  function Request(id: u32): Frame { Frame(KIND_REQUEST, id, OP_DECRYPT_BATCH, 0, []) }

  /** With the flag, binary plaintexts; without, an error that may ask for a restart. */
  function Response(id: u32, flags: u16): Frame { Frame(KIND_RESPONSE, id, OP_DECRYPT_BATCH, flags, []) }

  predicate Reaches(acts: seq<Action>, s: State) { Run(Init(TIMEOUT, 2), acts) == Some(s) && !s.exited }

  /** What no step under the lock changes. */
  predicate Same(s: State, s0: State) {
    s.timeout == s0.timeout && s.now == s0.now && s.answers == s0.answers && s.handed == s0.handed
  }

  /** Client t moved to pc, and the other one did not move. */
  predicate Moved(s: State, s0: State, t: client, pc: Pc) {
    |s0.threads| == 2 == |s.threads| && s.threads[t] == pc && s.threads[1 - t] == s0.threads[1 - t]
  }

  /** Worker i became p, and the others are as they were. */
  predicate Became(s: State, s0: State, i: nat, p: Proc) {
    && |s.procs| == |s0.procs| && i < |s0.procs| && s.procs[i] == p
    && forall j :: 0 <= j < |s0.procs| && j != i ==> s.procs[j] == s0.procs[j]
  }

  lemma Extends(acts: seq<Action>, s: State, a: Action)
    requires Reaches(acts, s) && Next(s, a).Some?
    ensures Run(Init(TIMEOUT, 2), acts + [a]) == Next(s, a)
  {
    assert (acts + [a])[..|acts|] == acts;
  }

  lemma Waits(acts: seq<Action>, s: State, t: nat, step: WaitStep) returns (acts': seq<Action>, s': State)
    requires Reaches(acts, s) && Thread(s, t) && WaitNext(s, t, step).Some? && !step.SwapPid?
    ensures Reaches(acts', s') && s' == WaitNext(s, t, step).value
  {
    Extends(acts, s, ByWait(t, step));
    acts', s' := acts + [ByWait(t, step)], WaitNext(s, t, step).value;
  }

  lemma Holds(acts: seq<Action>, s: State, t: nat, step: HoldStep) returns (acts': seq<Action>, s': State)
    requires Reaches(acts, s) && Thread(s, t) && s.threads[t].Holding? && HoldNext(s, t, step).Some?
    ensures Reaches(acts', s') && s' == HoldNext(s, t, step).value
  {
    Extends(acts, s, ByHold(t, step));
    acts', s' := acts + [ByHold(t, step)], HoldNext(s, t, step).value;
  }

  lemma Serves(acts: seq<Action>, s: State, t: nat, step: ServeStep) returns (acts': seq<Action>, s': State)
    requires Reaches(acts, s) && Thread(s, t) && s.threads[t].Serving? && ServeNext(s, t, step).Some?
    ensures Reaches(acts', s') && s' == ServeNext(s, t, step).value
  {
    Extends(acts, s, ByServe(t, step));
    acts', s' := acts + [ByServe(t, step)], ServeNext(s, t, step).value;
  }

  lemma Moves(acts: seq<Action>, s: State, t: nat, step: IoStep) returns (acts': seq<Action>, s': State)
    requires Reaches(acts, s) && Thread(s, t) && s.threads[t].Serving? && IoNext(s, t, step).Some?
    ensures Reaches(acts', s') && s' == IoNext(s, t, step).value
  {
    Extends(acts, s, ByIo(t, step));
    acts', s' := acts + [ByIo(t, step)], IoNext(s, t, step).value;
  }

  lemma Spawns(acts: seq<Action>, s: State, t: nat, step: SpawnStep) returns (acts': seq<Action>, s': State)
    requires Reaches(acts, s) && Thread(s, t) && SpawnNext(s, t, step).Some?
    ensures Reaches(acts', s') && s' == SpawnNext(s, t, step).value
  {
    Extends(acts, s, BySpawn(t, step));
    acts', s' := acts + [BySpawn(t, step)], SpawnNext(s, t, step).value;
  }

  lemma Restarts(acts: seq<Action>, s: State, t: nat, step: RestartStep) returns (acts': seq<Action>, s': State)
    requires Reaches(acts, s) && Thread(s, t) && RestartNext(s, t, step).Some?
    ensures Reaches(acts', s') && s' == RestartNext(s, t, step).value
  {
    Extends(acts, s, ByRestart(t, step));
    acts', s' := acts + [ByRestart(t, step)], RestartNext(s, t, step).value;
  }

  lemma Works(acts: seq<Action>, s: State, i: nat, step: WorkerStep) returns (acts': seq<Action>, s': State)
    requires Reaches(acts, s) && i < |s.procs| && ProcNext(s.procs[i], step).Some?
    ensures Reaches(acts', s') && s' == SetProc(s, i, ProcNext(s.procs[i], step).value)
  {
    Extends(acts, s, ByWorker(i, step));
    acts', s' := acts + [ByWorker(i, step)], SetProc(s, i, ProcNext(s.procs[i], step).value);
  }

  /** Time passes. */
  lemma {:induction false} Passes(acts: seq<Action>, s: State, d: nat) returns (acts': seq<Action>, s': State)
    requires Reaches(acts, s)
    ensures Reaches(acts', s') && s' == s.(now := s.now + d)
  {
    acts', s' := acts, s;
    if d > 0 {
      acts', s' := Passes(acts, s, d - 1);
      Extends(acts', s', Tick);
      acts', s' := acts' + [Tick], s'.(now := s'.now + 1);
    }
  }

  // ---------------------------------------------------------------- stretches of request()

  lemma Begins(acts0: seq<Action>, s0: State, t: client, job: Job) returns (acts: seq<Action>, s: State)
    requires Reaches(acts0, s0) && |s0.threads| == 2 && s0.threads[t] == Idle && s0.cells.nextId < 1000
    requires job == Job(Request(s0.cells.nextId), s0.now + s0.timeout)
    ensures Reaches(acts, s) && Same(s, s0) && s.procs == s0.procs
    ensures Moved(s, s0, t, Waiting(job))
    ensures s.cells == s0.cells.(nextId := s0.cells.nextId + 1, waiting := s0.cells.waiting + 1)
  {
    acts, s := Waits(acts0, s0, t, Begin(OP_DECRYPT_BATCH, []));
  }

  lemma TakesTheLock(acts0: seq<Action>, s0: State, t: client, job: Job) returns (acts: seq<Action>, s: State)
    requires Reaches(acts0, s0) && |s0.threads| == 2 && s0.threads[t] == Waiting(job) && s0.cells.lock.None?
    ensures Reaches(acts, s) && Same(s, s0) && s.procs == s0.procs && Moved(s, s0, t, Serving(job, Tracked))
    ensures s.cells == TrackRequest(DropWait(TakeLock(s0.cells, t)), job, s0.now)
  {
    acts, s := Waits(acts0, s0, t, Acquire);
    acts, s := Holds(acts, s, t, StopWaiting);
    acts, s := Holds(acts, s, t, Track);
  }

  /** A worker that request() spawns, into an empty slot or in place of one that has exited. */
  lemma Installs(acts0: seq<Action>, s0: State, t: client, pid: nat) returns (acts: seq<Action>, s: State)
    requires Reaches(acts0, s0) && |s0.threads| == 2 && ChildOf(s0.threads[t]) == Some(Wanted)
    requires FreePid(s0, pid)
    ensures Reaches(acts, s) && Same(s, s0) && Moved(s, s0, t, AfterInstall(s0.threads[t]))
    ensures s.procs == s0.procs + [FreshProc(pid)]
    ensures s.cells == s0.cells.(pid := pid, slot := Some(|s0.procs|)) && s.pub == Some(|s0.procs|)
  {
    acts, s := Spawns(acts0, s0, t, Spawn(pid));
    acts, s := Spawns(acts, s, t, Publish);
    acts, s := Spawns(acts, s, t, PutInSlot);
  }

  function Worker(pid: nat, asked: seq<Ask>, stdin: seq<byte>, stdout: seq<byte>, loop: Loop,
                  served: seq<Exchange>): Proc
  {
    Proc(pid, Running, stdin, stdout, loop, asked, served)
  }

  /** A new worker that was asked this, and has not read it. */
  function Asked(pid: nat, t: nat, req: Frame, stdin: seq<byte>): Proc {
    Worker(pid, [Ask(t, req)], stdin, [], Collecting([]), [])
  }

  /** ... and has answered it. */
  function Answering(pid: nat, t: nat, req: Frame, resp: Frame, stdout: seq<byte>): Proc {
    Worker(pid, [Ask(t, req)], [], stdout, Collecting([]), [Exchange(req, resp)])
  }

  lemma BeginsToWrite(acts0: seq<Action>, s0: State, t: client, job: Job, i: nat, pid: nat)
      returns (acts: seq<Action>, s: State)
    requires Reaches(acts0, s0) && |s0.threads| == 2 && s0.threads[t] == Serving(job, Sending)
    requires s0.cells.slot == Some(i) && i < |s0.procs| && s0.procs[i] == FreshProc(pid) && Sendable(job.req)
    ensures Reaches(acts, s) && Same(s, s0) && s.cells == s0.cells && Moved(s, s0, t, Serving(job, Writing(i, 0, 0)))
    ensures Became(s, s0, i, Asked(pid, t, job.req, []))
  {
    acts, s := Moves(acts0, s0, t, Send);
  }

  /** A frame without payload is whole once its twenty bytes are there. */
  lemma HeaderIsWhole(f: Frame, cap: nat)
    requires f.payload == []
    ensures Whole(Encode(f), cap) && FrameIn(Encode(f), cap) == f
  {
    DecodeEncode(f, [], cap);
    assert Encode(f) + [] == Encode(f);
  }

  lemma WritesTheRequest(acts0: seq<Action>, s0: State, t: client, job: Job, i: nat, pid: nat)
      returns (acts: seq<Action>, s: State)
    requires Reaches(acts0, s0) && |s0.threads| == 2 && s0.threads[t] == Serving(job, Writing(i, 0, 0))
    requires i < |s0.procs| && job.req.payload == [] && s0.procs[i] == Asked(pid, t, job.req, [])
    ensures Reaches(acts, s) && Same(s, s0) && s.cells == s0.cells && Moved(s, s0, t, Serving(job, Reading(i, 0, [])))
    ensures Became(s, s0, i, Asked(pid, t, job.req, Encode(job.req)))
  {
    acts, s := Moves(acts0, s0, t, Write(20));
    assert [] + Encode(job.req)[0..20] == Encode(job.req);
    acts, s := Moves(acts, s, t, WriteDone);
  }

  lemma CollectsTheRequest(pid: nat, t: nat, req: Frame)
    requires req.payload == []
    ensures ProcNext(Asked(pid, t, req, Encode(req)), Collect(20))
         == Some(Worker(pid, [Ask(t, req)], [], [], Collecting(Encode(req)), []))
  {
    assert Encode(req)[20..] == [] && [] + Encode(req)[..20] == Encode(req);
  }

  lemma ServesTheRequest(pid: nat, t: nat, req: Frame, resp: Frame)
    requires req.payload == [] && req.kind == KIND_REQUEST && req.opcode == OP_DECRYPT_BATCH && IsReply(req, resp)
    ensures ProcNext(Worker(pid, [Ask(t, req)], [], [], Collecting(Encode(req)), []), Serve(resp))
         == Some(Worker(pid, [Ask(t, req)], [], [], Replying(Encode(resp)), [Exchange(req, resp)]))
  {
    HeaderIsWhole(req, WORKER_MAX_PAYLOAD);
    assert [] + [Exchange(req, resp)] == [Exchange(req, resp)];
  }

  lemma EmitsTheResponse(pid: nat, t: nat, req: Frame, resp: Frame)
    requires resp.payload == []
    ensures ProcNext(Worker(pid, [Ask(t, req)], [], [], Replying(Encode(resp)), [Exchange(req, resp)]), Emit(20))
         == Some(Answering(pid, t, req, resp, Encode(resp)))
  {
    assert Encode(resp)[20..] == [] && [] + Encode(resp)[..20] == Encode(resp);
  }

  lemma WorkerAnswers(acts0: seq<Action>, s0: State, t: nat, i: nat, pid: nat, id: u32, flags: u16)
      returns (acts: seq<Action>, s: State)
    requires Reaches(acts0, s0) && i < |s0.procs| && s0.procs[i] == Asked(pid, t, Request(id), Encode(Request(id)))
    ensures Reaches(acts, s) && Same(s, s0) && s.cells == s0.cells && s.threads == s0.threads
    ensures Became(s, s0, i, Answering(pid, t, Request(id), Response(id, flags), Encode(Response(id, flags))))
  {
    CollectsTheRequest(pid, t, Request(id));
    acts, s := Works(acts0, s0, i, Collect(20));
    ServesTheRequest(pid, t, Request(id), Response(id, flags));
    acts, s := Works(acts, s, i, Serve(Response(id, flags)));
    EmitsTheResponse(pid, t, Request(id), Response(id, flags));
    acts, s := Works(acts, s, i, Emit(20));
  }

  lemma ReadsAllBytes(acts0: seq<Action>, s0: State, t: client, job: Job, i: nat, p: Proc)
      returns (acts: seq<Action>, s: State)
    requires Reaches(acts0, s0) && |s0.threads| == 2 && s0.threads[t] == Serving(job, Reading(i, 0, []))
    requires i < |s0.procs| && s0.procs[i] == p && |p.stdout| == 20
    ensures Reaches(acts, s) && Same(s, s0) && s.cells == s0.cells
    ensures Moved(s, s0, t, Serving(job, Reading(i, 0, p.stdout))) && Became(s, s0, i, p.(stdout := []))
  {
    acts, s := Moves(acts0, s0, t, Read(20));
    assert [] + p.stdout[..20] == p.stdout && p.stdout[20..] == [];
  }

  lemma ReadsTheResponse(acts0: seq<Action>, s0: State, t: client, job: Job, i: nat, pid: nat, id: u32, flags: u16)
      returns (acts: seq<Action>, s: State)
    requires Reaches(acts0, s0) && |s0.threads| == 2 && s0.threads[t] == Serving(job, Reading(i, 0, []))
    requires i < |s0.procs| && job.req == Request(id)
    requires s0.procs[i] == Answering(pid, t, job.req, Response(id, flags), Encode(Response(id, flags)))
    ensures Reaches(acts, s) && Same(s, s0) && s.cells == s0.cells
    ensures Moved(s, s0, t, Serving(job, Answered(i, 0, Response(id, flags))))
    ensures Became(s, s0, i, Answering(pid, t, job.req, Response(id, flags), []))
  {
    acts, s := ReadsAllBytes(acts0, s0, t, job, i, s0.procs[i]);
    HeaderIsWhole(Response(id, flags), NO_CAP);
    acts, s := Moves(acts, s, t, ReadDone);
  }

  lemma Converses(acts0: seq<Action>, s0: State, t: client, job: Job, i: nat, pid: nat, id: u32, flags: u16)
      returns (acts: seq<Action>, s: State)
    requires Reaches(acts0, s0) && |s0.threads| == 2 && s0.threads[t] == Serving(job, Sending)
    requires s0.cells.slot == Some(i) && i < |s0.procs| && s0.procs[i] == FreshProc(pid) && job.req == Request(id)
    ensures Reaches(acts, s) && Same(s, s0) && s.cells == s0.cells
    ensures Moved(s, s0, t, Serving(job, Answered(i, 0, Response(id, flags))))
    ensures Became(s, s0, i, Answering(pid, t, job.req, Response(id, flags), []))
  {
    acts, s := BeginsToWrite(acts0, s0, t, job, i, pid);
    acts, s := WritesTheRequest(acts, s, t, job, i, pid);
    acts, s := WorkerAnswers(acts, s, t, i, pid, id, flags);
    acts, s := ReadsTheResponse(acts, s, t, job, i, pid, id, flags);
  }

  lemma Returns(acts0: seq<Action>, s0: State, t: client, job: Job, i: nat, resp: Frame, restart: bool)
      returns (acts: seq<Action>, s: State)
    requires Reaches(acts0, s0) && |s0.threads| == 2 && s0.threads[t] == Serving(job, Answered(i, 0, resp))
    requires restart ==> resp.opcode == OP_DECRYPT_BATCH && resp.flags % 2 == 0
    ensures Reaches(acts, s) && s.procs == s0.procs && Moved(s, s0, t, if restart then RestartTake else Idle)
    ensures s.cells == Unlock(DropTracker(s0.cells, job.req.requestId))
    ensures s.answers == s0.answers + [Answer(t, job.req, resp, i, 0)]
    ensures s.now == s0.now && s.timeout == s0.timeout
  {
    acts, s := Serves(acts0, s0, t, Untrack);
    acts, s := Holds(acts, s, t, Release(restart));
  }

  lemma CleansUp(acts0: seq<Action>, s0: State, t: client, job: Job, why: Why)
      returns (acts: seq<Action>, s: State)
    requires Reaches(acts0, s0) && |s0.threads| == 2 && s0.threads[t] == Serving(job, Abandoning(why))
    ensures Reaches(acts, s) && s.procs == s0.procs && Moved(s, s0, t, Serving(job, Failing))
    ensures s.answers == s0.answers && s.handed == Add(s0.handed, s0.cells.slot)
    ensures s.now == s0.now && s.timeout == s0.timeout
    ensures s.cells == StorePid(TakeSlot(s0.cells), 0)
  {
    acts, s := Serves(acts0, s0, t, AbandonSlot);
    acts, s := Serves(acts, s, t, AbandonPid);
    acts, s := Serves(acts, s, t, AbandonCleanup);
  }

  /** request() returns an error. */
  lemma ReturnsInVain(acts0: seq<Action>, s0: State, t: client, job: Job) returns (acts: seq<Action>, s: State)
    requires Reaches(acts0, s0) && |s0.threads| == 2 && s0.threads[t] == Serving(job, Failing)
    ensures Reaches(acts, s) && s.procs == s0.procs && Moved(s, s0, t, Idle)
    ensures Same(s, s0) && s.cells == Unlock(DropTracker(s0.cells, job.req.requestId))
  {
    acts, s := Serves(acts0, s0, t, Untrack);
    acts, s := Holds(acts, s, t, Release(false));
  }

  // ---------------------------------------------------------------- a request is answered

  const JOB := Job(Request(1), TIMEOUT)

  lemma Starts() returns (acts: seq<Action>, s: State)
    ensures Reaches(acts, s) && |s.threads| == 2 && s.threads[0] == Idle && s.threads[1] == Idle
    ensures s.procs == [] && s.answers == [] && s.handed == multiset{} && s.timeout == TIMEOUT
    ensures s.now == 0 && s.cells == Shared(1, 0, 0, None, None, None)
  {
    acts, s := [], Init(TIMEOUT, 2);
  }

  lemma FirstBegins() returns (acts: seq<Action>, s: State)
    ensures Reaches(acts, s) && |s.threads| == 2 && s.threads[0] == Waiting(JOB) && s.threads[1] == Idle
    ensures s.procs == [] && s.answers == [] && s.handed == multiset{} && s.timeout == TIMEOUT
    ensures s.now == 0 && s.cells == Shared(2, 1, 0, None, None, None)
  {
    acts, s := Starts();
    acts, s := Begins(acts, s, 0, JOB);
  }

  /** The first client waits for the lock, perhaps until its deadline. */
  lemma FirstWaits(late: bool) returns (acts: seq<Action>, s: State)
    ensures Reaches(acts, s) && |s.threads| == 2 && s.threads[0] == Waiting(JOB) && s.threads[1] == Idle
    ensures s.procs == [] && s.answers == [] && s.handed == multiset{} && s.timeout == TIMEOUT
    ensures s.now == (if late then TIMEOUT else 0) && s.cells == Shared(2, 1, 0, None, None, None)
  {
    acts, s := FirstBegins();
    if late {
      acts, s := Passes(acts, s, TIMEOUT);
    }
  }

  /** It has the lock, and finds no worker. */
  lemma FirstHasTheLock(late: bool) returns (acts: seq<Action>, s: State)
    ensures Reaches(acts, s) && |s.threads| == 2 && s.threads[0] == Serving(JOB, Tracked) && s.threads[1] == Idle
    ensures s.procs == [] && s.answers == [] && s.handed == multiset{} && s.timeout == TIMEOUT
    ensures s.now == if late then TIMEOUT else 0
    ensures s.cells == Shared(2, 0, 0, Some(0), None, Some(Current(1, OP_DECRYPT_BATCH, s.now, TIMEOUT)))
  {
    acts, s := FirstWaits(late);
    acts, s := TakesTheLock(acts, s, 0, JOB);
  }

  lemma FirstHasAWorker(late: bool) returns (acts: seq<Action>, s: State)
    ensures Reaches(acts, s) && |s.threads| == 2 && s.threads[0] == Serving(JOB, Sending) && s.threads[1] == Idle
    ensures s.procs == [FreshProc(PID)] && s.answers == [] && s.handed == multiset{} && s.timeout == TIMEOUT
    ensures s.now == if late then TIMEOUT else 0
    ensures s.cells == Shared(2, 0, PID, Some(0), Some(0), Some(Current(1, OP_DECRYPT_BATCH, s.now, TIMEOUT)))
  {
    acts, s := FirstHasTheLock(late);
    acts, s := Serves(acts, s, 0, LookSlot);
    acts, s := Installs(acts, s, 0, PID);
    acts, s := Serves(acts, s, 0, Probe);
  }

  /** The theorems are about runs that exist: in this one a request is answered, and if the answer
      may ask for it, the client goes on to restart the worker. */
  lemma ARequestIsAnswered(flags: u16, restart: bool) returns (acts: seq<Action>, s: State)
    requires restart ==> flags % 2 == 0
    ensures Reaches(acts, s) && s.answers == [Answer(0, Request(1), Response(1, flags), 0, 0)]
    ensures |s.threads| == 2 && s.threads[0] == (if restart then RestartTake else Idle) && s.threads[1] == Idle
    ensures s.procs == [Answering(PID, 0, Request(1), Response(1, flags), [])]
    ensures s.cells == Shared(2, 0, PID, None, Some(0), None) && s.now == 0 && s.timeout == TIMEOUT
  {
    acts, s := FirstHasAWorker(false);
    acts, s := Converses(acts, s, 0, JOB, 0, PID, 1, flags);
    acts, s := Returns(acts, s, 0, JOB, 0, Response(1, flags), restart);
  }

  // ---------------------------------------------------------------- what does not hold in every run

  const OTHER_JOB := Job(Request(2), TIMEOUT)

  /** The second client makes a request while the first is about to restart the worker. */
  lemma SecondHasTheLock(acts0: seq<Action>, s0: State) returns (acts: seq<Action>, s: State)
    requires Reaches(acts0, s0) && |s0.threads| == 2 && s0.threads[1] == Idle && s0.now == 0 && s0.timeout == TIMEOUT
    requires s0.cells.nextId == 2 && s0.cells.lock.None?
    ensures Reaches(acts, s) && Same(s, s0) && s.procs == s0.procs && Moved(s, s0, 1, Serving(OTHER_JOB, Tracked))
    ensures s.cells.slot == s0.cells.slot && s.cells.lock == Some(1)
    ensures s.cells.current == Some(Current(2, OP_DECRYPT_BATCH, 0, TIMEOUT))
  {
    acts, s := Begins(acts0, s0, 1, OTHER_JOB);
    acts, s := TakesTheLock(acts, s, 1, OTHER_JOB);
  }

  /** The first client has taken the worker out, and the second finds the slot empty. */
  lemma SecondFindsNone() returns (acts: seq<Action>, s: State)
    ensures Reaches(acts, s) && |s.threads| == 2 && |s.procs| == 1
    ensures s.threads[0] == RestartZero(Some(0)) && s.threads[1] == Serving(OTHER_JOB, Tracked)
    ensures s.cells.slot.None? && s.procs[0].pid == PID && s.cells.lock == Some(1)
  {
    acts, s := ARequestIsAnswered(0, true);
    acts, s := Restarts(acts, s, 0, RestartSlot);
    acts, s := SecondHasTheLock(acts, s);
  }

  lemma SecondFills() returns (acts: seq<Action>, s: State)
    ensures Reaches(acts, s) && |s.threads| == 2 && |s.procs| == 2
    ensures s.threads[0] == RestartZero(Some(0)) && s.threads[1] == Serving(OTHER_JOB, Probing)
    ensures s.cells.slot == Some(1) && s.procs[1] == FreshProc(OTHER_PID) && s.cells.lock == Some(1)
  {
    acts, s := SecondFindsNone();
    acts, s := Serves(acts, s, 1, LookSlot);
    acts, s := Installs(acts, s, 1, OTHER_PID);
  }

  /** The pid does not always name the installed worker: a restart zeroes it after it has given up
      the lock, and by then another client's request may have installed a worker. */
  lemma PidMissesTheInstalledWorker() returns (acts: seq<Action>, s: State)
    ensures Reaches(acts, s) && !OnTheWay(s)
    ensures s.cells.slot == Some(1) && |s.procs| == 2 && s.procs[1].status == Running
    ensures s.cells.pid == 0 != s.procs[1].pid
  {
    acts, s := SecondFills();
    acts, s := Restarts(acts, s, 0, RestartPid);
  }

  /** The first client is about to restart its worker; that one ends, and the second client's request
      finds it exited. */
  lemma SecondFindsExited() returns (acts: seq<Action>, s: State)
    ensures Reaches(acts, s) && |s.threads| == 2 && |s.procs| == 1 && s.procs[0].status == Exited
    ensures s.threads[0] == RestartTake && s.threads[1] == Serving(OTHER_JOB, Replace(Wanted))
    ensures s.answers == [Answer(0, Request(1), Response(1, 0), 0, 0)]
    ensures s.cells.current == Some(Current(2, OP_DECRYPT_BATCH, 0, TIMEOUT))
  {
    acts, s := ARequestIsAnswered(0, true);
    acts, s := Works(acts, s, 0, Crash);
    acts, s := Works(acts, s, 0, Die);
    acts, s := SecondHasTheLock(acts, s);
    acts, s := Serves(acts, s, 1, LookSlot);
    acts, s := Serves(acts, s, 1, Probe);
  }

  /** It replaces the worker, and its request is answered by the new one. */
  lemma SecondReplaces() returns (acts: seq<Action>, s: State)
    ensures Reaches(acts, s) && |s.threads| == 2 && s.threads[0] == RestartTake
    ensures s.cells.lock.None? && s.cells.slot == Some(1) && |s.procs| == 2 && s.procs[1].status == Running
    ensures s.answers == [Answer(0, Request(1), Response(1, 0), 0, 0), Answer(1, Request(2), Response(2, 1), 1, 0)]
  {
    acts, s := SecondFindsExited();
    acts, s := Installs(acts, s, 1, OTHER_PID);
    acts, s := Converses(acts, s, 1, OTHER_JOB, 1, OTHER_PID, 2, 1);
    acts, s := Returns(acts, s, 1, OTHER_JOB, 1, Response(2, 1), false);
  }

  /** A restart does not always take the worker that asked for it: that one may have ended and been
      replaced by another client's request in the meantime. */
  lemma RestartTakesAnotherWorker() returns (acts: seq<Action>, s: State)
    ensures Reaches(acts, s) && |s.threads| == 2 && |s.procs| == 2 && s.procs[1].status == Running
    ensures LastAnswer(s.answers, 0, 0) && s.answers[0].inc == 0
    ensures s.threads[0] == RestartZero(Some(1))
  {
    acts, s := SecondReplaces();
    acts, s := Restarts(acts, s, 0, RestartSlot);
  }

  lemma BothWait() returns (acts: seq<Action>, s: State)
    ensures Reaches(acts, s) && |s.threads| == 2 && s.now == 0 && s.timeout == TIMEOUT
    ensures s.threads[0] == Waiting(JOB) && s.threads[1] == Waiting(OTHER_JOB) && s.procs == []
    ensures s.cells == Shared(3, 2, 0, None, None, None)
  {
    acts, s := FirstBegins();
    acts, s := Begins(acts, s, 1, OTHER_JOB);
  }

  /** Both clients begin at once, and the first has the lock. */
  lemma BothBegin() returns (acts: seq<Action>, s: State)
    ensures Reaches(acts, s) && |s.threads| == 2 && s.now == 0 && s.timeout == TIMEOUT
    ensures s.threads[0] == Serving(JOB, Tracked) && s.threads[1] == Waiting(OTHER_JOB) && s.procs == []
    ensures s.cells == Shared(3, 1, 0, Some(0), None, Some(Current(1, OP_DECRYPT_BATCH, 0, TIMEOUT)))
  {
    acts, s := BothWait();
    acts, s := TakesTheLock(acts, s, 0, JOB);
  }

  lemma FirstWrites() returns (acts: seq<Action>, s: State)
    ensures Reaches(acts, s) && |s.threads| == 2 && s.now == 0 && s.timeout == TIMEOUT
    ensures s.threads[0] == Serving(JOB, Writing(0, 0, 0)) && s.threads[1] == Waiting(OTHER_JOB)
    ensures s.cells == Shared(3, 1, PID, Some(0), Some(0), Some(Current(1, OP_DECRYPT_BATCH, 0, TIMEOUT)))
    ensures |s.procs| == 1 && s.procs[0] == Asked(PID, 0, Request(1), [])
  {
    acts, s := BothBegin();
    acts, s := Serves(acts, s, 0, LookSlot);
    acts, s := Installs(acts, s, 0, PID);
    acts, s := Serves(acts, s, 0, Probe);
    acts, s := BeginsToWrite(acts, s, 0, JOB, 0, PID);
  }

  /** The second client has waited for its whole time, and sees the first one's request stuck. */
  lemma SecondSeesItStuck() returns (acts: seq<Action>, s: State)
    ensures Reaches(acts, s) && |s.threads| == 2 && s.now == TIMEOUT == s.timeout
    ensures s.threads[0] == Serving(JOB, Writing(0, 0, 0)) && s.threads[1] == Stuck(OTHER_JOB, TIMEOUT, Some(0))
    ensures s.cells == Shared(3, 1, PID, Some(0), Some(0), Some(Current(1, OP_DECRYPT_BATCH, 0, TIMEOUT)))
    ensures |s.procs| == 1 && s.procs[0].pid == PID
  {
    acts, s := FirstWrites();
    acts, s := Passes(acts, s, TIMEOUT);
    acts, s := Waits(acts, s, 1, Miss);
    acts, s := Waits(acts, s, 1, Expire);
    acts, s := Waits(acts, s, 1, Inspect);
  }

  lemma FirstTimesOut() returns (acts: seq<Action>, s: State)
    ensures Reaches(acts, s) && |s.threads| == 2 && s.now == TIMEOUT == s.timeout
    ensures s.threads[0] == Serving(JOB, Abandoning(Late)) && s.threads[1] == Stuck(OTHER_JOB, TIMEOUT, Some(0))
    ensures s.cells == Shared(3, 1, PID, Some(0), Some(0), Some(Current(1, OP_DECRYPT_BATCH, 0, TIMEOUT)))
    ensures |s.procs| == 1 && s.procs[0].pid == PID
  {
    acts, s := SecondSeesItStuck();
    acts, s := Moves(acts, s, 0, WriteFail(Late));
  }

  /** Before it takes the pid, the first client gives up the worker. */
  lemma FirstGivesUp() returns (acts: seq<Action>, s: State)
    ensures Reaches(acts, s) && |s.threads| == 2 && s.now == TIMEOUT == s.timeout
    ensures s.threads[0] == Idle && s.threads[1] == Stuck(OTHER_JOB, TIMEOUT, Some(0))
    ensures s.cells == Shared(3, 1, 0, None, None, None) && |s.procs| == 1 && s.procs[0].pid == PID
  {
    acts, s := FirstTimesOut();
    acts, s := CleansUp(acts, s, 0, JOB, Late);
    acts, s := ReturnsInVain(acts, s, 0, JOB);
  }

  const NEXT_JOB := Job(Request(3), TIMEOUT + TIMEOUT)

  /** ... and makes another request, */
  lemma FirstAsksAgain() returns (acts: seq<Action>, s: State)
    ensures Reaches(acts, s) && |s.threads| == 2 && s.now == TIMEOUT == s.timeout
    ensures s.threads[0] == Waiting(NEXT_JOB) && s.threads[1] == Stuck(OTHER_JOB, TIMEOUT, Some(0))
    ensures s.cells == Shared(4, 2, 0, None, None, None) && |s.procs| == 1 && s.procs[0].pid == PID
  {
    acts, s := FirstGivesUp();
    acts, s := Begins(acts, s, 0, NEXT_JOB);
  }

  lemma FirstHasItAgain() returns (acts: seq<Action>, s: State)
    ensures Reaches(acts, s) && |s.threads| == 2 && s.now == TIMEOUT == s.timeout
    ensures s.threads[0] == Serving(NEXT_JOB, Fill(Wanted)) && s.threads[1] == Stuck(OTHER_JOB, TIMEOUT, Some(0))
    ensures |s.procs| == 1 && s.procs[0].pid == PID
  {
    acts, s := FirstAsksAgain();
    acts, s := TakesTheLock(acts, s, 0, NEXT_JOB);
    acts, s := Serves(acts, s, 0, LookSlot);
  }

  /** ... for which it spawns another worker. */
  lemma FirstStartsAgain() returns (acts: seq<Action>, s: State)
    ensures Reaches(acts, s) && |s.threads| == 2 && s.now == TIMEOUT == s.timeout && |s.procs| == 2
    ensures s.threads[0] == Serving(NEXT_JOB, Probing) && s.threads[1] == Stuck(OTHER_JOB, TIMEOUT, Some(0))
    ensures s.cells.pid == OTHER_PID && s.cells.slot == Some(1) == s.pub && s.procs[1] == FreshProc(OTHER_PID)
  {
    acts, s := FirstHasItAgain();
    acts, s := Installs(acts, s, 0, OTHER_PID);
  }

  /** The pid that is taken to be killed need not be that of the worker with the stuck request: it
      may be that of a new one, whose request has all its time. */
  lemma KillTakesAnotherWorker() returns (acts: seq<Action>, s: State)
    ensures Reaches(acts, s) && s.kills != [] && s.kills[|s.kills| - 1] == Kill(OTHER_PID, Some(1), TIMEOUT, s.now)
    ensures |s.procs| == 2 && s.procs[1] == FreshProc(OTHER_PID) && s.cells.slot == Some(1)
    ensures |s.threads| == 2 && s.threads[0] == Serving(NEXT_JOB, Probing) && s.now + TIMEOUT == NEXT_JOB.deadline
  {
    acts, s := FirstStartsAgain();
    Extends(acts, s, ByWait(1, SwapPid));
    acts, s := acts + [ByWait(1, SwapPid)], WaitNext(s, 1, SwapPid).value;
  }

  lemma HealthyWorkerTimesOut() returns (acts: seq<Action>, s: State)
    ensures Reaches(acts, s) && s.now == TIMEOUT && s.answers == [] && s.handed == multiset{}
    ensures |s.threads| == 2 && s.threads[0] == Serving(JOB, Abandoning(Late))
    ensures s.cells.slot == Some(0) && |s.procs| == 1 && s.procs[0] == Asked(PID, 0, Request(1), [])
  {
    acts, s := FirstHasAWorker(true);
    acts, s := BeginsToWrite(acts, s, 0, JOB, 0, PID);
    acts, s := Moves(acts, s, 0, WriteFail(Late));
  }

  /** A worker that has done nothing wrong may be abandoned: its client got the lock no sooner than
      at its own deadline, and its first write times out. */
  lemma HealthyWorkerIsAbandoned() returns (acts: seq<Action>, s: State)
    ensures Reaches(acts, s) && s.handed == multiset{0} && s.cells.slot.None?
    ensures |s.threads| == 2 && s.threads[0] == Serving(JOB, Failing) && s.now == JOB.deadline
    ensures |s.procs| == 1 && s.procs[0] == Asked(PID, 0, Request(1), []) && s.procs[0].status == Running
  {
    acts, s := HealthyWorkerTimesOut();
    acts, s := CleansUp(acts, s, 0, JOB, Late);
  }

  /** With the whole reply in its pipe it is safe: the client has time, and the worker is running. */
  lemma ArrivedSafely(s: State, resp: Frame)
    requires |s.threads| > 0 && s.threads[0] == Serving(JOB, Reading(0, 0, []))
    requires resp.payload == [] && |s.procs| > 0 && s.procs[0] == Answering(PID, 0, Request(1), resp, Encode(resp))
    requires s.now == 0 && s.timeout == TIMEOUT
    ensures Arrived(s, 0) && Safe(s, 0)
  {
    HeaderIsWhole(resp, NO_CAP);
    assert [] + Encode(resp) == Encode(resp);
  }

  lemma ReplyArrives() returns (acts: seq<Action>, s: State)
    ensures Arrived(s, 0) && Safe(s, 0)
    ensures Reaches(acts, s) && |s.threads| == 2 && s.threads[0] == Serving(JOB, Reading(0, 0, []))
    ensures s.answers == [] && s.cells.slot == Some(0) && s.now == 0 && s.timeout == TIMEOUT
    ensures |s.procs| == 1
    ensures s.procs[0] == Answering(PID, 0, Request(1), Response(1, 1), Encode(Response(1, 1)))
  {
    acts, s := FirstHasAWorker(false);
    acts, s := BeginsToWrite(acts, s, 0, JOB, 0, PID);
    acts, s := WritesTheRequest(acts, s, 0, JOB, 0, PID);
    acts, s := WorkerAnswers(acts, s, 0, 0, PID, 1, 1);
    ArrivedSafely(s, Response(1, 1));
  }

  lemma ArrivedReplyIsGivenUp() returns (acts: seq<Action>, s: State)
    ensures Reaches(acts, s) && s.answers == [] && s.now == 0
    ensures |s.threads| == 2 && s.threads[0] == Serving(JOB, Abandoning(Ended))
    ensures |s.procs| == 1 && s.procs[0].stdout == Encode(Response(1, 1))
    ensures s.procs[0].served == [Exchange(Request(1), Response(1, 1))]
  {
    acts, s := ReplyArrives();
    acts, s := Works(acts, s, 0, Crash);
    acts, s := Moves(acts, s, 0, ReadFail(Ended));
  }

  /** A reply that was written in full may be lost long before the deadline: the worker crashes
      behind it, and the client sees the closed pipe before the bytes in it. */
  lemma WholeReplyIsLost() returns (acts: seq<Action>, s: State)
    ensures Reaches(acts, s) && s.answers == [] && s.now == 0 < JOB.deadline
    ensures |s.threads| == 2 && s.threads[0] == Idle
    ensures |s.procs| == 1 && s.procs[0].stdout == Encode(Response(1, 1))
    ensures s.procs[0].served == [Exchange(Request(1), Response(1, 1))]
  {
    acts, s := ArrivedReplyIsGivenUp();
    acts, s := CleansUp(acts, s, 0, JOB, Ended);
    acts, s := ReturnsInVain(acts, s, 0, JOB);
  }
}
