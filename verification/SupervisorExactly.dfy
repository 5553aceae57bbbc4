/**
 Exactly when the supervisor keeps what one would expect of it: that the pid names the
 installed worker, that a restart takes the worker that asked for it, that a thread which saw a
 request stuck takes the pid of its worker, that a worker at work is not abandoned, and that a
 reply that has arrived is delivered.
 */
module SupervisorExactly {
  import opened Wrappers
  import opened Bytes
  import opened IpcFrame
  import opened SupervisorModel
  import opened SupervisorInvariant
  import opened SupervisorPipes
  import opened SupervisorProof
  import opened SupervisorTheorems

  // ---------------------------------------------------------------- the last worker is the installed one

  /** A worker has been spawned and is not in the slot yet. */
  predicate OnTheWay(s: State) { HolderChild(s).Some? && !HolderChild(s).value.Wanted? }

  /** The installed worker is the last one spawned, but for one on its way. */
  predicate SlotLast(s: State) {
    s.cells.slot.Some? ==> s.cells.slot.value + 1 + One(OnTheWay(s)) == |s.procs|
  }

  lemma WaitSlotLast(s: State, t: nat, step: WaitStep)
    requires LockInv(s) && SlotLast(s) && Thread(s, t) && WaitNext(s, t, step).Some?
    ensures SlotLast(WaitNext(s, t, step).value)
  {
  }

  lemma HoldSlotLast(s: State, t: nat, step: HoldStep)
    requires LockInv(s) && SlotLast(s) && Thread(s, t) && s.threads[t].Holding? && HoldNext(s, t, step).Some?
    ensures SlotLast(HoldNext(s, t, step).value)
  {
  }

  lemma ServeSlotLast(s: State, t: nat, step: ServeStep)
    requires LockInv(s) && SlotLast(s) && Thread(s, t) && s.threads[t].Serving? && ServeNext(s, t, step).Some?
    ensures SlotLast(ServeNext(s, t, step).value)
  {
  }

  lemma IoSlotLast(s: State, t: nat, step: IoStep)
    requires LockInv(s) && SlotLast(s) && Thread(s, t) && s.threads[t].Serving? && IoNext(s, t, step).Some?
    ensures SlotLast(IoNext(s, t, step).value)
  {
  }

  lemma SpawnSlotLast(s: State, t: nat, step: SpawnStep)
    requires LockInv(s) && FreshInv(s) && SlotLast(s) && Thread(s, t) && SpawnNext(s, t, step).Some?
    ensures SlotLast(SpawnNext(s, t, step).value)
  {
  }

  lemma RestartSlotLast(s: State, t: nat, step: RestartStep)
    requires LockInv(s) && SlotLast(s) && Thread(s, t) && RestartNext(s, t, step).Some?
    ensures SlotLast(RestartNext(s, t, step).value)
  {
  }

  lemma NextSlotLast(s: State, a: Action)
    requires LockInv(s) && FreshInv(s) && SlotLast(s) && Next(s, a).Some?
    ensures SlotLast(Next(s, a).value)
  {
    match a
    case Tick =>
    case ByWait(t, step) => WaitSlotLast(s, t, step);
    case ByHold(t, step) => HoldSlotLast(s, t, step);
    case ByServe(t, step) => ServeSlotLast(s, t, step);
    case ByIo(t, step) => IoSlotLast(s, t, step);
    case BySpawn(t, step) => SpawnSlotLast(s, t, step);
    case ByRestart(t, step) => RestartSlotLast(s, t, step);
    case ByWorker(i, step) =>
  }

  lemma {:induction false} RunSlotLast(timeout: nat, clients: nat, acts: seq<Action>)
    requires Run(Init(timeout, clients), acts).Some?
    ensures SlotLast(Run(Init(timeout, clients), acts).value)
    decreases |acts|
  {
    if acts != [] {
      var n := |acts| - 1;
      RunKeeps(timeout, clients, acts[..n]);
      RunSlotLast(timeout, clients, acts[..n]);
      NextSlotLast(Run(Init(timeout, clients), acts[..n]).value, acts[n]);
    }
  }

  /** Unless one is on its way to the slot, the installed worker is the last one spawned, and the
      published pid is its pid exactly if it is not 0. */
  lemma PidNamesInstalledExactly(s: State, timeout: nat, clients: nat, acts: seq<Action>)
    requires Reached(s, timeout, clients, acts) && s.cells.slot.Some? && !OnTheWay(s)
    ensures s.cells.slot.value + 1 == |s.procs|
    ensures s.cells.pid == s.procs[s.cells.slot.value].pid <==> s.cells.pid != 0
  {
    RunSlotLast(timeout, clients, acts);
    RunKeeps(timeout, clients, acts);
    if s.cells.pid != 0 {
      PidOfLast(s);
    }
  }

  // ---------------------------------------------------------------- whom a restart takes

  /** Result n is the last one that thread t was given. */
  predicate LastAnswer(answers: seq<Answer>, t: nat, n: nat) {
    && n < |answers| && answers[n].thread == t
    && forall m :: n < m < |answers| ==> answers[m].thread != t
  }

  /** What a reply to a batch must look like for its thread to consider a restart. */
  predicate MayAsk(a: Answer) { a.resp.opcode == OP_DECRYPT_BATCH && a.resp.flags % 2 == 0 }

  ghost predicate WasAsked(answers: seq<Answer>, t: nat) {
    exists n: nat :: LastAnswer(answers, t, n) && MayAsk(answers[n])
  }

  /** Who is about to restart the worker was last given a reply that may ask for it. */
  ghost predicate AskedInv(s: State) {
    forall t :: 0 <= t < |s.threads| && s.threads[t].RestartTake? ==> WasAsked(s.answers, t)
  }

  lemma AnswerOfOther(answers: seq<Answer>, a: Answer, t: nat)
    requires WasAsked(answers, t) && a.thread != t
    ensures WasAsked(answers + [a], t)
  {
    var n: nat :| LastAnswer(answers, t, n) && MayAsk(answers[n]);
    assert LastAnswer(answers + [a], t, n);
  }

  lemma AnswerOfOwn(answers: seq<Answer>, a: Answer)
    requires MayAsk(a)
    ensures WasAsked(answers + [a], a.thread)
  {
    assert LastAnswer(answers + [a], a.thread, |answers|);
  }

  lemma ReleaseAsked(s: State, t: nat, restart: bool)
    requires AskedInv(s) && Thread(s, t) && s.threads[t].Holding? && HoldNext(s, t, Release(restart)).Some?
    ensures AskedInv(HoldNext(s, t, Release(restart)).value)
  {
    var s' := HoldNext(s, t, Release(restart)).value;
    var out := s.threads[t].errand.out;
    forall u | 0 <= u < |s'.threads| && s'.threads[u].RestartTake? ensures WasAsked(s'.answers, u) {
      if out.Reply? {
        var a := Answer(t, out.req, out.resp, out.inc, out.k);
        if u == t {
          AnswerOfOwn(s.answers, a);
        } else {
          AnswerOfOther(s.answers, a, u);
        }
      }
    }
  }

  /** A step that neither gives a result nor leads to a restart. */
  lemma AskedSame(s: State, s': State)
    requires AskedInv(s) && s'.answers == s.answers && |s'.threads| == |s.threads|
    requires forall t :: 0 <= t < |s.threads| && s'.threads[t].RestartTake? ==> s.threads[t].RestartTake?
    ensures AskedInv(s')
  {
  }

  lemma WaitAsked(s: State, t: nat, step: WaitStep)
    requires AskedInv(s) && Thread(s, t) && WaitNext(s, t, step).Some?
    ensures AskedInv(WaitNext(s, t, step).value)
  {
    AskedSame(s, WaitNext(s, t, step).value);
  }

  lemma HoldAsked(s: State, t: nat, step: HoldStep)
    requires AskedInv(s) && Thread(s, t) && s.threads[t].Holding? && HoldNext(s, t, step).Some?
    ensures AskedInv(HoldNext(s, t, step).value)
  {
    if step.Release? {
      ReleaseAsked(s, t, step.restart);
    } else {
      AskedSame(s, HoldNext(s, t, step).value);
    }
  }

  lemma ServeAsked(s: State, t: nat, step: ServeStep)
    requires AskedInv(s) && Thread(s, t) && s.threads[t].Serving? && ServeNext(s, t, step).Some?
    ensures AskedInv(ServeNext(s, t, step).value)
  {
    AskedSame(s, ServeNext(s, t, step).value);
  }

  lemma IoAsked(s: State, t: nat, step: IoStep)
    requires AskedInv(s) && Thread(s, t) && s.threads[t].Serving? && IoNext(s, t, step).Some?
    ensures AskedInv(IoNext(s, t, step).value)
  {
    AskedSame(s, IoNext(s, t, step).value);
  }

  lemma SpawnAsked(s: State, t: nat, step: SpawnStep)
    requires AskedInv(s) && Thread(s, t) && SpawnNext(s, t, step).Some?
    ensures AskedInv(SpawnNext(s, t, step).value)
  {
    AskedSame(s, SpawnNext(s, t, step).value);
  }

  lemma RestartAsked(s: State, t: nat, step: RestartStep)
    requires AskedInv(s) && Thread(s, t) && RestartNext(s, t, step).Some?
    ensures AskedInv(RestartNext(s, t, step).value)
  {
    AskedSame(s, RestartNext(s, t, step).value);
  }

  lemma NextAsked(s: State, a: Action)
    requires AskedInv(s) && Next(s, a).Some?
    ensures AskedInv(Next(s, a).value)
  {
    match a
    case Tick =>
    case ByWait(t, step) => WaitAsked(s, t, step);
    case ByHold(t, step) => HoldAsked(s, t, step);
    case ByServe(t, step) => ServeAsked(s, t, step);
    case ByIo(t, step) => IoAsked(s, t, step);
    case BySpawn(t, step) => SpawnAsked(s, t, step);
    case ByRestart(t, step) => RestartAsked(s, t, step);
    case ByWorker(i, step) =>
  }

  /** Before a restart its thread was given a reply that may ask for it, and no other since. */
  lemma {:induction false} RestartWasAsked(s: State, timeout: nat, clients: nat, acts: seq<Action>)
    requires Reached(s, timeout, clients, acts)
    ensures forall t :: 0 <= t < |s.threads| && s.threads[t].RestartTake? ==> WasAsked(s.answers, t)
    decreases |acts|
  {
    if acts != [] {
      var n := |acts| - 1;
      var m := Run(Init(timeout, clients), acts[..n]).value;
      RestartWasAsked(m, timeout, clients, acts[..n]);
      NextAsked(m, acts[n]);
    }
  }

  /** A restart takes the very worker whose reply asked for it exactly if there is a worker and
      none was spawned since. */
  lemma RestartTakesAskerExactly(s: State, timeout: nat, clients: nat, acts: seq<Action>, t: nat, n: nat)
    requires Reached(s, timeout, clients, acts) && Thread(s, t)
    requires s.threads[t].RestartTake? && LastAnswer(s.answers, t, n)
    requires RestartNext(s, t, RestartSlot).Some?
    ensures RestartNext(s, t, RestartSlot).value.threads[t] == RestartZero(Some(s.answers[n].inc))
            <==> s.cells.slot.Some? && |s.procs| == s.answers[n].inc + 1
  {
    RunSlotLast(timeout, clients, acts);
  }

  // ---------------------------------------------------------------- whose pid is taken

  lemma KilledIsLast(s: State, t: nat)
    requires FreshInv(s) && PidInv(s) && Thread(s, t) && s.threads[t].Stuck? && s.cells.pid != 0
    ensures s.pub.Some? && s.pub.value + 1 + One(StoringPid(s)) == |s.procs|
    ensures WaitNext(s, t, SwapPid).value.kills
         == s.kills + [Kill(s.cells.pid, s.pub, s.threads[t].due, s.now)]
  {
  }

  /** A thread that saw a request stuck takes the pid of that request's worker exactly if it had one
      and, until the pid is taken, no other worker's pid was stored. */
  lemma KillTakesTheStuckExactly(s: State, timeout: nat, clients: nat, acts: seq<Action>, t: nat)
    requires Reached(s, timeout, clients, acts)
    requires Thread(s, t) && s.threads[t].Stuck? && s.cells.pid != 0 && !s.exited
    ensures var kills := WaitNext(s, t, SwapPid).value.kills;
            var seen := s.threads[t].inc;
            && |kills| == |s.kills| + 1
            && (kills[|s.kills|].inc == seen
                <==> seen.Some? && |s.procs| == seen.value + 1 + One(StoringPid(s)))
  {
    RunKeeps(timeout, clients, acts);
    KilledIsLast(s, t);
  }

  // ---------------------------------------------------------------- why a worker is abandoned

  /** What holds of a worker that is being abandoned, and of the request. */
  predicate Caused(s: State, job: Job, why: Why) {
    match why
    case Oversized => !Sendable(job.req)
    case Late => TimeIsUp(s, job)
    case Ended => Installed(s).Some? && Installed(s).value.status != Running
    case OsError => true
    case Rejected => false
  }

  predicate Abandons(s: State, t: nat) {
    Thread(s, t) && s.threads[t].Serving? && s.threads[t].stage.Abandoning?
  }

  ghost predicate CauseInv(s: State) {
    forall t :: 0 <= t < |s.threads| && Abandons(s, t) ==> Caused(s, s.threads[t].job, s.threads[t].stage.why)
  }

  /** A cause that was there stays there. */
  lemma CauseStays(s: State, s': State, t: nat)
    requires LockInv(s) && CauseInv(s) && Thread(s, t) && !Abandons(s', t)
    requires |s'.threads| == |s.threads| && forall u :: 0 <= u < |s.threads| && u != t ==> s'.threads[u] == s.threads[u]
    requires s'.now == s.now && s'.timeout == s.timeout
    requires s.cells.lock == Some(t) || s.cells.lock.None? || (s'.cells.slot == s.cells.slot && s'.procs == s.procs)
    ensures CauseInv(s')
  {
    forall u | 0 <= u < |s'.threads| && Abandons(s', u)
      ensures Caused(s', s'.threads[u].job, s'.threads[u].stage.why)
    {
      assert Abandons(s, u) && s.cells.lock == Some(u);
    }
  }

  lemma WaitCause(s: State, t: nat, step: WaitStep)
    requires LockInv(s) && CauseInv(s) && Thread(s, t) && WaitNext(s, t, step).Some?
    ensures CauseInv(WaitNext(s, t, step).value)
  {
    CauseStays(s, WaitNext(s, t, step).value, t);
  }

  lemma HoldCause(s: State, t: nat, step: HoldStep)
    requires LockInv(s) && CauseInv(s) && Thread(s, t) && s.threads[t].Holding? && HoldNext(s, t, step).Some?
    ensures CauseInv(HoldNext(s, t, step).value)
  {
    CauseStays(s, HoldNext(s, t, step).value, t);
  }

  lemma ServeCause(s: State, t: nat, step: ServeStep)
    requires LockInv(s) && CauseInv(s) && Thread(s, t) && s.threads[t].Serving? && ServeNext(s, t, step).Some?
    ensures CauseInv(ServeNext(s, t, step).value)
  {
    CauseStays(s, ServeNext(s, t, step).value, t);
  }

  lemma SpawnCause(s: State, t: nat, step: SpawnStep)
    requires LockInv(s) && CauseInv(s) && Thread(s, t) && SpawnNext(s, t, step).Some?
    ensures CauseInv(SpawnNext(s, t, step).value)
  {
    CauseStays(s, SpawnNext(s, t, step).value, t);
  }

  lemma RestartCause(s: State, t: nat, step: RestartStep)
    requires LockInv(s) && CauseInv(s) && Thread(s, t) && RestartNext(s, t, step).Some?
    ensures CauseInv(RestartNext(s, t, step).value)
  {
    CauseStays(s, RestartNext(s, t, step).value, t);
  }

  /** A step that leads to abandoning the worker has a cause; it is never what came over the pipe. */
  lemma IoCauses(s: State, t: nat, step: IoStep)
    requires Control(s) && Thread(s, t) && s.threads[t].Serving? && IoNext(s, t, step).Some?
    requires Abandons(IoNext(s, t, step).value, t)
    ensures var s' := IoNext(s, t, step).value;
            && s'.procs == s.procs && s'.cells == s.cells
            && s'.threads[t].job == s.threads[t].job
            && Caused(s, s.threads[t].job, s'.threads[t].stage.why)
            && (s.threads[t].stage.Sending? || Awaits(s.threads[t].job, s.threads[t].stage))
  {
    if s.threads[t].stage.Reading? {
      ReadsItsReply(s, t);
    }
  }

  lemma IoCause(s: State, t: nat, step: IoStep)
    requires Control(s) && CauseInv(s) && Thread(s, t) && s.threads[t].Serving? && IoNext(s, t, step).Some?
    ensures CauseInv(IoNext(s, t, step).value)
  {
    var s' := IoNext(s, t, step).value;
    if Abandons(s', t) {
      IoCauses(s, t, step);
      forall u | 0 <= u < |s'.threads| && Abandons(s', u)
        ensures Caused(s', s'.threads[u].job, s'.threads[u].stage.why)
      {
        assert s.cells.lock == Some(t) && (u != t ==> s.cells.lock == Some(u));
      }
    } else {
      CauseStays(s, s', t);
    }
  }

  lemma WorkerCause(s: State, i: nat, step: WorkerStep)
    requires CauseInv(s) && i < |s.procs| && ProcNext(s.procs[i], step).Some?
    ensures CauseInv(SetProc(s, i, ProcNext(s.procs[i], step).value))
  {
    var s' := SetProc(s, i, ProcNext(s.procs[i], step).value);
    forall u | 0 <= u < |s'.threads| && Abandons(s', u)
      ensures Caused(s', s'.threads[u].job, s'.threads[u].stage.why)
    {
      assert Abandons(s, u);
    }
  }

  lemma NextCause(s: State, a: Action)
    requires Control(s) && CauseInv(s) && Next(s, a).Some?
    ensures CauseInv(Next(s, a).value)
  {
    match a
    case Tick => assert forall u :: 0 <= u < |s.threads| && Abandons(Next(s, a).value, u) ==> Abandons(s, u);
    case ByWait(t, step) => WaitCause(s, t, step);
    case ByHold(t, step) => HoldCause(s, t, step);
    case ByServe(t, step) => ServeCause(s, t, step);
    case ByIo(t, step) => IoCause(s, t, step);
    case BySpawn(t, step) => SpawnCause(s, t, step);
    case ByRestart(t, step) => RestartCause(s, t, step);
    case ByWorker(i, step) => WorkerCause(s, i, step);
  }

  /** A worker is abandoned for a cause: its client's time is up, it has ended, the OS failed, or
      the request is too large to send; never for what it sent. */
  lemma {:induction false} AbandonedForCause(s: State, timeout: nat, clients: nat, acts: seq<Action>)
    requires Reached(s, timeout, clients, acts)
    ensures forall t :: 0 <= t < |s.threads| && s.threads[t].Serving? && s.threads[t].stage.Abandoning? ==>
              Caused(s, s.threads[t].job, s.threads[t].stage.why)
    ensures forall job, why :: Caused(s, job, why) <==>
              match why
              case Oversized => |job.req.payload| > 0xFFFF_FFFF
              case Late => job.deadline <= s.now + 1 || s.timeout > 0x7FFF_FFFF
              case Ended => s.cells.slot.Some? && s.cells.slot.value < |s.procs|
                            && s.procs[s.cells.slot.value].status != Running
              case OsError => true
              case Rejected => false
    decreases |acts|
  {
    if acts != [] {
      var n := |acts| - 1;
      var m := Run(Init(timeout, clients), acts[..n]).value;
      RunKeeps(timeout, clients, acts[..n]);
      AbandonedForCause(m, timeout, clients, acts[..n]);
      NextCause(m, acts[n]);
    }
    assert forall t :: 0 <= t < |s.threads| && s.threads[t].Serving? && s.threads[t].stage.Abandoning? ==>
        Abandons(s, t);
  }

  /** The OS fails a read or a write. */
  predicate OsFails(step: IoStep) { (step.WriteFail? || step.ReadFail?) && step.why.OsError? }

  /** Whatever the thread t does next with its worker, it does not abandon it. */
  ghost predicate Keeps(s: State, t: nat)
    requires Thread(s, t) && s.threads[t].Serving?
  {
    forall step: IoStep :: IoNext(s, t, step).Some? && !OsFails(step) ==> !Abandons(IoNext(s, t, step).value, t)
  }

  lemma KeptInTime(s: State, t: nat)
    requires Control(s) && Thread(s, t) && s.threads[t].Serving?
    requires s.threads[t].stage.Writing? || s.threads[t].stage.Reading?
    requires Awaits(s.threads[t].job, s.threads[t].stage) ==>
               Installed(s).Some? && Installed(s).value.status == Running && !TimeIsUp(s, s.threads[t].job)
    ensures Keeps(s, t)
  {
    forall step: IoStep | IoNext(s, t, step).Some? && !OsFails(step)
      ensures !Abandons(IoNext(s, t, step).value, t)
    {
      if Abandons(IoNext(s, t, step).value, t) {
        IoCauses(s, t, step);
      }
    }
  }

  lemma NotKeptLate(s: State, t: nat)
    requires Thread(s, t) && s.threads[t].Serving? && Awaits(s.threads[t].job, s.threads[t].stage)
    requires TimeIsUp(s, s.threads[t].job)
    ensures !Keeps(s, t)
  {
    var step := if s.threads[t].stage.Writing? then WriteFail(Late) else ReadFail(Late);
    assert IoNext(s, t, step).Some? && Abandons(IoNext(s, t, step).value, t);
  }

  /** A running worker that is being written to or read from is kept exactly while its client has
      time, or nothing more to wait for; unless the OS fails. */
  lemma HealthyIsKeptExactly(s: State, timeout: nat, clients: nat, acts: seq<Action>, t: nat)
    requires Reached(s, timeout, clients, acts)
    requires Thread(s, t) && s.threads[t].Serving? && (s.threads[t].stage.Writing? || s.threads[t].stage.Reading?)
    requires Installed(s).Some? && Installed(s).value.status == Running
    ensures Keeps(s, t) <==> !TimeIsUp(s, s.threads[t].job) || !Awaits(s.threads[t].job, s.threads[t].stage)
    ensures TimeIsUp(s, s.threads[t].job) <==> s.threads[t].job.deadline <= s.now + 1 || s.timeout > 0x7FFF_FFFF
  {
    RunKeeps(timeout, clients, acts);
    if TimeIsUp(s, s.threads[t].job) && Awaits(s.threads[t].job, s.threads[t].stage) {
      NotKeptLate(s, t);
    } else {
      KeptInTime(s, t);
    }
  }

  // ---------------------------------------------------------------- a reply that has arrived

  /** Of the reply that thread t reads, all is there: got, or in the pipe. */
  predicate Arrived(s: State, t: nat) {
    && Thread(s, t) && s.threads[t].Serving? && s.threads[t].stage.Reading?
    && s.threads[t].stage.inc < |s.procs|
    && Whole(s.threads[t].stage.got + s.procs[s.threads[t].stage.inc].stdout, NO_CAP)
  }

  function Arrival(s: State, t: nat): Frame
    requires Arrived(s, t)
  {
    FrameIn(s.threads[t].stage.got + s.procs[s.threads[t].stage.inc].stdout, NO_CAP)
  }

  /** Of the reply that had arrived in s, thread t has all in s', or it is still all there. */
  predicate Delivering(s: State, s': State, t: nat)
    requires Arrived(s, t)
  {
    var stage := s.threads[t].stage;
    && Thread(s', t) && s'.threads[t].Serving? && s'.threads[t].job == s.threads[t].job
    && var stage' := s'.threads[t].stage;
       if stage'.Answered? then stage' == Answered(stage.inc, stage.k, Arrival(s, t))
       else Arrived(s', t) && stage'.inc == stage.inc && stage'.k == stage.k && Arrival(s', t) == Arrival(s, t)
  }

  /** What has arrived is the encoding of the worker's own reply, and the worker waits again. */
  lemma ArrivedIs(s: State, t: nat)
    requires Control(s) && Arrived(s, t)
    ensures var stage := s.threads[t].stage;
            var p := s.procs[stage.inc];
            && s.cells.lock == Some(t) && s.cells.slot == Some(stage.inc)
            && Sendable(Arrival(s, t)) && stage.got + p.stdout == Encode(Arrival(s, t))
            && !Mismatch(s.threads[t].job.req, Arrival(s, t))
            && p.stdin == [] && p.loop == Collecting([])
  {
    var req, stage := s.threads[t].job.req, s.threads[t].stage;
    var p := s.procs[stage.inc];
    assert s.cells.lock == Some(t);
    assert InFlight(p, t, req, stage.k, |Encode(req)|, stage.got);
    assert IsServed(p, req, stage.k, |Encode(req)|, stage.got);
    var resp := p.served[stage.k].resp;
    var all := stage.got + p.stdout;
    assert all <= all + Pending(p.loop) == Encode(resp);
    WholePart(resp, all, NO_CAP);
    assert |all| + |Pending(p.loop)| == |Encode(resp)|;
  }

  lemma ReadDelivers(s: State, t: nat, n: nat)
    requires Arrived(s, t) && IoNext(s, t, Read(n)).Some?
    ensures Delivering(s, IoNext(s, t, Read(n)).value, t)
  {
    var stage := s.threads[t].stage;
    var stdout := s.procs[stage.inc].stdout;
    assert (stage.got + stdout[..n]) + stdout[n..] == stage.got + stdout;
  }

  lemma ReadDoneDelivers(s: State, t: nat)
    requires Control(s) && Arrived(s, t) && IoNext(s, t, ReadDone).Some?
    ensures Delivering(s, IoNext(s, t, ReadDone).value, t)
  {
    ArrivedIs(s, t);
    var got := s.threads[t].stage.got;
    assert got <= got + s.procs[s.threads[t].stage.inc].stdout;
    WholePart(Arrival(s, t), got, NO_CAP);
    assert IoNext(s, t, ReadDone).value.threads[t].stage.Answered?;
  }

  /** A step that leaves thread t and its worker's pipe alone. */
  lemma LeftAlone(s: State, s': State, t: nat)
    requires Arrived(s, t) && Thread(s', t) && s'.threads[t] == s.threads[t]
    requires |s'.procs| >= |s.procs|
    requires s'.procs[s.threads[t].stage.inc].stdout == s.procs[s.threads[t].stage.inc].stdout
    ensures Delivering(s, s', t)
  {
  }

  lemma WaitLeavesIt(s: State, t: nat, u: nat, step: WaitStep)
    requires Arrived(s, t) && Thread(s, u) && WaitNext(s, u, step).Some?
    ensures Delivering(s, WaitNext(s, u, step).value, t)
  {
    LeftAlone(s, WaitNext(s, u, step).value, t);
  }

  lemma RestartLeavesIt(s: State, t: nat, u: nat, step: RestartStep)
    requires Arrived(s, t) && Thread(s, u) && RestartNext(s, u, step).Some?
    ensures Delivering(s, RestartNext(s, u, step).value, t)
  {
    LeftAlone(s, RestartNext(s, u, step).value, t);
  }

  /** No other thread does what only the holder of the lock does. */
  lemma OnlyTheReader(s: State, t: nat, a: Action)
    requires LockInv(s) && Arrived(s, t) && Next(s, a).Some?
    ensures !a.ByHold? && !a.ByServe? && !a.BySpawn? && (a.ByIo? ==> a.t == t)
  {
    assert s.cells.lock == Some(t);
  }

  /** A worker that waits for its next request can only end. */
  lemma WaiterKeepsPipe(p: Proc, step: WorkerStep)
    requires p.stdin == [] && p.loop == Collecting([]) && ProcNext(p, step).Some?
    ensures ProcNext(p, step).value.stdout == p.stdout
  {
  }

  lemma WorkersLeaveIt(s: State, t: nat, i: nat, step: WorkerStep)
    requires Control(s) && Arrived(s, t) && i < |s.procs| && ProcNext(s.procs[i], step).Some?
    ensures Delivering(s, SetProc(s, i, ProcNext(s.procs[i], step).value), t)
  {
    ArrivedIs(s, t);
    if i == s.threads[t].stage.inc {
      WaiterKeepsPipe(s.procs[i], step);
    }
    LeftAlone(s, SetProc(s, i, ProcNext(s.procs[i], step).value), t);
  }

  lemma OthersLeaveIt(s: State, t: nat, a: Action)
    requires Control(s) && Arrived(s, t) && Next(s, a).Some? && !a.ByIo?
    ensures Delivering(s, Next(s, a).value, t)
  {
    OnlyTheReader(s, t, a);
    match a
    case Tick => LeftAlone(s, Next(s, a).value, t);
    case ByWait(u, step) => WaitLeavesIt(s, t, u, step);
    case ByRestart(u, step) => RestartLeavesIt(s, t, u, step);
    case ByWorker(i, step) => WorkersLeaveIt(s, t, i, step);
  }

  /** What thread t itself does, if it does not give up its worker. */
  lemma ReaderGoesOn(s: State, t: nat, step: IoStep)
    requires Control(s) && Arrived(s, t) && IoNext(s, t, step).Some? && !Abandons(IoNext(s, t, step).value, t)
    ensures Delivering(s, IoNext(s, t, step).value, t)
  {
    match step
    case Read(n) => ReadDelivers(s, t, n);
    case ReadDone => ReadDoneDelivers(s, t);
    case _ =>
  }

  /** All of the reply is read already. */
  lemma CanFinish(s: State, t: nat)
    requires Arrived(s, t) && s.procs[s.threads[t].stage.inc].stdout == []
    ensures IoNext(s, t, ReadDone).Some? && !Awaits(s.threads[t].job, s.threads[t].stage)
  {
    assert s.threads[t].stage.got == s.threads[t].stage.got + [];
  }

  /** A reader that has a part of a frame waits for more, and takes another byte of it. */
  lemma TakesMore(f: Frame, got: seq<byte>, rest: seq<byte>)
    requires Sendable(f) && got + rest == Encode(f) && rest != []
    ensures MayTake(got, rest, 1, NO_CAP) && |got| < Want(got)
  {
    assert got <= got + rest;
    PartNotRefused(f, got, NO_CAP);
    if |got| >= HEADER_LEN {
      PrefixFields(f, got);
    }
  }

  lemma CanRead(s: State, t: nat)
    requires Control(s) && Arrived(s, t) && s.procs[s.threads[t].stage.inc].stdout != []
    ensures IoNext(s, t, Read(1)).Some? && Awaits(s.threads[t].job, s.threads[t].stage)
  {
    ArrivedIs(s, t);
    TakesMore(Arrival(s, t), s.threads[t].stage.got, s.procs[s.threads[t].stage.inc].stdout);
  }

  /** Whatever happens next, the reply is delivered or still all there, unless the OS fails. */
  ghost predicate StaysForAll(s: State, t: nat)
    requires Arrived(s, t)
  {
    forall a: Action :: Next(s, a).Some? && !(a.ByIo? && a.t == t && OsFails(a.io)) ==>
      Delivering(s, Next(s, a).value, t)
  }

  /** What has arrived cannot be lost any more: it is all read, or the client has time to and the
      worker is there. */
  predicate Safe(s: State, t: nat)
    requires Arrived(s, t)
  {
    var p := s.procs[s.threads[t].stage.inc];
    p.stdout == [] || (!TimeIsUp(s, s.threads[t].job) && p.status == Running)
  }

  lemma StaysIfSafe(s: State, t: nat)
    requires Control(s) && Arrived(s, t) && Safe(s, t)
    ensures StaysForAll(s, t)
  {
    assert s.cells.lock == Some(t);
    if s.procs[s.threads[t].stage.inc].stdout == [] {
      CanFinish(s, t);
    }
    KeptInTime(s, t);
    forall a: Action | Next(s, a).Some? && !(a.ByIo? && a.t == t && OsFails(a.io))
      ensures Delivering(s, Next(s, a).value, t)
    {
      if a.ByIo? {
        OnlyTheReader(s, t, a);
        ReaderGoesOn(s, t, a.io);
      } else {
        OthersLeaveIt(s, t, a);
      }
    }
  }

  lemma LostOtherwise(s: State, t: nat)
    requires Control(s) && Arrived(s, t) && !s.exited && !Safe(s, t)
    ensures !StaysForAll(s, t)
  {
    CanRead(s, t);
    GivesUp(s, t, if TimeIsUp(s, s.threads[t].job) then Late else Ended);
  }

  lemma GivesUp(s: State, t: nat, why: Why)
    requires Arrived(s, t) && !s.exited && Awaits(s.threads[t].job, s.threads[t].stage)
    requires MayFail(s, s.threads[t].job, s.threads[t].stage.inc, why) && !why.OsError?
    ensures !StaysForAll(s, t)
  {
    var a := ByIo(t, ReadFail(why));
    assert Next(s, a).Some? && !Delivering(s, Next(s, a).value, t);
  }

  /** A reply that has arrived in full cannot be lost exactly if it is read already, or the client
      has time to and the worker has not ended; unless the OS fails.  And the client can always
      take more of it, or has it all. */
  lemma ArrivedIsDeliveredExactly(s: State, timeout: nat, clients: nat, acts: seq<Action>, t: nat)
    requires Reached(s, timeout, clients, acts) && !s.exited && Arrived(s, t)
    ensures StaysForAll(s, t) <==> Safe(s, t)
    ensures if s.procs[s.threads[t].stage.inc].stdout == [] then IoNext(s, t, ReadDone).Some?
            else IoNext(s, t, Read(1)).Some?
  {
    RunKeeps(timeout, clients, acts);
    if Safe(s, t) {
      StaysIfSafe(s, t);
    } else {
      LostOtherwise(s, t);
    }
    if s.procs[s.threads[t].stage.inc].stdout == [] {
      CanFinish(s, t);
    } else {
      CanRead(s, t);
    }
  }
}
