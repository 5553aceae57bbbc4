/**
 What the clients asked for, read off the actions of a run alone, and that this is what is sent,
 answered and given up: no request is altered on its way through the supervisor.
 */
module SupervisorCalls {
  import opened Wrappers
  import opened Bytes
  import opened IpcFrame
  import opened SupervisorModel
  import opened SupervisorInvariant
  import opened SupervisorProof
  import opened SupervisorTheorems
  import opened SupervisorOthers

  // ---------------------------------------------------------------- the actions of a run

  predicate IsBegin(a: Action) { a.ByWait? && a.wait.Begin? }

  /** How many requests have begun. */
  function Begun(acts: seq<Action>): nat {
    if acts == [] then 0 else Begun(acts[..|acts| - 1]) + (if IsBegin(acts[|acts| - 1]) then 1 else 0)
  }

  /** How much time has passed. */
  function Elapsed(acts: seq<Action>): nat {
    if acts == [] then 0 else Elapsed(acts[..|acts| - 1]) + (if acts[|acts| - 1].Tick? then 1 else 0)
  }

  /** A call of request(): its number, its arguments, and when it was made. */
  datatype Call = Call(number: nat, opcode: u16, payload: seq<byte>, at: nat)

  /** The last call that thread t made. */
  function LastCall(acts: seq<Action>, t: nat): Option<Call> {
    if acts == [] then None
    else
      var n := |acts| - 1;
      if IsBegin(acts[n]) && acts[n].t == t then
        Some(Call(Begun(acts[..n]), acts[n].wait.opcode, acts[n].wait.payload, Elapsed(acts[..n])))
      else LastCall(acts[..n], t)
  }

  /** The frame that this call is to send: ids are given out from 1 on, and wrap at 32 bits. */
  predicate IsFrameOf(f: Frame, call: Option<Call>) {
    && call.Some?
    && f.kind == 1 && f.flags == 0
    && f.requestId == (1 + call.value.number) % 0x1_0000_0000
    && f.opcode == call.value.opcode && f.payload == call.value.payload
  }

  // ---------------------------------------------------------------- what a thread works on

  function JobOf(pc: Pc): Option<Job> {
    match pc
    case Waiting(job) => Some(job)
    case Denied(job) => Some(job)
    case Expired(job) => Some(job)
    case Stuck(job, _, _) => Some(job)
    case GaveUp(job) => Some(job)
    case Holding(Locked(job)) => Some(job)
    case Holding(Untracked(job)) => Some(job)
    case Serving(job, _) => Some(job)
    case _ => None
  }

  /** The request that it is about to return with Ok. */
  function Returning(pc: Pc): Option<Frame> {
    if pc.Holding? && pc.errand.Unlocking? && pc.errand.out.Reply? then Some(pc.errand.out.req) else None
  }

  /** The threads that have given up on the lock. */
  predicate GivesUp(pc: Pc) { pc.Expired? || pc.Stuck? || pc.GaveUp? }

  /** What thread t is at after acts is the last call that it made, with its deadline one timeout
      after it; and it gives up only after that. */
  ghost predicate AtItsCall(pc: Pc, call: Option<Call>, timeout: nat, now: nat) {
    && (JobOf(pc).Some? ==>
          && IsFrameOf(JobOf(pc).value.req, call)
          && JobOf(pc).value.deadline == call.value.at + timeout)
    && (Returning(pc).Some? ==> IsFrameOf(Returning(pc).value, call))
    && (GivesUp(pc) ==> JobOf(pc).value.deadline <= now)
  }

  ghost predicate CallsInv(s: State, acts: seq<Action>) {
    && s.now == Elapsed(acts)
    && s.cells.nextId == (1 + Begun(acts)) % 0x1_0000_0000
    && forall t :: 0 <= t < |s.threads| ==> AtItsCall(s.threads[t], LastCall(acts, t), s.timeout, s.now)
  }

  /** Result a is for a call of its thread. */
  ghost predicate ForACall(a: Answer, acts: seq<Action>) {
    exists k :: 0 <= k <= |acts| && IsFrameOf(a.req, LastCall(acts[..k], a.thread))
  }

  ghost predicate ResultsInv(s: State, acts: seq<Action>) {
    forall n :: 0 <= n < |s.answers| ==> ForACall(s.answers[n], acts)
  }

  // ---------------------------------------------------------------- one step

  /** A step of thread t that goes on with the same call, or ends it. */
  predicate GoesOn(s: State, s': State, t: nat)
    requires Thread(s, t) && Thread(s', t)
  {
    && s'.now == s.now && s'.timeout == s.timeout && s'.cells.nextId == s.cells.nextId
    && var pc, pc' := s.threads[t], s'.threads[t];
       && (JobOf(pc').Some? ==> JobOf(pc') == JobOf(pc))
       && (Returning(pc').Some? ==> JobOf(pc).Some? && Returning(pc').value == JobOf(pc).value.req)
       && (GivesUp(pc') ==> GivesUp(pc) || (pc.Denied? && pc.job.deadline <= s.now))
  }

  lemma WaitGoesOn(s: State, t: nat, step: WaitStep)
    requires Thread(s, t) && WaitNext(s, t, step).Some? && !step.Begin?
    ensures Thread(WaitNext(s, t, step).value, t) && GoesOn(s, WaitNext(s, t, step).value, t)
  {
  }

  lemma HoldGoesOn(s: State, t: nat, step: HoldStep)
    requires Thread(s, t) && s.threads[t].Holding? && HoldNext(s, t, step).Some?
    ensures Thread(HoldNext(s, t, step).value, t) && GoesOn(s, HoldNext(s, t, step).value, t)
  {
  }

  lemma ServeGoesOn(s: State, t: nat, step: ServeStep)
    requires Thread(s, t) && s.threads[t].Serving? && ServeNext(s, t, step).Some?
    ensures Thread(ServeNext(s, t, step).value, t) && GoesOn(s, ServeNext(s, t, step).value, t)
  {
  }

  lemma IoGoesOn(s: State, t: nat, step: IoStep)
    requires Thread(s, t) && s.threads[t].Serving? && IoNext(s, t, step).Some?
    ensures Thread(IoNext(s, t, step).value, t) && GoesOn(s, IoNext(s, t, step).value, t)
  {
  }

  lemma SpawnGoesOn(s: State, t: nat, step: SpawnStep)
    requires Thread(s, t) && SpawnNext(s, t, step).Some?
    ensures Thread(SpawnNext(s, t, step).value, t) && GoesOn(s, SpawnNext(s, t, step).value, t)
  {
  }

  lemma RestartGoesOn(s: State, t: nat, step: RestartStep)
    requires Thread(s, t) && RestartNext(s, t, step).Some?
    ensures Thread(RestartNext(s, t, step).value, t) && GoesOn(s, RestartNext(s, t, step).value, t)
  {
  }

  lemma {:induction false} GoingOnKeeps(s: State, s': State, acts: seq<Action>, a: Action, t: nat)
    requires CallsInv(s, acts) && Thread(s, t) && OnlyMoves(s, s', t) && GoesOn(s, s', t) && !a.Tick? && !IsBegin(a)
    ensures CallsInv(s', acts + [a])
  {
    assert (acts + [a])[..|acts|] == acts;
    forall u | 0 <= u < |s'.threads|
      ensures AtItsCall(s'.threads[u], LastCall(acts + [a], u), s'.timeout, s'.now)
    {
      assert AtItsCall(s.threads[u], LastCall(acts, u), s.timeout, s.now);
    }
  }

  lemma {:induction false} BeginKeeps(s: State, acts: seq<Action>, t: nat, opcode: u16, payload: seq<byte>)
    requires CallsInv(s, acts) && Thread(s, t) && WaitNext(s, t, Begin(opcode, payload)).Some?
    ensures CallsInv(WaitNext(s, t, Begin(opcode, payload)).value, acts + [ByWait(t, Begin(opcode, payload))])
  {
    var a := ByWait(t, Begin(opcode, payload));
    var s' := WaitNext(s, t, Begin(opcode, payload)).value;
    WaitMovesOne(s, t, Begin(opcode, payload));
    assert (acts + [a])[..|acts|] == acts;
    forall u | 0 <= u < |s'.threads|
      ensures AtItsCall(s'.threads[u], LastCall(acts + [a], u), s'.timeout, s'.now)
    {
      assert AtItsCall(s.threads[u], LastCall(acts, u), s.timeout, s.now);
    }
  }

  /** A step that moves no thread. */
  lemma {:induction false} NobodyMoves(s: State, s': State, acts: seq<Action>, a: Action)
    requires CallsInv(s, acts) && (a.Tick? || a.ByWorker?)
    requires s'.threads == s.threads && s'.cells == s.cells && s'.timeout == s.timeout
    requires s'.now == s.now + if a.Tick? then 1 else 0
    ensures CallsInv(s', acts + [a])
  {
    assert (acts + [a])[..|acts|] == acts;
    forall u | 0 <= u < |s'.threads|
      ensures AtItsCall(s'.threads[u], LastCall(acts + [a], u), s'.timeout, s'.now)
    {
      assert AtItsCall(s.threads[u], LastCall(acts, u), s.timeout, s.now);
    }
  }

  lemma {:induction false} NextCalls(s: State, acts: seq<Action>, a: Action)
    requires CallsInv(s, acts) && Next(s, a).Some?
    ensures CallsInv(Next(s, a).value, acts + [a])
  {
    var s' := Next(s, a).value;
    match a
    case Tick => NobodyMoves(s, s', acts, a);
    case ByWorker(i, step) => NobodyMoves(s, s', acts, a);
    case ByWait(t, step) =>
      if step.Begin? {
        BeginKeeps(s, acts, t, step.opcode, step.payload);
      } else {
        WaitMovesOne(s, t, step);
        WaitGoesOn(s, t, step);
        GoingOnKeeps(s, s', acts, a, t);
      }
    case ByHold(t, step) => HoldMovesOne(s, t, step); HoldGoesOn(s, t, step); GoingOnKeeps(s, s', acts, a, t);
    case ByServe(t, step) => ServeMovesOne(s, t, step); ServeGoesOn(s, t, step); GoingOnKeeps(s, s', acts, a, t);
    case ByIo(t, step) => IoMovesOne(s, t, step); IoGoesOn(s, t, step); GoingOnKeeps(s, s', acts, a, t);
    case BySpawn(t, step) => SpawnMovesOne(s, t, step); SpawnGoesOn(s, t, step); GoingOnKeeps(s, s', acts, a, t);
    case ByRestart(t, step) => RestartMovesOne(s, t, step); RestartGoesOn(s, t, step); GoingOnKeeps(s, s', acts, a, t);
  }

  // ---------------------------------------------------------------- results

  /** A step gives no result, or one more: what its thread was returning. */
  predicate Answers(s: State, s': State, a: Action) {
    || s'.answers == s.answers
    || (a.ByHold? && Thread(s, a.t) && Returning(s.threads[a.t]).Some? && |s'.answers| == |s.answers| + 1
        && s.answers <= s'.answers
        && s'.answers[|s.answers|].thread == a.t
        && s'.answers[|s.answers|].req == Returning(s.threads[a.t]).value)
  }

  lemma HoldResults(s: State, t: nat, step: HoldStep)
    requires Thread(s, t) && s.threads[t].Holding? && HoldNext(s, t, step).Some?
    ensures Answers(s, HoldNext(s, t, step).value, ByHold(t, step))
  {
  }

  lemma SameResults(s: State, a: Action)
    requires Next(s, a).Some? && !a.ByHold?
    ensures Next(s, a).value.answers == s.answers
  {
  }

  lemma {:induction false} NextResults(s: State, acts: seq<Action>, a: Action)
    requires CallsInv(s, acts) && ResultsInv(s, acts) && Next(s, a).Some?
    ensures ResultsInv(Next(s, a).value, acts + [a])
  {
    var s' := Next(s, a).value;
    if a.ByHold? {
      HoldResults(s, a.t, a.hold);
    } else {
      SameResults(s, a);
    }
    forall n | 0 <= n < |s'.answers| ensures ForACall(s'.answers[n], acts + [a]) {
      if n < |s.answers| {
        var k :| 0 <= k <= |acts| && IsFrameOf(s.answers[n].req, LastCall(acts[..k], s.answers[n].thread));
        assert (acts + [a])[..k] == acts[..k];
      } else {
        assert AtItsCall(s.threads[a.t], LastCall(acts, a.t), s.timeout, s.now);
        assert (acts + [a])[..|acts|] == acts;
      }
    }
  }

  // ---------------------------------------------------------------- theorems

  lemma {:induction false} RunCalls(timeout: nat, clients: nat, acts: seq<Action>)
    requires Run(Init(timeout, clients), acts).Some?
    ensures var s := Run(Init(timeout, clients), acts).value;
            s.timeout == timeout && CallsInv(s, acts) && ResultsInv(s, acts)
    decreases |acts|
  {
    if acts != [] {
      var n := |acts| - 1;
      RunCalls(timeout, clients, acts[..n]);
      var m := Run(Init(timeout, clients), acts[..n]).value;
      NextCalls(m, acts[..n], acts[n]);
      NextResults(m, acts[..n], acts[n]);
      TimeoutStays(m, acts[n]);
      assert acts[..n] + [acts[n]] == acts;
    }
  }

  lemma TimeoutStays(s: State, a: Action)
    requires Next(s, a).Some?
    ensures Next(s, a).value.timeout == s.timeout
  {
  }

  lemma CallOfJob(pc: Pc, call: Option<Call>, timeout: nat, now: nat)
    requires AtItsCall(pc, call, timeout, now) && JobOf(pc).Some?
    ensures var job := JobOf(pc).value;
            && call.Some?
            && job.req.kind == 1 && job.req.flags == 0
            && job.req.opcode == call.value.opcode && job.req.payload == call.value.payload
            && job.req.requestId == (1 + call.value.number) % 0x1_0000_0000
            && job.deadline == call.value.at + timeout
            && (GivesUp(pc) ==> call.value.at + timeout <= now)
  {
  }

  /** Whatever a thread waits for, writes, or is about to return, is the request of the last call
      that it made: its opcode and payload, and the next free id; with the deadline one timeout
      after the call. */
  lemma {:induction false} RequestsAreTheCalls(s: State, timeout: nat, clients: nat, acts: seq<Action>, t: nat)
    requires Reached(s, timeout, clients, acts) && Thread(s, t) && JobOf(s.threads[t]).Some?
    ensures var call, job := LastCall(acts, t), JobOf(s.threads[t]).value;
            && call.Some?
            && job.req.kind == 1 && job.req.flags == 0
            && job.req.opcode == call.value.opcode && job.req.payload == call.value.payload
            && job.req.requestId == (1 + call.value.number) % 0x1_0000_0000
            && job.deadline == call.value.at + timeout
    ensures GivesUp(s.threads[t]) ==> LastCall(acts, t).value.at + timeout <= s.now
  {
    RunCalls(timeout, clients, acts);
    CallOfJob(s.threads[t], LastCall(acts, t), s.timeout, s.now);
  }

  /** Every Ok of request() is for a call that its thread made, with the call's opcode and payload
      in the frame that was answered. */
  lemma ResultsAreForCalls(s: State, timeout: nat, clients: nat, acts: seq<Action>, n: nat)
    requires Reached(s, timeout, clients, acts) && n < |s.answers|
    ensures exists k :: 0 <= k <= |acts| && IsFrameOf(s.answers[n].req, LastCall(acts[..k], s.answers[n].thread))
  {
    RunCalls(timeout, clients, acts);
    assert ForACall(s.answers[n], acts);
  }
}
