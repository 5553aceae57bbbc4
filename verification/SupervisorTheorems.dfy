/**
 What holds in every run of the supervisor: any number of clients, any
 interleaving, any chunking of the pipes, any failures and crashes.
 */
module SupervisorTheorems {
  import opened Wrappers
  import opened IpcFrame
  import opened SupervisorModel
  import opened SupervisorInvariant
  import opened SupervisorPipes
  import opened SupervisorProof

  /** s is reached by the run acts of this many clients under this timeout. */
  predicate Reached(s: State, timeout: nat, clients: nat, acts: seq<Action>) {
    Run(Init(timeout, clients), acts) == Some(s)
  }

  /**
   Replies never cross.  Whenever request() returned Ok, the frame it returned is what
   one worker's dispatch answered to exactly the frame that this very thread had written
   to that worker, in the same place of that worker's sequence of requests; and no answer
   of a worker is returned twice.  Request ids play no part: they may have wrapped.
   */
  lemma RepliesNeverCross(s: State, timeout: nat, clients: nat, acts: seq<Action>)
    requires Reached(s, timeout, clients, acts)
    ensures forall n :: 0 <= n < |s.answers| ==>
              var a := s.answers[n];
              && a.inc < |s.procs|
              && a.k < |s.procs[a.inc].asked| && s.procs[a.inc].asked[a.k] == Ask(a.thread, a.req)
              && a.k < |s.procs[a.inc].served| && s.procs[a.inc].served[a.k] == Exchange(a.req, a.resp)
    ensures forall m, n :: 0 <= m < n < |s.answers| ==>
              s.answers[m].inc != s.answers[n].inc || s.answers[m].k != s.answers[n].k
  {
    RunKeeps(timeout, clients, acts);
    forall n | 0 <= n < |s.answers| ensures Genuine(s.procs, s.answers[n]) {
    }
  }

  /** While the lock is free, the installed worker has both pipes empty, no part of a frame
      in its buffers, and has answered everything it was asked. */
  lemma FreeLockMeansFrameBoundary(s: State, timeout: nat, clients: nat, acts: seq<Action>)
    requires Reached(s, timeout, clients, acts)
    requires s.cells.lock.None? && s.cells.slot.Some?
    ensures s.cells.slot.value < |s.procs|
    ensures var p := s.procs[s.cells.slot.value];
            p.stdin == [] && p.stdout == [] && p.loop == Collecting([]) && |p.asked| == |p.served|
  {
    RunKeeps(timeout, clients, acts);
  }

  /** A reading client never sees a bad header or a reply to another request:
      the branches for those are never taken. */
  lemma NoMismatchedReply(s: State, timeout: nat, clients: nat, acts: seq<Action>, t: nat)
    requires Reached(s, timeout, clients, acts)
    requires Thread(s, t) && s.threads[t].Serving? && s.threads[t].stage.Reading?
    ensures var got := s.threads[t].stage.got;
            && !HeaderRefused(got, NO_CAP)
            && (Whole(got, NO_CAP) ==>
                  var req, resp := s.threads[t].job.req, FrameIn(got, NO_CAP);
                  && resp.kind == 2 && resp.requestId == req.requestId && resp.opcode == req.opcode
                  && !Mismatch(req, resp))
  {
    RunKeeps(timeout, clients, acts);
    ReadsItsReply(s, t);
  }

  lemma ReadsItsReply(s: State, t: nat)
    requires Control(s)
    requires Thread(s, t) && s.threads[t].Serving? && s.threads[t].stage.Reading?
    ensures var got := s.threads[t].stage.got;
            && !HeaderRefused(got, NO_CAP)
            && (Whole(got, NO_CAP) ==>
                  var req, resp := s.threads[t].job.req, FrameIn(got, NO_CAP);
                  && resp.kind == 2 && resp.requestId == req.requestId && resp.opcode == req.opcode
                  && !Mismatch(req, resp))
  {
    var req, stage := s.threads[t].job.req, s.threads[t].stage;
    assert s.cells.lock == Some(t);
    var p := s.procs[stage.inc];
    if stage.got != [] {
      GotPart(p, t, req, stage.k, stage.got);
      PartNotRefused(p.served[stage.k].resp, stage.got, NO_CAP);
    }
    if Whole(stage.got, NO_CAP) {
      ReadEnds(p, t, req, stage.k, stage.got);
    }
  }

  function One(b: bool): nat { if b then 1 else 0 }

  /** No worker is lost and none is cleaned up twice: each one ever spawned is in exactly
      one place, and only a worker that had exited is ever overwritten in the slot. */
  lemma WorkersAreConserved(s: State, timeout: nat, clients: nat, acts: seq<Action>, i: nat)
    requires Reached(s, timeout, clients, acts) && i < |s.procs|
    ensures One(s.cells.slot == Some(i)) + Hands(s.threads, i) + s.handed[i] + s.replaced[i] == 1
    ensures i in s.replaced ==> s.procs[i].status == Exited
  {
    RunKeeps(timeout, clients, acts);
    assert Places(s, i) == 1;
  }

  /** The delayed restart puts its worker into an empty slot only. */
  lemma RestartNeverOverwrites(s: State, timeout: nat, clients: nat, acts: seq<Action>, t: nat)
    requires Reached(s, timeout, clients, acts)
    requires Thread(s, t) && s.threads[t].Holding? && s.threads[t].errand.Restart?
    ensures s.cells.slot.None?
  {
    RunKeeps(timeout, clients, acts);
    assert s.cells.lock == Some(t);
  }

  /** The tracked request is the one whose thread holds the lock, with its deadline at most
      one timeout after it was tracked; a thread about to track finds the entry empty. */
  lemma TrackerAgreesWithLock(s: State, timeout: nat, clients: nat, acts: seq<Action>)
    requires Reached(s, timeout, clients, acts)
    ensures s.cells.current.Some? ==>
              && s.cells.lock.Some? && Thread(s, s.cells.lock.value)
              && var pc := s.threads[s.cells.lock.value];
                 && pc.Serving?
                 && pc.job.req.requestId == s.cells.current.value.id
                 && pc.job.req.opcode == s.cells.current.value.opcode
                 && pc.job.deadline <= s.cells.current.value.started + s.timeout
                 && s.cells.current.value.started <= s.now
    ensures forall t :: 0 <= t < |s.threads| && s.threads[t].Serving? ==> s.cells.current.Some?
    ensures forall t :: 0 <= t < |s.threads| && s.threads[t].Holding? ==> s.cells.current.None?
  {
    RunKeeps(timeout, clients, acts);
    forall t | 0 <= t < |s.threads| && HoldsLock(s.threads[t]) ensures s.cells.lock == Some(t) {
    }
  }

  /** A thread that gives up on the lock goes for the worker's pid exactly if there is a request that
      has been tracked for the whole timeout; then that request holds the lock and is past its own
      deadline. */
  lemma OnlyOverdueIsStuck(s: State, timeout: nat, clients: nat, acts: seq<Action>, t: nat)
    requires Reached(s, timeout, clients, acts) && Thread(s, t) && WaitNext(s, t, Inspect).Some?
    ensures WaitNext(s, t, Inspect).value.threads[t].Stuck? <==>
              s.cells.current.Some? && s.now - s.cells.current.value.started >= s.timeout
    ensures WaitNext(s, t, Inspect).value.threads[t].Stuck? ==>
              && s.cells.lock.Some? && Thread(s, s.cells.lock.value)
              && var pc := s.threads[s.cells.lock.value];
                 && pc.Serving? && pc.job.req.requestId == s.cells.current.value.id
                 && pc.job.deadline <= s.now
  {
    TrackerAgreesWithLock(s, timeout, clients, acts);
  }

  /** A worker answers a whole request frame, with its id and opcode, but for a shutdown. */
  lemma ServesExactly(p: Proc, resp: Frame)
    ensures ProcNext(p, Serve(resp)).Some? <==>
              && p.status == Running && p.loop.Collecting? && Whole(p.loop.buf, WORKER_MAX_PAYLOAD)
              && var req := FrameIn(p.loop.buf, WORKER_MAX_PAYLOAD);
                 && req.kind == 1 && req.opcode != 8
                 && resp.kind == 2 && resp.requestId == req.requestId && resp.opcode == req.opcode
                 && |resp.payload| < 0x1_0000_0000
  {
  }

  /** Where request(), the delayed restart and ensure_started decide: an empty slot is filled, a worker
      that has exited is replaced, and one that a restart finds is left; the process exits exactly
      if there is no pid to take. */
  lemma Decisions(s: State, t: nat, job: Job)
    requires Thread(s, t)
    ensures s.threads[t] == Serving(job, Tracked) ==>
              var s' := ServeNext(s, t, LookSlot);
              s'.Some? && s'.value.threads[t] == Serving(job, if s.cells.slot.None? then Fill(Wanted) else Probing)
    ensures s.threads[t] == Serving(job, Probing) && s.cells.slot.Some? && s.cells.slot.value < |s.procs| ==>
              var s', p := ServeNext(s, t, Probe), s.procs[s.cells.slot.value];
              s'.Some? && s'.value.threads[t] == Serving(job, if p.status == Exited then Replace(Wanted) else Sending)
    ensures s.threads[t] == Sleeping && s.cells.lock.None? ==>
              var s' := RestartNext(s, t, RestartWake);
              s'.Some? && s'.value.threads[t] == if s.cells.slot.Some? then Idle else Holding(Restart(Wanted))
    ensures s.threads[t] == Holding(EnsureLook) && s.cells.slot.Some? && s.cells.slot.value < |s.procs| ==>
              var s', p := HoldNext(s, t, EnsureCheck), s.procs[s.cells.slot.value];
              s'.Some? && s'.value.threads[t] == Holding(if p.status == Exited then EnsureZero else Unlocking(Silent))
    ensures s.threads[t] == Holding(EnsureZero) ==>
              var s' := HoldNext(s, t, EnsurePid);
              s'.Some? && s'.value.cells.pid == 0 && s'.value.threads[t] == Holding(Ensure(Wanted))
    ensures s.threads[t].Stuck? && !s.exited ==>
              var s' := WaitNext(s, t, SwapPid);
              s'.Some? && (s'.value.exited <==> s.cells.pid == 0) && s'.value.cells.pid == 0
  {
  }

  /** Every pid taken to be killed belonged to a worker published by pid, was taken after the
      deadline of the request observed, and no worker's pid is taken twice. */
  lemma KillsAreLateAndOnce(s: State, timeout: nat, clients: nat, acts: seq<Action>)
    requires Reached(s, timeout, clients, acts)
    ensures forall n :: 0 <= n < |s.kills| ==>
              && s.kills[n].inc.Some? && s.kills[n].inc.value < |s.procs|
              && s.kills[n].pid == s.procs[s.kills[n].inc.value].pid != 0
              && s.kills[n].due <= s.kills[n].at
    ensures forall m, n :: 0 <= m < n < |s.kills| ==> s.kills[m].inc != s.kills[n].inc
  {
    RunKeeps(timeout, clients, acts);
  }

  /** A child exists whose pid the lock holder has not stored yet. */
  predicate StoringPid(s: State) {
    HolderChild(s).Some? && HolderChild(s).value.Spawned?
  }

  lemma PidOfLast(s: State)
    requires FreshInv(s) && PidInv(s) && s.cells.pid != 0
    ensures var last := if StoringPid(s) then |s.procs| - 2 else |s.procs| - 1;
            0 <= last && s.cells.pid == s.procs[last].pid
  {
  }

  /** The published pid is 0 or that of the last spawned worker; the one before it only
      between a spawn and the store that follows it. */
  lemma PidNamesTheLastWorker(s: State, timeout: nat, clients: nat, acts: seq<Action>)
    requires Reached(s, timeout, clients, acts) && s.cells.pid != 0
    ensures var last := if StoringPid(s) then |s.procs| - 2 else |s.procs| - 1;
            0 <= last && s.cells.pid == s.procs[last].pid
  {
    RunKeeps(timeout, clients, acts);
    PidOfLast(s);
  }

  /** waiting_count is the number of threads that hold a WaitTracker, in every state. */
  lemma WaitCountIsExact(s: State, timeout: nat, clients: nat, acts: seq<Action>)
    requires Reached(s, timeout, clients, acts)
    ensures s.cells.waiting == Waiters(s.threads)
  {
    RunKeeps(timeout, clients, acts);
  }
}
