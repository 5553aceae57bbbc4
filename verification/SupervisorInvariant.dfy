/** What every reachable state of the supervisor satisfies. */
module SupervisorInvariant {
  import opened Wrappers
  import opened Bytes
  import opened IpcFrame
  import opened SupervisorModel

  // ---------------------------------------------------------------- counting

  /** How many threads hold a WaitTracker. */
  function Waiters(ts: seq<Pc>): nat {
    if ts == [] then 0 else (if IsWaiting(ts[0]) then 1 else 0) + Waiters(ts[1..])
  }

  /** How many threads keep worker i out of the slot in their own hands. */
  function Hands(ts: seq<Pc>, i: nat): nat {
    if ts == [] then 0 else Is(HandOf(ts[0]), i) + Hands(ts[1..], i)
  }

  lemma {:induction false} WaitersMove(ts: seq<Pc>, t: nat, pc: Pc)
    requires t < |ts|
    ensures Waiters(ts[t := pc]) + (if IsWaiting(ts[t]) then 1 else 0)
         == Waiters(ts) + (if IsWaiting(pc) then 1 else 0)
    ensures IsWaiting(ts[t]) ==> Waiters(ts) > 0
  {
    var us := ts[t := pc];
    if t == 0 {
      assert us[1..] == ts[1..];
    } else {
      assert us[1..] == ts[1..][t - 1 := pc];
      WaitersMove(ts[1..], t - 1, pc);
    }
  }

  lemma {:induction false} HandsMove(ts: seq<Pc>, t: nat, pc: Pc, i: nat)
    requires t < |ts|
    ensures Hands(ts[t := pc], i) + Is(HandOf(ts[t]), i)
         == Hands(ts, i) + Is(HandOf(pc), i)
    ensures HandOf(ts[t]) == Some(i) ==> Hands(ts, i) > 0
  {
    var us := ts[t := pc];
    if t == 0 {
      assert us[1..] == ts[1..];
    } else {
      assert us[1..] == ts[1..][t - 1 := pc];
      HandsMove(ts[1..], t - 1, pc, i);
    }
  }

  lemma {:induction false} NobodyHolds(ts: seq<Pc>)
    requires forall t :: 0 <= t < |ts| ==> ts[t] == Idle
    ensures Waiters(ts) == 0 && forall i: nat :: Hands(ts, i) == 0
  {
    if ts != [] {
      NobodyHolds(ts[1..]);
    }
  }

  // ---------------------------------------------------------------- the holder of the lock

  function Holder(s: State): Option<Pc> {
    if s.cells.lock.Some? && s.cells.lock.value < |s.threads| then Some(s.threads[s.cells.lock.value]) else None
  }

  ghost predicate LockInv(s: State) {
    && (s.cells.lock.Some? ==> s.cells.lock.value < |s.threads|)
    && forall t :: 0 <= t < |s.threads| ==> (HoldsLock(s.threads[t]) <==> s.cells.lock == Some(t))
  }

  /** The job of a thread that holds a RequestTracker. */
  function TrackedJob(pc: Pc): Option<Job> {
    if pc.Serving? then Some(pc.job) else None
  }

  predicate InTime(job: Job, latest: nat) {
    job.deadline <= latest && job.req.kind == KIND_REQUEST
  }

  /** The tracked request is that of the lock holder, begun no later than it is tracked. */
  predicate Tracks(c: Option<Current>, job: Option<Job>, timeout: nat) {
    if job.None? then c.None?
    else
      && c.Some?
      && c.value.id == job.value.req.requestId
      && c.value.opcode == job.value.req.opcode
      && c.value.due == job.value.deadline
      && InTime(job.value, c.value.started + timeout)
  }

  predicate TrackInv(s: State) {
    && (s.cells.current.Some? ==> s.cells.current.value.started <= s.now)
    && Tracks(s.cells.current, if Holder(s).Some? then TrackedJob(Holder(s).value) else None, s.timeout)
  }

  /** The job of a thread that is still on its way to tracking it. */
  function UntrackedJob(pc: Pc): Option<Job> {
    match pc
    case Waiting(job) => Some(job)
    case Denied(job) => Some(job)
    case Holding(Locked(job)) => Some(job)
    case Holding(Untracked(job)) => Some(job)
    case _ => None
  }

  /** A thread's own deadline is one timeout after a moment already past. */
  ghost predicate DeadlineInv(s: State) {
    forall t :: 0 <= t < |s.threads| ==>
      && (UntrackedJob(s.threads[t]).Some? ==> InTime(UntrackedJob(s.threads[t]).value, s.now + s.timeout))
      && (s.threads[t].Stuck? ==> s.threads[t].due <= s.now)
  }

  // ---------------------------------------------------------------- pipes

  /** At a frame boundary: nothing in either pipe, every request answered. */
  predicate AtBoundary(p: Proc) {
    p.stdin == [] && p.stdout == [] && p.loop == Collecting([]) && |p.asked| == |p.served|
  }

  function Pending(l: Loop): seq<byte> {
    if l.Replying? then l.rest else []
  }

  /** Request number k of worker p, of which the client has written the first `sent` bytes
      and read back got. */
  predicate InFlight(p: Proc, t: nat, req: Frame, k: nat, sent: nat, got: seq<byte>) {
    && Sendable(req) && sent <= |Encode(req)| && req.kind == KIND_REQUEST
    && |p.asked| == k + 1 && p.asked[k] == Ask(t, req)
    && (NotServed(p, req, k, sent, got) || IsServed(p, req, k, sent, got))
  }

  predicate NotServed(p: Proc, req: Frame, k: nat, sent: nat, got: seq<byte>)
    requires Sendable(req) && sent <= |Encode(req)|
  {
    && |p.served| == k
    && p.loop.Collecting? && p.loop.buf + p.stdin == Encode(req)[..sent]
    && p.stdout == [] && got == []
  }

  predicate IsServed(p: Proc, req: Frame, k: nat, sent: nat, got: seq<byte>)
    requires Sendable(req) && sent <= |Encode(req)|
  {
    && |p.served| == k + 1
    && p.served[k].req == req && IsReply(req, p.served[k].resp)
    && sent == |Encode(req)| && p.stdin == []
    && (if p.loop.Replying? then p.loop.rest != [] else p.loop.buf == [])
    && got + p.stdout + Pending(p.loop) == Encode(p.served[k].resp)
  }

  /** Request k of p was asked by thread t and answered with resp, and p is idle again. */
  predicate Delivered(p: Proc, t: nat, req: Frame, k: nat, resp: Frame) {
    && AtBoundary(p)
    && |p.asked| == k + 1 && p.asked[k] == Ask(t, req)
    && p.served[k] == Exchange(req, resp)
  }

  /** No result handed out so far came from exchange k of worker inc or a later one. */
  ghost predicate AnswersBelow(answers: seq<Answer>, inc: nat, k: nat) {
    forall n :: 0 <= n < |answers| && answers[n].inc == inc ==> answers[n].k < k
  }

  predicate SlotAtBoundary(slot: Option<nat>, procs: seq<Proc>) {
    slot.Some? ==> slot.value < |procs| && AtBoundary(procs[slot.value])
  }

  predicate ExitedIn(slot: Option<nat>, procs: seq<Proc>) {
    slot.Some? && slot.value < |procs| && procs[slot.value].status == Exited
  }

  /** A spawn fills an empty slot or replaces a worker seen to have exited. */
  predicate MayOverwrite(slot: Option<nat>, procs: seq<Proc>, pc: Pc) {
    ChildOf(pc).Some? ==>
      || (slot.None? && !(pc.Serving? && pc.stage.Replace?))
      || (ExitedIn(slot, procs) && (if pc.Serving? then pc.stage.Replace? else pc.Holding? && pc.errand.Ensure?))
  }

  predicate ChildAtBoundary(child: Option<Child>, procs: seq<Proc>) {
    child.Some? && !child.value.Wanted? ==> child.value.inc < |procs| && AtBoundary(procs[child.value.inc])
  }

  /** What the thread t that serves a request knows about the worker in the slot. */
  ghost predicate ServingInv(slot: Option<nat>, procs: seq<Proc>, answers: seq<Answer>, t: nat, req: Frame,
                             stage: Stage)
  {
    match stage
    case Writing(inc, k, sent) =>
      && slot == Some(inc) && inc < |procs|
      && InFlight(procs[inc], t, req, k, sent, [])
      && AnswersBelow(answers, inc, k)
    case Reading(inc, k, got) =>
      && slot == Some(inc) && inc < |procs| && Sendable(req)
      && InFlight(procs[inc], t, req, k, |Encode(req)|, got)
      && AnswersBelow(answers, inc, k)
    case Answered(inc, k, resp) =>
      ReplyInv(slot, procs, answers, t, req, inc, k, resp)
    case Abandoning(_) => slot.Some? && slot.value < |procs|
    case Probing => slot.Some? && SlotAtBoundary(slot, procs)
    case Sending => slot.Some? && SlotAtBoundary(slot, procs)
    case _ => SlotAtBoundary(slot, procs)
  }

  ghost predicate ReplyInv(slot: Option<nat>, procs: seq<Proc>, answers: seq<Answer>, t: nat, req: Frame,
                           inc: nat, k: nat, resp: Frame) {
    && slot == Some(inc) && inc < |procs|
    && Delivered(procs[inc], t, req, k, resp)
    && AnswersBelow(answers, inc, k)
  }

  /** What the lock holder t at pc knows. */
  ghost predicate HolderInv(slot: Option<nat>, procs: seq<Proc>, answers: seq<Answer>, t: nat, pc: Pc) {
    && MayOverwrite(slot, procs, pc)
    && ChildAtBoundary(ChildOf(pc), procs)
    && (if pc.Serving? then ServingInv(slot, procs, answers, t, pc.job.req, pc.stage)
        else pc.Holding? ==> ErrandInv(slot, procs, answers, t, pc.errand))
  }

  ghost predicate ErrandInv(slot: Option<nat>, procs: seq<Proc>, answers: seq<Answer>, t: nat, errand: Errand) {
    && (if errand.Unlocking? && errand.out.Reply? then
          ReplyInv(slot, procs, answers, t, errand.out.req, errand.out.inc, errand.out.k, errand.out.resp)
        else SlotAtBoundary(slot, procs))
    && (errand.EnsureZero? ==> ExitedIn(slot, procs))
  }

  ghost predicate SlotInv(s: State) {
    if s.cells.lock.None? then SlotAtBoundary(s.cells.slot, s.procs)
    else s.cells.lock.value < |s.threads| ==>
      HolderInv(s.cells.slot, s.procs, s.answers, s.cells.lock.value, s.threads[s.cells.lock.value])
  }

  // ---------------------------------------------------------------- ownership

  function Is(o: Option<nat>, i: nat): nat {
    if o == Some(i) then 1 else 0
  }

  /** In how many places worker i is: the slot, a thread's hands, cleanup, replaced. */
  function Places(s: State, i: nat): nat {
    Is(s.cells.slot, i) + Hands(s.threads, i) + s.handed[i] + s.replaced[i]
  }

  ghost predicate PlacesInv(s: State) {
    forall i: nat :: Places(s, i) == if i < |s.procs| then 1 else 0
  }

  ghost predicate ReplacedOk(replaced: multiset<nat>, procs: seq<Proc>) {
    forall i: nat :: replaced[i] > 0 ==> i < |procs| && procs[i].status == Exited
  }

  ghost predicate ReplacedInv(s: State) { ReplacedOk(s.replaced, s.procs) }

  // ---------------------------------------------------------------- pid cell

  function HolderChild(s: State): Option<Child> {
    if Holder(s).Some? then ChildOf(Holder(s).value) else None
  }

  /** One while a child exists whose pid is not yet stored. */
  function Unstored(child: Option<Child>): nat {
    if child.Some? && child.value.Spawned? then 1 else 0
  }

  /** Pids are stored in spawn order, and a worker on its way to the slot is the last one spawned. */
  predicate FreshOk(child: Option<Child>, spawned: nat, stored: nat) {
    && stored + Unstored(child) == spawned
    && (child.Some? && !child.value.Wanted? ==> child.value.inc + 1 == spawned)
  }

  predicate FreshInv(s: State) { FreshOk(HolderChild(s), |s.procs|, s.stored) }

  ghost predicate ProcInv(s: State) {
    forall i :: 0 <= i < |s.procs| ==> s.procs[i].pid != 0
  }

  /** The pid cell is 0 or holds the pid that was stored last. */
  predicate PidOk(pid: nat, pub: Option<nat>, procs: seq<Proc>, stored: nat) {
    && (pub.None? ==> pid == 0)
    && (pub.Some? ==> pub.value + 1 == stored <= |procs| && pid == procs[pub.value].pid)
  }

  predicate PidInv(s: State) { PidOk(s.cells.pid, s.pub, s.procs, s.stored) }

  /** Pids are taken after the observed deadline, and from later and later workers. */
  ghost predicate KillsOk(kills: seq<Kill>, pub: Option<nat>, procs: seq<Proc>, stored: nat) {
    && stored <= |procs|
    && (forall n :: 0 <= n < |kills| ==>
          && kills[n].inc.Some?
          && kills[n].inc.value < stored
          && (pub.Some? ==> kills[n].inc.value < pub.value)
          && kills[n].pid == procs[kills[n].inc.value].pid
          && kills[n].due <= kills[n].at)
    && (forall m, n :: 0 <= m < n < |kills| ==> kills[m].inc != kills[n].inc)
  }

  ghost predicate KillInv(s: State) { KillsOk(s.kills, s.pub, s.procs, s.stored) }

  // ---------------------------------------------------------------- results

  /** Result n of request() is what its worker answered to the request its thread wrote. */
  predicate Genuine(procs: seq<Proc>, a: Answer) {
    && a.inc < |procs|
    && a.k < |procs[a.inc].asked| && procs[a.inc].asked[a.k] == Ask(a.thread, a.req)
    && a.k < |procs[a.inc].served| && procs[a.inc].served[a.k] == Exchange(a.req, a.resp)
  }

  ghost predicate AnswersOk(answers: seq<Answer>, procs: seq<Proc>) {
    && (forall n :: 0 <= n < |answers| ==> Genuine(procs, answers[n]))
    && (forall m, n :: 0 <= m < n < |answers| ==>
          answers[m].inc != answers[n].inc || answers[m].k != answers[n].k)
  }

  ghost predicate AnswerInv(s: State) { AnswersOk(s.answers, s.procs) }

  predicate WaitInv(s: State) { s.cells.waiting == Waiters(s.threads) }

  /** The discipline of the lock, and what its holder knows. */
  ghost predicate Control(s: State) {
    LockInv(s) && TrackInv(s) && DeadlineInv(s) && SlotInv(s) && FreshInv(s)
  }

  /** What the histories record. */
  ghost predicate Books(s: State) {
    PlacesInv(s) && ReplacedInv(s) && ProcInv(s) && PidInv(s) && KillInv(s) && AnswerInv(s) && WaitInv(s)
  }

  ghost predicate Inv(s: State) { Control(s) && Books(s) }
}
