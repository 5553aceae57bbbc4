/** Every action preserves the invariant; one group of lemmas for each kind of step. */
module SupervisorProof {
  import opened Wrappers
  import opened IpcFrame
  import opened SupervisorModel
  import opened SupervisorInvariant
  import opened SupervisorPipes

  // ---------------------------------------------------------------- places

  /** The ways in which a step of thread t moves workers between places. */
  predicate Balanced(s: State, s': State, t: nat)
    requires Thread(s, t) && Thread(s', t)
  {
    var h, h' := HandOf(s.threads[t]), HandOf(s'.threads[t]);
    if |s'.procs| != |s.procs| then   // a child is born into the hands of t
      && |s'.procs| == |s.procs| + 1 && h == None && h' == Some(|s.procs|)
      && s'.cells.slot == s.cells.slot && s'.handed == s.handed && s'.replaced == s.replaced
    else if h' == h then   // nothing moves
      s'.cells.slot == s.cells.slot && s'.handed == s.handed && s'.replaced == s.replaced
    else if h'.Some? then   // the slot is emptied into the hands of t
      && h == None && h' == s.cells.slot && s'.cells.slot == None
      && s'.handed == s.handed && s'.replaced == s.replaced
    else   // the hands of t are emptied into the slot, or into cleanup
      || (s'.cells.slot == h && s'.handed == s.handed && s'.replaced == Add(s.replaced, s.cells.slot))
      || (s'.cells.slot == s.cells.slot && s'.handed == Add(s.handed, h) && s'.replaced == s.replaced)
  }

  lemma PlacesMove(s: State, s': State, t: nat)
    requires PlacesInv(s) && Thread(s, t) && Thread(s', t) && s'.threads == s.threads[t := s'.threads[t]]
    requires Balanced(s, s', t)
    ensures PlacesInv(s')
  {
    forall i: nat ensures Places(s', i) == if i < |s'.procs| then 1 else 0 {
      assert Places(s, i) == if i < |s.procs| then 1 else 0;
      HandsMove(s.threads, t, s'.threads[t], i);
    }
  }

  // ---------------------------------------------------------------- histories of a worker

  /** Workers come to be, and their histories grow; nothing of them is forgotten. */
  ghost predicate Grown(procs: seq<Proc>, procs': seq<Proc>) {
    |procs| <= |procs'|
    && forall i :: 0 <= i < |procs| ==> procs[i].asked <= procs'[i].asked && procs[i].served <= procs'[i].served
  }

  lemma AnswersGrow(answers: seq<Answer>, procs: seq<Proc>, procs': seq<Proc>)
    requires AnswersOk(answers, procs) && Grown(procs, procs')
    ensures AnswersOk(answers, procs')
  {
  }

  // ---------------------------------------------------------------- one thread moves

  /** Only thread t moved, and time did not. */
  predicate OneMoved(s: State, s': State, t: nat)
    requires Thread(s, t) && Thread(s', t)
  {
    s'.threads == s.threads[t := s'.threads[t]] && s'.now == s.now && s'.timeout == s.timeout
  }

  /** A thread that waits for no other deadline than before. */
  predicate SameDeadline(pc: Pc, pc': Pc) {
    && (UntrackedJob(pc').Some? ==> UntrackedJob(pc') == UntrackedJob(pc))
    && !pc'.Stuck?
  }

  lemma DeadlineMoves(s: State, s': State, t: nat)
    requires DeadlineInv(s) && Thread(s, t) && Thread(s', t)
    requires OneMoved(s, s', t) && SameDeadline(s.threads[t], s'.threads[t])
    ensures DeadlineInv(s')
  {
    forall u | 0 <= u < |s'.threads|
      ensures UntrackedJob(s'.threads[u]).Some? ==> InTime(UntrackedJob(s'.threads[u]).value, s'.now + s'.timeout)
      ensures s'.threads[u].Stuck? ==> s'.threads[u].due <= s'.now
    {
      assert UntrackedJob(s.threads[u]).Some? ==> InTime(UntrackedJob(s.threads[u]).value, s.now + s.timeout);
    }
  }

  /** What was waiting is counted as before, but for thread t. */
  lemma WaitsMove(s: State, s': State, t: nat)
    requires WaitInv(s) && Thread(s, t) && Thread(s', t) && s'.threads == s.threads[t := s'.threads[t]]
    requires if IsWaiting(s.threads[t]) == IsWaiting(s'.threads[t]) then s'.cells.waiting == s.cells.waiting
             else if IsWaiting(s'.threads[t]) then s'.cells.waiting == s.cells.waiting + 1
             else s.cells.waiting > 0 ==> s'.cells.waiting == s.cells.waiting - 1
    ensures WaitInv(s')
  {
    WaitersMove(s.threads, t, s'.threads[t]);
  }

  /** Steps that leave every pid alone, published, taken or a worker's. */
  lemma PidsSame(s: State, s': State)
    requires ProcInv(s) && PidInv(s) && KillInv(s)
    requires s'.cells.pid == s.cells.pid && s'.pub == s.pub && s'.kills == s.kills && s'.stored == s.stored
    requires |s'.procs| == |s.procs| && forall i :: 0 <= i < |s.procs| ==> s'.procs[i].pid == s.procs[i].pid
    ensures ProcInv(s') && PidInv(s') && KillInv(s')
  {
  }

  /** Steps that at most zero the published pid. */
  lemma PidsZeroed(s: State, s': State)
    requires ProcInv(s) && PidInv(s) && KillInv(s)
    requires s'.procs == s.procs && s'.kills == s.kills && s'.stored == s.stored
    requires (s'.cells.pid == s.cells.pid && s'.pub == s.pub) || (s'.cells.pid == 0 && s'.pub == None)
    ensures ProcInv(s') && PidInv(s') && KillInv(s')
  {
  }

  /** What thread t knows after its step, as the holder of the lock, or of the slot it leaves behind. */
  ghost predicate Kept(s: State, t: nat) {
    && Thread(s, t)
    && if HoldsLock(s.threads[t]) then HolderInv(s.cells.slot, s.procs, s.answers, t, s.threads[t])
       else SlotAtBoundary(s.cells.slot, s.procs)
  }

  // ---------------------------------------------------------------- before the lock, giving up, recovering

  lemma WaitLock(s: State, t: nat, step: WaitStep)
    requires LockInv(s)
    requires Thread(s, t) && WaitNext(s, t, step).Some?
    ensures LockInv(WaitNext(s, t, step).value)
  {
  }

  lemma WaitFresh(s: State, t: nat, step: WaitStep)
    requires LockInv(s) && FreshInv(s)
    requires Thread(s, t) && WaitNext(s, t, step).Some?
    ensures FreshInv(WaitNext(s, t, step).value)
  {
  }

  lemma WaitTrack(s: State, t: nat, step: WaitStep)
    requires LockInv(s) && TrackInv(s) && DeadlineInv(s)
    requires Thread(s, t) && WaitNext(s, t, step).Some?
    ensures TrackInv(WaitNext(s, t, step).value)
  {
  }

  lemma WaitDeadline(s: State, t: nat, step: WaitStep)
    requires LockInv(s) && TrackInv(s) && DeadlineInv(s)
    requires Thread(s, t) && WaitNext(s, t, step).Some?
    ensures DeadlineInv(WaitNext(s, t, step).value)
  {
    if !step.Begin? && !step.Inspect? && !step.SwapPid? {
      DeadlineMoves(s, WaitNext(s, t, step).value, t);
    }
  }

  lemma WaitPids(s: State, t: nat, step: WaitStep)
    requires ProcInv(s) && PidInv(s) && KillInv(s) && DeadlineInv(s)
    requires Thread(s, t) && WaitNext(s, t, step).Some?
    ensures var s' := WaitNext(s, t, step).value; ProcInv(s') && PidInv(s') && KillInv(s')
  {
  }

  lemma WaitReplaced(s: State, t: nat, step: WaitStep)
    requires ReplacedInv(s)
    requires Thread(s, t) && WaitNext(s, t, step).Some?
    ensures ReplacedInv(WaitNext(s, t, step).value)
  {
  }

  lemma WaitSlot(s: State, t: nat, step: WaitStep)
    requires LockInv(s) && SlotInv(s)
    requires Thread(s, t) && WaitNext(s, t, step).Some?
    ensures SlotInv(WaitNext(s, t, step).value)
  {
  }

  lemma WaitPlaces(s: State, t: nat, step: WaitStep)
    requires Thread(s, t) && WaitNext(s, t, step).Some?
    ensures var s' := WaitNext(s, t, step).value;
            Thread(s', t) && Balanced(s, s', t)
  {
  }

  lemma WaitPlaced(s: State, t: nat, step: WaitStep)
    requires PlacesInv(s)
    requires Thread(s, t) && WaitNext(s, t, step).Some?
    ensures PlacesInv(WaitNext(s, t, step).value)
  {
    WaitPlaces(s, t, step);
    PlacesMove(s, WaitNext(s, t, step).value, t);
  }

  lemma WaitWaits(s: State, t: nat, step: WaitStep)
    requires WaitInv(s)
    requires Thread(s, t) && WaitNext(s, t, step).Some?
    ensures WaitInv(WaitNext(s, t, step).value)
  {
    WaitsMove(s, WaitNext(s, t, step).value, t);
  }

  lemma WaitAnswers(s: State, t: nat, step: WaitStep)
    requires LockInv(s) && SlotInv(s) && AnswerInv(s)
    requires Thread(s, t) && WaitNext(s, t, step).Some?
    ensures AnswerInv(WaitNext(s, t, step).value)
  {
  }

  // ---------------------------------------------------------------- under the lock, without a tracker

  lemma HoldLock(s: State, t: nat, step: HoldStep)
    requires LockInv(s)
    requires Thread(s, t) && s.threads[t].Holding? && HoldNext(s, t, step).Some?
    ensures LockInv(HoldNext(s, t, step).value)
  {
  }

  lemma HoldFresh(s: State, t: nat, step: HoldStep)
    requires LockInv(s) && FreshInv(s)
    requires Thread(s, t) && s.threads[t].Holding? && HoldNext(s, t, step).Some?
    ensures FreshInv(HoldNext(s, t, step).value)
  {
  }

  lemma HoldTrack(s: State, t: nat, step: HoldStep)
    requires LockInv(s) && TrackInv(s) && DeadlineInv(s)
    requires Thread(s, t) && s.threads[t].Holding? && HoldNext(s, t, step).Some?
    ensures TrackInv(HoldNext(s, t, step).value)
  {
  }

  lemma HoldDeadline(s: State, t: nat, step: HoldStep)
    requires LockInv(s) && TrackInv(s) && DeadlineInv(s)
    requires Thread(s, t) && s.threads[t].Holding? && HoldNext(s, t, step).Some?
    ensures DeadlineInv(HoldNext(s, t, step).value)
  {
    DeadlineMoves(s, HoldNext(s, t, step).value, t);
  }

  lemma HoldPids(s: State, t: nat, step: HoldStep)
    requires ProcInv(s) && PidInv(s) && KillInv(s) && DeadlineInv(s)
    requires Thread(s, t) && s.threads[t].Holding? && HoldNext(s, t, step).Some?
    ensures var s' := HoldNext(s, t, step).value; ProcInv(s') && PidInv(s') && KillInv(s')
  {
    PidsZeroed(s, HoldNext(s, t, step).value);
  }

  lemma HoldReplaced(s: State, t: nat, step: HoldStep)
    requires ReplacedInv(s)
    requires Thread(s, t) && s.threads[t].Holding? && HoldNext(s, t, step).Some?
    ensures ReplacedInv(HoldNext(s, t, step).value)
  {
  }

  lemma TrackKeeps(s: State, t: nat, step: HoldStep)
    requires Thread(s, t) && s.threads[t].Holding? && HoldNext(s, t, step).Some? && (step.StopWaiting? || step.Track?)
    requires HolderInv(s.cells.slot, s.procs, s.answers, t, s.threads[t]) && AnswerInv(s)
    ensures Kept(HoldNext(s, t, step).value, t)
  {
  }

  lemma EnsureKeeps(s: State, t: nat, step: HoldStep)
    requires Thread(s, t) && s.threads[t].Holding? && HoldNext(s, t, step).Some?
    requires step.EnsureCheck? || step.EnsureFail? || step.EnsurePid?
    requires HolderInv(s.cells.slot, s.procs, s.answers, t, s.threads[t]) && AnswerInv(s)
    ensures Kept(HoldNext(s, t, step).value, t)
  {
  }

  lemma ReleaseKeeps(s: State, t: nat, step: HoldStep)
    requires Thread(s, t) && s.threads[t].Holding? && HoldNext(s, t, step).Some? && step.Release?
    requires HolderInv(s.cells.slot, s.procs, s.answers, t, s.threads[t]) && AnswerInv(s)
    ensures Kept(HoldNext(s, t, step).value, t)
  {
  }

  lemma HoldSlot(s: State, t: nat, step: HoldStep)
    requires Thread(s, t) && s.threads[t].Holding? && HoldNext(s, t, step).Some?
    requires HolderInv(s.cells.slot, s.procs, s.answers, t, s.threads[t]) && AnswerInv(s)
    ensures Kept(HoldNext(s, t, step).value, t)
  {
    match step
    case StopWaiting => TrackKeeps(s, t, step);
    case Track => TrackKeeps(s, t, step);
    case EnsureCheck => EnsureKeeps(s, t, step);
    case EnsureFail => EnsureKeeps(s, t, step);
    case EnsurePid => EnsureKeeps(s, t, step);
    case Release(_) => ReleaseKeeps(s, t, step);
  }

  lemma HoldPlaces(s: State, t: nat, step: HoldStep)
    requires Thread(s, t) && s.threads[t].Holding? && HoldNext(s, t, step).Some?
    ensures var s' := HoldNext(s, t, step).value;
            Thread(s', t) && Balanced(s, s', t)
  {
  }

  lemma HoldPlaced(s: State, t: nat, step: HoldStep)
    requires PlacesInv(s)
    requires Thread(s, t) && s.threads[t].Holding? && HoldNext(s, t, step).Some?
    ensures PlacesInv(HoldNext(s, t, step).value)
  {
    HoldPlaces(s, t, step);
    PlacesMove(s, HoldNext(s, t, step).value, t);
  }

  lemma HoldWaits(s: State, t: nat, step: HoldStep)
    requires WaitInv(s)
    requires Thread(s, t) && s.threads[t].Holding? && HoldNext(s, t, step).Some?
    ensures WaitInv(HoldNext(s, t, step).value)
  {
    WaitsMove(s, HoldNext(s, t, step).value, t);
  }

  lemma HoldAnswers(s: State, t: nat, step: HoldStep)
    requires LockInv(s) && SlotInv(s) && AnswerInv(s)
    requires Thread(s, t) && s.threads[t].Holding? && HoldNext(s, t, step).Some?
    ensures AnswerInv(HoldNext(s, t, step).value)
  {
  }

  // ---------------------------------------------------------------- under the lock, with a tracker

  lemma ServeLock(s: State, t: nat, step: ServeStep)
    requires LockInv(s)
    requires Thread(s, t) && s.threads[t].Serving? && ServeNext(s, t, step).Some?
    ensures LockInv(ServeNext(s, t, step).value)
  {
  }

  lemma ServeFresh(s: State, t: nat, step: ServeStep)
    requires LockInv(s) && FreshInv(s)
    requires Thread(s, t) && s.threads[t].Serving? && ServeNext(s, t, step).Some?
    ensures FreshInv(ServeNext(s, t, step).value)
  {
  }

  lemma ServeTrack(s: State, t: nat, step: ServeStep)
    requires LockInv(s) && TrackInv(s) && DeadlineInv(s)
    requires Thread(s, t) && s.threads[t].Serving? && ServeNext(s, t, step).Some?
    ensures TrackInv(ServeNext(s, t, step).value)
  {
  }

  lemma ServeDeadline(s: State, t: nat, step: ServeStep)
    requires LockInv(s) && TrackInv(s) && DeadlineInv(s)
    requires Thread(s, t) && s.threads[t].Serving? && ServeNext(s, t, step).Some?
    ensures DeadlineInv(ServeNext(s, t, step).value)
  {
    DeadlineMoves(s, ServeNext(s, t, step).value, t);
  }

  lemma ServePids(s: State, t: nat, step: ServeStep)
    requires ProcInv(s) && PidInv(s) && KillInv(s) && DeadlineInv(s)
    requires Thread(s, t) && s.threads[t].Serving? && ServeNext(s, t, step).Some?
    ensures var s' := ServeNext(s, t, step).value; ProcInv(s') && PidInv(s') && KillInv(s')
  {
    PidsZeroed(s, ServeNext(s, t, step).value);
  }

  lemma ServeReplaced(s: State, t: nat, step: ServeStep)
    requires ReplacedInv(s)
    requires Thread(s, t) && s.threads[t].Serving? && ServeNext(s, t, step).Some?
    ensures ReplacedInv(ServeNext(s, t, step).value)
  {
  }

  lemma LookSlotKeeps(s: State, t: nat, step: ServeStep)
    requires Thread(s, t) && s.threads[t].Serving? && ServeNext(s, t, step).Some? && step.LookSlot?
    requires HolderInv(s.cells.slot, s.procs, s.answers, t, s.threads[t]) && AnswerInv(s)
    ensures Kept(ServeNext(s, t, step).value, t)
  {
  }

  lemma ProbeKeeps(s: State, t: nat, step: ServeStep)
    requires Thread(s, t) && s.threads[t].Serving? && ServeNext(s, t, step).Some? && (step.Probe? || step.ProbeFail?)
    requires HolderInv(s.cells.slot, s.procs, s.answers, t, s.threads[t]) && AnswerInv(s)
    ensures Kept(ServeNext(s, t, step).value, t)
  {
  }

  lemma AbandonSlotKeeps(s: State, t: nat, step: ServeStep)
    requires Thread(s, t) && s.threads[t].Serving? && ServeNext(s, t, step).Some? && step.AbandonSlot?
    requires HolderInv(s.cells.slot, s.procs, s.answers, t, s.threads[t]) && AnswerInv(s)
    ensures Kept(ServeNext(s, t, step).value, t)
  {
  }

  lemma AbandonPidKeeps(s: State, t: nat, step: ServeStep)
    requires Thread(s, t) && s.threads[t].Serving? && ServeNext(s, t, step).Some?
    requires step.AbandonPid? || step.AbandonCleanup?
    requires HolderInv(s.cells.slot, s.procs, s.answers, t, s.threads[t]) && AnswerInv(s)
    ensures Kept(ServeNext(s, t, step).value, t)
  {
  }

  lemma UntrackKeeps(s: State, t: nat, step: ServeStep)
    requires Thread(s, t) && s.threads[t].Serving? && ServeNext(s, t, step).Some? && step.Untrack?
    requires HolderInv(s.cells.slot, s.procs, s.answers, t, s.threads[t]) && AnswerInv(s)
    ensures Kept(ServeNext(s, t, step).value, t)
  {
  }

  lemma ServeSlot(s: State, t: nat, step: ServeStep)
    requires Thread(s, t) && s.threads[t].Serving? && ServeNext(s, t, step).Some?
    requires HolderInv(s.cells.slot, s.procs, s.answers, t, s.threads[t]) && AnswerInv(s)
    ensures Kept(ServeNext(s, t, step).value, t)
  {
    match step
    case LookSlot => LookSlotKeeps(s, t, step);
    case Probe => ProbeKeeps(s, t, step);
    case ProbeFail => ProbeKeeps(s, t, step);
    case AbandonSlot => AbandonSlotKeeps(s, t, step);
    case AbandonPid => AbandonPidKeeps(s, t, step);
    case AbandonCleanup => AbandonPidKeeps(s, t, step);
    case Untrack => UntrackKeeps(s, t, step);
  }

  lemma ServePlaces(s: State, t: nat, step: ServeStep)
    requires Thread(s, t) && s.threads[t].Serving? && ServeNext(s, t, step).Some?
    ensures var s' := ServeNext(s, t, step).value;
            Thread(s', t) && Balanced(s, s', t)
  {
  }

  lemma ServePlaced(s: State, t: nat, step: ServeStep)
    requires PlacesInv(s)
    requires Thread(s, t) && s.threads[t].Serving? && ServeNext(s, t, step).Some?
    ensures PlacesInv(ServeNext(s, t, step).value)
  {
    ServePlaces(s, t, step);
    PlacesMove(s, ServeNext(s, t, step).value, t);
  }

  lemma ServeWaits(s: State, t: nat, step: ServeStep)
    requires WaitInv(s)
    requires Thread(s, t) && s.threads[t].Serving? && ServeNext(s, t, step).Some?
    ensures WaitInv(ServeNext(s, t, step).value)
  {
    WaitsMove(s, ServeNext(s, t, step).value, t);
  }

  lemma ServeAnswers(s: State, t: nat, step: ServeStep)
    requires LockInv(s) && SlotInv(s) && AnswerInv(s)
    requires Thread(s, t) && s.threads[t].Serving? && ServeNext(s, t, step).Some?
    ensures AnswerInv(ServeNext(s, t, step).value)
  {
  }

  // ---------------------------------------------------------------- writing the request, reading the reply

  lemma IoLock(s: State, t: nat, step: IoStep)
    requires LockInv(s)
    requires Thread(s, t) && s.threads[t].Serving? && IoNext(s, t, step).Some?
    ensures LockInv(IoNext(s, t, step).value)
  {
  }

  lemma IoFresh(s: State, t: nat, step: IoStep)
    requires LockInv(s) && FreshInv(s)
    requires Thread(s, t) && s.threads[t].Serving? && IoNext(s, t, step).Some?
    ensures FreshInv(IoNext(s, t, step).value)
  {
  }

  lemma IoTrack(s: State, t: nat, step: IoStep)
    requires LockInv(s) && TrackInv(s) && DeadlineInv(s)
    requires Thread(s, t) && s.threads[t].Serving? && IoNext(s, t, step).Some?
    ensures TrackInv(IoNext(s, t, step).value)
  {
  }

  lemma IoDeadline(s: State, t: nat, step: IoStep)
    requires LockInv(s) && TrackInv(s) && DeadlineInv(s)
    requires Thread(s, t) && s.threads[t].Serving? && IoNext(s, t, step).Some?
    ensures DeadlineInv(IoNext(s, t, step).value)
  {
    DeadlineMoves(s, IoNext(s, t, step).value, t);
  }

  lemma IoPids(s: State, t: nat, step: IoStep)
    requires ProcInv(s) && PidInv(s) && KillInv(s) && DeadlineInv(s)
    requires Thread(s, t) && s.threads[t].Serving? && IoNext(s, t, step).Some?
    ensures var s' := IoNext(s, t, step).value; ProcInv(s') && PidInv(s') && KillInv(s')
  {
    PidsSame(s, IoNext(s, t, step).value);
  }

  lemma IoReplaced(s: State, t: nat, step: IoStep)
    requires ReplacedInv(s)
    requires Thread(s, t) && s.threads[t].Serving? && IoNext(s, t, step).Some?
    ensures ReplacedInv(IoNext(s, t, step).value)
  {
  }

  lemma SendSlot(s: State, t: nat, step: IoStep)
    requires Thread(s, t) && s.threads[t].Serving? && IoNext(s, t, step).Some? && step.Send?
    requires HolderInv(s.cells.slot, s.procs, s.answers, t, s.threads[t]) && AnswerInv(s)
    requires s.threads[t].job.req.kind == KIND_REQUEST
    ensures Kept(IoNext(s, t, step).value, t)
  {
    if Sendable(s.threads[t].job.req) {
      AskBegins(Installed(s).value, t, s.threads[t].job.req);
    }
  }

  lemma WriteSlot(s: State, t: nat, step: IoStep)
    requires Thread(s, t) && s.threads[t].Serving? && IoNext(s, t, step).Some? && step.Write?
    requires HolderInv(s.cells.slot, s.procs, s.answers, t, s.threads[t]) && AnswerInv(s)
    requires s.threads[t].job.req.kind == KIND_REQUEST
    ensures Kept(IoNext(s, t, step).value, t)
  {
    var pc := s.threads[t];
    WriteKeeps(s.procs[pc.stage.inc], t, pc.job.req, pc.stage.k, pc.stage.sent, step.n);
  }

  lemma WriteEndSlot(s: State, t: nat, step: IoStep)
    requires Thread(s, t) && s.threads[t].Serving? && IoNext(s, t, step).Some? && (step.WriteFail? || step.WriteDone?)
    requires HolderInv(s.cells.slot, s.procs, s.answers, t, s.threads[t]) && AnswerInv(s)
    ensures Kept(IoNext(s, t, step).value, t)
  {
  }

  lemma ReadSlot(s: State, t: nat, step: IoStep)
    requires Thread(s, t) && s.threads[t].Serving? && IoNext(s, t, step).Some?
    requires step.Read? || step.ReadFail? || step.ReadReject?
    requires HolderInv(s.cells.slot, s.procs, s.answers, t, s.threads[t]) && AnswerInv(s)
    requires s.threads[t].job.req.kind == KIND_REQUEST
    ensures Kept(IoNext(s, t, step).value, t)
  {
    var pc := s.threads[t];
    if step.Read? {
      ReadKeeps(s.procs[pc.stage.inc], t, pc.job.req, pc.stage.k, pc.stage.got, step.n);
    }
  }

  lemma ReadDoneSlot(s: State, t: nat, step: IoStep)
    requires Thread(s, t) && s.threads[t].Serving? && IoNext(s, t, step).Some? && step.ReadDone?
    requires HolderInv(s.cells.slot, s.procs, s.answers, t, s.threads[t]) && AnswerInv(s)
    requires s.threads[t].job.req.kind == KIND_REQUEST
    ensures Kept(IoNext(s, t, step).value, t)
  {
    var pc := s.threads[t];
    ReadEnds(s.procs[pc.stage.inc], t, pc.job.req, pc.stage.k, pc.stage.got);
  }

  lemma IoSlot(s: State, t: nat, step: IoStep)
    requires Thread(s, t) && s.threads[t].Serving? && IoNext(s, t, step).Some?
    requires HolderInv(s.cells.slot, s.procs, s.answers, t, s.threads[t]) && AnswerInv(s)
    requires s.threads[t].job.req.kind == KIND_REQUEST
    ensures Kept(IoNext(s, t, step).value, t)
  {
    match step
    case Send => SendSlot(s, t, step);
    case Write(_) => WriteSlot(s, t, step);
    case WriteFail(_) => WriteEndSlot(s, t, step);
    case WriteDone => WriteEndSlot(s, t, step);
    case Read(_) => ReadSlot(s, t, step);
    case ReadFail(_) => ReadSlot(s, t, step);
    case ReadReject => ReadSlot(s, t, step);
    case ReadDone => ReadDoneSlot(s, t, step);
  }

  lemma IoPlaces(s: State, t: nat, step: IoStep)
    requires Thread(s, t) && s.threads[t].Serving? && IoNext(s, t, step).Some?
    ensures var s' := IoNext(s, t, step).value;
            Thread(s', t) && Balanced(s, s', t)
  {
  }

  lemma IoPlaced(s: State, t: nat, step: IoStep)
    requires PlacesInv(s)
    requires Thread(s, t) && s.threads[t].Serving? && IoNext(s, t, step).Some?
    ensures PlacesInv(IoNext(s, t, step).value)
  {
    IoPlaces(s, t, step);
    PlacesMove(s, IoNext(s, t, step).value, t);
  }

  lemma IoWaits(s: State, t: nat, step: IoStep)
    requires WaitInv(s)
    requires Thread(s, t) && s.threads[t].Serving? && IoNext(s, t, step).Some?
    ensures WaitInv(IoNext(s, t, step).value)
  {
    WaitsMove(s, IoNext(s, t, step).value, t);
  }

  lemma IoAnswers(s: State, t: nat, step: IoStep)
    requires AnswerInv(s)
    requires Thread(s, t) && s.threads[t].Serving? && IoNext(s, t, step).Some?
    ensures AnswerInv(IoNext(s, t, step).value)
  {
    AnswersGrow(s.answers, s.procs, IoNext(s, t, step).value.procs);
  }

  // ---------------------------------------------------------------- spawning a worker into the slot

  lemma SpawnLock(s: State, t: nat, step: SpawnStep)
    requires LockInv(s)
    requires Thread(s, t) && SpawnNext(s, t, step).Some?
    ensures LockInv(SpawnNext(s, t, step).value)
  {
  }

  lemma SpawnFresh(s: State, t: nat, step: SpawnStep)
    requires LockInv(s) && FreshInv(s)
    requires Thread(s, t) && SpawnNext(s, t, step).Some?
    ensures FreshInv(SpawnNext(s, t, step).value)
  {
  }

  lemma SpawnTrack(s: State, t: nat, step: SpawnStep)
    requires LockInv(s) && TrackInv(s) && DeadlineInv(s)
    requires Thread(s, t) && SpawnNext(s, t, step).Some?
    ensures TrackInv(SpawnNext(s, t, step).value)
  {
  }

  lemma SpawnDeadline(s: State, t: nat, step: SpawnStep)
    requires LockInv(s) && TrackInv(s) && DeadlineInv(s)
    requires Thread(s, t) && SpawnNext(s, t, step).Some?
    ensures DeadlineInv(SpawnNext(s, t, step).value)
  {
    DeadlineMoves(s, SpawnNext(s, t, step).value, t);
  }

  lemma SpawnPids(s: State, t: nat, step: SpawnStep)
    requires LockInv(s) && FreshInv(s) && ProcInv(s) && PidInv(s) && KillInv(s) && DeadlineInv(s)
    requires Thread(s, t) && SpawnNext(s, t, step).Some?
    ensures var s' := SpawnNext(s, t, step).value; ProcInv(s') && PidInv(s') && KillInv(s')
  {
  }

  lemma SpawnReplaced(s: State, t: nat, step: SpawnStep)
    requires LockInv(s) && SlotInv(s) && ReplacedInv(s)
    requires Thread(s, t) && SpawnNext(s, t, step).Some?
    ensures ReplacedInv(SpawnNext(s, t, step).value)
  {
  }

  lemma SpawnKeeps(s: State, t: nat, step: SpawnStep)
    requires Thread(s, t) && SpawnNext(s, t, step).Some? && step.Spawn?
    requires HolderInv(s.cells.slot, s.procs, s.answers, t, s.threads[t]) && AnswerInv(s)
    ensures Kept(SpawnNext(s, t, step).value, t)
  {
  }

  lemma SpawnFailKeeps(s: State, t: nat, step: SpawnStep)
    requires Thread(s, t) && SpawnNext(s, t, step).Some? && step.SpawnFail?
    requires HolderInv(s.cells.slot, s.procs, s.answers, t, s.threads[t]) && AnswerInv(s)
    ensures Kept(SpawnNext(s, t, step).value, t)
  {
  }

  lemma PublishKeeps(s: State, t: nat, step: SpawnStep)
    requires Thread(s, t) && SpawnNext(s, t, step).Some? && step.Publish?
    requires HolderInv(s.cells.slot, s.procs, s.answers, t, s.threads[t]) && AnswerInv(s)
    ensures Kept(SpawnNext(s, t, step).value, t)
  {
  }

  lemma PutInSlotKeeps(s: State, t: nat, step: SpawnStep)
    requires Thread(s, t) && SpawnNext(s, t, step).Some? && step.PutInSlot?
    requires HolderInv(s.cells.slot, s.procs, s.answers, t, s.threads[t]) && AnswerInv(s)
    ensures Kept(SpawnNext(s, t, step).value, t)
  {
  }

  lemma SpawnSlot(s: State, t: nat, step: SpawnStep)
    requires Thread(s, t) && SpawnNext(s, t, step).Some?
    requires HolderInv(s.cells.slot, s.procs, s.answers, t, s.threads[t]) && AnswerInv(s)
    ensures Kept(SpawnNext(s, t, step).value, t)
  {
    match step
    case Spawn(_) => SpawnKeeps(s, t, step);
    case SpawnFail => SpawnFailKeeps(s, t, step);
    case Publish => PublishKeeps(s, t, step);
    case PutInSlot => PutInSlotKeeps(s, t, step);
  }

  lemma SpawnPlaces(s: State, t: nat, step: SpawnStep)
    requires Thread(s, t) && SpawnNext(s, t, step).Some?
    ensures var s' := SpawnNext(s, t, step).value;
            Thread(s', t) && Balanced(s, s', t)
  {
  }

  lemma SpawnPlaced(s: State, t: nat, step: SpawnStep)
    requires PlacesInv(s) && LockInv(s) && FreshInv(s)
    requires Thread(s, t) && SpawnNext(s, t, step).Some?
    ensures PlacesInv(SpawnNext(s, t, step).value)
  {
    SpawnPlaces(s, t, step);
    PlacesMove(s, SpawnNext(s, t, step).value, t);
  }

  lemma SpawnWaits(s: State, t: nat, step: SpawnStep)
    requires WaitInv(s)
    requires Thread(s, t) && SpawnNext(s, t, step).Some?
    ensures WaitInv(SpawnNext(s, t, step).value)
  {
    WaitsMove(s, SpawnNext(s, t, step).value, t);
  }

  lemma SpawnAnswers(s: State, t: nat, step: SpawnStep)
    requires LockInv(s) && SlotInv(s) && AnswerInv(s)
    requires Thread(s, t) && SpawnNext(s, t, step).Some?
    ensures AnswerInv(SpawnNext(s, t, step).value)
  {
  }

  // ---------------------------------------------------------------- the delayed restart

  lemma RestartLock(s: State, t: nat, step: RestartStep)
    requires LockInv(s)
    requires Thread(s, t) && RestartNext(s, t, step).Some?
    ensures LockInv(RestartNext(s, t, step).value)
  {
  }

  lemma RestartFresh(s: State, t: nat, step: RestartStep)
    requires LockInv(s) && FreshInv(s)
    requires Thread(s, t) && RestartNext(s, t, step).Some?
    ensures FreshInv(RestartNext(s, t, step).value)
  {
  }

  lemma RestartTrack(s: State, t: nat, step: RestartStep)
    requires LockInv(s) && TrackInv(s) && DeadlineInv(s)
    requires Thread(s, t) && RestartNext(s, t, step).Some?
    ensures TrackInv(RestartNext(s, t, step).value)
  {
  }

  lemma RestartDeadline(s: State, t: nat, step: RestartStep)
    requires LockInv(s) && TrackInv(s) && DeadlineInv(s)
    requires Thread(s, t) && RestartNext(s, t, step).Some?
    ensures DeadlineInv(RestartNext(s, t, step).value)
  {
    DeadlineMoves(s, RestartNext(s, t, step).value, t);
  }

  lemma RestartPids(s: State, t: nat, step: RestartStep)
    requires ProcInv(s) && PidInv(s) && KillInv(s) && DeadlineInv(s)
    requires Thread(s, t) && RestartNext(s, t, step).Some?
    ensures var s' := RestartNext(s, t, step).value; ProcInv(s') && PidInv(s') && KillInv(s')
  {
    PidsZeroed(s, RestartNext(s, t, step).value);
  }

  lemma RestartReplaced(s: State, t: nat, step: RestartStep)
    requires ReplacedInv(s)
    requires Thread(s, t) && RestartNext(s, t, step).Some?
    ensures ReplacedInv(RestartNext(s, t, step).value)
  {
  }

  lemma RestartSlot(s: State, t: nat, step: RestartStep)
    requires LockInv(s) && SlotInv(s)
    requires Thread(s, t) && RestartNext(s, t, step).Some?
    ensures SlotInv(RestartNext(s, t, step).value)
  {
  }

  lemma RestartPlaces(s: State, t: nat, step: RestartStep)
    requires Thread(s, t) && RestartNext(s, t, step).Some?
    ensures var s' := RestartNext(s, t, step).value;
            Thread(s', t) && Balanced(s, s', t)
  {
  }

  lemma RestartPlaced(s: State, t: nat, step: RestartStep)
    requires PlacesInv(s)
    requires Thread(s, t) && RestartNext(s, t, step).Some?
    ensures PlacesInv(RestartNext(s, t, step).value)
  {
    RestartPlaces(s, t, step);
    PlacesMove(s, RestartNext(s, t, step).value, t);
  }

  lemma RestartWaits(s: State, t: nat, step: RestartStep)
    requires WaitInv(s)
    requires Thread(s, t) && RestartNext(s, t, step).Some?
    ensures WaitInv(RestartNext(s, t, step).value)
  {
    WaitsMove(s, RestartNext(s, t, step).value, t);
  }

  lemma RestartAnswers(s: State, t: nat, step: RestartStep)
    requires LockInv(s) && SlotInv(s) && AnswerInv(s)
    requires Thread(s, t) && RestartNext(s, t, step).Some?
    ensures AnswerInv(RestartNext(s, t, step).value)
  {
  }

  // ---------------------------------------------------------------- workers and the clock

  /** A worker at a frame boundary can only end. */
  lemma IdleKeeps(p: Proc, step: WorkerStep)
    requires AtBoundary(p) && ProcNext(p, step).Some?
    ensures AtBoundary(ProcNext(p, step).value)
  {
  }

  lemma ProcGrows(p: Proc, step: WorkerStep)
    requires ProcNext(p, step).Some?
    ensures var p' := ProcNext(p, step).value;
            && p'.pid == p.pid && p'.asked == p.asked && p.served <= p'.served
            && p.status != Exited
            && (AtBoundary(p) ==> AtBoundary(p') && p'.served == p.served)
  {
    if AtBoundary(p) {
      IdleKeeps(p, step);
    }
  }

  lemma WorkerHolder(procs: seq<Proc>, slot: Option<nat>, answers: seq<Answer>, t: nat, pc: Pc,
                     i: nat, step: WorkerStep)
    requires i < |procs| && ProcNext(procs[i], step).Some?
    requires HolderInv(slot, procs, answers, t, pc)
    ensures HolderInv(slot, procs[i := ProcNext(procs[i], step).value], answers, t, pc)
  {
    ProcGrows(procs[i], step);
    if pc.Serving? {
      var req := pc.job.req;
      if pc.stage.Writing? && i == pc.stage.inc {
        WorkerKeeps(procs[i], t, req, pc.stage.k, pc.stage.sent, [], step);
      } else if pc.stage.Reading? && i == pc.stage.inc {
        WorkerKeeps(procs[i], t, req, pc.stage.k, |Encode(req)|, pc.stage.got, step);
      }
    }
  }

  lemma WorkerControl(s: State, i: nat, step: WorkerStep)
    requires Control(s) && i < |s.procs| && ProcNext(s.procs[i], step).Some?
    ensures Control(SetProc(s, i, ProcNext(s.procs[i], step).value))
  {
    ProcGrows(s.procs[i], step);
    if Holder(s).Some? {
      WorkerHolder(s.procs, s.cells.slot, s.answers, s.cells.lock.value, Holder(s).value, i, step);
    }
  }

  lemma WorkerBooks(s: State, i: nat, step: WorkerStep)
    requires Books(s) && i < |s.procs| && ProcNext(s.procs[i], step).Some?
    ensures Books(SetProc(s, i, ProcNext(s.procs[i], step).value))
  {
    var s' := SetProc(s, i, ProcNext(s.procs[i], step).value);
    ProcGrows(s.procs[i], step);
    AnswersGrow(s.answers, s.procs, s'.procs);
    PlacesSame(s, s');
    PidsSame(s, s');
  }

  // ---------------------------------------------------------------- every action

  /** From what the thread that moved knows to the invariant about the lock holder. */
  lemma SlotMoves(s: State, s': State, t: nat)
    requires LockInv(s) && LockInv(s') && Thread(s, t) && Thread(s', t) && HoldsLock(s.threads[t])
    requires s'.threads == s.threads[t := s'.threads[t]]
    requires Kept(s', t)
    ensures SlotInv(s')
  {
  }

  /** Steps that leave threads and ownership alone. */
  lemma PlacesSame(s: State, s': State)
    requires PlacesInv(s) && s'.threads == s.threads && |s'.procs| == |s.procs|
    requires s'.cells.slot == s.cells.slot && s'.handed == s.handed && s'.replaced == s.replaced
    ensures PlacesInv(s')
  {
    forall i: nat ensures Places(s', i) == if i < |s'.procs| then 1 else 0 {
      assert Places(s, i) == Places(s', i);
    }
  }

  lemma HoldSlotInv(s: State, t: nat, step: HoldStep)
    requires LockInv(s) && SlotInv(s) && TrackInv(s) && AnswerInv(s)
    requires Thread(s, t) && s.threads[t].Holding? && HoldNext(s, t, step).Some?
    ensures SlotInv(HoldNext(s, t, step).value)
  {
    HoldLock(s, t, step);
    HoldSlot(s, t, step);
    SlotMoves(s, HoldNext(s, t, step).value, t);
  }

  lemma ServeSlotInv(s: State, t: nat, step: ServeStep)
    requires LockInv(s) && SlotInv(s) && TrackInv(s) && AnswerInv(s)
    requires Thread(s, t) && s.threads[t].Serving? && ServeNext(s, t, step).Some?
    ensures SlotInv(ServeNext(s, t, step).value)
  {
    ServeLock(s, t, step);
    ServeSlot(s, t, step);
    SlotMoves(s, ServeNext(s, t, step).value, t);
  }

  lemma IoSlotInv(s: State, t: nat, step: IoStep)
    requires LockInv(s) && SlotInv(s) && TrackInv(s) && AnswerInv(s)
    requires Thread(s, t) && s.threads[t].Serving? && IoNext(s, t, step).Some?
    ensures SlotInv(IoNext(s, t, step).value)
  {
    IoLock(s, t, step);
    IoSlot(s, t, step);
    SlotMoves(s, IoNext(s, t, step).value, t);
  }

  lemma SpawnSlotInv(s: State, t: nat, step: SpawnStep)
    requires LockInv(s) && SlotInv(s) && TrackInv(s) && AnswerInv(s)
    requires Thread(s, t) && SpawnNext(s, t, step).Some?
    ensures SlotInv(SpawnNext(s, t, step).value)
  {
    SpawnLock(s, t, step);
    SpawnSlot(s, t, step);
    SlotMoves(s, SpawnNext(s, t, step).value, t);
  }

  lemma WaitControl(s: State, t: nat, step: WaitStep)
    requires Control(s) && AnswerInv(s) && Thread(s, t) && WaitNext(s, t, step).Some?
    ensures Control(WaitNext(s, t, step).value)
  {
    WaitLock(s, t, step);
    WaitFresh(s, t, step);
    WaitTrack(s, t, step);
    WaitDeadline(s, t, step);
    WaitSlot(s, t, step);
  }

  lemma WaitBooks(s: State, t: nat, step: WaitStep)
    requires Control(s) && Books(s) && Thread(s, t) && WaitNext(s, t, step).Some?
    ensures Books(WaitNext(s, t, step).value)
  {
    WaitPids(s, t, step);
    WaitReplaced(s, t, step);
    WaitWaits(s, t, step);
    WaitAnswers(s, t, step);
    WaitPlaced(s, t, step);
  }

  lemma HoldControl(s: State, t: nat, step: HoldStep)
    requires Control(s) && AnswerInv(s) && Thread(s, t) && s.threads[t].Holding? && HoldNext(s, t, step).Some?
    ensures Control(HoldNext(s, t, step).value)
  {
    HoldLock(s, t, step);
    HoldFresh(s, t, step);
    HoldTrack(s, t, step);
    HoldDeadline(s, t, step);
    HoldSlotInv(s, t, step);
  }

  lemma HoldBooks(s: State, t: nat, step: HoldStep)
    requires Control(s) && Books(s) && Thread(s, t) && s.threads[t].Holding? && HoldNext(s, t, step).Some?
    ensures Books(HoldNext(s, t, step).value)
  {
    HoldPids(s, t, step);
    HoldReplaced(s, t, step);
    HoldWaits(s, t, step);
    HoldAnswers(s, t, step);
    HoldPlaced(s, t, step);
  }

  lemma ServeControl(s: State, t: nat, step: ServeStep)
    requires Control(s) && AnswerInv(s) && Thread(s, t) && s.threads[t].Serving? && ServeNext(s, t, step).Some?
    ensures Control(ServeNext(s, t, step).value)
  {
    ServeLock(s, t, step);
    ServeFresh(s, t, step);
    ServeTrack(s, t, step);
    ServeDeadline(s, t, step);
    ServeSlotInv(s, t, step);
  }

  lemma ServeBooks(s: State, t: nat, step: ServeStep)
    requires Control(s) && Books(s) && Thread(s, t) && s.threads[t].Serving? && ServeNext(s, t, step).Some?
    ensures Books(ServeNext(s, t, step).value)
  {
    ServePids(s, t, step);
    ServeReplaced(s, t, step);
    ServeWaits(s, t, step);
    ServeAnswers(s, t, step);
    ServePlaced(s, t, step);
  }

  lemma IoControl(s: State, t: nat, step: IoStep)
    requires Control(s) && AnswerInv(s) && Thread(s, t) && s.threads[t].Serving? && IoNext(s, t, step).Some?
    ensures Control(IoNext(s, t, step).value)
  {
    IoLock(s, t, step);
    IoFresh(s, t, step);
    IoTrack(s, t, step);
    IoDeadline(s, t, step);
    IoSlotInv(s, t, step);
  }

  lemma IoBooks(s: State, t: nat, step: IoStep)
    requires Control(s) && Books(s) && Thread(s, t) && s.threads[t].Serving? && IoNext(s, t, step).Some?
    ensures Books(IoNext(s, t, step).value)
  {
    IoPids(s, t, step);
    IoReplaced(s, t, step);
    IoWaits(s, t, step);
    IoAnswers(s, t, step);
    IoPlaced(s, t, step);
  }

  lemma SpawnControl(s: State, t: nat, step: SpawnStep)
    requires Control(s) && AnswerInv(s) && Thread(s, t) && SpawnNext(s, t, step).Some?
    ensures Control(SpawnNext(s, t, step).value)
  {
    SpawnLock(s, t, step);
    SpawnFresh(s, t, step);
    SpawnTrack(s, t, step);
    SpawnDeadline(s, t, step);
    SpawnSlotInv(s, t, step);
  }

  lemma SpawnBooks(s: State, t: nat, step: SpawnStep)
    requires Control(s) && Books(s) && Thread(s, t) && SpawnNext(s, t, step).Some?
    ensures Books(SpawnNext(s, t, step).value)
  {
    SpawnPids(s, t, step);
    SpawnReplaced(s, t, step);
    SpawnWaits(s, t, step);
    SpawnAnswers(s, t, step);
    SpawnPlaced(s, t, step);
  }

  lemma RestartControl(s: State, t: nat, step: RestartStep)
    requires Control(s) && AnswerInv(s) && Thread(s, t) && RestartNext(s, t, step).Some?
    ensures Control(RestartNext(s, t, step).value)
  {
    RestartLock(s, t, step);
    RestartFresh(s, t, step);
    RestartTrack(s, t, step);
    RestartDeadline(s, t, step);
    RestartSlot(s, t, step);
  }

  lemma RestartBooks(s: State, t: nat, step: RestartStep)
    requires Control(s) && Books(s) && Thread(s, t) && RestartNext(s, t, step).Some?
    ensures Books(RestartNext(s, t, step).value)
  {
    RestartPids(s, t, step);
    RestartReplaced(s, t, step);
    RestartWaits(s, t, step);
    RestartAnswers(s, t, step);
    RestartPlaced(s, t, step);
  }

  lemma WaitKeeps(s: State, t: nat, step: WaitStep)
    requires Inv(s) && Next(s, ByWait(t, step)).Some?
    ensures Inv(Next(s, ByWait(t, step)).value)
  {
    WaitControl(s, t, step);
    WaitBooks(s, t, step);
  }

  lemma HoldKeeps(s: State, t: nat, step: HoldStep)
    requires Inv(s) && Next(s, ByHold(t, step)).Some?
    ensures Inv(Next(s, ByHold(t, step)).value)
  {
    HoldControl(s, t, step);
    HoldBooks(s, t, step);
  }

  lemma ServesKeep(s: State, t: nat, step: ServeStep)
    requires Inv(s) && Next(s, ByServe(t, step)).Some?
    ensures Inv(Next(s, ByServe(t, step)).value)
  {
    ServeControl(s, t, step);
    ServeBooks(s, t, step);
  }

  lemma IoKeeps(s: State, t: nat, step: IoStep)
    requires Inv(s) && Next(s, ByIo(t, step)).Some?
    ensures Inv(Next(s, ByIo(t, step)).value)
  {
    IoControl(s, t, step);
    IoBooks(s, t, step);
  }

  lemma SpawnsKeep(s: State, t: nat, step: SpawnStep)
    requires Inv(s) && Next(s, BySpawn(t, step)).Some?
    ensures Inv(Next(s, BySpawn(t, step)).value)
  {
    SpawnControl(s, t, step);
    SpawnBooks(s, t, step);
  }

  lemma RestartKeeps(s: State, t: nat, step: RestartStep)
    requires Inv(s) && Next(s, ByRestart(t, step)).Some?
    ensures Inv(Next(s, ByRestart(t, step)).value)
  {
    RestartControl(s, t, step);
    RestartBooks(s, t, step);
  }

  lemma WorkerStepKeeps(s: State, i: nat, step: WorkerStep)
    requires Inv(s) && Next(s, ByWorker(i, step)).Some?
    ensures Inv(Next(s, ByWorker(i, step)).value)
  {
    WorkerControl(s, i, step);
    WorkerBooks(s, i, step);
  }

  lemma TickKeeps(s: State)
    requires Inv(s) && Next(s, Tick).Some?
    ensures Inv(Next(s, Tick).value)
  {
    PlacesSame(s, Next(s, Tick).value);
  }

  /** Every action keeps the invariant. */
  lemma NextKeeps(s: State, a: Action)
    requires Inv(s) && Next(s, a).Some?
    ensures Inv(Next(s, a).value)
  {
    match a
    case Tick => TickKeeps(s);
    case ByWait(t, step) => WaitKeeps(s, t, step);
    case ByHold(t, step) => HoldKeeps(s, t, step);
    case ByServe(t, step) => ServesKeep(s, t, step);
    case ByIo(t, step) => IoKeeps(s, t, step);
    case BySpawn(t, step) => SpawnsKeep(s, t, step);
    case ByRestart(t, step) => RestartKeeps(s, t, step);
    case ByWorker(i, step) => WorkerStepKeeps(s, i, step);
  }

  lemma InitOk(timeout: nat, clients: nat)
    ensures Inv(Init(timeout, clients))
  {
    NobodyHolds(Init(timeout, clients).threads);
  }

  /** Every run from the initial state ends in a state that satisfies the invariant. */
  lemma {:induction false} RunKeeps(timeout: nat, clients: nat, acts: seq<Action>)
    requires Run(Init(timeout, clients), acts).Some?
    ensures Inv(Run(Init(timeout, clients), acts).value)
    decreases |acts|
  {
    if acts == [] {
      InitOk(timeout, clients);
    } else {
      var n := |acts| - 1;
      RunKeeps(timeout, clients, acts[..n]);
      NextKeeps(Run(Init(timeout, clients), acts[..n]).value, acts[n]);
    }
  }
}
