/**
 Which process a pid names: no two live workers share one, and the published pid never names a
 worker that was cleaned up or overwritten.
 */
module SupervisorPids {
  import opened Wrappers
  import opened SupervisorModel
  import opened SupervisorInvariant
  import opened SupervisorProof
  import opened SupervisorTheorems
  import opened SupervisorExactly
  import opened SupervisorOthers

  // ---------------------------------------------------------------- live workers have different pids

  ghost predicate Distinct(procs: seq<Proc>) {
    forall i, j :: 0 <= i < j < |procs| && procs[i].status != Exited && procs[j].status != Exited ==>
      procs[i].pid != procs[j].pid
  }

  /** Workers keep their pids, and none comes back to life. */
  predicate Ages(procs: seq<Proc>, procs': seq<Proc>) {
    && |procs'| == |procs|
    && forall i :: 0 <= i < |procs| ==>
         procs'[i].pid == procs[i].pid && (procs[i].status == Exited ==> procs'[i].status == Exited)
  }

  lemma ServeAges(s: State, t: nat, step: ServeStep)
    requires Thread(s, t) && s.threads[t].Serving? && ServeNext(s, t, step).Some?
    ensures Ages(s.procs, ServeNext(s, t, step).value.procs)
  {
  }

  lemma IoAges(s: State, t: nat, step: IoStep)
    requires Thread(s, t) && s.threads[t].Serving? && IoNext(s, t, step).Some?
    ensures Ages(s.procs, IoNext(s, t, step).value.procs)
  {
  }

  lemma WorkerAges(s: State, i: nat, step: WorkerStep)
    requires i < |s.procs| && ProcNext(s.procs[i], step).Some?
    ensures Ages(s.procs, SetProc(s, i, ProcNext(s.procs[i], step).value).procs)
  {
  }

  lemma SpawnDistinct(s: State, t: nat, step: SpawnStep)
    requires Distinct(s.procs) && Thread(s, t) && SpawnNext(s, t, step).Some?
    ensures Distinct(SpawnNext(s, t, step).value.procs)
  {
  }

  lemma NextDistinct(s: State, a: Action)
    requires Distinct(s.procs) && Next(s, a).Some?
    ensures Distinct(Next(s, a).value.procs)
  {
    match a
    case Tick =>
    case ByWait(t, step) => assert Next(s, a).value.procs == s.procs;
    case ByHold(t, step) => assert Next(s, a).value.procs == s.procs;
    case ByServe(t, step) => ServeAges(s, t, step);
    case ByIo(t, step) => IoAges(s, t, step);
    case BySpawn(t, step) => SpawnDistinct(s, t, step);
    case ByRestart(t, step) => assert Next(s, a).value.procs == s.procs;
    case ByWorker(i, step) => WorkerAges(s, i, step);
  }

  /** So a pid that is killed names at most one live worker. */
  lemma {:induction false} LivePidsDiffer(s: State, timeout: nat, clients: nat, acts: seq<Action>)
    requires Reached(s, timeout, clients, acts)
    ensures forall i, j :: 0 <= i < j < |s.procs| && s.procs[i].status != Exited && s.procs[j].status != Exited ==>
              s.procs[i].pid != s.procs[j].pid
    decreases |acts|
  {
    if acts != [] {
      var n := |acts| - 1;
      var m := Run(Init(timeout, clients), acts[..n]).value;
      LivePidsDiffer(m, timeout, clients, acts[..n]);
      NextDistinct(m, acts[n]);
    }
  }

  // ---------------------------------------------------------------- cleaned up means forgotten

  /** A worker that was taken out of the slot and is still in the hands of its thread; and whether
      that thread has forgotten its pid. */
  function TakenBy(pc: Pc): Option<nat> {
    if pc.RestartZero? || pc.RestartHand? then pc.prev
    else if pc.Serving? && (pc.stage.AbandonZero? || pc.stage.AbandonHand?) then pc.stage.prev
    else None
  }

  predicate HasForgotten(pc: Pc) { pc.RestartHand? || (pc.Serving? && pc.stage.AbandonHand?) }

  /** Worker i was spawned no later than the last one, or while that is on its way, than the one before. */
  predicate Older(i: nat, s: State) { i + 1 + One(OnTheWay(s)) <= |s.procs| }

  /** What is out of the slot was in it before the worker that is on its way. */
  ghost predicate OldInv(s: State) {
    && (forall t :: 0 <= t < |s.threads| && TakenBy(s.threads[t]).Some? ==> Older(TakenBy(s.threads[t]).value, s))
    && (forall i :: i in s.handed || i in s.replaced ==> Older(i, s))
  }

  /** The pid published is not that of such a worker, once it has been forgotten. */
  ghost predicate ForgotInv(s: State) {
    s.pub.Some? ==>
      && (forall t :: 0 <= t < |s.threads| && HasForgotten(s.threads[t]) ==> TakenBy(s.threads[t]) != s.pub)
      && s.pub.value !in s.handed && s.pub.value !in s.replaced
  }

  /** How a step of thread t may move what is out of the slot. */
  predicate Takes(s: State, s': State, t: nat)
    requires Thread(s, t) && Thread(s', t)
  {
    var pc, pc' := s.threads[t], s'.threads[t];
    && (TakenBy(pc') == None || TakenBy(pc') == TakenBy(pc)
        || (TakenBy(pc') == s.cells.slot && !OnTheWay(s')))
    && (s'.handed == s.handed || (HasForgotten(pc) && s'.handed == Add(s.handed, TakenBy(pc))))
    && (s'.replaced == s.replaced
        || (s'.replaced == Add(s.replaced, s.cells.slot) && OnTheWay(s) && !StoringPid(s) && !OnTheWay(s')))
    && (s'.pub == s.pub || s'.pub == None || (OnTheWay(s') && !HasForgotten(pc') && s'.pub == Some(|s'.procs| - 1)
        && s'.handed == s.handed && s'.replaced == s.replaced && |s'.procs| > 0))
    && (HasForgotten(pc') && !HasForgotten(pc) ==> s'.pub == None)
    && (HasForgotten(pc') && HasForgotten(pc) ==> TakenBy(pc') == TakenBy(pc))
    && (s'.replaced != s.replaced ==> s'.pub == s.pub && s'.handed == s.handed)
  }

  lemma WaitTakes(s: State, t: nat, step: WaitStep)
    requires LockInv(s) && Thread(s, t) && WaitNext(s, t, step).Some?
    ensures Thread(WaitNext(s, t, step).value, t) && Takes(s, WaitNext(s, t, step).value, t)
  {
  }

  lemma HoldTakes(s: State, t: nat, step: HoldStep)
    requires LockInv(s) && Thread(s, t) && s.threads[t].Holding? && HoldNext(s, t, step).Some?
    ensures Thread(HoldNext(s, t, step).value, t) && Takes(s, HoldNext(s, t, step).value, t)
  {
  }

  lemma ServeTakes(s: State, t: nat, step: ServeStep)
    requires LockInv(s) && Thread(s, t) && s.threads[t].Serving? && ServeNext(s, t, step).Some?
    ensures Thread(ServeNext(s, t, step).value, t) && Takes(s, ServeNext(s, t, step).value, t)
  {
  }

  lemma IoTakes(s: State, t: nat, step: IoStep)
    requires LockInv(s) && Thread(s, t) && s.threads[t].Serving? && IoNext(s, t, step).Some?
    ensures Thread(IoNext(s, t, step).value, t) && Takes(s, IoNext(s, t, step).value, t)
  {
  }

  lemma SpawnTakes(s: State, t: nat, step: SpawnStep)
    requires LockInv(s) && FreshInv(s) && Thread(s, t) && SpawnNext(s, t, step).Some?
    ensures Thread(SpawnNext(s, t, step).value, t) && Takes(s, SpawnNext(s, t, step).value, t)
  {
  }

  lemma RestartTakes(s: State, t: nat, step: RestartStep)
    requires LockInv(s) && Thread(s, t) && RestartNext(s, t, step).Some?
    ensures Thread(RestartNext(s, t, step).value, t) && Takes(s, RestartNext(s, t, step).value, t)
  {
  }

  /** Both invariants follow from that. */
  lemma TakesKeepsOld(s: State, s': State, t: nat)
    requires OldInv(s) && SlotLast(s) && SlotLast(s') && SlotStep(s, s')
    requires Thread(s, t) && Thread(s', t) && OnlyMoves(s, s', t) && Takes(s, s', t)
    ensures OldInv(s')
  {
    forall u | 0 <= u < |s'.threads| && TakenBy(s'.threads[u]).Some?
      ensures Older(TakenBy(s'.threads[u]).value, s')
    {
      assert u != t ==> s'.threads[u] == s.threads[u];
    }
  }

  lemma BagsForgotten(s: State, s': State, t: nat)
    requires OldInv(s') && ForgotInv(s) && PidInv(s) && FreshInv(s) && SlotLast(s)
    requires Thread(s, t) && Thread(s', t) && OnlyMoves(s, s', t) && Takes(s, s', t)
    ensures s'.pub.Some? ==> s'.pub.value !in s'.handed && s'.pub.value !in s'.replaced
  {
    if s'.pub.Some? && s'.pub != s.pub {
      assert !Older(s'.pub.value, s');
    }
  }

  lemma TakesKeepsForgot(s: State, s': State, t: nat)
    requires OldInv(s) && OldInv(s') && ForgotInv(s) && PidInv(s) && FreshInv(s) && SlotLast(s)
    requires Thread(s, t) && Thread(s', t) && OnlyMoves(s, s', t) && Takes(s, s', t)
    ensures ForgotInv(s')
  {
    BagsForgotten(s, s', t);
    if s'.pub.Some? {
      forall u | 0 <= u < |s'.threads| && HasForgotten(s'.threads[u]) ensures TakenBy(s'.threads[u]) != s'.pub {
        assert u != t ==> s'.threads[u] == s.threads[u];
      }
    }
  }

  ghost predicate PidsInv(s: State) { SlotLast(s) && OldInv(s) && ForgotInv(s) }

  lemma MoveKeepsPids(s: State, s': State, t: nat)
    requires FreshInv(s) && PidInv(s) && PidsInv(s) && SlotLast(s') && SlotStep(s, s')
    requires Thread(s, t) && Thread(s', t) && OnlyMoves(s, s', t) && Takes(s, s', t)
    ensures PidsInv(s')
  {
    TakesKeepsOld(s, s', t);
    TakesKeepsForgot(s, s', t);
  }

  lemma NextPids(s: State, a: Action)
    requires Inv(s) && PidsInv(s) && Next(s, a).Some?
    ensures PidsInv(Next(s, a).value)
  {
    NextSlotLast(s, a);
    NextSlotStep(s, a);
    NextTakes(s, a);
  }

  lemma NextTakes(s: State, a: Action)
    requires LockInv(s) && FreshInv(s) && PidInv(s) && PidsInv(s) && Next(s, a).Some?
    requires SlotLast(Next(s, a).value) && SlotStep(s, Next(s, a).value)
    ensures PidsInv(Next(s, a).value)
  {
    var s' := Next(s, a).value;
    match a
    case Tick =>
    case ByWait(t, step) => WaitMovesOne(s, t, step); WaitTakes(s, t, step); MoveKeepsPids(s, s', t);
    case ByHold(t, step) => HoldMovesOne(s, t, step); HoldTakes(s, t, step); MoveKeepsPids(s, s', t);
    case ByServe(t, step) => ServeMovesOne(s, t, step); ServeTakes(s, t, step); MoveKeepsPids(s, s', t);
    case ByIo(t, step) => IoMovesOne(s, t, step); IoTakes(s, t, step); MoveKeepsPids(s, s', t);
    case BySpawn(t, step) => SpawnMovesOne(s, t, step); SpawnTakes(s, t, step); MoveKeepsPids(s, s', t);
    case ByRestart(t, step) => RestartMovesOne(s, t, step); RestartTakes(s, t, step); MoveKeepsPids(s, s', t);
    case ByWorker(i, step) =>
  }

  lemma {:induction false} RunPids(timeout: nat, clients: nat, acts: seq<Action>)
    requires Run(Init(timeout, clients), acts).Some?
    ensures PidsInv(Run(Init(timeout, clients), acts).value)
    decreases |acts|
  {
    if acts != [] {
      var n := |acts| - 1;
      RunKeeps(timeout, clients, acts[..n]);
      RunPids(timeout, clients, acts[..n]);
      NextPids(Run(Init(timeout, clients), acts[..n]).value, acts[n]);
    }
  }

  /** While a pid is published, it is that of a worker that was neither handed to cleanup nor
      overwritten, so none that was is ever killed by its pid. */
  lemma {:induction false} CleanedIsForgotten(s: State, timeout: nat, clients: nat, acts: seq<Action>)
    requires Reached(s, timeout, clients, acts) && s.cells.pid != 0
    ensures var last := if StoringPid(s) then |s.procs| - 2 else |s.procs| - 1;
            0 <= last && s.cells.pid == s.procs[last].pid && last !in s.handed && last !in s.replaced
  {
    RunKeeps(timeout, clients, acts);
    RunPids(timeout, clients, acts);
    LastIsClean(s);
  }

  lemma LastIsClean(s: State)
    requires FreshInv(s) && PidInv(s) && ForgotInv(s) && s.cells.pid != 0
    ensures var last := if StoringPid(s) then |s.procs| - 2 else |s.procs| - 1;
            0 <= last && s.cells.pid == s.procs[last].pid && last !in s.handed && last !in s.replaced
  {
  }
}
