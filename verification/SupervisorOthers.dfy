/**
 What the other threads may do while one of them takes no step: the transition system keeps
 what WorkerObject lets them do in Meanwhile and MeanwhileUnlocked.
 */
module SupervisorOthers {
  import opened Wrappers
  import opened SupervisorModel
  import opened SupervisorInvariant
  import opened SupervisorProof
  import opened SupervisorTheorems
  import opened SupervisorExactly

  /** Thread t takes this step. */
  predicate Own(a: Action, t: nat) { !a.Tick? && !a.ByWorker? && a.t == t }

  predicate ByOthers(acts: seq<Action>, t: nat) {
    forall k :: 0 <= k < |acts| ==> !Own(acts[k], t)
  }

  lemma {:induction false} RunFrom(s: State, acts: seq<Action>)
    requires Inv(s) && Run(s, acts).Some?
    ensures Inv(Run(s, acts).value)
    decreases |acts|
  {
    if acts != [] {
      var n := |acts| - 1;
      RunFrom(s, acts[..n]);
      NextKeeps(Run(s, acts[..n]).value, acts[n]);
    }
  }

  // ---------------------------------------------------------------- while a thread has the lock

  /** What the holder t of the lock finds as it left it; of the installed worker no byte is read, and
      nothing is written to it. */
  predicate Untouched(s: State, s': State, t: nat) {
    && Thread(s, t) && Thread(s', t) && s'.threads[t] == s.threads[t]
    && s'.cells.lock == Some(t) == s.cells.lock
    && s'.cells.slot == s.cells.slot && s'.cells.current == s.cells.current
    && (Installed(s).Some? ==>
          && Installed(s').Some?
          && Installed(s).value.stdout <= Installed(s').value.stdout
          && Installed(s').value.asked == Installed(s).value.asked)
  }

  lemma WaitOfOthers(s: State, t: nat, u: nat, step: WaitStep)
    requires Thread(s, t) && s.cells.lock == Some(t) && u != t && Thread(s, u) && WaitNext(s, u, step).Some?
    ensures Untouched(s, WaitNext(s, u, step).value, t)
  {
  }

  lemma RestartOfOthers(s: State, t: nat, u: nat, step: RestartStep)
    requires Thread(s, t) && s.cells.lock == Some(t) && u != t && Thread(s, u) && RestartNext(s, u, step).Some?
    ensures Untouched(s, RestartNext(s, u, step).value, t)
  {
  }

  lemma StepOfWorker(s: State, t: nat, i: nat, step: WorkerStep)
    requires Thread(s, t) && s.cells.lock == Some(t) && i < |s.procs| && ProcNext(s.procs[i], step).Some?
    ensures Untouched(s, SetProc(s, i, ProcNext(s.procs[i], step).value), t)
  {
  }

  /** What only the holder of the lock does, no other thread does. */
  lemma NotTheHolder(s: State, t: nat, a: Action)
    requires LockInv(s) && s.cells.lock == Some(t) && Next(s, a).Some? && !Own(a, t)
    ensures a.Tick? || a.ByWait? || a.ByRestart? || a.ByWorker?
  {
  }

  lemma NextLocked(s: State, t: nat, a: Action)
    requires LockInv(s) && s.cells.lock == Some(t) && Next(s, a).Some? && !Own(a, t)
    ensures Untouched(s, Next(s, a).value, t)
  {
    NotTheHolder(s, t, a);
    match a
    case Tick =>
    case ByWait(u, step) => WaitOfOthers(s, t, u, step);
    case ByRestart(u, step) => RestartOfOthers(s, t, u, step);
    case ByWorker(i, step) => StepOfWorker(s, t, i, step);
  }

  lemma UntouchedThrough(s: State, m: State, s': State, t: nat)
    requires Untouched(s, m, t) && Untouched(m, s', t)
    ensures Untouched(s, s', t)
  {
  }

  lemma {:induction false} RunLocked(s: State, acts: seq<Action>, t: nat)
    requires Inv(s) && s.cells.lock == Some(t) && ByOthers(acts, t) && Run(s, acts).Some?
    ensures Untouched(s, Run(s, acts).value, t)
    decreases |acts|
  {
    if acts != [] {
      var n := |acts| - 1;
      var m := Run(s, acts[..n]).value;
      RunLocked(s, acts[..n], t);
      RunFrom(s, acts[..n]);
      NextLocked(m, t, acts[n]);
      UntouchedThrough(s, m, Run(s, acts).value, t);
    }
  }

  /** Whatever the others do, they leave the slot, the tracked request and what the installed worker
      has sent to the thread that has the lock. */
  lemma HolderIsAlone(s: State, timeout: nat, clients: nat, before: seq<Action>, acts: seq<Action>, t: nat)
    requires Reached(s, timeout, clients, before) && s.cells.lock == Some(t)
    requires ByOthers(acts, t) && Run(s, acts).Some?
    ensures Untouched(s, Run(s, acts).value, t)
  {
    RunKeeps(timeout, clients, before);
    RunLocked(s, acts, t);
  }

  // ---------------------------------------------------------------- while it does not

  /** How a step may change the slot, and who is on the way to it. */
  predicate SlotStep(s: State, s': State) {
    && |s.procs| <= |s'.procs|
    && (OnTheWay(s') ==> |s.procs| < |s'.procs| || OnTheWay(s))
    && (s'.cells.slot.Some? && s'.cells.slot != s.cells.slot ==>
          OnTheWay(s) && s'.cells.slot.value + 1 == |s.procs|)
  }

  lemma WaitSlotStep(s: State, t: nat, step: WaitStep)
    requires LockInv(s) && Thread(s, t) && WaitNext(s, t, step).Some?
    ensures SlotStep(s, WaitNext(s, t, step).value)
  {
  }

  lemma HoldSlotStep(s: State, t: nat, step: HoldStep)
    requires LockInv(s) && Thread(s, t) && s.threads[t].Holding? && HoldNext(s, t, step).Some?
    ensures SlotStep(s, HoldNext(s, t, step).value)
  {
  }

  lemma ServeSlotStep(s: State, t: nat, step: ServeStep)
    requires LockInv(s) && Thread(s, t) && s.threads[t].Serving? && ServeNext(s, t, step).Some?
    ensures SlotStep(s, ServeNext(s, t, step).value)
  {
  }

  lemma IoSlotStep(s: State, t: nat, step: IoStep)
    requires LockInv(s) && Thread(s, t) && s.threads[t].Serving? && IoNext(s, t, step).Some?
    ensures SlotStep(s, IoNext(s, t, step).value)
  {
  }

  lemma SpawnSlotStep(s: State, t: nat, step: SpawnStep)
    requires LockInv(s) && FreshInv(s) && Thread(s, t) && SpawnNext(s, t, step).Some?
    ensures SlotStep(s, SpawnNext(s, t, step).value)
  {
  }

  lemma RestartSlotStep(s: State, t: nat, step: RestartStep)
    requires LockInv(s) && Thread(s, t) && RestartNext(s, t, step).Some?
    ensures SlotStep(s, RestartNext(s, t, step).value)
  {
  }

  lemma NextSlotStep(s: State, a: Action)
    requires LockInv(s) && FreshInv(s) && Next(s, a).Some?
    ensures SlotStep(s, Next(s, a).value)
  {
    match a
    case Tick =>
    case ByWait(t, step) => WaitSlotStep(s, t, step);
    case ByHold(t, step) => HoldSlotStep(s, t, step);
    case ByServe(t, step) => ServeSlotStep(s, t, step);
    case ByIo(t, step) => IoSlotStep(s, t, step);
    case BySpawn(t, step) => SpawnSlotStep(s, t, step);
    case ByRestart(t, step) => RestartSlotStep(s, t, step);
    case ByWorker(i, step) =>
  }

  /** A worker that is found in the slot is the one that was there, or was never there before. */
  predicate OldOrNew(s: State, s': State) {
    s'.cells.slot.Some? ==>
      s'.cells.slot == s.cells.slot || s'.cells.slot.value + One(OnTheWay(s)) >= |s.procs|
  }

  /** ... and one that is on its way was on it before, or is new. */
  predicate WayOldOrNew(s: State, s': State) {
    |s.procs| <= |s'.procs| && (OnTheWay(s') && |s'.procs| == |s.procs| ==> OnTheWay(s))
  }

  lemma {:induction false} RunOldOrNew(s: State, acts: seq<Action>)
    requires Inv(s) && Run(s, acts).Some?
    ensures OldOrNew(s, Run(s, acts).value) && WayOldOrNew(s, Run(s, acts).value)
    decreases |acts|
  {
    if acts != [] {
      var n := |acts| - 1;
      RunOldOrNew(s, acts[..n]);
      RunFrom(s, acts[..n]);
      NextSlotStep(Run(s, acts[..n]).value, acts[n]);
    }
  }

  /** Only thread u moves. */
  predicate OnlyMoves(s: State, s': State, u: nat) {
    |s'.threads| == |s.threads| && forall v :: 0 <= v < |s.threads| && v != u ==> s'.threads[v] == s.threads[v]
  }

  lemma WaitMovesOne(s: State, u: nat, step: WaitStep)
    requires Thread(s, u) && WaitNext(s, u, step).Some?
    ensures OnlyMoves(s, WaitNext(s, u, step).value, u)
  {
  }

  lemma HoldMovesOne(s: State, u: nat, step: HoldStep)
    requires Thread(s, u) && s.threads[u].Holding? && HoldNext(s, u, step).Some?
    ensures OnlyMoves(s, HoldNext(s, u, step).value, u)
  {
  }

  lemma ServeMovesOne(s: State, u: nat, step: ServeStep)
    requires Thread(s, u) && s.threads[u].Serving? && ServeNext(s, u, step).Some?
    ensures OnlyMoves(s, ServeNext(s, u, step).value, u)
  {
  }

  lemma IoMovesOne(s: State, u: nat, step: IoStep)
    requires Thread(s, u) && s.threads[u].Serving? && IoNext(s, u, step).Some?
    ensures OnlyMoves(s, IoNext(s, u, step).value, u)
  {
  }

  lemma SpawnMovesOne(s: State, u: nat, step: SpawnStep)
    requires Thread(s, u) && SpawnNext(s, u, step).Some?
    ensures OnlyMoves(s, SpawnNext(s, u, step).value, u)
  {
  }

  lemma RestartMovesOne(s: State, u: nat, step: RestartStep)
    requires Thread(s, u) && RestartNext(s, u, step).Some?
    ensures OnlyMoves(s, RestartNext(s, u, step).value, u)
  {
  }

  lemma NextLeaves(s: State, t: nat, a: Action)
    requires Thread(s, t) && Next(s, a).Some? && !Own(a, t)
    ensures Thread(Next(s, a).value, t) && Next(s, a).value.threads[t] == s.threads[t]
  {
    match a
    case Tick =>
    case ByWait(u, step) => WaitMovesOne(s, u, step);
    case ByHold(u, step) => HoldMovesOne(s, u, step);
    case ByServe(u, step) => ServeMovesOne(s, u, step);
    case ByIo(u, step) => IoMovesOne(s, u, step);
    case BySpawn(u, step) => SpawnMovesOne(s, u, step);
    case ByRestart(u, step) => RestartMovesOne(s, u, step);
    case ByWorker(i, step) =>
  }

  lemma {:induction false} RunLeaves(s: State, acts: seq<Action>, t: nat)
    requires Thread(s, t) && ByOthers(acts, t) && Run(s, acts).Some?
    ensures Thread(Run(s, acts).value, t) && Run(s, acts).value.threads[t] == s.threads[t]
    decreases |acts|
  {
    if acts != [] {
      var n := |acts| - 1;
      RunLeaves(s, acts[..n], t);
      NextLeaves(Run(s, acts[..n]).value, t, acts[n]);
    }
  }

  /** Whatever the others do, a thread that comes back finds in the slot what was there or a worker
      that never was, no request tracked if the lock is free, and itself counted if it waits. */
  lemma WhatComesBack(s: State, timeout: nat, clients: nat, before: seq<Action>, acts: seq<Action>, t: nat)
    requires Reached(s, timeout, clients, before) && Thread(s, t)
    requires ByOthers(acts, t) && Run(s, acts).Some?
    ensures var s' := Run(s, acts).value;
            && Thread(s', t) && s'.threads[t] == s.threads[t]
            && OldOrNew(s, s')
            && (s'.cells.lock.None? ==> s'.cells.current.None?)
            && s'.cells.waiting >= One(IsWaiting(s.threads[t]))
  {
    var s' := Run(s, acts).value;
    RunKeeps(timeout, clients, before);
    RunFrom(s, acts);
    RunOldOrNew(s, acts);
    RunLeaves(s, acts, t);
    WaitersMove(s'.threads, t, s'.threads[t]);
  }
}
