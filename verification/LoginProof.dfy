/** What every run of the login keeps, and the theorems that follow. */
module LoginProof {
  import opened LoginModel

  // ---------------------------------------------------------------- the invariant

  predicate Alive(flow: Flow) { flow.Running? || flow.Parked? }

  /** Who is where, for each state of the login. */
  predicate ThreadsInv(s: State) {
    && (Busy(s.fields.state) <==> Alive(s.flow) || s.api.Harvesting?)
    && (s.fields.state == Awaiting2FA <==> s.flow.Parked? && !s.fields.submitted)
    && (s.api.Harvesting? || s.api.Wiping? ==> s.flow.NoThread?)
    && (s.api.Joining? ==> !Busy(s.fields.state))
    && (s.api.Joining? && s.api.call.RestoreCall? ==> s.fields.state == LoggedOut)
    && (s.fields.aborted <==> s.api.LogoutJoin? || s.api.Wiping?)
  }

  /** No waiter misses what it waits for. */
  predicate WakeInv(s: State) {
    && (s.flow.Parked? && Awoken(s.fields) ==> s.flow.notified)
    && (s.api.Settling? && s.fields.state != InProgress ==> s.api.notified)
  }

  predicate NoSecrets(f: Fields) { f.password == "" && f.code == "" && !f.submitted }

  predicate CompleteTokens(t: Tokens) { t.storefront != "" && t.devToken != "" && t.userToken != "" }

  /** What the fields hold in each state. */
  predicate DataInv(f: Fields) {
    && (!Busy(f.state) ==> NoSecrets(f))
    && (f.state == Authenticated <==> CompleteTokens(f.tokens))
    && (f.state != Authenticated ==> f.tokens == NO_TOKENS)
    && (f.state == Authenticated ==> f.appleId == f.tokens.appleId)
    && (f.state == Failed <==> f.lastError != "")
    && (f.state != Failed ==> f.lastErrorCode == 0)
    && (f.state == LoggedOut ==> f.appleId == "")
  }

  /** During a restore there is nothing that a failure would have to wipe. */
  predicate RestoreInv(s: State) { s.api.Harvesting? ==> NoSecrets(s.fields) && s.fields.appleId == "" }

  /** While a flow lives, the fields are those of the last attempt. */
  predicate AttemptInv(s: State) {
    Alive(s.flow) ==>
      && s.attempts != []
      && var a := s.attempts[|s.attempts| - 1];
         a == Attempt(s.fields.appleId, s.fields.password, if s.fields.submitted then [s.fields.code] else [])
  }

  predicate OneCodeEach(attempts: seq<Attempt>) {
    forall i :: 0 <= i < |attempts| ==> |attempts[i].codes| <= 1
  }

  /** Credentials that belong to one attempt: its id and password, and in the second-factor case
      its code if the flow is told that there is one. */
  predicate BelongsTo(h: Handed, a: Attempt) {
    && h.username == a.id
    && (h.needs2fa ==> if h.ok then |a.codes| == 1 && h.password == a.password + a.codes[0]
                       else h.password == a.password)
    && (!h.needs2fa ==> h.password == a.password && (h.ok <==> a.id != ""))
  }

  predicate HandedInv(handed: seq<Handed>, attempts: seq<Attempt>) {
    forall i :: 0 <= i < |handed| ==>
      handed[i].attempt < |attempts| && BelongsTo(handed[i], attempts[handed[i].attempt])
  }

  predicate Inv(s: State) {
    && ThreadsInv(s)
    && WakeInv(s)
    && DataInv(s.fields)
    && RestoreInv(s)
    && AttemptInv(s)
    && OneCodeEach(s.attempts)
    && HandedInv(s.handed, s.attempts)
  }

  // ---------------------------------------------------------------- every step keeps it

  /** An attempt that gains its code still owns what it was handed before. */
  lemma CodeKeepsHanded(handed: seq<Handed>, attempts: seq<Attempt>, code: string)
    requires attempts != [] && attempts[|attempts| - 1].codes == []
    requires OneCodeEach(attempts) && HandedInv(handed, attempts)
    ensures OneCodeEach(WithCode(attempts, code)) && HandedInv(handed, WithCode(attempts, code))
  {
    var after := WithCode(attempts, code);
    forall i | 0 <= i < |handed| ensures handed[i].attempt < |after| && BelongsTo(handed[i], after[handed[i].attempt]) {
      assert BelongsTo(handed[i], attempts[handed[i].attempt]);
    }
  }

  lemma StartKeeps(handed: seq<Handed>, attempts: seq<Attempt>, a: Attempt)
    requires a.codes == [] && OneCodeEach(attempts) && HandedInv(handed, attempts)
    ensures OneCodeEach(attempts + [a]) && HandedInv(handed, attempts + [a])
  {
    forall i | 0 <= i < |handed| ensures BelongsTo(handed[i], (attempts + [a])[handed[i].attempt]) {
      assert BelongsTo(handed[i], attempts[handed[i].attempt]);
    }
  }

  lemma ApiStepKeeps(s: State, step: Step)
    requires Inv(s) && Enabled(s, step) && !FlowStep(step)
    ensures Inv(Apply(s, step))
  {
    match step
    case ApiJoined =>
      if s.api.Joining? && s.api.call.StartCall? {
        StartKeeps(s.handed, s.attempts, Attempt(s.api.call.id, s.api.call.password, []));
      }
    case ApiSubmit(code) =>
      if s.fields.state == Awaiting2FA {
        CodeKeepsHanded(s.handed, s.attempts, code);
      }
    case _ =>
  }

  lemma GivenKeeps(s: State, needs2fa: bool, password: string, ok: bool)
    requires HandedInv(s.handed, s.attempts) && s.attempts != []
    requires BelongsTo(Handed(|s.attempts| - 1, needs2fa, s.fields.appleId, password, ok), s.attempts[|s.attempts| - 1])
    ensures HandedInv(Given(s, needs2fa, password, ok), s.attempts)
  {
    forall i | 0 <= i < |s.handed| ensures BelongsTo(s.handed[i], s.attempts[s.handed[i].attempt]) {
    }
  }

  lemma AskKeeps(s: State)
    requires Inv(s) && Enabled(s, FlowAsk)
    ensures Inv(Ask(s))
  {
    GivenKeeps(s, false, s.fields.password, s.fields.appleId != "");
  }

  lemma CollectKeeps(s: State)
    requires Inv(s) && Alive(s.flow) && LockFree(s)
    ensures Inv(Collect(s))
  {
    var f := s.fields;
    var code := !f.aborted && f.submitted;
    GivenKeeps(s, true, if code then f.password + f.code else f.password, code);
  }

  lemma AskTwofaKeeps(s: State)
    requires Inv(s) && Enabled(s, FlowAskTwofa)
    ensures Inv(AskTwofa(s))
  {
    if Awoken(s.fields) {
      CollectKeeps(s);
    }
  }

  lemma WakeKeeps(s: State, why: Wake)
    requires Inv(s) && Enabled(s, FlowWake(why))
    ensures Inv(WakeTwofa(s, why))
  {
    if Awoken(s.fields) || why.TimedOut? {
      CollectKeeps(s);
    }
  }

  lemma FailKeeps(s: State, message: string, errorCode: int)
    requires Inv(s) && Enabled(s, FlowFail(message, errorCode))
    ensures Inv(Fail(s, message, errorCode))
  {
  }

  lemma FlowHarvestKeeps(s: State, readings: Readings, now: nat)
    requires Inv(s) && Enabled(s, FlowHarvested(readings, now))
    ensures Inv(FlowHarvest(s, readings, now))
  {
    if HarvestAll(readings, s.fields.appleId).None? {
      FailKeeps(s, "token harvest failed after flow.run() succeeded", -5);
    }
  }

  lemma StepKeeps(s: State, step: Step)
    requires Inv(s) && Enabled(s, step)
    ensures Inv(Apply(s, step))
  {
    match step
    case FlowAsk => AskKeeps(s);
    case FlowAskTwofa => AskTwofaKeeps(s);
    case FlowWake(why) => WakeKeeps(s, why);
    case FlowHarvested(readings, now) => FlowHarvestKeeps(s, readings, now);
    case FlowFail(message, errorCode) => FailKeeps(s, message, errorCode);
    case FlowExit => assert Inv(s.(flow := Exited));
    case _ => ApiStepKeeps(s, step);
  }

  lemma {:induction false} RunKeeps(s: State, steps: seq<Step>)
    requires Inv(s) && Allowed(s, steps)
    ensures Inv(Run(s, steps))
    decreases |steps|
  {
    if steps != [] {
      StepKeeps(s, steps[0]);
      RunKeeps(Apply(s, steps[0]), steps[1..]);
    }
  }

  // ---------------------------------------------------------------- theorems

  /** A state of some run from the start. */
  ghost predicate Reachable(s: State) {
    exists steps :: Allowed(INIT, steps) && Run(INIT, steps) == s
  }

  lemma ReachableInv(s: State)
    requires Reachable(s)
    ensures Inv(s)
  {
    var steps :| Allowed(INIT, steps) && Run(INIT, steps) == s;
    RunKeeps(INIT, steps);
  }

  lemma StartIsReachable()
    ensures Reachable(INIT)
  {
    assert Allowed(INIT, []) && Run(INIT, []) == INIT;
  }

  lemma {:induction false} RunSnoc(s: State, steps: seq<Step>, step: Step)
    requires Allowed(s, steps) && Enabled(Run(s, steps), step)
    ensures Allowed(s, steps + [step]) && Run(s, steps + [step]) == Apply(Run(s, steps), step)
    decreases |steps|
  {
    var more := steps + [step];
    if steps == [] {
      assert more == [step] && more[1..] == [];
    } else {
      assert more[0] == steps[0] && more[1..] == steps[1..] + [step];
      RunSnoc(Apply(s, steps[0]), steps[1..], step);
    }
  }

  lemma StepIsReachable(s: State, step: Step)
    requires Reachable(s) && Enabled(s, step)
    ensures Reachable(Apply(s, step))
  {
    var steps :| Allowed(INIT, steps) && Run(INIT, steps) == s;
    RunSnoc(INIT, steps, step);
  }

  /** Whenever the flow is joined with mu_ held, it has left its last critical section: what it
      still has to do, needs no lock, and the join returns after it. */
  lemma JoinUnderLockEnds(s: State)
    requires Reachable(s) && s.api.Joining?
    ensures Enabled(s, ApiJoined) || (Enabled(s, FlowExit) && Enabled(Apply(s, FlowExit), ApiJoined))
    ensures forall step :: FlowStep(step) && Enabled(s, step) ==> step.FlowExit?
  {
    ReachableInv(s);
  }

  /** The call has returned, or a restore has got to its harvest. */
  predicate Returned(s: State) { s.api.Idle? || s.api.Harvesting? }

  /** Whichever steps are taken, in whatever order, at most n of them are taken before the call
      has returned; and until then there is one to take. */
  ghost predicate ReturnsWithin(s: State, n: nat)
    decreases n
  {
    || Returned(s)
    || (n > 0
        && (exists step :: Enabled(s, step))
        && (forall step :: Enabled(s, step) ==> ReturnsWithin(Apply(s, step), n - 1)))
  }

  /** Only the caller's own call is still to be done: no flow is alive, and a caller that waits
      for a settled state has one. */
  predicate OnlyTheCall(s: State) {
    !Returned(s) && !Alive(s.flow) && (s.api.Settling? ==> s.fields.state != InProgress)
  }

  /** How many steps that takes at most: the end of the thread, the join, the wiping. */
  function StepsToReturn(s: State): nat {
    (if s.flow.Exiting? then 1 else 0)
    + (if s.api.LogoutJoin? then 2 else if Returned(s) then 0 else 1)
  }

  lemma {:induction false} OnlyTheCallReturns(s: State, n: nat)
    requires Inv(s) && OnlyTheCall(s) && StepsToReturn(s) <= n
    ensures ReturnsWithin(s, n)
    decreases n
  {
    var next := if s.api.Wiping? then ApiWipe
                else if s.api.Settling? then ApiSettleWake(Notified)
                else if s.flow.Exiting? then FlowExit
                else ApiJoined;
    assert Enabled(s, next);
    forall step | Enabled(s, step) ensures ReturnsWithin(Apply(s, step), n - 1) {
      StepKeeps(s, step);
      CallGetsOn(s, step);
      if !Returned(Apply(s, step)) {
        OnlyTheCallReturns(Apply(s, step), n - 1);
      }
    }
  }

  /** Every step that can be taken then brings the call nearer to its end; none is an oracle's. */
  lemma CallGetsOn(s: State, step: Step)
    requires Inv(s) && OnlyTheCall(s) && Enabled(s, step)
    ensures var t := Apply(s, step); Returned(t) || (OnlyTheCall(t) && StepsToReturn(t) < StepsToReturn(s))
    ensures step.ApiJoined? || step.ApiWipe? || step.ApiSettleWake? || step.FlowExit?
  {
  }

  /** start_login, submit_2fa and logout return: once the Apple flow has ended, within three
      steps, under every schedule and without any timeout. */
  lemma CallsReturn(s: State)
    requires Reachable(s) && !Alive(s.flow) && (s.api.Settling? ==> s.fields.state != InProgress)
    ensures ReturnsWithin(s, 3)
  {
    ReachableInv(s);
    if !Returned(s) {
      OnlyTheCallReturns(s, 3);
    }
  }

  /** And nothing but the Apple flow can keep a logout from returning: while it joins, a parked
      flow can be woken, every wake-up sends it on its way, and it never parks again. */
  lemma LogoutNeverWaits(s: State)
    requires Reachable(s) && s.api.LogoutJoin?
    ensures s.flow.Parked? ==> Enabled(s, FlowWake(Notified))
    ensures forall step :: Enabled(s, step) && FlowStep(step) ==>
              Apply(s, step).api.LogoutJoin? && !Apply(s, step).flow.Parked?
    ensures forall step :: Enabled(s, step) && (step.FlowAskTwofa? || step.FlowWake?) ==>
              !LastHanded(Apply(s, step)).ok
  {
    ReachableInv(s);
  }

  function LastHanded(s: State): Handed {
    if s.handed == [] then Handed(0, true, "", "", false) else s.handed[|s.handed| - 1]
  }

  /** A caller that waits for a login to settle waits for a flow that can go on, or that was
      given its code. */
  lemma SettlingWaitsForAFlow(s: State)
    requires Reachable(s) && s.api.Settling? && s.fields.state == InProgress
    ensures s.flow.Running? || (s.flow.Parked? && s.fields.submitted && Enabled(s, FlowWake(Notified)))
  {
    ReachableInv(s);
  }

  /** A parked flow has not missed a code or an abort, and a waiting caller no settled state. */
  lemma NoLostWakeup(s: State)
    requires Reachable(s)
    ensures s.flow.Parked? && (s.fields.submitted || s.fields.aborted) ==> s.flow.notified
    ensures s.api.Settling? && s.fields.state != InProgress ==> s.api.notified
  {
    ReachableInv(s);
  }

  /** What the fields hold, wherever mu_ can be had. */
  lemma FieldsMatchState(s: State)
    requires Reachable(s)
    ensures var f := s.fields;
            && (f.state in {LoggedOut, Authenticated, Failed} ==> f.password == "" && f.code == "" && !f.submitted)
            && (f.state == Authenticated <==>
                  f.tokens.storefront != "" && f.tokens.devToken != "" && f.tokens.userToken != "")
            && (f.state != Authenticated ==> f.tokens == NO_TOKENS)
            && (f.state == Failed <==> f.lastError != "")
            && (f.state == LoggedOut ==> f == BLANK.(aborted := f.aborted))
  {
    ReachableInv(s);
  }

  /** The guards of public_snapshot hide nothing that is there: a snapshot shows the fields. */
  lemma SnapshotShowsTheFields(s: State)
    requires Reachable(s)
    ensures var f, snap := s.fields, SnapshotOf(s.fields);
            && Tokens(f.tokens.appleId, snap.storefront, snap.devToken, snap.userToken, snap.dsid, snap.loggedInAt)
               == f.tokens
            && snap.lastError == f.lastError && snap.lastErrorCode == f.lastErrorCode
            && snap.state == f.state && snap.appleId == f.appleId
  {
    ReachableInv(s);
  }

  /** Once a state that is not busy was read, locked or not, the flow leaves every field as it is;
      only the caller's own next call changes it. */
  lemma {:induction false} SettledFieldsStay(s: State, steps: seq<Step>)
    requires Inv(s) && !Busy(s.fields.state)
    requires Allowed(s, steps) && forall i :: 0 <= i < |steps| ==> FlowStep(steps[i])
    ensures Run(s, steps).fields == s.fields && Run(s, steps).handed == s.handed
    decreases |steps|
  {
    if steps != [] {
      StepKeeps(s, steps[0]);
      SettledFieldsStay(Apply(s, steps[0]), steps[1..]);
    }
  }

  /** What a flow is handed is its own attempt's id and password, followed, if it is told that
      there is a code, by the one code that was submitted in that attempt; and of all calls of
      submit_2fa during an attempt at most one succeeds. */
  lemma CredentialsAreTheAttempts(s: State, i: nat)
    requires Reachable(s) && i < |s.handed|
    ensures var h := s.handed[i];
            && h.attempt < |s.attempts|
            && var a := s.attempts[h.attempt];
               && |a.codes| <= 1
               && h.username == a.id
               && (h.needs2fa && h.ok ==> a.codes != [] && h.password == a.password + a.codes[0])
               && (!(h.needs2fa && h.ok) ==> h.password == a.password)
  {
    ReachableInv(s);
    assert BelongsTo(s.handed[i], s.attempts[s.handed[i].attempt]);
  }

  /** submit_2fa succeeds exactly while a flow waits for a code it does not have. */
  lemma SubmitSucceeds(s: State, code: string)
    requires Reachable(s) && s.api.Idle?
    ensures SubmitCode(s, code) != s <==> s.flow.Parked? && !s.fields.submitted
    ensures SubmitCode(s, code) != s ==>
              && SubmitCode(s, code).flow == Parked(true)
              && SubmitCode(s, code).fields.state == InProgress
              && s.attempts[|s.attempts| - 1].codes == []
              && SubmitCode(s, code).attempts[|s.attempts| - 1].codes == [code]
  {
    ReachableInv(s);
  }

  /** Steps that begin a login or a restore. */
  predicate Begins(step: Step) { step.ApiStart? || step.ApiRestore? }

  predicate LoggedOutNow(s: State) { s.fields == BLANK && s.flow.NoThread? }

  /** When logout returns, all is blank and no flow is left. */
  lemma LogoutWipes(s: State)
    requires Reachable(s) && s.api.Wiping?
    ensures LoggedOutNow(Apply(s, ApiWipe)) && Apply(s, ApiWipe).api.Idle?
  {
    ReachableInv(s);
  }

  /** From then on, and until a login or restore begins, no step but the abort flag of another
      logout changes a field, no code is accepted, and nothing is handed to any flow. */
  lemma {:induction false} LogoutIsFinal(s: State, steps: seq<Step>)
    requires s.fields == BLANK.(aborted := s.fields.aborted) && s.flow.NoThread?
    requires s.api.Idle? || s.api.LogoutJoin? || s.api.Wiping?
    requires s.api.Idle? ==> !s.fields.aborted
    requires Allowed(s, steps) && forall i :: 0 <= i < |steps| ==> !Begins(steps[i])
    ensures var t := Run(s, steps);
            && t.fields == BLANK.(aborted := t.fields.aborted) && t.flow.NoThread?
            && (t.api.Idle? ==> t.fields == BLANK)
            && t.attempts == s.attempts && t.handed == s.handed
    decreases |steps|
  {
    if steps != [] {
      LogoutIsFinal(Apply(s, steps[0]), steps[1..]);
    }
  }

  /** What one step does to the attempts before k, and to what is handed out, when no flow of
      an attempt before k is left. */
  lemma StepSparesOld(s: State, step: Step, k: nat)
    requires Inv(s) && Enabled(s, step)
    requires k <= |s.attempts| && (Alive(s.flow) ==> k < |s.attempts|)
    ensures var t := Apply(s, step);
            && k <= |t.attempts| && (Alive(t.flow) ==> k < |t.attempts|)
            && t.attempts[..k] == s.attempts[..k]
    ensures var t := Apply(s, step);
            && s.handed <= t.handed
            && forall i :: |s.handed| <= i < |t.handed| ==> t.handed[i].attempt >= k
  {
  }

  /** Whatever runs after a logout, nothing is handed to an earlier attempt, and no earlier
      attempt gets a code. */
  lemma {:induction false} OldAttemptsAreOver(s: State, steps: seq<Step>, k: nat)
    requires Inv(s) && Allowed(s, steps)
    requires k <= |s.attempts| && (Alive(s.flow) ==> k < |s.attempts|)
    ensures var t := Run(s, steps);
            && k <= |t.attempts| && t.attempts[..k] == s.attempts[..k]
            && s.handed <= t.handed
            && forall i :: |s.handed| <= i < |t.handed| ==> t.handed[i].attempt >= k
    decreases |steps|
  {
    if steps != [] {
      StepKeeps(s, steps[0]);
      StepSparesOld(s, steps[0], k);
      OldAttemptsAreOver(Apply(s, steps[0]), steps[1..], k);
    }
  }

  lemma AfterLogout(s: State, steps: seq<Step>)
    requires Reachable(s) && s.api.Wiping? && Allowed(Apply(s, ApiWipe), steps)
    ensures var t := Run(Apply(s, ApiWipe), steps);
            && |s.attempts| <= |t.attempts| && t.attempts[..|s.attempts|] == s.attempts
            && s.handed <= t.handed
            && forall i :: |s.handed| <= i < |t.handed| ==> t.handed[i].attempt >= |s.attempts|
  {
    ReachableInv(s);
    StepKeeps(s, ApiWipe);
    OldAttemptsAreOver(Apply(s, ApiWipe), steps, |s.attempts|);
    assert s.attempts[..|s.attempts|] == s.attempts;
  }

  /** The identity a login ends with is the one it began with. */
  lemma AuthenticatedAsAttempted(s: State, readings: Readings, now: nat)
    requires Reachable(s) && Enabled(s, FlowHarvested(readings, now))
    ensures var t := Apply(s, FlowHarvested(readings, now));
            && s.attempts != []
            && t.flow.Exiting?
            && (t.fields.state == Authenticated ==> t.fields.appleId == s.attempts[|s.attempts| - 1].id)
            && (t.fields.state == Authenticated <==>
                  && readings.storefront != "" && readings.devToken != ""
                  && readings.guid != "" && readings.userToken != "")
            && (t.fields.state == Authenticated ==>
                  && t.fields.tokens.storefront == readings.storefront && t.fields.tokens.devToken == readings.devToken
                  && t.fields.tokens.userToken == readings.userToken && t.fields.tokens.loggedInAt == now)
            && (t.fields.state != Authenticated ==> t.fields.state == Failed)
  {
    ReachableInv(s);
  }

  /** wait_for_settled_state returns at once where the state is settled; a wait ends exactly when it
      is, or the time is up. */
  lemma SettleEndsExactly(s: State, why: Wake)
    ensures Enabled(s, ApiSettle) ==> (Apply(s, ApiSettle).api.Settling? <==> s.fields.state == InProgress)
    ensures Enabled(s, ApiSettleWake(why)) ==>
              (Apply(s, ApiSettleWake(why)).api.Idle? <==> s.fields.state != InProgress || why.TimedOut?)
    ensures Enabled(s, ApiSettle) ==> Apply(s, ApiSettle).fields == s.fields
  {
  }

  /** A prompt for the second factor waits for a code exactly if none was submitted in this
      attempt yet and no logout is under way. */
  lemma PromptWaitsExactly(s: State)
    requires Reachable(s) && Enabled(s, FlowAskTwofa)
    ensures s.attempts != []
    ensures AskTwofa(s).flow.Parked? <==> s.attempts[|s.attempts| - 1].codes == [] && !s.api.LogoutJoin?
  {
    ReachableInv(s);
  }

  const PROMPTS: seq<Step> :=
    [ApiStart("a", "p"), ApiJoined, FlowAskTwofa, ApiSubmit("1"), FlowWake(Notified), FlowAskTwofa]

  /** A second factor is asked for twice in one attempt, and answered twice with the first code:
      the second question does not wait. */
  lemma SecondPromptReusesTheCode()
    ensures Allowed(INIT, PROMPTS)
    ensures var h := Handed(0, true, "a", "p" + "1", true); Run(INIT, PROMPTS).handed == [h, h]
  {
    var f := Started(BLANK, "a", "p");
    var s1 := INIT.(api := Joining(StartCall("a", "p")));
    var s2 := State(f, Idle, Running, [Attempt("a", "p", [])], []);
    var s3 := s2.(fields := f.(state := Awaiting2FA), flow := Parked(false));
    var s4 := State(Submitted(f, "1"), Idle, Parked(true), [Attempt("a", "p", ["1"])], []);
    var h := Handed(0, true, "a", "p" + "1", true);
    var s5 := s4.(flow := Running, handed := [h]);
    var s6 := s5.(handed := [h, h]);
    var r5 := [FlowAskTwofa] + [];
    var r4 := [FlowWake(Notified)] + r5;
    var r3 := [ApiSubmit("1")] + r4;
    var r2 := [FlowAskTwofa] + r3;
    var r1 := [ApiJoined] + r2;
    RunsOn(s5, FlowAskTwofa, s6, []);
    RunsOn(s4, FlowWake(Notified), s5, r5);
    assert [] + ["1"] == ["1"] && WithCode(s3.attempts, "1") == s4.attempts;
    RunsOn(s3, ApiSubmit("1"), s4, r4);
    RunsOn(s2, FlowAskTwofa, s3, r3);
    RunsOn(s1, ApiJoined, s2, r2);
    RunsOn(INIT, ApiStart("a", "p"), s1, r1);
    assert PROMPTS == [ApiStart("a", "p")] + r1;
  }

  lemma RunsOn(s: State, step: Step, t: State, steps: seq<Step>)
    requires Enabled(s, step) && Apply(s, step) == t && Allowed(t, steps)
    ensures Allowed(s, [step] + steps) && Run(s, [step] + steps) == Run(t, steps)
  {
    assert ([step] + steps)[1..] == steps;
  }
}
