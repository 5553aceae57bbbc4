/**
 The Account object: the fields that its methods update in place, one method for each
 stretch that runs without giving up mu_.  An object is valid in the states that the
 transition system reaches, so every method moves it along one of its runs, and what
 LoginProof says of reachable states holds of the object.
 */
module AccountObject {
  import opened Wrappers
  import opened LoginModel
  import opened LoginProof

  /** Credentials as a flow gets them. */
  datatype Credentials = Credentials(username: string, password: string, ok: bool)

  function LastOf(attempts: seq<Attempt>): Attempt
    requires attempts != []
  {
    attempts[|attempts| - 1]
  }

  /** No code was submitted in the last attempt. */
  predicate Uncoded(attempts: seq<Attempt>) { attempts != [] && LastOf(attempts).codes == [] }

  /** What a flow gets that asks for a second factor: its attempt's password and code, or without
      one, or during a logout, the password alone. */
  predicate Answers(c: Credentials, attempts: seq<Attempt>, logout: bool) {
    && attempts != []
    && var a := LastOf(attempts);
       && c.ok == (a.codes != [] && !logout)
       && c.username == a.id
       && c.password == (if c.ok then a.password + a.codes[0] else a.password)
  }

  function Record(attempts: seq<Attempt>, needs2fa: bool, c: Credentials): Handed
    requires attempts != []
  {
    Handed(|attempts| - 1, needs2fa, c.username, c.password, c.ok)
  }

  /** Every reading that a session needs came back. */
  predicate AllThere(r: Readings) {
    r.storefront != "" && r.devToken != "" && r.guid != "" && r.userToken != ""
  }

  /** These tokens are what was read for this id, at this time. */
  predicate TakenFrom(t: Tokens, r: Readings, id: string, now: nat) {
    && t.appleId == id && t.loggedInAt == now
    && t.storefront == r.storefront && t.devToken == r.devToken && t.userToken == r.userToken
    && (r.dsid.Some? ==> t.dsid == r.dsid.value) && (r.dsid.None? ==> t.dsid == "")
  }

  // ---------------------------------------------------------------- runs that the methods follow

  lemma StartSteps(s: State, id: string, pw: string)
    requires Reachable(s) && s.api.Idle?
    ensures Busy(s.fields.state) <==> Alive(s.flow)
    ensures !Alive(s.flow) ==>
              Reachable(s.(fields := Started(s.fields, id, pw), flow := Flow.Running,
                           attempts := s.attempts + [Attempt(id, pw, [])]))
  {
    ReachableInv(s);
    if !Alive(s.flow) {
      StepIsReachable(s, ApiStart(id, pw));
      JoinSteps(Apply(s, ApiStart(id, pw)));
    }
  }

  /** A join of a flow that has left its last critical section. */
  lemma JoinSteps(s: State)
    requires Reachable(s) && (s.api.Joining? || s.api.LogoutJoin?) && !Alive(s.flow)
    ensures Reachable(JoinReturns(s))
  {
    if s.flow.Exiting? {
      StepIsReachable(s, FlowExit);
      StepIsReachable(s.(flow := Exited), ApiJoined);
    } else {
      StepIsReachable(s, ApiJoined);
    }
  }

  lemma SubmitSteps(s: State, code: string)
    requires Reachable(s) && s.api.Idle?
    ensures s.fields.state == Awaiting2FA <==> s.flow.Parked? && Uncoded(s.attempts)
    ensures s.fields.state == Awaiting2FA ==>
              Reachable(s.(fields := Submitted(s.fields, code), flow := Parked(true),
                           attempts := s.attempts[|s.attempts| - 1 := LastOf(s.attempts).(codes := [code])]))
  {
    ReachableInv(s);
    if s.fields.state == Awaiting2FA {
      StepIsReachable(s, ApiSubmit(code));
      assert [] + [code] == [code];
    }
  }

  lemma RestoreSteps(s: State)
    requires Reachable(s) && s.api.Idle? && s.fields.state == LoggedOut
    ensures !Alive(s.flow)
    ensures Reachable(s.(fields := RestoreBegun(s.fields), flow := NoThread, api := Harvesting))
  {
    ReachableInv(s);
    StepIsReachable(s, ApiRestore(true));
    JoinSteps(Apply(s, ApiRestore(true)));
  }

  lemma HarvestSteps(s: State, found: Option<Readings>, name: string, now: nat)
    requires Reachable(s) && s.api.Harvesting?
    ensures Reachable(Harvested(s, found, name, now)) && s.flow.NoThread?
    ensures RestoreFailed(s.fields) == BLANK
  {
    ReachableInv(s);
    StepIsReachable(s, ApiHarvested(found, name, now));
    ReachableInv(Harvested(s, None, "", 0)) by {
      StepIsReachable(s, ApiHarvested(None, "", 0));
    }
  }

  lemma LogoutSteps(s: State)
    requires Reachable(s) && s.api.LogoutJoin? && !Alive(s.flow)
    ensures Reachable(s.(fields := BLANK, flow := NoThread, api := Idle))
  {
    JoinSteps(s);
    StepIsReachable(JoinReturns(s), ApiWipe);
  }

  /** What the fields of a live flow say of its attempt. */
  lemma FlowFields(s: State)
    requires Reachable(s) && Alive(s.flow)
    ensures s.attempts != []
    ensures LastOf(s.attempts).id == s.fields.appleId && LastOf(s.attempts).password == s.fields.password
    ensures LastOf(s.attempts).codes == if s.fields.submitted then [s.fields.code] else []
    ensures s.fields.aborted <==> s.api.LogoutJoin?
    ensures s.flow.Parked? ==> (s.fields.state == Awaiting2FA <==> !s.fields.submitted)
  {
    ReachableInv(s);
  }

  lemma FailSteps(s: State, message: string, errorCode: int)
    requires Reachable(s) && Enabled(s, FlowFail(message, errorCode))
    ensures Reachable(Fail(s, message, errorCode))
    ensures s.fields.tokens == NO_TOKENS
  {
    ReachableInv(s);
    StepIsReachable(s, FlowFail(message, errorCode));
  }

  // ---------------------------------------------------------------- the object

  class Account {
    /** The members that mu_ guards. */
    var f: Fields

    /** worker_.joinable() */
    var joinable: bool

    // Not in the source: where the two threads are, and what the theorems speak of.
    var api: Api
    var flow: Flow
    ghost var attempts: seq<Attempt>
    ghost var handed: seq<Handed>

    ghost function View(): State
      reads this
    {
      State(f, api, flow, attempts, handed)
    }

    ghost predicate Valid()
      reads this
    {
      Reachable(View()) && (joinable <==> !flow.NoThread?)
    }

    constructor ()
      ensures Valid() && View() == INIT
    {
      f := Fields(LoggedOut, "", "", "", false, false, NO_TOKENS, "", 0);
      joinable, api, flow := false, Idle, NoThread;
      attempts, handed := [], [];
      new;
      StartIsReachable();
    }

    /** cv_state_.notify_all() */
    method NotifyState()
      modifies this`api
      ensures api == if old(api).Settling? then Settling(true) else old(api)
    {
      api := if api.Settling? then Settling(true) else api;
    }

    /** cv_2fa_.notify_all() */
    method NotifyTwofa()
      modifies this`flow
      ensures flow == if old(flow).Parked? then Parked(true) else old(flow)
    {
      flow := if flow.Parked? then Parked(true) else flow;
    }

    // -------------------------------------------------------------- the calling thread

    /** auth.cpp start_login: a new attempt with its thread, unless one is under way.  A thread
        that is joined inside has left its last critical section. */
    method StartLogin(id: string, pw: string) returns (ok: bool)
      requires Valid() && api.Idle?
      modifies this
      ensures Valid() && api.Idle?
      ensures ok <==> !Alive(old(flow))
      ensures ok ==> flow.Running? && attempts == old(attempts) + [Attempt(id, pw, [])] && handed == old(handed)
      ensures !ok ==> View() == old(View())
    {
      StartSteps(View(), id, pw);
      if f.state == InProgress || f.state == Awaiting2FA {
        return false;
      }
      if joinable {
        joinable := false;
      }
      f := f.(appleId := id, password := pw, code := "", submitted := false, aborted := false);
      f := f.(tokens := NO_TOKENS, lastError := "", lastErrorCode := 0);
      f := f.(state := InProgress);
      joinable, flow := true, Flow.Running;
      attempts := attempts + [Attempt(id, pw, [])];
      ok := true;
    }

    /** auth.cpp submit_2fa: succeeds exactly while a flow waits and its attempt has no code; then
        the attempt has this one, and the flow is woken. */
    method Submit2fa(twofaCode: string) returns (ok: bool)
      requires Valid() && api.Idle?
      modifies this
      ensures Valid() && api.Idle? && handed == old(handed)
      ensures ok <==> old(flow).Parked? && Uncoded(old(attempts))
      ensures ok ==> flow == Parked(true)
      ensures ok ==> attempts == old(attempts)[|old(attempts)| - 1 := LastOf(old(attempts)).(codes := [twofaCode])]
      ensures !ok ==> View() == old(View())
    {
      SubmitSteps(View(), twofaCode);
      if f.state != Awaiting2FA {
        return false;
      }
      f := f.(code := twofaCode, submitted := true);
      f := f.(state := InProgress);
      NotifyTwofa();
      attempts := attempts[|attempts| - 1 := LastOf(attempts).(codes := [twofaCode])];
      ok := true;
    }

    /** The first section of auth.cpp try_restore_cached_session: only from LoggedOut. */
    method BeginRestore(usable: bool) returns (ok: bool)
      requires Valid() && api.Idle?
      modifies this
      ensures Valid() && attempts == old(attempts) && handed == old(handed)
      ensures ok <==> usable && old(f).state == LoggedOut
      ensures ok ==> api.Harvesting? && flow.NoThread? && NoSecrets(f)
      ensures !ok ==> View() == old(View())
    {
      if !usable || f.state != LoggedOut {
        return false;
      }
      RestoreSteps(View());
      if joinable {
        joinable := false;
      }
      f := f.(password := "", code := "", submitted := false, aborted := false);
      f := f.(tokens := NO_TOKENS, lastError := "", lastErrorCode := 0);
      f := f.(state := InProgress);
      flow, api := NoThread, Harvesting;
      ok := true;
    }

    /** Its second section: Authenticated under the given name exactly if the harvest is complete;
        otherwise the account is blank. */
    method EndRestore(found: Option<Readings>, name: string, now: nat) returns (ok: bool)
      requires Valid() && api.Harvesting?
      modifies this
      ensures Valid() && api.Idle? && flow.NoThread? && attempts == old(attempts) && handed == old(handed)
      ensures ok <==> found.Some? && AllThere(found.value)
      ensures ok ==> TakenFrom(f.tokens, found.value, name, now)
      ensures ok ==> f.state == Authenticated && f.appleId == name && CompleteTokens(f.tokens) && NoSecrets(f)
      ensures !ok ==> f == BLANK
    {
      HarvestSteps(View(), found, name, now);
      var t := if found.Some? then HarvestAll(found.value, name) else None;
      ok := t.Some?;
      if ok {
        FinishAuthenticated(t.value, now);
      } else {
        f := f.(state := LoggedOut);
      }
      api := Idle;
    }

    /** The first section of auth.cpp logout: a flow that waits is woken. */
    method BeginLogout()
      requires Valid() && api.Idle?
      modifies this
      ensures Valid() && api.LogoutJoin? && attempts == old(attempts) && handed == old(handed)
      ensures flow == if old(flow).Parked? then Parked(true) else old(flow)
    {
      StepIsReachable(View(), ApiLogout);
      f := f.(aborted := true);
      NotifyTwofa();
      api := LogoutJoin;
    }

    /** The join, which returns once the flow has ended, and the second section: a blank account
        with no thread. */
    method EndLogout()
      requires Valid() && api.LogoutJoin? && !Alive(flow)
      modifies this
      ensures Valid() && LoggedOutNow(View()) && api.Idle?
      ensures attempts == old(attempts) && handed == old(handed)
    {
      LogoutSteps(View());
      if joinable {
        joinable := false;
      }
      f := f.(state := LoggedOut);
      f := f.(appleId := "", password := "", code := "", submitted := false, aborted := false);
      f := f.(tokens := NO_TOKENS, lastError := "", lastErrorCode := 0);
      flow, api := NoThread, Idle;
    }

    /** auth.cpp public_snapshot: all that is there, although tokens and errors are guarded. */
    method PublicSnapshot() returns (snap: Snapshot)
      requires Valid()
      ensures snap.state == f.state && snap.appleId == f.appleId
      ensures Tokens(f.tokens.appleId, snap.storefront, snap.devToken, snap.userToken, snap.dsid, snap.loggedInAt)
           == f.tokens
      ensures snap.lastError == f.lastError && snap.lastErrorCode == f.lastErrorCode
    {
      SnapshotShowsTheFields(View());
      snap := Snapshot(f.state, f.appleId, "", "", "", "", 0, "", 0);
      if f.state == Authenticated {
        var t := f.tokens;
        snap := snap.(storefront := t.storefront, dsid := t.dsid, userToken := t.userToken,
                      devToken := t.devToken, loggedInAt := t.loggedInAt);
      }
      if f.state == LoginState.Failed {
        snap := snap.(lastError := f.lastError, lastErrorCode := f.lastErrorCode);
      }
    }

    // -------------------------------------------------------------- the flow

    /** auth.cpp fetch_credentials_blocking without a second factor: the attempt's own. */
    method Fetch() returns (c: Credentials)
      requires Valid() && flow.Running? && LockFree(View())
      modifies this`handed
      ensures Valid() && attempts != []
      ensures c == Credentials(LastOf(attempts).id, LastOf(attempts).password, LastOf(attempts).id != "")
      ensures handed == old(handed) + [Record(attempts, false, c)]
    {
      FlowFields(View());
      StepIsReachable(View(), FlowAsk);
      c := Credentials(f.appleId, f.password, |f.appleId| != 0);
      handed := handed + [Record(attempts, false, c)];
    }

    /** fetch_credentials_blocking with a second factor, up to the wait.  It waits exactly if the
        attempt has no code and no logout is under way; otherwise it is answered at once. */
    method FetchTwofa() returns (c: Option<Credentials>)
      requires Valid() && flow.Running? && LockFree(View())
      modifies this`f, this`api, this`flow, this`handed
      ensures Valid() && attempts != [] && api == SettlingNotified(old(api))
      ensures c.None? <==> Uncoded(attempts) && !api.LogoutJoin?
      ensures c.Some? ==> flow.Running? && Answers(c.value, attempts, api.LogoutJoin?)
                          && handed == old(handed) + [Record(attempts, true, c.value)]
      ensures c.None? ==> flow == Parked(false) && handed == old(handed)
    {
      FlowFields(View());
      StepIsReachable(View(), FlowAskTwofa);
      f := f.(state := Awaiting2FA);
      NotifyState();
      if f.submitted || f.aborted {
        var given := Collect();
        return Some(given);
      }
      flow := Parked(false);
      c := None;
    }

    /** ... and from the wait on: a wake-up for nothing goes back to waiting. */
    method WakeTwofa(why: Wake) returns (c: Option<Credentials>)
      requires Valid() && flow.Parked? && LockFree(View()) && (why.Notified? ==> flow.notified)
      modifies this`f, this`api, this`flow, this`handed
      ensures Valid() && attempts != []
      ensures api == if c.Some? then SettlingNotified(old(api)) else old(api)
      ensures c.None? <==> !why.TimedOut? && Uncoded(attempts) && !api.LogoutJoin?
      ensures c.Some? ==> flow.Running? && Answers(c.value, attempts, api.LogoutJoin?)
                          && handed == old(handed) + [Record(attempts, true, c.value)]
      ensures c.None? ==> flow == Parked(false) && handed == old(handed)
    {
      FlowFields(View());
      StepIsReachable(View(), FlowWake(why));
      if f.submitted || f.aborted || why.TimedOut? {
        var given := Collect();
        return Some(given);
      }
      flow := Parked(false);
      c := None;
    }

    /** The end of fetch_credentials_blocking: back in progress, with what there is to give. */
    method Collect() returns (c: Credentials)
      requires attempts != []
      modifies this`f, this`api, this`flow, this`handed
      ensures f == old(f).(state := InProgress) && flow.Running? && api == SettlingNotified(old(api))
      ensures c.ok <==> f.submitted && !f.aborted
      ensures c == Credentials(f.appleId, if c.ok then f.password + f.code else f.password, c.ok)
      ensures handed == old(handed) + [Record(attempts, true, c)]
    {
      f := f.(state := InProgress);
      NotifyState();
      flow := Flow.Running;
      if f.aborted || !f.submitted {
        c := Credentials(f.appleId, f.password, false);
      } else {
        c := Credentials(f.appleId, f.password + f.code, true);
      }
      handed := handed + [Record(attempts, true, c)];
    }

    /** auth.cpp finish_authenticated, for either thread. */
    method FinishAuthenticated(t: Tokens, now: nat)
      modifies this`f, this`api
      ensures f == FinishedAuthenticated(old(f), t, now) && api == SettlingNotified(old(api))
    {
      f := f.(tokens := t.(loggedInAt := now));
      f := f.(appleId := f.tokens.appleId, password := "", code := "", submitted := false);
      f := f.(state := Authenticated);
      NotifyState();
    }

    /** auth.cpp finish_failed: the flow's last section; its secrets are gone. */
    method FinishFailed(message: string, errorCode: int)
      requires Valid() && flow.Running? && LockFree(View()) && message != ""
      modifies this`f, this`api, this`flow
      ensures Valid() && flow.Exiting? && api == SettlingNotified(old(api))
      ensures f.state == LoginState.Failed && f.lastError == message && f.lastErrorCode == errorCode
      ensures NoSecrets(f) && f.tokens == NO_TOKENS
    {
      FailSteps(View(), message, errorCode);
      f := f.(lastError := message, lastErrorCode := errorCode);
      f := f.(password := "", code := "", submitted := false);
      f := f.(state := LoginState.Failed);
      NotifyState();
      flow := Exiting;
    }

    /** The end of auth.cpp worker_main: Authenticated as the attempt's id exactly if the harvest
        is complete, else Failed; either way the secrets are gone. */
    method Finish(readings: Readings, now: nat) returns (ok: bool)
      requires Valid() && flow.Running? && LockFree(View())
      modifies this`f, this`api, this`flow
      ensures Valid() && flow.Exiting? && attempts != [] && api == SettlingNotified(old(api))
      ensures ok <==> AllThere(readings)
      ensures ok ==> TakenFrom(f.tokens, readings, LastOf(attempts).id, now)
      ensures ok ==> f.state == Authenticated && f.appleId == LastOf(attempts).id && CompleteTokens(f.tokens)
      ensures !ok ==> f.state == LoginState.Failed && f.tokens == NO_TOKENS
      ensures !ok ==> f.lastError == "token harvest failed after flow.run() succeeded" && f.lastErrorCode == -5
      ensures NoSecrets(f)
    {
      FlowFields(View());
      var t := HarvestAll(readings, f.appleId);
      if t.None? {
        FinishFailed("token harvest failed after flow.run() succeeded", -5);
        return false;
      }
      StepIsReachable(View(), FlowHarvested(readings, now));
      FinishAuthenticated(t.value, now);
      flow := Exiting;
      ok := true;
    }
  }

  function SettlingNotified(api: Api): Api {
    if api.Settling? then Settling(true) else api
  }

  // ---------------------------------------------------------------- one whole login

  /** The flow calls back for credentials; for the second factor the user has a code, or lets the
      time pass. */
  datatype Ask = Plain | SecondFactor(answer: Option<string>)

  /** How the flow ends: Apple's error, or one of the errors before it; or with a session, whose
      tokens are then harvested. */
  datatype Ending = Refused(message: string, errorCode: int) | Granted(readings: Readings, now: nat)

  predicate Complete(ending: Ending) { ending.Granted? && AllThere(ending.readings) }

  /** The code of an attempt after an ask, if it was this before. */
  function CodeAfter(code: Option<string>, ask: Ask): Option<string> {
    if code.None? && ask.SecondFactor? then ask.answer else code
  }

  /** What attempt k is handed for an ask, with this code. */
  function GivenFor(k: nat, id: string, pw: string, code: Option<string>, ask: Ask): Handed {
    if ask.Plain? then Handed(k, false, id, pw, id != "")
    else Handed(k, true, id, if code.Some? then pw + code.value else pw, code.Some?)
  }

  /** What it is handed for these asks in turn. */
  function Transcript(k: nat, id: string, pw: string, code: Option<string>, asks: seq<Ask>): seq<Handed>
    decreases |asks|
  {
    if asks == [] then []
    else
      var now := CodeAfter(code, asks[0]);
      [GivenFor(k, id, pw, now, asks[0])] + Transcript(k, id, pw, now, asks[1..])
  }

  function Codes(code: Option<string>): seq<string> {
    if code.Some? then [code.value] else []
  }

  lemma NextAsk(handed: seq<Handed>, k: nat, id: string, pw: string, code: Option<string>, asks: seq<Ask>, i: nat)
    requires i < |asks|
    ensures var now := CodeAfter(code, asks[i]);
            handed + Transcript(k, id, pw, code, asks[i..])
            == handed + [GivenFor(k, id, pw, now, asks[i])] + Transcript(k, id, pw, now, asks[i + 1..])
  {
    var rest := asks[i..];
    assert rest[0] == asks[i] && rest[1..] == asks[i + 1..];
  }

  /** The flow asks for a second factor: the user is asked only if the flow waits. */
  method PromptTwofa(a: Account, answer: Option<string>, ghost before: seq<Attempt>, ghost mine: Attempt,
                     ghost code: Option<string>)
      returns (ghost now: Option<string>)
    requires a.Valid() && a.api.Idle? && a.flow.Running?
    requires a.attempts == before + [mine.(codes := Codes(code))]
    modifies a
    ensures now == CodeAfter(code, SecondFactor(answer))
    ensures a.Valid() && a.api.Idle? && a.flow.Running?
    ensures a.attempts == before + [mine.(codes := Codes(now))]
    ensures a.handed == old(a.handed) + [GivenFor(|before|, mine.id, mine.password, now, SecondFactor(answer))]
  {
    now := CodeAfter(code, SecondFactor(answer));
    var c := a.FetchTwofa();
    if c.None? {
      if answer.Some? {
        var _ := a.Submit2fa(answer.value);
        c := a.WakeTwofa(Notified);
      } else {
        c := a.WakeTwofa(TimedOut);
      }
    }
  }

  /** One call back of the flow. */
  method Prompt(a: Account, ask: Ask, ghost before: seq<Attempt>, ghost mine: Attempt, ghost code: Option<string>)
      returns (ghost now: Option<string>)
    requires a.Valid() && a.api.Idle? && a.flow.Running?
    requires a.attempts == before + [mine.(codes := Codes(code))]
    modifies a
    ensures now == CodeAfter(code, ask)
    ensures a.Valid() && a.api.Idle? && a.flow.Running?
    ensures a.attempts == before + [mine.(codes := Codes(now))]
    ensures a.handed == old(a.handed) + [GivenFor(|before|, mine.id, mine.password, now, ask)]
  {
    if ask.Plain? {
      var _ := a.Fetch();
      now := code;
    } else {
      now := PromptTwofa(a, ask.answer, before, mine, code);
    }
  }

  /** The end of auth.cpp worker_main. */
  method End(a: Account, ending: Ending) returns (ok: bool)
    requires a.Valid() && a.flow.Running? && LockFree(a.View())
    requires ending.Refused? ==> ending.message != ""
    modifies a`f, a`api, a`flow
    ensures a.Valid() && a.flow.Exiting? && a.attempts != [] && a.api == SettlingNotified(old(a.api))
    ensures NoSecrets(a.f) && (ok <==> Complete(ending))
    ensures ok ==> TakenFrom(a.f.tokens, ending.readings, LastOf(a.attempts).id, ending.now)
    ensures ok ==> a.f.state == Authenticated && a.f.appleId == LastOf(a.attempts).id && CompleteTokens(a.f.tokens)
    ensures !ok ==> a.f.state == LoginState.Failed && a.f.tokens == NO_TOKENS
    ensures ending.Refused? ==> a.f.lastError == ending.message && a.f.lastErrorCode == ending.errorCode
    ensures ending.Granted? && !ok ==> a.f.lastErrorCode == -5
  {
    FlowFields(a.View());
    match ending {
      case Refused(message, errorCode) =>
        a.FinishFailed(message, errorCode);
        ok := false;
      case Granted(readings, now) =>
        ok := a.Finish(readings, now);
    }
  }

  /**
   A login from start_login to the end of its thread, however often the flow asks and however it
   ends.  It is handed the id and password it was started with; the first code, once there is
   one, at that ask for a second factor and every later one; and the login ends Authenticated as
   that id exactly if the flow succeeds with a complete harvest, else Failed, with the error if
   there was one.  No secret is left.
   */
  method LogIn(a: Account, id: string, pw: string, asks: seq<Ask>, ending: Ending) returns (ok: bool)
    requires a.Valid() && a.api.Idle? && !Alive(a.flow)
    requires ending.Refused? ==> ending.message != ""
    modifies a
    ensures a.Valid() && a.api.Idle? && !Alive(a.flow) && NoSecrets(a.f)
    ensures ok <==> Complete(ending)
    ensures ok ==> TakenFrom(a.f.tokens, ending.readings, id, ending.now)
    ensures ok ==> a.f.state == Authenticated && a.f.appleId == id && CompleteTokens(a.f.tokens)
    ensures !ok ==> a.f.state == LoginState.Failed && a.f.tokens == NO_TOKENS
    ensures ending.Refused? ==> a.f.lastError == ending.message && a.f.lastErrorCode == ending.errorCode
    ensures ending.Granted? && !ok ==> a.f.lastErrorCode == -5
    ensures a.handed == old(a.handed) + Transcript(|old(a.attempts)|, id, pw, None, asks)
  {
    ghost var before, mine := a.attempts, Attempt(id, pw, []);
    var _ := a.StartLogin(id, pw);
    ghost var k, code: Option<string> := |before|, None;
    ghost var total := a.handed + Transcript(k, id, pw, None, asks);
    assert asks[0..] == asks;
    for i := 0 to |asks|
      invariant a.Valid() && a.api.Idle? && a.flow.Running?
      invariant a.attempts == before + [mine.(codes := Codes(code))]
      invariant a.handed + Transcript(k, id, pw, code, asks[i..]) == total
    {
      NextAsk(a.handed, k, id, pw, code, asks, i);
      code := Prompt(a, asks[i], before, mine, code);
    }
    assert asks[|asks|..] == [];
    ok := End(a, ending);
  }

  /** All that is handed out from here on goes to the last attempt: its own id and password, and for
      a second factor no code. */
  predicate GivesNoCode(before: seq<Handed>, after: seq<Handed>, attempts: seq<Attempt>) {
    && before <= after
    && forall i :: |before| <= i < |after| ==> attempts != [] && WithoutCode(after[i], |attempts| - 1, LastOf(attempts))
  }

  predicate WithoutCode(h: Handed, k: nat, mine: Attempt) {
    && h.attempt == k && h.username == mine.id && h.password == mine.password
    && h.ok == (!h.needs2fa && mine.id != "")
  }

  /**
   A logout in the middle of a login: the flow is woken if it waits, never waits again however
   often it asks, and is given no code any more; it may still fail or succeed, but the account
   is blank in the end.
   */
  method LogOut(a: Account, asks: seq<Ask>, ending: Ending)
    requires a.Valid() && a.api.Idle? && (ending.Refused? ==> ending.message != "")
    modifies a
    ensures a.Valid() && LoggedOutNow(a.View()) && a.api.Idle? && a.attempts == old(a.attempts)
    ensures GivesNoCode(old(a.handed), a.handed, a.attempts)
  {
    a.BeginLogout();
    if a.flow.Parked? {
      var c := a.WakeTwofa(Notified);
    }
    if a.flow.Running? {
      for i := 0 to |asks|
        invariant a.Valid() && a.api.LogoutJoin? && a.flow.Running? && a.attempts == old(a.attempts)
        invariant GivesNoCode(old(a.handed), a.handed, a.attempts)
      {
        if asks[i].Plain? {
          var c := a.Fetch();
        } else {
          var c := a.FetchTwofa();
        }
      }
      var _ := End(a, ending);
    }
    a.EndLogout();
  }
}
