/**
 auth.cpp: one thread that calls the account (the IPC loop) and one login flow, over the
 fields that mu_ guards.  A critical section is one step; a step that keeps mu_ across a
 join, or gives it up to wait for a condition, is two.  What the Apple flow does, and what
 the harvest of tokens finds, are oracles.
 */
module LoginModel {
  import opened Wrappers

  // ---------------------------------------------------------------- the fields of Account

  datatype LoginState = LoggedOut | InProgress | Awaiting2FA | Authenticated | Failed

  datatype Tokens = Tokens(appleId: string, storefront: string, devToken: string,
                           userToken: string, dsid: string, loggedInAt: nat)

  const NO_TOKENS := Tokens("", "", "", "", "", 0)

  datatype Fields = Fields(state: LoginState, appleId: string, password: string, code: string,
                           submitted: bool, aborted: bool, tokens: Tokens, lastError: string, lastErrorCode: int)

  const BLANK := Fields(LoggedOut, "", "", "", false, false, NO_TOKENS, "", 0)

  predicate Busy(state: LoginState) { state == InProgress || state == Awaiting2FA }

  /** What the requests for the storefront, the two tokens and the device's id bring back. */
  datatype Readings =
    Readings(storefront: string, devToken: string, guid: string, userToken: string, dsid: Option<string>)

  /** tokens.cpp harvest_all */
  function HarvestAll(r: Readings, appleId: string): Option<Tokens> {
    if r.storefront == "" then None
    else if r.devToken == "" then None
    else if r.guid == "" then None
    else if r.userToken == "" then None
    else Some(Tokens(appleId, r.storefront, r.devToken, r.userToken, if r.dsid.Some? then r.dsid.value else "", 0))
  }

  // What the critical sections do to the fields.

  function Started(f: Fields, id: string, password: string): Fields {
    Fields(InProgress, id, password, "", false, false, NO_TOKENS, "", 0)
  }

  function Submitted(f: Fields, code: string): Fields { f.(code := code, submitted := true, state := InProgress) }

  function RestoreBegun(f: Fields): Fields {
    f.(password := "", code := "", submitted := false, aborted := false,
       tokens := NO_TOKENS, lastError := "", lastErrorCode := 0, state := InProgress)
  }

  function RestoreFailed(f: Fields): Fields { f.(state := LoggedOut) }

  function FinishedAuthenticated(f: Fields, t: Tokens, now: nat): Fields {
    f.(tokens := t.(loggedInAt := now), appleId := t.appleId,
       password := "", code := "", submitted := false, state := Authenticated)
  }

  function FinishedFailed(f: Fields, message: string, errorCode: int): Fields {
    f.(lastError := message, lastErrorCode := errorCode,
       password := "", code := "", submitted := false, state := Failed)
  }

  function Aborted(f: Fields): Fields { f.(aborted := true) }

  /** The condition that a flow waits for. */
  predicate Awoken(f: Fields) { f.submitted || f.aborted }

  datatype Snapshot = Snapshot(state: LoginState, appleId: string, storefront: string, dsid: string,
                               userToken: string, devToken: string, loggedInAt: nat,
                               lastError: string, lastErrorCode: int)

  /** auth.cpp public_snapshot: tokens and errors only in the state that they belong to. */
  function SnapshotOf(f: Fields): Snapshot {
    var t := if f.state == Authenticated then f.tokens else NO_TOKENS;
    var failed := f.state == Failed;
    Snapshot(f.state, f.appleId, t.storefront, t.dsid, t.userToken, t.devToken, t.loggedInAt,
             if failed then f.lastError else "", if failed then f.lastErrorCode else 0)
  }

  // ---------------------------------------------------------------- the two threads

  datatype Call = StartCall(id: string, password: string) | RestoreCall

  /** Where the calling thread is.  Joining holds mu_; LogoutJoin does not. */
  datatype Api =
    | Idle
    | Joining(call: Call)
    | Harvesting
    | LogoutJoin
    | Wiping
    | Settling(notified: bool)

  /** Where the flow is.  Running is the Apple flow between its calls back; Parked waits on
      cv_2fa_; Exiting has left its last critical section. */
  datatype Flow = NoThread | Running | Parked(notified: bool) | Exiting | Exited

  /** An attempt: what it was started with, and the codes that submit_2fa accepted for it. */
  datatype Attempt = Attempt(id: string, password: string, codes: seq<string>)

  /** Credentials given to a flow. */
  datatype Handed = Handed(attempt: nat, needs2fa: bool, username: string, password: string, ok: bool)

  datatype State = State(fields: Fields, api: Api, flow: Flow, attempts: seq<Attempt>, handed: seq<Handed>)

  const INIT := State(BLANK, Idle, NoThread, [], [])

  /** mu_ is free, or held for one step only. */
  predicate LockFree(s: State) { !s.api.Joining? }

  function NotifyState(s: State): State { if s.api.Settling? then s.(api := Settling(true)) else s }

  function NotifyTwofa(s: State): State { if s.flow.Parked? then s.(flow := Parked(true)) else s }

  // ---------------------------------------------------------------- steps

  datatype Wake = Notified | TimedOut | Spurious

  datatype Step =
    | ApiStart(id: string, password: string)
    | ApiRestore(usable: bool)
    | ApiJoined
    | ApiHarvested(found: Option<Readings>, appleId: string, now: nat)
    | ApiSubmit(code: string)
    | ApiLogout
    | ApiWipe
    | ApiSettle
    | ApiSettleWake(why: Wake)
    | FlowAsk
    | FlowAskTwofa
    | FlowWake(why: Wake)
    | FlowHarvested(readings: Readings, now: nat)
    | FlowFail(message: string, errorCode: int)
    | FlowExit

  predicate FlowStep(step: Step) {
    step.FlowAsk? || step.FlowAskTwofa? || step.FlowWake? || step.FlowHarvested? || step.FlowFail? || step.FlowExit?
  }

  predicate Enabled(s: State, step: Step) {
    match step
    case ApiStart(_, _) => s.api.Idle?
    case ApiRestore(_) => s.api.Idle?
    case ApiJoined => (s.api.Joining? || s.api.LogoutJoin?) && (s.flow.NoThread? || s.flow.Exited?)
    case ApiHarvested(_, _, _) => s.api.Harvesting?
    case ApiSubmit(_) => s.api.Idle?
    case ApiLogout => s.api.Idle?
    case ApiWipe => s.api.Wiping?
    case ApiSettle => s.api.Idle?
    case ApiSettleWake(why) => s.api.Settling? && (why.Notified? ==> s.api.notified)
    case FlowAsk => s.flow.Running? && LockFree(s)
    case FlowAskTwofa => s.flow.Running? && LockFree(s)
    case FlowWake(why) => s.flow.Parked? && LockFree(s) && (why.Notified? ==> s.flow.notified)
    case FlowHarvested(_, _) => s.flow.Running? && LockFree(s)
    case FlowFail(message, _) => s.flow.Running? && LockFree(s) && message != ""
    case FlowExit => s.flow.Exiting?
  }

  /** start_login up to the join, which keeps mu_. */
  function StartBegins(s: State, id: string, password: string): State {
    if Busy(s.fields.state) then s else s.(api := Joining(StartCall(id, password)))
  }

  /** try_restore_cached_session up to the join. */
  function RestoreBegins(s: State, usable: bool): State {
    if !usable || s.fields.state != LoggedOut then s else s.(api := Joining(RestoreCall))
  }

  /** What follows a join: a new attempt and its thread, the harvest, or the end of a logout. */
  function JoinReturns(s: State): State
    requires s.api.Joining? || s.api.LogoutJoin?
  {
    if s.api.LogoutJoin? then s.(api := Wiping, flow := NoThread)
    else if s.api.call.RestoreCall? then s.(api := Harvesting, flow := NoThread, fields := RestoreBegun(s.fields))
    else
      var c := s.api.call;
      s.(api := Idle, flow := Running, fields := Started(s.fields, c.id, c.password),
         attempts := s.attempts + [Attempt(c.id, c.password, [])])
  }

  function Harvested(s: State, readings: Option<Readings>, appleId: string, now: nat): State {
    var t := if readings.Some? then HarvestAll(readings.value, appleId) else None;
    s.(api := Idle,
       fields := if t.Some? then FinishedAuthenticated(s.fields, t.value, now) else RestoreFailed(s.fields))
  }

  function WithCode(attempts: seq<Attempt>, code: string): seq<Attempt>
    requires attempts != []
  {
    var k := |attempts| - 1;
    attempts[k := attempts[k].(codes := attempts[k].codes + [code])]
  }

  /** submit_2fa; the attempt it is for is the last one. */
  function SubmitCode(s: State, code: string): State {
    if s.fields.state != Awaiting2FA || s.attempts == [] then s
    else NotifyTwofa(s.(fields := Submitted(s.fields, code), attempts := WithCode(s.attempts, code)))
  }

  function Logout(s: State): State { NotifyTwofa(s.(fields := Aborted(s.fields), api := LogoutJoin)) }

  /** wait_for_settled_state: it waits only where the state is not settled. */
  function Settle(s: State): State { if s.fields.state != InProgress then s else s.(api := Settling(false)) }

  function SettleWake(s: State, why: Wake): State {
    if s.fields.state != InProgress || why.TimedOut? then s.(api := Idle) else s.(api := Settling(false))
  }

  function Given(s: State, needs2fa: bool, password: string, ok: bool): seq<Handed> {
    s.handed + [Handed(|s.attempts| - if s.attempts == [] then 0 else 1, needs2fa, s.fields.appleId, password, ok)]
  }

  /** fetch_credentials_blocking without a second factor. */
  function Ask(s: State): State { s.(handed := Given(s, false, s.fields.password, s.fields.appleId != "")) }

  /** The end of fetch_credentials_blocking with a second factor, once the wait is over. */
  function Collect(s: State): State {
    var f := s.fields;
    var code := !f.aborted && f.submitted;
    NotifyState(s.(fields := f.(state := InProgress), flow := Running,
                   handed := Given(s, true, if code then f.password + f.code else f.password, code)))
  }

  /** Its beginning: the wait is over at once if a code was submitted before, or on abort. */
  function AskTwofa(s: State): State {
    if Awoken(s.fields) then Collect(s)
    else NotifyState(s.(fields := s.fields.(state := Awaiting2FA), flow := Parked(false)))
  }

  function WakeTwofa(s: State, why: Wake): State {
    if Awoken(s.fields) || why.TimedOut? then Collect(s) else s.(flow := Parked(false))
  }

  function Fail(s: State, message: string, errorCode: int): State {
    NotifyState(s.(fields := FinishedFailed(s.fields, message, errorCode), flow := Exiting))
  }

  function FlowHarvest(s: State, readings: Readings, now: nat): State {
    var t := HarvestAll(readings, s.fields.appleId);
    if t.None? then Fail(s, "token harvest failed after flow.run() succeeded", -5)
    else NotifyState(s.(fields := FinishedAuthenticated(s.fields, t.value, now), flow := Exiting))
  }

  function Apply(s: State, step: Step): State
    requires Enabled(s, step)
  {
    match step
    case ApiStart(id, password) => StartBegins(s, id, password)
    case ApiRestore(usable) => RestoreBegins(s, usable)
    case ApiJoined => JoinReturns(s)
    case ApiHarvested(readings, appleId, now) => Harvested(s, readings, appleId, now)
    case ApiSubmit(code) => SubmitCode(s, code)
    case ApiLogout => Logout(s)
    case ApiWipe => s.(fields := BLANK, api := Idle)
    case ApiSettle => Settle(s)
    case ApiSettleWake(why) => SettleWake(s, why)
    case FlowAsk => Ask(s)
    case FlowAskTwofa => AskTwofa(s)
    case FlowWake(why) => WakeTwofa(s, why)
    case FlowHarvested(readings, now) => FlowHarvest(s, readings, now)
    case FlowFail(message, errorCode) => Fail(s, message, errorCode)
    case FlowExit => s.(flow := Exited)
  }

  // ---------------------------------------------------------------- runs

  predicate Allowed(s: State, steps: seq<Step>)
    decreases |steps|
  {
    steps != [] ==> Enabled(s, steps[0]) && Allowed(Apply(s, steps[0]), steps[1..])
  }

  function Run(s: State, steps: seq<Step>): State
    requires Allowed(s, steps)
    decreases |steps|
  {
    if steps == [] then s else Run(Apply(s, steps[0]), steps[1..])
  }
}
