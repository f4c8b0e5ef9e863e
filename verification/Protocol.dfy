/**
The service as a system of interleaved steps. D-Bus calls, one goroutine per accepted
activation and one monitor goroutine per session run concurrently; a step is either one
region under the lifecycle mutex (see `ServiceRegions`) or one action outside it: a daemon
call, a close, a cancel, an emitted signal, or a write of the service state. The scheduler
and the daemon's answers are part of the action, so an action determines the next state.
*/
module Protocol {
  import opened Wrappers
  import opened Text
  import opened ServiceRegions

  /** Where an activation goroutine is; each constructor names what it does next. */
  datatype AttemptPc =
    | MarkStarting
    | Parse
    | Dial
    | Prepare
    | CheckKey
    | RegisterKey
    | EmitKey
    | WaitKey
    | Login
    | EmitBanner
    | RegisterSso
    | EmitSso
    | WaitSso
    | Update
    | Resolve
    | Up
    | WaitReady
    | EmitConfig
    | Complete
    | MarkStarted(session: nat)
    | EmitFailure
    | MarkStopped
    | Clear(success: bool)
    | Down
    | CancelOwn(success: bool)
    | Release
    | CloseClient
    | Finished

  datatype Attempt = Attempt(
    pc: AttemptPc,
    interactive: bool,
    cancelled: bool,
    client: Option<nat>,
    daemonUp: bool,
    slot: Option<Secrets>,
    received: Option<Secrets>)

  datatype MonitorPc =
    | Check
    | Poll
    | Mark(state: ServiceState)
    | EmitDaemonFailure
    | MarkDown
    | ClearOwn
    | CheckThreshold
    | FailOwn
    | CancelTaken(context: Option<nat>)
    | EmitThreshold
    | CloseTaken
    | Wait
    | Exited

  datatype Monitor = Monitor(
    pc: MonitorPc,
    client: nat,
    cancelled: bool,
    errors: nat,
    taken: Option<nat>,
    failures: nat,
    thresholdFailures: nat)

  datatype CallPc = MarkStopping | CallDown | CallClose | EmitDownFailure | MarkCallStopped | Returned

  datatype Call = Call(pc: CallPc, client: Option<nat>, downFailed: bool)

  /** The places a client can be in. */
  datatype Place =
    | ByAttempt(attempt: nat)
    | Installed
    | ByCall(call: nat)
    | ByMonitor(session: nat)
    | Closed(closer: Place)

  /** One client the factory returned: who dialed it, where it is, and how often it was used. */
  datatype ClientRecord = ClientRecord(dialer: nat, place: Place, ups: nat, downs: nat, closes: nat)

  /** Attempts are named by activation id, monitors by session id, calls and clients by order. */
  datatype Sys = Sys(
    svc: Fields,
    attempts: map<nat, Attempt>,
    monitors: map<nat, Monitor>,
    calls: seq<Call>,
    clients: seq<ClientRecord>)

  /** How an attempt's step turns out. `Otherwise` is the third way out of a login or a key check. */
  datatype Outcome = Success | Failure | Otherwise

  datatype PollOutcome = PollError | Connected | Connecting | Disconnected | Failed | UnknownStatus

  datatype Action =
    | ConnectCall(interactive: bool)
    | DisconnectCall
    | SetFailureCall
    | NewSecretsCall(secrets: Secrets)
    | AttemptStep(attempt: nat, outcome: Outcome)
    | CallStep(call: nat, daemonError: bool)
    | MonitorStep(session: nat, poll: PollOutcome)

  const THRESHOLD := 3

  const INITIAL_SYS := Sys(INITIAL, map[], map[], [], [])

  /** Whether an attempt still holds the activation slot. */
  predicate Live(pc: AttemptPc) {
    match pc
    case MarkStarted(_) | CloseClient | Finished => false
    case Clear(success) => !success
    case CancelOwn(success) => !success
    case _ => true
  }

  // ---------- effects of a region on the rest of the system ----------

  function CancelAttempt(s: Sys, a: Option<nat>): Sys {
    if a.Some? && a.value in s.attempts then
      s.(attempts := s.attempts[a.value := s.attempts[a.value].(cancelled := true)])
    else
      s
  }

  function CancelMonitor(s: Sys, m: Option<nat>): Sys {
    if m.Some? && m.value in s.monitors then
      s.(monitors := s.monitors[m.value := s.monitors[m.value].(cancelled := true)])
    else
      s
  }

  /** The send into the result channel of `prompt`, which drops the secrets when it is full. */
  function Deliver(s: Sys, prompt: Option<Prompt>, secrets: Option<Secrets>): Sys {
    if prompt.Some? && secrets.Some? && prompt.value.activationID in s.attempts then
      var a := prompt.value.activationID;
      if s.attempts[a].slot.None? then s.(attempts := s.attempts[a := s.attempts[a].(slot := secrets)]) else s
    else
      s
  }

  function Move(s: Sys, c: Option<nat>, place: Place): Sys {
    if c.Some? && c.value < |s.clients| then
      s.(clients := s.clients[c.value := s.clients[c.value].(place := place)])
    else
      s
  }

  // ---------- D-Bus calls ----------

  function Connect(s: Sys, interactive: bool): Sys {
    var r := Reserve(s.svc);
    if !r.ok then s else
      s.(svc := r.fields,
         attempts := s.attempts[r.fields.activationID :=
             Attempt(MarkStarting, interactive, false, None, false, None, None)])
  }

  function StartDisconnect(s: Sys): Sys {
    var r := ServiceRegions.Disconnect(s.svc);
    var s1 := CancelMonitor(CancelAttempt(s, r.cancelActivation), r.cancelMonitor);
    Move(s1, r.taken, ByCall(|s.calls|)).(svc := r.fields, calls := s.calls + [Call(MarkStopping, r.taken, false)])
  }

  function Fail(s: Sys): Sys {
    var r := SetFailure(s.svc);
    CancelAttempt(s, r.cancelActivation).(svc := r.fields)
  }

  function Secret(s: Sys, secrets: Secrets): Sys {
    var r := NewSecrets(s.svc, secrets);
    Deliver(CancelAttempt(s, r.cancelActivation), s.svc.prompt, r.delivered).(svc := r.fields)
  }

  // ---------- the activation goroutine ----------

  function Goto(s: Sys, a: nat, pc: AttemptPc): Sys
    requires a in s.attempts
  {
    s.(attempts := s.attempts[a := s.attempts[a].(pc := pc)])
  }

  /** Steps that only move the attempt on: a daemon call or an emitted signal, and its outcome. */
  predicate IsPlain(pc: AttemptPc) {
    || pc.Parse? || pc.Prepare? || pc.CheckKey? || pc.EmitKey? || pc.Login? || pc.EmitBanner? || pc.EmitSso?
    || pc.WaitSso? || pc.Update? || pc.Resolve? || pc.WaitReady? || pc.EmitConfig? || pc.EmitFailure?
  }

  function NextPc(pc: AttemptPc, interactive: bool, o: Outcome): AttemptPc
    requires IsPlain(pc)
  {
    match pc
    case CheckKey => if o == Otherwise && interactive then RegisterKey else Branch(o, Login)
    case EmitKey => WaitKey
    case Login => if o == Otherwise && interactive then EmitBanner else Branch(o, Update)
    case EmitBanner => RegisterSso
    case EmitSso => WaitSso
    case Parse => Branch(o, Dial)
    case Prepare => Branch(o, CheckKey)
    case WaitSso => Branch(o, Update)
    case Update => Branch(o, Resolve)
    case Resolve => Branch(o, Up)
    case WaitReady => Branch(o, EmitConfig)
    case EmitConfig => Branch(o, Complete)
    case EmitFailure => MarkStopped
  }

  function Branch(o: Outcome, next: AttemptPc): AttemptPc {
    if o == Success then next else EmitFailure
  }

  function Count(s: Sys, c: Option<nat>, ups: nat, downs: nat): Sys {
    if c.Some? && c.value < |s.clients| then
      s.(clients := s.clients[c.value :=
        s.clients[c.value].(ups := s.clients[c.value].ups + ups, downs := s.clients[c.value].downs + downs)])
    else
      s
  }

  function Close(s: Sys, c: Option<nat>, closer: Place): Sys {
    if c.Some? && c.value < |s.clients| then
      s.(clients := s.clients[c.value :=
        s.clients[c.value].(closes := s.clients[c.value].closes + 1, place := Closed(closer))])
    else
      s
  }

  function DialStep(s: Sys, a: nat): Sys
    requires a in s.attempts
  {
    s.(clients := s.clients + [ClientRecord(a, ByAttempt(a), 0, 0, 0)],
       attempts := s.attempts[a := s.attempts[a].(client := Some(|s.clients|), pc := Prepare)])
  }

  function RegisterStep(s: Sys, a: nat, kind: PromptKind, registered: AttemptPc, refused: AttemptPc): Sys
    requires a in s.attempts
  {
    var r := RegisterPrompt(s.svc, Prompt(a, kind));
    Goto(s.(svc := r.fields), a, if r.ok then registered else refused)
  }

  /** The select on the result channel and the attempt's context. */
  function WaitKeyStep(s: Sys, a: nat, o: Outcome): Sys
    requires a in s.attempts
  {
    var att := s.attempts[a];
    if o == Success && att.slot.Some? then
      var next := if TrimSpace(att.slot.value.setupKey) == "" then EmitFailure else Login;
      s.(attempts := s.attempts[a := att.(slot := None, received := att.slot, pc := next)])
    else
      Goto(s, a, EmitFailure)
  }

  function CompleteStep(s: Sys, a: nat): Sys
    requires a in s.attempts
  {
    var att := s.attempts[a];
    if att.client.None? then Goto(s, a, Clear(false)) else
      var c := att.client.value;
      var r := ServiceRegions.Complete(s.svc, att.cancelled, c);
      if !r.ok then Goto(s, a, Clear(false)) else
        var session := r.fields.sessionID;
        var s1 := Move(CancelMonitor(s, r.cancelMonitor), att.client, Installed);
        Goto(s1.(svc := r.fields, monitors := s1.monitors[session := Monitor(Check, c, false, 0, None, 0, 0)]), a,
            MarkStarted(session))
  }

  function UpStep(s: Sys, a: nat): Sys
    requires a in s.attempts
  {
    var s1 := Count(s, s.attempts[a].client, 1, 0);
    s1.(attempts := s1.attempts[a := s.attempts[a].(daemonUp := true, pc := WaitReady)])
  }

  function ClearStep(s: Sys, a: nat, success: bool): Sys
    requires a in s.attempts
  {
    var att := s.attempts[a];
    var next := if !success && att.daemonUp && att.client.Some? then Down else CancelOwn(success);
    Goto(s, a, next).(svc := ClearPrompt(s.svc, a).fields)
  }

  function ReleaseStep(s: Sys, a: nat): Sys
    requires a in s.attempts
  {
    Goto(s.(svc := FinishFailed(s.svc).fields), a, if s.attempts[a].client.Some? then CloseClient else Finished)
  }

  /** The other steps up to the completion of the activation. */
  predicate IsRising(pc: AttemptPc) {
    pc.MarkStarting? || pc.Dial? || pc.RegisterKey? || pc.WaitKey? || pc.RegisterSso? || pc.Up? || pc.Complete?
  }

  function RisingStep(s: Sys, a: nat, o: Outcome): Sys
    requires a in s.attempts && IsRising(s.attempts[a].pc)
  {
    match s.attempts[a].pc
    case MarkStarting => Goto(s.(svc := s.svc.(state := Starting)), a, Parse)
    case Dial => if o == Success then DialStep(s, a) else Goto(s, a, EmitFailure)
    case RegisterKey => RegisterStep(s, a, SetupKeyPrompt, EmitKey, EmitFailure)
    case WaitKey => WaitKeyStep(s, a, o)
    case RegisterSso => RegisterStep(s, a, SsoPrompt, EmitSso, WaitSso)
    case Up => if o == Success then UpStep(s, a) else Goto(s, a, EmitFailure)
    case Complete => CompleteStep(s, a)
  }

  /** The steps after completion, and the failure path. */
  function EndingStep(s: Sys, a: nat): Sys
    requires a in s.attempts && !IsPlain(s.attempts[a].pc) && !IsRising(s.attempts[a].pc)
  {
    var att := s.attempts[a];
    match att.pc
    case MarkStarted(session) =>
      Goto(s.(svc := SetStateForSession(s.svc, session, Started).fields), a, Clear(true))
    case MarkStopped => Goto(s.(svc := s.svc.(state := Stopped)), a, Clear(false))
    case Clear(success) => ClearStep(s, a, success)
    case Down => Goto(Count(s, att.client, 0, 1), a, CancelOwn(false))
    case CancelOwn(success) => CancelAttempt(Goto(s, a, if success then Finished else Release), Some(a))
    case Release => ReleaseStep(s, a)
    case CloseClient => Goto(Close(s, att.client, ByAttempt(a)), a, Finished)
    case Finished => s
  }

  function StepAttempt(s: Sys, a: nat, o: Outcome): (t: Sys)
    requires a in s.attempts
    ensures |s.clients| <= |t.clients|
  {
    var att := s.attempts[a];
    if IsPlain(att.pc) then Goto(s, a, NextPc(att.pc, att.interactive, o))
    else if IsRising(att.pc) then RisingStep(s, a, o)
    else EndingStep(s, a)
  }

  // ---------- the Disconnect call after its locked part ----------

  function StepCall(s: Sys, d: nat, daemonError: bool): (t: Sys)
    requires d < |s.calls|
    ensures |s.clients| <= |t.clients|
  {
    var call := s.calls[d];
    match call.pc
    case MarkStopping =>
      s.(svc := s.svc.(state := Stopping),
         calls := s.calls[d := call.(pc := if call.client.Some? then CallDown else MarkCallStopped)])
    case CallDown =>
      Count(s, call.client, 0, 1).(calls := s.calls[d := call.(pc := CallClose, downFailed := daemonError)])
    case CallClose =>
      Close(s, call.client, ByCall(d)).(calls :=
          s.calls[d := call.(pc := if call.downFailed then EmitDownFailure else MarkCallStopped)])
    case EmitDownFailure => s.(calls := s.calls[d := call.(pc := MarkCallStopped)])
    case MarkCallStopped => s.(svc := s.svc.(state := Stopped), calls := s.calls[d := call.(pc := Returned)])
    case Returned => s
  }

  // ---------- the monitor goroutine ----------

  function Watch(s: Sys, m: nat, pc: MonitorPc): Sys
    requires m in s.monitors
  {
    s.(monitors := s.monitors[m := s.monitors[m].(pc := pc)])
  }

  function PollStep(s: Sys, m: nat, poll: PollOutcome): Sys
    requires m in s.monitors
  {
    var mon := s.monitors[m];
    match poll
    case PollError =>
      if mon.cancelled then Watch(s, m, Exited) else
        s.(monitors := s.monitors[m := mon.(errors := mon.errors + 1,
             pc := if mon.errors + 1 >= THRESHOLD then CheckThreshold else Wait)])
    case Connected => s.(monitors := s.monitors[m := mon.(errors := 0, pc := Mark(Started))])
    case Connecting => s.(monitors := s.monitors[m := mon.(errors := 0, pc := Mark(Starting))])
    case UnknownStatus => s.(monitors := s.monitors[m := mon.(errors := 0, pc := Wait)])
    case Disconnected => Watch(s, m, MarkDown)
    case Failed => Watch(s, m, EmitDaemonFailure)
  }

  function ClearOwnStep(s: Sys, m: nat): Sys
    requires m in s.monitors
  {
    var r := ClearSession(s.svc, m);
    var s1 := Move(CancelMonitor(s, r.cancelMonitor), r.taken, ByMonitor(m));
    s1.(svc := r.fields, monitors := s1.monitors[m :=
        s1.monitors[m].(taken := r.taken, pc := if r.taken.Some? then CloseTaken else Exited)])
  }

  function FailOwnStep(s: Sys, m: nat): Sys
    requires m in s.monitors
  {
    var r := FailSession(s.svc, m);
    if !r.ok then Watch(s, m, Exited) else
      var s1 := Move(s, r.taken, ByMonitor(m));
      s1.(svc := r.fields, monitors := s1.monitors[m :=
          s1.monitors[m].(taken := r.taken, pc := CancelTaken(r.cancelMonitor))])
  }

  /** `poll` is the daemon's answer in a `Poll` step; in a `Wait` step `PollError` stands for a done context. */
  function StepMonitor(s: Sys, m: nat, poll: PollOutcome): (t: Sys)
    requires m in s.monitors
    ensures |s.clients| <= |t.clients|
  {
    var mon := s.monitors[m];
    match mon.pc
    case Check => Watch(s, m, if mon.cancelled then Exited else Poll)
    case Poll => PollStep(s, m, poll)
    case Mark(state) => Watch(s.(svc := s.svc.(state := state)), m, Wait)
    case EmitDaemonFailure => s.(monitors := s.monitors[m := mon.(failures := mon.failures + 1, pc := MarkDown)])
    case MarkDown => Watch(s.(svc := s.svc.(state := Stopped)), m, ClearOwn)
    case ClearOwn => ClearOwnStep(s, m)
    case CheckThreshold => Watch(s, m, if mon.cancelled then Exited else FailOwn)
    case FailOwn => FailOwnStep(s, m)
    case CancelTaken(context) => Watch(CancelMonitor(s, context), m, EmitThreshold)
    case EmitThreshold =>
      s.(monitors := s.monitors[m :=
        mon.(failures := mon.failures + 1, thresholdFailures := mon.thresholdFailures + 1, pc := CloseTaken)])
    case CloseTaken => Watch(Close(s, mon.taken, ByMonitor(m)), m, Exited)
    case Wait => Watch(s, m, if poll == PollError && mon.cancelled then Exited else Check)
    case Exited => s
  }

  // ---------- runs ----------

  predicate Enabled(s: Sys, act: Action) {
    match act
    case AttemptStep(a, o) => a in s.attempts
        && (s.attempts[a].pc == WaitKey && o == Success ==> s.attempts[a].slot.Some?)
    case CallStep(d, _) => d < |s.calls|
    case MonitorStep(m, _) => m in s.monitors
    case _ => true
  }

  function Apply(s: Sys, act: Action): (t: Sys)
    requires Enabled(s, act)
    ensures |s.clients| <= |t.clients|
  {
    match act
    case ConnectCall(interactive) => Connect(s, interactive)
    case DisconnectCall => StartDisconnect(s)
    case SetFailureCall => Fail(s)
    case NewSecretsCall(secrets) => Secret(s, secrets)
    case AttemptStep(a, o) => StepAttempt(s, a, o)
    case CallStep(d, daemonError) => StepCall(s, d, daemonError)
    case MonitorStep(m, poll) => StepMonitor(s, m, poll)
  }

  ghost predicate StepAt(states: seq<Sys>, acts: seq<Action>, i: nat)
    requires |states| == |acts| + 1 && i < |acts|
  {
    Enabled(states[i], acts[i]) && states[i + 1] == Apply(states[i], acts[i])
  }

  /** A run: every scheduling of every call, and every answer of the daemon, of any length. */
  ghost predicate IsRun(states: seq<Sys>, acts: seq<Action>) {
    && |states| == |acts| + 1
    && states[0] == INITIAL_SYS
    && forall i: nat :: i < |acts| ==> StepAt(states, acts, i)
  }
}
