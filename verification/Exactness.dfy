/**
What each action changes, exactly: every field of the service, every context, every count of
a client, and when. The actions are described by who takes them and what he is about to do.
*/
module Exactness {
  import opened Wrappers
  import opened Text
  import opened ServiceRegions
  import opened Protocol
  import opened Invariant
  import opened Effects

  // ---------- who is about to do what ----------

  predicate AttemptAt(s: Sys, act: Action, pc: AttemptPc) {
    act.AttemptStep? && act.attempt in s.attempts && s.attempts[act.attempt].pc == pc
  }

  predicate MonitorAt(s: Sys, act: Action, pc: MonitorPc) {
    act.MonitorStep? && act.session in s.monitors && s.monitors[act.session].pc == pc
  }

  /** A Connect call is accepted if and only if nothing is being activated and no session is installed. */
  predicate Accepts(s: Sys, act: Action) {
    act.ConnectCall? && !s.svc.activating && s.svc.client.None?
  }

  /** The monitor of the installed session retires it. */
  predicate Retires(s: Sys, act: Action) {
    (MonitorAt(s, act, ClearOwn) || MonitorAt(s, act, FailOwn)) && act.session == s.svc.sessionID && s.svc.client.Some?
  }

  /** The secrets answer the prompt of attempt `a`: they name it, or no activation at all. */
  predicate Answers(s: Sys, act: Action, a: nat, kind: PromptKind) {
    && act.NewSecretsCall? && s.svc.prompt == Some(Prompt(a, kind))
    && (act.secrets.promptActivationID == "" || act.secrets.promptActivationID == Decimal(a))
  }

  predicate SsoMarked(secrets: Secrets) {
    secrets.ssoContinue || secrets.ssoCancel
  }

  /** The answer is one the prompt was waiting for. */
  predicate Settles(s: Sys, act: Action) {
    && s.svc.prompt.Some?
    && Answers(s, act, s.svc.prompt.value.activationID, s.svc.prompt.value.kind)
    && (s.svc.prompt.value.kind == SsoPrompt ==> SsoMarked(act.secrets))
  }

  /** An attempt cleans up after itself, and the prompt is its own. */
  predicate DropsOwnPrompt(s: Sys, act: Action) {
    && (AttemptAt(s, act, Clear(true)) || AttemptAt(s, act, Clear(false)))
    && s.svc.prompt.Some? && s.svc.prompt.value.activationID == act.attempt
  }

  // ---------- the fields of the service ----------

  function ClientAfter(s: Sys, act: Action): Option<nat> {
    if Installs(s, act) then s.attempts[act.attempt].client
    else if act.DisconnectCall? || Retires(s, act) then None
    else s.svc.client
  }

  function ActivatingAfter(s: Sys, act: Action): bool {
    Accepts(s, act) || (s.svc.activating && !Installs(s, act) && !AttemptAt(s, act, Release))
  }

  function SessionAfter(s: Sys, act: Action): nat {
    s.svc.sessionID + if act.DisconnectCall? || Installs(s, act) then 1 else 0
  }

  function ActivationAfter(s: Sys, act: Action): nat {
    s.svc.activationID + if act.DisconnectCall? || Accepts(s, act) then 1 else 0
  }

  function PromptAfter(s: Sys, act: Action): Option<Prompt> {
    if Registers(s, act) then
      Some(Prompt(act.attempt, if s.attempts[act.attempt].pc.RegisterKey? then SetupKeyPrompt else SsoPrompt))
    else if || Accepts(s, act) || act.DisconnectCall? || act.SetFailureCall? || Settles(s, act)
            || Installs(s, act) || AttemptAt(s, act, Release) || DropsOwnPrompt(s, act) then
      None
    else
      s.svc.prompt
  }

  /** The five fields after an action. */
  predicate FieldsAfter(s: Sys, act: Action, f: Fields) {
    && f.client == ClientAfter(s, act)
    && f.activating == ActivatingAfter(s, act)
    && f.sessionID == SessionAfter(s, act)
    && f.activationID == ActivationAfter(s, act)
    && f.prompt == PromptAfter(s, act)
  }

  /** Each of the fields changes by the named actions, always, and by no others. */
  lemma FieldsChangeExactly(s: Sys, act: Action)
    requires Inv(s) && Enabled(s, act)
    ensures FieldsAfter(s, act, Apply(s, act).svc)
  {
    match act
    case ConnectCall(interactive) =>
    case DisconnectCall =>
    case SetFailureCall =>
    case NewSecretsCall(secrets) => SecretsChangeFields(s, secrets);
    case AttemptStep(a, o) => AttemptChangesFields(s, a, o);
    case CallStep(d, daemonError) => CallChangesFields(s, d, daemonError);
    case MonitorStep(m, poll) => MonitorChangesFields(s, m, poll);
  }

  lemma SecretsChangeFields(s: Sys, secrets: Secrets)
    ensures FieldsAfter(s, NewSecretsCall(secrets), Secret(s, secrets).svc)
  {
  }

  lemma CallChangesFields(s: Sys, d: nat, daemonError: bool)
    requires d < |s.calls|
    ensures FieldsAfter(s, CallStep(d, daemonError), StepCall(s, d, daemonError).svc)
  {
  }

  lemma MonitorChangesFields(s: Sys, m: nat, poll: PollOutcome)
    requires Inv(s) && m in s.monitors
    ensures FieldsAfter(s, MonitorStep(m, poll), StepMonitor(s, m, poll).svc)
  {
    match s.monitors[m].pc
    case ClearOwn => ClearChangesFields(s, m, poll);
    case FailOwn => FailChangesFields(s, m, poll);
    case _ => OtherMonitorsChangeNothing(s, m, poll);
  }

  lemma MonitorWritesStateOnly(s: Sys, m: nat, poll: PollOutcome)
    requires m in s.monitors && !s.monitors[m].pc.ClearOwn? && !s.monitors[m].pc.FailOwn?
    ensures StepMonitor(s, m, poll).svc == s.svc.(state := StepMonitor(s, m, poll).svc.state)
  {
  }

  lemma OtherMonitorsChangeNothing(s: Sys, m: nat, poll: PollOutcome)
    requires m in s.monitors && !s.monitors[m].pc.ClearOwn? && !s.monitors[m].pc.FailOwn?
    ensures FieldsAfter(s, MonitorStep(m, poll), StepMonitor(s, m, poll).svc)
  {
    MonitorWritesStateOnly(s, m, poll);
    var f := StepMonitor(s, m, poll).svc;
    assert f == s.svc.(state := f.state);
  }

  lemma ClearChangesFields(s: Sys, m: nat, poll: PollOutcome)
    requires Inv(s) && m in s.monitors && s.monitors[m].pc.ClearOwn?
    ensures FieldsAfter(s, MonitorStep(m, poll), ClearOwnStep(s, m).svc)
  {
  }

  lemma FailChangesFields(s: Sys, m: nat, poll: PollOutcome)
    requires Inv(s) && m in s.monitors && s.monitors[m].pc.FailOwn?
    ensures FieldsAfter(s, MonitorStep(m, poll), FailOwnStep(s, m).svc)
  {
  }

  lemma AttemptChangesFields(s: Sys, a: nat, o: Outcome)
    requires Inv(s) && Enabled(s, AttemptStep(a, o))
    ensures FieldsAfter(s, AttemptStep(a, o), StepAttempt(s, a, o).svc)
  {
    assert AttemptInv(s, a);
    if IsRising(s.attempts[a].pc) {
      RisingChangesFields(s, a, o);
    } else if !IsPlain(s.attempts[a].pc) {
      EndingChangesFields(s, a, o);
    }
  }

  lemma RisingChangesFields(s: Sys, a: nat, o: Outcome)
    requires a in s.attempts && IsRising(s.attempts[a].pc)
    ensures FieldsAfter(s, AttemptStep(a, o), RisingStep(s, a, o).svc)
  {
  }

  lemma EndingChangesFields(s: Sys, a: nat, o: Outcome)
    requires Inv(s) && a in s.attempts && !IsPlain(s.attempts[a].pc) && !IsRising(s.attempts[a].pc)
    ensures FieldsAfter(s, AttemptStep(a, o), EndingStep(s, a).svc)
  {
    match s.attempts[a].pc
    case Release => ReleaseChangesFields(s, a, o);
    case Clear(success) => CleanupChangesFields(s, a, success, o);
    case _ => OtherEndingsChangeNothing(s, a, o);
  }

  lemma ReleaseChangesFields(s: Sys, a: nat, o: Outcome)
    requires Inv(s) && a in s.attempts && s.attempts[a].pc.Release?
    ensures FieldsAfter(s, AttemptStep(a, o), ReleaseStep(s, a).svc)
  {
    assert AttemptInv(s, a);
  }

  lemma CleanupChangesFields(s: Sys, a: nat, success: bool, o: Outcome)
    requires a in s.attempts && s.attempts[a].pc == Clear(success)
    ensures FieldsAfter(s, AttemptStep(a, o), ClearStep(s, a, success).svc)
  {
  }

  predicate IsLateEnding(pc: AttemptPc) {
    pc.MarkStarted? || pc.MarkStopped? || pc.Down? || pc.CancelOwn? || pc.CloseClient? || pc.Finished?
  }

  lemma OtherEndingsChangeNothing(s: Sys, a: nat, o: Outcome)
    requires a in s.attempts && IsLateEnding(s.attempts[a].pc)
    ensures FieldsAfter(s, AttemptStep(a, o), EndingStep(s, a).svc)
  {
    LateEndingsWriteStateOnly(s, a);
    var f := EndingStep(s, a).svc;
    assert f == s.svc.(state := f.state);
  }

  lemma LateEndingsWriteStateOnly(s: Sys, a: nat)
    requires a in s.attempts && IsLateEnding(s.attempts[a].pc)
    ensures EndingStep(s, a).svc == s.svc.(state := EndingStep(s, a).svc.state)
  {
  }

  /** An accepted Connect call adds a fresh attempt under the next id, and a refused one does nothing. */
  lemma ConnectAdds(s: Sys, interactive: bool)
    ensures !Accepts(s, ConnectCall(interactive)) ==> Connect(s, interactive) == s
    ensures Accepts(s, ConnectCall(interactive)) ==>
              var id := s.svc.activationID + 1;
              var newcomer := Attempt(MarkStarting, interactive, false, None, false, None, None);
              && Connect(s, interactive).attempts == s.attempts[id := newcomer]
              && Connect(s, interactive).svc.activationCancel == Some(id)
              && Connect(s, interactive).svc.state == s.svc.state
  {
  }

  // ---------- who cancels whom ----------

  /** What cancels the context of attempt `a`. */
  predicate CancelsAttempt(s: Sys, act: Action, a: nat)
    requires a in s.attempts
  {
    || ((act.DisconnectCall? || act.SetFailureCall?) && Live(s.attempts[a].pc))
    || (Answers(s, act, a, SsoPrompt) && act.secrets.ssoCancel)
    || (act.AttemptStep? && act.attempt == a && s.attempts[a].pc.CancelOwn?)
  }

  /** A context is cancelled by these actions, always, and by no others; none is ever un-cancelled. */
  lemma AttemptsCancelledExactly(s: Sys, act: Action, a: nat)
    requires Inv(s) && Enabled(s, act) && a in s.attempts
    ensures a in Apply(s, act).attempts
    ensures Apply(s, act).attempts[a].cancelled <==> s.attempts[a].cancelled || CancelsAttempt(s, act, a)
  {
    assert AttemptInv(s, a);
    match act
    case ConnectCall(interactive) =>
    case DisconnectCall => DisconnectCancels(s, a);
    case SetFailureCall =>
    case NewSecretsCall(secrets) => SecretsCancel(s, secrets, a);
    case AttemptStep(x, o) => StepCancels(s, x, o, a);
    case CallStep(d, daemonError) => assert StepCall(s, d, daemonError).attempts == s.attempts;
    case MonitorStep(m, poll) => MonitorLeavesAttempts(s, m, poll);
  }

  lemma DisconnectCancels(s: Sys, a: nat)
    requires Inv(s) && a in s.attempts
    ensures a in StartDisconnect(s).attempts
    ensures StartDisconnect(s).attempts[a].cancelled <==> s.attempts[a].cancelled || Live(s.attempts[a].pc)
  {
    assert AttemptInv(s, a);
  }

  lemma SecretsCancel(s: Sys, secrets: Secrets, a: nat)
    requires Inv(s) && a in s.attempts
    ensures a in Secret(s, secrets).attempts
    ensures Secret(s, secrets).attempts[a].cancelled <==>
              s.attempts[a].cancelled || (Answers(s, NewSecretsCall(secrets), a, SsoPrompt) && secrets.ssoCancel)
  {
  }

  lemma MonitorLeavesAttempts(s: Sys, m: nat, poll: PollOutcome)
    requires m in s.monitors
    ensures StepMonitor(s, m, poll).attempts == s.attempts
  {
  }

  lemma StepCancels(s: Sys, x: nat, o: Outcome, a: nat)
    requires Enabled(s, AttemptStep(x, o)) && a in s.attempts
    ensures a in StepAttempt(s, x, o).attempts
    ensures StepAttempt(s, x, o).attempts[a].cancelled <==>
              s.attempts[a].cancelled || (x == a && s.attempts[a].pc.CancelOwn?)
  {
    StepFrame(s, x, o);
    if x == a {
      OwnStepCancels(s, a, o);
    }
  }

  lemma OwnStepCancels(s: Sys, a: nat, o: Outcome)
    requires Enabled(s, AttemptStep(a, o)) && a in StepAttempt(s, a, o).attempts
    ensures StepAttempt(s, a, o).attempts[a].cancelled <==> s.attempts[a].cancelled || s.attempts[a].pc.CancelOwn?
  {
    if IsRising(s.attempts[a].pc) {
      RisingCancelsNone(s, a, o);
    } else if !IsPlain(s.attempts[a].pc) {
      EndingCancels(s, a);
    }
  }

  lemma RisingCancelsNone(s: Sys, a: nat, o: Outcome)
    requires a in s.attempts && IsRising(s.attempts[a].pc) && a in RisingStep(s, a, o).attempts
    ensures RisingStep(s, a, o).attempts[a].cancelled == s.attempts[a].cancelled
  {
  }

  lemma EndingCancels(s: Sys, a: nat)
    requires a in s.attempts && !IsPlain(s.attempts[a].pc) && !IsRising(s.attempts[a].pc)
    requires a in EndingStep(s, a).attempts
    ensures EndingStep(s, a).attempts[a].cancelled <==> s.attempts[a].cancelled || s.attempts[a].pc.CancelOwn?
  {
  }

  /**
  An answer to a single sign-on prompt: the cancel marker cancels, continuing does not, and neither
  marker does nothing.
  */
  lemma SsoAnswer(s: Sys, secrets: Secrets, a: nat)
    requires Inv(s) && Answers(s, NewSecretsCall(secrets), a, SsoPrompt)
    ensures !SsoMarked(secrets) ==> Secret(s, secrets) == s
    ensures SsoMarked(secrets) && !secrets.ssoCancel ==> Secret(s, secrets) == s.(svc := s.svc.(prompt := None))
    ensures secrets.ssoCancel ==>
              && a in s.attempts
              && Secret(s, secrets) == s.(svc := s.svc.(prompt := None),
                                          attempts := s.attempts[a := s.attempts[a].(cancelled := true)])
  {
  }

  /** Secrets that answer no registered prompt change nothing. */
  lemma OtherAnswersIgnored(s: Sys, secrets: Secrets)
    requires s.svc.prompt.Some? ==>
               !Answers(s, NewSecretsCall(secrets), s.svc.prompt.value.activationID, s.svc.prompt.value.kind)
    ensures Secret(s, secrets) == s
  {
  }

  /** What cancels the context of the monitor of session `m`. */
  predicate CancelsMonitor(s: Sys, act: Action, m: nat)
    requires m in s.monitors
  {
    || (act.DisconnectCall? && s.svc.client.Some? && s.svc.sessionID == m)
    || (Retires(s, act) && act.session == m && s.monitors[m].pc.ClearOwn?)
    || (act.MonitorStep? && act.session == m && s.monitors[m].pc.CancelTaken?)
  }

  lemma MonitorsCancelledExactly(s: Sys, act: Action, m: nat)
    requires Inv(s) && Enabled(s, act) && m in s.monitors
    ensures m in Apply(s, act).monitors
    ensures Apply(s, act).monitors[m].cancelled <==> s.monitors[m].cancelled || CancelsMonitor(s, act, m)
  {
    assert MonitorInv(s, m);
    match act
    case ConnectCall(interactive) =>
    case DisconnectCall => DisconnectCancelsMonitor(s, m);
    case SetFailureCall =>
    case NewSecretsCall(secrets) =>
    case AttemptStep(a, o) => AttemptCancelsNoMonitor(s, a, o, m);
    case CallStep(d, daemonError) => assert StepCall(s, d, daemonError).monitors == s.monitors;
    case MonitorStep(n, poll) => MonitorCancels(s, n, poll, m);
  }

  lemma DisconnectCancelsMonitor(s: Sys, m: nat)
    requires Inv(s) && m in s.monitors
    ensures m in StartDisconnect(s).monitors
    ensures StartDisconnect(s).monitors[m].cancelled <==>
              s.monitors[m].cancelled || (s.svc.client.Some? && s.svc.sessionID == m)
  {
  }

  lemma AttemptCancelsNoMonitor(s: Sys, a: nat, o: Outcome, m: nat)
    requires Inv(s) && Enabled(s, AttemptStep(a, o)) && m in s.monitors
    ensures m in StepAttempt(s, a, o).monitors && StepAttempt(s, a, o).monitors[m].cancelled == s.monitors[m].cancelled
  {
    assert MonitorInv(s, m) && AttemptInv(s, a);
    if s.attempts[a].pc.Complete? {
      CompleteCancelsNoMonitor(s, a, m);
    } else {
      OnlyCompleteTouchesMonitors(s, a, o);
    }
  }

  lemma CompleteCancelsNoMonitor(s: Sys, a: nat, m: nat)
    requires Inv(s) && a in s.attempts && s.attempts[a].pc.Complete? && m in s.monitors
    ensures m in CompleteStep(s, a).monitors && CompleteStep(s, a).monitors[m].cancelled == s.monitors[m].cancelled
  {
    assert MonitorInv(s, m) && AttemptInv(s, a);
  }

  lemma OnlyCompleteTouchesMonitors(s: Sys, a: nat, o: Outcome)
    requires Enabled(s, AttemptStep(a, o)) && !s.attempts[a].pc.Complete?
    ensures StepAttempt(s, a, o).monitors == s.monitors
  {
  }

  lemma MonitorCancels(s: Sys, n: nat, poll: PollOutcome, m: nat)
    requires Inv(s) && n in s.monitors && m in s.monitors
    ensures m in StepMonitor(s, n, poll).monitors
    ensures StepMonitor(s, n, poll).monitors[m].cancelled <==>
              s.monitors[m].cancelled || CancelsMonitor(s, MonitorStep(n, poll), m)
  {
    assert MonitorInv(s, n) && MonitorInv(s, m);
    match s.monitors[n].pc
    case ClearOwn => ClearCancels(s, n, m);
    case FailOwn => FailCancelsNone(s, n, m);
    case CancelTaken(context) => CancelTakenCancels(s, n, poll, m);
    case Poll => PollCancelsNone(s, n, poll, m);
    case _ => OthersCancelNone(s, n, poll, m);
  }

  lemma CancelTakenCancels(s: Sys, n: nat, poll: PollOutcome, m: nat)
    requires Inv(s) && n in s.monitors && m in s.monitors && s.monitors[n].pc.CancelTaken?
    ensures m in StepMonitor(s, n, poll).monitors
    ensures StepMonitor(s, n, poll).monitors[m].cancelled <==>
              s.monitors[m].cancelled || CancelsMonitor(s, MonitorStep(n, poll), m)
  {
    assert MonitorInv(s, n);
  }

  lemma OthersCancelNone(s: Sys, n: nat, poll: PollOutcome, m: nat)
    requires n in s.monitors && m in s.monitors && !s.monitors[n].pc.Poll?
    requires !s.monitors[n].pc.ClearOwn? && !s.monitors[n].pc.FailOwn? && !s.monitors[n].pc.CancelTaken?
    ensures m in StepMonitor(s, n, poll).monitors
    ensures StepMonitor(s, n, poll).monitors[m].cancelled == s.monitors[m].cancelled
  {
  }

  lemma ClearCancels(s: Sys, n: nat, m: nat)
    requires Inv(s) && n in s.monitors && m in s.monitors
    ensures m in ClearOwnStep(s, n).monitors
    ensures ClearOwnStep(s, n).monitors[m].cancelled <==>
              s.monitors[m].cancelled || (n == m && s.svc.sessionID == m && s.svc.client.Some?)
  {
  }

  lemma FailCancelsNone(s: Sys, n: nat, m: nat)
    requires n in s.monitors && m in s.monitors
    ensures m in FailOwnStep(s, n).monitors && FailOwnStep(s, n).monitors[m].cancelled == s.monitors[m].cancelled
  {
  }

  lemma PollCancelsNone(s: Sys, n: nat, poll: PollOutcome, m: nat)
    requires n in s.monitors && m in s.monitors
    ensures m in PollStep(s, n, poll).monitors && PollStep(s, n, poll).monitors[m].cancelled == s.monitors[m].cancelled
  {
  }

  // ---------- what is done to a client ----------

  function If(b: bool): nat {
    if b then 1 else 0
  }

  /** A client is brought up, brought down and closed by the steps that are about to do so, always, and by no others. */
  predicate Counted(s: Sys, act: Action, c: nat, after: ClientRecord)
    requires c < |s.clients|
  {
    && after.dialer == s.clients[c].dialer
    && after.ups == s.clients[c].ups + If(BringsUp(s, act, c) && act.outcome == Success)
    && after.downs == s.clients[c].downs + If(BringsDown(s, act, c))
    && after.closes == s.clients[c].closes + If(Closes(s, act, c))
  }

  lemma ClientsCountedExactly(s: Sys, act: Action, c: nat)
    requires Enabled(s, act) && c < |s.clients|
    ensures Counted(s, act, c, Apply(s, act).clients[c])
  {
    match act
    case ConnectCall(interactive) =>
    case DisconnectCall =>
    case SetFailureCall =>
    case NewSecretsCall(secrets) =>
    case AttemptStep(a, o) => AttemptCounts(s, a, o, c);
    case CallStep(d, daemonError) => CallCounts(s, d, daemonError, c);
    case MonitorStep(m, poll) => MonitorCounts(s, m, poll, c);
  }

  lemma AttemptCounts(s: Sys, a: nat, o: Outcome, c: nat)
    requires Enabled(s, AttemptStep(a, o)) && c < |s.clients|
    ensures Counted(s, AttemptStep(a, o), c, StepAttempt(s, a, o).clients[c])
  {
    if IsRising(s.attempts[a].pc) {
      RisingCounts(s, a, o, c);
    } else if !IsPlain(s.attempts[a].pc) {
      EndingCounts(s, a, o, c);
    }
  }

  lemma RisingCounts(s: Sys, a: nat, o: Outcome, c: nat)
    requires a in s.attempts && IsRising(s.attempts[a].pc) && c < |s.clients|
    ensures c < |RisingStep(s, a, o).clients| && Counted(s, AttemptStep(a, o), c, RisingStep(s, a, o).clients[c])
  {
  }

  lemma EndingCounts(s: Sys, a: nat, o: Outcome, c: nat)
    requires a in s.attempts && !IsPlain(s.attempts[a].pc) && !IsRising(s.attempts[a].pc) && c < |s.clients|
    ensures c < |EndingStep(s, a).clients| && Counted(s, AttemptStep(a, o), c, EndingStep(s, a).clients[c])
  {
  }

  lemma CallCounts(s: Sys, d: nat, daemonError: bool, c: nat)
    requires d < |s.calls| && c < |s.clients|
    ensures Counted(s, CallStep(d, daemonError), c, StepCall(s, d, daemonError).clients[c])
  {
  }

  lemma MonitorCounts(s: Sys, m: nat, poll: PollOutcome, c: nat)
    requires m in s.monitors && c < |s.clients|
    ensures Counted(s, MonitorStep(m, poll), c, StepMonitor(s, m, poll).clients[c])
  {
    match s.monitors[m].pc
    case ClearOwn => ClearCounts(s, m, poll, c);
    case FailOwn => FailCounts(s, m, poll, c);
    case Poll => assert StepMonitor(s, m, poll).clients == s.clients;
    case _ =>
  }

  lemma ClearCounts(s: Sys, m: nat, poll: PollOutcome, c: nat)
    requires m in s.monitors && c < |s.clients| && s.monitors[m].pc.ClearOwn?
    ensures c < |ClearOwnStep(s, m).clients| && Counted(s, MonitorStep(m, poll), c, ClearOwnStep(s, m).clients[c])
  {
  }

  lemma FailCounts(s: Sys, m: nat, poll: PollOutcome, c: nat)
    requires m in s.monitors && c < |s.clients| && s.monitors[m].pc.FailOwn?
    ensures c < |FailOwnStep(s, m).clients| && Counted(s, MonitorStep(m, poll), c, FailOwnStep(s, m).clients[c])
  {
  }
}
