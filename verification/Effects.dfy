/**
What a single action can change, one aspect of the state at a time. These facts hold in
every state, reachable or not; the theorems about runs are built on them.
*/
module Effects {
  import opened Wrappers
  import opened ServiceRegions
  import opened Protocol

  /** The uses of client `c` that `act` is about to make. */
  predicate BringsUp(s: Sys, act: Action, c: nat) {
    && act.AttemptStep? && act.attempt in s.attempts
    && s.attempts[act.attempt].pc.Up? && s.attempts[act.attempt].client == Some(c)
  }

  predicate BringsDown(s: Sys, act: Action, c: nat) {
    || (&& act.AttemptStep? && act.attempt in s.attempts
        && s.attempts[act.attempt].pc.Down? && s.attempts[act.attempt].client == Some(c))
    || (act.CallStep? && act.call < |s.calls| && s.calls[act.call].pc.CallDown? && s.calls[act.call].client == Some(c))
  }

  predicate Closes(s: Sys, act: Action, c: nat) {
    || (&& act.AttemptStep? && act.attempt in s.attempts
        && s.attempts[act.attempt].pc.CloseClient? && s.attempts[act.attempt].client == Some(c))
    || (act.CallStep? && act.call < |s.calls| && s.calls[act.call].pc.CallClose? && s.calls[act.call].client == Some(c))
    || (&& act.MonitorStep? && act.session in s.monitors
        && s.monitors[act.session].pc.CloseTaken? && s.monitors[act.session].taken == Some(c))
  }

  predicate Installs(s: Sys, act: Action) {
    && act.AttemptStep? && act.attempt in s.attempts
    && s.attempts[act.attempt].pc.Complete? && !s.attempts[act.attempt].cancelled
    && s.svc.activating && s.attempts[act.attempt].client.Some?
  }

  predicate Registers(s: Sys, act: Action) {
    && act.AttemptStep? && act.attempt in s.attempts
    && (s.attempts[act.attempt].pc.RegisterKey? || s.attempts[act.attempt].pc.RegisterSso?)
    && s.svc.activating && act.attempt == s.svc.activationID
  }

  /** An attempt about to mark a session as started that is not the service's session any more. */
  predicate LateMark(s: Sys, act: Action) {
    && act.AttemptStep? && act.attempt in s.attempts && s.attempts[act.attempt].pc.MarkStarted?
    && (s.svc.sessionID != s.attempts[act.attempt].pc.session || s.svc.client.None?)
  }

  ghost predicate ClientEffect(s: Sys, act: Action, t: Sys) {
    && |s.clients| <= |t.clients|
    && (forall c :: 0 <= c < |s.clients| ==>
          var before, after := s.clients[c], t.clients[c];
          && after.dialer == before.dialer
          && (after.ups == before.ups || (after.ups == before.ups + 1 && BringsUp(s, act, c)))
          && (after.downs == before.downs || (after.downs == before.downs + 1 && BringsDown(s, act, c)))
          && (after.closes == before.closes || (after.closes == before.closes + 1 && Closes(s, act, c))))
  }

  ghost predicate AttemptEffect(s: Sys, act: Action, t: Sys) {
    && t.attempts.Keys == s.attempts.Keys
        + (if act.ConnectCall? && Reserve(s.svc).ok then {s.svc.activationID + 1} else {})
    && (forall a :: a in s.attempts && !(act.ConnectCall? && a == s.svc.activationID + 1) ==>
          var before, after := s.attempts[a], t.attempts[a];
          && (before.cancelled ==> after.cancelled)
          && (after.pc != before.pc ==> act.AttemptStep? && act.attempt == a)
          && (Live(after.pc) ==> Live(before.pc))
          && (after.pc.MarkStarted? && after.pc != before.pc ==>
              Installs(s, act) && after.pc.session == t.svc.sessionID))
  }

  ghost predicate ServiceEffect(s: Sys, act: Action, t: Sys) {
    && s.svc.activationID <= t.svc.activationID <= s.svc.activationID + 1
    && s.svc.sessionID <= t.svc.sessionID <= s.svc.sessionID + 1
    && (act.ConnectCall? && Reserve(s.svc).ok ==> t.svc.activationID == s.svc.activationID + 1)
    && (t.svc.client == s.svc.client || t.svc.client.None?
        || (Installs(s, act) && t.svc.client == s.attempts[act.attempt].client))
    && (t.svc.prompt == s.svc.prompt || t.svc.prompt.None?
        || (Registers(s, act) && t.svc.prompt.value.activationID == act.attempt))
    && (LateMark(s, act) ==> t.svc == s.svc)
  }

  ghost predicate MonitorEffect(s: Sys, act: Action, t: Sys) {
    && s.monitors.Keys <= t.monitors.Keys
    && (forall m :: m in t.monitors ==>
          if m in s.monitors && !(Installs(s, act) && m == s.svc.sessionID + 1) then
            t.monitors[m].client == s.monitors[m].client
          else
            Installs(s, act) && m == s.svc.sessionID + 1
                && t.monitors[m].client == s.attempts[act.attempt].client.value)
  }

  ghost predicate ChannelEffect(s: Sys, act: Action, t: Sys) {
    forall a :: a in s.attempts && !(act.ConnectCall? && a == s.svc.activationID + 1) && a in t.attempts ==>
      var before, after := s.attempts[a], t.attempts[a];
      || (after.slot == before.slot && after.received == before.received)
      || (&& act == AttemptStep(a, Success) && before.pc.WaitKey? && before.slot.Some?
          && after.slot.None? && after.received == before.slot)
      || (&& act.NewSecretsCall? && s.svc.prompt.Some? && s.svc.prompt.value.activationID == a && before.slot.None?
          && NewSecrets(s.svc, act.secrets).delivered == Some(act.secrets)
          && after.slot == Some(act.secrets) && after.received == before.received)
  }

  lemma ClientEffects(s: Sys, act: Action)
    requires Enabled(s, act)
    ensures ClientEffect(s, act, Apply(s, act))
  {
    match act
    case AttemptStep(a, o) => ClientEffectsOfAttempt(s, a, o);
    case CallStep(_, _) =>
    case MonitorStep(m, poll) => ClientEffectsOfMonitor(s, m, poll);
    case _ =>
  }

  lemma ClientEffectsOfAttempt(s: Sys, a: nat, o: Outcome)
    requires Enabled(s, AttemptStep(a, o))
    ensures ClientEffect(s, AttemptStep(a, o), StepAttempt(s, a, o))
  {
    if IsRising(s.attempts[a].pc) {
      ClientEffectsOfRising(s, a, o);
    } else if !IsPlain(s.attempts[a].pc) {
      ClientEffectsOfEnding(s, a, o);
    }
  }

  lemma ClientEffectsOfRising(s: Sys, a: nat, o: Outcome)
    requires a in s.attempts && IsRising(s.attempts[a].pc)
    ensures ClientEffect(s, AttemptStep(a, o), RisingStep(s, a, o))
  {
  }

  lemma ClientEffectsOfEnding(s: Sys, a: nat, o: Outcome)
    requires a in s.attempts && !IsPlain(s.attempts[a].pc) && !IsRising(s.attempts[a].pc)
    ensures ClientEffect(s, AttemptStep(a, o), EndingStep(s, a))
  {
  }

  lemma ClientEffectsOfMonitor(s: Sys, m: nat, poll: PollOutcome)
    requires m in s.monitors
    ensures ClientEffect(s, MonitorStep(m, poll), StepMonitor(s, m, poll))
  {
    match s.monitors[m].pc
    case ClearOwn => ClientEffectsOfClear(s, m, poll);
    case FailOwn => ClientEffectsOfFail(s, m, poll);
    case CloseTaken =>
    case CancelTaken(context) =>
    case Poll => assert StepMonitor(s, m, poll).clients == s.clients;
    case _ => assert StepMonitor(s, m, poll).clients == s.clients;
  }

  lemma ClientEffectsOfClear(s: Sys, m: nat, poll: PollOutcome)
    requires m in s.monitors
    ensures ClientEffect(s, MonitorStep(m, poll), ClearOwnStep(s, m))
  {
  }

  lemma ClientEffectsOfFail(s: Sys, m: nat, poll: PollOutcome)
    requires m in s.monitors
    ensures ClientEffect(s, MonitorStep(m, poll), FailOwnStep(s, m))
  {
  }

  lemma AttemptEffects(s: Sys, act: Action)
    requires Enabled(s, act)
    ensures AttemptEffect(s, act, Apply(s, act))
  {
    match act
    case AttemptStep(a, o) => AttemptEffectsOfAttempt(s, a, o);
    case CallStep(_, _) =>
    case MonitorStep(m, poll) => AttemptEffectsOfMonitor(s, m, poll);
    case _ =>
  }

  /** A step of one attempt touches no other attempt. */
  lemma StepFrame(s: Sys, a: nat, o: Outcome)
    requires Enabled(s, AttemptStep(a, o))
    ensures StepAttempt(s, a, o).attempts.Keys == s.attempts.Keys
    ensures forall x :: x in s.attempts && x != a ==> StepAttempt(s, a, o).attempts[x] == s.attempts[x]
  {
    if IsRising(s.attempts[a].pc) {
      RisingFrame(s, a, o);
    } else if !IsPlain(s.attempts[a].pc) {
      EndingFrame(s, a);
    }
  }

  lemma RisingFrame(s: Sys, a: nat, o: Outcome)
    requires a in s.attempts && IsRising(s.attempts[a].pc)
    ensures RisingStep(s, a, o).attempts.Keys == s.attempts.Keys
    ensures forall x :: x in s.attempts && x != a ==> RisingStep(s, a, o).attempts[x] == s.attempts[x]
  {
  }

  lemma EndingFrame(s: Sys, a: nat)
    requires a in s.attempts && !IsPlain(s.attempts[a].pc) && !IsRising(s.attempts[a].pc)
    ensures EndingStep(s, a).attempts.Keys == s.attempts.Keys
    ensures forall x :: x in s.attempts && x != a ==> EndingStep(s, a).attempts[x] == s.attempts[x]
  {
  }

  predicate Aged(before: Attempt, after: Attempt) {
    && (before.cancelled ==> after.cancelled)
    && (Live(after.pc) ==> Live(before.pc))
  }

  lemma StepAges(s: Sys, a: nat, o: Outcome)
    requires Enabled(s, AttemptStep(a, o)) && a in StepAttempt(s, a, o).attempts
    ensures var t := StepAttempt(s, a, o);
            var before, after := s.attempts[a], t.attempts[a];
            && Aged(before, after)
            && (after.pc.MarkStarted? && after.pc != before.pc ==>
                  Installs(s, AttemptStep(a, o)) && after.pc.session == t.svc.sessionID)
  {
    var pc := s.attempts[a].pc;
    if IsPlain(pc) {
      PlainAges(pc, s.attempts[a].interactive, o);
    } else if IsRising(pc) {
      RisingAges(s, a, o);
    } else {
      EndingAges(s, a);
    }
  }

  lemma PlainAges(pc: AttemptPc, interactive: bool, o: Outcome)
    requires IsPlain(pc)
    ensures Live(pc) && !NextPc(pc, interactive, o).MarkStarted?
  {
  }

  lemma RisingAges(s: Sys, a: nat, o: Outcome)
    requires a in s.attempts && IsRising(s.attempts[a].pc) && a in RisingStep(s, a, o).attempts
    ensures var t := RisingStep(s, a, o);
            && Aged(s.attempts[a], t.attempts[a])
            && (t.attempts[a].pc.MarkStarted? ==>
                Installs(s, AttemptStep(a, o)) && t.attempts[a].pc.session == t.svc.sessionID)
  {
  }

  lemma EndingNext(s: Sys, a: nat)
    requires a in s.attempts && !IsPlain(s.attempts[a].pc) && !IsRising(s.attempts[a].pc)
    ensures a in EndingStep(s, a).attempts
    ensures var next := EndingStep(s, a).attempts[a].pc;
            match s.attempts[a].pc
            case MarkStarted(_) => next == Clear(true)
            case MarkStopped => next == Clear(false)
            case Clear(success) => next == CancelOwn(success) || (next == Down && !success)
            case Down => next == CancelOwn(false)
            case CancelOwn(success) => next == if success then Finished else Release
            case Release => next == CloseClient || next == Finished
            case _ => next == Finished
  {
  }

  lemma EndingStaysCancelled(s: Sys, a: nat)
    requires a in s.attempts && !IsPlain(s.attempts[a].pc) && !IsRising(s.attempts[a].pc)
    requires a in EndingStep(s, a).attempts
    ensures s.attempts[a].cancelled ==> EndingStep(s, a).attempts[a].cancelled
  {
  }

  lemma EndingAges(s: Sys, a: nat)
    requires a in s.attempts && !IsPlain(s.attempts[a].pc) && !IsRising(s.attempts[a].pc)
    requires a in EndingStep(s, a).attempts
    ensures Aged(s.attempts[a], EndingStep(s, a).attempts[a])
    ensures !EndingStep(s, a).attempts[a].pc.MarkStarted?
  {
    EndingStaysCancelled(s, a);
    EndingNext(s, a);
    EndingPcs(s.attempts[a].pc, EndingStep(s, a).attempts[a].pc);
  }

  lemma EndingPcs(pc: AttemptPc, next: AttemptPc)
    requires next.Clear? || next.Down? || next.CancelOwn? || next.Finished? || next.Release? || next.CloseClient?
    requires !IsPlain(pc) && !IsRising(pc)
    requires match pc
             case MarkStarted(_) => next == Clear(true)
             case MarkStopped => next == Clear(false)
             case Clear(success) => next == CancelOwn(success) || (next == Down && !success)
             case Down => next == CancelOwn(false)
             case CancelOwn(success) => next == if success then Finished else Release
             case Release => next == CloseClient || next == Finished
             case _ => next == Finished
    ensures (Live(next) ==> Live(pc)) && !next.MarkStarted?
  {
  }

  lemma AttemptEffectsOfAttempt(s: Sys, a: nat, o: Outcome)
    requires Enabled(s, AttemptStep(a, o))
    ensures AttemptEffect(s, AttemptStep(a, o), StepAttempt(s, a, o))
  {
    StepFrame(s, a, o);
    StepAges(s, a, o);
  }

  lemma AttemptEffectsOfMonitor(s: Sys, m: nat, poll: PollOutcome)
    requires m in s.monitors
    ensures AttemptEffect(s, MonitorStep(m, poll), StepMonitor(s, m, poll))
  {
  }

  lemma MonitorEffects(s: Sys, act: Action)
    requires Enabled(s, act)
    ensures MonitorEffect(s, act, Apply(s, act))
  {
    match act
    case AttemptStep(a, o) => MonitorEffectsOfAttempt(s, a, o);
    case CallStep(_, _) =>
    case MonitorStep(m, poll) => MonitorEffectsOfMonitor(s, m, poll);
    case _ =>
  }

  lemma MonitorEffectsOfAttempt(s: Sys, a: nat, o: Outcome)
    requires Enabled(s, AttemptStep(a, o))
    ensures MonitorEffect(s, AttemptStep(a, o), StepAttempt(s, a, o))
  {
  }

  lemma MonitorEffectsOfMonitor(s: Sys, m: nat, poll: PollOutcome)
    requires m in s.monitors
    ensures MonitorEffect(s, MonitorStep(m, poll), StepMonitor(s, m, poll))
  {
    var t := StepMonitor(s, m, poll);
    match s.monitors[m].pc
    case ClearOwn => assert t.monitors.Keys == s.monitors.Keys;
    case FailOwn => assert t.monitors.Keys == s.monitors.Keys;
    case _ => assert t.monitors.Keys == s.monitors.Keys;
  }

  lemma ChannelEffects(s: Sys, act: Action)
    requires Enabled(s, act)
    ensures ChannelEffect(s, act, Apply(s, act))
  {
    match act
    case ConnectCall(interactive) =>
    case DisconnectCall =>
    case SetFailureCall =>
    case NewSecretsCall(secrets) => ChannelEffectsOfSecrets(s, secrets);
    case AttemptStep(a, o) => ChannelEffectsOfAttempt(s, a, o);
    case CallStep(d, daemonError) => ChannelEffectsOfCall(s, d, daemonError);
    case MonitorStep(m, poll) => ChannelEffectsOfMonitor(s, m, poll);
  }

  lemma ChannelEffectsOfSecrets(s: Sys, secrets: Secrets)
    ensures ChannelEffect(s, NewSecretsCall(secrets), Secret(s, secrets))
  {
  }

  lemma ChannelEffectsOfCall(s: Sys, d: nat, daemonError: bool)
    requires d < |s.calls|
    ensures ChannelEffect(s, CallStep(d, daemonError), StepCall(s, d, daemonError))
  {
    assert StepCall(s, d, daemonError).attempts == s.attempts;
  }

  predicate SameChannel(before: Attempt, after: Attempt) {
    after.slot == before.slot && after.received == before.received
  }

  lemma PlainChannel(s: Sys, a: nat, pc: AttemptPc)
    requires a in s.attempts
    ensures SameChannel(s.attempts[a], Goto(s, a, pc).attempts[a])
  {
  }

  lemma RisingChannel(s: Sys, a: nat, o: Outcome)
    requires a in s.attempts && IsRising(s.attempts[a].pc) && a in RisingStep(s, a, o).attempts
    ensures var before, after := s.attempts[a], RisingStep(s, a, o).attempts[a];
            || SameChannel(before, after)
            || (&& o == Success && before.pc.WaitKey? && before.slot.Some?
                && after.slot.None? && after.received == before.slot)
  {
    match s.attempts[a].pc
    case Complete => CompleteChannel(s, a);
    case _ =>
  }

  lemma CompleteChannel(s: Sys, a: nat)
    requires a in s.attempts && a in CompleteStep(s, a).attempts
    ensures SameChannel(s.attempts[a], CompleteStep(s, a).attempts[a])
  {
  }

  lemma EndingChannel(s: Sys, a: nat)
    requires a in s.attempts && !IsPlain(s.attempts[a].pc) && !IsRising(s.attempts[a].pc)
    requires a in EndingStep(s, a).attempts
    ensures SameChannel(s.attempts[a], EndingStep(s, a).attempts[a])
  {
  }

  lemma StepChannel(s: Sys, a: nat, o: Outcome)
    requires Enabled(s, AttemptStep(a, o)) && a in StepAttempt(s, a, o).attempts
    ensures var before, after := s.attempts[a], StepAttempt(s, a, o).attempts[a];
            || SameChannel(before, after)
            || (&& o == Success && before.pc.WaitKey? && before.slot.Some?
                && after.slot.None? && after.received == before.slot)
  {
    var pc := s.attempts[a].pc;
    if IsPlain(pc) {
      PlainChannel(s, a, NextPc(pc, s.attempts[a].interactive, o));
    } else if IsRising(pc) {
      RisingChannel(s, a, o);
    } else {
      EndingChannel(s, a);
    }
  }

  lemma ChannelEffectsOfAttempt(s: Sys, a: nat, o: Outcome)
    requires Enabled(s, AttemptStep(a, o))
    ensures ChannelEffect(s, AttemptStep(a, o), StepAttempt(s, a, o))
  {
    StepFrame(s, a, o);
    StepChannel(s, a, o);
  }

  lemma ChannelEffectsOfMonitor(s: Sys, m: nat, poll: PollOutcome)
    requires m in s.monitors
    ensures ChannelEffect(s, MonitorStep(m, poll), StepMonitor(s, m, poll))
  {
  }

  lemma ServiceEffects(s: Sys, act: Action)
    requires Enabled(s, act)
    ensures ServiceEffect(s, act, Apply(s, act))
  {
    match act
    case ConnectCall(interactive) =>
    case DisconnectCall =>
    case SetFailureCall =>
    case NewSecretsCall(secrets) =>
    case AttemptStep(a, o) => ServiceEffectsOfAttempt(s, a, o);
    case CallStep(d, daemonError) =>
    case MonitorStep(m, poll) => ServiceEffectsOfMonitor(s, m, poll);
  }

  lemma ServiceEffectsOfAttempt(s: Sys, a: nat, o: Outcome)
    requires Enabled(s, AttemptStep(a, o))
    ensures ServiceEffect(s, AttemptStep(a, o), StepAttempt(s, a, o))
  {
    if IsRising(s.attempts[a].pc) {
      ServiceEffectsOfRising(s, a, o);
    } else if !IsPlain(s.attempts[a].pc) {
      ServiceEffectsOfEnding(s, a, o);
    }
  }

  lemma ServiceEffectsOfRising(s: Sys, a: nat, o: Outcome)
    requires a in s.attempts && IsRising(s.attempts[a].pc)
    ensures ServiceEffect(s, AttemptStep(a, o), RisingStep(s, a, o))
  {
  }

  lemma ServiceEffectsOfEnding(s: Sys, a: nat, o: Outcome)
    requires a in s.attempts && !IsPlain(s.attempts[a].pc) && !IsRising(s.attempts[a].pc)
    ensures ServiceEffect(s, AttemptStep(a, o), EndingStep(s, a))
  {
  }

  lemma ServiceEffectsOfMonitor(s: Sys, m: nat, poll: PollOutcome)
    requires m in s.monitors
    ensures ServiceEffect(s, MonitorStep(m, poll), StepMonitor(s, m, poll))
  {
  }
}
