/**
What the invariant means for whole runs, under every scheduler and every answer of the
daemon: who owns the slot, where each client is, how often it is brought up, down and
closed, and what a Disconnect or SetFailure call rules out for ever after.
*/
module Lifecycle {
  import opened Wrappers
  import opened Text
  import opened ServiceRegions
  import opened Protocol
  import opened Invariant
  import opened Effects

  // ---------- the slot and the session ----------

  /** The two stages of a connection exclude each other, and each has exactly one cancel function. */
  lemma SlotAndSession(states: seq<Sys>, acts: seq<Action>, i: nat)
    requires IsRun(states, acts) && i < |states|
    ensures var s := states[i];
            && !(s.svc.activating && s.svc.client.Some?)
            && (forall a :: a in s.attempts ==>
                  (Live(s.attempts[a].pc) <==> s.svc.activating && s.svc.activationCancel == Some(a)))
            && (s.svc.activating ==> exists a :: a in s.attempts && Live(s.attempts[a].pc))
            && (s.svc.monitorCancel.Some? <==> s.svc.client.Some?)
            && (s.svc.client.Some? ==> s.svc.monitorCancel == Some(s.svc.sessionID)
                                       && s.svc.sessionID in s.monitors
                                       && s.monitors[s.svc.sessionID].client == s.svc.client.value)
            && (forall a :: a in s.attempts && Live(s.attempts[a].pc) && a != s.svc.activationID ==>
                s.attempts[a].cancelled)
  {
    ReachableInv(states, acts, i);
    var s := states[i];
    forall a | a in s.attempts
      ensures Live(s.attempts[a].pc) <==> s.svc.activating && s.svc.activationCancel == Some(a)
      ensures Live(s.attempts[a].pc) && a != s.svc.activationID ==> s.attempts[a].cancelled
    {
      assert AttemptInv(s, a);
    }
  }

  // ---------- client ownership ----------

  /** Whether the variables of the party at `p` still refer to client `c` as its own to close. */
  predicate Owns(s: Sys, p: Place, c: nat) {
    match p
    case ByAttempt(a) => a in s.attempts && Holds(s.attempts[a]) && s.attempts[a].client == Some(c)
    case Installed => s.svc.client == Some(c)
    case ByCall(d) => d < |s.calls| && CallHolds(s.calls[d]) && s.calls[d].client == Some(c)
    case ByMonitor(m) => m in s.monitors && MonitorHolds(s.monitors[m]) && s.monitors[m].taken == Some(c)
    case Closed(_) => false
  }

  lemma OwnerIsPlace(s: Sys, p: Place, c: nat)
    requires Inv(s) && c < |s.clients|
    ensures Owns(s, p, c) <==> s.clients[c].place == p && !p.Closed?
  {
    assert ClientInv(s, c);
    match p
    case ByAttempt(a) => assert a in s.attempts ==> AttemptInv(s, a);
    case ByCall(d) => assert d < |s.calls| ==> CallInv(s, d);
    case ByMonitor(m) => assert m in s.monitors ==> MonitorInv(s, m);
    case _ =>
  }

  /** Every client the factory returned has exactly one owner until it is closed, which happens once. */
  lemma ClientsConserved(states: seq<Sys>, acts: seq<Action>, i: nat, c: nat)
    requires IsRun(states, acts) && i < |states| && c < |states[i].clients|
    ensures states[i].clients[c].closes <= 1
    ensures states[i].clients[c].closes == 0 <==> exists p :: Owns(states[i], p, c)
    ensures forall p, q :: Owns(states[i], p, c) && Owns(states[i], q, c) ==> p == q
  {
    ReachableInv(states, acts, i);
    var s := states[i];
    assert ClientInv(s, c);
    forall p ensures Owns(s, p, c) <==> s.clients[c].place == p && !p.Closed? {
      OwnerIsPlace(s, p, c);
    }
    if s.clients[c].closes == 0 {
      assert Owns(s, s.clients[c].place, c);
    }
  }

  /** Nothing is in flight: every goroutine and call has ended, except the installed session's monitor. */
  ghost predicate Quiescent(s: Sys) {
    && (forall a :: a in s.attempts ==> s.attempts[a].pc.Finished?)
    && (forall d :: 0 <= d < |s.calls| ==> s.calls[d].pc.Returned?)
    && (forall m :: m in s.monitors ==> s.monitors[m].pc.Exited? || s.svc.client == Some(s.monitors[m].client))
  }

  /** No client leaks: at rest, each one but the installed one has been closed exactly once. */
  lemma QuiescentClientsClosed(states: seq<Sys>, acts: seq<Action>, i: nat, c: nat)
    requires IsRun(states, acts) && i < |states| && c < |states[i].clients| && Quiescent(states[i])
    ensures if states[i].svc.client == Some(c) then states[i].clients[c].closes == 0
        else states[i].clients[c].closes == 1
  {
    ReachableInv(states, acts, i);
    var s := states[i];
    assert ClientInv(s, c);
    OwnerIsPlace(s, s.clients[c].place, c);
    if s.clients[c].place.ByMonitor? {
      assert MonitorInv(s, s.clients[c].place.session);
    }
    OwnerIsPlace(s, Installed, c);
  }

  // ---------- up, down and close ----------

  /** How a closed client was used, by who closed it. */
  lemma UpDownBalance(states: seq<Sys>, acts: seq<Action>, i: nat, c: nat)
    requires IsRun(states, acts) && i < |states| && c < |states[i].clients|
    ensures var r := states[i].clients[c];
            && r.downs <= r.ups <= 1
            && (r.closes == 1 ==>
                  match r.place
                  case Closed(ByAttempt(a)) => a == r.dialer && r.downs == r.ups
                  case Closed(ByCall(_)) => r.ups == 1 && r.downs == 1
                  case Closed(ByMonitor(m)) =>
                    r.ups == 1 && r.downs == 0 && m in states[i].monitors && states[i].monitors[m].client == c
                  case _ => false)
  {
    ReachableInv(states, acts, i);
    assert ClientInv(states[i], c);
  }

  /** Only an open client is brought up or down, so every Down comes before the Close. */
  lemma DownBeforeClose(s: Sys, act: Action, c: nat)
    requires Inv(s) && Enabled(s, act) && c < |s.clients| && s.clients[c].closes > 0
    ensures Apply(s, act).clients[c].ups == s.clients[c].ups
    ensures Apply(s, act).clients[c].downs == s.clients[c].downs
  {
    ClientEffects(s, act);
    ClosedIsUnused(s, act, c);
  }

  lemma ClosedIsUnused(s: Sys, act: Action, c: nat)
    requires Inv(s) && c < |s.clients| && s.clients[c].closes > 0
    ensures !BringsUp(s, act, c) && !BringsDown(s, act, c)
  {
    assert ClientInv(s, c);
    match act
    case AttemptStep(a, _) => assert a in s.attempts ==> AttemptInv(s, a);
    case CallStep(d, _) => assert d < |s.calls| ==> CallInv(s, d);
    case _ =>
  }

  /** A step that brings a client up is the step of an attempt that holds the slot, on its own client. */
  lemma OnlyTheSlotHolderBringsUp(s: Sys, act: Action, c: nat)
    requires Inv(s) && Enabled(s, act) && c < |s.clients|
    ensures Apply(s, act).clients[c].ups > s.clients[c].ups ==>
              act.AttemptStep? && act.attempt in s.attempts && Live(s.attempts[act.attempt].pc)
              && s.clients[c].dialer == act.attempt && s.svc.activationCancel == Some(act.attempt)
  {
    ClientEffects(s, act);
    if BringsUp(s, act, c) {
      assert AttemptInv(s, act.attempt);
    }
  }

  // ---------- an attempt's life ----------

  /** How many program points an attempt has behind it at most. */
  function Progress(pc: AttemptPc): nat {
    match pc
    case MarkStarting => 0
    case Parse => 1
    case Dial => 2
    case Prepare => 3
    case CheckKey => 4
    case RegisterKey => 5
    case EmitKey => 6
    case WaitKey => 7
    case Login => 8
    case EmitBanner => 9
    case RegisterSso => 10
    case EmitSso => 11
    case WaitSso => 12
    case Update => 13
    case Resolve => 14
    case Up => 15
    case WaitReady => 16
    case EmitConfig => 17
    case Complete => 18
    case EmitFailure => 19
    case MarkStopped => 20
    case MarkStarted(_) => 20
    case Clear(_) => 21
    case Down => 22
    case CancelOwn(_) => 23
    case Release => 24
    case CloseClient => 25
    case Finished => 26
  }

  /** An attempt is always able to take a step, and each one brings it nearer to its end. */
  lemma AttemptsProgress(s: Sys, a: nat, o: Outcome)
    requires a in s.attempts && !s.attempts[a].pc.Finished?
    ensures Enabled(s, AttemptStep(a, Failure))
    ensures Enabled(s, AttemptStep(a, o)) ==>
              && a in StepAttempt(s, a, o).attempts
              && Progress(StepAttempt(s, a, o).attempts[a].pc) > Progress(s.attempts[a].pc)
  {
    var pc := s.attempts[a].pc;
    if IsPlain(pc) {
      PlainProgress(pc, s.attempts[a].interactive, o);
    } else if IsRising(pc) {
      RisingProgress(s, a, o);
    } else {
      EndingProgress(s, a);
    }
  }

  lemma PlainProgress(pc: AttemptPc, interactive: bool, o: Outcome)
    requires IsPlain(pc)
    ensures Progress(NextPc(pc, interactive, o)) > Progress(pc)
  {
  }

  lemma RisingProgress(s: Sys, a: nat, o: Outcome)
    requires a in s.attempts && IsRising(s.attempts[a].pc)
    ensures a in RisingStep(s, a, o).attempts
    ensures Progress(RisingStep(s, a, o).attempts[a].pc) > Progress(s.attempts[a].pc)
  {
    RisingNext(s, a, o);
    var pc := RisingStep(s, a, o).attempts[a].pc;
    assert pc.EmitFailure? || pc.Parse? || pc.Prepare? || pc.EmitKey? || pc.Login? || pc.EmitSso? || pc.WaitSso?
        || pc.WaitReady? || pc.MarkStarted? || pc.Clear?;
  }

  lemma RisingNext(s: Sys, a: nat, o: Outcome)
    requires a in s.attempts && IsRising(s.attempts[a].pc)
    ensures a in RisingStep(s, a, o).attempts
    ensures var next := RisingStep(s, a, o).attempts[a].pc;
            match s.attempts[a].pc
            case MarkStarting => next == Parse
            case Dial => next == Prepare || next == EmitFailure
            case RegisterKey => next == EmitKey || next == EmitFailure
            case WaitKey => next == Login || next == EmitFailure
            case RegisterSso => next == EmitSso || next == WaitSso
            case Up => next == WaitReady || next == EmitFailure
            case Complete => next.MarkStarted? || next == Clear(false)
  {
  }

  lemma EndingProgress(s: Sys, a: nat)
    requires a in s.attempts && !IsPlain(s.attempts[a].pc) && !IsRising(s.attempts[a].pc) && !s.attempts[a].pc.Finished?
    ensures a in EndingStep(s, a).attempts && Progress(EndingStep(s, a).attempts[a].pc) > Progress(s.attempts[a].pc)
  {
    EndingNext(s, a);
  }

  /** Attempts are never forgotten, never get their slot back, and never lose a cancellation. */
  lemma AttemptsAge(s: Sys, act: Action, a: nat)
    requires Inv(s) && Enabled(s, act) && a in s.attempts
    ensures a in Apply(s, act).attempts
    ensures Live(Apply(s, act).attempts[a].pc) ==> Live(s.attempts[a].pc)
    ensures s.attempts[a].cancelled ==> Apply(s, act).attempts[a].cancelled
  {
    assert AttemptInv(s, a);
    AttemptEffects(s, act);
  }

  predicate AgedSince(s: Sys, t: Sys, a: nat) {
    && a in s.attempts && a in t.attempts
    && (Live(t.attempts[a].pc) ==> Live(s.attempts[a].pc))
    && (s.attempts[a].cancelled ==> t.attempts[a].cancelled)
  }

  lemma AgeStep(states: seq<Sys>, acts: seq<Action>, k: nat, a: nat)
    requires IsRun(states, acts) && k < |acts| && a in states[k].attempts
    ensures AgedSince(states[k], states[k + 1], a)
  {
    ReachableInv(states, acts, k);
    assert StepAt(states, acts, k);
    AttemptsAge(states[k], acts[k], a);
  }

  lemma {:induction false} AttemptsAgeInRuns(states: seq<Sys>, acts: seq<Action>, i: nat, j: nat, a: nat)
    requires IsRun(states, acts) && i <= j < |states| && a in states[i].attempts
    ensures AgedSince(states[i], states[j], a)
    decreases j
  {
    if i < j {
      AttemptsAgeInRuns(states, acts, i, j - 1, a);
      AgeStep(states, acts, j - 1, a);
    }
  }

  /**
  While an attempt holds the slot, nobody else's Up can happen. In particular none falls
  between the Up of a failed attempt and its Down, because the Down is issued by an
  attempt that is still live.
  */
  lemma NoForeignUpWhileLive(states: seq<Sys>, acts: seq<Action>, i: nat, k: nat, j: nat, a: nat, c: nat)
    requires IsRun(states, acts) && i <= k < j < |states| && c < |states[k].clients|
    requires a in states[i].attempts && a in states[j].attempts && Live(states[j].attempts[a].pc)
    requires c < |states[k + 1].clients| && states[k + 1].clients[c].ups > states[k].clients[c].ups
    ensures states[k].clients[c].dialer == a
  {
    AttemptsAgeInRuns(states, acts, i, k, a);
    AttemptsAgeInRuns(states, acts, k, j, a);
    ReachableInv(states, acts, k);
    assert StepAt(states, acts, k);
    ForeignUpFollows(states[k], acts[k], states[k + 1], a, c);
  }

  lemma ForeignUpFollows(s: Sys, act: Action, t: Sys, a: nat, c: nat)
    requires Inv(s) && Enabled(s, act) && t == Apply(s, act) && a in s.attempts && Live(s.attempts[a].pc)
    requires c < |s.clients| && c < |t.clients| && t.clients[c].ups > s.clients[c].ups
    ensures s.clients[c].dialer == a
  {
    OnlyTheSlotHolderBringsUp(s, act, c);
    assert AttemptInv(s, a);
  }

  /** An attempt that brings a client down still holds the slot, and the client is the one it brought up itself. */
  lemma FailedAttemptDownsWhileLive(s: Sys, a: nat, o: Outcome, c: nat)
    requires Inv(s) && Enabled(s, AttemptStep(a, o)) && c < |s.clients|
    requires StepAttempt(s, a, o).clients[c].downs > s.clients[c].downs
    ensures Live(s.attempts[a].pc) && s.svc.activationCancel == Some(a)
    ensures s.clients[c].dialer == a && s.clients[c].ups == 1 && s.clients[c].downs == 0
  {
    ClientEffectsOfAttempt(s, a, o);
    assert BringsDown(s, AttemptStep(a, o), c);
    assert AttemptInv(s, a) && ClientInv(s, c);
  }

  // ---------- no resurrection ----------

  /**
  Everything an attempt numbered up to `id`, or a session numbered below `session`, can no
  longer do: its attempts are cancelled, and the service's client, prompt and session are not theirs.
  */
  ghost predicate Barred(s: Sys, id: nat, session: nat) {
    && s.svc.activationID >= id
    && s.svc.sessionID >= session
    && id !in s.attempts
    && (s.svc.client.Some? ==> s.svc.client.value < |s.clients| && s.clients[s.svc.client.value].dialer > id)
    && (s.svc.prompt.Some? ==> s.svc.prompt.value.activationID > id)
    && (forall a :: a in s.attempts && a <= id ==>
          && (Live(s.attempts[a].pc) ==> s.attempts[a].cancelled)
          && (s.attempts[a].pc.MarkStarted? ==> s.attempts[a].pc.session < session))
  }

  lemma DisconnectBars(s: Sys)
    requires Inv(s)
    ensures Barred(StartDisconnect(s), s.svc.activationID + 1, s.svc.sessionID + 1)
  {
    var t := StartDisconnect(s);
    forall a | a in s.attempts ensures a <= s.svc.activationID {
      assert AttemptInv(s, a);
    }
    forall a | a in t.attempts
      ensures Live(t.attempts[a].pc) ==> t.attempts[a].cancelled
      ensures t.attempts[a].pc.MarkStarted? ==> t.attempts[a].pc.session < s.svc.sessionID + 1
    {
      assert AttemptInv(s, a);
    }
  }

  lemma BarStays(s: Sys, act: Action, id: nat, session: nat)
    requires Inv(s) && Enabled(s, act) && Barred(s, id, session)
    ensures Barred(Apply(s, act), id, session)
  {
    ClientEffects(s, act);
    AttemptEffects(s, act);
    ServiceEffects(s, act);
    BarFollows(s, act, Apply(s, act), id, session);
  }

  lemma BarFollows(s: Sys, act: Action, t: Sys, id: nat, session: nat)
    requires Inv(s) && Barred(s, id, session)
    requires ClientEffect(s, act, t) && AttemptEffect(s, act, t) && ServiceEffect(s, act, t)
    ensures Barred(t, id, session)
  {
    if Installs(s, act) || Registers(s, act) {
      assert AttemptInv(s, act.attempt);
    }
    AttemptsStayBarred(s, act, t, id, session);
  }

  lemma AttemptsStayBarred(s: Sys, act: Action, t: Sys, id: nat, session: nat)
    requires Inv(s) && Barred(s, id, session) && AttemptEffect(s, act, t) && ServiceEffect(s, act, t)
    ensures forall a :: a in t.attempts && a <= id ==>
              && (Live(t.attempts[a].pc) ==> t.attempts[a].cancelled)
              && (t.attempts[a].pc.MarkStarted? ==> t.attempts[a].pc.session < session)
  {
    if Installs(s, act) {
      assert AttemptInv(s, act.attempt);
    }
    forall a | a in t.attempts && a <= id
      ensures Live(t.attempts[a].pc) ==> t.attempts[a].cancelled
      ensures t.attempts[a].pc.MarkStarted? ==> t.attempts[a].pc.session < session
    {
      assert a in s.attempts && AttemptInv(s, a);
    }
  }

  lemma {:induction false} BarStaysInRuns(states: seq<Sys>, acts: seq<Action>, i: nat, j: nat, id: nat, session: nat)
    requires IsRun(states, acts) && i <= j < |states| && Barred(states[i], id, session)
    ensures Barred(states[j], id, session)
    decreases j
  {
    if i < j {
      BarStaysInRuns(states, acts, i, j - 1, id, session);
      BarStep(states, acts, j - 1, id, session);
    }
  }

  lemma BarStep(states: seq<Sys>, acts: seq<Action>, k: nat, id: nat, session: nat)
    requires IsRun(states, acts) && k < |acts| && Barred(states[k], id, session)
    ensures Barred(states[k + 1], id, session)
  {
    ReachableInv(states, acts, k);
    assert StepAt(states, acts, k);
    BarStays(states[k], acts[k], id, session);
  }

  /**
  Once a Disconnect call has run its region at step `i`, whatever is installed, prompted or
  marked started at any later point `j` belongs to an attempt reserved after the call.
  */
  lemma NoResurrection(states: seq<Sys>, acts: seq<Action>, i: nat, j: nat)
    requires IsRun(states, acts) && i < |acts| && acts[i].DisconnectCall? && i < j < |states|
    ensures states[j].svc.client.Some? ==>
              && states[j].svc.client.value < |states[j].clients|
              && states[j].clients[states[j].svc.client.value].dialer !in states[i].attempts
    ensures states[j].svc.prompt.Some? ==> states[j].svc.prompt.value.activationID !in states[i].attempts
    ensures forall a, o :: a in states[i].attempts && Enabled(states[j], AttemptStep(a, o)) ==>
              HarmlessStep(states[j], a, StepAttempt(states[j], a, o))
  {
    var id, session := states[i].svc.activationID + 1, states[i].svc.sessionID + 1;
    ReachableInv(states, acts, i);
    assert StepAt(states, acts, i);
    DisconnectBars(states[i]);
    BarStaysInRuns(states, acts, i + 1, j, id, session);
    ReachableInv(states, acts, j);
    forall a | a in states[i].attempts ensures a < id {
      assert AttemptInv(states[i], a);
    }
    forall a, o | a in states[i].attempts && Enabled(states[j], AttemptStep(a, o))
      ensures HarmlessStep(states[j], a, StepAttempt(states[j], a, o))
    {
      BarredAttemptIsHarmless(states[j], a, o, id, session);
    }
  }

  /** A step of attempt `a` that installs nothing, prompts for nothing, and does not report the session as started. */
  predicate HarmlessStep(s: Sys, a: nat, t: Sys)
    requires a in s.attempts
  {
    && (t.svc.client == s.svc.client || t.svc.client.None?)
    && (t.svc.prompt == s.svc.prompt || t.svc.prompt.None?)
    && (s.attempts[a].pc.MarkStarted? ==> t.svc == s.svc)
  }

  lemma BarredAttemptIsHarmless(s: Sys, a: nat, o: Outcome, id: nat, session: nat)
    requires Inv(s) && Enabled(s, AttemptStep(a, o)) && Barred(s, id, session) && a <= id
    ensures HarmlessStep(s, a, StepAttempt(s, a, o))
  {
    assert AttemptInv(s, a);
    ServiceEffects(s, AttemptStep(a, o));
  }

  /** After SetFailure, the attempt that was in flight never installs its client. */
  lemma SetFailureDooms(states: seq<Sys>, acts: seq<Action>, i: nat, j: nat, a: nat)
    requires IsRun(states, acts) && i < |acts| && acts[i].SetFailureCall? && i < j < |states|
    requires a in states[i].attempts && Live(states[i].attempts[a].pc)
    ensures ClientNotOf(states[j], a)
  {
    ReachableInv(states, acts, i);
    assert AttemptInv(states[i], a);
    assert StepAt(states, acts, i);
    NeverInstalled(states, acts, i + 1, j, a);
  }

  lemma {:induction false} NeverInstalled(states: seq<Sys>, acts: seq<Action>, i: nat, j: nat, a: nat)
    requires IsRun(states, acts) && i <= j < |states|
    requires a in states[i].attempts && states[i].attempts[a].cancelled && states[i].svc.client.None?
    ensures Doomed(states[j], a)
    decreases j
  {
    if i < j {
      NeverInstalled(states, acts, i, j - 1, a);
      DoomStep(states, acts, j - 1, a);
    }
  }

  predicate Doomed(s: Sys, a: nat) {
    a in s.attempts && s.attempts[a].cancelled && ClientNotOf(s, a)
  }

  lemma DoomStep(states: seq<Sys>, acts: seq<Action>, k: nat, a: nat)
    requires IsRun(states, acts) && k < |acts| && Doomed(states[k], a)
    ensures Doomed(states[k + 1], a)
  {
    ReachableInv(states, acts, k);
    assert StepAt(states, acts, k);
    InstallerIsNotCancelled(states[k], acts[k], a);
    AttemptsAge(states[k], acts[k], a);
  }

  /** The service's client, if there is one, was not dialed by attempt `a`. */
  predicate ClientNotOf(s: Sys, a: nat) {
    s.svc.client.Some? ==> s.svc.client.value < |s.clients| && s.clients[s.svc.client.value].dialer != a
  }

  lemma InstallerIsNotCancelled(s: Sys, act: Action, a: nat)
    requires Inv(s) && Enabled(s, act) && a in s.attempts && s.attempts[a].cancelled && ClientNotOf(s, a)
    ensures ClientNotOf(Apply(s, act), a)
  {
    ClientEffects(s, act);
    ServiceEffects(s, act);
    if Installs(s, act) {
      assert AttemptInv(s, act.attempt);
    }
  }

  // ---------- session isolation ----------

  /** A monitor takes a client out of the service only if it is its own session's. */
  lemma MonitorsTakeOwnClient(s: Sys, m: nat, poll: PollOutcome)
    requires Inv(s) && m in s.monitors && StepMonitor(s, m, poll).svc.client != s.svc.client
    ensures StepMonitor(s, m, poll).svc.client.None?
    ensures s.svc.sessionID == m && s.svc.client == Some(s.monitors[m].client)
  {
    assert MonitorInv(s, m);
  }

  /** A monitor closes a client only if it is its own session's. */
  lemma MonitorsCloseOwnClient(s: Sys, m: nat, poll: PollOutcome, c: nat)
    requires Inv(s) && m in s.monitors && c < |s.clients|
    requires StepMonitor(s, m, poll).clients[c].closes > s.clients[c].closes
    ensures c == s.monitors[m].client && s.clients[c].place == ByMonitor(m)
  {
    ClientEffectsOfMonitor(s, m, poll);
    assert Closes(s, MonitorStep(m, poll), c) && MonitorInv(s, m);
  }

  ghost predicate OneMonitorPerClient(s: Sys) {
    forall m, n :: m in s.monitors && n in s.monitors && s.monitors[m].client == s.monitors[n].client ==> m == n
  }

  /** No two sessions ever share a client, so a monitor's own client is nobody else's. */
  lemma {:induction false} SessionsHaveTheirOwnClients(states: seq<Sys>, acts: seq<Action>, i: nat)
    requires IsRun(states, acts) && i < |states|
    ensures OneMonitorPerClient(states[i])
    decreases i
  {
    if i > 0 {
      SessionsHaveTheirOwnClients(states, acts, i - 1);
      ReachableInv(states, acts, i - 1);
      assert StepAt(states, acts, i - 1);
      OwnClientsStep(states[i - 1], acts[i - 1]);
    }
  }

  lemma OwnClientsStep(s: Sys, act: Action)
    requires Inv(s) && Enabled(s, act) && OneMonitorPerClient(s)
    ensures OneMonitorPerClient(Apply(s, act))
  {
    var t := Apply(s, act);
    forall m, n | m in t.monitors && n in t.monitors && t.monitors[m].client == t.monitors[n].client ensures m == n {
      MonitorsKeepClients(s, act, m);
      MonitorsKeepClients(s, act, n);
    }
  }

  lemma MonitorsKeepClients(s: Sys, act: Action, m: nat)
    requires Inv(s) && Enabled(s, act) && m in Apply(s, act).monitors
    ensures if m in s.monitors then
              && Apply(s, act).monitors[m].client == s.monitors[m].client
              && s.monitors[m].client < |s.clients|
              && !s.clients[s.monitors[m].client].place.ByAttempt?
            else
              && m == s.svc.sessionID + 1
              && Apply(s, act).monitors[m].client < |s.clients|
              && s.clients[Apply(s, act).monitors[m].client].place.ByAttempt?
  {
    MonitorEffects(s, act);
    assert m in s.monitors ==> MonitorInv(s, m);
    if Installs(s, act) {
      assert AttemptInv(s, act.attempt);
    }
  }

  /**
  A monitor whose context is still live belongs to the installed session, or has just taken
  that session's client itself; it signals at most one failure; and a failure signalled for
  too many lost polls comes from the monitor that retired its own session's client.
  */
  lemma MonitorDiscipline(states: seq<Sys>, acts: seq<Action>, i: nat, m: nat)
    requires IsRun(states, acts) && i < |states| && m in states[i].monitors
    ensures var s, mon := states[i], states[i].monitors[m];
            && (!mon.cancelled ==>
                  (s.svc.sessionID == m && s.svc.client == Some(mon.client)) || Owns(s, ByMonitor(m), mon.client))
            && mon.failures <= 1
            && mon.thresholdFailures <= mon.failures
            && mon.client < |s.clients|
            && (mon.thresholdFailures > 0 ==> s.clients[mon.client].place in {ByMonitor(m), Closed(ByMonitor(m))})
  {
    ReachableInv(states, acts, i);
    assert MonitorInv(states[i], m);
  }

  // ---------- prompts ----------

  /** A registered prompt is the live attempt's, under the current activation id, with its channel empty. */
  lemma PromptBelongsToLiveAttempt(states: seq<Sys>, acts: seq<Action>, i: nat)
    requires IsRun(states, acts) && i < |states| && states[i].svc.prompt.Some?
    ensures var s, p := states[i], states[i].svc.prompt.value;
            && p.activationID == s.svc.activationID
            && p.activationID in s.attempts && Live(s.attempts[p.activationID].pc)
            && s.svc.activationCancel == Some(p.activationID)
            && (p.kind == SetupKeyPrompt ==> s.attempts[p.activationID].slot.None?)
  {
    ReachableInv(states, acts, i);
  }

  /** What makes secrets reach attempt `a` in one step. */
  predicate DeliversTo(s: Sys, act: Action, a: nat, secrets: Secrets) {
    && act == NewSecretsCall(secrets)
    && s.svc.prompt == Some(Prompt(a, SetupKeyPrompt))
    && (secrets.promptActivationID == "" || secrets.promptActivationID == Decimal(a))
  }

  /** Secrets that answer an attempt's prompt always reach it: its channel is never full. */
  lemma DeliveryNeverDropped(s: Sys, a: nat, secrets: Secrets)
    requires Inv(s) && DeliversTo(s, NewSecretsCall(secrets), a, secrets)
    ensures a in s.attempts && s.attempts[a].slot.None?
    ensures Secret(s, secrets).attempts == s.attempts[a := s.attempts[a].(slot := Some(secrets))]
    ensures Secret(s, secrets).svc == s.svc.(prompt := None)
  {
  }

  /** Secrets enter an attempt's channel only in answer to its prompt, and leave it only to the attempt. */
  lemma DeliveryIsExact(s: Sys, act: Action, a: nat, secrets: Secrets)
    requires Inv(s) && Enabled(s, act) && a in s.attempts && a in Apply(s, act).attempts
    ensures Apply(s, act).attempts[a].slot == Some(secrets) && s.attempts[a].slot != Some(secrets) ==>
        DeliversTo(s, act, a, secrets)
    ensures Apply(s, act).attempts[a].received == Some(secrets) && s.attempts[a].received != Some(secrets) ==>
              s.attempts[a].slot == Some(secrets)
  {
    assert AttemptInv(s, a);
    ChannelEffects(s, act);
    DeliveryFollows(s, act, Apply(s, act), a, secrets);
  }

  lemma DeliveryFollows(s: Sys, act: Action, t: Sys, a: nat, secrets: Secrets)
    requires ChannelEffect(s, act, t) && a in s.attempts && a in t.attempts
    requires a <= s.svc.activationID
    ensures t.attempts[a].slot == Some(secrets) && s.attempts[a].slot != Some(secrets) ==>
        DeliversTo(s, act, a, secrets)
    ensures t.attempts[a].received == Some(secrets) && s.attempts[a].received != Some(secrets) ==>
        s.attempts[a].slot == Some(secrets)
  {
  }

  /** Attempt `a` has the secrets in its channel, or has taken them out of it. */
  predicate Has(s: Sys, a: nat, secrets: Secrets) {
    a in s.attempts && (s.attempts[a].slot == Some(secrets) || s.attempts[a].received == Some(secrets))
  }

  lemma HeldOrDelivered(s: Sys, act: Action, a: nat, secrets: Secrets)
    requires Inv(s) && Enabled(s, act) && Has(Apply(s, act), a, secrets)
    ensures Has(s, a, secrets) || DeliversTo(s, act, a, secrets)
  {
    if a in s.attempts {
      DeliveryIsExact(s, act, a, secrets);
    } else {
      NewAttemptHasNothing(s, act, a);
    }
  }

  lemma NewAttemptHasNothing(s: Sys, act: Action, a: nat)
    requires Enabled(s, act) && a !in s.attempts && a in Apply(s, act).attempts
    ensures Apply(s, act).attempts[a].slot.None? && Apply(s, act).attempts[a].received.None?
  {
    AttemptEffects(s, act);
  }

  lemma KeyStep(states: seq<Sys>, acts: seq<Action>, k: nat, a: nat, secrets: Secrets)
    requires IsRun(states, acts) && k < |acts| && Has(states[k + 1], a, secrets)
    ensures Has(states[k], a, secrets) || DeliversTo(states[k], acts[k], a, secrets)
  {
    ReachableInv(states, acts, k);
    assert StepAt(states, acts, k);
    HeldOrDelivered(states[k], acts[k], a, secrets);
  }

  lemma NothingAtStart(states: seq<Sys>, acts: seq<Action>, a: nat, secrets: Secrets)
    requires IsRun(states, acts)
    ensures !Has(states[0], a, secrets)
  {
  }

  /** Before step `j`, the secrets were sent in answer to the prompt of attempt `a`. */
  ghost predicate SentBefore(states: seq<Sys>, acts: seq<Action>, j: nat, a: nat, secrets: Secrets)
    requires j <= |acts| <= |states|
  {
    exists i :: 0 <= i < j && DeliversTo(states[i], acts[i], a, secrets)
  }

  /** Every setup key an attempt went on with was sent, at some earlier step, in answer to that attempt's own prompt. */
  lemma {:induction false} KeyComesFromOwnPrompt(states: seq<Sys>, acts: seq<Action>, j: nat, a: nat, secrets: Secrets)
    requires IsRun(states, acts) && j < |states| && Has(states[j], a, secrets)
    ensures SentBefore(states, acts, j, a, secrets)
    decreases j
  {
    if j == 0 {
      NothingAtStart(states, acts, a, secrets);
    } else {
      KeyStep(states, acts, j - 1, a, secrets);
      if Has(states[j - 1], a, secrets) {
        KeyComesFromOwnPrompt(states, acts, j - 1, a, secrets);
      }
    }
  }

  /**
  The ids of a prompt and of its answer are compared as decimal strings, which is the same as
  comparing the numbers.
  */
  lemma {:induction false} AnswerForAnotherAttemptIsIgnored(s: Sys, secrets: Secrets, id: nat)
    requires Inv(s) && s.svc.prompt.Some? && secrets.promptActivationID == Decimal(id)
    ensures Secret(s, secrets) != s ==> id == s.svc.prompt.value.activationID
  {
    DecimalNonEmpty(id);
    if Decimal(id) == Decimal(s.svc.prompt.value.activationID) {
      DecimalInjective(id, s.svc.prompt.value.activationID);
    }
  }

  /** Cancelling a single sign-on prompt cancels the prompting attempt and no other. */
  lemma {:induction false} SsoCancelHitsPrompter(s: Sys, secrets: Secrets, id: nat)
    requires Inv(s) && s.svc.prompt == Some(Prompt(id, SsoPrompt)) && secrets.ssoCancel
    requires secrets.promptActivationID == "" || secrets.promptActivationID == Decimal(id)
    ensures id in s.attempts && Secret(s, secrets).attempts == s.attempts[id := s.attempts[id].(cancelled := true)]
    ensures Secret(s, secrets).svc.prompt.None?
  {
  }

  /** The cleanup of an attempt never takes a prompt away from another attempt. */
  lemma CleanupSparesOtherPrompts(s: Sys, a: nat, o: Outcome)
    requires Inv(s) && Enabled(s, AttemptStep(a, o))
    requires s.svc.prompt.Some? && s.svc.prompt.value.activationID != a
    ensures StepAttempt(s, a, o).svc.prompt == s.svc.prompt
  {
    assert AttemptInv(s, a);
  }
}
