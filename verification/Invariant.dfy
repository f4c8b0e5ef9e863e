/**
One inductive invariant of the whole system, and the proof that every action keeps it.
*/
module Invariant {
  import opened Wrappers
  import opened Text
  import opened ServiceRegions
  import opened Protocol

  // ---------- what each program counter says about an attempt ----------

  predicate BeforeDial(pc: AttemptPc) {
    pc.MarkStarting? || pc.Parse? || pc.Dial?
  }

  predicate BeforeUp(pc: AttemptPc) {
    || BeforeDial(pc) || pc.Prepare? || pc.CheckKey? || pc.RegisterKey? || pc.EmitKey? || pc.WaitKey? || pc.Login?
    || pc.EmitBanner? || pc.RegisterSso? || pc.EmitSso? || pc.WaitSso? || pc.Update? || pc.Resolve? || pc.Up?
  }

  predicate AfterUp(pc: AttemptPc) {
    pc.WaitReady? || pc.EmitConfig? || pc.Complete?
  }

  predicate AfterDown(pc: AttemptPc) {
    pc == CancelOwn(false) || pc.Release? || pc.CloseClient?
  }

  predicate BeforePrompt(pc: AttemptPc) {
    BeforeDial(pc) || pc.Prepare? || pc.CheckKey? || pc.RegisterKey?
  }

  /** Whether the attempt goroutine is the one that owns the client it dialed. */
  predicate Holds(att: Attempt) {
    att.client.Some? && (Live(att.pc) || att.pc.CloseClient?)
  }

  predicate CallHolds(call: Call) {
    call.client.Some? && (call.pc.MarkStopping? || call.pc.CallDown? || call.pc.CallClose?)
  }

  predicate MonitorHolds(mon: Monitor) {
    mon.taken.Some? && (mon.pc.CancelTaken? || mon.pc.EmitThreshold? || mon.pc.CloseTaken?)
  }

  /** Program points before the monitor's own failure signal. */
  predicate Silent(pc: MonitorPc) {
    !(pc.MarkDown? || pc.ClearOwn? || pc.CloseTaken? || pc.Exited?)
  }

  // ---------- the invariant ----------

  ghost predicate SlotInv(s: Sys) {
    && s.svc.activating == s.svc.activationCancel.Some?
    && (s.svc.activating ==> s.svc.client.None? && s.svc.activationCancel.value in s.attempts
                             && Live(s.attempts[s.svc.activationCancel.value].pc))
    && (s.svc.client.Some? <==> s.svc.monitorCancel.Some?)
  }

  ghost predicate SessionInv(s: Sys) {
    s.svc.client.Some? ==>
      && s.svc.monitorCancel == Some(s.svc.sessionID)
      && s.svc.sessionID in s.monitors
      && s.svc.client.value == s.monitors[s.svc.sessionID].client
      && s.svc.client.value < |s.clients|
      && s.clients[s.svc.client.value].place == Installed
  }

  ghost predicate PromptInv(s: Sys) {
    s.svc.prompt.Some? ==>
      var id := s.svc.prompt.value.activationID;
      && id == s.svc.activationID
      && s.svc.activationCancel == Some(id)
      && id in s.attempts
      && !BeforePrompt(s.attempts[id].pc)
      && (s.svc.prompt.value.kind == SetupKeyPrompt ==> s.attempts[id].slot.None?)
  }

  /** What an attempt's program counter says about its own variables. */
  predicate Fits(att: Attempt) {
    && (BeforeDial(att.pc) ==> att.client.None?)
    && (BeforeUp(att.pc) ==> !att.daemonUp)
    && (BeforeUp(att.pc) && !BeforeDial(att.pc) ==> att.client.Some?)
    && (AfterUp(att.pc) || att.pc.Down? ==> att.daemonUp)
    && (att.pc.CloseClient? ==> att.client.Some?)
    && (att.daemonUp ==> att.client.Some?)
    && (BeforePrompt(att.pc) ==> att.slot.None? && att.received.None?)
  }

  ghost predicate AttemptInv(s: Sys, a: nat)
    requires a in s.attempts
  {
    var att := s.attempts[a];
    && 1 <= a <= s.svc.activationID
    && Fits(att)
    && (Live(att.pc) ==> s.svc.activationCancel == Some(a))
    && (Live(att.pc) && a != s.svc.activationID ==> att.cancelled)
    && (att.pc.MarkStarted? ==> att.pc.session <= s.svc.sessionID)
    && (att.client.Some? ==> att.client.value < |s.clients| && s.clients[att.client.value].dialer == a)
    && (Holds(att) ==> s.clients[att.client.value].place == ByAttempt(a))
  }

  /** What a monitor's program counter says about its own variables. */
  predicate MonitorFits(mon: Monitor) {
    && (mon.taken.Some? ==> mon.taken.value == mon.client && (MonitorHolds(mon) || mon.pc.Exited?))
    && (mon.pc.CancelTaken? || mon.pc.EmitThreshold? || mon.pc.CloseTaken? ==> mon.taken.Some?)
    && mon.failures <= 1
    && (Silent(mon.pc) ==> mon.failures == 0)
    && mon.thresholdFailures <= mon.failures
    && (mon.pc.MarkDown? || mon.pc.ClearOwn? ==> mon.thresholdFailures == 0)
    && (mon.thresholdFailures > 0 ==> mon.taken.Some?)
    && (!mon.pc.CheckThreshold? && !mon.pc.FailOwn? && Silent(mon.pc) && mon.taken.None? ==> mon.errors < THRESHOLD)
  }

  ghost predicate MonitorInv(s: Sys, m: nat)
    requires m in s.monitors
  {
    var mon := s.monitors[m];
    && 1 <= m <= s.svc.sessionID
    && mon.client < |s.clients|
    && MonitorFits(mon)
    && !s.clients[mon.client].place.ByAttempt?
    && s.clients[mon.client].ups == 1
    && (!mon.cancelled ==> s.svc.monitorCancel == Some(m) || mon.pc.CancelTaken?)
    && (mon.pc.CancelTaken? ==> mon.pc.context == Some(m))
    && (MonitorHolds(mon) ==> s.clients[mon.client].place == ByMonitor(m))
    && (mon.taken.Some? && mon.pc.Exited? ==> s.clients[mon.client].place == Closed(ByMonitor(m)))
  }

  ghost predicate CallInv(s: Sys, d: nat)
    requires d < |s.calls|
  {
    var call := s.calls[d];
    && (call.pc.CallDown? || call.pc.CallClose? ==> call.client.Some?)
    && (CallHolds(call) ==> call.client.value < |s.clients| && s.clients[call.client.value].place == ByCall(d))
  }

  /** Where a client is, who says so, and how often it was brought up, down and closed so far. */
  ghost predicate ClientInv(s: Sys, c: nat)
    requires c < |s.clients|
  {
    var r := s.clients[c];
    && r.dialer in s.attempts
    && s.attempts[r.dialer].client == Some(c)
    && match r.place
       case ByAttempt(a) =>
         && a == r.dialer
         && Holds(s.attempts[a])
         && r.closes == 0
         && r.ups == (if s.attempts[a].daemonUp then 1 else 0)
         && r.downs == (if AfterDown(s.attempts[a].pc) then r.ups else 0)
       case Installed =>
         s.svc.client == Some(c) && r.closes == 0 && r.ups == 1 && r.downs == 0
       case ByCall(d) =>
         && d < |s.calls| && CallHolds(s.calls[d]) && s.calls[d].client == Some(c)
         && r.closes == 0 && r.ups == 1 && r.downs == (if s.calls[d].pc.CallClose? then 1 else 0)
       case ByMonitor(m) =>
         && m in s.monitors && MonitorHolds(s.monitors[m]) && s.monitors[m].taken == Some(c)
         && r.closes == 0 && r.ups == 1 && r.downs == 0
       case Closed(closer) =>
         && r.closes == 1
         && match closer
            case ByAttempt(a) => a == r.dialer && r.downs == r.ups <= 1
            case ByCall(_) => r.ups == 1 && r.downs == 1
            case ByMonitor(m) => m in s.monitors && s.monitors[m].client == c && r.ups == 1 && r.downs == 0
            case _ => false
  }

  ghost predicate Inv(s: Sys) {
    && SlotInv(s)
    && SessionInv(s)
    && PromptInv(s)
    && (forall a :: a in s.attempts ==> AttemptInv(s, a))
    && (forall m :: m in s.monitors ==> MonitorInv(s, m))
    && (forall d :: 0 <= d < |s.calls| ==> CallInv(s, d))
    && (forall c :: 0 <= c < |s.clients| ==> ClientInv(s, c))
  }

  lemma InitialInv()
    ensures Inv(INITIAL_SYS)
  {
  }

  // ---------- steps that change one thing ----------

  /** Cancelling a context is always allowed: the invariant never needs one to be live. */
  lemma CancelKeeps(s: Sys, a: Option<nat>, m: Option<nat>)
    requires Inv(s)
    ensures Inv(CancelMonitor(CancelAttempt(s, a), m))
  {
    CancelAttemptKeeps(s, a);
    CancelMonitorKeeps(CancelAttempt(s, a), m);
  }

  lemma CancelAttemptKeeps(s: Sys, x: Option<nat>)
    requires Inv(s)
    ensures Inv(CancelAttempt(s, x))
  {
    var t := CancelAttempt(s, x);
    forall a | a in t.attempts ensures AttemptInv(t, a) {
      assert AttemptInv(s, a);
    }
    forall m | m in t.monitors ensures MonitorInv(t, m) {
      assert MonitorInv(s, m);
    }
    forall d | 0 <= d < |t.calls| ensures CallInv(t, d) {
      assert CallInv(s, d);
    }
    forall c | 0 <= c < |t.clients| ensures ClientInv(t, c) {
      assert ClientInv(s, c);
    }
  }

  lemma CancelMonitorKeeps(s: Sys, x: Option<nat>)
    requires Inv(s)
    ensures Inv(CancelMonitor(s, x))
  {
    var t := CancelMonitor(s, x);
    forall a | a in t.attempts ensures AttemptInv(t, a) {
      assert AttemptInv(s, a);
    }
    forall m | m in t.monitors ensures MonitorInv(t, m) {
      assert MonitorInv(s, m);
    }
    forall d | 0 <= d < |t.calls| ensures CallInv(t, d) {
      assert CallInv(s, d);
    }
    forall c | 0 <= c < |t.clients| ensures ClientInv(t, c) {
      assert ClientInv(s, c);
    }
  }

  lemma StateKeeps(s: Sys, state: ServiceState)
    requires Inv(s)
    ensures Inv(s.(svc := s.svc.(state := state)))
  {
    var t := s.(svc := s.svc.(state := state));
    forall a | a in t.attempts ensures AttemptInv(t, a) {
      assert AttemptInv(s, a);
    }
    forall m | m in t.monitors ensures MonitorInv(t, m) {
      assert MonitorInv(s, m);
    }
    forall d | 0 <= d < |t.calls| ensures CallInv(t, d) {
      assert CallInv(s, d);
    }
    forall c | 0 <= c < |t.clients| ensures ClientInv(t, c) {
      assert ClientInv(s, c);
    }
  }

  lemma DropPromptKeeps(s: Sys)
    requires Inv(s)
    ensures Inv(s.(svc := s.svc.(prompt := None)))
  {
    var t := s.(svc := s.svc.(prompt := None));
    forall a | a in t.attempts ensures AttemptInv(t, a) {
      assert AttemptInv(s, a);
    }
    forall m | m in t.monitors ensures MonitorInv(t, m) {
      assert MonitorInv(s, m);
    }
    forall d | 0 <= d < |t.calls| ensures CallInv(t, d) {
      assert CallInv(s, d);
    }
    forall c | 0 <= c < |t.clients| ensures ClientInv(t, c) {
      assert ClientInv(s, c);
    }
  }

  // ---------- D-Bus calls ----------

  lemma ConnectKeeps(s: Sys, interactive: bool)
    requires Inv(s)
    ensures Inv(Connect(s, interactive))
  {
    var t := Connect(s, interactive);
    forall a | a in t.attempts ensures AttemptInv(t, a) {
      assert a in s.attempts ==> AttemptInv(s, a);
    }
    forall m | m in t.monitors ensures MonitorInv(t, m) {
      assert MonitorInv(s, m);
    }
    forall d | 0 <= d < |t.calls| ensures CallInv(t, d) {
      assert CallInv(s, d);
    }
    forall c | 0 <= c < |t.clients| ensures ClientInv(t, c) {
      assert ClientInv(s, c);
      assert AttemptInv(s, s.clients[c].dialer);
    }
  }

  lemma DisconnectKeeps(s: Sys)
    requires Inv(s)
    ensures Inv(StartDisconnect(s))
  {
    CancelKeeps(s, s.svc.activationCancel, s.svc.monitorCancel);
    TakeKeeps(CancelMonitor(CancelAttempt(s, s.svc.activationCancel), s.svc.monitorCancel));
  }

  /** The rest of Disconnect's region, once the two contexts it cancels are cancelled. */
  lemma TakeKeeps(s: Sys)
    requires Inv(s)
    requires s.svc.activationCancel.Some? ==> s.attempts[s.svc.activationCancel.value].cancelled
    requires s.svc.monitorCancel.Some? ==> s.monitors[s.svc.monitorCancel.value].cancelled
    ensures Inv(Move(s, s.svc.client, ByCall(|s.calls|))
                .(svc := ServiceRegions.Disconnect(s.svc).fields,
                  calls := s.calls + [Call(MarkStopping, s.svc.client, false)]))
  {
    var t := Move(s, s.svc.client, ByCall(|s.calls|))
             .(svc := ServiceRegions.Disconnect(s.svc).fields,
               calls := s.calls + [Call(MarkStopping, s.svc.client, false)]);
    forall a | a in t.attempts ensures AttemptInv(t, a) {
      assert AttemptInv(s, a);
    }
    forall m | m in t.monitors ensures MonitorInv(t, m) {
      assert MonitorInv(s, m);
    }
    forall d | 0 <= d < |t.calls| ensures CallInv(t, d) {
      assert d < |s.calls| ==> CallInv(s, d);
    }
    forall c | 0 <= c < |t.clients| ensures ClientInv(t, c) {
      assert ClientInv(s, c) && AttemptInv(s, s.clients[c].dialer);
    }
  }

  lemma FailKeeps(s: Sys)
    requires Inv(s)
    ensures Inv(Fail(s))
  {
    CancelKeeps(s, s.svc.activationCancel, None);
    DropPromptKeeps(CancelAttempt(s, s.svc.activationCancel));
  }

  lemma SecretKeeps(s: Sys, secrets: Secrets)
    requires Inv(s)
    ensures Inv(Secret(s, secrets))
  {
    var r := NewSecrets(s.svc, secrets);
    if r.ok {
      CancelKeeps(s, r.cancelActivation, None);
      DropPromptKeeps(CancelAttempt(s, r.cancelActivation));
      if r.delivered.Some? {
        SlotKeeps(s.(svc := r.fields), s.svc.prompt.value.activationID, r.delivered);
      }
    }
  }

  lemma SlotKeeps(s: Sys, a: nat, slot: Option<Secrets>)
    requires Inv(s) && s.svc.prompt.None? && a in s.attempts && !BeforePrompt(s.attempts[a].pc)
    ensures Inv(s.(attempts := s.attempts[a := s.attempts[a].(slot := slot)]))
  {
    var t := s.(attempts := s.attempts[a := s.attempts[a].(slot := slot)]);
    forall a | a in t.attempts ensures AttemptInv(t, a) {
      assert AttemptInv(s, a);
    }
    forall m | m in t.monitors ensures MonitorInv(t, m) {
      assert MonitorInv(s, m);
    }
    forall d | 0 <= d < |t.calls| ensures CallInv(t, d) {
      assert CallInv(s, d);
    }
    forall c | 0 <= c < |t.clients| ensures ClientInv(t, c) {
      assert ClientInv(s, c);
    }
  }

  // ---------- the activation goroutine ----------

  /** A jump that neither frees the slot nor passes a client on. */
  lemma GotoKeeps(s: Sys, a: nat, pc: AttemptPc)
    requires Inv(s) && a in s.attempts && Fits(s.attempts[a].(pc := pc)) && !pc.MarkStarted?
    requires Live(s.attempts[a].pc) == Live(pc) && s.attempts[a].pc.CloseClient? == pc.CloseClient?
    requires AfterDown(s.attempts[a].pc) == AfterDown(pc) || !s.attempts[a].daemonUp
    requires BeforePrompt(pc) ==> BeforePrompt(s.attempts[a].pc)
    ensures Inv(Goto(s, a, pc))
  {
    var t := Goto(s, a, pc);
    forall x | x in t.attempts ensures AttemptInv(t, x) {
      assert AttemptInv(s, x);
    }
    forall m | m in t.monitors ensures MonitorInv(t, m) {
      assert MonitorInv(s, m);
    }
    forall d | 0 <= d < |t.calls| ensures CallInv(t, d) {
      assert CallInv(s, d);
    }
    forall c | 0 <= c < |t.clients| ensures ClientInv(t, c) {
      assert ClientInv(s, c);
    }
  }

  lemma DialKeeps(s: Sys, a: nat)
    requires Inv(s) && a in s.attempts && s.attempts[a].pc.Dial?
    ensures Inv(DialStep(s, a))
  {
    var t := DialStep(s, a);
    forall x | x in t.attempts ensures AttemptInv(t, x) {
      assert AttemptInv(s, x) && AttemptInv(s, a);
    }
    forall m | m in t.monitors ensures MonitorInv(t, m) {
      assert MonitorInv(s, m);
    }
    forall d | 0 <= d < |t.calls| ensures CallInv(t, d) {
      assert CallInv(s, d);
    }
    forall c | 0 <= c < |t.clients| ensures ClientInv(t, c) {
      assert c < |s.clients| ==> ClientInv(s, c);
      assert AttemptInv(s, a);
    }
  }

  lemma RegisterKeeps(s: Sys, a: nat, kind: PromptKind, registered: AttemptPc, refused: AttemptPc)
    requires Inv(s) && a in s.attempts
    requires match kind
             case SetupKeyPrompt => s.attempts[a].pc.RegisterKey? && registered.EmitKey? && refused.EmitFailure?
             case SsoPrompt => s.attempts[a].pc.RegisterSso? && registered.EmitSso? && refused.WaitSso?
    ensures Inv(RegisterStep(s, a, kind, registered, refused))
  {
    var r := RegisterPrompt(s.svc, Prompt(a, kind));
    assert AttemptInv(s, a);
    GotoKeeps(s, a, if r.ok then registered else refused);
    if r.ok {
      SetPromptKeeps(Goto(s, a, registered), Prompt(a, kind));
    }
  }

  lemma SetPromptKeeps(s: Sys, p: Prompt)
    requires Inv(s) && s.svc.activationCancel == Some(p.activationID) && p.activationID == s.svc.activationID
    requires !BeforePrompt(s.attempts[p.activationID].pc)
    requires p.kind == SetupKeyPrompt ==> s.attempts[p.activationID].slot.None?
    ensures Inv(s.(svc := s.svc.(prompt := Some(p))))
  {
    var t := s.(svc := s.svc.(prompt := Some(p)));
    forall x | x in t.attempts ensures AttemptInv(t, x) {
      assert AttemptInv(s, x);
    }
    forall m | m in t.monitors ensures MonitorInv(t, m) {
      assert MonitorInv(s, m);
    }
    forall d | 0 <= d < |t.calls| ensures CallInv(t, d) {
      assert CallInv(s, d);
    }
    forall c | 0 <= c < |t.clients| ensures ClientInv(t, c) {
      assert ClientInv(s, c);
    }
  }

  lemma WaitKeyKeeps(s: Sys, a: nat, o: Outcome)
    requires Inv(s) && a in s.attempts && s.attempts[a].pc.WaitKey?
    ensures Inv(WaitKeyStep(s, a, o))
  {
    assert AttemptInv(s, a);
    var slot := s.attempts[a].slot;
    if o == Success && slot.Some? {
      KeyTakenKeeps(s, a, if TrimSpace(slot.value.setupKey) == "" then EmitFailure else Login);
    } else {
      GotoKeeps(s, a, EmitFailure);
    }
  }

  lemma KeyTakenKeeps(s: Sys, a: nat, next: AttemptPc)
    requires Inv(s) && a in s.attempts && s.attempts[a].pc.WaitKey? && next in {EmitFailure, Login}
    ensures var att := s.attempts[a];
            Inv(s.(attempts := s.attempts[a := att.(slot := None, received := att.slot, pc := next)]))
  {
    assert AttemptInv(s, a);
    var att := s.attempts[a];
    var t := Goto(s, a, next);
    GotoKeeps(s, a, next);
    EmptySlotKeeps(t, a, att.slot);
    assert t.attempts[a := t.attempts[a].(slot := None, received := att.slot)]
        == s.attempts[a := att.(slot := None, received := att.slot, pc := next)];
  }

  lemma EmptySlotKeeps(s: Sys, a: nat, received: Option<Secrets>)
    requires Inv(s) && a in s.attempts && !BeforePrompt(s.attempts[a].pc)
    ensures Inv(s.(attempts := s.attempts[a := s.attempts[a].(slot := None, received := received)]))
  {
    var t := s.(attempts := s.attempts[a := s.attempts[a].(slot := None, received := received)]);
    forall x | x in t.attempts ensures AttemptInv(t, x) {
      assert AttemptInv(s, x);
    }
    forall m | m in t.monitors ensures MonitorInv(t, m) {
      assert MonitorInv(s, m);
    }
    forall d | 0 <= d < |t.calls| ensures CallInv(t, d) {
      assert CallInv(s, d);
    }
    forall c | 0 <= c < |t.clients| ensures ClientInv(t, c) {
      assert ClientInv(s, c);
    }
  }

  /** Monitors and calls do not notice what an attempt does with the client it holds. */
  lemma OthersKeep(s: Sys, t: Sys)
    requires Inv(s) && t.svc == s.svc && t.monitors == s.monitors && t.calls == s.calls && |t.clients| == |s.clients|
    requires forall c :: 0 <= c < |s.clients| && !s.clients[c].place.ByAttempt? ==> t.clients[c] == s.clients[c]
    ensures forall m :: m in t.monitors ==> MonitorInv(t, m)
    ensures forall d :: 0 <= d < |t.calls| ==> CallInv(t, d)
  {
    forall m | m in t.monitors ensures MonitorInv(t, m) {
      assert MonitorInv(s, m);
    }
    forall d | 0 <= d < |t.calls| ensures CallInv(t, d) {
      assert CallInv(s, d);
    }
  }

  lemma UpKeeps(s: Sys, a: nat)
    requires Inv(s) && a in s.attempts && s.attempts[a].pc.Up?
    ensures Inv(UpStep(s, a))
  {
    var t := UpStep(s, a);
    assert AttemptInv(s, a);
    var c := s.attempts[a].client.value;
    assert ClientInv(s, c);
    assert t == s.(clients := s.clients[c := s.clients[c].(ups := s.clients[c].ups + 1)],
                   attempts := s.attempts[a := s.attempts[a].(daemonUp := true, pc := WaitReady)]);
    forall x | x in t.attempts ensures AttemptInv(t, x) {
      assert AttemptInv(s, x);
    }
    OthersKeep(s, t);
    forall x | 0 <= x < |t.clients| ensures ClientInv(t, x) {
      assert ClientInv(s, x);
    }
  }

  lemma CompleteKeeps(s: Sys, a: nat)
    requires Inv(s) && a in s.attempts && s.attempts[a].pc.Complete? && !s.attempts[a].cancelled
    ensures Inv(CompleteStep(s, a))
  {
    var t := CompleteStep(s, a);
    assert AttemptInv(s, a);
    assert ClientInv(s, s.attempts[a].client.value);
    CompleteKeepsAttempts(s, a);
    CompleteKeepsClients(s, a);
    forall m | m in t.monitors ensures MonitorInv(t, m) {
      assert m in s.monitors ==> MonitorInv(s, m);
    }
    forall d | 0 <= d < |t.calls| ensures CallInv(t, d) {
      assert CallInv(s, d);
    }
  }

  lemma CompleteKeepsAttempts(s: Sys, a: nat)
    requires Inv(s) && a in s.attempts && s.attempts[a].pc.Complete? && !s.attempts[a].cancelled
    ensures var t := CompleteStep(s, a); forall x :: x in t.attempts ==> AttemptInv(t, x)
  {
    var t := CompleteStep(s, a);
    forall x | x in t.attempts ensures AttemptInv(t, x) {
      assert AttemptInv(s, x) && AttemptInv(s, a);
    }
  }

  lemma CompleteKeepsClients(s: Sys, a: nat)
    requires Inv(s) && a in s.attempts && s.attempts[a].pc.Complete? && !s.attempts[a].cancelled
    ensures var t := CompleteStep(s, a); forall c :: 0 <= c < |t.clients| ==> ClientInv(t, c)
  {
    var t := CompleteStep(s, a);
    assert AttemptInv(s, a);
    forall c | 0 <= c < |t.clients| ensures ClientInv(t, c) {
      assert ClientInv(s, c);
    }
  }

  lemma DownKeeps(s: Sys, a: nat)
    requires Inv(s) && a in s.attempts && s.attempts[a].pc.Down?
    ensures Inv(Goto(Count(s, s.attempts[a].client, 0, 1), a, CancelOwn(false)))
  {
    var t := Goto(Count(s, s.attempts[a].client, 0, 1), a, CancelOwn(false));
    assert AttemptInv(s, a);
    var c := s.attempts[a].client.value;
    assert ClientInv(s, c);
    assert t == s.(clients := s.clients[c := s.clients[c].(downs := s.clients[c].downs + 1)],
                   attempts := s.attempts[a := s.attempts[a].(pc := CancelOwn(false))]);
    forall x | x in t.attempts ensures AttemptInv(t, x) {
      assert AttemptInv(s, x);
    }
    OthersKeep(s, t);
    forall x | 0 <= x < |t.clients| ensures ClientInv(t, x) {
      assert ClientInv(s, x);
    }
  }

  lemma ReleaseKeeps(s: Sys, a: nat)
    requires Inv(s) && a in s.attempts && s.attempts[a].pc.Release?
    ensures Inv(ReleaseStep(s, a))
  {
    var t := ReleaseStep(s, a);
    ReleaseKeepsAttempts(s, a);
    ReleaseKeepsClients(s, a);
    forall m | m in t.monitors ensures MonitorInv(t, m) {
      assert MonitorInv(s, m);
    }
    forall d | 0 <= d < |t.calls| ensures CallInv(t, d) {
      assert CallInv(s, d);
    }
    assert AttemptInv(s, a);
  }

  lemma ReleaseKeepsAttempts(s: Sys, a: nat)
    requires Inv(s) && a in s.attempts && s.attempts[a].pc.Release?
    ensures var t := ReleaseStep(s, a); forall x :: x in t.attempts ==> AttemptInv(t, x)
  {
    var t := ReleaseStep(s, a);
    forall x | x in t.attempts ensures AttemptInv(t, x) {
      assert AttemptInv(s, x) && AttemptInv(s, a);
    }
  }

  lemma ReleaseKeepsClients(s: Sys, a: nat)
    requires Inv(s) && a in s.attempts && s.attempts[a].pc.Release?
    ensures var t := ReleaseStep(s, a); forall c :: 0 <= c < |t.clients| ==> ClientInv(t, c)
  {
    var t := ReleaseStep(s, a);
    assert AttemptInv(s, a);
    forall c | 0 <= c < |t.clients| ensures ClientInv(t, c) {
      assert ClientInv(s, c);
    }
  }

  lemma CloseKeeps(s: Sys, a: nat)
    requires Inv(s) && a in s.attempts && s.attempts[a].pc.CloseClient?
    ensures Inv(Goto(Close(s, s.attempts[a].client, ByAttempt(a)), a, Finished))
  {
    assert AttemptInv(s, a);
    var c := s.attempts[a].client.value;
    RetireKeeps(s, a, c);
    assert Goto(Close(s, s.attempts[a].client, ByAttempt(a)), a, Finished) == Retire(s, a, c);
  }

  lemma RetireKeeps(s: Sys, a: nat, c: nat)
    requires Inv(s) && a in s.attempts && s.attempts[a].pc.CloseClient?
    requires s.attempts[a].client == Some(c) && c < |s.clients| && s.clients[c].place == ByAttempt(a)
    ensures Inv(Retire(s, a, c))
  {
    assert ClientInv(s, c) && AttemptInv(s, a);
    OthersKeep(s, Retire(s, a, c));
    RetireKeepsClients(s, a, c);
    RetireKeepsAttempts(s, a, c);
  }

  lemma RetireKeepsAttempts(s: Sys, a: nat, c: nat)
    requires Inv(s) && a in s.attempts && s.attempts[a].pc.CloseClient?
    requires s.attempts[a].client == Some(c) && c < |s.clients| && s.clients[c].place == ByAttempt(a)
    ensures var t := Retire(s, a, c); forall x :: x in t.attempts ==> AttemptInv(t, x)
  {
    var t := Retire(s, a, c);
    forall x | x in t.attempts ensures AttemptInv(t, x) {
      assert AttemptInv(s, x);
    }
  }

  function Retire(s: Sys, a: nat, c: nat): Sys
    requires a in s.attempts && c < |s.clients|
  {
    var r := s.clients[c];
    s.(clients := s.clients[c := r.(closes := r.closes + 1, place := Closed(ByAttempt(a)))],
       attempts := s.attempts[a := s.attempts[a].(pc := Finished)])
  }

  lemma RetireKeepsClients(s: Sys, a: nat, c: nat)
    requires Inv(s) && a in s.attempts && s.attempts[a].pc.CloseClient?
    requires s.attempts[a].client == Some(c) && c < |s.clients| && s.clients[c].place == ByAttempt(a)
    ensures forall x :: 0 <= x < |s.clients| ==> ClientInv(Retire(s, a, c), x)
  {
    forall x | 0 <= x < |s.clients| ensures ClientInv(Retire(s, a, c), x) {
      assert ClientInv(s, x);
    }
  }

  lemma PlainFits(att: Attempt, o: Outcome)
    requires Fits(att) && IsPlain(att.pc)
    ensures var pc := NextPc(att.pc, att.interactive, o);
            && Fits(att.(pc := pc)) && !pc.MarkStarted? && Live(pc) && !AfterDown(pc)
            && (BeforePrompt(pc) ==> BeforePrompt(att.pc))
  {
  }

  lemma AttemptKeeps(s: Sys, a: nat, o: Outcome)
    requires Inv(s) && Enabled(s, AttemptStep(a, o))
    ensures Inv(StepAttempt(s, a, o))
  {
    assert AttemptInv(s, a);
    var att := s.attempts[a];
    if IsPlain(att.pc) {
      PlainFits(att, o);
      GotoKeeps(s, a, NextPc(att.pc, att.interactive, o));
    } else if IsRising(att.pc) {
      RisingKeeps(s, a, o);
    } else {
      EndingKeeps(s, a);
    }
  }

  lemma StartingKeeps(s: Sys, a: nat)
    requires Inv(s) && a in s.attempts && s.attempts[a].pc.MarkStarting?
    ensures Inv(Goto(s.(svc := s.svc.(state := Starting)), a, Parse))
  {
    assert AttemptInv(s, a);
    StateKeeps(s, Starting);
    GotoKeeps(s.(svc := s.svc.(state := Starting)), a, Parse);
  }

  lemma RisingKeeps(s: Sys, a: nat, o: Outcome)
    requires Inv(s) && a in s.attempts && IsRising(s.attempts[a].pc)
    ensures Inv(RisingStep(s, a, o))
  {
    assert AttemptInv(s, a);
    match s.attempts[a].pc
    case MarkStarting => StartingKeeps(s, a);
    case Dial =>
      if o == Success { DialKeeps(s, a); } else { GotoKeeps(s, a, EmitFailure); }
    case RegisterKey => RegisterKeeps(s, a, SetupKeyPrompt, EmitKey, EmitFailure);
    case WaitKey => WaitKeyKeeps(s, a, o);
    case RegisterSso => RegisterKeeps(s, a, SsoPrompt, EmitSso, WaitSso);
    case Up =>
      if o == Success { UpKeeps(s, a); } else { GotoKeeps(s, a, EmitFailure); }
    case Complete =>
      if s.attempts[a].cancelled { GotoKeeps(s, a, Clear(false)); } else { CompleteKeeps(s, a); }
  }

  lemma MarkKeeps(s: Sys, a: nat, state: ServiceState, next: AttemptPc)
    requires Inv(s) && a in s.attempts
    requires (s.attempts[a].pc.MarkStarted? && next == Clear(true))
        || (s.attempts[a].pc.MarkStopped? && next == Clear(false))
    ensures Inv(Goto(s, a, next))
    ensures Inv(Goto(s.(svc := s.svc.(state := state)), a, next))
  {
    assert AttemptInv(s, a);
    GotoKeeps(s, a, next);
    StateKeeps(Goto(s, a, next), state);
  }

  lemma ClearKeeps(s: Sys, a: nat)
    requires Inv(s) && a in s.attempts && s.attempts[a].pc.Clear?
    ensures Inv(ClearStep(s, a, s.attempts[a].pc.success))
  {
    assert AttemptInv(s, a);
    var att := s.attempts[a];
    var next := if !att.pc.success && att.daemonUp && att.client.Some? then Down else CancelOwn(att.pc.success);
    GotoKeeps(s, a, next);
    var t := Goto(s, a, next);
    if s.svc.prompt.Some? && s.svc.prompt.value.activationID == a {
      DropPromptKeeps(t);
      assert ClearStep(s, a, att.pc.success) == t.(svc := t.svc.(prompt := None));
    } else {
      assert ClearStep(s, a, att.pc.success) == t;
    }
  }

  lemma CancelOwnKeeps(s: Sys, a: nat)
    requires Inv(s) && a in s.attempts && s.attempts[a].pc.CancelOwn?
    ensures Inv(CancelAttempt(Goto(s, a, if s.attempts[a].pc.success then Finished else Release), Some(a)))
  {
    assert AttemptInv(s, a);
    var next := if s.attempts[a].pc.success then Finished else Release;
    GotoKeeps(s, a, next);
    CancelAttemptKeeps(Goto(s, a, next), Some(a));
  }

  lemma EndingKeeps(s: Sys, a: nat)
    requires Inv(s) && a in s.attempts && !IsPlain(s.attempts[a].pc) && !IsRising(s.attempts[a].pc)
    ensures Inv(EndingStep(s, a))
  {
    match s.attempts[a].pc
    case MarkStarted(session) =>
      MarkKeeps(s, a, Started, Clear(true));
      assert EndingStep(s, a) == Goto(s.(svc := SetStateForSession(s.svc, session, Started).fields), a, Clear(true));
    case MarkStopped => MarkKeeps(s, a, Stopped, Clear(false));
    case Clear(_) => ClearKeeps(s, a);
    case Down => DownKeeps(s, a);
    case CancelOwn(_) => CancelOwnKeeps(s, a);
    case Release => ReleaseKeeps(s, a);
    case CloseClient => CloseKeeps(s, a);
    case Finished =>
  }

  // ---------- the Disconnect call ----------

  /** A step of a Disconnect call that leaves its client where it is. */
  lemma CallMovesKeeps(s: Sys, d: nat, call: Call)
    requires Inv(s) && d < |s.calls| && call.client == s.calls[d].client
    requires !call.pc.CallClose? && !s.calls[d].pc.CallClose?
    requires CallHolds(call) == CallHolds(s.calls[d]) && (call.pc.CallDown? ==> call.client.Some?)
    ensures Inv(s.(calls := s.calls[d := call]))
  {
    var t := s.(calls := s.calls[d := call]);
    forall x | x in t.attempts ensures AttemptInv(t, x) {
      assert AttemptInv(s, x);
    }
    forall x | x in t.monitors ensures MonitorInv(t, x) {
      assert MonitorInv(s, x);
    }
    forall x | 0 <= x < |t.calls| ensures CallInv(t, x) {
      assert CallInv(s, x);
    }
    forall x | 0 <= x < |t.clients| ensures ClientInv(t, x) {
      assert ClientInv(s, x);
    }
  }

  /** A Disconnect call's Down and Close: the only steps that touch the client it took. */
  function Spend(s: Sys, d: nat, record: ClientRecord, call: Call): Sys
    requires d < |s.calls| && s.calls[d].client.Some? && s.calls[d].client.value < |s.clients|
  {
    s.(clients := s.clients[s.calls[d].client.value := record], calls := s.calls[d := call])
  }

  lemma SpendKeeps(s: Sys, d: nat, record: ClientRecord, call: Call)
    requires Inv(s) && d < |s.calls| && CallHolds(s.calls[d]) && s.calls[d].client.value < |s.clients|
    requires call.client == s.calls[d].client && record.dialer == s.clients[call.client.value].dialer
    requires record.ups == 1 && record.downs == 1
    requires (call.pc.CallClose? && record.place == ByCall(d) && record.closes == 0)
        || ((call.pc.EmitDownFailure? || call.pc.MarkCallStopped?) && record.place == Closed(ByCall(d))
            && record.closes == 1)
    ensures Inv(Spend(s, d, record, call))
  {
    var t := Spend(s, d, record, call);
    assert CallInv(s, d) && ClientInv(s, call.client.value);
    SpendKeepsClients(s, d, record, call);
    forall x | x in t.attempts ensures AttemptInv(t, x) {
      assert AttemptInv(s, x);
    }
    forall x | x in t.monitors ensures MonitorInv(t, x) {
      assert MonitorInv(s, x);
    }
    forall x | 0 <= x < |t.calls| ensures CallInv(t, x) {
      assert CallInv(s, x);
    }
  }

  lemma SpendKeepsClients(s: Sys, d: nat, record: ClientRecord, call: Call)
    requires Inv(s) && d < |s.calls| && CallHolds(s.calls[d]) && s.calls[d].client.value < |s.clients|
    requires call.client == s.calls[d].client && record.dialer == s.clients[call.client.value].dialer
    requires record.ups == 1 && record.downs == 1
    requires (call.pc.CallClose? && record.place == ByCall(d) && record.closes == 0)
        || ((call.pc.EmitDownFailure? || call.pc.MarkCallStopped?) && record.place == Closed(ByCall(d))
            && record.closes == 1)
    ensures var t := Spend(s, d, record, call); forall c :: 0 <= c < |t.clients| ==> ClientInv(t, c)
  {
    var t := Spend(s, d, record, call);
    assert CallInv(s, d) && ClientInv(s, call.client.value);
    forall x | 0 <= x < |t.clients| ensures ClientInv(t, x) {
      assert ClientInv(s, x);
    }
  }

  lemma CallDownKeeps(s: Sys, d: nat, daemonError: bool)
    requires Inv(s) && d < |s.calls| && s.calls[d].pc.CallDown?
    ensures Inv(StepCall(s, d, daemonError))
  {
    var call := s.calls[d];
    assert CallInv(s, d) && ClientInv(s, call.client.value);
    var r := s.clients[call.client.value];
    SpendKeeps(s, d, r.(downs := r.downs + 1), call.(pc := CallClose, downFailed := daemonError));
  }

  lemma CallCloseKeeps(s: Sys, d: nat, daemonError: bool)
    requires Inv(s) && d < |s.calls| && s.calls[d].pc.CallClose?
    ensures Inv(StepCall(s, d, daemonError))
  {
    var call := s.calls[d];
    assert CallInv(s, d) && ClientInv(s, call.client.value);
    var r := s.clients[call.client.value];
    SpendKeeps(s, d, r.(closes := r.closes + 1, place := Closed(ByCall(d))),
               call.(pc := if call.downFailed then EmitDownFailure else MarkCallStopped));
  }

  lemma CallKeeps(s: Sys, d: nat, daemonError: bool)
    requires Inv(s) && d < |s.calls|
    ensures Inv(StepCall(s, d, daemonError))
  {
    var call := s.calls[d];
    assert CallInv(s, d);
    match call.pc
    case MarkStopping =>
      StateKeeps(s, Stopping);
      CallMovesKeeps(s.(svc := s.svc.(state := Stopping)), d,
          call.(pc := if call.client.Some? then CallDown else MarkCallStopped));
    case CallDown => CallDownKeeps(s, d, daemonError);
    case CallClose => CallCloseKeeps(s, d, daemonError);
    case EmitDownFailure => CallMovesKeeps(s, d, call.(pc := MarkCallStopped));
    case MarkCallStopped =>
      StateKeeps(s, Stopped);
      CallMovesKeeps(s.(svc := s.svc.(state := Stopped)), d, call.(pc := Returned));
    case Returned =>
  }

  // ---------- the monitor goroutine ----------

  /** A step of a monitor that leaves the session's client where it is. */
  lemma WatchKeeps(s: Sys, m: nat, mon: Monitor)
    requires Inv(s) && m in s.monitors && MonitorFits(mon)
    requires mon.client == s.monitors[m].client && mon.taken == s.monitors[m].taken
    requires mon.cancelled == s.monitors[m].cancelled
    requires MonitorHolds(mon) == MonitorHolds(s.monitors[m]) && !mon.pc.CancelTaken?
    requires (s.monitors[m].pc.CancelTaken? ==> mon.cancelled)
    requires mon.pc.Exited? ==> mon.taken.None? || s.monitors[m].pc.Exited?
    ensures Inv(s.(monitors := s.monitors[m := mon]))
  {
    var t := s.(monitors := s.monitors[m := mon]);
    forall x | x in t.attempts ensures AttemptInv(t, x) {
      assert AttemptInv(s, x);
    }
    forall x | x in t.monitors ensures MonitorInv(t, x) {
      assert MonitorInv(s, x);
    }
    forall x | 0 <= x < |t.calls| ensures CallInv(t, x) {
      assert CallInv(s, x);
    }
    forall x | 0 <= x < |t.clients| ensures ClientInv(t, x) {
      assert ClientInv(s, x);
    }
  }

  /** Taking the session's client out of the service, by the monitor of that session. */
  function Seize(s: Sys, m: nat, fields: Fields, mon: Monitor): Sys
    requires m in s.monitors && s.svc.client.Some? && s.svc.client.value < |s.clients|
  {
    var c := s.svc.client.value;
    s.(svc := fields, clients := s.clients[c := s.clients[c].(place := ByMonitor(m))], monitors := s.monitors[m := mon])
  }

  lemma SeizeKeeps(s: Sys, m: nat, fields: Fields, mon: Monitor)
    requires Inv(s) && s.svc.sessionID == m && s.svc.client.Some?
    requires fields == s.svc.(client := None, monitorCancel := None, state := fields.state)
    requires MonitorFits(mon) && mon.client == s.monitors[m].client && mon.taken == s.svc.client && MonitorHolds(mon)
    requires mon.cancelled || mon.pc == CancelTaken(Some(m))
    requires mon.pc.CancelTaken? ==> mon.pc.context == Some(m)
    ensures Inv(Seize(s, m, fields, mon))
  {
    var t := Seize(s, m, fields, mon);
    assert MonitorInv(s, m) && ClientInv(s, s.svc.client.value);
    forall x | x in t.attempts ensures AttemptInv(t, x) {
      assert AttemptInv(s, x);
    }
    forall x | x in t.monitors ensures MonitorInv(t, x) {
      assert MonitorInv(s, x);
    }
    forall x | 0 <= x < |t.calls| ensures CallInv(t, x) {
      assert CallInv(s, x);
    }
    forall x | 0 <= x < |t.clients| ensures ClientInv(t, x) {
      assert ClientInv(s, x);
    }
  }

  lemma ClearOwnKeeps(s: Sys, m: nat)
    requires Inv(s) && m in s.monitors && s.monitors[m].pc.ClearOwn?
    ensures Inv(ClearOwnStep(s, m))
  {
    assert MonitorInv(s, m);
    var mon := s.monitors[m];
    if s.svc.sessionID == m && s.svc.client.Some? {
      var after := mon.(cancelled := true, taken := s.svc.client, pc := CloseTaken);
      SeizeKeeps(s, m, ClearSession(s.svc, m).fields, after);
      assert ClearOwnStep(s, m).monitors == s.monitors[m := after];
      assert ClearOwnStep(s, m) == Seize(s, m, ClearSession(s.svc, m).fields, after);
    } else {
      WatchKeeps(s, m, mon.(pc := Exited));
      assert ClearOwnStep(s, m) == s.(monitors := s.monitors[m := mon.(pc := Exited)]);
    }
  }

  lemma FailOwnKeeps(s: Sys, m: nat)
    requires Inv(s) && m in s.monitors && s.monitors[m].pc.FailOwn?
    ensures Inv(FailOwnStep(s, m))
  {
    assert MonitorInv(s, m);
    var mon := s.monitors[m];
    if s.svc.sessionID == m && s.svc.client.Some? {
      var after := mon.(taken := s.svc.client, pc := CancelTaken(Some(m)));
      SeizeKeeps(s, m, FailSession(s.svc, m).fields, after);
      assert FailOwnStep(s, m) == Seize(s, m, FailSession(s.svc, m).fields, after);
    } else {
      WatchKeeps(s, m, mon.(pc := Exited));
    }
  }

  lemma CancelTakenKeeps(s: Sys, m: nat)
    requires Inv(s) && m in s.monitors && s.monitors[m].pc.CancelTaken?
    ensures Inv(Watch(CancelMonitor(s, s.monitors[m].pc.context), m, EmitThreshold))
  {
    assert MonitorInv(s, m);
    CancelMonitorKeeps(s, Some(m));
    WatchKeeps(CancelMonitor(s, Some(m)), m, s.monitors[m].(cancelled := true, pc := EmitThreshold));
  }

  function Dismiss(s: Sys, m: nat, c: nat): Sys
    requires m in s.monitors && c < |s.clients|
  {
    var r := s.clients[c];
    s.(clients := s.clients[c := r.(closes := r.closes + 1, place := Closed(ByMonitor(m)))],
       monitors := s.monitors[m := s.monitors[m].(pc := Exited)])
  }

  lemma DismissKeeps(s: Sys, m: nat, c: nat)
    requires Inv(s) && m in s.monitors && s.monitors[m].pc.CloseTaken? && s.monitors[m].taken == Some(c)
    requires c < |s.clients|
    ensures Inv(Dismiss(s, m, c))
  {
    var t := Dismiss(s, m, c);
    assert MonitorInv(s, m) && ClientInv(s, c);
    forall x | x in t.attempts ensures AttemptInv(t, x) {
      assert AttemptInv(s, x);
    }
    forall x | x in t.monitors ensures MonitorInv(t, x) {
      assert MonitorInv(s, x);
    }
    forall x | 0 <= x < |t.calls| ensures CallInv(t, x) {
      assert CallInv(s, x);
    }
    forall x | 0 <= x < |t.clients| ensures ClientInv(t, x) {
      assert ClientInv(s, x);
    }
  }

  /** Program points whose step changes the monitor's own variables only. */
  predicate IsOwnStep(pc: MonitorPc) {
    pc.Check? || pc.Poll? || pc.EmitDaemonFailure? || pc.CheckThreshold? || pc.EmitThreshold? || pc.Wait?
  }

  lemma OwnStepKeeps(s: Sys, m: nat, poll: PollOutcome)
    requires Inv(s) && m in s.monitors && IsOwnStep(s.monitors[m].pc)
    ensures Inv(StepMonitor(s, m, poll))
  {
    assert MonitorInv(s, m);
    var t := StepMonitor(s, m, poll);
    OwnStepFits(s, m, poll);
    WatchKeeps(s, m, t.monitors[m]);
    assert t.monitors == s.monitors[m := t.monitors[m]];
  }

  lemma OwnStepFits(s: Sys, m: nat, poll: PollOutcome)
    requires m in s.monitors && MonitorFits(s.monitors[m]) && IsOwnStep(s.monitors[m].pc)
    ensures var t := StepMonitor(s, m, poll);
            && t.monitors.Keys == s.monitors.Keys && t == s.(monitors := t.monitors)
            && t.monitors == s.monitors[m := t.monitors[m]]
            && MonitorFits(t.monitors[m])
            && t.monitors[m].client == s.monitors[m].client && t.monitors[m].taken == s.monitors[m].taken
            && t.monitors[m].cancelled == s.monitors[m].cancelled && !t.monitors[m].pc.CancelTaken?
            && MonitorHolds(t.monitors[m]) == MonitorHolds(s.monitors[m])
            && (t.monitors[m].pc.Exited? ==> t.monitors[m].taken.None?)
  {
  }

  lemma MonitorKeeps(s: Sys, m: nat, poll: PollOutcome)
    requires Inv(s) && m in s.monitors
    ensures Inv(StepMonitor(s, m, poll))
  {
    var mon := s.monitors[m];
    assert MonitorInv(s, m);
    if IsOwnStep(mon.pc) {
      OwnStepKeeps(s, m, poll);
    } else {
      match mon.pc
      case Mark(state) =>
        StateKeeps(s, state);
        WatchKeeps(s.(svc := s.svc.(state := state)), m, mon.(pc := Wait));
      case MarkDown =>
        StateKeeps(s, Stopped);
        WatchKeeps(s.(svc := s.svc.(state := Stopped)), m, mon.(pc := ClearOwn));
      case ClearOwn => ClearOwnKeeps(s, m);
      case FailOwn => FailOwnKeeps(s, m);
      case CancelTaken(_) => CancelTakenKeeps(s, m);
      case CloseTaken => CloseTakenKeeps(s, m);
      case Exited =>
    }
  }

  lemma CloseTakenKeeps(s: Sys, m: nat)
    requires Inv(s) && m in s.monitors && s.monitors[m].pc.CloseTaken?
    ensures Inv(Watch(Close(s, s.monitors[m].taken, ByMonitor(m)), m, Exited))
  {
    assert MonitorInv(s, m);
    DismissKeeps(s, m, s.monitors[m].taken.value);
    assert Watch(Close(s, s.monitors[m].taken, ByMonitor(m)), m, Exited) == Dismiss(s, m, s.monitors[m].taken.value);
  }

  /** Every action keeps the invariant. */
  lemma StepKeeps(s: Sys, act: Action)
    requires Inv(s) && Enabled(s, act)
    ensures Inv(Apply(s, act))
  {
    match act
    case ConnectCall(interactive) => ConnectKeeps(s, interactive);
    case DisconnectCall => DisconnectKeeps(s);
    case SetFailureCall => FailKeeps(s);
    case NewSecretsCall(secrets) => SecretKeeps(s, secrets);
    case AttemptStep(a, o) => AttemptKeeps(s, a, o);
    case CallStep(d, daemonError) => CallKeeps(s, d, daemonError);
    case MonitorStep(m, poll) => MonitorKeeps(s, m, poll);
  }

  /** In every reachable state of every run, the invariant holds. */
  lemma {:induction false} ReachableInv(states: seq<Sys>, acts: seq<Action>, i: nat)
    requires IsRun(states, acts) && i < |states|
    ensures Inv(states[i])
    decreases i
  {
    if i == 0 {
      InitialInv();
    } else {
      ReachableInv(states, acts, i - 1);
      assert StepAt(states, acts, i - 1);
      StepKeeps(states[i - 1], acts[i - 1]);
    }
  }
}
