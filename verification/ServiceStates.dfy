/**
Who writes the state of the service, and when it stays Stopped. Most writes are made without
looking at the session, so a Disconnect call alone does not settle the state.
*/
module ServiceStates {
  import opened Wrappers
  import opened ServiceRegions
  import opened Protocol
  import opened Invariant
  import opened Effects
  import opened Lifecycle
  import MonitorRuns

  // ---------- every write ----------

  predicate OwnsSession(f: Fields, session: nat) {
    f.sessionID == session && f.client.Some?
  }

  function AttemptWrites(s: Sys, pc: AttemptPc): Option<ServiceState> {
    match pc
    case MarkStarting => Some(Starting)
    case MarkStopped => Some(Stopped)
    case MarkStarted(session) => if OwnsSession(s.svc, session) then Some(Started) else None
    case _ => None
  }

  function CallWrites(pc: CallPc): Option<ServiceState> {
    match pc
    case MarkStopping => Some(Stopping)
    case MarkCallStopped => Some(Stopped)
    case _ => None
  }

  function MonitorWrites(s: Sys, m: nat, pc: MonitorPc): Option<ServiceState> {
    match pc
    case Mark(state) => Some(state)
    case MarkDown => Some(Stopped)
    case FailOwn => if OwnsSession(s.svc, m) then Some(Stopped) else None
    case _ => None
  }

  function Writes(s: Sys, act: Action): Option<ServiceState>
    requires Enabled(s, act)
  {
    match act
    case AttemptStep(a, _) => AttemptWrites(s, s.attempts[a].pc)
    case CallStep(d, _) => CallWrites(s.calls[d].pc)
    case MonitorStep(m, _) => MonitorWrites(s, m, s.monitors[m].pc)
    case _ => None
  }

  predicate Writing(before: ServiceState, written: Option<ServiceState>, after: ServiceState) {
    after == match written case None => before case Some(state) => state
  }

  /** The state changes by these writes and by nothing else. */
  lemma WritesAreAll(s: Sys, act: Action)
    requires Enabled(s, act)
    ensures Writing(s.svc.state, Writes(s, act), Apply(s, act).svc.state)
  {
    match act
    case ConnectCall(interactive) =>
    case DisconnectCall =>
    case SetFailureCall =>
    case NewSecretsCall(secrets) =>
    case AttemptStep(a, o) => AttemptWritesAll(s, a, o);
    case CallStep(d, daemonError) =>
    case MonitorStep(m, poll) => MonitorWritesAll(s, m, poll);
  }

  lemma AttemptWritesAll(s: Sys, a: nat, o: Outcome)
    requires Enabled(s, AttemptStep(a, o))
    ensures Writing(s.svc.state, AttemptWrites(s, s.attempts[a].pc), StepAttempt(s, a, o).svc.state)
  {
    if IsRising(s.attempts[a].pc) {
      RisingWritesAll(s, a, o);
    } else if !IsPlain(s.attempts[a].pc) {
      EndingWritesAll(s, a);
    }
  }

  lemma RisingWritesAll(s: Sys, a: nat, o: Outcome)
    requires a in s.attempts && IsRising(s.attempts[a].pc)
    ensures Writing(s.svc.state, AttemptWrites(s, s.attempts[a].pc), RisingStep(s, a, o).svc.state)
  {
  }

  lemma EndingWritesAll(s: Sys, a: nat)
    requires a in s.attempts && !IsPlain(s.attempts[a].pc) && !IsRising(s.attempts[a].pc)
    ensures Writing(s.svc.state, AttemptWrites(s, s.attempts[a].pc), EndingStep(s, a).svc.state)
  {
  }

  lemma MonitorWritesAll(s: Sys, m: nat, poll: PollOutcome)
    requires m in s.monitors
    ensures Writing(s.svc.state, MonitorWrites(s, m, s.monitors[m].pc), StepMonitor(s, m, poll).svc.state)
  {
  }

  // ---------- when the service stays stopped ----------

  /** Stopped, without a client, and with whatever attempt is still in flight cancelled, as Disconnect leaves it. */
  ghost predicate Down(s: Sys) {
    && s.svc.state == Stopped && s.svc.client.None?
    && (forall a :: a in s.attempts && Live(s.attempts[a].pc) ==> s.attempts[a].cancelled)
  }

  predicate MayMark(pc: MonitorPc) {
    pc.Poll? || (pc.Mark? && pc.state != Stopped)
  }

  /** A write of another state is on its way, or an answer of the daemon that may lead to one. */
  ghost predicate Pending(s: Sys) {
    || (exists a :: a in s.attempts && s.attempts[a].pc.MarkStarting?)
    || (exists m :: m in s.monitors && MayMark(s.monitors[m].pc))
    || (exists d :: 0 <= d < |s.calls| && s.calls[d].pc.MarkStopping?)
  }

  ghost predicate Settled(s: Sys) {
    Down(s) && !Pending(s)
  }

  predicate IsNewCall(act: Action) {
    act.ConnectCall? || act.DisconnectCall?
  }

  lemma DownStays(s: Sys, act: Action)
    requires Inv(s) && Enabled(s, act) && !IsNewCall(act) && Down(s) && !Pending(s)
    ensures Down(Apply(s, act))
  {
    WritesAreAll(s, act);
    NothingElseWrites(s, act);
    ServiceEffects(s, act);
    AttemptEffects(s, act);
  }

  lemma NothingElseWrites(s: Sys, act: Action)
    requires Inv(s) && Enabled(s, act) && Down(s) && !Pending(s)
    ensures Writes(s, act) in {None, Some(Stopped)}
  {
  }

  lemma NothingBecomesPending(s: Sys, act: Action)
    requires Inv(s) && Enabled(s, act) && !IsNewCall(act) && Down(s) && !Pending(s)
    ensures !Pending(Apply(s, act))
  {
    var t := Apply(s, act);
    forall a | a in t.attempts ensures !t.attempts[a].pc.MarkStarting? {
      NoAttemptStarts(s, act, a);
    }
    forall m | m in t.monitors ensures !MayMark(t.monitors[m].pc) {
      NoMonitorPolls(s, act, m);
    }
    forall d | 0 <= d < |t.calls| ensures !t.calls[d].pc.MarkStopping? {
      NoCallStops(s, act, d);
    }
  }

  lemma NoAttemptStarts(s: Sys, act: Action, a: nat)
    requires Enabled(s, act) && !IsNewCall(act) && !Pending(s) && a in Apply(s, act).attempts
    ensures !Apply(s, act).attempts[a].pc.MarkStarting?
  {
    AttemptEffects(s, act);
    if act.AttemptStep? && act.attempt == a {
      OwnStepDoesNotStart(s, a, act.outcome);
    } else {
      OtherStepDoesNotStart(s, act, Apply(s, act), a);
    }
  }

  lemma OwnStepDoesNotStart(s: Sys, a: nat, o: Outcome)
    requires Enabled(s, AttemptStep(a, o)) && a in StepAttempt(s, a, o).attempts
    ensures !StepAttempt(s, a, o).attempts[a].pc.MarkStarting?
  {
    if !s.attempts[a].pc.Finished? {
      AttemptsProgress(s, a, o);
    }
  }

  lemma OtherStepDoesNotStart(s: Sys, act: Action, t: Sys, a: nat)
    requires AttemptEffect(s, act, t) && !IsNewCall(act) && !Pending(s) && a in t.attempts
    requires !(act.AttemptStep? && act.attempt == a)
    ensures !t.attempts[a].pc.MarkStarting?
  {
  }

  lemma NoMonitorPolls(s: Sys, act: Action, m: nat)
    requires Inv(s) && Enabled(s, act) && Down(s) && !Pending(s) && m in Apply(s, act).monitors
    ensures !MayMark(Apply(s, act).monitors[m].pc)
  {
    if act.MonitorStep? && act.session == m {
      OwnStepEnds(s, m, act.poll);
    } else {
      MonitorRuns.OtherStepUntouched(s, act, m);
    }
  }

  /** Without a client every monitor is cancelled or on its way out, so none of them polls again. */
  lemma OwnStepEnds(s: Sys, m: nat, poll: PollOutcome)
    requires Inv(s) && m in s.monitors && s.svc.client.None? && !MayMark(s.monitors[m].pc)
    ensures m in StepMonitor(s, m, poll).monitors
    ensures !MayMark(StepMonitor(s, m, poll).monitors[m].pc)
  {
    assert MonitorInv(s, m);
    match s.monitors[m].pc
    case ClearOwn => MonitorRuns.ClearMoves(s, m);
    case FailOwn => MonitorRuns.FailMoves(s, m);
    case _ =>
  }

  lemma NoCallStops(s: Sys, act: Action, d: nat)
    requires Enabled(s, act) && !IsNewCall(act) && !Pending(s) && d < |Apply(s, act).calls|
    ensures !Apply(s, act).calls[d].pc.MarkStopping?
  {
    CallsOnlyMoveOn(s, act);
  }

  lemma CallsOnlyMoveOn(s: Sys, act: Action)
    requires Enabled(s, act) && !IsNewCall(act)
    ensures |Apply(s, act).calls| == |s.calls|
    ensures forall d :: 0 <= d < |s.calls| && Apply(s, act).calls[d].pc.MarkStopping? ==> s.calls[d].pc.MarkStopping?
  {
    match act
    case SetFailureCall => assert Apply(s, act).calls == s.calls;
    case NewSecretsCall(secrets) => assert Apply(s, act).calls == s.calls;
    case AttemptStep(a, o) => AttemptLeavesCalls(s, a, o);
    case CallStep(d, daemonError) =>
    case MonitorStep(m, poll) => assert StepMonitor(s, m, poll).calls == s.calls;
  }

  lemma AttemptLeavesCalls(s: Sys, a: nat, o: Outcome)
    requires Enabled(s, AttemptStep(a, o))
    ensures StepAttempt(s, a, o).calls == s.calls
  {
  }

  /** With nothing pending, a service that is down stays Stopped until the next Connect or Disconnect call. */
  lemma {:induction false} StaysStopped(states: seq<Sys>, acts: seq<Action>, i: nat, j: nat)
    requires IsRun(states, acts) && i <= j < |states| && Settled(states[i])
    requires forall k :: i <= k < j ==> !IsNewCall(acts[k])
    ensures Settled(states[j])
    decreases j
  {
    if i < j {
      StaysStopped(states, acts, i, j - 1);
      StoppedStep(states, acts, j - 1);
    }
  }

  lemma StoppedStep(states: seq<Sys>, acts: seq<Action>, k: nat)
    requires IsRun(states, acts) && k < |acts| && Settled(states[k]) && !IsNewCall(acts[k])
    ensures Settled(states[k + 1])
  {
    ReachableInv(states, acts, k);
    assert StepAt(states, acts, k);
    DownStays(states[k], acts[k]);
    NothingBecomesPending(states[k], acts[k]);
  }

  /** The state after one or two steps. */
  function AfterTwo(s: Sys, first: Action, second: Option<Action>): Sys
    requires Enabled(s, first) && (second.Some? ==> Enabled(Apply(s, first), second.value))
  {
    match second
    case None => Apply(s, first)
    case Some(act) => Apply(Apply(s, first), act)
  }

  ghost predicate CanLeave(s: Sys, first: Action, second: Option<Action>) {
    && Enabled(s, first) && (second.Some? ==> Enabled(Apply(s, first), second.value))
    && !IsNewCall(first) && (second.Some? ==> !IsNewCall(second.value))
    && AfterTwo(s, first, second).svc.state != Stopped
  }

  /**
  The condition is exact: Stopped can be left without any new call, and then within two steps, if
  and only if something is pending.
  */
  lemma LeavesExactlyIfPending(s: Sys)
    requires Inv(s) && Down(s)
    ensures Pending(s) <==> exists first, second :: CanLeave(s, first, second)
  {
    if Pending(s) {
      PendingMayLeave(s);
    } else {
      forall first, second | CanLeave(s, first, second) ensures false {
        DownStays(s, first);
        NothingBecomesPending(s, first);
        StepKeeps(s, first);
        if second.Some? {
          DownStays(Apply(s, first), second.value);
        }
      }
    }
  }

  lemma PendingMayLeave(s: Sys)
    requires Pending(s) && s.svc.state == Stopped
    ensures exists first, second :: CanLeave(s, first, second)
  {
    if a :| a in s.attempts && s.attempts[a].pc.MarkStarting? {
      assert CanLeave(s, AttemptStep(a, Success), None);
    } else if d :| 0 <= d < |s.calls| && s.calls[d].pc.MarkStopping? {
      assert CanLeave(s, CallStep(d, false), None);
    } else {
      var m :| m in s.monitors && MayMark(s.monitors[m].pc);
      MonitorMayLeave(s, m);
    }
  }

  lemma MonitorMayLeave(s: Sys, m: nat)
    requires m in s.monitors && MayMark(s.monitors[m].pc)
    ensures exists first, second :: CanLeave(s, first, second)
  {
    var step := MonitorStep(m, Connected);
    if s.monitors[m].pc.Poll? {
      var t := Apply(s, step);
      assert m in t.monitors && t.monitors[m].pc == Mark(Started);
      WritesAreAll(t, step);
      assert CanLeave(s, step, Some(step));
    } else {
      WritesAreAll(s, step);
      assert CanLeave(s, step, None);
    }
  }

  /**
  It does happen: a Disconnect call that comes between the reservation of an activation and
  its first write returns with the state Stopped, and the write of Starting comes after.
  */
  lemma DisconnectMayBeOverwritten() returns (states: seq<Sys>, acts: seq<Action>)
    ensures IsRun(states, acts) && |acts| == 5 && acts[1].DisconnectCall?
    ensures |states[4].calls| == 1 && states[4].calls[0].pc.Returned? && states[4].svc.state == Stopped
    ensures states[5].svc.state == Starting && !IsNewCall(acts[4])
  {
    var s1 := Apply(INITIAL_SYS, ConnectCall(false));
    var s2 := Apply(s1, DisconnectCall);
    OvertakenConnect(s1, s2);
    var s3 := Apply(s2, CallStep(0, false));
    var s4 := Apply(s3, CallStep(0, false));
    OvertakingDisconnect(s2, s3, s4);
    var s5 := Apply(s4, AttemptStep(1, Success));
    states := [INITIAL_SYS, s1, s2, s3, s4, s5];
    acts := [ConnectCall(false), DisconnectCall, CallStep(0, false), CallStep(0, false), AttemptStep(1, Success)];
    WritesAreAll(s4, AttemptStep(1, Success));
    forall i: nat | i < 5 ensures StepAt(states, acts, i) {
      assert i == 0 || i == 1 || i == 2 || i == 3 || i == 4;
    }
  }

  lemma OvertakenConnect(s1: Sys, s2: Sys)
    requires s1 == Connect(INITIAL_SYS, false) && s2 == StartDisconnect(s1)
    ensures 1 in s2.attempts && s2.attempts[1].pc.MarkStarting? && s2.calls == [Call(MarkStopping, None, false)]
  {
  }

  lemma OvertakingDisconnect(s: Sys, s3: Sys, s4: Sys)
    requires s.calls == [Call(MarkStopping, None, false)] && s3 == StepCall(s, 0, false)
    requires |s3.calls| == 1 && s4 == StepCall(s3, 0, false)
    ensures s4.attempts == s.attempts && s4.calls == [Call(Returned, None, false)] && s4.svc.state == Stopped
  {
  }
}
