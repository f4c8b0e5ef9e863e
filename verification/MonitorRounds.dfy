/**
What a session's monitor does with an answer of the daemon, in any run of the whole system: the
steps it takes up to its next poll, the state it writes and the failures it signals.
*/
module MonitorRounds {
  import opened Wrappers
  import opened ServiceRegions
  import opened Protocol
  import opened Invariant
  import opened Lifecycle
  import opened StatusLoops
  import opened MonitorRuns
  import opened Exactness

  // ---------- what a round may be ----------

  /**
  Watch: on to the next poll, with a state marked before or not. Retire: the daemon is gone or
  has failed, and the client is taken or was not there any more. GiveUp: too many polls were
  lost; how many of the two tests the monitor passed. Quit: it was cancelled during the poll.
  */
  datatype Round =
    | Watch(mark: Option<ServiceState>)
    | Retire(signalled: bool, took: bool)
    | GiveUp(passed: nat)
    | Quit

  function WatchPlan(mark: Option<ServiceState>): seq<MonitorPc> {
    (if mark.Some? then [Mark(mark.value)] else []) + [Wait, Check]
  }

  /** The steps of a round, by the monitor of session `m`. */
  function Plan(round: Round, m: nat): seq<MonitorPc> {
    match round
    case Watch(mark) => WatchPlan(mark)
    case Retire(signalled, took) =>
      (if signalled then [EmitDaemonFailure] else []) + [MarkDown, ClearOwn] + (if took then [CloseTaken] else [])
    case GiveUp(passed) =>
      [CheckThreshold] + (if passed >= 1 then [FailOwn] else [])
      + (if passed >= 2 then [CancelTaken(Some(m)), EmitThreshold, CloseTaken] else [])
    case Quit => []
  }

  /** What comes after the last step of a round. */
  function Then(round: Round): MonitorPc {
    if round.Watch? then Poll else Exited
  }

  /** Which rounds an answer leads to. */
  predicate LeadsTo(mon: Monitor, poll: PollOutcome, round: Round) {
    match poll
    case Connected => round == Watch(Some(Started))
    case Connecting => round == Watch(Some(Starting))
    case UnknownStatus => round == Watch(None)
    case Disconnected => round.Retire? && !round.signalled
    case Failed => round.Retire? && round.signalled
    case PollError =>
      if mon.cancelled then round == Quit
      else if mon.errors + 1 >= THRESHOLD then round.GiveUp?
      else round == Watch(None)
  }

  /** Of a round, `trail` is done, and the monitor is at its next step; while watching it may have ended on its way. */
  predicate Within(round: Round, m: nat, trail: seq<MonitorPc>, pc: MonitorPc) {
    && trail <= Plan(round, m)
    && (|| pc == (if |trail| < |Plan(round, m)| then Plan(round, m)[|trail|] else Then(round))
        || (round.Watch? && pc.Exited? && |trail| >= |Plan(round, m)| - 1))
  }

  // ---------- one step ----------

  /** What an action adds to the steps the monitor has taken since its poll. */
  function Stepped(s: Sys, act: Action, m: nat): seq<MonitorPc> {
    if act.MonitorStep? && act.session == m && m in s.monitors && !s.monitors[m].pc.Exited? then
      [s.monitors[m].pc]
    else
      []
  }

  lemma PollStarts(s: Sys, m: nat, poll: PollOutcome) returns (round: Round)
    requires m in s.monitors && s.monitors[m].pc.Poll?
    ensures m in StepMonitor(s, m, poll).monitors
    ensures LeadsTo(s.monitors[m], poll, round) && Within(round, m, [], StepMonitor(s, m, poll).monitors[m].pc)
  {
    match poll
    case Connected => round := Watch(Some(Started));
    case Connecting => round := Watch(Some(Starting));
    case UnknownStatus => round := Watch(None);
    case Disconnected => round := Retire(false, false);
    case Failed => round := Retire(true, false);
    case PollError =>
      round := if s.monitors[m].cancelled then Quit
               else if s.monitors[m].errors + 1 >= THRESHOLD then GiveUp(0)
               else Watch(None);
  }

  /** What the step shows about a retirement, or about giving up. */
  function RoundAfter(round: Round, before: MonitorPc, after: MonitorPc): Round {
    match round
    case Retire(signalled, _) => if before.ClearOwn? then Retire(signalled, after.CloseTaken?) else round
    case GiveUp(_) =>
      if before.CheckThreshold? then GiveUp(if after.FailOwn? then 1 else 0)
      else if before.FailOwn? then GiveUp(if after.CancelTaken? then 2 else 1)
      else round
    case _ => round
  }

  /** Where the monitor's own steps lead, apart from polls. */
  predicate Moves(s: Sys, m: nat, before: MonitorPc, after: MonitorPc) {
    match before
    case Check => after.Poll? || after.Exited?
    case Mark(_) => after.Wait?
    case EmitDaemonFailure => after.MarkDown?
    case MarkDown => after.ClearOwn?
    case ClearOwn => after.CloseTaken? || after.Exited?
    case CheckThreshold => after.FailOwn? || after.Exited?
    case FailOwn => after == CancelTaken(Some(m)) || after.Exited?
    case CancelTaken(_) => after.EmitThreshold?
    case EmitThreshold => after.CloseTaken?
    case CloseTaken => after.Exited?
    case Wait => after.Check? || after.Exited?
    case _ => true
  }

  lemma OwnStepsMove(s: Sys, m: nat, poll: PollOutcome)
    requires Inv(s) && m in s.monitors && !s.monitors[m].pc.Poll?
    ensures m in StepMonitor(s, m, poll).monitors
    ensures Moves(s, m, s.monitors[m].pc, StepMonitor(s, m, poll).monitors[m].pc)
  {
    match s.monitors[m].pc
    case ClearOwn => ClearMoves(s, m);
    case FailOwn => FailOwnMoves(s, m);
    case _ =>
  }

  lemma FailOwnMoves(s: Sys, m: nat)
    requires Inv(s) && m in s.monitors
    ensures m in FailOwnStep(s, m).monitors
    ensures var pc := FailOwnStep(s, m).monitors[m].pc; pc == CancelTaken(Some(m)) || pc.Exited?
  {
  }

  lemma RoundGoesOn(s: Sys, m: nat, round: Round, trail: seq<MonitorPc>, before: MonitorPc, after: MonitorPc)
    requires Within(round, m, trail, before) && Moves(s, m, before, after) && !before.Exited? && !before.Poll?
    ensures Within(RoundAfter(round, before, after), m, trail + [before], after)
  {
    match round
    case Watch(mark) => WatchGoesOn(s, m, mark, trail, before, after);
    case Retire(signalled, took) => RetireGoesOn(s, m, signalled, took, trail, before, after);
    case GiveUp(passed) => GiveUpGoesOn(s, m, passed, trail, before, after);
    case Quit =>
  }

  lemma WatchGoesOn(s: Sys, m: nat, mark: Option<ServiceState>, trail: seq<MonitorPc>,
                    before: MonitorPc, after: MonitorPc)
    requires Within(Watch(mark), m, trail, before) && Moves(s, m, before, after) && !before.Exited? && !before.Poll?
    ensures Within(Watch(mark), m, trail + [before], after)
  {
  }

  lemma RetireGoesOn(s: Sys, m: nat, signalled: bool, took: bool, trail: seq<MonitorPc>,
                     before: MonitorPc, after: MonitorPc)
    requires Within(Retire(signalled, took), m, trail, before) && Moves(s, m, before, after) && !before.Exited?
    ensures Within(RoundAfter(Retire(signalled, took), before, after), m, trail + [before], after)
  {
  }

  lemma GiveUpGoesOn(s: Sys, m: nat, passed: nat, trail: seq<MonitorPc>, before: MonitorPc, after: MonitorPc)
    requires Within(GiveUp(passed), m, trail, before) && Moves(s, m, before, after) && !before.Exited?
    ensures Within(RoundAfter(GiveUp(passed), before, after), m, trail + [before], after)
  {
  }

  // ---------- runs ----------

  /** The steps the monitor of session `m` takes from step `k` up to step `j` of a run. */
  function OwnSteps(states: seq<Sys>, acts: seq<Action>, m: nat, k: nat, j: nat): seq<MonitorPc>
    requires |states| == |acts| + 1 && k <= j <= |acts|
    decreases j
  {
    if k == j then [] else OwnSteps(states, acts, m, k, j - 1) + Stepped(states[j - 1], acts[j - 1], m)
  }

  /** At step `k` the monitor polls, and it does not poll again before step `j`. */
  ghost predicate SincePoll(states: seq<Sys>, acts: seq<Action>, m: nat, k: nat, j: nat)
    requires |states| == |acts| + 1
  {
    && k < j <= |acts| && IsPollOf(states[k], acts[k], m)
    && forall i :: k < i < j ==> !IsPollOf(states[i], acts[i], m)
  }

  lemma {:induction false} NextInRound(s: Sys, act: Action, m: nat, round: Round, trail: seq<MonitorPc>)
    returns (next: Round)
    requires Inv(s) && Enabled(s, act) && m in s.monitors && !IsPollOf(s, act, m)
    requires Within(round, m, trail, s.monitors[m].pc)
    ensures m in Apply(s, act).monitors
    ensures Within(next, m, trail + Stepped(s, act, m), Apply(s, act).monitors[m].pc)
    ensures forall mon, poll :: LeadsTo(mon, poll, round) ==> LeadsTo(mon, poll, next)
  {
    assert trail + [] == trail;
    if act.MonitorStep? && act.session == m {
      next := OwnNextInRound(s, m, act.poll, round, trail);
    } else {
      next := round;
      OtherStepUntouched(s, act, m);
    }
  }

  lemma {:induction false} OwnNextInRound(s: Sys, m: nat, poll: PollOutcome, round: Round, trail: seq<MonitorPc>)
    returns (next: Round)
    requires Inv(s) && m in s.monitors && !s.monitors[m].pc.Poll? && Within(round, m, trail, s.monitors[m].pc)
    ensures m in StepMonitor(s, m, poll).monitors
    ensures Within(next, m, trail + Stepped(s, MonitorStep(m, poll), m), StepMonitor(s, m, poll).monitors[m].pc)
    ensures forall mon, p :: LeadsTo(mon, p, round) ==> LeadsTo(mon, p, next)
  {
    next := round;
    assert trail + [] == trail;
    if s.monitors[m].pc.Exited? {
      assert StepMonitor(s, m, poll) == s;
    } else {
      OwnStepsMove(s, m, poll);
      var before, after := s.monitors[m].pc, StepMonitor(s, m, poll).monitors[m].pc;
      RoundGoesOn(s, m, round, trail, before, after);
      next := RoundAfter(round, before, after);
      SameAnswers(round, before, after);
    }
  }

  /** What the round shows later does not change which answers lead to it. */
  lemma SameAnswers(round: Round, before: MonitorPc, after: MonitorPc)
    ensures forall mon, poll :: LeadsTo(mon, poll, round) ==> LeadsTo(mon, poll, RoundAfter(round, before, after))
  {
  }

  /**
  After every poll in every run, the monitor goes through the steps of a round its answer leads
  to, in order and without leaving one out, until it polls again or has ended.
  */
  lemma {:induction false} EveryPollHasItsRound(states: seq<Sys>, acts: seq<Action>, m: nat, k: nat, j: nat)
    returns (round: Round)
    requires IsRun(states, acts) && SincePoll(states, acts, m, k, j)
    ensures m in states[j].monitors && LeadsTo(states[k].monitors[m], acts[k].poll, round)
    ensures Within(round, m, OwnSteps(states, acts, m, k + 1, j), states[j].monitors[m].pc)
    decreases j
  {
    if j == k + 1 {
      assert StepAt(states, acts, k);
      round := PollStarts(states[k], m, acts[k].poll);
    } else {
      var before := EveryPollHasItsRound(states, acts, m, k, j - 1);
      round := RoundStep(states, acts, m, j - 1, before, OwnSteps(states, acts, m, k + 1, j - 1));
    }
  }

  lemma {:induction false} RoundStep(states: seq<Sys>, acts: seq<Action>, m: nat, i: nat, round: Round,
                                     trail: seq<MonitorPc>)
    returns (next: Round)
    requires IsRun(states, acts) && i < |acts| && m in states[i].monitors && !IsPollOf(states[i], acts[i], m)
    requires Within(round, m, trail, states[i].monitors[m].pc)
    ensures m in states[i + 1].monitors
    ensures Within(next, m, trail + Stepped(states[i], acts[i], m), states[i + 1].monitors[m].pc)
    ensures forall mon, poll :: LeadsTo(mon, poll, round) ==> LeadsTo(mon, poll, next)
  {
    ReachableInv(states, acts, i);
    assert StepAt(states, acts, i);
    next := NextInRound(states[i], acts[i], m, round, trail);
  }

  // ---------- what the steps of a round do ----------

  /** A monitor signals a failure at the two steps named for it, always, and at no others. */
  lemma SignalsExactly(s: Sys, act: Action, m: nat)
    requires Inv(s) && Enabled(s, act) && m in s.monitors
    ensures m in Apply(s, act).monitors
    ensures var before, after := s.monitors[m], Apply(s, act).monitors[m];
            var own := act.MonitorStep? && act.session == m;
            && after.failures == before.failures + If(own && (before.pc.EmitDaemonFailure? || before.pc.EmitThreshold?))
            && after.thresholdFailures == before.thresholdFailures + If(own && before.pc.EmitThreshold?)
  {
    if act.MonitorStep? && act.session == m {
      OwnSignals(s, m, act.poll);
    } else {
      OthersSignalNothing(s, act, m);
    }
  }

  lemma OwnSignals(s: Sys, m: nat, poll: PollOutcome)
    requires m in s.monitors
    ensures m in StepMonitor(s, m, poll).monitors
    ensures var before, after := s.monitors[m], StepMonitor(s, m, poll).monitors[m];
            && after.failures == before.failures + If(before.pc.EmitDaemonFailure? || before.pc.EmitThreshold?)
            && after.thresholdFailures == before.thresholdFailures + If(before.pc.EmitThreshold?)
  {
    match s.monitors[m].pc
    case ClearOwn => OwnClearSignalsNothing(s, m);
    case FailOwn => OwnFailSignalsNothing(s, m);
    case _ =>
  }

  lemma OwnClearSignalsNothing(s: Sys, m: nat)
    requires m in s.monitors
    ensures m in ClearOwnStep(s, m).monitors && SameSignals(s.monitors[m], ClearOwnStep(s, m).monitors[m])
  {
  }

  lemma OwnFailSignalsNothing(s: Sys, m: nat)
    requires m in s.monitors
    ensures m in FailOwnStep(s, m).monitors && SameSignals(s.monitors[m], FailOwnStep(s, m).monitors[m])
  {
  }

  predicate SameSignals(before: Monitor, after: Monitor) {
    after.failures == before.failures && after.thresholdFailures == before.thresholdFailures
  }

  lemma OthersSignalNothing(s: Sys, act: Action, m: nat)
    requires Inv(s) && Enabled(s, act) && m in s.monitors && !(act.MonitorStep? && act.session == m)
    ensures m in Apply(s, act).monitors && SameSignals(s.monitors[m], Apply(s, act).monitors[m])
  {
    match act
    case AttemptStep(a, o) => AttemptSignalsNothing(s, a, o, m);
    case MonitorStep(n, poll) => OtherMonitorSignalsNothing(s, n, poll, m);
    case _ => CallsSignalNothing(s, act, m);
  }

  lemma CallsSignalNothing(s: Sys, act: Action, m: nat)
    requires Enabled(s, act) && m in s.monitors && !act.MonitorStep? && !act.AttemptStep?
    ensures m in Apply(s, act).monitors && SameSignals(s.monitors[m], Apply(s, act).monitors[m])
  {
    match act
    case CallStep(d, daemonError) => assert StepCall(s, d, daemonError).monitors == s.monitors;
    case _ =>
  }

  lemma AttemptSignalsNothing(s: Sys, a: nat, o: Outcome, m: nat)
    requires Inv(s) && Enabled(s, AttemptStep(a, o)) && m in s.monitors
    ensures m in StepAttempt(s, a, o).monitors && SameSignals(s.monitors[m], StepAttempt(s, a, o).monitors[m])
  {
    assert MonitorInv(s, m);
    if s.attempts[a].pc.Complete? {
      CompletionSignalsNothing(s, a, m);
    } else {
      OnlyCompleteTouchesMonitors(s, a, o);
    }
  }

  lemma CompletionSignalsNothing(s: Sys, a: nat, m: nat)
    requires Inv(s) && a in s.attempts && m in s.monitors
    ensures m in CompleteStep(s, a).monitors && SameSignals(s.monitors[m], CompleteStep(s, a).monitors[m])
  {
    assert MonitorInv(s, m);
  }

  lemma OtherMonitorSignalsNothing(s: Sys, n: nat, poll: PollOutcome, m: nat)
    requires n in s.monitors && m in s.monitors && n != m
    ensures m in StepMonitor(s, n, poll).monitors && SameSignals(s.monitors[m], StepMonitor(s, n, poll).monitors[m])
  {
    match s.monitors[n].pc
    case ClearOwn => OtherClearSignalsNothing(s, n, m);
    case FailOwn => OtherFailSignalsNothing(s, n, m);
    case _ =>
  }

  lemma OtherClearSignalsNothing(s: Sys, n: nat, m: nat)
    requires n in s.monitors && m in s.monitors && n != m
    ensures m in ClearOwnStep(s, n).monitors && SameSignals(s.monitors[m], ClearOwnStep(s, n).monitors[m])
  {
  }

  lemma OtherFailSignalsNothing(s: Sys, n: nat, m: nat)
    requires n in s.monitors && m in s.monitors && n != m
    ensures m in FailOwnStep(s, n).monitors && SameSignals(s.monitors[m], FailOwnStep(s, n).monitors[m])
  {
  }

  // ---------- what an answer leads to ----------

  /** Step `j` is the monitor's first own step after step `k`. */
  predicate NextOwn(acts: seq<Action>, m: nat, k: nat, j: nat) {
    && k < j < |acts| && acts[j].MonitorStep? && acts[j].session == m
    && forall i :: k < i < j ==> !(acts[i].MonitorStep? && acts[i].session == m)
  }

  /** Between its own steps a monitor stands still. */
  lemma {:induction false} StandsStill(states: seq<Sys>, acts: seq<Action>, m: nat, k: nat, j: nat)
    requires IsRun(states, acts) && k < j <= |acts| && m in states[k + 1].monitors
    requires forall i :: k < i < j ==> !(acts[i].MonitorStep? && acts[i].session == m)
    ensures m in states[j].monitors
    ensures states[j].monitors[m].pc == states[k + 1].monitors[m].pc
    ensures states[j].monitors[m].failures == states[k + 1].monitors[m].failures
    decreases j
  {
    if j > k + 1 {
      StandsStill(states, acts, m, k, j - 1);
      OtherStepInRun(states, acts, m, j - 1);
    }
  }

  lemma OtherStepInRun(states: seq<Sys>, acts: seq<Action>, m: nat, i: nat)
    requires IsRun(states, acts) && i < |acts| && m in states[i].monitors
    requires !(acts[i].MonitorStep? && acts[i].session == m)
    ensures m in states[i + 1].monitors && states[i + 1].monitors[m].pc == states[i].monitors[m].pc
    ensures states[i + 1].monitors[m].failures == states[i].monitors[m].failures
  {
    ReachableInv(states, acts, i);
    assert StepAt(states, acts, i);
    OtherStepUntouched(states[i], acts[i], m);
    OthersSignalNothing(states[i], acts[i], m);
  }

  /** What the monitor's next step after a poll does to the state and to its count of failure signals. */
  predicate Reported(poll: PollOutcome, before: Sys, after: Sys, m: nat)
    requires m in before.monitors && m in after.monitors
  {
    var signals := after.monitors[m].failures - before.monitors[m].failures;
    match poll
    case Connected => after.svc.state == Started && signals == 0
    case Connecting => after.svc.state == Starting && signals == 0
    case Disconnected => after.svc.state == Stopped && signals == 0
    case Failed => after.svc == before.svc && signals == 1
    case UnknownStatus => after.svc == before.svc && signals == 0
    case PollError => signals == 0
  }

  /** A poll's answer is reported by the monitor's next step, whatever happens in between. */
  lemma {:induction false} AnswerIsReported(states: seq<Sys>, acts: seq<Action>, m: nat, k: nat, j: nat)
    requires IsRun(states, acts) && NextOwn(acts, m, k, j) && IsPollOf(states[k], acts[k], m)
    ensures m in states[j].monitors && m in states[j + 1].monitors
    ensures Reported(acts[k].poll, states[j], states[j + 1], m)
  {
    assert StepAt(states, acts, k);
    var round := PollStarts(states[k], m, acts[k].poll);
    StandsStill(states, acts, m, k, j);
    assert StepAt(states, acts, j);
    ReportStep(states[j], m, acts[j].poll, states[k].monitors[m], acts[k].poll, round);
  }

  lemma ReportStep(s: Sys, m: nat, next: PollOutcome, mon: Monitor, poll: PollOutcome, round: Round)
    requires m in s.monitors && LeadsTo(mon, poll, round) && Within(round, m, [], s.monitors[m].pc)
    ensures m in StepMonitor(s, m, next).monitors
    ensures Reported(poll, s, StepMonitor(s, m, next), m)
  {
    match round
    case Watch(mark) => assert Plan(round, m)[0] == if mark.Some? then Mark(mark.value) else Wait;
    case Retire(signalled, took) => assert Plan(round, m)[0] == if signalled then EmitDaemonFailure else MarkDown;
    case GiveUp(passed) => assert Plan(round, m)[0] == CheckThreshold;
    case Quit =>
  }

  /** After a failure report, one signal and then Stopped: the second of the monitor's next two steps writes it. */
  lemma {:induction false} FailureIsMarkedDown(states: seq<Sys>, acts: seq<Action>, m: nat, k: nat, j: nat, i: nat)
    requires IsRun(states, acts) && NextOwn(acts, m, k, j) && NextOwn(acts, m, j, i)
    requires IsPollOf(states[k], acts[k], m) && acts[k].poll == Failed
    ensures states[i + 1].svc.state == Stopped
    ensures m in states[i].monitors && m in states[i + 1].monitors
    ensures states[i + 1].monitors[m].failures == states[i].monitors[m].failures
  {
    assert StepAt(states, acts, k);
    var round := PollStarts(states[k], m, Failed);
    StandsStill(states, acts, m, k, j);
    assert StepAt(states, acts, j);
    FailureLeads(states[j], m, acts[j].poll);
    StandsStill(states, acts, m, j, i);
    assert StepAt(states, acts, i);
  }

  lemma FailureLeads(s: Sys, m: nat, poll: PollOutcome)
    requires m in s.monitors && s.monitors[m].pc.EmitDaemonFailure?
    ensures m in StepMonitor(s, m, poll).monitors && StepMonitor(s, m, poll).monitors[m].pc.MarkDown?
  {
  }
}
