/** In every run of the whole system, a session's monitor goroutine does what the monitor loop does. */
module MonitorRuns {
  import opened Wrappers
  import opened ServiceRegions
  import opened Protocol
  import opened Invariant
  import opened StatusLoops

  predicate IsPollOf(s: Sys, act: Action, m: nat) {
    act.MonitorStep? && act.session == m && m in s.monitors && s.monitors[m].pc.Poll?
  }

  /** What the action adds to the answers that the monitor of session `m` has polled. */
  function Polled(s: Sys, act: Action, m: nat): seq<PollOutcome> {
    if IsPollOf(s, act, m) then [act.poll] else []
  }

  /** The answers that the monitor of session `m` has polled in the first `i` steps of a run. */
  function PollsOf(states: seq<Sys>, acts: seq<Action>, m: nat, i: nat): seq<PollOutcome>
    requires |states| == |acts| + 1 && i <= |acts|
  {
    if i == 0 then [] else PollsOf(states, acts, m, i - 1) + Polled(states[i - 1], acts[i - 1], m)
  }

  /** The monitor has not seen a reason to stop. */
  predicate Watching(pc: MonitorPc) {
    pc.Check? || pc.Poll? || pc.Mark? || pc.Wait?
  }

  /** The monitor has counted a run of lost polls that is long enough. */
  predicate OverThreshold(pc: MonitorPc) {
    pc.CheckThreshold? || pc.FailOwn?
  }

  predicate Follows(mon: Monitor, polls: seq<PollOutcome>) {
    && (Watching(mon.pc) || OverThreshold(mon.pc) ==> mon.errors == TrailingErrors(polls))
    && (Watching(mon.pc) ==> !StopsAfter(polls))
    && (!Watching(mon.pc) && !mon.pc.Exited? ==> StopsAfter(polls))
    && (forall k :: 0 <= k < |polls| ==> !StopsAfter(polls[..k]))
  }

  predicate FollowsIn(s: Sys, m: nat, polls: seq<PollOutcome>) {
    if m in s.monitors then Follows(s.monitors[m], polls) else polls == []
  }

  // ---------- the monitor's own steps ----------

  /** One more answer: the monitor stops at it exactly if the loop does. */
  lemma {:induction false} PollFollows(s: Sys, m: nat, polls: seq<PollOutcome>, poll: PollOutcome)
    requires m in s.monitors && s.monitors[m].pc.Poll? && Follows(s.monitors[m], polls)
    ensures m in PollStep(s, m, poll).monitors && Follows(PollStep(s, m, poll).monitors[m], polls + [poll])
  {
    var more := polls + [poll];
    assert more[..|polls|] == polls;
    forall k | 0 <= k < |more| ensures !StopsAfter(more[..k]) {
      assert more[..k] == polls[..k];
      assert polls[..|polls|] == polls;
    }
  }

  lemma {:induction false} OwnStepFollows(s: Sys, m: nat, polls: seq<PollOutcome>, poll: PollOutcome)
    requires m in s.monitors && !s.monitors[m].pc.Poll? && Follows(s.monitors[m], polls)
    ensures m in StepMonitor(s, m, poll).monitors && Follows(StepMonitor(s, m, poll).monitors[m], polls)
  {
    OwnStepMoves(s, m, poll);
  }

  /** Outside a poll, the monitor goes on watching, goes on stopping, or ends, and its counter stays. */
  lemma OwnStepMoves(s: Sys, m: nat, poll: PollOutcome)
    requires m in s.monitors && !s.monitors[m].pc.Poll?
    ensures m in StepMonitor(s, m, poll).monitors
    ensures var before, after := s.monitors[m], StepMonitor(s, m, poll).monitors[m];
            && after.errors == before.errors
            && (after.pc.Exited? || (Watching(after.pc) <==> Watching(before.pc)))
            && (OverThreshold(after.pc) ==> OverThreshold(before.pc))
            && (before.pc.Exited? ==> after.pc.Exited?)
  {
    match s.monitors[m].pc
    case ClearOwn => ClearMoves(s, m);
    case FailOwn => FailMoves(s, m);
    case _ =>
  }

  lemma ClearMoves(s: Sys, m: nat)
    requires m in s.monitors
    ensures m in ClearOwnStep(s, m).monitors
    ensures var after := ClearOwnStep(s, m).monitors[m];
            after.errors == s.monitors[m].errors && (after.pc.CloseTaken? || after.pc.Exited?)
  {
  }

  lemma FailMoves(s: Sys, m: nat)
    requires m in s.monitors
    ensures m in FailOwnStep(s, m).monitors
    ensures var after := FailOwnStep(s, m).monitors[m];
            after.errors == s.monitors[m].errors && (after.pc.CancelTaken? || after.pc.Exited?)
  {
  }

  // ---------- everyone else's steps ----------

  /** The monitor of session `m` stands where it stood, or has just been started. */
  predicate Untouched(s: Sys, t: Sys, m: nat) {
    if m in s.monitors then
      m in t.monitors && t.monitors[m].pc == s.monitors[m].pc && t.monitors[m].errors == s.monitors[m].errors
    else
      m in t.monitors ==> t.monitors[m].pc.Check? && t.monitors[m].errors == 0
  }

  lemma OtherStepUntouched(s: Sys, act: Action, m: nat)
    requires Inv(s) && Enabled(s, act) && !(act.MonitorStep? && act.session == m)
    ensures Untouched(s, Apply(s, act), m)
  {
    match act
    case ConnectCall(interactive) =>
    case DisconnectCall =>
    case SetFailureCall =>
    case NewSecretsCall(secrets) =>
    case AttemptStep(a, o) => AttemptUntouched(s, a, o, m);
    case CallStep(d, daemonError) => assert StepCall(s, d, daemonError).monitors == s.monitors;
    case MonitorStep(n, poll) => OtherMonitorUntouched(s, n, poll, m);
  }

  lemma AttemptUntouched(s: Sys, a: nat, o: Outcome, m: nat)
    requires Inv(s) && Enabled(s, AttemptStep(a, o))
    ensures Untouched(s, StepAttempt(s, a, o), m)
  {
    if IsRising(s.attempts[a].pc) {
      RisingUntouched(s, a, o, m);
    } else if !IsPlain(s.attempts[a].pc) {
      EndingUntouched(s, a, m);
    }
  }

  lemma RisingUntouched(s: Sys, a: nat, o: Outcome, m: nat)
    requires Inv(s) && a in s.attempts && IsRising(s.attempts[a].pc)
    ensures Untouched(s, RisingStep(s, a, o), m)
  {
    if s.attempts[a].pc.Complete? {
      CompleteUntouched(s, a, m);
    }
  }

  lemma CompleteUntouched(s: Sys, a: nat, m: nat)
    requires Inv(s) && a in s.attempts
    ensures Untouched(s, CompleteStep(s, a), m)
  {
    assert m in s.monitors ==> MonitorInv(s, m);
  }

  lemma EndingUntouched(s: Sys, a: nat, m: nat)
    requires a in s.attempts && !IsPlain(s.attempts[a].pc) && !IsRising(s.attempts[a].pc)
    ensures Untouched(s, EndingStep(s, a), m)
  {
    assert EndingStep(s, a).monitors == s.monitors;
  }

  lemma OtherMonitorUntouched(s: Sys, n: nat, poll: PollOutcome, m: nat)
    requires n in s.monitors && n != m
    ensures Untouched(s, StepMonitor(s, n, poll), m)
  {
    match s.monitors[n].pc
    case ClearOwn => OtherClearUntouched(s, n, m);
    case FailOwn => OtherFailUntouched(s, n, m);
    case Poll => OtherPollUntouched(s, n, poll, m);
    case _ =>
  }

  lemma OtherPollUntouched(s: Sys, n: nat, poll: PollOutcome, m: nat)
    requires n in s.monitors && n != m
    ensures Untouched(s, PollStep(s, n, poll), m)
  {
  }

  lemma OtherClearUntouched(s: Sys, n: nat, m: nat)
    requires n in s.monitors && n != m
    ensures Untouched(s, ClearOwnStep(s, n), m)
  {
  }

  lemma OtherFailUntouched(s: Sys, n: nat, m: nat)
    requires n in s.monitors && n != m
    ensures Untouched(s, FailOwnStep(s, n), m)
  {
  }

  // ---------- runs ----------

  lemma {:induction false} StepFollows(s: Sys, act: Action, m: nat, polls: seq<PollOutcome>)
    requires Inv(s) && Enabled(s, act) && FollowsIn(s, m, polls)
    ensures FollowsIn(Apply(s, act), m, polls + Polled(s, act, m))
  {
    if act.MonitorStep? && act.session == m {
      if IsPollOf(s, act, m) {
        PollFollows(s, m, polls, act.poll);
      } else {
        OwnStepFollows(s, m, polls, act.poll);
        assert polls + [] == polls;
      }
    } else {
      OtherStepUntouched(s, act, m);
      assert polls + [] == polls;
    }
  }

  /**
  In every state of every run, the counter of a monitor that still watches is the trailing run
  of lost polls among all answers its session's monitor ever polled; it has not stopped yet
  exactly if the loop would not have stopped; and none of its polls comes after a reason to stop.
  */
  lemma {:induction false} MonitorFollowsLoop(states: seq<Sys>, acts: seq<Action>, m: nat, i: nat)
    requires IsRun(states, acts) && i < |states|
    ensures FollowsIn(states[i], m, PollsOf(states, acts, m, i))
    decreases i
  {
    if i > 0 {
      MonitorFollowsLoop(states, acts, m, i - 1);
      ReachableInv(states, acts, i - 1);
      assert StepAt(states, acts, i - 1);
      StepFollows(states[i - 1], acts[i - 1], m, PollsOf(states, acts, m, i - 1));
    }
  }
}
