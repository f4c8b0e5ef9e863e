/** The two polling loops of the service: the session monitor and the wait for the daemon to come up. */
module StatusLoops {
  import opened Wrappers
  import opened Protocol

  datatype Reason = DaemonGone | DaemonFailed | TooManyErrors

  datatype MonitorEnd = StillRunning | StoppedAt(poll: nat, reason: Reason)

  /** The length of the run of lost polls that `polls` ends in. */
  function TrailingErrors(polls: seq<PollOutcome>): nat {
    if polls != [] && polls[|polls| - 1] == PollError then 1 + TrailingErrors(polls[..|polls| - 1]) else 0
  }

  /** Whether the last poll of `polls` is one the monitor stops at. */
  predicate StopsAfter(polls: seq<PollOutcome>) {
    polls != [] && (polls[|polls| - 1] == Disconnected || polls[|polls| - 1] == Failed
        || TrailingErrors(polls) >= THRESHOLD)
  }

  /** A run is three lost polls long exactly when the last three polls were lost. */
  lemma {:induction false} TrailingErrorsMeaning(polls: seq<PollOutcome>, n: nat)
    ensures TrailingErrors(polls) >= n <==> n <= |polls| && forall i :: |polls| - n <= i < |polls| ==>
        polls[i] == PollError
  {
    var last := |polls| - 1;
    if polls != [] && n > 0 {
      TrailingErrorsMeaning(polls[..last], n - 1);
      if polls[last] == PollError && TrailingErrors(polls) >= n {
        forall i | |polls| - n <= i < |polls| ensures polls[i] == PollError {
          assert i < last ==> polls[..last][i] == PollError;
        }
      }
    }
  }

  function NextConsecutiveFailures(current: nat, failed: bool): nat {
    if failed then current + 1 else 0
  }

  /**
  The monitor loop while its context is live: it stops at the first poll that reports the
  daemon gone or failed or completes a run of three lost polls, and at no other.
  */
  method MonitorLoop(polls: seq<PollOutcome>) returns (end: MonitorEnd)
    ensures end.StillRunning? <==> forall i :: 0 < i <= |polls| ==> !StopsAfter(polls[..i])
    ensures end.StoppedAt? ==>
              && end.poll < |polls|
              && StopsAfter(polls[..end.poll + 1])
              && (forall i :: 0 < i <= end.poll ==> !StopsAfter(polls[..i]))
              && (end.reason.DaemonGone? <==> polls[end.poll] == Disconnected)
              && (end.reason.DaemonFailed? <==> polls[end.poll] == Failed)
              && (end.reason.TooManyErrors? ==> TrailingErrors(polls[..end.poll + 1]) == THRESHOLD)
  {
    var consecutive := 0;
    var n := 0;
    while n < |polls|
      invariant n <= |polls| && consecutive == TrailingErrors(polls[..n]) && consecutive < THRESHOLD
      invariant forall i :: 0 < i <= n ==> !StopsAfter(polls[..i])
    {
      assert polls[..n + 1][..n] == polls[..n];
      if polls[n] == Disconnected {
        return StoppedAt(n, DaemonGone);
      }
      if polls[n] == Failed {
        return StoppedAt(n, DaemonFailed);
      }
      consecutive := NextConsecutiveFailures(consecutive, polls[n] == PollError);
      if polls[n] == PollError && consecutive >= THRESHOLD {
        return StoppedAt(n, TooManyErrors);
      }
      n := n + 1;
    }
    end := StillRunning;
  }

  // ---------- waiting for the daemon ----------

  /** One status call, and whether the context was done by the time the loop looked at it. */
  datatype ReadyPoll = ReadyPoll(outcome: PollOutcome, error: string, message: string, done: bool)

  datatype ReadyResult = Ready | Refused(message: string) | TimedOut(lastError: Option<string>, lastMessage: string)

  predicate Decides(p: ReadyPoll) {
    p.outcome == Connected || p.outcome == Failed || p.done
  }

  /** The most recent error among `polls`, which a later answer does not erase. */
  function LastError(polls: seq<ReadyPoll>): Option<string> {
    if polls == [] then None
    else if polls[|polls| - 1].outcome == PollError then Some(polls[|polls| - 1].error)
    else LastError(polls[..|polls| - 1])
  }

  function LastMessage(polls: seq<ReadyPoll>): string {
    if polls == [] then ""
    else if polls[|polls| - 1].outcome == PollError then LastMessage(polls[..|polls| - 1])
    else polls[|polls| - 1].message
  }

  /** The error of one poll, after which no poll was lost. */
  predicate ErrorAt(polls: seq<ReadyPoll>, k: nat, error: string) {
    && k < |polls| && polls[k].outcome == PollError && polls[k].error == error
    && forall i :: k < i < |polls| ==> polls[i].outcome != PollError
  }

  /** The message of one poll, after which every poll was lost. */
  predicate MessageAt(polls: seq<ReadyPoll>, k: nat, message: string) {
    && k < |polls| && polls[k].outcome != PollError && polls[k].message == message
    && forall i :: k < i < |polls| ==> polls[i].outcome == PollError
  }

  lemma {:induction false} LastErrorMeaning(polls: seq<ReadyPoll>, error: string)
    ensures LastError(polls) == None <==> forall i :: 0 <= i < |polls| ==> polls[i].outcome != PollError
    ensures LastError(polls) == Some(error) <==> exists k :: ErrorAt(polls, k, error)
  {
    if polls != [] {
      var last := |polls| - 1;
      var before := polls[..last];
      LastErrorMeaning(before, error);
      if polls[last].outcome == PollError {
        assert ErrorAt(polls, last, polls[last].error);
      } else {
        assert forall i :: 0 <= i < last ==> before[i] == polls[i];
        assert forall k: nat :: ErrorAt(polls, k, error) <==> ErrorAt(before, k, error);
      }
    }
  }

  lemma {:induction false} LastMessageMeaning(polls: seq<ReadyPoll>)
    ensures if forall i :: 0 <= i < |polls| ==> polls[i].outcome == PollError then LastMessage(polls) == ""
            else exists k :: MessageAt(polls, k, LastMessage(polls))
  {
    if polls != [] {
      var last := |polls| - 1;
      var before := polls[..last];
      if polls[last].outcome == PollError {
        LastMessageMeaning(before);
        assert forall i :: 0 <= i < last ==> before[i] == polls[i];
        if k: nat :| MessageAt(before, k, LastMessage(before)) {
          assert MessageAt(polls, k, LastMessage(polls));
        }
      } else {
        assert polls[last].outcome != PollError;
        assert MessageAt(polls, last, LastMessage(polls));
      }
    }
  }

  predicate FirstDecider(polls: seq<ReadyPoll>, n: nat) {
    n < |polls| && Decides(polls[n]) && forall i :: 0 <= i < n ==> !Decides(polls[i])
  }

  /** An answer counts even when the deadline has passed meanwhile; only without one is the wait over in vain. */
  function Verdict(polls: seq<ReadyPoll>, n: nat): ReadyResult
    requires n < |polls|
  {
    match polls[n].outcome
    case Connected => Ready
    case Failed => Refused(polls[n].message)
    case _ => TimedOut(LastError(polls[..n + 1]), LastMessage(polls[..n + 1]))
  }

  /**
  The first deciding poll settles the wait: an answer before the deadline, and the deadline with
  what was last seen.
  */
  method WaitForReady(polls: seq<ReadyPoll>) returns (result: Option<ReadyResult>)
    ensures result.None? <==> forall i :: 0 <= i < |polls| ==> !Decides(polls[i])
    ensures result.Some? ==> exists n :: FirstDecider(polls, n) && result.value == Verdict(polls, n)
  {
    var lastError: Option<string> := None;
    var lastMessage := "";
    for n := 0 to |polls|
      invariant forall i :: 0 <= i < n ==> !Decides(polls[i])
      invariant lastError == LastError(polls[..n]) && lastMessage == LastMessage(polls[..n])
    {
      assert polls[..n + 1][..n] == polls[..n];
      if polls[n].outcome == PollError {
        lastError := Some(polls[n].error);
      } else {
        lastMessage := polls[n].message;
        if polls[n].outcome == Connected {
          assert FirstDecider(polls, n);
          return Some(Ready);
        }
        if polls[n].outcome == Failed {
          assert FirstDecider(polls, n);
          return Some(Refused(polls[n].message));
        }
      }
      if polls[n].done {
        assert FirstDecider(polls, n);
        return Some(TimedOut(lastError, lastMessage));
      }
    }
    result := None;
  }
}
