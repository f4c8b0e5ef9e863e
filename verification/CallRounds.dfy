/**
The course of a Disconnect call through a whole run: which steps it takes after its locked part,
in which order, and when a failure is signalled.
*/
module CallRounds {
  import opened Wrappers
  import opened Protocol
  import opened CallRuns

  /**
  Stopping, then the client's Down and its Close if there was one to take, a failure signal exactly
  if the Down was refused, and Stopped.
  */
  function Course(client: Option<nat>, refused: bool): seq<CallPc> {
    [MarkStopping]
    + (if client.None? then [] else [CallDown, CallClose] + if refused then [EmitDownFailure] else [])
    + [MarkCallStopped]
  }

  /** What an action adds to the steps that call `d` has taken. */
  function Taken(s: Sys, act: Action, d: nat): seq<CallPc> {
    if act.CallStep? && act.call == d && d < |s.calls| && !s.calls[d].pc.Returned? then [s.calls[d].pc] else []
  }

  /** The steps that call `d` has taken in the first `i` steps of a run. */
  function Trail(states: seq<Sys>, acts: seq<Action>, d: nat, i: nat): seq<CallPc>
    requires |states| == |acts| + 1 && i <= |acts|
  {
    if i == 0 then [] else Trail(states, acts, d, i - 1) + Taken(states[i - 1], acts[i - 1], d)
  }

  /** One of the first `i` steps of the run is the Down of call `d`, and the daemon refused it. */
  predicate DownRefused(states: seq<Sys>, acts: seq<Action>, d: nat, i: nat)
    requires |states| == |acts| + 1 && i <= |acts|
  {
    exists k :: 0 <= k < i && Taken(states[k], acts[k], d) == [CallDown] && acts[k].daemonError
  }

  function Next(course: seq<CallPc>, n: nat): CallPc {
    if n < |course| then course[n] else Returned
  }

  /** The call has taken the first `n` steps of its course. */
  predicate Follows(call: Call, trail: seq<CallPc>, refused: bool, n: nat) {
    var course := Course(call.client, refused);
    && n <= |course| && trail == course[..n] && call.pc == Next(course, n)
    && call.downFailed == refused && (refused ==> call.client.Some? && n >= 2)
  }

  lemma OneStep(s: Sys, d: nat, daemonError: bool, trail: seq<CallPc>, refused: bool, n: nat) returns (m: nat)
    requires d < |s.calls| && Follows(s.calls[d], trail, refused, n)
    ensures var t := StepCall(s, d, daemonError);
            && d < |t.calls| && t.calls[d].client == s.calls[d].client
            && Follows(t.calls[d], trail + Taken(s, CallStep(d, daemonError), d),
                 refused || (s.calls[d].pc.CallDown? && daemonError), m)
  {
    var course := Course(s.calls[d].client, refused);
    m := if n < |course| then n + 1 else n;
    assert n < |course| ==> course[..n + 1] == course[..n] + [course[n]];
    if s.calls[d].pc.CallDown? {
      assert n == 1;
      var later := Course(s.calls[d].client, daemonError);
      assert later[..2] == [MarkStopping, CallDown] && course[..1] == [MarkStopping];
    }
  }

  lemma OthersStayPut(s: Sys, act: Action, d: nat)
    requires Enabled(s, act) && d < |s.calls| && !(act.CallStep? && act.call == d)
    ensures d < |Apply(s, act).calls| && Apply(s, act).calls[d] == s.calls[d]
  {
    match act
    case AttemptStep(a, o) => AttemptKeepsCalls(s, a, o);
    case MonitorStep(m, poll) => MonitorKeepsCalls(s, m, poll);
    case _ =>
  }

  /** A call is made by a Disconnect and takes the client that is installed then. */
  lemma NewCalls(s: Sys, act: Action)
    requires Enabled(s, act)
    ensures |Apply(s, act).calls| == |s.calls| + if act.DisconnectCall? then 1 else 0
    ensures act.DisconnectCall? ==> Apply(s, act).calls[|s.calls|] == Call(MarkStopping, s.svc.client, false)
  {
    match act
    case AttemptStep(a, o) => AttemptKeepsCalls(s, a, o);
    case MonitorStep(m, poll) => MonitorKeepsCalls(s, m, poll);
    case _ =>
  }

  lemma {:induction false} NoTrailBefore(states: seq<Sys>, acts: seq<Action>, d: nat, i: nat)
    requires IsRun(states, acts) && i < |states| && d >= |states[i].calls|
    ensures Trail(states, acts, d, i) == [] && !DownRefused(states, acts, d, i)
  {
    if i > 0 {
      assert StepAt(states, acts, i - 1);
      NewCalls(states[i - 1], acts[i - 1]);
      NoTrailBefore(states, acts, d, i - 1);
    }
  }

  lemma RefusedGrows(states: seq<Sys>, acts: seq<Action>, d: nat, i: nat)
    requires |states| == |acts| + 1 && i < |acts|
    ensures DownRefused(states, acts, d, i + 1) <==>
              DownRefused(states, acts, d, i) || (Taken(states[i], acts[i], d) == [CallDown] && acts[i].daemonError)
  {
  }

  /**
  In every run, a Disconnect call has taken the first steps of its course, in order and none twice,
  and waits before the next one or has returned.
  */
  lemma {:induction false} EveryCallFollowsItsCourse(states: seq<Sys>, acts: seq<Action>, d: nat, i: nat)
    returns (n: nat)
    requires IsRun(states, acts) && i < |states| && d < |states[i].calls|
    ensures Follows(states[i].calls[d], Trail(states, acts, d, i), DownRefused(states, acts, d, i), n)
    decreases i, 0
  {
    n := 0;
    if i > 0 {
      n := OneMore(states, acts, d, i - 1);
    }
  }

  lemma {:induction false} OneMore(states: seq<Sys>, acts: seq<Action>, d: nat, i: nat) returns (n: nat)
    requires IsRun(states, acts) && i < |acts| && d < |states[i + 1].calls|
    ensures Follows(states[i + 1].calls[d], Trail(states, acts, d, i + 1), DownRefused(states, acts, d, i + 1), n)
    decreases i, 1
  {
    var s, act := states[i], acts[i];
    assert StepAt(states, acts, i);
    NewCalls(s, act);
    RefusedGrows(states, acts, d, i);
    if d >= |s.calls| {
      NoTrailBefore(states, acts, d, i);
      n := 0;
    } else {
      n := EveryCallFollowsItsCourse(states, acts, d, i);
      if act.CallStep? && act.call == d {
        n := OneStep(s, d, act.daemonError, Trail(states, acts, d, i), DownRefused(states, acts, d, i), n);
      } else {
        OthersStayPut(s, act, d);
      }
    }
  }
}
