/**
When a Disconnect call brings the engine down. It does so outside the mutex, and the daemon has
one engine only, so the Down of an earlier call can hit a later session.
*/
module CallRuns {
  import opened Wrappers
  import opened ServiceRegions
  import opened Protocol
  import opened Invariant
  import opened Effects

  // ---------- a Down is owed from the call on ----------

  /** The call has taken a client and has not brought it down yet. */
  predicate Owes(call: Call) {
    call.client.Some? && (call.pc.MarkStopping? || call.pc.CallDown?)
  }

  /** A call is changed by its own steps only, and by those it does not take on a new Down. */
  ghost predicate CallsGoOn(s: Sys, t: Sys) {
    && |s.calls| <= |t.calls|
    && forall d :: 0 <= d < |s.calls| && Owes(t.calls[d]) ==> Owes(s.calls[d])
  }

  lemma StepCallsGoOn(s: Sys, act: Action)
    requires Enabled(s, act)
    ensures CallsGoOn(s, Apply(s, act))
  {
    match act
    case ConnectCall(interactive) =>
    case DisconnectCall =>
    case SetFailureCall =>
    case NewSecretsCall(secrets) =>
    case AttemptStep(a, o) => AttemptKeepsCalls(s, a, o);
    case CallStep(d, daemonError) => CallGoesOn(s, d, daemonError);
    case MonitorStep(m, poll) => MonitorKeepsCalls(s, m, poll);
  }

  lemma AttemptKeepsCalls(s: Sys, a: nat, o: Outcome)
    requires Enabled(s, AttemptStep(a, o))
    ensures StepAttempt(s, a, o).calls == s.calls
  {
  }

  lemma MonitorKeepsCalls(s: Sys, m: nat, poll: PollOutcome)
    requires m in s.monitors
    ensures StepMonitor(s, m, poll).calls == s.calls
  {
  }

  lemma CallGoesOn(s: Sys, d: nat, daemonError: bool)
    requires d < |s.calls|
    ensures CallsGoOn(s, StepCall(s, d, daemonError))
  {
  }

  lemma RunCallsGoOn(states: seq<Sys>, acts: seq<Action>, k: nat)
    requires IsRun(states, acts) && k < |acts|
    ensures CallsGoOn(states[k], states[k + 1])
  {
    assert StepAt(states, acts, k);
    StepCallsGoOn(states[k], acts[k]);
  }

  /** A call that owes a Down owed it at every earlier point at which it was under way. */
  lemma {:induction false} OwedBefore(states: seq<Sys>, acts: seq<Action>, k: nat, j: nat, d: nat)
    requires IsRun(states, acts) && k <= j < |states| && d < |states[k].calls|
    ensures d < |states[j].calls| && (Owes(states[j].calls[d]) ==> Owes(states[k].calls[d]))
    decreases j
  {
    if k < j {
      OwedBefore(states, acts, k, j - 1, d);
      RunCallsGoOn(states, acts, j - 1);
    }
  }

  /**
  A Disconnect call made before a session's attempt brought its client up can bring the engine
  down after that only if it still owed its Down at that moment.
  */
  lemma LateDownWasOwed(states: seq<Sys>, acts: seq<Action>, k: nat, j: nat, d: nat, c: nat)
    requires IsRun(states, acts) && k < j < |acts| && d < |states[k].calls|
    requires acts[j].CallStep? && acts[j].call == d && BringsDown(states[j], acts[j], c)
    ensures Owes(states[k].calls[d])
  {
    OwedBefore(states, acts, k, j, d);
  }

  // ---------- it happens ----------

  ghost predicate Playable(s: Sys, acts: seq<Action>)
    decreases |acts|
  {
    acts == [] || (Enabled(s, acts[0]) && Playable(Apply(s, acts[0]), acts[1..]))
  }

  ghost function Play(s: Sys, acts: seq<Action>): seq<Sys>
    requires Playable(s, acts)
    ensures |Play(s, acts)| == |acts| + 1 && Play(s, acts)[0] == s
    decreases |acts|
  {
    if acts == [] then [s] else [s] + Play(Apply(s, acts[0]), acts[1..])
  }

  ghost function End(s: Sys, acts: seq<Action>): Sys
    requires Playable(s, acts)
  {
    Play(s, acts)[|acts|]
  }

  lemma {:induction false} PlayIsRun(acts: seq<Action>)
    requires Playable(INITIAL_SYS, acts)
    ensures IsRun(Play(INITIAL_SYS, acts), acts)
  {
    forall i: nat | i < |acts| ensures StepAt(Play(INITIAL_SYS, acts), acts, i) {
      PlaySteps(INITIAL_SYS, acts, i);
    }
  }

  lemma {:induction false} PlaySteps(s: Sys, acts: seq<Action>, i: nat)
    requires Playable(s, acts) && i < |acts|
    ensures StepAt(Play(s, acts), acts, i)
    decreases i
  {
    if i > 0 {
      PlaySteps(Apply(s, acts[0]), acts[1..], i - 1);
    }
  }

  lemma {:induction false} PlayAppend(s: Sys, a: seq<Action>, b: seq<Action>)
    requires Playable(s, a) && Playable(End(s, a), b)
    ensures Playable(s, a + b) && End(s, a + b) == End(End(s, a), b)
    decreases |a|
  {
    if a == [] {
      assert a + b == b;
    } else {
      assert (a + b)[0] == a[0] && (a + b)[1..] == a[1..] + b;
      PlayAppend(Apply(s, a[0]), a[1..], b);
    }
  }

  lemma PlayOne(s: Sys, act: Action)
    requires Enabled(s, act)
    ensures Playable(s, [act]) && End(s, [act]) == Apply(s, act)
  {
    assert [act][1..] == [];
  }

  /** How far a smooth, non-interactive attempt has climbed. */
  function Height(pc: AttemptPc): nat {
    match pc
    case MarkStarting => 0
    case Parse => 1
    case Dial => 2
    case Prepare => 3
    case CheckKey => 4
    case Login => 5
    case Update => 6
    case Resolve => 7
    case Up => 8
    case WaitReady => 9
    case EmitConfig => 10
    case Complete => 11
    case _ => 12
  }

  /** Since `s`, nothing but the attempt and the state, and the one client it dials, has changed. */
  predicate Climbing(s: Sys, t: Sys, a: nat) {
    && a in t.attempts && !t.attempts[a].interactive && !t.attempts[a].cancelled
    && t.svc == s.svc.(state := t.svc.state) && t.calls == s.calls
    && (if Height(t.attempts[a].pc) <= 2 then
          t.clients == s.clients
        else
          |t.clients| == |s.clients| + 1 && t.attempts[a].client == Some(|s.clients|))
  }

  lemma ClimbOne(s: Sys, t: Sys, a: nat)
    requires Climbing(s, t, a) && Height(t.attempts[a].pc) < 11
    ensures Enabled(t, AttemptStep(a, Success))
    ensures var u := Apply(t, AttemptStep(a, Success));
            Climbing(s, u, a) && Height(u.attempts[a].pc) == Height(t.attempts[a].pc) + 1
  {
  }

  function Repeat(a: nat, n: nat): seq<Action> {
    seq(n, i => AttemptStep(a, Success))
  }

  lemma {:induction false} ClimbAll(s: Sys, t: Sys, a: nat, n: nat)
    requires Climbing(s, t, a) && Height(t.attempts[a].pc) + n == 11
    ensures Playable(t, Repeat(a, n))
    ensures Climbing(s, End(t, Repeat(a, n)), a) && End(t, Repeat(a, n)).attempts[a].pc.Complete?
    decreases n
  {
    if n > 0 {
      ClimbOne(s, t, a);
      var u := Apply(t, AttemptStep(a, Success));
      ClimbAll(s, u, a, n - 1);
      assert Repeat(a, n)[0] == AttemptStep(a, Success) && Repeat(a, n)[1..] == Repeat(a, n - 1);
    }
  }

  /** An attempt that has just been reserved and meets no obstacle installs the next client. */
  predicate Fresh(s: Sys, a: nat) {
    && a in s.attempts && s.attempts[a] == Attempt(MarkStarting, false, false, None, false, None, None)
    && s.svc.activating
  }

  function Flight(a: nat): seq<Action> {
    Repeat(a, 11) + [AttemptStep(a, Success)]
  }

  /** What a smooth flight from `s` ends in. */
  predicate Landed(s: Sys, t: Sys) {
    && t.svc.client == Some(|s.clients|) && !t.svc.activating && |t.clients| == |s.clients| + 1
    && t.calls == s.calls
  }

  lemma FlightInstalls(s: Sys, a: nat)
    requires Fresh(s, a)
    ensures Playable(s, Flight(a)) && Landed(s, End(s, Flight(a)))
  {
    ClimbAll(s, s, a, 11);
    TopInstalls(s, End(s, Repeat(a, 11)), a);
    PlayOne(End(s, Repeat(a, 11)), AttemptStep(a, Success));
    PlayAppend(s, Repeat(a, 11), [AttemptStep(a, Success)]);
  }

  lemma TopInstalls(s: Sys, top: Sys, a: nat)
    requires Climbing(s, top, a) && top.attempts[a].pc.Complete? && s.svc.activating
    ensures Enabled(top, AttemptStep(a, Success)) && Landed(s, Apply(top, AttemptStep(a, Success)))
  {
    assert Apply(top, AttemptStep(a, Success)) == CompleteStep(top, a);
  }

  /** A second attempt is reserved, and what was there stays. */
  lemma ConnectsFresh(s: Sys)
    requires !s.svc.activating && s.svc.client.None?
    ensures var t := Apply(s, ConnectCall(false));
            Fresh(t, s.svc.activationID + 1) && t.calls == s.calls && t.clients == s.clients
  {
  }

  function Connection(id: nat): seq<Action> {
    [ConnectCall(false)] + Flight(id)
  }

  lemma ConnectionInstalls(s: Sys)
    requires !s.svc.activating && s.svc.client.None?
    ensures var acts := Connection(s.svc.activationID + 1); Playable(s, acts) && Landed(s, End(s, acts))
  {
    var t, id := Apply(s, ConnectCall(false)), s.svc.activationID + 1;
    ConnectsFresh(s);
    PlayOne(s, ConnectCall(false));
    FlightInstalls(t, id);
    PlayAppend(s, [ConnectCall(false)], Flight(id));
  }

  /** The first call, when it still owes its Down, and the second session is not there yet. */
  predicate Lingers(s: Sys) {
    && s.calls == [Call(MarkStopping, Some(0), false)] && |s.clients| == 1
    && !s.svc.activating && s.svc.client.None?
  }

  lemma DisconnectLingers(s: Sys, t: Sys)
    requires Landed(INITIAL_SYS, s) && t == Apply(s, DisconnectCall)
    ensures Lingers(t)
  {
  }

  lemma EarlyLingers()
    ensures var acts := Connection(1) + [DisconnectCall]; Playable(INITIAL_SYS, acts) && Lingers(End(INITIAL_SYS, acts))
  {
    ConnectionInstalls(INITIAL_SYS);
    var up := End(INITIAL_SYS, Connection(1));
    PlayOne(up, DisconnectCall);
    PlayAppend(INITIAL_SYS, Connection(1), [DisconnectCall]);
    DisconnectLingers(up, Apply(up, DisconnectCall));
  }

  /** The second session is up, and the first call is about to bring the engine down. */
  predicate AboutToHit(s: Sys) {
    s.svc.client == Some(1) && s.calls == [Call(CallDown, Some(0), false)]
  }

  lemma MarkHits(s: Sys, t: Sys)
    requires Lingers(s) && Landed(s, t)
    ensures Enabled(t, CallStep(0, false)) && AboutToHit(Apply(t, CallStep(0, false)))
  {
  }

  lemma LateHits(s: Sys)
    requires Lingers(s)
    ensures var acts := Connection(s.svc.activationID + 1) + [CallStep(0, false)];
            Playable(s, acts) && AboutToHit(End(s, acts))
  {
    ConnectionInstalls(s);
    var id := s.svc.activationID + 1;
    var up := End(s, Connection(id));
    MarkHits(s, up);
    PlayOne(up, CallStep(0, false));
    PlayAppend(s, Connection(id), [CallStep(0, false)]);
  }

  lemma HitIsEnabled(s: Sys)
    requires AboutToHit(s)
    ensures Enabled(s, CallStep(0, false)) && BringsDown(s, CallStep(0, false), 0)
  {
  }

  /** At step `i` a Disconnect call has just been made; at the last step it brings a later session's engine down. */
  ghost predicate HitsLater(states: seq<Sys>, acts: seq<Action>, i: nat) {
    && |states| == |acts| + 1 && i < |acts| - 1
    && Lingers(states[i])
    && AboutToHit(states[|acts| - 1]) && acts[|acts| - 1] == CallStep(0, false)
    && BringsDown(states[|acts| - 1], acts[|acts| - 1], 0)
  }

  /**
  There is a run in which a Disconnect call, made when the second client was not even dialed,
  brings the engine down while that client is the installed session's.
  */
  lemma LateDownHappens() returns (states: seq<Sys>, acts: seq<Action>, i: nat)
    ensures IsRun(states, acts) && HitsLater(states, acts, i)
  {
    EarlyLingers();
    var early := Connection(1) + [DisconnectCall];
    var mid := End(INITIAL_SYS, early);
    LateHits(mid);
    var late := Connection(mid.svc.activationID + 1) + [CallStep(0, false)];
    i := |early|;
    states, acts := LateRun(early, late);
  }

  lemma LateRun(early: seq<Action>, late: seq<Action>) returns (states: seq<Sys>, acts: seq<Action>)
    requires Playable(INITIAL_SYS, early) && Lingers(End(INITIAL_SYS, early)) && late != []
    requires Playable(End(INITIAL_SYS, early), late) && AboutToHit(End(End(INITIAL_SYS, early), late))
    ensures IsRun(states, acts) && HitsLater(states, acts, |early|)
  {
    var hit := CallStep(0, false);
    HitIsEnabled(End(End(INITIAL_SYS, early), late));
    PlayOne(End(End(INITIAL_SYS, early), late), hit);
    PlayAppend(INITIAL_SYS, early, late);
    PlayAppend(INITIAL_SYS, early + late, [hit]);
    acts := early + late + [hit];
    states := Play(INITIAL_SYS, acts);
    PlayIsRun(acts);
    PlayMiddle(INITIAL_SYS, early + late, [hit]);
    Regrouped(early, late, [hit]);
    PlayMiddle(INITIAL_SYS, early, late + [hit]);
  }

  lemma Regrouped(a: seq<Action>, b: seq<Action>, c: seq<Action>)
    ensures a + b + c == a + (b + c)
  {
  }

  lemma {:induction false} PlayMiddle(s: Sys, a: seq<Action>, b: seq<Action>)
    requires Playable(s, a) && Playable(s, a + b)
    ensures Play(s, a + b)[|a|] == End(s, a)
    decreases |a|
  {
    if a != [] {
      assert (a + b)[0] == a[0] && (a + b)[1..] == a[1..] + b;
      PlayMiddle(Apply(s, a[0]), a[1..], b);
    }
  }
}
