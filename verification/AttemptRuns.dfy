/**
The way of an activation attempt through a whole run. It takes every step of the way up, in
order, or is turned back at one of them and takes every step of the way down.
*/
module AttemptRuns {
  import opened Wrappers
  import opened Text
  import opened ServiceRegions
  import opened Protocol
  import opened Invariant
  import opened Effects
  import opened Lifecycle

  // ---------- how a step turns out ----------

  /** Forked: a setup key has to be asked for, a single sign-on has to follow, or its prompt cannot be shown. */
  datatype Verdict = Passed | Refused | Forked

  /** The prompt of attempt `a` would be accepted. */
  predicate MayPrompt(s: Sys, a: nat) {
    s.svc.activating && s.svc.activationID == a
  }

  /** A setup key has arrived and is not blank. */
  predicate HasKey(att: Attempt) {
    att.slot.Some? && TrimSpace(att.slot.value.setupKey) != ""
  }

  /** What becomes of the step that attempt `a` is about to take, if its daemon call or wait turns out as `o`. */
  function VerdictOf(s: Sys, a: nat, o: Outcome): Verdict
    requires a in s.attempts
  {
    var att := s.attempts[a];
    match att.pc
    case Parse | Dial | Prepare | WaitSso | Update | Resolve | Up | WaitReady | EmitConfig =>
      if o == Success then Passed else Refused
    case CheckKey | Login =>
      if o == Success then Passed else if o == Otherwise && att.interactive then Forked else Refused
    case WaitKey => if o == Success && HasKey(att) then Passed else Refused
    case RegisterKey => if MayPrompt(s, a) then Passed else Refused
    case RegisterSso => if MayPrompt(s, a) then Passed else Forked
    case Complete => if att.cancelled then Refused else Passed
    case _ => Passed
  }

  datatype Stop = Stop(pc: AttemptPc, verdict: Verdict)

  /** What an action adds to the steps that attempt `a` has taken. */
  function Taken(s: Sys, act: Action, a: nat): seq<Stop> {
    if act.AttemptStep? && act.attempt == a && a in s.attempts && !s.attempts[a].pc.Finished? then
      [Stop(s.attempts[a].pc, VerdictOf(s, a, act.outcome))]
    else
      []
  }

  /** The steps that attempt `a` has taken in the first `i` steps of a run. */
  function Trail(states: seq<Sys>, acts: seq<Action>, a: nat, i: nat): seq<Stop>
    requires |states| == |acts| + 1 && i <= |acts|
  {
    if i == 0 then [] else Trail(states, acts, a, i - 1) + Taken(states[i - 1], acts[i - 1], a)
  }

  // ---------- the ways up and down ----------

  datatype Sso = NoSso | Shown | Unshown

  /** Whether a setup key is asked for, and whether a single sign-on follows, with or without a prompt. */
  datatype Way = Way(prompted: bool, sso: Sso)

  function Ok(pcs: seq<AttemptPc>): seq<Stop> {
    seq(|pcs|, i requires 0 <= i < |pcs| => Stop(pcs[i], Passed))
  }

  function ToKey(): seq<Stop> {
    Ok([MarkStarting, Parse, Dial, Prepare])
  }

  function ToLogin(way: Way): seq<Stop> {
    ToKey() + if way.prompted then [Stop(CheckKey, Forked)] + Ok([RegisterKey, EmitKey, WaitKey]) else Ok([CheckKey])
  }

  function ToUpdate(way: Way): seq<Stop> {
    ToLogin(way) +
    match way.sso
    case NoSso => Ok([Login])
    case Shown => [Stop(Login, Forked)] + Ok([EmitBanner, RegisterSso, EmitSso, WaitSso])
    case Unshown => [Stop(Login, Forked)] + Ok([EmitBanner]) + [Stop(RegisterSso, Forked)] + Ok([WaitSso])
  }

  /** The whole way up. */
  function Ascent(way: Way): seq<Stop> {
    ToUpdate(way) + Ok([Update, Resolve, Up, WaitReady, EmitConfig, Complete])
  }

  /** A point on the way up, before its step is taken. */
  predicate Ascending(pc: AttemptPc) {
    (IsPlain(pc) && !pc.EmitFailure?) || IsRising(pc)
  }

  /** Whether the way passes through `pc`. */
  predicate Through(pc: AttemptPc, way: Way) {
    match pc
    case RegisterKey | EmitKey | WaitKey => way.prompted
    case EmitBanner | RegisterSso | WaitSso => way.sso != NoSso
    case EmitSso => way.sso == Shown
    case _ => true
  }

  /** The part of the way up that leads to `pc`. */
  function PathTo(pc: AttemptPc, way: Way): seq<Stop> {
    match pc
    case MarkStarting => []
    case Parse => Ok([MarkStarting])
    case Dial => Ok([MarkStarting, Parse])
    case Prepare => Ok([MarkStarting, Parse, Dial])
    case CheckKey => ToKey()
    case RegisterKey => ToKey() + [Stop(CheckKey, Forked)]
    case EmitKey => ToKey() + [Stop(CheckKey, Forked)] + Ok([RegisterKey])
    case WaitKey => ToKey() + [Stop(CheckKey, Forked)] + Ok([RegisterKey, EmitKey])
    case Login => ToLogin(way)
    case EmitBanner => ToLogin(way) + [Stop(Login, Forked)]
    case RegisterSso => ToLogin(way) + [Stop(Login, Forked)] + Ok([EmitBanner])
    case EmitSso => ToLogin(way) + [Stop(Login, Forked)] + Ok([EmitBanner, RegisterSso])
    case WaitSso =>
      ToLogin(way) + [Stop(Login, Forked)]
      + if way.sso == Shown then Ok([EmitBanner, RegisterSso, EmitSso])
        else Ok([EmitBanner]) + [Stop(RegisterSso, Forked)]
    case Update => ToUpdate(way)
    case Resolve => ToUpdate(way) + Ok([Update])
    case Up => ToUpdate(way) + Ok([Update, Resolve])
    case WaitReady => ToUpdate(way) + Ok([Update, Resolve, Up])
    case EmitConfig => ToUpdate(way) + Ok([Update, Resolve, Up, WaitReady])
    case Complete => ToUpdate(way) + Ok([Update, Resolve, Up, WaitReady, EmitConfig])
    case _ => []
  }

  lemma PathsAreOnTheAscent(pc: AttemptPc, way: Way)
    requires Ascending(pc) && Through(pc, way)
    ensures PathTo(pc, way) <= Ascent(way)
  {
  }

  predicate UpBefore(at: AttemptPc) {
    at.WaitReady? || at.EmitConfig? || at.Complete?
  }

  predicate DialBefore(at: AttemptPc) {
    !at.MarkStarting? && !at.Parse? && !at.Dial?
  }

  /**
  The way down after being turned back at `at`: the failure is signalled and the state marked,
  unless the attempt was only cancelled; its prompt goes; the engine is brought down exactly if
  it was brought up; the slot is released; and the client is closed exactly if it was dialed.
  */
  function Descent(at: AttemptPc): seq<AttemptPc> {
    (if at.Complete? then [] else [EmitFailure, MarkStopped])
    + [Clear(false)] + (if UpBefore(at) then [Down] else []) + [CancelOwn(false), Release]
    + (if DialBefore(at) then [CloseClient] else [])
  }

  function Landing(session: nat): seq<AttemptPc> {
    [MarkStarted(session), Clear(true), CancelOwn(true)]
  }

  // ---------- the story of an attempt ----------

  datatype Story =
    | Rising(way: Way)
    | Falling(way: Way, at: AttemptPc, done: nat)
    | Landed(way: Way, session: nat, done: nat)

  /** The next of `pcs`, of which `n` are done. */
  function Next(pcs: seq<AttemptPc>, n: nat): AttemptPc {
    if n < |pcs| then pcs[n] else Finished
  }

  predicate Tells(story: Story, trail: seq<Stop>, att: Attempt) {
    match story
    case Rising(way) => Ascending(att.pc) && Through(att.pc, way) && trail == PathTo(att.pc, way)
    case Falling(way, at, n) =>
      && Ascending(at) && Through(at, way) && n <= |Descent(at)|
      && trail == PathTo(at, way) + [Stop(at, Refused)] + Ok(Descent(at)[..n])
      && att.pc == Next(Descent(at), n)
      && att.daemonUp == UpBefore(at) && att.client.Some? == DialBefore(at)
    case Landed(way, session, n) =>
      && n <= |Landing(session)|
      && trail == Ascent(way) + Ok(Landing(session)[..n])
      && att.pc == Next(Landing(session), n)
  }

  // ---------- one step of an attempt ----------

  /** Where a step of the way up leads. */
  function Forth(pc: AttemptPc, v: Verdict): AttemptPc {
    match pc
    case MarkStarting => Parse
    case Parse => Dial
    case Dial => Prepare
    case Prepare => CheckKey
    case CheckKey => if v == Forked then RegisterKey else Login
    case RegisterKey => EmitKey
    case EmitKey => WaitKey
    case WaitKey => Login
    case Login => if v == Forked then EmitBanner else Update
    case EmitBanner => RegisterSso
    case RegisterSso => if v == Forked then WaitSso else EmitSso
    case EmitSso => WaitSso
    case WaitSso => Update
    case Update => Resolve
    case Resolve => Up
    case Up => WaitReady
    case WaitReady => EmitConfig
    case EmitConfig => Complete
    case _ => pc
  }

  lemma UpLeads(s: Sys, a: nat, o: Outcome)
    requires Enabled(s, AttemptStep(a, o)) && Ascending(s.attempts[a].pc) && !s.attempts[a].pc.Complete?
    requires VerdictOf(s, a, o) != Refused
    ensures a in StepAttempt(s, a, o).attempts
    ensures StepAttempt(s, a, o).attempts[a].pc == Forth(s.attempts[a].pc, VerdictOf(s, a, o))
  {
    if IsPlain(s.attempts[a].pc) {
      PlainLeads(s, a, o);
    } else {
      RisingLeads(s, a, o);
    }
  }

  lemma PlainLeads(s: Sys, a: nat, o: Outcome)
    requires a in s.attempts && IsPlain(s.attempts[a].pc)
    ensures var pc, next := s.attempts[a].pc, NextPc(s.attempts[a].pc, s.attempts[a].interactive, o);
            next == if pc.EmitFailure? then MarkStopped
                    else if VerdictOf(s, a, o) == Refused then EmitFailure
                    else Forth(pc, VerdictOf(s, a, o))
  {
    var pc := s.attempts[a].pc;
    if pc.CheckKey? || pc.Login? {
    } else if pc.Parse? || pc.Prepare? || pc.WaitSso? || pc.Update? {
    } else if pc.Resolve? || pc.WaitReady? || pc.EmitConfig? {
    } else {
      assert pc.EmitFailure? || pc.EmitKey? || pc.EmitBanner? || pc.EmitSso?;
    }
  }

  lemma RisingLeads(s: Sys, a: nat, o: Outcome)
    requires Enabled(s, AttemptStep(a, o)) && IsRising(s.attempts[a].pc) && !s.attempts[a].pc.Complete?
    requires VerdictOf(s, a, o) != Refused
    ensures a in RisingStep(s, a, o).attempts
    ensures RisingStep(s, a, o).attempts[a].pc == Forth(s.attempts[a].pc, VerdictOf(s, a, o))
  {
  }

  /** A refused step turns the attempt back at once, and does nothing to what it has. */
  lemma RefusalLeads(s: Sys, a: nat, o: Outcome)
    requires Enabled(s, AttemptStep(a, o)) && Ascending(s.attempts[a].pc) && VerdictOf(s, a, o) == Refused
    ensures a in StepAttempt(s, a, o).attempts
    ensures var before, after := s.attempts[a], StepAttempt(s, a, o).attempts[a];
            && after.pc == (if before.pc.Complete? then Clear(false) else EmitFailure)
            && after.daemonUp == before.daemonUp && after.client == before.client
  {
    if IsPlain(s.attempts[a].pc) {
      PlainLeads(s, a, o);
    } else {
      RisingRefused(s, a, o);
    }
  }

  lemma RisingRefused(s: Sys, a: nat, o: Outcome)
    requires Enabled(s, AttemptStep(a, o)) && IsRising(s.attempts[a].pc) && VerdictOf(s, a, o) == Refused
    ensures a in RisingStep(s, a, o).attempts
    ensures var before, after := s.attempts[a], RisingStep(s, a, o).attempts[a];
            && after.pc == (if before.pc.Complete? then Clear(false) else EmitFailure)
            && after.daemonUp == before.daemonUp && after.client == before.client
  {
  }

  lemma CompletionLeads(s: Sys, a: nat, o: Outcome)
    requires Inv(s) && Enabled(s, AttemptStep(a, o)) && s.attempts[a].pc.Complete? && !s.attempts[a].cancelled
    ensures Installs(s, AttemptStep(a, o))
    ensures var t := StepAttempt(s, a, o);
            a in t.attempts && t.attempts[a].pc == MarkStarted(s.svc.sessionID + 1)
  {
    assert AttemptInv(s, a);
  }

  lemma DescentLeads(s: Sys, a: nat, o: Outcome, at: AttemptPc, n: nat)
    requires a in s.attempts && n < |Descent(at)| && s.attempts[a].pc == Descent(at)[n]
    requires s.attempts[a].daemonUp == UpBefore(at) && s.attempts[a].client.Some? == DialBefore(at)
    ensures a in StepAttempt(s, a, o).attempts
    ensures var before, after := s.attempts[a], StepAttempt(s, a, o).attempts[a];
            && after.pc == Next(Descent(at), n + 1)
            && after.daemonUp == before.daemonUp && after.client == before.client
  {
    DescentOrder(s.attempts[a], at, n);
    DownLeads(s, a, o);
  }

  /** Where a step of the way down leads, by what the attempt has. */
  function Back(att: Attempt): AttemptPc {
    match att.pc
    case EmitFailure => MarkStopped
    case MarkStopped => Clear(false)
    case Clear(_) => if att.daemonUp && att.client.Some? then Down else CancelOwn(false)
    case Down => CancelOwn(false)
    case CancelOwn(_) => Release
    case Release => if att.client.Some? then CloseClient else Finished
    case _ => Finished
  }

  predicate IsDescending(pc: AttemptPc) {
    || pc.EmitFailure? || pc.MarkStopped? || pc == Clear(false) || pc.Down? || pc == CancelOwn(false)
    || pc.Release? || pc.CloseClient?
  }

  lemma DescentOrder(att: Attempt, at: AttemptPc, n: nat)
    requires n < |Descent(at)| && att.pc == Descent(at)[n]
    requires att.daemonUp == UpBefore(at) && att.client.Some? == DialBefore(at)
    ensures IsDescending(att.pc) && Back(att) == Next(Descent(at), n + 1)
  {
    DescentIs(at);
  }

  /** The ways down, spelled out. */
  lemma DescentIs(at: AttemptPc)
    ensures Descent(at) ==
              if at.Complete? then [Clear(false), Down, CancelOwn(false), Release, CloseClient]
              else if UpBefore(at) then
                [EmitFailure, MarkStopped, Clear(false), Down, CancelOwn(false), Release, CloseClient]
              else if DialBefore(at) then
                [EmitFailure, MarkStopped, Clear(false), CancelOwn(false), Release, CloseClient]
              else [EmitFailure, MarkStopped, Clear(false), CancelOwn(false), Release]
  {
  }

  lemma DownLeads(s: Sys, a: nat, o: Outcome)
    requires a in s.attempts && IsDescending(s.attempts[a].pc)
    ensures a in StepAttempt(s, a, o).attempts
    ensures var before, after := s.attempts[a], StepAttempt(s, a, o).attempts[a];
            after.pc == Back(before) && after.daemonUp == before.daemonUp && after.client == before.client
  {
    if s.attempts[a].pc.EmitFailure? {
      PlainLeads(s, a, o);
    } else {
      EndingLeads(s, a);
    }
  }

  lemma EndingLeads(s: Sys, a: nat)
    requires a in s.attempts && IsDescending(s.attempts[a].pc) && !s.attempts[a].pc.EmitFailure?
    ensures a in EndingStep(s, a).attempts
    ensures var before, after := s.attempts[a], EndingStep(s, a).attempts[a];
            after.pc == Back(before) && after.daemonUp == before.daemonUp && after.client == before.client
  {
  }

  lemma LandingLeads(s: Sys, a: nat, o: Outcome, session: nat, n: nat)
    requires a in s.attempts && n < |Landing(session)| && s.attempts[a].pc == Landing(session)[n]
    ensures a in StepAttempt(s, a, o).attempts
    ensures StepAttempt(s, a, o).attempts[a].pc == Next(Landing(session), n + 1)
  {
    EndingNext(s, a);
  }

  // ---------- how the story goes on ----------

  /** What the step settles about the way. */
  function WayAfter(pc: AttemptPc, v: Verdict, way: Way): Way {
    match pc
    case CheckKey => way.(prompted := v == Forked)
    case Login => way.(sso := if v == Forked then Shown else NoSso)
    case RegisterSso => way.(sso := if v == Forked then Unshown else Shown)
    case _ => way
  }

  predicate MayFork(pc: AttemptPc) {
    pc.CheckKey? || pc.Login? || pc.RegisterSso?
  }

  lemma PathGrows(pc: AttemptPc, v: Verdict, way: Way)
    requires Ascending(pc) && Through(pc, way) && !pc.Complete? && v != Refused && (v == Forked ==> MayFork(pc))
    ensures var next, after := Forth(pc, v), WayAfter(pc, v, way);
            Ascending(next) && Through(next, after) && PathTo(next, after) == PathTo(pc, way) + [Stop(pc, v)]
  {
    if MayFork(pc) {
      ForkGrows(pc, v, way);
    } else {
      LegGrows(pc, way);
    }
  }

  lemma ForkGrows(pc: AttemptPc, v: Verdict, way: Way)
    requires MayFork(pc) && Through(pc, way) && v != Refused
    ensures var next, after := Forth(pc, v), WayAfter(pc, v, way);
            Ascending(next) && Through(next, after) && PathTo(next, after) == PathTo(pc, way) + [Stop(pc, v)]
  {
    match pc
    case CheckKey =>
    case Login => assert ToLogin(WayAfter(pc, v, way)) == ToLogin(way);
    case RegisterSso => assert ToLogin(WayAfter(pc, v, way)) == ToLogin(way);
  }

  lemma LegGrows(pc: AttemptPc, way: Way)
    requires Ascending(pc) && Through(pc, way) && !pc.Complete? && !MayFork(pc)
    ensures var next := Forth(pc, Passed);
            Ascending(next) && Through(next, way) && PathTo(next, way) == PathTo(pc, way) + [Stop(pc, Passed)]
  {
    if pc.Update? || pc.Resolve? || pc.Up? || pc.WaitReady? || pc.EmitConfig? {
      LastLegsGrow(pc, way);
    } else if pc.MarkStarting? || pc.Parse? || pc.Dial? || pc.Prepare? {
      FirstLegsGrow(pc, way);
    } else {
      PromptLegsGrow(pc, way);
    }
  }

  lemma FirstLegsGrow(pc: AttemptPc, way: Way)
    requires pc.MarkStarting? || pc.Parse? || pc.Dial? || pc.Prepare?
    ensures PathTo(Forth(pc, Passed), way) == PathTo(pc, way) + [Stop(pc, Passed)]
  {
  }

  lemma PromptLegsGrow(pc: AttemptPc, way: Way)
    requires pc.RegisterKey? || pc.EmitKey? || pc.WaitKey? || pc.EmitBanner? || pc.EmitSso? || pc.WaitSso?
    requires Through(pc, way)
    ensures PathTo(Forth(pc, Passed), way) == PathTo(pc, way) + [Stop(pc, Passed)]
  {
  }

  lemma LastLegsGrow(pc: AttemptPc, way: Way)
    requires pc.Update? || pc.Resolve? || pc.Up? || pc.WaitReady? || pc.EmitConfig?
    ensures PathTo(Forth(pc, Passed), way) == PathTo(pc, way) + [Stop(pc, Passed)]
  {
  }

  lemma OkGrows(pcs: seq<AttemptPc>, n: nat)
    requires n < |pcs|
    ensures Ok(pcs[..n + 1]) == Ok(pcs[..n]) + [Stop(pcs[n], Passed)]
  {
  }

  lemma Risen(s: Sys, a: nat, o: Outcome, way: Way, trail: seq<Stop>) returns (next: Story)
    requires Inv(s) && Enabled(s, AttemptStep(a, o)) && Tells(Rising(way), trail, s.attempts[a])
    ensures a in StepAttempt(s, a, o).attempts
    ensures Tells(next, trail + [Stop(s.attempts[a].pc, VerdictOf(s, a, o))], StepAttempt(s, a, o).attempts[a])
  {
    if VerdictOf(s, a, o) == Refused {
      next := TurnedBack(s, a, o, way, trail);
    } else if s.attempts[a].pc.Complete? {
      next := Completed(s, a, o, way, trail);
    } else {
      UpLeads(s, a, o);
      OnlyForksFork(s, a, o);
      PathGrows(s.attempts[a].pc, VerdictOf(s, a, o), way);
      next := Rising(WayAfter(s.attempts[a].pc, VerdictOf(s, a, o), way));
    }
  }

  lemma OnlyForksFork(s: Sys, a: nat, o: Outcome)
    requires a in s.attempts
    ensures VerdictOf(s, a, o) == Forked ==> MayFork(s.attempts[a].pc)
  {
  }

  lemma TurnedBack(s: Sys, a: nat, o: Outcome, way: Way, trail: seq<Stop>) returns (next: Story)
    requires Inv(s) && Enabled(s, AttemptStep(a, o)) && Tells(Rising(way), trail, s.attempts[a])
    requires VerdictOf(s, a, o) == Refused
    ensures a in StepAttempt(s, a, o).attempts
    ensures Tells(next, trail + [Stop(s.attempts[a].pc, Refused)], StepAttempt(s, a, o).attempts[a])
  {
    var at := s.attempts[a].pc;
    assert AttemptInv(s, a);
    RefusalLeads(s, a, o);
    WhatItHas(s.attempts[a]);
    next := Falling(way, at, 0);
    StartsDescent(at, trail);
  }

  lemma WhatItHas(att: Attempt)
    requires Fits(att) && Ascending(att.pc)
    ensures att.daemonUp == UpBefore(att.pc) && att.client.Some? == DialBefore(att.pc)
  {
  }

  lemma StartsDescent(at: AttemptPc, trail: seq<Stop>)
    ensures Next(Descent(at), 0) == (if at.Complete? then Clear(false) else EmitFailure)
    ensures trail + [Stop(at, Refused)] == trail + [Stop(at, Refused)] + Ok(Descent(at)[..0])
  {
  }

  lemma Completed(s: Sys, a: nat, o: Outcome, way: Way, trail: seq<Stop>) returns (next: Story)
    requires Inv(s) && Enabled(s, AttemptStep(a, o)) && Tells(Rising(way), trail, s.attempts[a])
    requires s.attempts[a].pc.Complete? && VerdictOf(s, a, o) == Passed
    ensures a in StepAttempt(s, a, o).attempts
    ensures Tells(next, trail + [Stop(Complete, Passed)], StepAttempt(s, a, o).attempts[a])
  {
    CompletionLeads(s, a, o);
    next := Landed(way, s.svc.sessionID + 1, 0);
    StartsLanding(way, trail, s.svc.sessionID + 1);
  }

  lemma StartsLanding(way: Way, trail: seq<Stop>, session: nat)
    requires trail == PathTo(Complete, way)
    ensures trail + [Stop(Complete, Passed)] == Ascent(way) + Ok(Landing(session)[..0])
  {
    var legs := [Update, Resolve, Up, WaitReady, EmitConfig];
    assert Ok(legs) + [Stop(Complete, Passed)] == Ok(legs + [Complete]);
    assert trail == ToUpdate(way) + Ok(legs);
    assert Ascent(way) == ToUpdate(way) + Ok(legs + [Complete]);
  }

  lemma Fallen(s: Sys, a: nat, o: Outcome, way: Way, at: AttemptPc, n: nat, trail: seq<Stop>) returns (next: Story)
    requires Enabled(s, AttemptStep(a, o)) && Tells(Falling(way, at, n), trail, s.attempts[a])
    requires !s.attempts[a].pc.Finished?
    ensures a in StepAttempt(s, a, o).attempts
    ensures Tells(next, trail + [Stop(s.attempts[a].pc, VerdictOf(s, a, o))], StepAttempt(s, a, o).attempts[a])
  {
    DescentLeads(s, a, o, at, n);
    DescentPasses(s, a, o, at, n);
    FallGrows(way, at, n, trail);
    next := Falling(way, at, n + 1);
  }

  lemma DescentPasses(s: Sys, a: nat, o: Outcome, at: AttemptPc, n: nat)
    requires a in s.attempts && n < |Descent(at)| && s.attempts[a].pc == Descent(at)[n]
    ensures VerdictOf(s, a, o) == Passed
  {
    DescentIs(at);
  }

  lemma FallGrows(way: Way, at: AttemptPc, n: nat, trail: seq<Stop>)
    requires n < |Descent(at)| && trail == PathTo(at, way) + [Stop(at, Refused)] + Ok(Descent(at)[..n])
    ensures trail + [Stop(Descent(at)[n], Passed)] == PathTo(at, way) + [Stop(at, Refused)] + Ok(Descent(at)[..n + 1])
  {
    OkGrows(Descent(at), n);
  }

  lemma Glided(s: Sys, a: nat, o: Outcome, way: Way, session: nat, n: nat, trail: seq<Stop>) returns (next: Story)
    requires Enabled(s, AttemptStep(a, o)) && Tells(Landed(way, session, n), trail, s.attempts[a])
    requires !s.attempts[a].pc.Finished?
    ensures a in StepAttempt(s, a, o).attempts
    ensures Tells(next, trail + [Stop(s.attempts[a].pc, VerdictOf(s, a, o))], StepAttempt(s, a, o).attempts[a])
  {
    assert n < |Landing(session)|;
    LandingLeads(s, a, o, session, n);
    OkGrows(Landing(session), n);
    next := Landed(way, session, n + 1);
  }

  /** The attempt's own step takes its story one step further. */
  lemma StoryGoesOn(s: Sys, a: nat, o: Outcome, story: Story, trail: seq<Stop>) returns (next: Story)
    requires Inv(s) && Enabled(s, AttemptStep(a, o)) && Tells(story, trail, s.attempts[a])
    requires !s.attempts[a].pc.Finished?
    ensures a in StepAttempt(s, a, o).attempts
    ensures Tells(next, trail + [Stop(s.attempts[a].pc, VerdictOf(s, a, o))], StepAttempt(s, a, o).attempts[a])
  {
    match story
    case Rising(way) => next := Risen(s, a, o, way, trail);
    case Falling(way, at, n) => next := Fallen(s, a, o, way, at, n, trail);
    case Landed(way, session, n) => next := Glided(s, a, o, way, session, n, trail);
  }

  // ---------- nobody else moves an attempt ----------

  predicate SameStage(before: Attempt, after: Attempt) {
    after.pc == before.pc && after.daemonUp == before.daemonUp && after.client == before.client
  }

  lemma OthersLeaveStage(s: Sys, act: Action, a: nat)
    requires Inv(s) && Enabled(s, act) && a in s.attempts && !(act.AttemptStep? && act.attempt == a)
    ensures a in Apply(s, act).attempts && SameStage(s.attempts[a], Apply(s, act).attempts[a])
  {
    assert AttemptInv(s, a);
    match act
    case AttemptStep(x, o) => StepFrame(s, x, o);
    case MonitorStep(m, poll) => MonitorLeavesStage(s, m, poll);
    case _ => CallsLeaveStage(s, act, a);
  }

  lemma CallsLeaveStage(s: Sys, act: Action, a: nat)
    requires Inv(s) && Enabled(s, act) && a in s.attempts && !act.AttemptStep? && !act.MonitorStep?
    ensures a in Apply(s, act).attempts && SameStage(s.attempts[a], Apply(s, act).attempts[a])
  {
    match act
    case ConnectCall(interactive) => assert AttemptInv(s, a);
    case DisconnectCall => DisconnectLeavesStage(s, a);
    case SetFailureCall => CancelLeavesStage(s, s.svc.activationCancel, a);
    case NewSecretsCall(secrets) => SecretLeavesStage(s, secrets, a);
    case CallStep(d, daemonError) => assert StepCall(s, d, daemonError).attempts == s.attempts;
  }

  lemma CancelLeavesStage(s: Sys, context: Option<nat>, a: nat)
    requires a in s.attempts
    ensures a in CancelAttempt(s, context).attempts
    ensures SameStage(s.attempts[a], CancelAttempt(s, context).attempts[a])
  {
  }

  lemma DisconnectLeavesStage(s: Sys, a: nat)
    requires Inv(s) && a in s.attempts
    ensures a in StartDisconnect(s).attempts && SameStage(s.attempts[a], StartDisconnect(s).attempts[a])
  {
    CancelLeavesStage(s, s.svc.activationCancel, a);
  }

  lemma SecretLeavesStage(s: Sys, secrets: Secrets, a: nat)
    requires Inv(s) && a in s.attempts
    ensures a in Secret(s, secrets).attempts && SameStage(s.attempts[a], Secret(s, secrets).attempts[a])
  {
    assert AttemptInv(s, a);
  }

  lemma MonitorLeavesStage(s: Sys, m: nat, poll: PollOutcome)
    requires m in s.monitors
    ensures StepMonitor(s, m, poll).attempts == s.attempts
  {
  }

  lemma FinishedStays(s: Sys, a: nat, o: Outcome)
    requires a in s.attempts && s.attempts[a].pc.Finished?
    ensures StepAttempt(s, a, o) == s
  {
  }

  lemma NewcomerRises(s: Sys, act: Action, a: nat)
    requires Inv(s) && Enabled(s, act) && a !in s.attempts && a in Apply(s, act).attempts
    ensures Tells(Rising(Way(false, NoSso)), [], Apply(s, act).attempts[a])
  {
    AttemptEffects(s, act);
  }

  // ---------- runs ----------

  lemma {:induction false} NoTrailBefore(states: seq<Sys>, acts: seq<Action>, a: nat, i: nat)
    requires IsRun(states, acts) && i < |states| && a !in states[i].attempts
    ensures Trail(states, acts, a, i) == []
    decreases i
  {
    if i > 0 {
      StillAbsent(states, acts, a, i - 1);
      NoTrailBefore(states, acts, a, i - 1);
    }
  }

  lemma StillAbsent(states: seq<Sys>, acts: seq<Action>, a: nat, k: nat)
    requires IsRun(states, acts) && k < |acts| && a !in states[k + 1].attempts
    ensures a !in states[k].attempts
  {
    if a in states[k].attempts {
      AgeStep(states, acts, k, a);
    }
  }

  lemma {:induction false} TellNext(states: seq<Sys>, acts: seq<Action>, a: nat, k: nat, story: Story)
    returns (next: Story)
    requires IsRun(states, acts) && k < |acts| && a in states[k].attempts
    requires Tells(story, Trail(states, acts, a, k), states[k].attempts[a])
    ensures a in states[k + 1].attempts
    ensures Tells(next, Trail(states, acts, a, k + 1), states[k + 1].attempts[a])
  {
    ReachableInv(states, acts, k);
    assert StepAt(states, acts, k);
    next := TellStep(states[k], acts[k], a, story, Trail(states, acts, a, k));
  }

  lemma {:induction false} TellStep(s: Sys, act: Action, a: nat, story: Story, trail: seq<Stop>) returns (next: Story)
    requires Inv(s) && Enabled(s, act) && a in s.attempts && Tells(story, trail, s.attempts[a])
    ensures a in Apply(s, act).attempts
    ensures Tells(next, trail + Taken(s, act, a), Apply(s, act).attempts[a])
  {
    next := story;
    assert trail + [] == trail;
    if act.AttemptStep? && act.attempt == a {
      if s.attempts[a].pc.Finished? {
        FinishedStays(s, a, act.outcome);
      } else {
        next := StoryGoesOn(s, a, act.outcome, story, trail);
      }
    } else {
      OthersLeaveStage(s, act, a);
    }
  }

  lemma {:induction false} TellNewcomer(states: seq<Sys>, acts: seq<Action>, a: nat, k: nat) returns (story: Story)
    requires IsRun(states, acts) && k < |acts| && a !in states[k].attempts && a in states[k + 1].attempts
    ensures Tells(story, Trail(states, acts, a, k + 1), states[k + 1].attempts[a])
  {
    ReachableInv(states, acts, k);
    assert StepAt(states, acts, k);
    NoTrailBefore(states, acts, a, k);
    NewcomerRises(states[k], acts[k], a);
    story := Rising(Way(false, NoSso));
  }

  /**
  In every state of every run, each attempt is on a way up, having taken exactly the steps that
  lead there; or on the way down from the one step that refused it; or past all steps of the way up.
  */
  lemma {:induction false} EveryAttemptHasAStory(states: seq<Sys>, acts: seq<Action>, a: nat, i: nat)
    returns (story: Story)
    requires IsRun(states, acts) && i < |states| && a in states[i].attempts
    ensures Tells(story, Trail(states, acts, a, i), states[i].attempts[a])
    decreases i
  {
    story := Rising(Way(false, NoSso));
    if i > 0 {
      if a in states[i - 1].attempts {
        var before := EveryAttemptHasAStory(states, acts, a, i - 1);
        story := TellNext(states, acts, a, i - 1, before);
      } else {
        story := TellNewcomer(states, acts, a, i - 1);
      }
    }
  }

  lemma {:induction false} TrailGrows(states: seq<Sys>, acts: seq<Action>, a: nat, k: nat, j: nat)
    requires |states| == |acts| + 1 && k <= j <= |acts|
    ensures Trail(states, acts, a, k) <= Trail(states, acts, a, j)
    decreases j
  {
    if k < j {
      TrailGrows(states, acts, a, k, j - 1);
    }
  }

  // ---------- only who took every step is installed ----------

  lemma {:induction false} NotOk(pcs: seq<AttemptPc>, stop: Stop)
    requires stop.verdict != Passed || stop.pc !in pcs
    ensures stop !in Ok(pcs)
  {
  }

  lemma NoRefusalUp(way: Way, stop: Stop)
    requires stop in ToUpdate(way)
    ensures stop.verdict != Refused && !stop.pc.Complete?
  {
  }

  lemma PathHasNeither(pc: AttemptPc, way: Way, stop: Stop)
    requires Ascending(pc) && Through(pc, way) && (stop.verdict == Refused || stop.pc.Complete?)
    ensures stop !in PathTo(pc, way)
  {
    PathsAreOnTheAscent(pc, way);
    PathIsProper(pc, way);
    forall i | 0 <= i < |PathTo(pc, way)| ensures PathTo(pc, way)[i] != stop {
      assert PathTo(pc, way)[i] == Ascent(way)[i];
      if i < |ToUpdate(way)| {
        NoRefusalUp(way, ToUpdate(way)[i]);
      }
    }
  }

  lemma PathIsProper(pc: AttemptPc, way: Way)
    requires Ascending(pc) && Through(pc, way)
    ensures |PathTo(pc, way)| < |Ascent(way)|
    ensures forall i :: 0 <= i < |ToUpdate(way)| ==> Ascent(way)[i] == ToUpdate(way)[i]
    ensures forall i :: |ToUpdate(way)| <= i < |Ascent(way)| - 1 ==>
              Ascent(way)[i].verdict == Passed && !Ascent(way)[i].pc.Complete?
  {
  }

  lemma AscentNeverRefused(way: Way, stop: Stop)
    requires stop.verdict == Refused
    ensures stop !in Ascent(way)
  {
    if stop in ToUpdate(way) {
      NoRefusalUp(way, stop);
    }
    NotOk([Update, Resolve, Up, WaitReady, EmitConfig, Complete], stop);
  }

  /** A trail with a passed completion is that of a landed attempt. */
  lemma CompletionTells(story: Story, trail: seq<Stop>, att: Attempt)
    requires Tells(story, trail, att)
    ensures Stop(Complete, Passed) in trail ==> story.Landed?
  {
    match story
    case Rising(way) => PathHasNeither(att.pc, way, Stop(Complete, Passed));
    case Falling(way, at, n) => FallingNeverCompletes(way, at, n);
    case Landed(way, session, n) =>
  }

  lemma FallingNeverCompletes(way: Way, at: AttemptPc, n: nat)
    requires Ascending(at) && Through(at, way) && n <= |Descent(at)|
    ensures Stop(Complete, Passed) !in PathTo(at, way) + [Stop(at, Refused)] + Ok(Descent(at)[..n])
  {
    PathHasNeither(at, way, Stop(Complete, Passed));
    NotOk(Descent(at)[..n], Stop(Complete, Passed));
  }

  /** A trail with a refusal is that of a falling attempt, turned back there. */
  lemma RefusalTells(story: Story, trail: seq<Stop>, att: Attempt, at: AttemptPc)
    requires Tells(story, trail, att)
    ensures Stop(at, Refused) in trail ==> story.Falling? && story.at == at
  {
    match story
    case Rising(way) => PathHasNeither(att.pc, way, Stop(at, Refused));
    case Falling(way, from, n) =>
      PathHasNeither(from, way, Stop(at, Refused));
      NotOk(Descent(from)[..n], Stop(at, Refused));
    case Landed(way, session, n) =>
      AscentNeverRefused(way, Stop(at, Refused));
      NotOk(Landing(session)[..n], Stop(at, Refused));
  }

  /** The service's client is one that attempt `a` dialed. */
  predicate InstalledBy(s: Sys, a: nat) {
    s.svc.client.Some? && s.svc.client.value < |s.clients| && s.clients[s.svc.client.value].dialer == a
  }

  lemma InstallerCompletes(s: Sys, act: Action, a: nat)
    requires Inv(s) && Enabled(s, act) && InstalledBy(Apply(s, act), a)
    ensures InstalledBy(s, a) || Stop(Complete, Passed) in Taken(s, act, a)
  {
    ServiceEffects(s, act);
    ClientEffects(s, act);
    if Installs(s, act) {
      assert AttemptInv(s, act.attempt);
    } else {
      assert SessionInv(s);
    }
  }

  lemma {:induction false} InstallerStep(states: seq<Sys>, acts: seq<Action>, k: nat, a: nat)
    requires IsRun(states, acts) && k < |acts| && InstalledBy(states[k + 1], a)
    ensures InstalledBy(states[k], a) || Stop(Complete, Passed) in Taken(states[k], acts[k], a)
  {
    ReachableInv(states, acts, k);
    assert StepAt(states, acts, k);
    InstallerCompletes(states[k], acts[k], a);
  }

  lemma {:induction false} InstalledHasCompleted(states: seq<Sys>, acts: seq<Action>, i: nat, a: nat)
    requires IsRun(states, acts) && i < |states| && InstalledBy(states[i], a)
    ensures Stop(Complete, Passed) in Trail(states, acts, a, i)
    decreases i
  {
    if i > 0 {
      InstallerStep(states, acts, i - 1, a);
      if InstalledBy(states[i - 1], a) {
        InstalledHasCompleted(states, acts, i - 1, a);
      }
    }
  }

  lemma InstalledIsThere(s: Sys, a: nat)
    requires Inv(s) && InstalledBy(s, a)
    ensures a in s.attempts
  {
    assert ClientInv(s, s.svc.client.value);
  }

  /**
  An attempt whose client is installed has taken every step of the way up, in order, with a
  setup key asked for and received and a single sign-on awaited where they were needed.
  */
  lemma InstalledTookEveryStep(states: seq<Sys>, acts: seq<Action>, i: nat, a: nat) returns (way: Way)
    requires IsRun(states, acts) && i < |states| && InstalledBy(states[i], a)
    ensures Ascent(way) <= Trail(states, acts, a, i)
  {
    ReachableInv(states, acts, i);
    InstalledIsThere(states[i], a);
    InstalledHasCompleted(states, acts, i, a);
    var story := EveryAttemptHasAStory(states, acts, a, i);
    CompletionTells(story, Trail(states, acts, a, i), states[i].attempts[a]);
    way := story.way;
  }

  /** At step `k`, attempt `a` is refused. */
  ghost predicate RefusedAt(states: seq<Sys>, acts: seq<Action>, k: nat, a: nat)
    requires |states| == |acts| + 1 && k < |acts|
  {
    && acts[k].AttemptStep? && acts[k].attempt == a && a in states[k].attempts
    && VerdictOf(states[k], a, acts[k].outcome) == Refused
  }

  lemma RefusalIsOnTheTrail(states: seq<Sys>, acts: seq<Action>, k: nat, j: nat, a: nat)
    requires |states| == |acts| + 1 && k < j <= |acts| && RefusedAt(states, acts, k, a)
    ensures Stop(states[k].attempts[a].pc, Refused) in Trail(states, acts, a, j)
  {
    TrailGrows(states, acts, a, k + 1, j);
    var stop := Stop(states[k].attempts[a].pc, Refused);
    assert Taken(states[k], acts[k], a) == [stop];
    assert Trail(states, acts, a, k + 1)[|Trail(states, acts, a, k)|] == stop;
  }

  /**
  An attempt that is refused a step takes from there on exactly the steps of the way down:
  after a failed daemon call it signals the failure and marks the service stopped, and it
  brings down and closes what it had brought up and dialed.
  */
  lemma RefusedComesDown(states: seq<Sys>, acts: seq<Action>, k: nat, j: nat, a: nat) returns (way: Way, n: nat)
    requires IsRun(states, acts) && k < j < |states| && RefusedAt(states, acts, k, a)
    ensures a in states[j].attempts
    ensures Tells(Falling(way, states[k].attempts[a].pc, n), Trail(states, acts, a, j), states[j].attempts[a])
  {
    AttemptsAgeInRuns(states, acts, k, j, a);
    RefusalIsOnTheTrail(states, acts, k, j, a);
    var story := EveryAttemptHasAStory(states, acts, a, j);
    RefusalTells(story, Trail(states, acts, a, j), states[j].attempts[a], states[k].attempts[a].pc);
    way, n := story.way, story.done;
  }

  /** No client of an attempt that was refused a step is ever installed. */
  lemma RefusedNeverInstalled(states: seq<Sys>, acts: seq<Action>, k: nat, j: nat, a: nat)
    requires IsRun(states, acts) && k < j < |states| && RefusedAt(states, acts, k, a)
    ensures !InstalledBy(states[j], a)
  {
    if InstalledBy(states[j], a) {
      var way, n := RefusedComesDown(states, acts, k, j, a);
      InstalledHasCompleted(states, acts, j, a);
      CompletionTells(Falling(way, states[k].attempts[a].pc, n), Trail(states, acts, a, j), states[j].attempts[a]);
    }
  }
}
