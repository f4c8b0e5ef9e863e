/**
The changing requests of one activation: which ones it issues, in which order, about which
profile, and that it stops at the first one the daemon does not acknowledge.
*/
module ActivationWrites {
  import opened Wrappers
  import opened Text
  import opened ProfileRefs
  import opened Daemon
  import opened ProfileSelection
  import opened ProfileProperties
  import opened Activation
  import opened ActivationProperties

  // ---------- what is asked of the daemon ----------

  /** The named profile is not listed yet. */
  predicate Missing(d: State, p: ProfileRef) {
    Named(p) && Matches(d, p) == 0
  }

  function Adding(d: State, p: ProfileRef): seq<Write> {
    if Missing(d, p) then [Added(p)] else []
  }

  function Switching(p: ProfileRef): seq<Write> {
    if p.Handle() == "" then [] else [Switched(p)]
  }

  function Settling(p: ProfileRef, updates: bool): seq<Write> {
    [LoggedIn(p)] + if updates then [Configured(p)] else []
  }

  /**
  What an activation that meets no obstacle asks of the daemon: a profile added or not, the switch to
  it, the login, the settings unless the daemon keeps its own, and Up.
  */
  datatype Plan = Plan(
    added: Option<ProfileRef>,
    switched: ProfileRef,
    chosen: ProfileRef,
    updates: bool,
    resolved: ProfileRef)
  {
    function Preparing(): seq<Write> {
      (if added.Some? then [Added(added.value)] else []) + Switching(switched)
    }

    function Writes(): seq<Write> {
      Preparing() + Settling(chosen, updates) + [BroughtUp(resolved)]
    }
  }

  // ---------- logs ----------

  /** The requests are the first ones of the list, and none follows one that was not acknowledged. */
  predicate InOrder(log: seq<Issued>, list: seq<Write>) {
    && |log| <= |list|
    && (forall i :: 0 <= i < |log| ==> log[i].write == list[i])
    && (forall i :: 0 <= i < |log| - 1 ==> log[i].acknowledged)
  }

  /** The whole list was issued, and everything in it acknowledged. */
  predicate Complete(log: seq<Issued>, list: seq<Write>) {
    |log| == |list| && forall i :: 0 <= i < |log| ==> log[i] == Issued(list[i], true)
  }

  /** The log of one part of an activation that succeeded, or that came to an end. */
  predicate LogOf(log: seq<Issued>, list: seq<Write>, done: bool) {
    if done then Complete(log, list) else InOrder(log, list)
  }

  lemma LogsJoin(log: seq<Issued>, list: seq<Write>, more: seq<Issued>, rest: seq<Write>, done: bool)
    requires Complete(log, list) && LogOf(more, rest, done)
    ensures LogOf(log + more, list + rest, done)
  {
  }

  lemma LogsEnd(log: seq<Issued>, list: seq<Write>, rest: seq<Write>)
    requires InOrder(log, list)
    ensures InOrder(log, list + rest)
  {
  }

  /** The log of part of a plan, cut short before its last request, is not the whole plan's. */
  lemma ShortIsIncomplete(log: seq<Issued>, list: seq<Write>, last: Write)
    requires InOrder(log, list)
    ensures InOrder(log, list + [last]) && !Complete(log, list + [last])
  {
    LogsEnd(log, list, [last]);
  }

  // ---------- which profile ----------

  /**
  What is prepared: nothing where profiles are disabled or none is asked for; else the active profile
  if it satisfies the request, or the request itself.
  */
  function Target(d: State, req: Request): ProfileRef {
    var desired := WithUser(req);
    if d.features.disableProfiles || desired.Empty() then NO_PROFILE
    else if !d.active.Empty() && d.active.MatchesDesired(desired) then d.active.Trim()
    else desired.Trim()
  }

  predicate SameNames(p: ProfileRef, q: ProfileRef) {
    p.name == q.name && p.username == q.username
  }

  /**
  The plan of a request to this daemon. Every request names the same profile as the first; the
  profile brought up without one being asked for is the active one.
  */
  ghost predicate PlanFor(d: State, req: Request, plan: Plan) {
    var target := Target(d, req);
    && plan.added == (if Missing(d, target) then Some(target) else None)
    && SameNames(plan.switched, target) && SameNames(plan.chosen, target)
    && (!Named(target) ==> plan.switched == target)
    && (plan.switched.Handle() == "" ==> plan.chosen == plan.switched)
    && plan.updates == !d.features.disableUpdateSettings
    && ResolvedFor(d, target, plan)
    && (IssuesCleanIds(d, req) ==> plan.switched == plan.chosen == plan.resolved)
  }

  ghost predicate ResolvedFor(d: State, target: ProfileRef, plan: Plan) {
    if d.features.disableProfiles then plan.resolved == NO_PROFILE
    else if target.Empty() then plan.resolved == d.active.Trim()
    else Keeps(plan.resolved, target)
  }

  /** A well-formed daemon with profiles, asked for one by name and user as settings do. */
  ghost predicate IssuesCleanIds(d: State, req: Request) {
    WellFormed(d) && !d.features.disableProfiles && Named(WithUser(req)) && req.profile.id == ""
  }

  // ---------- each part ----------

  lemma PreparedIsTarget(d: State, req: Request)
    ensures SameDaemon(d, PrepareActivation(d, WithUser(req)).state)
    ensures PrepareActivation(d, WithUser(req)).result.Ok? ==>
              PrepareActivation(d, WithUser(req)).result.value == Target(d, req)
    ensures Target(d, req).IsTrim()
  {
    var desired := WithUser(req);
    PrepareOutcome(d, desired);
    FillIsActiveOrDesired(d.active, desired);
    TrimFixed(desired);
    TrimFixed(d.active);
    TrimFixed(NO_PROFILE);
  }

  /** The one request EnsureExists may issue: it adds the profile it was asked for, when it is missing. */
  lemma EnsureLog(d: State, p: ProfileRef) returns (log: seq<Issued>)
    requires p.IsTrim() && (d.features.disableProfiles ==> p == NO_PROFILE)
    ensures var r := EnsureExists(d, p);
            && r.state.writes == d.writes + log
            && LogOf(log, Adding(d, p), r.result.Ok?)
            && (r.result.Ok? ==> SameNames(r.result.value, p) && (!Named(p) ==> r.result.value == p))
            && r.state.features == d.features && r.state.active == d.active
  {
    EnsureExistsEffect(d, p);
    if EnsureExists(d, p).result.Ok? {
      EnsureAcknowledged(d, p);
    }
    log := EnsureExists(d, p).state.writes[|d.writes|..];
  }

  lemma EnsureAcknowledged(d: State, p: ProfileRef)
    requires p.IsTrim() && (d.features.disableProfiles ==> p == NO_PROFILE) && EnsureExists(d, p).result.Ok?
    ensures var r := EnsureExists(d, p);
            && r.state.writes == d.writes + (if Missing(d, p) then [Issued(Added(p), true)] else [])
            && SameNames(r.result.value, p) && (!Named(p) ==> r.result.value == p)
  {
    if Named(p) {
      EnsureShape(d, p);
      if ResolveExisting(Consume(d), p).result.Ok? {
        ResolveExistingKeeps(Consume(d), p);
      }
    }
  }

  function SwitchIfNamed(d: State, p: ProfileRef): Reply<ProfileRef> {
    if p.Handle() == "" then Reply(d, Ok(p)) else SwitchProfile(d, p)
  }

  /** A reference with a handle is switched to; the names stay, and nothing but the active profile changes. */
  lemma SwitchLog(d: State, p: ProfileRef) returns (log: seq<Issued>)
    ensures var r := SwitchIfNamed(d, p);
            && r.state.writes == d.writes + log && LogOf(log, Switching(p), r.result.Ok?)
            && (r.result.Ok? ==> SameNames(r.result.value, p))
            && r.state.features == d.features
            && (p.Handle() == "" ==> r.state.active == d.active)
  {
    log := if p.Handle() == "" then [] else [Issued(Switched(p), SwitchProfile(d, p).result.Ok?)];
  }

  function Ensured(d: State, req: Request): Reply<ProfileRef> {
    EnsureExists(PrepareActivation(d, WithUser(req)).state, Target(d, req))
  }

  lemma PrepareShape(d: State, req: Request)
    ensures var prepared := PrepareActivation(d, WithUser(req));
            SameDaemon(d, prepared.state)
            && if prepared.result.Err? then Prepare(d, req) == prepared
               else if Ensured(d, req).result.Err? then Prepare(d, req) == Ensured(d, req)
               else Prepare(d, req) == SwitchIfNamed(Ensured(d, req).state, Ensured(d, req).result.value)
  {
    PreparedIsTarget(d, req);
  }

  lemma EnsuredLog(d: State, req: Request) returns (log: seq<Issued>)
    ensures var r := Ensured(d, req);
            var target := Target(d, req);
            && r.state.writes == d.writes + log
            && LogOf(log, Adding(d, target), r.result.Ok?)
            && (r.result.Ok? ==> SameNames(r.result.value, target) && (!Named(target) ==> r.result.value == target))
            && r.state.features == d.features && r.state.active == d.active
  {
    PreparedIsTarget(d, req);
    log := EnsureLog(PrepareActivation(d, WithUser(req)).state, Target(d, req));
  }

  /** What switching adds to the log of a profile that was looked up or created. */
  lemma SwitchedLog(d: State, req: Request, log: seq<Issued>) returns (more: seq<Issued>)
    requires Ensured(d, req).result.Ok? && Ensured(d, req).state.writes == d.writes + log
    requires Complete(log, Adding(d, Target(d, req)))
    ensures var p := Ensured(d, req).result.value;
            var r := SwitchIfNamed(Ensured(d, req).state, p);
            && r.state.writes == d.writes + (log + more)
            && LogOf(log + more, Adding(d, Target(d, req)) + Switching(p), r.result.Ok?)
  {
    var p := Ensured(d, req).result.value;
    more := SwitchLog(Ensured(d, req).state, p);
    LogsJoin(log, Adding(d, Target(d, req)), more, Switching(p),
        SwitchIfNamed(Ensured(d, req).state, p).result.Ok?);
  }

  /** The references a preparation got as far as; what it did not reach is as it was before. */
  function PlanOf(d: State, req: Request): Plan {
    var target, e, r := Target(d, req), Ensured(d, req).result, Prepare(d, req).result;
    Plan(if Missing(d, target) then Some(target) else None,
         if e.Ok? then e.value else target,
         if r.Ok? then r.value else if e.Ok? then e.value else target,
         !d.features.disableUpdateSettings,
         target)
  }

  /** Preparing issues at most two requests, both about the target, and yields a reference to it. */
  lemma PrepareLog(d: State, req: Request) returns (log: seq<Issued>)
    ensures Prepare(d, req).state.writes == d.writes + log
    ensures LogOf(log, PlanOf(d, req).Preparing(), Prepare(d, req).result.Ok?)
  {
    PrepareShape(d, req);
    log := [];
    if PrepareActivation(d, WithUser(req)).result.Ok? {
      log := EnsuredLog(d, req);
      if Ensured(d, req).result.Ok? {
        var more := SwitchedLog(d, req, log);
        log := log + more;
      } else {
        LogsEnd(log, Adding(d, Target(d, req)), Switching(Target(d, req)));
      }
    }
  }

  lemma PlanPrepares(d: State, req: Request)
    ensures PreparesFor(d, req, PlanOf(d, req))
    ensures Prepare(d, req).state.features == d.features
    ensures PlanOf(d, req).switched.Handle() == "" && Prepare(d, req).result.Ok? ==>
              Prepare(d, req).state.active == d.active
  {
    PrepareShape(d, req);
    var _ := EnsuredLog(d, req);
    if Ensured(d, req).result.Ok? {
      var _ := SwitchLog(Ensured(d, req).state, Ensured(d, req).result.value);
    }
  }

  /** The part of `PlanFor` that preparing decides. */
  predicate PreparesFor(d: State, req: Request, plan: Plan) {
    var target := Target(d, req);
    && plan.added == (if Missing(d, target) then Some(target) else None)
    && SameNames(plan.switched, target) && SameNames(plan.chosen, target)
    && (!Named(target) ==> plan.switched == target)
    && (plan.switched.Handle() == "" ==> plan.chosen == plan.switched)
    && plan.updates == !d.features.disableUpdateSettings
  }

  lemma LoginLog(d: State, req: Request, p: ProfileRef) returns (log: seq<Issued>)
    ensures var r := Authenticate(d, req, p);
            && r.state.writes == d.writes + log && LogOf(log, [LoggedIn(p)], r.result.Ok?)
            && SameProfiles(d, r.state)
  {
    log := if LacksKey(req) then [] else [Issued(LoggedIn(p), Login(d, p).result.Ok?)];
  }

  lemma UpdateLog(d: State, p: ProfileRef, updates: bool) returns (log: seq<Issued>)
    requires updates == !d.features.disableUpdateSettings
    ensures var r := Update(d, p);
            && r.state.writes == d.writes + log
            && LogOf(log, if updates then [Configured(p)] else [], r.result.Ok?)
            && SameProfiles(d, r.state)
  {
    log := if updates && GetFeatures(d).result.Ok? then [Issued(Configured(p), Update(d, p).result.Ok?)] else [];
  }

  /** Login and settings, after which the profile is resolved without any request that changes the daemon. */
  function Authorize(d: State, req: Request, p: ProfileRef): Reply<ProfileRef> {
    var auth := Authenticate(d, req, p);
    if auth.result.Err? then Reply(auth.state, Err(auth.result.error)) else
      var update := Update(auth.state, p);
      if update.result.Err? then Reply(update.state, Err(update.result.error)) else
        Resolve(update.state, p)
  }

  lemma AuthorizeLog(d: State, req: Request, p: ProfileRef) returns (log: seq<Issued>)
    ensures var r := Authorize(d, req, p);
            && r.state.writes == d.writes + log
            && LogOf(log, Settling(p, !d.features.disableUpdateSettings), r.result.Ok?)
  {
    var updates := !d.features.disableUpdateSettings;
    log := LoginLog(d, req, p);
    var auth := Authenticate(d, req, p);
    var rest := if updates then [Configured(p)] else [];
    if auth.result.Err? {
      LogsEnd(log, [LoggedIn(p)], rest);
    } else {
      var more := UpdateLog(auth.state, p, updates);
      var update := Update(auth.state, p);
      LogsJoin(log, [LoggedIn(p)], more, rest, update.result.Ok?);
      log := log + more;
      ResolveReads(update.state, p);
    }
  }

  lemma ChooseShape(d: State, req: Request)
    ensures Choose(d, req) ==
              if Prepare(d, req).result.Err? then Prepare(d, req)
              else Authorize(Prepare(d, req).state, req, PlanOf(d, req).chosen)
  {
  }

  lemma AuthorizedLog(d: State, req: Request) returns (log: seq<Issued>)
    requires Prepare(d, req).result.Ok?
    ensures var plan := PlanOf(d, req);
            var r := Authorize(Prepare(d, req).state, req, plan.chosen);
            && r.state.writes == Prepare(d, req).state.writes + log
            && LogOf(log, Settling(plan.chosen, plan.updates), r.result.Ok?)
  {
    PlanPrepares(d, req);
    log := AuthorizeLog(Prepare(d, req).state, req, PlanOf(d, req).chosen);
  }

  /** The log of two parts, of which the second is only reached if the first succeeds. */
  lemma PartsLog<T, U>(d: State, first: Reply<T>, whole: Reply<U>, log: seq<Issued>, list: seq<Write>,
                       more: seq<Issued>, rest: seq<Write>)
    requires first.state.writes == d.writes + log && LogOf(log, list, first.result.Ok?)
    requires if first.result.Ok? then
               whole.state.writes == first.state.writes + more && LogOf(more, rest, whole.result.Ok?)
             else
               whole.state == first.state && whole.result.Err? && more == []
    ensures whole.state.writes == d.writes + (log + more) && LogOf(log + more, list + rest, whole.result.Ok?)
  {
    if first.result.Ok? {
      LogsJoin(log, list, more, rest, whole.result.Ok?);
    } else {
      LogsEnd(log, list, rest);
      assert log + more == log;
    }
  }

  /** The log up to the choice of the profile to bring up. */
  lemma ChooseLog(d: State, req: Request) returns (log: seq<Issued>)
    ensures Choose(d, req).state.writes == d.writes + log
    ensures LogOf(log, ToChoice(PlanOf(d, req)), Choose(d, req).result.Ok?)
  {
    var plan := PlanOf(d, req);
    ChooseShape(d, req);
    var first := PrepareLog(d, req);
    var more := [];
    if Prepare(d, req).result.Ok? {
      more := AuthorizedLog(d, req);
    }
    log := first + more;
    PartsLog(d, Prepare(d, req), Choose(d, req), first, plan.Preparing(), more, Settling(plan.chosen, plan.updates));
  }

  /** Everything of a plan but Up. */
  function ToChoice(plan: Plan): seq<Write> {
    plan.Preparing() + Settling(plan.chosen, plan.updates)
  }

  /** Up is the only request on the way to success; Down follows it exactly if it was acknowledged in vain. */
  lemma StartLog(d: State, req: Request, p: ProfileRef) returns (log: seq<Issued>)
    ensures var r := Start(d, req, p);
            && r.state.writes == d.writes + log
            && (r.result.Ok? ==> r.result.value == p && log == [Issued(BroughtUp(p), true)])
            && (r.result.Err? ==>
                  || log == [Issued(BroughtUp(p), false)]
                  || (|log| == 2 && log[0] == Issued(BroughtUp(p), true) && log[1].write == BroughtDown))
  {
    UpLog(d, p);
    StartShape(d, req, p);
    log := [Issued(BroughtUp(p), Up(d, p).result.Ok?)];
    if Up(d, p).result.Ok? {
      var ready := WaitReady(Up(d, p).state, req.polls);
      WaitReadyReads(Up(d, p).state, req.polls);
      if Start(d, req, p).result.Err? {
        DownLog(ready.state);
        log := log + [Issued(BroughtDown, Down(ready.state).result.Ok?)];
      }
    }
  }

  lemma StartShape(d: State, req: Request, p: ProfileRef)
    ensures var up, r := Up(d, p), Start(d, req, p);
            var ready := WaitReady(up.state, req.polls);
            if up.result.Err? then r.state == up.state && r.result.Err?
            else if r.result.Ok? then r == Reply(ready.state, Ok(p))
            else r.state == Down(ready.state).state
  {
  }

  lemma DownLog(d: State)
    ensures Down(d).state.writes == d.writes + [Issued(BroughtDown, Down(d).result.Ok?)]
  {
  }

  lemma UpLog(d: State, p: ProfileRef)
    ensures Up(d, p).state.writes == d.writes + [Issued(BroughtUp(p), Up(d, p).result.Ok?)]
  {
  }

  // ---------- the plan is the request's ----------

  /** The whole plan: what an activation that ended early did not resolve is what it had chosen. */
  function WholePlan(d: State, req: Request): Plan {
    var plan, chosen := PlanOf(d, req), Choose(d, req).result;
    plan.(resolved :=
      if chosen.Ok? then chosen.value
      else if plan.chosen.Empty() && !d.features.disableProfiles then d.active.Trim()
      else plan.chosen)
  }

  /** The daemon that is asked to resolve the chosen profile: profiles and features are as after preparing. */
  lemma ResolvedLate(d: State, req: Request) returns (e: State)
    requires Choose(d, req).result.Ok?
    ensures Prepare(d, req).result.Ok? && PlanOf(d, req).chosen == Prepare(d, req).result.value
    ensures SameProfiles(Prepare(d, req).state, e)
    ensures Choose(d, req).result == Resolve(e, PlanOf(d, req).chosen).result
  {
    var d1, p := Prepare(d, req).state, PlanOf(d, req).chosen;
    AuthenticateKeeps(d1, req, p);
    var d2 := Authenticate(d1, req, p).state;
    UpdateKeeps(d2, p);
    e := Update(d2, p).state;
  }

  lemma PlanResolves(d: State, req: Request)
    ensures ResolvedFor(d, Target(d, req), WholePlan(d, req))
  {
    PlanPrepares(d, req);
    PreparedIsTarget(d, req);
    var target, p := Target(d, req), PlanOf(d, req).chosen;
    if Choose(d, req).result.Ok? {
      var e := ResolvedLate(d, req);
      if !d.features.disableProfiles && !p.Empty() {
        ResolveKeepsRequest(e, p);
      }
    }
  }

  lemma PlanIsClean(d: State, req: Request)
    requires IssuesCleanIds(d, req)
    ensures var plan := WholePlan(d, req); plan.switched == plan.chosen == plan.resolved
  {
    PlanPrepares(d, req);
    PreparedIsTarget(d, req);
    TargetIsNamed(d, req);
    if Prepare(d, req).result.Ok? {
      SwitchIsClean(d, req);
      if Choose(d, req).result.Ok? {
        ChoiceIsClean(d, req);
      }
    }
  }

  lemma TargetIsNamed(d: State, req: Request)
    requires IssuesCleanIds(d, req)
    ensures Named(Target(d, req))
  {
    FilledIsNamed(d, req, FillMissing(d.active, WithUser(req)));
    FillIsActiveOrDesired(d.active, WithUser(req));
  }

  lemma ChoiceIsClean(d: State, req: Request)
    requires IssuesCleanIds(d, req) && Choose(d, req).result.Ok?
    ensures Choose(d, req).result == Prepare(d, req).result
  {
    ChooseShape(d, req);
    var k := PrepareSettles(d, req);
    ChooseSettled(d, req, Prepare(d, req).result.value, k);
  }

  lemma SwitchIsClean(d: State, req: Request)
    requires IssuesCleanIds(d, req) && Prepare(d, req).result.Ok?
    ensures Prepare(d, req).result == Ensured(d, req).result
  {
    PrepareShape(d, req);
    PreparedIsTarget(d, req);
    var prepared := PrepareActivation(d, WithUser(req));
    PrepareOutcome(d, WithUser(req));
    FilledIsNamed(d, req, prepared.result.value);
    WellFormedCarries(d, prepared.state);
    var k := EnsuredIsListed(prepared.state, prepared.result.value);
    SwitchActivates(Ensured(d, req).state, Ensured(d, req).result.value, k);
  }

  // ---------- the main results ----------

  /** After the whole list, Down. */
  predicate TakenDown(log: seq<Issued>, list: seq<Write>) {
    |log| == |list| + 1 && Complete(log[..|list|], list) && log[|list|].write == BroughtDown
  }

  predicate CutShort(log: seq<Issued>, list: seq<Write>) {
    InOrder(log, list) && !Complete(log, list)
  }

  /** The ways a log of everything up to the choice can go on. */
  lemma LogsFinish(log: seq<Issued>, list: seq<Write>, more: seq<Issued>, last: Write)
    requires Complete(log, list)
    ensures more == [Issued(last, true)] ==> Complete(log + more, list + [last])
    ensures more == [Issued(last, false)] ==> CutShort(log + more, list + [last])
    ensures |more| == 2 && more[0] == Issued(last, true) && more[1].write == BroughtDown ==>
              TakenDown(log + more, list + [last])
  {
    var whole := log + more;
    if |more| == 1 {
      assert whole[|list|] == more[0];
    }
    if |more| == 2 {
      assert whole[..|list| + 1] == log + [more[0]];
    }
  }

  lemma RunShape(d: State, req: Request)
    requires Refusal(req).None?
    ensures Run(d, req) ==
              if Choose(d, req).result.Err? then Choose(d, req)
              else Start(Choose(d, req).state, req, WholePlan(d, req).resolved)
  {
  }

  /** Starting the engine finishes a log of everything up to it. */
  lemma StartedLog(d: State, e: State, req: Request, p: ProfileRef, log: seq<Issued>, list: seq<Write>)
    returns (whole: seq<Issued>)
    requires e.writes == d.writes + log && Complete(log, list)
    ensures var r := Start(e, req, p);
            && r.state.writes == d.writes + whole
            && (if r.result.Ok? then r.result.value == p && Complete(whole, list + [BroughtUp(p)])
                else CutShort(whole, list + [BroughtUp(p)]) || TakenDown(whole, list + [BroughtUp(p)]))
  {
    var more := StartLog(e, req, p);
    whole := log + more;
    LogsFinish(log, list, more, BroughtUp(p));
  }

  /** Success with the whole plan acknowledged, or a failure before its end, or one after it and then Down. */
  predicate RunsBy(r: Reply<ProfileRef>, log: seq<Issued>, plan: Plan) {
    if r.result.Ok? then Complete(log, plan.Writes()) && r.result.value == plan.resolved
    else CutShort(log, plan.Writes()) || TakenDown(log, plan.Writes())
  }

  lemma NotChosenLog(d: State, req: Request, log: seq<Issued>)
    requires InOrder(log, ToChoice(PlanOf(d, req)))
    ensures CutShort(log, WholePlan(d, req).Writes())
  {
    var plan := WholePlan(d, req);
    ShortIsIncomplete(log, ToChoice(plan), BroughtUp(plan.resolved));
  }

  lemma RunLog(d: State, req: Request) returns (log: seq<Issued>)
    ensures Run(d, req).state.writes == d.writes + log
    ensures RunsBy(Run(d, req), log, WholePlan(d, req))
  {
    log := [];
    if Refusal(req).Some? {
      NotChosenLog(d, req, []);
    } else {
      RunShape(d, req);
      log := ChooseLog(d, req);
      if Choose(d, req).result.Err? {
        NotChosenLog(d, req, log);
      } else {
        var plan := WholePlan(d, req);
        log := StartedLog(d, Choose(d, req).state, req, plan.resolved, log, ToChoice(plan));
      }
    }
  }

  /**
  Whatever fails, an activation issues the requests of its plan in order. It succeeds only if it issued
  all of them and each was acknowledged, and then issues nothing else. When it fails it stopped before
  the end, at the first one that was not acknowledged at the latest, or Up was acknowledged too and Down
  is the one request after it.
  */
  lemma RunFollowsPlan(d: State, req: Request) returns (plan: Plan, log: seq<Issued>)
    ensures PlanFor(d, req, plan) && Run(d, req).state.writes == d.writes + log
    ensures RunsBy(Run(d, req), log, plan)
  {
    plan := WholePlan(d, req);
    PlanIsFor(d, req);
    log := RunLog(d, req);
  }

  lemma PlanIsFor(d: State, req: Request)
    ensures PlanFor(d, req, WholePlan(d, req))
  {
    PlanPrepares(d, req);
    PlanResolves(d, req);
    if IssuesCleanIds(d, req) {
      PlanIsClean(d, req);
    }
  }

  /**
  A request in an unknown mode, or for single sign-on without a user to do it, is turned down at once
  and reaches the daemon not at all.
  */
  lemma RefusedIsSilent(d: State, req: Request)
    ensures req.mode == OtherMode ==> Run(d, req) == Reply(d, Err(UnsupportedAuth))
    ensures req.mode == SsoMode && !req.interactive ==> Run(d, req) == Reply(d, Err(InteractiveNeeded))
    ensures req.mode == SetupKeyMode || (req.mode == SsoMode && req.interactive) ==> Refusal(req).None?
  {
  }

  /** Without the setup key it needs, an activation at most prepares the profile: it never tries to log in. */
  lemma NoLoginWithoutKey(d: State, req: Request)
    requires req.mode == SetupKeyMode && !req.hasKey && (!req.interactive || !req.answered)
    ensures Run(d, req).result.Err?
    ensures d.writes <= Run(d, req).state.writes
    ensures forall i :: |d.writes| <= i < |Run(d, req).state.writes| ==>
              Run(d, req).state.writes[i].write.Added? || Run(d, req).state.writes[i].write.Switched?
  {
    if Refusal(req).None? {
      ChoosesNothing(d, req);
      var log := PrepareLog(d, req);
      var list := PlanOf(d, req).Preparing();
      assert forall i :: 0 <= i < |list| ==> list[i].Added? || list[i].Switched?;
    }
  }

  lemma ChoosesNothing(d: State, req: Request)
    requires LacksKey(req)
    ensures Choose(d, req).result.Err? && Choose(d, req).state == Prepare(d, req).state
  {
  }

  // ---------- ids on other daemons ----------

  /** A switch keeps the reference if and only if the profile the handle names has its id, or none at all. */
  lemma SwitchKeepsIdExactly(d: State, p: ProfileRef)
    requires p.Handle() != "" && SwitchProfile(d, p).result.Ok?
    ensures Find(ProfilesOf(d, p.username), p.Handle()).Some?
    ensures SwitchProfile(d, p).result.value == p <==>
              Find(ProfilesOf(d, p.username), p.Handle()).value.id in ["", p.id]
  {
    var found := Find(ProfilesOf(d, p.username), p.Handle());
    assert SwitchProfile(d, p).result.value == if found.value.id != "" then p.(id := found.value.id) else p;
  }

  /** A daemon that is not well-formed: an id with a blank before it, and another that starts like it. */
  const SLOPPY := LISTING.(profiles := map["u" := [Profile(" a", "n"), Profile("a2", "m")]])

  /** There, the switch to the one profile of a name answers with the id of another one. */
  lemma SwitchMayChangeId()
    ensures EnsureExists(SLOPPY, ProfileRef("", "n", "u")).result == Ok(ProfileRef("a", "n", "u"))
    ensures SwitchProfile(SLOPPY, ProfileRef("a", "n", "u")).result == Ok(ProfileRef("a2", "n", "u"))
  {
    LettersAreTrimmed();
    SloppyLookup();
    SloppyFind();
  }

  lemma SloppyLookup()
    ensures ByName(ProfilesOf(SLOPPY, "u"), "n") == [Profile(" a", "n")] && TrimSpace(" a") == "a"
  {
    LettersAreTrimmed();
    TrimmedIsFixed("m");
    assert " a"[1..] == "a";
    var ps := [Profile(" a", "n"), Profile("a2", "m")];
    var f := p => NameIs(p, TrimSpace("n"));
    assert f(ps[0]) && !f(ps[1]);
    SelectUnique(ps, f, 0);
  }

  lemma SloppyFind()
    ensures Find(ProfilesOf(SLOPPY, "u"), "a") == Some(Profile("a2", "m"))
  {
    var ps := [Profile(" a", "n"), Profile("a2", "m")];
    var byId, byPrefix := p => HasId(p, "a"), p => HasIdPrefix(p, "a");
    assert "a"[0] != " a"[0];
    assert !byPrefix(ps[0]) && byPrefix(ps[1]);
    SelectNone(ps, byId);
    SelectUnique(ps, byPrefix, 1);
  }
}
