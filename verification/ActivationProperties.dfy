/** End-to-end guarantees of an activation, and of any sequence of activations. */
module ActivationProperties {
  import opened Wrappers
  import opened Text
  import opened ProfileRefs
  import opened Daemon
  import opened ProfileSelection
  import opened ProfileProperties
  import opened Activation
  import Loops = StatusLoops
  import Protocol

  // ---------- never disturb a running foreign profile ----------

  /**
  While the engine runs under another profile, an activation fails before it issues any
  changing request, and leaves the daemon as it was.
  */
  lemma ForeignSessionUntouched(d: State, req: Request)
    requires !d.features.disableProfiles && !WithUser(req).Empty() && ForeignRunning(d, WithUser(req))
    ensures Run(d, req).result.Err?
    ensures SameDaemon(d, Run(d, req).state)
    ensures Run(d, req).state.writes == d.writes
  {
    PrepareOutcome(d, WithUser(req));
  }

  // ---------- no duplicate profiles ----------

  lemma SwitchKeepsProfiles(d: State, p: ProfileRef)
    ensures SwitchProfile(d, p).state.profiles == d.profiles
  {
  }

  /** Nothing but the engine's state, and which future requests fail, differs between the two. */
  predicate SameButEngine(d: State, e: State) {
    e == d.(faults := e.faults, engine := e.engine, ahead := e.ahead)
  }

  lemma {:induction false} WaitReadyReads(d: State, polls: nat)
    ensures SameButEngine(d, WaitReady(d, polls).state)
    ensures WaitReady(d, polls).result.Ok? ==> WaitReady(d, polls).state.engine == Connected
    decreases polls
  {
    if polls > 0 && Status(d).result != Ok(Connected) && Status(d).result != Ok(Failed) {
      WaitReadyReads(Pass(Status(d).state), polls - 1);
      SameButEngineIsTransitive(d, Pass(Status(d).state), WaitReady(Pass(Status(d).state), polls - 1).state);
    }
  }

  lemma SameButEngineIsTransitive(d: State, e: State, f: State)
    requires SameButEngine(d, e) && SameButEngine(e, f)
    ensures SameButEngine(d, f)
  {
  }

  lemma PrepareKeepsNoDuplicates(d: State, req: Request)
    requires NoDuplicates(d)
    ensures NoDuplicates(Prepare(d, req).state)
  {
    PrepareOutcome(d, WithUser(req));
    var prepared := PrepareActivation(d, WithUser(req));
    if prepared.result.Ok? {
      EnsureExistsKeepsNoDuplicates(prepared.state, prepared.result.value);
      var existing := EnsureExists(prepared.state, prepared.result.value);
      if existing.result.Ok? {
        SwitchKeepsProfiles(existing.state, existing.result.value);
      }
    }
  }

  /** Nothing about profiles differs between the two states. */
  predicate SameProfiles(d: State, e: State) {
    && e.profiles == d.profiles && e.active == d.active && e.features == d.features
    && e.issuesIds == d.issuesIds && e.nextId == d.nextId
  }

  lemma AuthenticateKeeps(d: State, req: Request, p: ProfileRef)
    ensures SameProfiles(d, Authenticate(d, req, p).state)
  {
  }

  lemma UpdateKeeps(d: State, p: ProfileRef)
    ensures SameProfiles(d, Update(d, p).state)
  {
  }

  lemma UpKeepsProfiles(d: State, p: ProfileRef)
    ensures Up(d, p).state.profiles == d.profiles
  {
  }

  lemma DownKeepsProfiles(d: State)
    ensures Down(d).state.profiles == d.profiles
  {
  }

  lemma ChooseKeepsProfiles(d: State, req: Request)
    ensures Choose(d, req).state.profiles == Prepare(d, req).state.profiles
  {
    var p := Prepare(d, req);
    if p.result.Ok? {
      AuthenticateKeeps(p.state, req, p.result.value);
      var auth := Authenticate(p.state, req, p.result.value);
      UpdateKeeps(auth.state, p.result.value);
      ResolveReads(Update(auth.state, p.result.value).state, p.result.value);
    }
  }

  lemma StartKeepsProfiles(d: State, req: Request, p: ProfileRef)
    ensures Start(d, req, p).state.profiles == d.profiles
  {
    UpKeepsProfiles(d, p);
    var up := Up(d, p).state;
    WaitReadyReads(up, req.polls);
    DownKeepsProfiles(WaitReady(up, req.polls).state);
  }

  lemma RunKeepsNoDuplicates(d: State, req: Request)
    requires NoDuplicates(d)
    ensures NoDuplicates(Run(d, req).state)
  {
    PrepareKeepsNoDuplicates(d, req);
    ChooseKeepsProfiles(d, req);
    var p := Choose(d, req);
    if p.result.Ok? {
      StartKeepsProfiles(p.state, req, p.result.value);
    }
  }

  /**
  What happens to the daemon: an activation, the Down of a Disconnect call between two of them, or
  nothing for a while.
  */
  datatype Event = Activate(req: Request) | Deactivate | TimePasses

  function After(d: State, event: Event): State {
    match event
    case Activate(req) => Run(d, req).state
    case Deactivate => Down(d).state
    case TimePasses => Pass(d)
  }

  /** The daemon after a series of events, with any of their requests failing. */
  function RunAll(d: State, events: seq<Event>): State
    decreases events
  {
    if events == [] then d else RunAll(After(d, events[0]), events[1..])
  }

  /**
  However often connections are activated, and whatever fails, no user ever gets a second profile
  of the same name.
  */
  lemma {:induction false} NoDuplicatesEver(d: State, events: seq<Event>)
    requires NoDuplicates(d)
    ensures NoDuplicates(RunAll(d, events))
    decreases events
  {
    if events != [] {
      match events[0] {
        case Activate(req) => RunKeepsNoDuplicates(d, req);
        case Deactivate => DownKeepsProfiles(d);
        case TimePasses =>
      }
      NoDuplicatesEver(After(d, events[0]), events[1..]);
    }
  }

  // ---------- the activation ends on the requested profile ----------

  /**
  A daemon either gives every profile an id, each user's ids being distinct and none of them
  still to be issued, or it knows no ids at all. Names are arbitrary.
  */
  ghost predicate WellFormed(d: State) {
    && (forall u :: u in d.profiles ==> WellFormedList(d, d.profiles[u]))
    && (!d.issuesIds ==> TrimSpace(d.active.id) == "")
  }

  /** An id without surrounding blanks that is none of those the daemon will issue from the `n`th on. */
  ghost predicate Taken(n: nat, id: string) {
    id != "" && IsTrimmed(id) && forall k: nat :: k >= n ==> id != Decimal(k)
  }

  /** Any id with a character that is no digit will never be issued again, so a daemon may list it. */
  lemma OtherIdsAreTaken(n: nat, id: string, i: nat)
    requires IsTrimmed(id) && i < |id| && !('0' <= id[i] <= '9')
    ensures Taken(n, id)
  {
    forall k: nat | k >= n ensures id != Decimal(k) {
      DecimalNonEmpty(k);
    }
  }

  ghost predicate WellFormedList(d: State, ps: seq<Profile>) {
    && (d.issuesIds ==> forall i :: 0 <= i < |ps| ==> Taken(d.nextId, ps[i].id))
    && (d.issuesIds ==> forall i, j :: 0 <= i < j < |ps| ==> ps[i].id != ps[j].id)
    && (!d.issuesIds ==> forall i :: 0 <= i < |ps| ==> ps[i].id == "")
  }

  /** `p` is what the user's list says, blanks aside, about the profile at position `k`, which alone has its name. */
  ghost predicate RefersTo(d: State, p: ProfileRef, k: nat) {
    var ps := ProfilesOf(d, p.username);
    && k < |ps|
    && p == FromMatch(ps[k], p.username) && p.IsTrim()
    && p.name != "" && p.username != ""
    && (forall i :: 0 <= i < |ps| && i != k ==> TrimSpace(ps[i].name) != p.name)
  }

  /** The handle of `p` spells out what the list says: the id, or the name without any blanks trimmed from it. */
  predicate Spelled(d: State, p: ProfileRef, k: nat)
    requires k < |ProfilesOf(d, p.username)|
  {
    d.issuesIds || ProfilesOf(d, p.username)[k].name == p.name
  }

  lemma ListCarries(d: State, e: State, ps: seq<Profile>)
    requires WellFormedList(d, ps) && e.issuesIds == d.issuesIds && d.nextId <= e.nextId
    ensures WellFormedList(e, ps)
  {
    if d.issuesIds {
      forall i | 0 <= i < |ps| ensures Taken(e.nextId, ps[i].id) {
        assert Taken(d.nextId, ps[i].id);
      }
    }
  }

  /** Nothing but the active profile, the ids still to be issued and the engine differs. */
  lemma WellFormedCarries(d: State, e: State)
    requires WellFormed(d) && e.profiles == d.profiles && e.issuesIds == d.issuesIds && d.nextId <= e.nextId
    requires e.active == d.active || (!d.issuesIds ==> TrimSpace(e.active.id) == "")
    ensures WellFormed(e)
  {
    forall u | u in e.profiles ensures WellFormedList(e, e.profiles[u]) {
      ListCarries(d, e, d.profiles[u]);
    }
  }

  lemma IdTrimmed(d: State, ps: seq<Profile>, k: nat)
    requires WellFormedList(d, ps) && k < |ps|
    ensures TrimSpace(ps[k].id) == ps[k].id
    ensures d.issuesIds <==> ps[k].id != ""
  {
    if d.issuesIds {
      assert Taken(d.nextId, ps[k].id);
      TrimmedIsFixed(ps[k].id);
    }
  }

  /** The handle of a listed reference finds exactly the profile it refers to, if it is spelled as listed. */
  lemma FindListed(d: State, p: ProfileRef, k: nat)
    requires WellFormed(d) && RefersTo(d, p, k)
    ensures Find(ProfilesOf(d, p.username), p.Handle()) ==
              if Spelled(d, p, k) then Some(ProfilesOf(d, p.username)[k]) else None
  {
    IdTrimmed(d, ProfilesOf(d, p.username), k);
    if d.issuesIds {
      SelectUnique(ProfilesOf(d, p.username), q => HasId(q, p.Handle()), k);
    } else {
      FindByName(d, p, k);
    }
  }

  lemma FindByName(d: State, p: ProfileRef, k: nat)
    requires WellFormed(d) && RefersTo(d, p, k) && !d.issuesIds && p.Handle() == p.name
    ensures Find(ProfilesOf(d, p.username), p.Handle()) ==
              if Spelled(d, p, k) then Some(ProfilesOf(d, p.username)[k]) else None
  {
    var ps, f := ProfilesOf(d, p.username), (q: Profile) => HasName(q, p.Handle());
    SelectNone(ps, q => HasId(q, p.Handle()));
    SelectNone(ps, q => HasIdPrefix(q, p.Handle()));
    forall i | 0 <= i < |ps| && i != k ensures ps[i].name != p.name {
      assert TrimSpace(ps[i].name) != p.name;
    }
    if Spelled(d, p, k) {
      SelectUnique(ps, f, k);
    } else {
      SelectNone(ps, f);
    }
  }

  /** What EnsureExists returns for a named request is listed, under that name and no other profile's. */
  lemma EnsuredIsListed(d: State, desired: ProfileRef) returns (k: nat)
    requires WellFormed(d) && !d.features.disableProfiles && Named(desired)
    requires d.issuesIds || TrimSpace(desired.id) == ""
    requires EnsureExists(d, desired).result.Ok?
    ensures var e := EnsureExists(d, desired);
            && WellFormed(e.state) && RefersTo(e.state, e.result.value, k)
            && e.result.value.name == TrimSpace(desired.name) && e.result.value.username == TrimSpace(desired.username)
            && e.state.features == d.features
  {
    TrimFixed(desired);
    EnsureShape(d, desired);
    var w := desired.Trim();
    WellFormedCarries(d, Consume(d));
    var found := ResolveExisting(Consume(d), w);
    ResolveExistingReads(Consume(d), w);
    if found.result.Ok? {
      k := FoundIsListed(Consume(d), desired);
    } else {
      k := |ProfilesOf(d, w.username)|;
      WellFormedCarries(d, found.state);
      CreatedIsListed(found.state, w, EnsureExists(d, desired).result.value);
      AddProfileEffect(found.state, w);
    }
  }

  /** The two ways EnsureExists can succeed on a named request. */
  lemma EnsureShape(d: State, desired: ProfileRef)
    requires !d.features.disableProfiles && Named(desired) && EnsureExists(d, desired).result.Ok?
    ensures var w := desired.Trim();
            var found := ResolveExisting(Consume(d), w);
            if found.result.Ok? then
              EnsureExists(d, desired) == found
            else
              && found.result == Err(NotFound) && Matches(d, desired) == 0
              && AddProfile(found.state, w).result.Ok?
              && EnsureExists(d, desired).state == AddProfile(found.state, w).state
              && EnsureExists(d, desired).result.value ==
                   ProfileRef(if d.issuesIds then Decimal(d.nextId) else w.id, w.name, w.username)
  {
    TrimFixed(desired);
    var w := desired.Trim();
    TrimFixed(w);
    ResolveExistingReads(Consume(d), w);
    DecimalTrimmed(d.nextId);
  }

  lemma FoundIsListed(d: State, desired: ProfileRef) returns (k: nat)
    requires WellFormed(d) && Named(desired) && ResolveExisting(d, desired.Trim()).result.Ok?
    ensures var e := ResolveExisting(d, desired.Trim());
            && WellFormed(e.state) && RefersTo(e.state, e.result.value, k) && e.state.features == d.features
            && e.result.value.name == TrimSpace(desired.name) && e.result.value.username == TrimSpace(desired.username)
  {
    TrimFixed(desired);
    var w := desired.Trim();
    k := OnlyOfName(d, w);
    TrimFixed(FromMatch(ProfilesOf(d, w.username)[k], w.username));
    ResolveExistingReads(d, w);
    WellFormedCarries(d, ResolveExisting(d, w).state);
  }

  lemma OnlyOfName(d: State, w: ProfileRef) returns (k: nat)
    requires w.IsTrim() && w.name != "" && w.username != "" && ResolveExisting(d, w).result.Ok?
    ensures var ps := ProfilesOf(d, w.username);
            && k < |ps| && TrimSpace(ps[k].name) == w.name
            && ResolveExisting(d, w).result.value == FromMatch(ps[k], w.username)
            && FromMatch(ps[k], w.username) == ProfileRef(TrimSpace(ps[k].id), w.name, w.username)
            && ProfileRef(TrimSpace(ps[k].id), w.name, w.username).IsTrim()
            && forall i :: 0 <= i < |ps| && i != k ==> TrimSpace(ps[i].name) != w.name
  {
    var ps := ProfilesOf(d, w.username);
    var f := p => NameIs(p, TrimSpace(w.name));
    assert ResolveExisting(d, w).result == Pick(Daemon.Select(ps, f), w.username);
    k := SelectSingle(ps, f);
    TrimSpaceIdempotent(ps[k].id);
    forall i | 0 <= i < |ps| && i != k ensures TrimSpace(ps[i].name) != w.name {
      assert !f(ps[i]);
    }
  }

  lemma CreatedIsListed(d: State, w: ProfileRef, p: ProfileRef)
    requires WellFormed(d) && Named(w) && w.IsTrim() && AddProfile(d, w).result.Ok?
    requires p == ProfileRef(if d.issuesIds then Decimal(d.nextId) else "", w.name, w.username)
    requires Matches(d, w) == 0
    ensures WellFormed(AddProfile(d, w).state) && RefersTo(AddProfile(d, w).state, p, |ProfilesOf(d, w.username)|)
  {
    AddProfileEffect(d, w);
    AppendKeepsWellFormed(d, AddProfile(d, w).state, w.username, w.name);
    DecimalTrimmed(d.nextId);
    var ps := ProfilesOf(d, w.username);
    var f := p => NameIs(p, TrimSpace(w.name));
    assert Daemon.Select(ps, f) == [];
    SelectMembers(ps, f);
    forall i | 0 <= i < |ps| ensures TrimSpace(ps[i].name) != w.name {
      assert ps[i] !in Daemon.Select(ps, f);
    }
  }

  lemma AppendKeepsWellFormed(d: State, e: State, username: string, name: string)
    requires WellFormed(d) && e.issuesIds == d.issuesIds && e.active == d.active && e.nextId == d.nextId + 1
    requires var added := Profile(if d.issuesIds then Decimal(d.nextId) else "", name);
             e.profiles == d.profiles[username := ProfilesOf(d, username) + [added]]
    ensures WellFormed(e)
  {
    var added := Profile(if d.issuesIds then Decimal(d.nextId) else "", name);
    forall u | u in e.profiles ensures WellFormedList(e, e.profiles[u]) {
      var before := ProfilesOf(d, u);
      assert WellFormedList(d, before);
      ListCarries(d, e, before);
      if u == username && d.issuesIds {
        NewIdIsFresh(d, before);
      }
    }
  }

  lemma NewIdIsFresh(d: State, ps: seq<Profile>)
    requires WellFormedList(d, ps) && d.issuesIds
    ensures forall i :: 0 <= i < |ps| ==> ps[i].id != Decimal(d.nextId)
    ensures Taken(d.nextId + 1, Decimal(d.nextId))
  {
    forall i | 0 <= i < |ps| ensures ps[i].id != Decimal(d.nextId) {
      assert Taken(d.nextId, ps[i].id);
    }
    DecimalNonEmpty(d.nextId);
    forall k: nat | k >= d.nextId + 1 ensures Decimal(d.nextId) != Decimal(k) {
      if Decimal(d.nextId) == Decimal(k) {
        DecimalInjective(d.nextId, k);
      }
    }
  }

  /** Switching to a listed reference succeeds only if it is spelled as listed, and then makes it the active profile. */
  lemma SwitchActivates(d: State, p: ProfileRef, k: nat)
    requires WellFormed(d) && RefersTo(d, p, k) && SwitchProfile(d, p).result.Ok?
    ensures var s := SwitchProfile(d, p);
            && s.result.value == p && s.state.active.Trim() == p && Spelled(s.state, p, k)
            && WellFormed(s.state) && RefersTo(s.state, p, k) && s.state.features == d.features
  {
    FindListed(d, p, k);
    IdTrimmed(d, ProfilesOf(d, p.username), k);
    WellFormedCarries(d, SwitchProfile(d, p).state);
  }

  /** The state kept from switching to starting the engine: the requested profile is active and can be found. */
  ghost predicate Settled(d: State, p: ProfileRef, k: nat) {
    WellFormed(d) && RefersTo(d, p, k) && Spelled(d, p, k) && d.active.Trim() == p && !d.features.disableProfiles
  }

  lemma SettledCarries(d: State, e: State, p: ProfileRef, k: nat)
    requires Settled(d, p, k) && SameProfiles(d, e)
    ensures Settled(e, p, k)
  {
    WellFormedCarries(d, e);
  }

  lemma PrepareSettles(d: State, req: Request) returns (k: nat)
    requires WellFormed(d) && !d.features.disableProfiles && Named(WithUser(req)) && req.profile.id == ""
    requires Prepare(d, req).result.Ok?
    ensures var p := Prepare(d, req);
            && Settled(p.state, p.result.value, k)
            && p.result.value.name == TrimSpace(req.profile.name)
            && p.result.value.username == TrimSpace(WithUser(req).username)
  {
    var desired := WithUser(req);
    PrepareOutcome(d, desired);
    var prepared := PrepareActivation(d, desired);
    var p := prepared.result.value;
    FilledIsNamed(d, req, p);
    WellFormedCarries(d, prepared.state);
    k := EnsuredIsListed(prepared.state, p);
    var existing := EnsureExists(prepared.state, p);
    SwitchActivates(existing.state, existing.result.value, k);
  }

  lemma FilledIsNamed(d: State, req: Request, p: ProfileRef)
    requires WellFormed(d) && Named(WithUser(req)) && req.profile.id == ""
    requires p == FillMissing(d.active, WithUser(req))
    ensures Named(p) && (d.issuesIds || TrimSpace(p.id) == "")
    ensures TrimSpace(p.name) == TrimSpace(req.profile.name)
    ensures TrimSpace(p.username) == TrimSpace(WithUser(req).username)
    ensures Matches(d, p) == Matches(d, WithUser(req))
  {
    var desired := WithUser(req);
    FillIsActiveOrDesired(d.active, desired);
    FillKeeps(d.active, desired);
    TrimFixed(desired);
    TrimFixed(d.active);
    TrimSpaceIdempotent(desired.name);
    TrimSpaceIdempotent(desired.username);
  }

  lemma ResolveSettled(d: State, p: ProfileRef, k: nat)
    requires Settled(d, p, k) && Resolve(d, p).result.Ok?
    ensures Resolve(d, p).result.value == p
  {
    TrimFixed(p);
    FillIsActiveOrDesired(p, p);
  }

  lemma StartSettled(d: State, req: Request, p: ProfileRef, k: nat)
    requires Settled(d, p, k) && Start(d, req, p).result.Ok?
    ensures var s := Start(d, req, p);
            && s.state.engine == Connected && s.result.value == p
            && s.state.engineProfile.Some? && s.state.engineProfile.value.Trim() == p
  {
    FindListed(d, p, k);
    IdTrimmed(d, ProfilesOf(d, p.username), k);
    WaitReadyReads(Up(d, p).state, req.polls);
  }

  lemma ChooseSettled(d: State, req: Request, p: ProfileRef, k: nat)
    requires Prepare(d, req).result == Ok(p) && Settled(Prepare(d, req).state, p, k) && Choose(d, req).result.Ok?
    ensures Choose(d, req).result.value == p && Settled(Choose(d, req).state, p, k)
  {
    var d1 := Prepare(d, req).state;
    AuthenticateKeeps(d1, req, p);
    var d2 := Authenticate(d1, req, p).state;
    UpdateKeeps(d2, p);
    var d3 := Update(d2, p).state;
    SettledCarries(d1, d3, p, k);
    ResolveSettled(d3, p, k);
    ResolveReads(d3, p);
    SettledCarries(d3, Resolve(d3, p).state, p, k);
  }

  /**
  A successful activation leaves the engine connected on the profile it reports, which has
  the requested display name and owner and is listed by the daemon under that name alone.
  */
  lemma SuccessIsOnRequestedProfile(d: State, req: Request)
    requires WellFormed(d) && !d.features.disableProfiles && Named(WithUser(req)) && req.profile.id == ""
    ensures Run(d, req).result.Ok? ==> LandedOn(Run(d, req), req)
  {
    if Run(d, req).result.Ok? {
      var k := PrepareSettles(d, req);
      var p := Prepare(d, req).result.value;
      ChooseSettled(d, req, p, k);
      var chosen := Choose(d, req).state;
      StartSettled(chosen, req, p, k);
      StartKeepsProfiles(chosen, req, p);
      assert RefersTo(Run(d, req).state, p, k);
    }
  }

  /**
  The engine is connected, on a listed profile of the requested display name and user, which
  is, blanks aside, the one returned.
  */
  ghost predicate LandedOn(r: Reply<ProfileRef>, req: Request)
    requires r.result.Ok?
  {
    && r.state.engine == Connected
    && r.state.engineProfile.Some? && r.state.engineProfile.value.Trim() == r.result.value
    && r.result.value.name == TrimSpace(req.profile.name)
    && r.result.value.username == TrimSpace(
         if req.profile.username != "" then req.profile.username else req.processUser)
    && exists k: nat :: RefersTo(r.state, r.result.value, k)
  }

  // ---------- the same after any number of activations ----------

  /** The daemon is still well-formed, with the same features. */
  ghost predicate Sound(d: State, e: State) {
    WellFormed(e) && e.features == d.features && e.issuesIds == d.issuesIds
  }

  lemma FoundIsMember(ps: seq<Profile>, handle: string)
    ensures Find(ps, handle).Some? ==> Find(ps, handle).value in ps
  {
    SelectMembers(ps, p => HasId(p, handle));
    SelectMembers(ps, p => HasIdPrefix(p, handle));
    SelectMembers(ps, p => HasName(p, handle));
  }

  lemma FoundIdIsBlank(d: State, p: ProfileRef)
    requires WellFormed(d) && !d.issuesIds
    ensures var f := Find(ProfilesOf(d, p.username), p.Handle()); f.Some? ==> f.value.id == ""
  {
    FoundIsMember(ProfilesOf(d, p.username), p.Handle());
    assert WellFormedList(d, ProfilesOf(d, p.username));
  }

  lemma BlankIsTrimmed()
    ensures TrimSpace("") == ""
  {
    TrimmedIsFixed("");
  }

  lemma SwitchKeepsSound(d: State, p: ProfileRef)
    requires WellFormed(d)
    ensures Sound(d, SwitchProfile(d, p).state)
  {
    if !d.issuesIds {
      FoundIdIsBlank(d, p);
      BlankIsTrimmed();
    }
    WellFormedCarries(d, SwitchProfile(d, p).state);
  }

  lemma UpKeepsSound(d: State, p: ProfileRef)
    requires WellFormed(d)
    ensures Sound(d, Up(d, p).state)
  {
    if !d.issuesIds {
      FoundIdIsBlank(d, p);
      BlankIsTrimmed();
    }
    UpKeepsProfiles(d, p);
    UpKeepsIds(d, p);
    UpActivates(d, p);
    WellFormedCarries(d, Up(d, p).state);
  }

  lemma UpKeepsIds(d: State, p: ProfileRef)
    ensures var e := Up(d, p).state; e.issuesIds == d.issuesIds && e.nextId == d.nextId && e.features == d.features
  {
  }

  lemma UpActivates(d: State, p: ProfileRef)
    ensures var e, f := Up(d, p).state, Find(ProfilesOf(d, p.username), p.Handle());
            e.active == d.active || (f.Some? && e.active.id == f.value.id)
  {
  }

  lemma DownKeepsSound(d: State)
    requires WellFormed(d)
    ensures Sound(d, Down(d).state)
  {
    WellFormedCarries(d, Down(d).state);
  }

  lemma EnsureKeepsSound(d: State, p: ProfileRef)
    requires WellFormed(d)
    ensures Sound(d, EnsureExists(d, p).state)
  {
    EnsureExistsEffect(d, p);
    var e := EnsureExists(d, p).state;
    if e.profiles == d.profiles {
      WellFormedCarries(d, e);
    } else {
      AppendKeepsWellFormed(d, e, TrimSpace(p.username), TrimSpace(p.name));
    }
  }

  lemma PrepareKeepsSound(d: State, req: Request)
    requires WellFormed(d)
    ensures Sound(d, Prepare(d, req).state)
  {
    var prepared := PrepareActivation(d, WithUser(req));
    PrepareOutcome(d, WithUser(req));
    WellFormedCarries(d, prepared.state);
    if prepared.result.Ok? {
      EnsureKeepsSound(prepared.state, prepared.result.value);
      var existing := EnsureExists(prepared.state, prepared.result.value);
      if existing.result.Ok? {
        SwitchKeepsSound(existing.state, existing.result.value);
      }
    }
  }

  lemma ChooseKeepsSound(d: State, req: Request)
    requires WellFormed(d)
    ensures Sound(d, Choose(d, req).state)
  {
    PrepareKeepsSound(d, req);
    var prepared := Prepare(d, req);
    if prepared.result.Ok? {
      var p := prepared.result.value;
      AuthenticateKeeps(prepared.state, req, p);
      var auth := Authenticate(prepared.state, req, p).state;
      UpdateKeeps(auth, p);
      ResolveReads(Update(auth, p).state, p);
      WellFormedCarries(prepared.state, Choose(d, req).state);
    }
  }

  lemma StartKeepsSound(d: State, req: Request, p: ProfileRef)
    requires WellFormed(d)
    ensures Sound(d, Start(d, req, p).state)
  {
    UpKeepsSound(d, p);
    var up := Up(d, p).state;
    WaitReadyReads(up, req.polls);
    var ready := WaitReady(up, req.polls).state;
    WellFormedCarries(up, ready);
    DownKeepsSound(ready);
  }

  /** Whatever fails in an activation, the daemon stays well-formed and keeps its features. */
  lemma RunKeepsWellFormed(d: State, req: Request)
    requires WellFormed(d)
    ensures Sound(d, Run(d, req).state)
  {
    ChooseKeepsSound(d, req);
    var c := Choose(d, req);
    if c.result.Ok? {
      StartKeepsSound(c.state, req, c.result.value);
    }
  }

  lemma {:induction false} RunAllKeepsWellFormed(d: State, events: seq<Event>)
    requires WellFormed(d)
    ensures Sound(d, RunAll(d, events))
    decreases events
  {
    if events != [] {
      match events[0] {
        case Activate(req) => RunKeepsWellFormed(d, req);
        case Deactivate => DownKeepsSound(d);
        case TimePasses => WellFormedCarries(d, Pass(d));
      }
      RunAllKeepsWellFormed(After(d, events[0]), events[1..]);
    }
  }

  /** Whatever happened before, an activation that succeeds ends on the requested profile. */
  lemma SuccessEver(d: State, events: seq<Event>, req: Request)
    requires WellFormed(d) && !d.features.disableProfiles && Named(WithUser(req)) && req.profile.id == ""
    ensures var before := RunAll(d, events);
            Run(before, req).result.Ok? ==> LandedOn(Run(before, req), req)
  {
    RunAllKeepsWellFormed(d, events);
    SuccessIsOnRequestedProfile(RunAll(d, events), req);
  }

  // ---------- when an activation succeeds ----------

  /** No request fails from here on, and login and engine will answer as they would have before. */
  predicate Calm(d: State, e: State) {
    e.faults == [] && e.habits == d.habits
  }

  /**
  Of the listed profiles that the request may mean, all are spelled as requested, if the daemon
  knows them by name only.
  */
  predicate SpelledAlike(d: State, desired: ProfileRef) {
    d.issuesIds || forall p :: p in ProfilesOf(d, TrimSpace(desired.username)) && NameIs(p, TrimSpace(desired.name)) ==>
                     p.name == TrimSpace(desired.name)
  }

  lemma PrepareCalm(d: State, req: Request)
    requires WellFormed(d) && d.faults == [] && !d.features.disableProfiles && Named(WithUser(req))
    requires req.profile.id == ""
    ensures Calm(d, Prepare(d, req).state)
    ensures Prepare(d, req).result.Ok? <==>
              !ForeignRunning(d, WithUser(req)) && Matches(d, WithUser(req)) <= 1 && SpelledAlike(d, WithUser(req))
  {
    var desired := WithUser(req);
    PrepareOutcome(d, desired);
    PrepareRefusesExactlyForeign(d, desired);
    var prepared := PrepareActivation(d, desired);
    if prepared.result.Ok? {
      assert prepared.state == d;
      EnsureCalm(d, req, prepared.result.value);
    }
  }

  lemma EnsureCalm(d: State, req: Request, p: ProfileRef)
    requires WellFormed(d) && d.faults == [] && !d.features.disableProfiles && Named(WithUser(req))
    requires req.profile.id == ""
    requires p == FillMissing(d.active, WithUser(req))
    ensures Matches(d, p) == Matches(d, WithUser(req)) && SpelledAlike(d, p) == SpelledAlike(d, WithUser(req))
    ensures Calm(d, EnsureExists(d, p).state)
    ensures EnsureExists(d, p).result.Ok? <==> Matches(d, p) <= 1
    ensures EnsureExists(d, p).result.Ok? ==> SwitchesCalmly(d, EnsureExists(d, p), SpelledAlike(d, p))
  {
    FilledIsNamed(d, req, p);
    EnsureExistsOutcome(d, p);
    EnsureExistsCalm(d, p);
    if EnsureExists(d, p).result.Ok? {
      EnsuredSwitchesCalmly(d, p);
    }
  }

  /** The profile in the reply has a handle, and switching to it succeeds exactly if `found`. */
  predicate SwitchesCalmly(d: State, e: Reply<ProfileRef>, found: bool)
    requires e.result.Ok?
  {
    && e.result.value.Handle() != ""
    && Calm(d, SwitchProfile(e.state, e.result.value).state)
    && SwitchProfile(e.state, e.result.value).result.Ok? == found
  }

  lemma EnsuredSwitchesCalmly(d: State, p: ProfileRef)
    requires WellFormed(d) && d.faults == [] && !d.features.disableProfiles && Named(p)
    requires d.issuesIds || TrimSpace(p.id) == ""
    requires EnsureExists(d, p).result.Ok?
    ensures SwitchesCalmly(d, EnsureExists(d, p), SpelledAlike(d, p))
  {
    EnsureExistsCalm(d, p);
    var e := EnsureExists(d, p);
    var k := EnsuredIsListed(d, p);
    FindListed(e.state, e.result.value, k);
    SpelledIsAlike(d, p, k);
  }

  lemma SpelledIsAlike(d: State, p: ProfileRef, k: nat)
    requires WellFormed(d) && d.faults == [] && !d.features.disableProfiles && Named(p) && EnsureExists(d, p).result.Ok?
    requires RefersTo(EnsureExists(d, p).state, EnsureExists(d, p).result.value, k)
    requires EnsureExists(d, p).result.value.name == TrimSpace(p.name)
    requires EnsureExists(d, p).result.value.username == TrimSpace(p.username)
    ensures Spelled(EnsureExists(d, p).state, EnsureExists(d, p).result.value, k) <==> SpelledAlike(d, p)
  {
    EnsureExistsOutcome(d, p);
    EnsureExistsEffect(d, p);
    var n, u := TrimSpace(p.name), TrimSpace(p.username);
    var e := EnsureExists(d, p);
    var ps, after := ProfilesOf(d, u), ProfilesOf(e.state, u);
    if Matches(d, p) == 0 {
      NoneAlike(ps, n);
      assert after == ps + [after[|ps|]] && after[|ps|].name == n;
      TrimSpaceIdempotent(p.name);
      assert k == |ps|;
    } else {
      assert after == ps && TrimSpace(ps[k].name) == n;
      forall q | q in ps && NameIs(q, n) ensures q == ps[k] {
        var i :| 0 <= i < |ps| && ps[i] == q;
      }
    }
  }

  lemma NoneAlike(ps: seq<Profile>, n: string)
    requires |ByName(ps, n)| == 0 && TrimSpace(n) == n
    ensures forall q :: q in ps ==> !NameIs(q, n)
  {
    var f := p => NameIs(p, TrimSpace(n));
    SelectMembers(ps, f);
    forall q | q in ps ensures !NameIs(q, n) {
      assert q !in Daemon.Select(ps, f);
    }
  }

  lemma EnsureExistsCalm(d: State, p: ProfileRef)
    requires d.faults == []
    ensures Calm(d, EnsureExists(d, p).state)
  {
  }

  /**
  A setup key is there if it is needed, the login is accepted, and so is the single sign-on if the
  daemon asks for one, which takes an interactive activation.
  */
  predicate LetsIn(d: State, req: Request) {
    && (req.mode == SetupKeyMode ==> req.hasKey || (req.interactive && req.answered))
    && d.habits.acceptsLogin && (d.habits.needsSso ==> req.interactive && d.habits.acceptsSso)
  }

  lemma AuthenticateCalm(d: State, e: State, req: Request, p: ProfileRef)
    requires Calm(d, e)
    ensures Calm(d, Authenticate(e, req, p).state)
    ensures Authenticate(e, req, p).result.Ok? <==> LetsIn(d, req)
  {
  }

  lemma UpdateCalm(d: State, e: State, p: ProfileRef)
    requires Calm(d, e)
    ensures Calm(d, Update(e, p).state) && Update(e, p).result.Ok?
  {
  }

  lemma ChooseCalm(d: State, req: Request)
    requires WellFormed(d) && d.faults == [] && !d.features.disableProfiles && Named(WithUser(req))
    requires req.profile.id == ""
    ensures Calm(d, Choose(d, req).state)
    ensures Choose(d, req).result.Ok? <==> Prepare(d, req).result.Ok? && LetsIn(d, req)
  {
    PrepareCalm(d, req);
    var prepared := Prepare(d, req);
    if prepared.result.Ok? {
      var p := prepared.result.value;
      var k := PrepareSettles(d, req);
      var d2 := Authenticate(prepared.state, req, p).state;
      AuthenticateCalm(d, prepared.state, req, p);
      var d3 := Update(d2, p).state;
      UpdateCalm(d, d2, p);
      AuthenticateKeeps(prepared.state, req, p);
      UpdateKeeps(d2, p);
      SettledCarries(prepared.state, d3, p, k);
      ResolveCalm(d3, p, k);
    }
  }

  lemma ResolveCalm(d: State, p: ProfileRef, k: nat)
    requires Settled(d, p, k) && d.faults == []
    ensures Resolve(d, p).result.Ok? && Resolve(d, p).state == d
  {
    TrimFixed(p);
    FillIsActiveOrDesired(p, p);
    ResolveReads(d, p);
  }

  /** The engine reports connected within the first `polls` polls, and has not reported a failure before. */
  predicate ComesUp(course: seq<EngineState>, polls: nat) {
    exists k :: 0 <= k < polls && ConnectsAt(course, k)
  }

  predicate ConnectsAt(course: seq<EngineState>, k: nat) {
    CourseAt(course, k) == Connected && forall i :: 0 <= i < k ==> CourseAt(course, i) != Failed
  }

  /** Where the engine is on its course, and what is ahead of it. */
  function Ahead(d: State): seq<EngineState> {
    [d.engine] + d.ahead
  }

  lemma PassMovesOn(d: State, k: nat)
    ensures CourseAt(Ahead(Pass(d)), k) == CourseAt(Ahead(d), k + 1)
  {
    if d.ahead != [] {
      assert Ahead(Pass(d)) == d.ahead;
    }
  }

  /** Without failing requests, the wait succeeds if and only if the engine comes up on its course in time. */
  lemma {:induction false} WaitSucceedsExactly(d: State, polls: nat)
    requires d.faults == []
    ensures WaitReady(d, polls).result.Ok? <==> ComesUp(Ahead(d), polls)
    decreases polls
  {
    assert CourseAt(Ahead(d), 0) == d.engine;
    if polls > 0 {
      if d.engine == Connected {
        assert ConnectsAt(Ahead(d), 0);
      } else if d.engine != Failed {
        assert Status(d).state == d;
        WaitSucceedsExactly(Pass(d), polls - 1);
        ComesUpLater(d, polls);
      }
    }
  }

  lemma ComesUpLater(d: State, polls: nat)
    requires polls > 0 && d.engine != Connected && d.engine != Failed
    ensures ComesUp(Ahead(d), polls) <==> ComesUp(Ahead(Pass(d)), polls - 1)
  {
    assert CourseAt(Ahead(d), 0) == d.engine;
    if ComesUp(Ahead(d), polls) {
      var k :| 0 <= k < polls && ConnectsAt(Ahead(d), k);
      LaterConnects(d, k - 1);
    }
    if ComesUp(Ahead(Pass(d)), polls - 1) {
      var k :| 0 <= k < polls - 1 && ConnectsAt(Ahead(Pass(d)), k);
      LaterConnects(d, k);
    }
  }

  lemma LaterConnects(d: State, k: nat)
    requires d.engine != Failed
    ensures ConnectsAt(Ahead(d), k + 1) <==> ConnectsAt(Ahead(Pass(d)), k)
  {
    PassMovesOn(d, k);
    assert CourseAt(Ahead(d), 0) == d.engine;
    forall i | 0 <= i < k ensures CourseAt(Ahead(Pass(d)), i) == CourseAt(Ahead(d), i + 1) {
      PassMovesOn(d, i);
    }
    if ConnectsAt(Ahead(Pass(d)), k) {
      forall i | 0 <= i < k + 1 ensures CourseAt(Ahead(d), i) != Failed {
        if i > 0 {
          assert CourseAt(Ahead(Pass(d)), i - 1) != Failed;
        }
      }
    }
  }

  lemma StartedIsOnCourse(d: State, k: nat)
    ensures CourseAt(Ahead(Started(d)), k) == CourseAt(d.habits.course, k)
  {
    if d.habits.course != [] {
      assert Ahead(Started(d)) == d.habits.course;
    }
  }

  lemma StartedComesUp(d: State, polls: nat)
    ensures ComesUp(Ahead(Started(d)), polls) <==> ComesUp(d.habits.course, polls)
  {
    forall k: nat ensures ConnectsAt(Ahead(Started(d)), k) <==> ConnectsAt(d.habits.course, k) {
      StartedIsOnCourse(d, k);
      forall i | 0 <= i < k ensures CourseAt(Ahead(Started(d)), i) == CourseAt(d.habits.course, i) {
        StartedIsOnCourse(d, i);
      }
    }
  }

  lemma StartCalm(d: State, req: Request, p: ProfileRef, k: nat)
    requires Settled(d, p, k) && d.faults == []
    ensures Start(d, req, p).result.Ok? <==> ComesUp(d.habits.course, req.polls) && req.gateway
  {
    FindListed(d, p, k);
    var up := Up(d, p);
    assert up.result.Ok? && up.state.faults == [] && Ahead(up.state) == Ahead(Started(d));
    WaitSucceedsExactly(up.state, req.polls);
    StartedComesUp(d, req.polls);
  }

  lemma RunSucceeds(d: State, req: Request)
    ensures Run(d, req).result.Ok? <==>
              && (req.mode == SetupKeyMode || (req.mode == SsoMode && req.interactive))
              && Choose(d, req).result.Ok?
              && Start(Choose(d, req).state, req, Choose(d, req).result.value).result.Ok?
  {
  }

  /**
  When no request fails, an activation of a named profile succeeds if and only if no foreign
  profile is running, the name is not ambiguous and spelled as the daemon needs it, the request
  is let in, and the engine, whatever else it reports at first, connects in time before it
  reports a failure, with a gateway that can be told.
  */
  lemma SuccessExactly(d: State, req: Request)
    requires WellFormed(d) && d.faults == [] && !d.features.disableProfiles && Named(WithUser(req))
    requires req.profile.id == ""
    ensures Run(d, req).result.Ok? <==>
              && !ForeignRunning(d, WithUser(req))
              && Matches(d, WithUser(req)) <= 1 && SpelledAlike(d, WithUser(req))
              && (req.mode == SetupKeyMode || (req.mode == SsoMode && req.interactive)) && LetsIn(d, req)
              && ComesUp(d.habits.course, req.polls) && req.gateway
  {
    RunSucceeds(d, req);
    PrepareCalm(d, req);
    ChooseCalm(d, req);
    if Choose(d, req).result.Ok? {
      var p := Prepare(d, req).result.value;
      var k := PrepareSettles(d, req);
      ChooseSettled(d, req, p, k);
      StartCalm(Choose(d, req).state, req, p, k);
    }
  }

  // ---------- what a failed activation leaves behind ----------

  /** The engine is as it was and will start as it would have, and if no request could fail before, none can now. */
  predicate SameEngine(d: State, e: State) {
    && e.engine == d.engine && e.engineProfile == d.engineProfile && SameHabits(d, e)
    && (d.faults == [] ==> e.faults == [])
  }

  lemma PrepareKeepsEngine(d: State, req: Request)
    ensures SameEngine(d, Prepare(d, req).state)
  {
    var prepared := PrepareActivation(d, WithUser(req));
    PrepareOutcome(d, WithUser(req));
    if d.faults == [] {
      PrepareStaysCalm(d, WithUser(req));
    }
    if prepared.result.Ok? {
      EnsureKeepsEngine(prepared.state, prepared.result.value);
      var existing := EnsureExists(prepared.state, prepared.result.value);
      if existing.result.Ok? {
        SwitchKeepsEngine(existing.state, existing.result.value);
      }
    }
  }

  lemma PrepareStaysCalm(d: State, desired: ProfileRef)
    requires d.faults == []
    ensures PrepareActivation(d, desired).state.faults == []
  {
  }

  lemma EnsureKeepsEngine(d: State, p: ProfileRef)
    ensures SameEngine(d, EnsureExists(d, p).state)
  {
    EnsureExistsEffect(d, p);
    if d.faults == [] {
      EnsureExistsCalm(d, p);
    }
  }

  lemma SwitchKeepsEngine(d: State, p: ProfileRef)
    ensures SameEngine(d, SwitchProfile(d, p).state)
  {
  }

  lemma ResolveKeepsEngine(d: State, p: ProfileRef)
    ensures SameEngine(d, Resolve(d, p).state)
  {
    ResolveReads(d, p);
    if d.faults == [] {
      ResolveEndsIn(d, p);
    }
  }

  lemma LoginKeepsEngine(d: State, req: Request, p: ProfileRef)
    ensures SameEngine(d, Authenticate(d, req, p).state)
  {
  }

  lemma UpdateKeepsEngine(d: State, p: ProfileRef)
    ensures SameEngine(d, Update(d, p).state)
  {
  }

  lemma ChooseKeepsEngine(d: State, req: Request)
    ensures SameEngine(d, Choose(d, req).state)
  {
    PrepareKeepsEngine(d, req);
    var prepared := Prepare(d, req);
    if prepared.result.Ok? {
      var p := prepared.result.value;
      var auth := Authenticate(prepared.state, req, p);
      LoginKeepsEngine(prepared.state, req, p);
      var update := Update(auth.state, p);
      UpdateKeepsEngine(auth.state, p);
      ResolveKeepsEngine(update.state, p);
    }
  }

  /** The Up request reaches the daemon and names a profile there, whether or not the answer comes back. */
  predicate UpArrives(d: State, p: ProfileRef) {
    NextFault(d) != Lost && (p.Handle() == "" || Find(ProfilesOf(d, p.username), p.Handle()).Some?)
  }

  /** The engine is brought up and stays up: the answer to Up is an error, or the Down that follows is lost. */
  predicate Strands(d: State, req: Request, p: ProfileRef) {
    UpArrives(d, p) && (Up(d, p).result.Err? || NextFault(WaitReady(Up(d, p).state, req.polls).state) == Lost)
  }

  lemma UpEffect(d: State, p: ProfileRef)
    ensures var up := Up(d, p);
            && (up.result.Ok? ==> UpArrives(d, p))
            && up.state.engine == (if UpArrives(d, p) then CourseAt(d.habits.course, 0) else d.engine)
            && (if UpArrives(d, p) then up.state.engineProfile.Some? else up.state.engineProfile == d.engineProfile)
  {
  }

  lemma DownEffect(d: State)
    ensures var e := Down(d).state;
            if NextFault(d) == Lost then e.engine == d.engine && e.engineProfile == d.engineProfile
            else e.engine == Disconnected && e.engineProfile.None?
  {
  }

  lemma FailedStartLeaves(d: State, req: Request, p: ProfileRef)
    requires Start(d, req, p).result.Err?
    ensures LeftBy(d, req, p, Start(d, req, p).state)
  {
    UpEffect(d, p);
    var up := Up(d, p);
    WaitReadyReads(up.state, req.polls);
    DownEffect(WaitReady(up.state, req.polls).state);
  }

  /** The state in which the engine is left running: the first of its course, or where the wait ended. */
  function StrandedIn(d: State, req: Request, p: ProfileRef): EngineState {
    var up := Up(d, p);
    if up.result.Err? then up.state.engine else WaitReady(up.state, req.polls).state.engine
  }

  /** How a failed start leaves the engine: untouched, stranded, or stopped. */
  predicate LeftBy(d: State, req: Request, p: ProfileRef, e: State) {
    if !UpArrives(d, p) then e.engine == d.engine && e.engineProfile == d.engineProfile
    else if Strands(d, req, p) then e.engine == StrandedIn(d, req, p) && e.engineProfile.Some?
    else e.engine == Disconnected && e.engineProfile.None?
  }

  lemma {:induction false} WaitStaysOnCourse(d: State, polls: nat) returns (k: nat)
    ensures k <= polls && WaitReady(d, polls).state.engine == CourseAt(Ahead(d), k)
    decreases polls
  {
    assert CourseAt(Ahead(d), 0) == d.engine;
    k := 0;
    if polls > 0 && Status(d).result != Ok(Connected) && Status(d).result != Ok(Failed) {
      var later := WaitStaysOnCourse(Pass(Status(d).state), polls - 1);
      PassMovesOn(Status(d).state, later);
      k := later + 1;
    }
  }

  /** A stranded engine is somewhere on the course that Up started. */
  lemma StrandedOnCourse(d: State, req: Request, p: ProfileRef) returns (k: nat)
    requires UpArrives(d, p)
    ensures k <= req.polls && StrandedIn(d, req, p) == CourseAt(d.habits.course, k)
  {
    var up := Up(d, p);
    UpStarts(d, p);
    k := 0;
    if up.result.Ok? {
      k := WaitStaysOnCourse(up.state, req.polls);
    }
    StartedIsOnCourse(d, k);
    StartedIsOnCourse(d, 0);
  }

  lemma UpStarts(d: State, p: ProfileRef)
    requires UpArrives(d, p)
    ensures Up(d, p).state.engine == Started(d).engine && Up(d, p).state.ahead == Started(d).ahead
  {
  }

  /**
  How a failed activation leaves the engine, whichever requests fail: as it found it if Up did
  not reach the daemon; up if it did and the answer, or the Down that follows, was lost;
  stopped otherwise.
  */
  lemma FailureLeavesEngine(d: State, req: Request)
    requires Run(d, req).result.Err?
    ensures var c, e := Choose(d, req), Run(d, req).state;
            if Refusal(req).Some? then e == d
            else if c.result.Err? then SameEngine(d, e)
            else SameEngine(d, c.state) && LeftBy(c.state, req, c.result.value, e)
  {
    ChooseKeepsEngine(d, req);
    var c := Choose(d, req);
    if Refusal(req).None? && c.result.Ok? {
      FailedStartLeaves(c.state, req, c.result.value);
    }
  }

  /**
  A failed activation that found the engine stopped leaves it running if and only if it strands an
  engine that is running by then.
  */
  lemma EngineStrandedExactly(d: State, req: Request)
    requires Run(d, req).result.Err? && !IsRunning(d.engine)
    ensures IsRunning(Run(d, req).state.engine) <==>
              var c := Choose(d, req);
              && Refusal(req).None? && c.result.Ok? && Strands(c.state, req, c.result.value)
              && IsRunning(StrandedIn(c.state, req, c.result.value))
  {
    FailureLeavesEngine(d, req);
  }

  /** When no request fails, a failed activation never leaves an engine of its own running. */
  lemma FailureReleasesEngine(d: State, req: Request)
    requires d.faults == [] && Run(d, req).result.Err?
    ensures var e, c := Run(d, req).state, Choose(d, req);
            if Refusal(req).None? && c.result.Ok? && Up(c.state, c.result.value).result.Ok? then
              e.engine == Disconnected && e.engineProfile.None?
            else
              e.engine == d.engine && e.engineProfile == d.engineProfile
  {
    FailureLeavesEngine(d, req);
    ChooseKeepsEngine(d, req);
    var c := Choose(d, req);
    if c.result.Ok? {
      CalmNeverStrands(c.state, req, c.result.value);
    }
  }

  lemma CalmNeverStrands(d: State, req: Request, p: ProfileRef)
    requires d.faults == []
    ensures !Strands(d, req, p) && (UpArrives(d, p) <==> Up(d, p).result.Ok?)
  {
    WaitReadyCalm(Up(d, p).state, req.polls);
  }

  lemma {:induction false} WaitReadyCalm(d: State, polls: nat)
    requires d.faults == []
    ensures WaitReady(d, polls).state.faults == []
    decreases polls
  {
    if polls > 0 {
      WaitReadyCalm(Pass(Status(d).state), polls - 1);
    }
  }

  /** A daemon without profiles that answers five requests, and does with the sixth and seventh as `fate` says. */
  function Unreliable(fate: seq<Fault>): State {
    State(Features(true, true), false, 0, map[], NO_PROFILE, Disconnected, [], None,
          Habits([Connected], true, false, false), [],
          [NoFault, NoFault, NoFault, NoFault, NoFault] + fate)
  }

  const IMPATIENT := Request(NO_PROFILE, "", SsoMode, true, false, false, 0, false)

  /** Both ways to strand the engine happen: the answer to Up is lost, or the Down after a wait in vain is. */
  lemma EngineCanBeStranded(fate: seq<Fault>)
    requires fate == [Unacknowledged] || fate == [NoFault, Lost]
    ensures Run(Unreliable(fate), IMPATIENT).result.Err? && Run(Unreliable(fate), IMPATIENT).state.engine == Connected
  {
    UnreliableChooses(fate);
    var d := Choose(Unreliable(fate), IMPATIENT).state;
    assert Up(d, NO_PROFILE).state.faults == fate[1..];
  }

  lemma UnreliableChooses(fate: seq<Fault>)
    ensures var c := Choose(Unreliable(fate), IMPATIENT);
            && c.result == Ok(NO_PROFILE) && c.state.faults == fate && SameEngine(Unreliable(fate), c.state)
            && NO_PROFILE.Handle() == ""
  {
    BlankIsTrimmed();
    var d := Unreliable(fate);
    ChooseKeepsEngine(d, IMPATIENT);
    assert Prepare(d, IMPATIENT) == Reply(Consume(Consume(d)), Ok(NO_PROFILE));
    var logged := Authenticate(Consume(Consume(d)), IMPATIENT, NO_PROFILE);
    assert logged.result == Ok(()) && logged.state.faults == Consume(Consume(Consume(d))).faults;
  }

  // ---------- the wait for the daemon ----------

  function OutcomeOf(status: Result<EngineState, Error>): Protocol.PollOutcome {
    match status
    case Err(_) => Protocol.PollError
    case Ok(Connected) => Protocol.Connected
    case Ok(Connecting) => Protocol.Connecting
    case Ok(Disconnected) => Protocol.Disconnected
    case Ok(Failed) => Protocol.Failed
    case Ok(UnknownState) => Protocol.UnknownStatus
  }

  /** What the polling loop sees: the answers there is time for, then a lost poll with the deadline passed. */
  function PollsSeen(d: State, polls: nat): seq<Loops.ReadyPoll>
    decreases polls
  {
    if polls == 0 then [Loops.ReadyPoll(Protocol.PollError, "", "", true)] else
      [Loops.ReadyPoll(OutcomeOf(Status(d).result), "", "", false)] + PollsSeen(Pass(Status(d).state), polls - 1)
  }

  /**
  The wait of an activation is the polling loop over those polls: it succeeds exactly if the first
  deciding one is ready.
  */
  lemma {:induction false} WaitIsPollingLoop(d: State, polls: nat) returns (n: nat)
    ensures Loops.FirstDecider(PollsSeen(d, polls), n)
    ensures WaitReady(d, polls).result.Ok? <==> Loops.Verdict(PollsSeen(d, polls), n).Ready?
    decreases polls
  {
    var seen := PollsSeen(d, polls);
    if polls == 0 || Loops.Decides(seen[0]) {
      n := 0;
    } else {
      var later := Pass(Status(d).state);
      var rest := PollsSeen(later, polls - 1);
      var m := WaitIsPollingLoop(later, polls - 1);
      n := m + 1;
      DeciderOfLonger(seen[0], rest, m);
    }
  }

  lemma DeciderOfLonger(first: Loops.ReadyPoll, rest: seq<Loops.ReadyPoll>, m: nat)
    requires !Loops.Decides(first) && Loops.FirstDecider(rest, m)
    ensures Loops.FirstDecider([first] + rest, m + 1)
    ensures Loops.Verdict([first] + rest, m + 1).Ready? <==> Loops.Verdict(rest, m).Ready?
  {
  }
}
