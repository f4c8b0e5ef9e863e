/** What profile selection guarantees, whatever requests fail on the way. */
module ProfileProperties {
  import opened Wrappers
  import opened Text
  import opened ProfileRefs
  import opened Daemon
  import opened ProfileSelection

  /** Two daemon states that differ at most in which future requests fail. */
  predicate SameDaemon(d: State, e: State) {
    e == d.(faults := e.faults)
  }

  // ---------- filling in missing fields ----------

  /** Filling in never mixes two profiles: the outcome is the active profile or the request, trimmed. */
  lemma FillIsActiveOrDesired(active: ProfileRef, desired: ProfileRef)
    ensures FillMissing(active, desired) ==
              if active.Empty() || !active.MatchesDesired(desired) then desired.Trim() else active.Trim()
  {
    TrimFixed(active);
    TrimFixed(desired);
  }

  // ---------- never disturb a running foreign profile ----------

  /** The engine runs, under a profile that is not the requested one. */
  predicate ForeignRunning(d: State, desired: ProfileRef) {
    IsRunning(d.engine) && !d.active.Empty() && !d.active.MatchesDesired(desired)
  }

  /** Preparing reads only; it yields the trimmed active profile or the trimmed request, and never both. */
  lemma PrepareOutcome(d: State, desired: ProfileRef)
    ensures SameDaemon(d, PrepareActivation(d, desired).state)
    ensures var r := PrepareActivation(d, desired).result;
            r.Ok? ==>
              if d.features.disableProfiles then r.value == NO_PROFILE
              else if desired.Empty() then r.value == desired.Trim()
              else !ForeignRunning(d, desired) && r.value == FillMissing(d.active, desired)
  {
    PrepareReads(d, desired);
    if PrepareActivation(d, desired).result.Ok? {
      PrepareYields(d, desired);
    }
  }

  lemma PrepareReads(d: State, desired: ProfileRef)
    ensures SameDaemon(d, PrepareActivation(d, desired).state)
  {
    var d2 := Consume(Consume(d));
    CheckReads(d2, d.active.Trim(), desired.Trim());
    SameIsTransitive(d, d2, CheckRunningConflict(d2, d.active.Trim(), desired.Trim()).state);
    PrepareEndsIn(d, desired);
  }

  lemma PrepareEndsIn(d: State, desired: ProfileRef)
    ensures var d2 := Consume(Consume(d));
            PrepareActivation(d, desired).state in {Consume(d), d2,
                CheckRunningConflict(d2, d.active.Trim(), desired.Trim()).state}
  {
    TrimFixed(d.active);
  }

  lemma PrepareYields(d: State, desired: ProfileRef)
    requires PrepareActivation(d, desired).result.Ok?
    ensures var r := PrepareActivation(d, desired).result;
            if d.features.disableProfiles then r.value == NO_PROFILE
            else if desired.Empty() then r.value == desired.Trim()
            else !ForeignRunning(d, desired) && r.value == FillMissing(d.active, desired)
  {
    TrimFixed(desired);
    if !d.features.disableProfiles && !desired.Empty() {
      CheckAdmits(Consume(Consume(d)), d.active, desired);
      FillTrimmed(d.active, desired);
    }
  }

  lemma CheckAdmits(d: State, active: ProfileRef, desired: ProfileRef)
    requires CheckRunningConflict(d, active.Trim(), desired.Trim()).result.Ok?
    ensures active.Empty() || active.MatchesDesired(desired) || !IsRunning(d.engine)
  {
    TrimFixed(active);
    TrimFixed(active.Trim());
    TrimFixed(desired);
  }

  lemma FillTrimmed(active: ProfileRef, desired: ProfileRef)
    ensures FillMissing(active.Trim(), desired.Trim()) == FillMissing(active, desired)
  {
    TrimFixed(active);
    TrimFixed(desired);
  }

  /** Without failing requests, preparing is refused exactly when a foreign profile is running. */
  lemma PrepareRefusesExactlyForeign(d: State, desired: ProfileRef)
    requires d.faults == [] && !d.features.disableProfiles && !desired.Empty()
    ensures PrepareActivation(d, desired).result == Err(Conflict) <==> ForeignRunning(d, desired)
    ensures PrepareActivation(d, desired).result.Err? <==> ForeignRunning(d, desired)
  {
    TrimFixed(desired);
    TrimFixed(d.active);
    TrimFixed(d.active.Trim());
  }

  lemma CheckReads(d: State, active: ProfileRef, desired: ProfileRef)
    ensures SameDaemon(d, CheckRunningConflict(d, active, desired).state)
  {
  }

  lemma ResolveExistingReads(d: State, desired: ProfileRef)
    ensures SameDaemon(d, ResolveExisting(d, desired).state)
    ensures ResolveExisting(d, desired).result == Err(NotFound) && Named(desired) ==> Matches(d, desired) == 0
  {
    TrimFixed(desired);
  }

  /** Resolving reads only. */
  lemma ResolveReads(d: State, desired: ProfileRef)
    ensures SameDaemon(d, Resolve(d, desired).state)
  {
    var d2, a := Consume(Consume(d)), d.active.Trim();
    CheckReads(d2, a, desired.Trim());
    var d3 := CheckRunningConflict(d2, a, desired.Trim()).state;
    ResolveExistingReads(d3, FillMissing(a, desired.Trim()));
    SameIsTransitive(d, d2, d3);
    SameIsTransitive(d, d3, ResolveExisting(d3, FillMissing(a, desired.Trim())).state);
    ResolveEndsIn(d, desired);
  }

  lemma ResolveEndsIn(d: State, desired: ProfileRef)
    ensures var d2, a := Consume(Consume(d)), d.active.Trim();
            var d3 := CheckRunningConflict(d2, a, desired.Trim()).state;
            var end := Resolve(d, desired).state;
            end == Consume(d) || end == d2 || end == d3
                || end == ResolveExisting(d3, FillMissing(a, desired.Trim())).state
  {
    if NextFault(d) == NoFault && !d.features.disableProfiles && NextFault(Consume(d)) == NoFault
        && !desired.Trim().Empty() {
      ResolveLate(d, desired);
    }
  }

  lemma ResolveLate(d: State, desired: ProfileRef)
    requires NextFault(d) == NoFault && !d.features.disableProfiles && NextFault(Consume(d)) == NoFault
    requires !desired.Trim().Empty()
    ensures var a := d.active.Trim();
            var d3 := CheckRunningConflict(Consume(Consume(d)), a, desired.Trim()).state;
            var end := Resolve(d, desired).state;
            end == d3 || end == ResolveExisting(d3, FillMissing(a, desired.Trim())).state
  {
  }

  lemma SameIsTransitive(d: State, e: State, f: State)
    requires SameDaemon(d, e) && SameDaemon(e, f)
    ensures SameDaemon(d, f)
  {
  }

  /** While the engine runs under some profile, a request is refused or comes out as exactly that profile. */
  lemma RunningProfileWins(d: State, desired: ProfileRef)
    requires !d.features.disableProfiles && IsRunning(d.engine) && !d.active.Empty() && !desired.Empty()
    ensures PrepareActivation(d, desired).result.Ok? ==> PrepareActivation(d, desired).result.value == d.active.Trim()
    ensures Resolve(d, desired).result.Ok? ==> Resolve(d, desired).result.value == d.active.Trim()
  {
    TrimFixed(desired);
    TrimFixed(d.active);
    TrimFixed(d.active.Trim());
    FillIsActiveOrDesired(d.active.Trim(), desired.Trim());
    if Resolve(d, desired).result.Ok? {
      assert d.active.MatchesDesired(desired);
      assert d.active.Trim().MatchesDesired(FillMissing(d.active.Trim(), desired.Trim()));
    }
  }

  // ---------- keep what was asked for ----------

  /** The display name and the user of `r` are the requested ones, where the request has them. */
  predicate Keeps(r: ProfileRef, desired: ProfileRef) {
    && (TrimSpace(desired.name) != "" ==> r.name == TrimSpace(desired.name))
    && (TrimSpace(desired.username) != "" ==> r.username == TrimSpace(desired.username))
  }

  lemma ResolveExistingKeeps(d: State, desired: ProfileRef)
    requires ResolveExisting(d, desired).result.Ok?
    ensures Keeps(ResolveExisting(d, desired).result.value, desired)
  {
    TrimFixed(desired);
    var w := desired.Trim();
    if w.Handle() != "" && w.username != "" && w.name != "" {
      var ps := ProfilesOf(d, w.username);
      var k := SelectSingle(ps, p => NameIs(p, TrimSpace(w.name)));
      assert NameIs(ps[k], w.name);
    }
  }

  lemma FillKeeps(active: ProfileRef, desired: ProfileRef)
    ensures Keeps(FillMissing(active, desired), desired)
  {
    TrimFixed(active);
    TrimFixed(desired);
  }

  /** A resolved profile has every display name and user name that was requested. */
  lemma ResolveKeepsRequest(d: State, desired: ProfileRef)
    requires !d.features.disableProfiles && Resolve(d, desired).result.Ok? && !desired.Empty()
    ensures Keeps(Resolve(d, desired).result.value, desired)
  {
    TrimFixed(desired);
    var a := d.active.Trim();
    var prepared := FillMissing(a, desired.Trim());
    FillKeeps(a, desired.Trim());
    if !a.MatchesDesired(prepared) {
      var at := CheckRunningConflict(Consume(Consume(d)), a, desired.Trim()).state;
      assert ResolveExisting(at, prepared).result.Ok?;
      ResolveExistingKeeps(at, prepared);
      TrimFixed(prepared);
      FillKeeps(a, ResolveExisting(at, prepared).result.value);
      KeepsIsTransitive(FillMissing(a, ResolveExisting(at, prepared).result.value),
          ResolveExisting(at, prepared).result.value, prepared, desired);
    }
  }

  lemma KeepsIsTransitive(r: ProfileRef, q: ProfileRef, p: ProfileRef, desired: ProfileRef)
    requires Keeps(r, q) && Keeps(q, p) && Keeps(p, desired)
    ensures Keeps(r, desired)
  {
    TrimSpaceIdempotent(desired.name);
    TrimSpaceIdempotent(desired.username);
  }

  /** The one profile of the requested name that the daemon lists for the requested user has the requested id. */
  predicate ListsRequestedId(d: State, desired: ProfileRef) {
    var matches := ByName(ProfilesOf(d, TrimSpace(desired.username)), TrimSpace(desired.name));
    |matches| == 1 && TrimSpace(matches[0].id) == TrimSpace(desired.id)
  }

  /**
  A requested id is kept if and only if the active profile satisfies the request, or the
  request has no display name or no user to look the profile up by, or the list agrees.
  */
  lemma ResolveKeepsIdExactly(d: State, desired: ProfileRef)
    requires !d.features.disableProfiles && TrimSpace(desired.id) != "" && Resolve(d, desired).result.Ok?
    ensures Resolve(d, desired).result.value.id == TrimSpace(desired.id) <==>
              || d.active.MatchesDesired(desired)
              || TrimSpace(desired.name) == "" || TrimSpace(desired.username) == ""
              || ListsRequestedId(d, desired)
  {
    TrimFixed(desired);
    TrimFixed(d.active);
    if d.active.MatchesDesired(desired) {
      ActiveResolves(d, desired);
    } else {
      var at := CheckRunningConflict(Consume(Consume(d)), d.active.Trim(), desired.Trim()).state;
      CheckReads(Consume(Consume(d)), d.active.Trim(), desired.Trim());
      ForeignResolves(d, desired);
      IdKeptByFill(d.active.Trim(), at, desired.Trim());
      ExistingKeepsIdExactly(at, desired.Trim());
    }
  }

  lemma ActiveResolves(d: State, desired: ProfileRef)
    requires !d.features.disableProfiles && !desired.Empty() && Resolve(d, desired).result.Ok?
    requires d.active.MatchesDesired(desired) && TrimSpace(desired.id) != ""
    ensures Resolve(d, desired).result.value == d.active.Trim()
  {
    TrimFixed(desired);
    TrimFixed(d.active);
    TrimFixed(d.active.Trim());
    FillIsActiveOrDesired(d.active.Trim(), desired.Trim());
  }

  /** A request that the active profile does not satisfy is looked up in the list, and filled in from the active one. */
  lemma ForeignResolves(d: State, desired: ProfileRef)
    requires !d.features.disableProfiles && !desired.Empty() && Resolve(d, desired).result.Ok?
    requires !d.active.MatchesDesired(desired)
    ensures var at := CheckRunningConflict(Consume(Consume(d)), d.active.Trim(), desired.Trim()).state;
            && ResolveExisting(at, desired.Trim()).result.Ok?
            && Resolve(d, desired).result.value ==
                FillMissing(d.active.Trim(), ResolveExisting(at, desired.Trim()).result.value)
  {
    TrimFixed(desired);
    TrimFixed(d.active);
    FillIsActiveOrDesired(d.active.Trim(), desired.Trim());
  }

  /**
  Filling in from a profile that does not satisfy the request neither brings the requested id in
  nor takes it out.
  */
  lemma IdKeptByFill(a: ProfileRef, d: State, w: ProfileRef)
    requires a.IsTrim() && w.IsTrim() && !a.MatchesDesired(w) && w.id != "" && ResolveExisting(d, w).result.Ok?
    ensures var found := ResolveExisting(d, w).result.value;
            FillMissing(a, found).id == w.id <==> found.id == w.id
  {
    var found := ResolveExisting(d, w).result.value;
    ExistingIsTrim(d, w);
    ResolveExistingKeeps(d, w);
    FillIsActiveOrDesired(a, found);
    TrimFixed(w);
    if found.id == "" {
      ExistingKeepsIdExactly(d, w);
    }
  }

  lemma ExistingIsTrim(d: State, w: ProfileRef)
    requires w.IsTrim() && ResolveExisting(d, w).result.Ok?
    ensures ResolveExisting(d, w).result.value.IsTrim()
  {
    var r := ResolveExisting(d, w).result.value;
    var ps := ProfilesOf(d, w.username);
    TrimFixed(w);
    forall p | p in ByName(ps, w.name) || p in ById(ps, w.id) ensures FromMatch(p, w.username).IsTrim() {
      TrimFixed(ProfileRef(p.id, p.name, w.username));
    }
  }

  lemma ExistingKeepsIdExactly(d: State, w: ProfileRef)
    requires w.IsTrim() && w.id != "" && ResolveExisting(d, w).result.Ok?
    ensures ResolveExisting(d, w).result.value.id == w.id <==>
        w.name == "" || w.username == "" || ListsRequestedId(d, w)
  {
    TrimFixed(w);
    if w.name == "" && w.username != "" {
      var k := SelectSingle(ProfilesOf(d, w.username), p => IdIs(p, TrimSpace(w.id)));
    }
  }

  /** A user of whom the daemon lists one profile, and a request for it under another id. */
  const LISTED := Profile("b", "n")
  const LISTING := State(Features(false, false), true, 0, map["u" := [LISTED]], NO_PROFILE, Disconnected, [], None,
      Habits([], true, false, false), [], [])
  const OTHER_ID := ProfileRef("a", "n", "u")

  /** A requested id is not kept: with a display name in the request, the daemon's list decides. */
  lemma RequestedIdMayChange()
    ensures !LISTING.features.disableProfiles && Resolve(LISTING, OTHER_ID).result == Ok(OTHER_ID.(id := "b"))
  {
    LettersAreTrimmed();
    assert OTHER_ID.Trim() == OTHER_ID && NO_PROFILE.Trim() == NO_PROFILE
        && OTHER_ID.(id := "b").Trim() == OTHER_ID.(id := "b");
    ListedIsFound();
    assert FillMissing(NO_PROFILE, OTHER_ID) == OTHER_ID
        && FillMissing(NO_PROFILE, OTHER_ID.(id := "b")) == OTHER_ID.(id := "b");
  }

  lemma LettersAreTrimmed()
    ensures TrimSpace("a") == "a" && TrimSpace("b") == "b" && TrimSpace("n") == "n" && TrimSpace("u") == "u"
    ensures TrimSpace("") == ""
  {
    TrimmedIsFixed("a");
    TrimmedIsFixed("b");
    TrimmedIsFixed("n");
    TrimmedIsFixed("u");
    TrimmedIsFixed("");
  }

  lemma ListedIsFound()
    ensures ResolveExisting(LISTING, OTHER_ID) == Reply(LISTING, Ok(OTHER_ID.(id := "b")))
  {
    LettersAreTrimmed();
    SelectUnique([LISTED], q => NameIs(q, TrimSpace("n")), 0);
    assert ByName([LISTED], "n") == [LISTED];
  }

  // ---------- creating profiles ----------

  /** No user has two profiles with the same trimmed display name. */
  ghost predicate NoDuplicates(d: State) {
    forall u, i, j :: u in d.profiles && 0 <= i < j < |d.profiles[u]| ==>
      TrimSpace(d.profiles[u][i].name) != TrimSpace(d.profiles[u][j].name)
  }

  /** How many profiles of the user carry the requested display name. */
  function Matches(d: State, desired: ProfileRef): nat {
    |ByName(ProfilesOf(d, TrimSpace(desired.username)), TrimSpace(desired.name))|
  }

  /** The first profile of the user that carries the requested display name. */
  function Matched(d: State, desired: ProfileRef): ProfileRef
    requires Matches(d, desired) > 0
  {
    var matches := ByName(ProfilesOf(d, TrimSpace(desired.username)), TrimSpace(desired.name));
    FromMatch(matches[0], TrimSpace(desired.username))
  }

  predicate Named(desired: ProfileRef) {
    TrimSpace(desired.name) != "" && TrimSpace(desired.username) != ""
  }

  /**
  The only way EnsureExists changes the daemon: it adds one profile under the requested name,
  and only when the user has none of that name yet.
  */
  lemma EnsureExistsEffect(d: State, desired: ProfileRef)
    ensures var e := EnsureExists(d, desired).state; SameDaemon(d, e) || AddsNamed(d, e, desired)
  {
    if EnsureCreates(d, desired) {
      CreatingAdds(d, desired);
    } else {
      OtherwiseReads(d, desired);
    }
  }

  predicate EnsureCreates(d: State, desired: ProfileRef) {
    && NextFault(d) == NoFault && !d.features.disableProfiles && Named(desired)
    && ResolveExisting(Consume(d), desired.Trim()).result == Err(NotFound)
  }

  lemma OtherwiseReads(d: State, desired: ProfileRef)
    requires !EnsureCreates(d, desired)
    ensures SameDaemon(d, EnsureExists(d, desired).state)
  {
    TrimFixed(desired);
    ResolveExistingReads(Consume(d), desired.Trim());
  }

  lemma CreatingAdds(d: State, desired: ProfileRef)
    requires EnsureCreates(d, desired)
    ensures AddsNamed(d, EnsureExists(d, desired).state, desired)
  {
    TrimFixed(desired);
    var w := desired.Trim();
    ResolveExistingReads(Consume(d), w);
    var found := ResolveExisting(Consume(d), w).state;
    AddProfileEffect(found, w);
    assert EnsureExists(d, desired).state == AddProfile(found, w).state;
  }

  predicate IssuedOne(d: State, e: State, write: Write) {
    e.writes == d.writes + [Issued(write, true)] || e.writes == d.writes + [Issued(write, false)]
  }

  predicate AddsNamed(d: State, e: State, desired: ProfileRef) {
    && Named(desired) && !d.features.disableProfiles && Matches(d, desired) == 0
    && IssuedOne(d, e, Added(desired.Trim()))
    && e.active == d.active && e.engine == d.engine && e.engineProfile == d.engineProfile
    && e.features == d.features && e.issuesIds == d.issuesIds && d.nextId <= e.nextId
    && SameHabits(d, e)
    && (e.profiles == d.profiles || (e.nextId == d.nextId + 1 && AddedOne(d, e, desired)))
  }

  /** The engine goes on, and will answer to logins and to Up, as it would have before. */
  predicate SameHabits(d: State, e: State) {
    e.ahead == d.ahead && e.habits == d.habits
  }

  lemma AddProfileEffect(d: State, p: ProfileRef)
    ensures var e := AddProfile(d, p).state;
            && IssuedOne(d, e, Added(p))
            && e.active == d.active && e.engine == d.engine && e.engineProfile == d.engineProfile
            && e.features == d.features && e.issuesIds == d.issuesIds && d.nextId <= e.nextId
            && SameHabits(d, e)
            && (e.profiles == d.profiles
                || (e.nextId == d.nextId + 1
                    && e.profiles == d.profiles[p.username :=
                        ProfilesOf(d, p.username) + [Profile(if d.issuesIds then Decimal(d.nextId) else "", p.name)]]))
            && (AddProfile(d, p).result.Ok? ==> e.nextId == d.nextId + 1)
  {
  }

  predicate AddedOne(d: State, e: State, desired: ProfileRef) {
    var u := TrimSpace(desired.username);
    e.profiles == d.profiles[u := ProfilesOf(d, u)
        + [Profile(if d.issuesIds then Decimal(d.nextId) else "", TrimSpace(desired.name))]]
  }

  /** EnsureExists keeps the profiles free of duplicates, even when the daemon adds one without saying so. */
  lemma EnsureExistsKeepsNoDuplicates(d: State, desired: ProfileRef)
    requires NoDuplicates(d)
    ensures NoDuplicates(EnsureExists(d, desired).state)
  {
    EnsureExistsEffect(d, desired);
    var e := EnsureExists(d, desired).state;
    if e.profiles != d.profiles {
      var u, n := TrimSpace(desired.username), TrimSpace(desired.name);
      TrimSpaceIdempotent(desired.name);
      var f := p => NameIs(p, TrimSpace(n));
      SelectMembers(ProfilesOf(d, u), f);
      forall i | 0 <= i < |ProfilesOf(d, u)| ensures TrimSpace(ProfilesOf(d, u)[i].name) != n {
        assert ProfilesOf(d, u)[i] !in Select(ProfilesOf(d, u), f);
      }
    }
  }

  /** Without failing requests: created when missing, reused when unique, refused without any change when ambiguous. */
  lemma EnsureExistsOutcome(d: State, desired: ProfileRef)
    requires d.faults == [] && !d.features.disableProfiles && Named(desired)
    ensures var r := EnsureExists(d, desired);
            && (r.result == Err(Ambiguous) <==> Matches(d, desired) >= 2)
            && (r.result.Ok? <==> Matches(d, desired) <= 1)
            && (Matches(d, desired) >= 1 ==> r.state == d)
            && (Matches(d, desired) == 1 ==> r.result.value == Matched(d, desired))
            && (Matches(d, desired) == 0 ==>
                  && AddedOne(d, r.state, desired)
                  && r.result.value.name == TrimSpace(desired.name)
                  && r.result.value.username == TrimSpace(desired.username)
                  && r.result.value.id == if d.issuesIds then Decimal(d.nextId) else TrimSpace(desired.id))
  {
    TrimFixed(desired);
    TrimFixed(desired.Trim());
    DecimalTrimmed(d.nextId);
  }

  /**
  Asking again adds nothing and gives the same reference, if and only if the daemon lists
  the id it was given credit for: it found the profile, or it issues ids, or none was asked for.
  */
  lemma EnsureExistsIdempotent(d: State, desired: ProfileRef)
    requires d.faults == [] && !d.features.disableProfiles && Named(desired) && Matches(d, desired) <= 1
    ensures var once := EnsureExists(d, desired);
            var twice := EnsureExists(once.state, desired);
            && once.result.Ok?
            && twice.state == once.state
            && (twice.result == once.result <==> Matches(d, desired) == 1 || d.issuesIds || TrimSpace(desired.id) == "")
  {
    EnsureExistsOutcome(d, desired);
    if Matches(d, desired) == 0 {
      var once := EnsureExists(d, desired);
      CreatedIsFound(d, desired, once.state);
      CalmAfterEnsure(d, desired);
      EnsureExistsOutcome(once.state, desired);
      DecimalTrimmed(d.nextId);
    }
  }

  /** A daemon that knows no ids and lists no profiles yet. */
  const NO_IDS := LISTING.(issuesIds := false, profiles := map[])

  /** A requested id is returned once, by the call that creates the profile, and not again. */
  lemma RequestedIdIsReturnedOnce()
    ensures var once := EnsureExists(NO_IDS, OTHER_ID);
            var twice := EnsureExists(once.state, OTHER_ID);
            once.result.Ok? && twice.state == once.state && twice.result != once.result
  {
    LettersAreTrimmed();
    EnsureExistsIdempotent(NO_IDS, OTHER_ID);
  }

  lemma CalmAfterEnsure(d: State, desired: ProfileRef)
    requires d.faults == []
    ensures EnsureExists(d, desired).state.faults == [] && EnsureExists(d, desired).state.features == d.features
  {
  }

  lemma CreatedIsFound(d: State, desired: ProfileRef, e: State)
    requires Named(desired) && Matches(d, desired) == 0 && AddedOne(d, e, desired)
    ensures Matches(e, desired) == 1
    ensures var id := if d.issuesIds then Decimal(d.nextId) else "";
            Matched(e, desired) == ProfileRef(id, TrimSpace(desired.name), TrimSpace(desired.username))
  {
    var u, n := TrimSpace(desired.username), TrimSpace(desired.name);
    TrimFixed(desired);
    DecimalTrimmed(d.nextId);
    var f := p => NameIs(p, TrimSpace(n));
    var ps, added := ProfilesOf(d, u), Profile(if d.issuesIds then Decimal(d.nextId) else "", n);
    assert ProfilesOf(e, u) == ps + [added] && (ps + [added])[..|ps|] == ps;
    assert Select(ps + [added], f) == [added];
  }
}
