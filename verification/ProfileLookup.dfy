/** What looking a profile up comes to when no request fails: one outcome for each state of the daemon. */
module ProfileLookup {
  import opened Wrappers
  import opened Text
  import opened ProfileRefs
  import opened Daemon
  import opened ProfileSelection
  import opened ProfileProperties

  /** The listed profile is the one asked for, blanks aside: by its display name if there is one, else by its id. */
  predicate Fits(p: Profile, desired: ProfileRef) {
    if TrimSpace(desired.name) != "" then TrimSpace(p.name) == TrimSpace(desired.name)
    else TrimSpace(p.id) == TrimSpace(desired.id)
  }

  predicate OnlyFit(ps: seq<Profile>, desired: ProfileRef, k: nat) {
    k < |ps| && Fits(ps[k], desired) && forall i :: 0 <= i < |ps| && i != k ==> !Fits(ps[i], desired)
  }

  predicate BothFit(ps: seq<Profile>, desired: ProfileRef, i: nat, j: nat) {
    i < j < |ps| && Fits(ps[i], desired) && Fits(ps[j], desired)
  }

  /** The outcome of a lookup: the only profile that fits, or an error that says whether none or several do. */
  ghost predicate LookedUp(ps: seq<Profile>, desired: ProfileRef, r: Result<ProfileRef, Error>) {
    match r
    case Ok(p) => exists k: nat :: OnlyFit(ps, desired, k) && p == FromMatch(ps[k], TrimSpace(desired.username))
    case Err(e) =>
      if e == NotFound then forall i :: 0 <= i < |ps| ==> !Fits(ps[i], desired)
      else e == Ambiguous && exists i: nat, j: nat :: BothFit(ps, desired, i, j)
  }

  lemma PickLooksUp(ps: seq<Profile>, desired: ProfileRef, f: Profile -> bool)
    requires forall p :: f(p) == Fits(p, desired)
    ensures LookedUp(ps, desired, Pick(Select(ps, f), TrimSpace(desired.username)))
  {
    var u := TrimSpace(desired.username);
    TrimSpaceIdempotent(desired.username);
    SelectMembers(ps, f);
    if |Select(ps, f)| == 1 {
      var k := SelectSingle(ps, f);
      assert OnlyFit(ps, desired, k);
    } else if |Select(ps, f)| >= 2 {
      var first := Select(ps, f)[0];
      assert first in ps && f(first);
      var k :| 0 <= k < |ps| && ps[k] == first;
      AnotherFits(ps, desired, f, k);
    } else {
      forall i | 0 <= i < |ps| ensures !Fits(ps[i], desired) {
        assert ps[i] !in Select(ps, f);
      }
    }
  }

  lemma AnotherFits(ps: seq<Profile>, desired: ProfileRef, f: Profile -> bool, k: nat)
    requires forall p :: f(p) == Fits(p, desired)
    requires k < |ps| && f(ps[k]) && |Select(ps, f)| >= 2
    ensures exists i: nat, j: nat :: BothFit(ps, desired, i, j)
  {
    if forall i :: 0 <= i < |ps| && i != k ==> !f(ps[i]) {
      SelectUnique(ps, f, k);
    } else {
      var i :| 0 <= i < |ps| && i != k && f(ps[i]);
      assert BothFit(ps, desired, if i < k then i else k, if i < k then k else i);
    }
  }

  /** A lookup without anything to look up by is the trimmed request; any other one is answered by the list. */
  lemma ResolveExistingExactly(d: State, desired: ProfileRef)
    requires d.faults == []
    ensures var r := ResolveExisting(d, desired);
            && r.state == d
            && if desired.Handle() == "" || TrimSpace(desired.username) == "" then r.result == Ok(desired.Trim())
               else LookedUp(ProfilesOf(d, TrimSpace(desired.username)), desired, r.result)
  {
    TrimFixed(desired);
    TrimSpaceIdempotent(desired.name);
    TrimSpaceIdempotent(desired.id);
    var w, ps := desired.Trim(), ProfilesOf(d, TrimSpace(desired.username));
    if desired.Handle() != "" && w.username != "" {
      var f := p => NameIs(p, TrimSpace(w.name));
      var g := p => IdIs(p, TrimSpace(w.id));
      assert ByName(ps, w.name) == Select(ps, f) && ById(ps, w.id) == Select(ps, g);
      if w.name != "" {
        PickLooksUp(ps, desired, f);
      } else {
        PickLooksUp(ps, desired, g);
      }
    }
  }

  /**
  Resolving without failing requests: the active profile when none is asked for or it is the one asked
  for, a conflict while another one runs, and otherwise what the list says, for which the active profile
  stands in if it satisfies that.
  */
  lemma ResolveExactly(d: State, desired: ProfileRef)
    requires d.faults == [] && !d.features.disableProfiles
    ensures Resolve(d, desired).state == d
    ensures Resolve(d, desired).result ==
              if desired.Empty() || (d.active.MatchesDesired(desired) && !d.active.Empty()) then Ok(d.active.Trim())
              else if ForeignRunning(d, desired) then Err(Conflict)
              else Found(d.active, ResolveExisting(d, desired).result)
  {
    TrimFixed(desired);
    TrimFixed(d.active);
    TrimFixed(desired.Trim());
    FillIsActiveOrDesired(d.active.Trim(), desired.Trim());
    ResolveExistingExactly(d, desired);
    if ResolveExisting(d, desired).result.Ok? {
      FillIsActiveOrDesired(d.active.Trim(), ResolveExisting(d, desired).result.value);
    }
  }

  function Found(active: ProfileRef, r: Result<ProfileRef, Error>): Result<ProfileRef, Error> {
    match r
    case Err(e) => Err(e)
    case Ok(p) => Ok(if !active.Empty() && active.MatchesDesired(p) then active.Trim() else p.Trim())
  }
}
