/** Choosing the daemon profile of an activation, as functions of the daemon's state. */
module ProfileSelection {
  import opened Wrappers
  import opened Text
  import opened ProfileRefs
  import opened Daemon

  function FillMissing(active: ProfileRef, desired: ProfileRef): ProfileRef {
    var a, d := active.Trim(), desired.Trim();
    if a.Empty() || !a.MatchesDesired(d) then d
    else ProfileRef(if d.id == "" then a.id else d.id,
                    if d.name == "" then a.name else d.name,
                    if d.username == "" then a.username else d.username)
  }

  function CheckRunningConflict(d: State, active: ProfileRef, desired: ProfileRef): Reply<()> {
    var a, w := active.Trim(), desired.Trim();
    if a.Empty() || a.MatchesDesired(w) then Reply(d, Ok(()))
    else
      var s := Status(d);
      if s.result.Err? then Reply(s.state, Err(s.result.error))
      else if IsRunning(s.result.value) then Reply(s.state, Err(Conflict))
      else Reply(s.state, Ok(()))
  }

  function PrepareActivation(d: State, desired: ProfileRef): Reply<ProfileRef> {
    var w := desired.Trim();
    var features := GetFeatures(d);
    if features.result.Err? then Reply(features.state, Err(features.result.error))
    else if features.result.value.disableProfiles then Reply(features.state, Ok(NO_PROFILE))
    else if w.Empty() then Reply(features.state, Ok(w))
    else
      var active := GetActiveProfile(features.state);
      if active.result.Err? then Reply(active.state, Err(active.result.error))
      else
        var check := CheckRunningConflict(active.state, active.result.value.Trim(), w);
        if check.result.Err? then Reply(check.state, Err(check.result.error))
        else Reply(check.state, Ok(FillMissing(active.result.value.Trim(), w)))
  }

  predicate NameIs(p: Profile, name: string) {
    TrimSpace(p.name) == name
  }

  predicate IdIs(p: Profile, id: string) {
    TrimSpace(p.id) == id
  }

  function ByName(ps: seq<Profile>, name: string): seq<Profile> {
    Select(ps, p => NameIs(p, TrimSpace(name)))
  }

  function ById(ps: seq<Profile>, id: string): seq<Profile> {
    Select(ps, p => IdIs(p, TrimSpace(id)))
  }

  function FromMatch(p: Profile, username: string): ProfileRef {
    ProfileRef(TrimSpace(p.id), TrimSpace(p.name), TrimSpace(username))
  }

  function Pick(matches: seq<Profile>, username: string): Result<ProfileRef, Error> {
    if |matches| == 0 then Err(NotFound)
    else if |matches| == 1 then Ok(FromMatch(matches[0], username))
    else Err(Ambiguous)
  }

  function ResolveExisting(d: State, desired: ProfileRef): Reply<ProfileRef> {
    var w := desired.Trim();
    if w.Handle() == "" || w.username == "" then Reply(d, Ok(w))
    else
      var list := ListProfiles(d, w.username);
      if list.result.Err? then Reply(list.state, Err(list.result.error))
      else Reply(list.state, Pick(if w.name != "" then ByName(list.result.value, w.name)
          else ById(list.result.value, w.id), w.username))
  }

  function EnsureExists(d: State, desired: ProfileRef): Reply<ProfileRef> {
    var w := desired.Trim();
    var features := GetFeatures(d);
    if features.result.Err? then Reply(features.state, Err(features.result.error))
    else if features.result.value.disableProfiles then Reply(features.state, Ok(NO_PROFILE))
    else if w.Empty() || w.name == "" || w.username == "" then Reply(features.state, Ok(w))
    else
      var existing := ResolveExisting(features.state, w);
      if existing.result.Ok? || existing.result.error != NotFound then existing
      else
        var added := AddProfile(existing.state, w);
        if added.result.Err? then Reply(added.state, Err(added.result.error))
        else
          var c := added.result.value.Trim();
          Reply(added.state, Ok(ProfileRef(c.id, if c.name == "" then w.name else c.name, if c.username == ""
              then w.username else c.username)))
  }

  function Resolve(d: State, desired: ProfileRef): Reply<ProfileRef> {
    var w := desired.Trim();
    var features := GetFeatures(d);
    if features.result.Err? then Reply(features.state, Err(features.result.error))
    else if features.result.value.disableProfiles then Reply(features.state, Ok(NO_PROFILE))
    else
      var active := GetActiveProfile(features.state);
      if active.result.Err? then Reply(active.state, Err(active.result.error))
      else
        var a := active.result.value.Trim();
        if w.Empty() then Reply(active.state, Ok(a))
        else
          var check := CheckRunningConflict(active.state, a, w);
          if check.result.Err? then Reply(check.state, Err(check.result.error))
          else
            var prepared := FillMissing(a, w);
            if a.MatchesDesired(prepared) then Reply(check.state, Ok(prepared))
            else
              var existing := ResolveExisting(check.state, prepared);
              if existing.result.Err? then existing
              else Reply(existing.state, Ok(FillMissing(a, existing.result.value)))
  }
}
