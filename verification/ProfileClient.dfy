/**
Profile selection as the original runs it: against a daemon client whose requests change
the daemon behind it. Each operation is proved equal to its function in `ProfileSelection`.
*/
module ProfileClient {
  import opened Wrappers
  import opened Text
  import opened ProfileRefs
  import opened Daemon
  import Sel = ProfileSelection

  class Client {
    var daemon: State

    constructor (daemon: State)
      ensures this.daemon == daemon
    {
      this.daemon := daemon;
    }

    method GetFeatures() returns (r: Result<Features, Error>)
      modifies this
      ensures Reply(daemon, r) == Daemon.GetFeatures(old(daemon))
    {
      var reply := Daemon.GetFeatures(daemon);
      daemon := reply.state;
      r := reply.result;
    }

    method GetActiveProfile() returns (r: Result<ProfileRef, Error>)
      modifies this
      ensures Reply(daemon, r) == Daemon.GetActiveProfile(old(daemon))
    {
      var reply := Daemon.GetActiveProfile(daemon);
      daemon := reply.state;
      r := reply.result;
    }

    method ListProfiles(username: string) returns (r: Result<seq<Profile>, Error>)
      modifies this
      ensures Reply(daemon, r) == Daemon.ListProfiles(old(daemon), username)
    {
      var reply := Daemon.ListProfiles(daemon, username);
      daemon := reply.state;
      r := reply.result;
    }

    method Status() returns (r: Result<EngineState, Error>)
      modifies this
      ensures Reply(daemon, r) == Daemon.Status(old(daemon))
    {
      var reply := Daemon.Status(daemon);
      daemon := reply.state;
      r := reply.result;
    }

    method AddProfile(p: ProfileRef) returns (r: Result<ProfileRef, Error>)
      modifies this
      ensures Reply(daemon, r) == Daemon.AddProfile(old(daemon), p)
    {
      var reply := Daemon.AddProfile(daemon, p);
      daemon := reply.state;
      r := reply.result;
    }
  
    method SwitchProfile(p: ProfileRef) returns (r: Result<ProfileRef, Error>)
      modifies this
      ensures Reply(daemon, r) == Daemon.SwitchProfile(old(daemon), p)
    {
      var reply := Daemon.SwitchProfile(daemon, p);
      daemon := reply.state;
      r := reply.result;
    }

    method Login(p: ProfileRef) returns (r: Result<bool, Error>)
      modifies this
      ensures Reply(daemon, r) == Daemon.Login(old(daemon), p)
    {
      var reply := Daemon.Login(daemon, p);
      daemon := reply.state;
      r := reply.result;
    }

    method WaitSsoLogin() returns (r: Result<(), Error>)
      modifies this
      ensures Reply(daemon, r) == Daemon.WaitSsoLogin(old(daemon))
    {
      var reply := Daemon.WaitSsoLogin(daemon);
      daemon := reply.state;
      r := reply.result;
    }

    /** The time between two status polls. */
    method WaitForTick()
      modifies this
      ensures daemon == Pass(old(daemon))
    {
      daemon := Pass(daemon);
    }

    method SetConfig(p: ProfileRef) returns (r: Result<(), Error>)
      modifies this
      ensures Reply(daemon, r) == Daemon.SetConfig(old(daemon), p)
    {
      var reply := Daemon.SetConfig(daemon, p);
      daemon := reply.state;
      r := reply.result;
    }

    method Up(p: ProfileRef) returns (r: Result<(), Error>)
      modifies this
      ensures Reply(daemon, r) == Daemon.Up(old(daemon), p)
    {
      var reply := Daemon.Up(daemon, p);
      daemon := reply.state;
      r := reply.result;
    }

    method Down() returns (r: Result<(), Error>)
      modifies this
      ensures Reply(daemon, r) == Daemon.Down(old(daemon))
    {
      var reply := Daemon.Down(daemon);
      daemon := reply.state;
      r := reply.result;
    }
  }

  method RunningEngine(client: Client) returns (r: Result<bool, Error>)
    modifies client
    ensures var s := Daemon.Status(old(client.daemon));
            && client.daemon == s.state
            && r == if s.result.Err? then Err(s.result.error) else Ok(IsRunning(s.result.value))
  {
    var status := client.Status();
    match status
    case Err(e) => r := Err(e);
    case Ok(state) => r := Ok(state != Disconnected && state != Failed);
  }

  method CheckRunningConflict(client: Client, active: ProfileRef, desired: ProfileRef) returns (r: Result<(), Error>)
    modifies client
    ensures Reply(client.daemon, r) == Sel.CheckRunningConflict(old(client.daemon), active, desired)
  {
    var a, w := active.Trim(), desired.Trim();
    if a.Empty() || a.MatchesDesired(w) {
      return Ok(());
    }
    var running := RunningEngine(client);
    match running
    case Err(e) => r := Err(e);
    case Ok(isRunning) => r := if isRunning then Err(Conflict) else Ok(());
  }

  method PrepareActivation(client: Client, desired: ProfileRef) returns (r: Result<ProfileRef, Error>)
    modifies client
    ensures Reply(client.daemon, r) == Sel.PrepareActivation(old(client.daemon), desired)
  {
    var w := desired.Trim();
    var features := client.GetFeatures();
    if features.Err? {
      return Err(features.error);
    }
    if features.value.disableProfiles {
      return Ok(NO_PROFILE);
    }
    if w.Empty() {
      return Ok(w);
    }
    var active := client.GetActiveProfile();
    if active.Err? {
      return Err(active.error);
    }
    var a := active.value.Trim();
    var check := CheckRunningConflict(client, a, w);
    if check.Err? {
      return Err(check.error);
    }
    r := Ok(Sel.FillMissing(a, w));
  }

  method MatchingProfilesByName(profiles: seq<Profile>, name: string) returns (matches: seq<Profile>)
    ensures matches == Sel.ByName(profiles, name)
  {
    var wanted := TrimSpace(name);
    matches := [];
    for i := 0 to |profiles|
      invariant matches == Sel.ByName(profiles[..i], name)
    {
      assert profiles[..i + 1][..i] == profiles[..i];
      if TrimSpace(profiles[i].name) == wanted {
        matches := matches + [profiles[i]];
      }
    }
    assert profiles[..|profiles|] == profiles;
  }

  method MatchingProfilesById(profiles: seq<Profile>, id: string) returns (matches: seq<Profile>)
    ensures matches == Sel.ById(profiles, id)
  {
    var wanted := TrimSpace(id);
    matches := [];
    for i := 0 to |profiles|
      invariant matches == Sel.ById(profiles[..i], id)
    {
      assert profiles[..i + 1][..i] == profiles[..i];
      if TrimSpace(profiles[i].id) == wanted {
        matches := matches + [profiles[i]];
      }
    }
    assert profiles[..|profiles|] == profiles;
  }

  method ResolveExistingProfile(client: Client, desired: ProfileRef) returns (r: Result<ProfileRef, Error>)
    modifies client
    ensures Reply(client.daemon, r) == Sel.ResolveExisting(old(client.daemon), desired)
  {
    var w := desired.Trim();
    if w.Handle() == "" || w.username == "" {
      return Ok(w);
    }
    var profiles := client.ListProfiles(w.username);
    if profiles.Err? {
      return Err(profiles.error);
    }
    var matches;
    if w.name != "" {
      matches := MatchingProfilesByName(profiles.value, w.name);
    } else {
      matches := MatchingProfilesById(profiles.value, w.id);
    }
    if |matches| == 0 {
      return Err(NotFound);
    }
    if |matches| == 1 {
      return Ok(Sel.FromMatch(matches[0], w.username));
    }
    r := Err(Ambiguous);
  }

  method EnsureExists(client: Client, desired: ProfileRef) returns (r: Result<ProfileRef, Error>)
    modifies client
    ensures Reply(client.daemon, r) == Sel.EnsureExists(old(client.daemon), desired)
  {
    var w := desired.Trim();
    var features := client.GetFeatures();
    if features.Err? {
      return Err(features.error);
    }
    if features.value.disableProfiles {
      return Ok(NO_PROFILE);
    }
    if w.Empty() || w.name == "" || w.username == "" {
      return Ok(w);
    }
    var existing := ResolveExistingProfile(client, w);
    if existing.Ok? || existing.error != NotFound {
      return existing;
    }
    var added := client.AddProfile(w);
    if added.Err? {
      return Err(added.error);
    }
    var created := added.value.Trim();
    if created.name == "" {
      created := created.(name := w.name);
    }
    if created.username == "" {
      created := created.(username := w.username);
    }
    r := Ok(created);
  }

  method Resolve(client: Client, desired: ProfileRef) returns (r: Result<ProfileRef, Error>)
    modifies client
    ensures Reply(client.daemon, r) == Sel.Resolve(old(client.daemon), desired)
  {
    var w := desired.Trim();
    var features := client.GetFeatures();
    if features.Err? {
      return Err(features.error);
    }
    if features.value.disableProfiles {
      return Ok(NO_PROFILE);
    }
    var active := client.GetActiveProfile();
    if active.Err? {
      return Err(active.error);
    }
    var a := active.value.Trim();
    if w.Empty() {
      return Ok(a);
    }
    var check := CheckRunningConflict(client, a, w);
    if check.Err? {
      return Err(check.error);
    }
    var prepared := Sel.FillMissing(a, w);
    if a.MatchesDesired(prepared) {
      return Ok(prepared);
    }
    var existing := ResolveExistingProfile(client, prepared);
    if existing.Err? {
      return existing;
    }
    r := Ok(Sel.FillMissing(a, existing.value));
  }
}
