/**
One activation from end to end, as the activation goroutine drives the daemon: prepare the
profile, log in, update its settings, resolve it, bring the engine up on it and wait.
*/
module Activation {
  import opened Wrappers
  import opened Text
  import opened ProfileRefs
  import opened Daemon
  import opened ProfileSelection
  import ProfileClient

  datatype AuthMode = SetupKeyMode | SsoMode | OtherMode

  /**
  `profile` has no id: settings carry a display name and a user only. `hasKey` is whether they
  hold a setup key, and `answered` whether a prompt for one is answered with one in time.
  `polls` is how many status polls fit into the activation timeout, and `gateway` whether the
  connection's gateway can be told to NetworkManager.
  */
  datatype Request = Request(
    profile: ProfileRef,
    processUser: string,
    mode: AuthMode,
    interactive: bool,
    hasKey: bool,
    answered: bool,
    polls: nat,
    gateway: bool)

  /** Why a request is turned down before the daemon is even dialed. */
  function Refusal(req: Request): Option<Error> {
    if req.mode == OtherMode then Some(UnsupportedAuth)
    else if req.mode == SsoMode && !req.interactive then Some(InteractiveNeeded)
    else None
  }

  predicate LacksKey(req: Request) {
    req.mode == SetupKeyMode && !req.hasKey && !(req.interactive && req.answered)
  }

  function WithUser(req: Request): ProfileRef {
    if req.profile.name != "" && req.profile.username == "" then
      req.profile.(username := req.processUser)
    else
      req.profile
  }

  function Prepare(d: State, req: Request): Reply<ProfileRef> {
    var prepared := PrepareActivation(d, WithUser(req));
    if prepared.result.Err? then prepared else
      var existing := EnsureExists(prepared.state, prepared.result.value);
      if existing.result.Err? then existing
      else if existing.result.value.Handle() == "" then existing
      else SwitchProfile(existing.state, existing.result.value)
  }

  function Authenticate(d: State, req: Request, p: ProfileRef): Reply<()> {
    if LacksKey(req) then Reply(d, Err(MissingSetupKey)) else
      var login := Login(d, p);
      if login.result.Err? then Reply(login.state, Err(login.result.error))
      else if !login.result.value then Reply(login.state, Ok(()))
      else if !req.interactive then Reply(login.state, Err(InteractiveNeeded))
      else WaitSsoLogin(login.state)
  }

  function Update(d: State, p: ProfileRef): Reply<()> {
    var features := GetFeatures(d);
    if features.result.Err? then Reply(features.state, Err(features.result.error))
    else if features.result.value.disableUpdateSettings then Reply(features.state, Ok(()))
    else SetConfig(features.state, p)
  }

  /** Polls until the engine is connected or failed or the time is up; time passes between two polls. */
  function WaitReady(d: State, polls: nat): Reply<()>
    decreases polls
  {
    if polls == 0 then Reply(d, Err(NotReady)) else
      var status := Status(d);
      if status.result == Ok(Connected) then Reply(status.state, Ok(()))
      else if status.result == Ok(Failed) then Reply(status.state, Err(NotReady))
      else WaitReady(Pass(status.state), polls - 1)
  }

  /** Everything before the engine is touched; the outcome is the profile to bring up. */
  function Choose(d: State, req: Request): Reply<ProfileRef> {
    var p := Prepare(d, req);
    if p.result.Err? then p else
      var auth := Authenticate(p.state, req, p.result.value);
      if auth.result.Err? then Reply(auth.state, Err(auth.result.error)) else
        var update := Update(auth.state, p.result.value);
        if update.result.Err? then Reply(update.state, Err(update.result.error)) else
          Resolve(update.state, p.result.value)
  }

  /** The engine, brought up and awaited; it is brought down again when the wait fails. */
  function Start(d: State, req: Request, p: ProfileRef): Reply<ProfileRef> {
    var up := Up(d, p);
    if up.result.Err? then Reply(up.state, Err(up.result.error)) else
      var ready := WaitReady(up.state, req.polls);
      if ready.result.Err? then Reply(Down(ready.state).state, Err(ready.result.error))
      else if !req.gateway then Reply(Down(ready.state).state, Err(NotReady))
      else Reply(ready.state, Ok(p))
  }

  function Run(d: State, req: Request): Reply<ProfileRef> {
    if Refusal(req).Some? then Reply(d, Err(Refusal(req).value)) else
      var p := Choose(d, req);
      if p.result.Err? then p else Start(p.state, req, p.result.value)
  }

  // ---------- the same, as the original runs it ----------

  method PrepareDaemonProfile(client: ProfileClient.Client, req: Request) returns (r: Result<ProfileRef, Error>)
    modifies client
    ensures Reply(client.daemon, r) == Prepare(old(client.daemon), req)
  {
    var profile := req.profile;
    if profile.name != "" && profile.username == "" {
      profile := profile.(username := req.processUser);
    }
    r := ProfileClient.PrepareActivation(client, profile);
    if r.Err? {
      return;
    }
    r := ProfileClient.EnsureExists(client, r.value);
    if r.Err? || r.value.Handle() == "" {
      return;
    }
    r := client.SwitchProfile(r.value);
  }

  method WaitForReady(client: ProfileClient.Client, polls: nat) returns (r: Result<(), Error>)
    modifies client
    ensures Reply(client.daemon, r) == WaitReady(old(client.daemon), polls)
  {
    var left := polls;
    while left > 0
      invariant WaitReady(client.daemon, left) == WaitReady(old(client.daemon), polls)
    {
      var status := client.Status();
      if status == Ok(Connected) {
        return Ok(());
      }
      if status == Ok(Failed) {
        return Err(NotReady);
      }
      client.WaitForTick();
      left := left - 1;
    }
    r := Err(NotReady);
  }

  method AuthenticateDaemon(client: ProfileClient.Client, req: Request, profile: ProfileRef)
    returns (r: Result<(), Error>)
    modifies client
    ensures Reply(client.daemon, r) == Authenticate(old(client.daemon), req, profile)
  {
    if req.mode == SetupKeyMode && !req.hasKey {
      if !req.interactive {
        return Err(MissingSetupKey);
      }
      if !req.answered {
        return Err(MissingSetupKey);
      }
    }
    var login := client.Login(profile);
    if login.Err? {
      return Err(login.error);
    }
    if !login.value {
      return Ok(());
    }
    if !req.interactive {
      return Err(InteractiveNeeded);
    }
    r := client.WaitSsoLogin();
  }

  method RunActivation(client: ProfileClient.Client, req: Request) returns (r: Result<ProfileRef, Error>)
    modifies client
    ensures Reply(client.daemon, r) == Run(old(client.daemon), req)
  {
    if req.mode == OtherMode {
      return Err(UnsupportedAuth);
    }
    if req.mode == SsoMode && !req.interactive {
      return Err(InteractiveNeeded);
    }
    r := PrepareDaemonProfile(client, req);
    if r.Err? {
      return;
    }
    var profile := r.value;
    var login := AuthenticateDaemon(client, req, profile);
    if login.Err? {
      return Err(login.error);
    }
    var features := client.GetFeatures();
    if features.Err? {
      return Err(features.error);
    }
    if !features.value.disableUpdateSettings {
      var update := client.SetConfig(profile);
      if update.Err? {
        return Err(update.error);
      }
    }
    r := ProfileClient.Resolve(client, profile);
    if r.Err? {
      return;
    }
    profile := r.value;
    var up := client.Up(profile);
    if up.Err? {
      return Err(up.error);
    }
    var ready := WaitForReady(client, req.polls);
    if ready.Err? || !req.gateway {
      var _ := client.Down();
      return Err(if ready.Err? then ready.error else NotReady);
    }
    r := Ok(profile);
  }
}
