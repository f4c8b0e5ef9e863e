/**
The NetBird daemon as the plugin sees it: a list of profiles per user, one active profile
and one engine. A request may fail: lost, without effect, or unacknowledged, with its
effect and an error all the same; `faults` says which of the coming requests do. Replies
otherwise depend on the state alone: no other program talks to this daemon.
*/
module Daemon {
  import opened Wrappers
  import opened Text
  import opened ProfileRefs

  datatype Profile = Profile(id: string, name: string)

  datatype Features = Features(disableProfiles: bool, disableUpdateSettings: bool)

  /** The daemon states that status replies are mapped to. */
  datatype EngineState = UnknownState | Disconnected | Connecting | Connected | Failed

  datatype Fault = NoFault | Lost | Unacknowledged

  /** The requests that change the daemon, as they are issued. */
  datatype Write =
    | Added(profile: ProfileRef)
    | Switched(profile: ProfileRef)
    | LoggedIn(profile: ProfileRef)
    | Configured(profile: ProfileRef)
    | BroughtUp(profile: ProfileRef)
    | BroughtDown

  /** A changing request as it was issued, and whether the daemon answered it with success. */
  datatype Issued = Issued(write: Write, acknowledged: bool)

  datatype Error =
    | RequestFailed
    | NoSuchProfile
    | LoginRejected
    | NotReady
    | Conflict
    | NotFound
    | Ambiguous
    | UnsupportedAuth
    | InteractiveNeeded
    | MissingSetupKey

  /**
  What does not change about a daemon: how it answers to logins, and what its engine goes
  through once it is brought up, one state after the other as time passes; the last one stays.
  */
  datatype Habits = Habits(course: seq<EngineState>, acceptsLogin: bool, needsSso: bool, acceptsSso: bool)

  /** `ahead` is what the engine still has ahead of it. */
  datatype State = State(
    features: Features,
    issuesIds: bool,
    nextId: nat,
    profiles: map<string, seq<Profile>>,
    active: ProfileRef,
    engine: EngineState,
    ahead: seq<EngineState>,
    engineProfile: Option<ProfileRef>,
    habits: Habits,
    writes: seq<Issued>,
    faults: seq<Fault>)

  datatype Reply<+T> = Reply(state: State, result: Result<T, Error>)

  // ---------- the daemon's own behaviour ----------

  function ProfilesOf(d: State, username: string): seq<Profile> {
    if username in d.profiles then d.profiles[username] else []
  }

  predicate HasId(p: Profile, handle: string) {
    p.id == handle
  }

  predicate HasIdPrefix(p: Profile, handle: string) {
    handle <= p.id
  }

  predicate HasName(p: Profile, handle: string) {
    p.name == handle
  }

  /** The profiles, in order, that satisfy `f`. */
  function Select(ps: seq<Profile>, f: Profile -> bool): seq<Profile> {
    if ps == [] then []
    else if f(ps[|ps| - 1]) then Select(ps[..|ps| - 1], f) + [ps[|ps| - 1]]
    else Select(ps[..|ps| - 1], f)
  }

  /** A handle names a profile by its exact id, by a unique prefix of it, or by a unique display name. */
  function Find(ps: seq<Profile>, handle: string): Option<Profile> {
    var byId := Select(ps, p => HasId(p, handle));
    var byPrefix := Select(ps, p => HasIdPrefix(p, handle));
    var byName := Select(ps, p => HasName(p, handle));
    if |byId| >= 1 then Some(byId[0])
    else if |byPrefix| == 1 then Some(byPrefix[0])
    else if |byName| == 1 then Some(byName[0])
    else None
  }

  predicate IsRunning(e: EngineState) {
    e != Disconnected && e != Failed
  }

  // ---------- requests ----------

  function NextFault(d: State): Fault {
    if d.faults == [] then NoFault else d.faults[0]
  }

  function Consume(d: State): State {
    if d.faults == [] then d else d.(faults := d.faults[1..])
  }

  function Read<T>(d: State, answer: T): Reply<T> {
    Reply(Consume(d), if NextFault(d) == NoFault then Ok(answer) else Err(RequestFailed))
  }

  /** A changing request: it is recorded as issued; `effect` is the state if it arrives, `result` its answer. */
  function Change<T>(d: State, write: Write, effect: State, result: Result<T, Error>): Reply<T> {
    var issued := Issued(write, NextFault(d) == NoFault && result.Ok?);
    var after := Consume(d).(writes := d.writes + [issued]);
    match NextFault(d)
    case Lost => Reply(after, Err(RequestFailed))
    case Unacknowledged => Reply(effect.(writes := after.writes, faults := after.faults), Err(RequestFailed))
    case NoFault => Reply(effect.(writes := after.writes, faults := after.faults), result)
  }

  function GetFeatures(d: State): Reply<Features> {
    Read(d, d.features)
  }

  function GetActiveProfile(d: State): Reply<ProfileRef> {
    Read(d, d.active)
  }

  function ListProfiles(d: State, username: string): Reply<seq<Profile>> {
    Read(d, ProfilesOf(d, username))
  }

  function Status(d: State): Reply<EngineState> {
    Read(d, d.engine)
  }

  /** A daemon that issues ids answers with a new one; the reference keeps the id it came with otherwise. */
  function AddProfile(d: State, p: ProfileRef): Reply<ProfileRef> {
    var id := if d.issuesIds then Decimal(d.nextId) else "";
    var effect := d.(nextId := d.nextId + 1,
                     profiles := d.profiles[p.username := ProfilesOf(d, p.username) + [Profile(id, p.name)]]);
    Change(d, Added(p), effect, Ok(if id != "" then p.(id := id) else p))
  }

  function SwitchProfile(d: State, p: ProfileRef): Reply<ProfileRef> {
    if p.Empty() then Reply(d, Ok(p)) else
      var found := Find(ProfilesOf(d, p.username), p.Handle());
      match found
      case None => Change(d, Switched(p), d, Err(NoSuchProfile))
      case Some(f) =>
        Change(d, Switched(p), d.(active := ProfileRef(f.id, f.name, p.username)),
            Ok(if f.id != "" then p.(id := f.id) else p))
  }

  /** The answer is whether a single sign-on has to follow. */
  function Login(d: State, p: ProfileRef): Reply<bool> {
    Change(d, LoggedIn(p), d, if d.habits.acceptsLogin then Ok(d.habits.needsSso) else Err(LoginRejected))
  }

  function WaitSsoLogin(d: State): Reply<()> {
    Reply(Consume(d),
          if NextFault(d) != NoFault then Err(RequestFailed)
          else if d.habits.acceptsSso then Ok(())
          else Err(LoginRejected))
  }

  function SetConfig(d: State, p: ProfileRef): Reply<()> {
    Change(d, Configured(p), d, Ok(()))
  }

  /** The state of an engine on `course` after `k` spells of time. */
  function CourseAt(course: seq<EngineState>, k: nat): EngineState {
    if course == [] then UnknownState else if k < |course| then course[k] else course[|course| - 1]
  }

  function Started(d: State): State {
    d.(engine := CourseAt(d.habits.course, 0), ahead := if d.habits.course == [] then [] else d.habits.course[1..])
  }

  /** Time passes until the next poll. */
  function Pass(d: State): State {
    if d.ahead == [] then d else d.(engine := d.ahead[0], ahead := d.ahead[1..])
  }

  /** Brings the engine up on the profile the handle names, or on the active one when there is no handle. */
  function Up(d: State, p: ProfileRef): Reply<()> {
    if p.Handle() == "" then
      Change(d, BroughtUp(p), Started(d).(engineProfile := Some(d.active)), Ok(()))
    else
      match Find(ProfilesOf(d, p.username), p.Handle())
      case None => Change(d, BroughtUp(p), d, Err(NoSuchProfile))
      case Some(f) =>
        var ref := ProfileRef(f.id, f.name, p.username);
        Change(d, BroughtUp(p), Started(d).(active := ref, engineProfile := Some(ref)), Ok(()))
  }

  function Down(d: State): Reply<()> {
    Change(d, BroughtDown, d.(engine := Disconnected, ahead := [], engineProfile := None), Ok(()))
  }

  // ---------- facts about the daemon ----------

  lemma {:induction false} SelectMembers(ps: seq<Profile>, f: Profile -> bool)
    ensures forall p :: p in Select(ps, f) <==> p in ps && f(p)
    ensures |Select(ps, f)| <= |ps|
  {
    if ps != [] {
      SelectMembers(ps[..|ps| - 1], f);
      assert ps == ps[..|ps| - 1] + [ps[|ps| - 1]];
    }
  }

  /** Exactly one profile is selected when it satisfies `f` and no other position does. */
  lemma {:induction false} SelectUnique(ps: seq<Profile>, f: Profile -> bool, k: nat)
    requires k < |ps| && f(ps[k])
    requires forall i :: 0 <= i < |ps| && i != k ==> !f(ps[i])
    ensures Select(ps, f) == [ps[k]]
  {
    var last := |ps| - 1;
    if k == last {
      SelectNone(ps[..last], f);
    } else {
      SelectUnique(ps[..last], f, k);
    }
  }

  lemma {:induction false} SelectNone(ps: seq<Profile>, f: Profile -> bool)
    requires forall i :: 0 <= i < |ps| ==> !f(ps[i])
    ensures Select(ps, f) == []
  {
    if ps != [] {
      SelectNone(ps[..|ps| - 1], f);
    }
  }

  /** A selection of exactly one profile comes from exactly one position. */
  lemma {:induction false} SelectSingle(ps: seq<Profile>, f: Profile -> bool) returns (k: nat)
    requires |Select(ps, f)| == 1
    ensures k < |ps| && ps[k] == Select(ps, f)[0] && f(ps[k])
    ensures forall i :: 0 <= i < |ps| && i != k ==> !f(ps[i])
  {
    var last := |ps| - 1;
    if f(ps[last]) {
      k := last;
      SelectMembers(ps[..last], f);
      forall i | 0 <= i < last ensures !f(ps[i]) {
        assert ps[..last][i] in ps[..last];
      }
    } else {
      k := SelectSingle(ps[..last], f);
      forall i | 0 <= i < |ps| && i != k ensures !f(ps[i]) {
        assert i < last ==> ps[..last][i] == ps[i];
      }
    }
  }
}
