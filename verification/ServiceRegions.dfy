/**
The fields of the plugin service that its lifecycle mutex protects, and what each
region guarded by that mutex does to them, as functions on values.

A context is named by the number of the activation or session it was made for, and a
cancel function by the context it cancels. A region may call a cancel function, hand a
client to its caller, or put secrets into the result channel of the registered prompt;
these effects are part of its result, because they reach outside the fields.
*/
module ServiceRegions {
  import opened Wrappers
  import opened Text

  datatype ServiceState = Unknown | Init | Shutdown | Starting | Started | Stopping | Stopped

  datatype PromptKind = SetupKeyPrompt | SsoPrompt

  datatype Prompt = Prompt(activationID: nat, kind: PromptKind)

  /** The part of a NewSecrets call that the prompt handling looks at. */
  datatype Secrets = Secrets(promptActivationID: string, setupKey: string, ssoContinue: bool, ssoCancel: bool)

  datatype Fields = Fields(
    activating: bool,
    activationCancel: Option<nat>,
    monitorCancel: Option<nat>,
    client: Option<nat>,
    sessionID: nat,
    activationID: nat,
    prompt: Option<Prompt>,
    state: ServiceState)

  datatype Region = Region(
    fields: Fields,
    ok: bool,
    cancelActivation: Option<nat>,
    cancelMonitor: Option<nat>,
    taken: Option<nat>,
    delivered: Option<Secrets>)

  const INITIAL := Fields(false, None, None, None, 0, 0, None, Init)

  function Plain(fields: Fields, ok: bool): Region {
    Region(fields, ok, None, None, None, None)
  }

  function Reserve(f: Fields): Region {
    if f.activating || f.client.Some? then
      Plain(f, false)
    else
      var id := f.activationID + 1;
      Plain(f.(activationID := id, activating := true, activationCancel := Some(id), prompt := None), true)
  }

  function FinishFailed(f: Fields): Region {
    Plain(f.(activating := false, activationCancel := None, prompt := None), true)
  }

  /** Installs `client` unless the attempt's context is cancelled, and starts a session. */
  function Complete(f: Fields, cancelled: bool, client: nat): Region {
    if cancelled || !f.activating then
      Plain(f, false)
    else
      var session := f.sessionID + 1;
      Plain(f.(activating := false, activationCancel := None, prompt := None, client := Some(client),
               sessionID := session, monitorCancel := Some(session)), true)
      .(cancelMonitor := f.monitorCancel)
  }

  function SetStateForSession(f: Fields, session: nat, state: ServiceState): Region {
    if f.sessionID != session || f.client.None? then Plain(f, false) else Plain(f.(state := state), true)
  }

  function ClearSession(f: Fields, session: nat): Region {
    if f.sessionID != session then
      Plain(f, false)
    else
      Plain(f.(monitorCancel := None, client := None), true)
      .(cancelMonitor := f.monitorCancel, taken := f.client)
  }

  /** The monitor's cancel function is handed out, to be called after the mutex is released. */
  function FailSession(f: Fields, session: nat): Region {
    if f.sessionID != session || f.client.None? then
      Plain(f, false)
    else
      Plain(f.(monitorCancel := None, client := None, state := Stopped), true)
      .(cancelMonitor := f.monitorCancel, taken := f.client)
  }

  function Disconnect(f: Fields): Region {
    Plain(f.(monitorCancel := None, client := None, prompt := None,
             sessionID := f.sessionID + 1, activationID := f.activationID + 1), true)
    .(cancelActivation := f.activationCancel, cancelMonitor := f.monitorCancel, taken := f.client)
  }

  function SetFailure(f: Fields): Region {
    Plain(f.(prompt := None), true).(cancelActivation := f.activationCancel)
  }

  function RegisterPrompt(f: Fields, prompt: Prompt): Region {
    if !f.activating || prompt.activationID != f.activationID then
      Plain(f, false)
    else
      Plain(f.(prompt := Some(prompt)), true)
  }

  function ClearPrompt(f: Fields, id: nat): Region {
    if f.prompt.Some? && f.prompt.value.activationID == id then
      Plain(f.(prompt := None), true)
    else
      Plain(f, true)
  }

  function NewSecrets(f: Fields, secrets: Secrets): Region {
    if f.prompt.None? then
      Plain(f, false)
    else if secrets.promptActivationID != "" && secrets.promptActivationID != Decimal(f.prompt.value.activationID) then
      Plain(f, false)
    else match f.prompt.value.kind
      case SetupKeyPrompt =>
        Plain(f.(prompt := None), true).(delivered := Some(secrets))
      case SsoPrompt =>
        if !secrets.ssoContinue && !secrets.ssoCancel then
          Plain(f, false)
        else if secrets.ssoCancel then
          Plain(f.(prompt := None), true).(cancelActivation := f.activationCancel)
        else
          Plain(f.(prompt := None), true)
  }
}
