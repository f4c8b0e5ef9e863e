/**
The plugin service object. Every method here is one region that the original runs while
it holds its lifecycle mutex, so none of them can be interrupted by another; each is
proved equal to the region function of the same purpose in `ServiceRegions`.
*/
module Service {
  import opened Wrappers
  import opened Text
  import opened ServiceRegions

  /** A cancellable context, named by the activation or session it belongs to. */
  class Context {
    const id: nat
    var cancelled: bool

    constructor (id: nat)
      ensures this.id == id && !cancelled
    {
      this.id := id;
      cancelled := false;
    }

    method Cancel()
      modifies this
      ensures cancelled
    {
      cancelled := true;
    }
  }

  class Client {
    const id: nat

    constructor (id: nat)
      ensures this.id == id
    {
      this.id := id;
    }
  }

  /** A registered prompt; `slot` is the buffered channel of capacity one. */
  class ActivationPrompt {
    const activationID: nat
    const kind: PromptKind
    var slot: Option<Secrets>

    constructor (activationID: nat, kind: PromptKind)
      ensures this.activationID == activationID && this.kind == kind && slot == None
    {
      this.activationID := activationID;
      this.kind := kind;
      slot := None;
    }

    /** A send that gives up when the channel is full. */
    method TrySend(secrets: Secrets)
      modifies this
      ensures slot == if old(slot).None? then Some(secrets) else old(slot)
    {
      if slot.None? {
        slot := Some(secrets);
      }
    }
  }

  function IdOf(c: Context?): Option<nat> {
    if c == null then None else Some(c.id)
  }

  /** A region that names `cancelled` has cancelled `c` if it is the one named, and left it alone otherwise. */
  twostate predicate Cancelled(c: Context?, cancelled: Option<nat>)
    reads c
  {
    c != null ==> c.cancelled == (old(c.cancelled) || cancelled == Some(c.id))
  }

  class Service {
    var state: ServiceState
    var activating: bool
    var activationCancel: Context?
    var monitorCancel: Context?
    var client: Client?
    var sessionID: nat
    var activationID: nat
    var prompt: ActivationPrompt?

    constructor ()
      ensures Valid() && View() == INITIAL
    {
      state := Init;
      activating := false;
      activationCancel := null;
      monitorCancel := null;
      client := null;
      sessionID := 0;
      activationID := 0;
      prompt := null;
    }

    ghost function View(): Fields
      reads this
    {
      Fields(
        activating,
        IdOf(activationCancel),
        IdOf(monitorCancel),
        if client == null then None else Some(client.id),
        sessionID,
        activationID,
        if prompt == null then None else Some(Prompt(prompt.activationID, prompt.kind)),
        state)
    }

    /** Contexts that may be cancelled here: the attempt's and the monitor's. */
    ghost function Contexts(): set<object>
      reads this
    {
      (if activationCancel == null then {} else {activationCancel}) +
      (if monitorCancel == null then {} else {monitorCancel})
    }

    /** An attempt's context is never a monitor's. */
    ghost predicate Valid()
      reads this
    {
      activationCancel != null ==> activationCancel != monitorCancel
    }

    method ReserveActivation() returns (ctx: Context?)
      requires Valid()
      modifies this
      ensures Valid()
      ensures View() == Reserve(old(View())).fields
      ensures ctx != null <==> Reserve(old(View())).ok
      ensures ctx != null ==> fresh(ctx) && !ctx.cancelled && ctx == activationCancel && ctx.id == activationID
    {
      ctx := null;
      if activating || client != null {
        return;
      }
      activationID := activationID + 1;
      ctx := new Context(activationID);
      activating := true;
      activationCancel := ctx;
      prompt := null;
    }

    method FinishFailedActivation()
      requires Valid()
      modifies this
      ensures Valid()
      ensures View() == FinishFailed(old(View())).fields
    {
      activating := false;
      activationCancel := null;
      prompt := null;
    }

    /** On success the monitor's new context is returned through `monitorCancel`. */
    method CompleteActivation(ctx: Context, newClient: Client) returns (session: nat, ok: bool)
      requires Valid()
      modifies this, Contexts()
      ensures View() == Complete(old(View()), old(ctx.cancelled), newClient.id).fields
      ensures ok == Complete(old(View()), old(ctx.cancelled), newClient.id).ok
      ensures ok ==> session == sessionID && client == newClient
      ensures ok ==> monitorCancel != null && fresh(monitorCancel) && !monitorCancel.cancelled
      ensures Valid()
      ensures Cancelled(old(activationCancel), Complete(old(View()), old(ctx.cancelled), newClient.id).cancelActivation)
      ensures Cancelled(old(monitorCancel), Complete(old(View()), old(ctx.cancelled), newClient.id).cancelMonitor)
    {
      if ctx.cancelled || !activating {
        return 0, false;
      }
      activating := false;
      activationCancel := null;
      prompt := null;
      client := newClient;
      sessionID := sessionID + 1;
      StartMonitor(sessionID);
      return sessionID, true;
    }

    method StartMonitor(id: nat)
      modifies this`monitorCancel, monitorCancel
      ensures monitorCancel != null && fresh(monitorCancel) && monitorCancel.id == id && !monitorCancel.cancelled
      ensures old(monitorCancel) != null ==> old(monitorCancel).cancelled
    {
      if monitorCancel != null {
        monitorCancel.Cancel();
      }
      monitorCancel := new Context(id);
    }

    method SetStateForActiveSession(session: nat, newState: ServiceState) returns (ok: bool)
      modifies this`state
      ensures View() == SetStateForSession(old(View()), session, newState).fields
      ensures ok == SetStateForSession(old(View()), session, newState).ok
    {
      if sessionID != session || client == null {
        return false;
      }
      state := newState;
      return true;
    }

    /** The locked part of clearActiveSession; the caller closes the client it gets. */
    method ClearActiveSession(session: nat) returns (taken: Client?)
      requires Valid()
      modifies this, Contexts()
      ensures View() == ClearSession(old(View()), session).fields
      ensures taken == if old(sessionID) == session then old(client) else null
      ensures Valid()
      ensures Cancelled(old(activationCancel), ClearSession(old(View()), session).cancelActivation)
      ensures Cancelled(old(monitorCancel), ClearSession(old(View()), session).cancelMonitor)
    {
      taken := null;
      if sessionID == session {
        if monitorCancel != null {
          monitorCancel.Cancel();
          monitorCancel := null;
        }
        taken := client;
        client := null;
      }
    }

    /** The locked part of failActiveSessionAfterStatusThreshold. */
    method FailActiveSession(session: nat) returns (ok: bool, taken: Client?, cancel: Context?)
      requires Valid()
      modifies this
      ensures Valid()
      ensures View() == FailSession(old(View()), session).fields
      ensures ok == FailSession(old(View()), session).ok
      ensures ok ==> taken == old(client) && cancel == old(monitorCancel)
      ensures !ok ==> taken == null && cancel == null
    {
      if sessionID != session || client == null {
        return false, null, null;
      }
      cancel := monitorCancel;
      monitorCancel := null;
      taken := client;
      client := null;
      state := Stopped;
      ok := true;
    }

    /** The locked part of Disconnect; the caller owns the client it gets. */
    method DisconnectLocked() returns (taken: Client?)
      requires Valid()
      modifies this, Contexts()
      ensures View() == Disconnect(old(View())).fields
      ensures taken == old(client)
      ensures Valid()
      ensures Cancelled(old(activationCancel), Disconnect(old(View())).cancelActivation)
      ensures Cancelled(old(monitorCancel), Disconnect(old(View())).cancelMonitor)
      ensures activationCancel == old(activationCancel)
    {
      if activationCancel != null {
        activationCancel.Cancel();
      }
      if monitorCancel != null {
        monitorCancel.Cancel();
        monitorCancel := null;
      }
      taken := client;
      client := null;
      prompt := null;
      sessionID := sessionID + 1;
      activationID := activationID + 1;
    }

    method SetFailureLocked()
      requires Valid()
      modifies this, Contexts()
      ensures View() == SetFailure(old(View())).fields
      ensures Valid()
      ensures Cancelled(old(activationCancel), SetFailure(old(View())).cancelActivation)
      ensures Cancelled(old(monitorCancel), SetFailure(old(View())).cancelMonitor)
    {
      if activationCancel != null {
        activationCancel.Cancel();
      }
      prompt := null;
    }

    method RegisterActivationPrompt(p: ActivationPrompt) returns (ok: bool)
      modifies this`prompt
      ensures View() == RegisterPrompt(old(View()), Prompt(p.activationID, p.kind)).fields
      ensures ok == RegisterPrompt(old(View()), Prompt(p.activationID, p.kind)).ok
      ensures ok ==> prompt == p
    {
      if !activating || p.activationID != activationID {
        return false;
      }
      prompt := p;
      return true;
    }

    method ClearPromptForActivation(id: nat)
      modifies this`prompt
      ensures View() == ClearPrompt(old(View()), id).fields
    {
      if prompt != null && prompt.activationID == id {
        prompt := null;
      }
    }

    /** NewSecrets, with the branch on the prompt's kind that it makes under the same lock. */
    method NewSecretsLocked(secrets: Secrets)
      requires Valid()
      modifies this, Contexts(), prompt
      ensures View() == NewSecrets(old(View()), secrets).fields
      ensures Valid()
      ensures Cancelled(old(activationCancel), NewSecrets(old(View()), secrets).cancelActivation)
      ensures Cancelled(old(monitorCancel), NewSecrets(old(View()), secrets).cancelMonitor)
      ensures old(prompt) != null ==>
                old(prompt).slot == if old(prompt.slot).None? then NewSecrets(old(View()), secrets).delivered
                    else old(prompt.slot)
    {
      if prompt == null {
        return;
      }
      if secrets.promptActivationID != "" && secrets.promptActivationID != Decimal(prompt.activationID) {
        return;
      }
      match prompt.kind
      case SetupKeyPrompt =>
        var p := prompt;
        prompt := null;
        p.TrySend(secrets);
      case SsoPrompt =>
        if !secrets.ssoContinue && !secrets.ssoCancel {
          return;
        }
        prompt := null;
        if secrets.ssoCancel && activationCancel != null {
          activationCancel.Cancel();
        }
    }
  }
}
