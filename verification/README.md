# Verified model of the NetBird NetworkManager plugin

This project models the parts of the NetBird plugin for NetworkManager in which
concurrency, repeated requests or text formats make correctness hard to see, and proves
their main guarantees with Dafny 4.11. `dafny verify dfyconfig.toml` checks everything.

## What is modelled

**The activation and session lifecycle** (`ServiceRegions`, `Service`, `Protocol`,
`Invariant`, `Effects`, `Lifecycle`, `Exactness`, `AttemptRuns`, `MonitorRounds`,
`ServiceStates`, `CallRuns`, `CallRounds`). D-Bus calls, one goroutine per
accepted connect and one monitor goroutine per session run concurrently over the fields
under `lifecycleMu`.
`ServiceRegions` gives each region under that mutex as a function on the fields; the class
`Service.Service` has one method per region, which updates the fields in place and is
proved equal to its function. `Protocol` is the whole system: every region is one atomic
step, and every daemon call, close, cancel, emitted signal and unguarded state write is
one step of its own. The scheduler and the daemon's answers belong to the action, so a run
is any sequence of actions. `Invariant` proves one inductive invariant, `Effects` bounds
what one action can change, and `Lifecycle` states the guarantees for whole runs.
`Exactness` says for each field, context and count which actions change it, and that no other
does. `AttemptRuns`, `MonitorRounds` and `CallRounds` tell the way of an attempt, of a monitor
between two polls and of a Disconnect call through any run: which steps it has taken, in which
order, and where a failure turns it. `ServiceStates` says who writes the service's state and when
it stays stopped, and `CallRuns` when a Disconnect call brings the engine down.

**The polling loops** (`StatusLoops`, `MonitorRuns`): where the session monitor stops, also
as a goroutine among all others, and which poll decides the wait for the daemon.

**Profile selection and one activation from end to end** (`ProfileRefs`, `Daemon`,
`ProfileSelection`, `ProfileClient`, `ProfileProperties`, `ProfileLookup`, `Activation`,
`ActivationProperties`, `ActivationWrites`). The daemon is a state with profiles per user, an active profile
and an engine; any request may be lost, or take effect without being acknowledged. It gives
every profile an id without blanks around it that it will not issue again, or it knows no
ids at all; the listed ids and names are otherwise arbitrary, and the ids it issues are
consecutive decimal numbers. Its engine, once brought up, goes through any course of states
as time passes between status polls. One activation runs at a time, which the slot
guarantees, and the Down of a Disconnect call is taken to fall between two of them; that it
can fall into the next one, and when, is the subject of `CallRuns`. The methods drive a
client object and are proved equal to functions on the daemon's state, called the
specification below; the properties are then proved of these functions. The state records the
changing requests in the order in which they were issued, and whether each was acknowledged;
`ActivationWrites` says what an activation adds to that record.

**The texts exchanged with the authentication dialog** (`Lines`, `VpnDetails`,
`VpnDetailsTheorems`, `VpnDetailsErrors`, `VpnDetailsReader`, `Keyfile`, `PromptHints`): the line protocol with
its parser object, the key file with its escapes, and the hints of a prompt. In the line
protocol, the key file and the editor a string is a sequence of bytes, one character a byte.
Where Go looks at blanks or letters, in profiles, hints, settings and `EditorToPlugin`, it
is a sequence of Unicode characters; of the editor only the length limit of an interface
name tells the two apart.

**Settings** (`Ordering`, `Settings`, `SettingsMeaning`, `Permissions`, `EditorText`,
`Editor`, `EditorProperties`, `EditorMeaning`, `EditorTables`, `EditorToPlugin`): the nested maps that are
flattened in spite of Go's random iteration order, the user a connection is restricted to,
the connection editor that loads and saves a VPN setting in place, and the way of a saved
item from the editor into the plugin.

## What the proofs found

- `profile.Resolve` keeps a requested display name and user name, but a requested id if and
  only if the active profile satisfies the request, or the request lacks a display name or a
  user, or the one listed profile of that name has the id
  (`ProfileProperties.ResolveKeepsIdExactly`; `RequestedIdMayChange` gives a request for
  which it does not).
- Repeating `profile.EnsureExists` never adds a second profile, but it gives the same
  reference if and only if the profile was already listed, or the daemon issues ids, or no
  id was requested (`ProfileProperties.EnsureExistsIdempotent`): a daemon without ids is
  given credit for the requested id once, and lists the profile without it afterwards
  (`RequestedIdIsReturnedOnce` is such a request).
- A line survives the transport to the dialog's parser if and only if it has no NUL, is at
  most 512 KiB long and does not end in a carriage return
  (`VpnDetailsReader.LineSurvivesExactly`).
- Opening and storing a connection in the editor keeps the loaded fields if and only if no
  secret is blank and no setup key is stored with single sign-on
  (`EditorProperties.StoringKeepsFieldsExactly`; `UnusedSetupKeyIsDropped` is such a
  connection).
- A Disconnect call brings the engine down outside the mutex, so it can hit a later session:
  only if it still owed its Down when that session's attempt brought its client up
  (`CallRuns.LateDownWasOwed`), and `CallRuns.LateDownHappens` is a run in which it does.
- A failed activation that found the engine stopped leaves it running if and only if Up took
  effect, its answer, or the Down that follows, was lost, and the engine runs by then
  (`ActivationProperties.EngineStrandedExactly`; `EngineCanBeStranded` gives a daemon for
  each): the service issues no Down after an error from Up.
- `State` need not stay `Stopped` after `Disconnect` returns. A service as `Disconnect`
  leaves it, stopped, without a client and with any attempt in flight cancelled, is bound to
  stay so until the next Connect or Disconnect call if and only if no attempt is between the
  reservation of its slot and its first write, no monitor has a status poll in flight or its
  answer still to write, and no other call is about to write `Stopping`
  (`ServiceStates.LeavesExactlyIfPending` and `StaysStopped`;
  `DisconnectMayBeOverwritten` is a run of five steps in which `Starting` is written after
  `Disconnect` has returned).

## Model

| member | source | states |
|---|---|---|
| Service.Service.ReserveActivation | internal/nmplugin/service.go:597-612 | the slot is given out, with a fresh uncancelled context and a new activation id, exactly when there is neither an attempt nor a client; nothing changes otherwise |
| Service.Service.FinishFailedActivation | internal/nmplugin/service.go:614-620 | frees the slot and drops the prompt, and touches no other field |
| Service.Service.CompleteActivation | internal/nmplugin/service.go:622-639 | installs the client under a new session with a fresh monitor context, unless the attempt's context is cancelled or the slot was lost, in which case nothing changes |
| Service.Service.StartMonitor | internal/nmplugin/service.go:657-664 | the monitor before is cancelled, the new one has a fresh live context |
| Service.Service.SetStateForActiveSession | internal/nmplugin/service.go:641-655 | writes the state only for the installed session, and says whether it did |
| Service.Service.ClearActiveSession | internal/nmplugin/service.go:747-759 | hands out the client, and cancels the monitor, only of the named session |
| Service.Service.FailActiveSession | internal/nmplugin/service.go:804-821 | the named session's client and monitor cancel function leave the service together and the state becomes stopped, or nothing changes |
| Service.Service.DisconnectLocked | internal/nmplugin/service.go:185-200 | cancels exactly the attempt and monitor in flight, hands out the client, drops the prompt and starts new session and activation ids, leaving the slot to its attempt |
| Service.Service.SetFailureLocked | internal/nmplugin/service.go:252-257 | cancels exactly the attempt in flight and drops the prompt |
| Service.Service.RegisterActivationPrompt | internal/nmplugin/prompts.go:87-96 | a prompt is registered only for the current activation while the slot is held |
| Service.Service.ClearPromptForActivation | internal/nmplugin/prompts.go:98-104 | removes the prompt of the named activation and no other |
| Service.Service.NewSecretsLocked | internal/nmplugin/service.go:159-176 | secrets for another activation id change nothing; a setup key goes into the prompt's one-slot channel; an SSO cancel cancels the attempt; whatever is accepted retires the prompt |
| Invariant.StepKeeps | internal/nmplugin/service.go:182-838 | every action of every call, attempt and monitor keeps the invariant over the slot, the session, the prompt, every attempt, monitor and call, and every client's owner and counts |
| Invariant.ReachableInv | internal/nmplugin/service.go:597-639 | the invariant holds in every state of every run |
| Lifecycle.SlotAndSession | internal/nmplugin/service.go:186-200 | in every reachable state: no client while activating; one live attempt exactly while activating, whose cancel function is the stored one; a monitor cancel function exactly while a client is installed, under the current session id and with that session's client; an attempt that is live under an old id is cancelled |
| Lifecycle.OwnerIsPlace | internal/nmplugin/service.go:415-439 | whose variables refer to a client to be closed agrees with the one place recorded for it |
| Lifecycle.ClientsConserved | internal/nmplugin/service.go:194-210 | every client has exactly one owner until it is closed, and is closed at most once |
| Lifecycle.QuiescentClientsClosed | internal/nmplugin/service.go:355-360 | when no call, attempt or retired monitor is in flight, every client but the installed one was closed exactly once |
| Lifecycle.UpDownBalance | internal/nmplugin/service.go:423-438 | at most one Up and one Down per client; a closed client had as many Downs as Ups if its attempt failed, exactly one if Disconnect took it, none if its monitor retired it |
| Lifecycle.DownBeforeClose | internal/nmplugin/service.go:204-210 | a closed client is never brought up or down again |
| Lifecycle.OnlyTheSlotHolderBringsUp | internal/nmplugin/service.go:391-395 | every Up is the slot holder's, on the client it dialed |
| Lifecycle.AttemptsProgress | internal/nmplugin/service.go:330-439 | an attempt can always go on, and every step brings it nearer to its end, so no attempt loops |
| Lifecycle.AttemptsAge | internal/nmplugin/service.go:415-439 | an attempt never gets the slot back and never loses a cancellation |
| Lifecycle.NoForeignUpWhileLive | internal/nmplugin/service.go:423-434 | between any two points at which an attempt holds the slot, no other attempt's client is brought up |
| Lifecycle.FailedAttemptDownsWhileLive | internal/nmplugin/service.go:423-438 | the Down of a failed attempt comes while it still holds the slot, once, on the client it brought up |
| Lifecycle.DisconnectBars | internal/nmplugin/service.go:186-200 | right after Disconnect's region, every attempt reserved before is cancelled, and client, prompt and session are none of theirs |
| Lifecycle.BarStays | internal/nmplugin/service.go:597-655 | no action lifts that bar |
| Lifecycle.NoResurrection | internal/nmplugin/service.go:182-200 | at every later point of a run, whatever is installed or prompted belongs to an attempt reserved after the Disconnect, and no earlier attempt can install, prompt or write its session as started |
| Lifecycle.SetFailureDooms | internal/nmplugin/service.go:249-258 | after SetFailure, the client of the attempt in flight is never installed, whatever happens later |
| ServiceStates.WritesAreAll | internal/nmplugin/service.go:641-782 | the state changes only by the writes named there, each with its guard if it has one |
| ServiceStates.StaysStopped | internal/nmplugin/service.go:182-221 | a service that is stopped, with no client and no write of another state pending, stays so in every run until the next Connect or Disconnect call |
| ServiceStates.LeavesExactlyIfPending | internal/nmplugin/service.go:728-741 | without such a call, stopped can be left if and only if a write, a poll or a call is pending |
| ServiceStates.DisconnectMayBeOverwritten | internal/nmplugin/service.go:298-304 | a run in which Starting is written after Disconnect has returned |
| CallRuns.LateDownWasOwed | internal/nmplugin/service.go:182-221 | a Disconnect call made before a client was brought up brings the engine down after that only if it still owed its Down at that moment |
| CallRuns.LateDownHappens | internal/nmplugin/service.go:200-206 | a run in which a Disconnect call brings the engine down while a session is installed whose client was not even dialed when the call was made |
| Lifecycle.MonitorsTakeOwnClient | internal/nmplugin/service.go:747-766 | a monitor removes a client from the service only if its own session is the installed one |
| Lifecycle.MonitorsCloseOwnClient | internal/nmplugin/service.go:760-765 | a monitor closes only its own session's client, which it took itself |
| Lifecycle.SessionsHaveTheirOwnClients | internal/nmplugin/service.go:622-639 | no two sessions of a run share a client |
| Lifecycle.MonitorDiscipline | internal/nmplugin/service.go:666-745 | a monitor with a live context belongs to the installed session or is retiring it; it signals at most one failure, and one for lost polls only after taking its own session's client |
| Lifecycle.PromptBelongsToLiveAttempt | internal/nmplugin/prompts.go:87-96 | a registered prompt is the live attempt's, under the current id, with its channel empty |
| Lifecycle.DeliveryNeverDropped | internal/nmplugin/prompts.go:30-38 | secrets that answer a setup key prompt always reach its attempt: the channel is never full |
| Lifecycle.DeliveryIsExact | internal/nmplugin/prompts.go:30-66 | secrets enter an attempt's channel only in answer to its own prompt, and leave it only to the attempt |
| Lifecycle.KeyComesFromOwnPrompt | internal/nmplugin/prompts.go:49-72 | every key an attempt received in a run was sent, while its prompt was registered, with its id or with none |
| Lifecycle.AnswerForAnotherAttemptIsIgnored | internal/nmplugin/service.go:168-172 | an answer with the decimal id of an attempt other than the prompting one changes nothing |
| Lifecycle.SsoCancelHitsPrompter | internal/nmplugin/prompts.go:39-46 | an SSO cancel cancels the prompting attempt and no other |
| Lifecycle.CleanupSparesOtherPrompts | internal/nmplugin/service.go:421-422 | an attempt's cleanup never takes another attempt's prompt |
| Exactness.FieldsChangeExactly | internal/nmplugin/service.go:182-838 | the client, the slot, both ids and the prompt each change by the actions named for them, always, and by no other |
| Exactness.ConnectAdds | internal/nmplugin/service.go:298-314 | an accepted Connect adds one fresh attempt under the next id and stores its cancel function; a refused one changes nothing |
| Exactness.AttemptsCancelledExactly | internal/nmplugin/service.go:185-200 | the context of an attempt becomes cancelled by a Disconnect or SetFailure while it holds the slot, by a cancel marker that answers its own prompt, by its own last cancel, and by nothing else |
| Exactness.MonitorsCancelledExactly | internal/nmplugin/service.go:657-664 | the context of a monitor becomes cancelled by a Disconnect, by the next session, by its own clearing or failing of its session, and by nothing else |
| Exactness.ClientsCountedExactly | internal/nmplugin/service.go:391-438 | a client is brought up, brought down and closed by the steps named for that, always, and by no other |
| Exactness.SsoAnswer | internal/nmplugin/prompts.go:39-46 | an SSO answer with the cancel marker cancels the prompting attempt, continuing only retires the prompt, and an answer with neither marker leaves the whole system as it was |
| Exactness.OtherAnswersIgnored | internal/nmplugin/service.go:159-176 | secrets that answer no registered prompt leave the whole system as it was |
| AttemptRuns.EveryAttemptHasAStory | internal/nmplugin/service.go:330-439 | in every run, an attempt is on a way up, having passed exactly the steps that lead there; or on the way down from the one step that refused it, with exactly what it had dialed and brought up to undo; or past every step of the way up |
| AttemptRuns.InstalledTookEveryStep | internal/nmplugin/service.go:341-412 | an attempt whose client is installed passed, in order, parsing, dialing, preparing, the key check with a prompt answered if one was needed, the login with a single sign-on awaited if one was asked for, updating, resolving, Up, the wait and the configuration |
| AttemptRuns.RefusedComesDown | internal/nmplugin/service.go:341-439 | an attempt turned back at a step takes from there on exactly the steps of the way down: it signals the failure, marks the service stopped, and brings down and closes what it brought up and dialed |
| AttemptRuns.RefusedNeverInstalled | internal/nmplugin/service.go:341-405 | after a failed step, no later state of the run has a client of that attempt installed |
| MonitorRounds.EveryPollHasItsRound | internal/nmplugin/service.go:666-745 | between two of its polls, a monitor takes the steps its answer leads to, in order and none left out, until it polls again or has ended |
| MonitorRounds.AnswerIsReported | internal/nmplugin/service.go:728-741 | a poll's answer decides the monitor's next own step, whatever happens in between: connected writes started, connecting writes starting, disconnected writes stopped without a failure signal, a reported failure is signalled once, and an unknown answer writes and signals nothing |
| MonitorRounds.FailureIsMarkedDown | internal/nmplugin/service.go:735-740 | after a reported failure, stopped is written by the step after its one signal |
| MonitorRounds.SignalsExactly | internal/nmplugin/service.go:733-829 | a monitor signals a failure at the two steps named for it, always, and at no others |
| CallRounds.EveryCallFollowsItsCourse | internal/nmplugin/service.go:202-221 | in every run, a Disconnect call has taken the first steps of its course, in order: stopping, Down and Close of the client it took, a failure signal exactly if the Down was refused, and stopped |
| CallRounds.NewCalls | internal/nmplugin/service.go:182-200 | each Disconnect makes one call, which takes the client that is installed at that moment |
| Text.DecimalInjective | internal/nmplugin/prompts.go:142-144 | comparing printed ids is comparing ids |
| Text.DecimalValue | internal/nmplugin/prompts.go:142-144 | a printed id stands for the id, without leading zeros |
| Text.TrimSpaceExactly | internal/nmplugin/settings.go:392-404 | trimming takes the white space off both ends and nothing else |
| Text.KeepCharacter | internal/nmplugin/settings.go:455-464 | of a lower-case key, the letters and digits are kept, each on its own account and in order |
| StatusLoops.MonitorLoop | internal/nmplugin/service.go:666-693 | stops at the first poll that reports the daemon gone or failed or completes three lost polls in a row, for that reason, and at no other |
| StatusLoops.TrailingErrorsMeaning | internal/nmplugin/helpers.go:34-39 | the counted run is at least n long exactly when the last n polls were lost |
| MonitorRuns.MonitorFollowsLoop | internal/nmplugin/service.go:666-707 | in every state of every run, the counter of a monitor that still watches is the trailing run of lost polls among all answers it ever polled; it is stopping exactly if the loop would have stopped there; and it never polls after a reason to stop |
| StatusLoops.WaitForReady | internal/nmplugin/service.go:544-576 | the first connected or failed answer or passed deadline settles the wait; a passed deadline reports the latest error and message |
| StatusLoops.LastErrorMeaning | internal/nmplugin/service.go:551-576 | the reported error is that of the last poll that was lost, if any was |
| StatusLoops.LastMessageMeaning | internal/nmplugin/service.go:551-576 | the reported message is that of the last poll that was answered, or empty if none was |
| ProfileRefs.MatchesIsPartialOrder | internal/netbird/daemonclient/types.go:116-127 | matching is reflexive, transitive, and antisymmetric up to surrounding blanks |
| ProfileClient.CheckRunningConflict | internal/netbird/profile/profile.go:231-246 | the daemon is asked for its status, and a conflict reported, as the specification says |
| ProfileClient.PrepareActivation | internal/netbird/profile/profile.go:35-59 | reply and daemon state are the specification's, whichever requests fail |
| ProfileClient.MatchingProfilesByName | internal/netbird/profile/profile.go:176-185 | exactly the profiles of that trimmed name, in the daemon's order |
| ProfileClient.MatchingProfilesById | internal/netbird/profile/profile.go:187-196 | exactly the profiles of that trimmed id, in the daemon's order |
| ProfileClient.ResolveExistingProfile | internal/netbird/profile/profile.go:142-174 | not found without a match, the match if there is one, ambiguous if there are more |
| ProfileClient.EnsureExists | internal/netbird/profile/profile.go:65-99 | reply and daemon state are the specification's, whichever requests fail |
| ProfileClient.Resolve | internal/netbird/profile/profile.go:107-140 | reply and daemon state are the specification's, whichever requests fail |
| ProfileProperties.FillIsActiveOrDesired | internal/netbird/profile/profile.go:206-222 | filling in gives the trimmed active profile or the trimmed request, never a mixture |
| ProfileProperties.PrepareOutcome | internal/netbird/profile/profile.go:35-59 | preparing changes nothing in the daemon, and succeeds with the active or requested profile only if no foreign profile is running |
| ProfileProperties.PrepareRefusesExactlyForeign | internal/netbird/profile/profile.go:231-246 | without failing requests, preparing is refused if and only if a foreign profile is running |
| ProfileProperties.ResolveReads | internal/netbird/profile/profile.go:107-140 | resolving changes nothing in the daemon |
| ProfileProperties.RunningProfileWins | internal/netbird/profile/profile.go:46-58 | while an engine runs under some profile, a request fails or comes out as exactly that profile |
| ProfileProperties.ResolveKeepsRequest | internal/netbird/profile/profile.go:107-140 | a resolved profile has the display name and user name that were requested |
| ProfileProperties.ResolveKeepsIdExactly | internal/netbird/profile/profile.go:107-174 | whichever requests fail, a successful resolution keeps a requested id if and only if the active profile satisfies the request, the request lacks a display name or a user, or the one listed profile of the name has that id |
| ProfileProperties.EnsureExistsEffect | internal/netbird/profile/profile.go:65-99 | the only change EnsureExists can make is one new profile of the requested name for a user who has none of it |
| ProfileProperties.EnsureExistsKeepsNoDuplicates | internal/netbird/profile/profile.go:65-99 | no user gets two profiles of one trimmed name, even if a creation is not acknowledged |
| ProfileProperties.EnsureExistsOutcome | internal/netbird/profile/profile.go:79-98 | created when missing, reused when unique, refused as ambiguous without any change |
| ProfileProperties.EnsureExistsIdempotent | internal/netbird/profile/profile.go:65-99 | asking again adds nothing, and gives the same reference if and only if the stated condition holds |
| ProfileProperties.RequestedIdIsReturnedOnce | internal/netbird/profile/profile.go:86-98 | a daemon and a request for which the second answer is not the first |
| ProfileLookup.ResolveExistingExactly | internal/netbird/profile/profile.go:142-196 | without failing requests, a lookup by name, or by id if there is no name, gives the one listed profile that fits, and says whether none or several do otherwise; without anything to look up by it gives the request |
| ProfileLookup.ResolveExactly | internal/netbird/profile/profile.go:107-140 | without failing requests, resolving gives the active profile if none is asked for or it satisfies the request, a conflict while another one runs, and otherwise what the lookup says |
| Activation.PrepareDaemonProfile | internal/nmplugin/service.go:441-470 | prepare, ensure and switch, in that order and each only after success, as the specification says |
| Activation.WaitForReady | internal/nmplugin/service.go:544-576 | polls, and lets time pass, until the engine is connected or failed or the time is up, as the specification says |
| Activation.AuthenticateDaemon | internal/nmplugin/service.go:490-542 | a setup key is demanded or prompted for before the login, and a single sign-on, if the daemon asks for one, awaited after it, only in an interactive activation |
| Activation.RunActivation | internal/nmplugin/service.go:341-413 | the whole daemon side of an activation is the specification's, whichever requests fail, from the refusal of unusable modes to the Down of the failure path |
| ActivationProperties.ForeignSessionUntouched | internal/nmplugin/service.go:441-459 | with an engine running under another profile, the activation fails, issues no changing request, and leaves the daemon as it was |
| ActivationProperties.RunKeepsNoDuplicates | internal/nmplugin/service.go:355-413 | an activation never leaves a user with two profiles of one name |
| ActivationProperties.NoDuplicatesEver | internal/netbird/profile/profile.go:65-99 | neither does any sequence of activations, and of Downs and time between them, with any requests failing |
| ActivationProperties.RunKeepsWellFormed | internal/nmplugin/service.go:355-429 | whichever requests fail, an activation leaves a well-formed daemon well-formed, with the same features |
| ActivationProperties.OtherIdsAreTaken | internal/netbird/profile/profile.go:198-204 | a well-formed daemon may list any id with a character that is no digit, such as existing-profile-id |
| ActivationProperties.SuccessIsOnRequestedProfile | internal/nmplugin/service.go:355-413 | a successful activation leaves the engine connected, on a listed profile of the requested display name and user, which is, blanks aside, the one returned |
| ActivationProperties.SuccessEver | internal/nmplugin/service.go:355-413 | that holds after any sequence of activations and Downs, with any requests failing |
| ActivationProperties.WaitSucceedsExactly | internal/nmplugin/service.go:544-576 | without failing requests, the wait succeeds if and only if the engine, on its course, connects within the polls there is time for and reports no failure before |
| ActivationProperties.SuccessExactly | internal/nmplugin/service.go:330-413 | when no request fails, an activation succeeds if and only if no foreign profile runs, the name is not ambiguous (and, for a daemon without ids, listed without blanks around it), the mode is usable, the setup key is there, the login and any single sign-on are accepted, and the engine, whatever it reports at first, connects in time before it reports a failure, with a usable gateway |
| ActivationProperties.WaitIsPollingLoop | internal/nmplugin/service.go:544-576 | the wait of an activation succeeds exactly if the polling loop over the same answers does |
| ActivationProperties.FailureLeavesEngine | internal/nmplugin/service.go:407-429 | whichever requests fail, a failed activation leaves the engine as it was if Up did not reach the daemon, up if Up did and its answer or the following Down was lost, and stopped otherwise |
| ActivationProperties.EngineStrandedExactly | internal/nmplugin/service.go:407-429 | a failed activation that found the engine stopped leaves it running if and only if Up took effect, its answer or the following Down was lost, and the engine runs by then |
| ActivationProperties.StrandedOnCourse | internal/nmplugin/service.go:407-429 | the state in which the engine is stranded is one of the course that Up started, within the polls that were made |
| ActivationProperties.EngineCanBeStranded | internal/nmplugin/service.go:407-429 | a daemon for each of the two ways in which that happens |
| ActivationProperties.FailureReleasesEngine | internal/nmplugin/service.go:415-429 | when no request fails, a failed activation leaves the engine as it was, or stopped if it had brought it up |
| ActivationWrites.RunFollowsPlan | internal/nmplugin/service.go:341-439 | whichever requests fail, an activation issues the requests of its plan in order: a new profile exactly if the requested one is missing, the switch to it, the login, the settings exactly if the daemon takes them, and Up. It succeeds only with all of them acknowledged and nothing after them; it fails either before the end, nothing following a request that was not acknowledged, or after an acknowledged Up, with one Down and nothing else after it. All requests name the same profile, which on a well-formed daemon is the one returned; with profiles disabled none is added or switched to |
| ActivationWrites.SwitchKeepsIdExactly | internal/nmplugin/service.go:461-470 | a switch answers with the reference it was asked for if and only if the profile its handle names has that id or none |
| ActivationWrites.SwitchMayChangeId | internal/nmplugin/service.go:461-470 | a daemon, not well-formed, on which the switch after a lookup answers with the id of another profile |
| ActivationWrites.RefusedIsSilent | internal/nmplugin/service.go:345-353 | an unknown mode, or single sign-on that is not interactive, is refused without any request |
| ActivationWrites.NoLoginWithoutKey | internal/nmplugin/service.go:500-509 | without the setup key it needs, an activation fails and issues no request beyond preparing the profile |
| VpnDetails.LastEntryWins | internal/nmauthdialog/dialog.go:319-344 | the stored value of a key is that of its last entry, and only keys with an entry are stored |
| VpnDetails.ReachableIsCoherent | internal/nmauthdialog/dialog.go:285-344 | in every reachable parser state a value implies a key and the current field follows from both, so the check for an invalid target never fires |
| VpnDetailsTheorems.BlankLinesIgnored | internal/nmauthdialog/dialog.go:233-241 | blank lines anywhere change neither the state nor the error |
| VpnDetailsTheorems.EncodingsAccepted | internal/nmauthdialog/dialog.go:167-193 | any encoding of entries with multi-line keys and values, with blank lines among it and closed in time, is read as the entries say |
| VpnDetailsTheorems.AcceptedAreEncodings | internal/nmauthdialog/dialog.go:233-344 | only such encodings of at least one entry are accepted |
| VpnDetailsTheorems.ParserIsExact | internal/nmauthdialog/dialog.go:167-344 | the parser returns given maps if and only if the lines are, within the limit, an encoding of entries that says so |
| VpnDetailsErrors.ErrorsAreExact | internal/nmauthdialog/dialog.go:167-344 | reading fails with a given error if and only if the first offending line within the limit offends in that way, judged by the line and the latest tag line before it, or the lines or the limit run out before one offends or ends them |
| VpnDetailsReader.Reader.ReadProtocolLine | internal/nmauthdialog/dialog.go:195-222 | takes one line off the stream, or reports the missing end, the length or the NUL |
| VpnDetailsReader.ProtocolParser.ContinuePrevious | internal/nmauthdialog/dialog.go:285-296 | extends the latest key or value by one line |
| VpnDetailsReader.ProtocolParser.StartKey | internal/nmauthdialog/dialog.go:298-307 | starts a key unless one is pending |
| VpnDetailsReader.ProtocolParser.SetValue | internal/nmauthdialog/dialog.go:309-317 | a value is taken only for the pending key, of the same kind, once |
| VpnDetailsReader.ProtocolParser.Flush | internal/nmauthdialog/dialog.go:319-344 | a complete pair is stored and forgotten, an incomplete one refused |
| VpnDetailsReader.ProtocolParser.ConsumeLine | internal/nmauthdialog/dialog.go:233-274 | the object after a line is the parser state the grammar theorems speak of |
| VpnDetailsReader.ReadVpnDetails | internal/nmauthdialog/dialog.go:167-193 | reading a stream is reading its lines until DONE, within the limit on lines |
| VpnDetailsReader.LineSurvivesExactly | internal/nmauthdialog/dialog.go:195-222 | a line is read back as it was written if and only if it has no NUL, fits the limit of 524288 bytes and does not end in a carriage return |
| VpnDetailsReader.StreamIsLines | internal/nmauthdialog/dialog.go:167-222 | from every parser state, a stream of such lines reads like the lines |
| VpnDetailsReader.StreamRoundTrip | internal/nmauthdialog/dialog.go:167-344 | entries written to a stream are read back as the maps in which the last entry wins |
| VpnDetailsReader.AnyStreamIsItsLines | internal/nmauthdialog/dialog.go:167-222 | from every parser state, any stream of bytes reads like its lines up to the first that is too long or has a NUL, and fails for that reason or for its end if they run out before DONE |
| VpnDetailsReader.StreamIsExact | internal/nmauthdialog/dialog.go:167-344 | for every stream of bytes, the reader returns given maps if and only if those lines are, within the limit, an encoding of entries that says so |
| Keyfile.EscapeRoundTrip | internal/nmauthdialog/dialog.go:800-829 | reading the escapes back gives the value, for every value |
| Keyfile.EscapedIsOneLine | internal/nmauthdialog/dialog.go:800-829 | an escaped value has no raw newline, carriage return or tab and no leading space |
| Keyfile.EscapeKeyfileValue | internal/nmauthdialog/dialog.go:800-829 | the writing loop produces that escaped form |
| Keyfile.WriteKeyfileUIHeader | internal/nmauthdialog/dialog.go:769-784 | appends the header and only the parts that are not empty |
| Keyfile.WriteKeyfileEntry | internal/nmauthdialog/dialog.go:786-798 | appends the group of one entry |
| Keyfile.FileRoundTrip | internal/nmauthdialog/dialog.go:769-829 | a header and any entries are read back, by a key file reader, as they were |
| PromptHints.ParseHints | internal/nmauthdialog/dialog.go:382-399 | keeps the raw hints and, for every normalized key, the value of its last hint |
| PromptHints.LastHintWins | internal/nmauthdialog/dialog.go:382-399 | the value of a normalized key is that of the last hint for it, and only keys with a hint have one |
| PromptHints.HintMeaning | internal/nmauthdialog/dialog.go:385-396 | a hint with an equals sign is a key and a value, blanks aside, and one without is a key that is true |
| PromptHints.HasSetupKey | internal/nmauthdialog/dialog.go:405-413 | found if and only if some raw hint names a setup key |
| PromptHints.SsoRoundTrip | internal/nmplugin/prompts.go:120-144 | the dialog recovers the decimal id and every field of any login response, blanks at the ends aside |
| PromptHints.SsoHintsClassify | internal/nmauthdialog/dialog.go:405-422 | SSO hints are always taken for SSO and never for a setup key prompt |
| PromptHints.SetupKeyHintsClassify | internal/nmplugin/prompts.go:113-118 | setup key hints carry the id, ask for a setup key, and are never taken for SSO |
| PromptHints.HintsNameTheActivation | internal/nmplugin/prompts.go:142-144 | two prompts name the same activation only if it is the same |
| Ordering.CollectAndSort | internal/nmplugin/settings.go:251-255 | keys collected in any order and sorted are always the same list |
| Ordering.ListingUnique | internal/nmplugin/settings.go:290-294 | a set of keys has one sorted listing |
| Ordering.LessMeaning | internal/nmplugin/settings.go:251-255 | a string comes before its continuations, and otherwise the first difference decides |
| Settings.SortedSectionSettings | internal/nmplugin/settings.go:250-278 | the entries of the matching sections, by raw section and raw key, whatever order the maps are ranged over |
| Settings.SectionNames | internal/nmplugin/settings.go:466-470 | a section goes by its short name or the name of the settings interface, in any case and with blanks around it, and by no other |
| Settings.Target.MergeScalarSetting | internal/nmplugin/settings.go:280-287 | stores the trimmed value if there is a key and the value is a string or printed as one |
| Settings.Target.MergeNormalizedStringMap | internal/nmplugin/settings.go:289-303 | stores the trimmed values in the order of the raw keys, passing over keys without letters and digits |
| Settings.FlattenConnectionSettings | internal/nmplugin/settings.go:211-248 | the result is one function of the settings, so independent of the order of iteration |
| SettingsMeaning.FlattenMeaning | internal/nmplugin/settings.go:211-248 | a name is bound exactly if some source binds it, to the value of the one binding all others of that name precede: secrets over data over vpn scalars over the interface name, then by section, key and inner key |
| SettingsMeaning.BindingsHave | internal/nmplugin/settings.go:221-245 | the lists the code goes through hold exactly the bindings of that definition |
| SettingsMeaning.BindingsOrdered | internal/nmplugin/settings.go:221-245 | and go through them in exactly the order of precedence |
| SettingsMeaning.AtMostOneWins | internal/nmplugin/settings.go:214-220 | of one name, at most one binding wins |
| SettingsMeaning.ValuesAreTrimmed | internal/nmplugin/settings.go:280-303 | every value is trimmed and every name has a letter or digit |
| Permissions.GrantsExactly | internal/nmplugin/settings.go:391-408 | a permission names a user exactly if, blanks aside, it reads user:, then a name without a colon that is that user, blanks aside, then nothing or a colon and anything |
| Permissions.ValueNamesExactly | internal/nmplugin/settings.go:364-389 | the permissions in a value are the strings of a list, the items of a list that are strings or printed as one, or the one string |
| Permissions.UsersFromStrings | internal/nmplugin/settings.go:391-408 | exactly the users some permission string names in that way |
| Permissions.PermissionUsername | internal/nmplugin/settings.go:340-362 | the user named in that way by the permissions of the connection sections if and only if they name exactly one, in any order of iteration |
| EditorText.NormalizeAuthMode | properties/nm-netbird-editor-model.c:157-185 | the in-place loop gives the normal form of the mode |
| EditorText.IsHttpUrl | properties/nm-netbird-editor-model.c:246-284 | accepts exactly blank texts and HTTP or HTTPS URLs with a host without spaces |
| EditorText.ValidInterfaceName | properties/nm-netbird-editor-model.c:286-305 | accepts exactly blank texts and names of at most 15 bytes without slash, space or control character, other than one or two dots |
| EditorText.StrippedStaysValid | properties/nm-netbird-editor-model.c:246-305 | trimming keeps a URL valid or invalid, and a valid interface name is blank or already trimmed |
| EditorMeaning.StripExactly | properties/nm-netbird-editor-model.c:100-111 | stripping takes the ASCII blanks off both ends and nothing else |
| EditorMeaning.ModeWords | properties/nm-netbird-editor-model.c:157-185 | three words, in any case and with dashes or underscores, mean the setup key, seven mean single sign-on, and any other stays as it is |
| EditorMeaning.HttpUrlExactly | properties/nm-netbird-editor-model.c:246-284 | accepted is what is blank or, stripped, a scheme http or https in any case, ://, a host that is not empty and has neither blanks nor a slash, question mark or number sign, and then nothing or one of these three and anything |
| Editor.VpnSetting.SetDataItem | properties/nm-netbird-editor-model.c:376-387 | all aliases go and the trimmed value, if any, stands under the canonical key |
| Editor.VpnSetting.SetSecretItem | properties/nm-netbird-editor-model.c:389-397 | all aliases go from secrets and data, and a value that is not blank stands verbatim under the canonical key |
| Editor.EditorValues.LoadConnection | properties/nm-netbird-editor-model.c:201-237 | the fields after loading are the specification's, also without a connection or VPN setting |
| EditorMeaning.FirstMeaning | properties/nm-netbird-editor-model.c:125-153 | the value found under a list of keys is the first that is there and not empty |
| EditorMeaning.SecretMeaning | properties/nm-netbird-editor-model.c:201-237 | a secret is looked for among the secrets, and among the data items only if no alias of it is found there |
| Editor.EditorValues.Validate | properties/nm-netbird-editor-model.c:307-328 | the first problem, in the order mode, URLs, interface name |
| EditorMeaning.ProblemMeaning | properties/nm-netbird-editor-model.c:307-328 | which of the three problems is reported, as a condition on the fields |
| Editor.EditorValues.Save | properties/nm-netbird-editor-model.c:399-436 | invalid fields change nothing at all; valid ones give the specified items in the same or a new VPN setting, and mark the connection as a VPN of this service |
| EditorProperties.LoadAfterSave | properties/nm-netbird-editor-model.c:201-237 | loading after a successful save gives the normal form of the saved fields, whatever was stored before |
| EditorProperties.NormalStaysValid | properties/nm-netbird-editor-model.c:307-328 | that normal form is valid again |
| EditorProperties.LoadedModeIsValid | properties/nm-netbird-editor-model.c:211-221 | loaded fields are never refused for their authentication mode |
| EditorProperties.OtherItemsUntouched | properties/nm-netbird-editor-model.c:358-397 | items under keys outside the alias tables are neither removed nor changed |
| EditorMeaning.FieldsUnderOwnKeys | properties/nm-netbird-editor-model.c:415-427 | after a save each plain field stands, stripped, under the first key of its own table and under no other of them, or nowhere if it is empty |
| EditorProperties.SecretsLeaveTheData | properties/nm-netbird-editor-model.c:389-434 | after a save no secret stands among the plain items, no setup key is left under SSO, and no profile name is left |
| EditorProperties.LoadAndSaveIdempotent | properties/nm-netbird-editor-model.c:399-436 | opening and storing a connection twice leaves the same items as once |
| EditorProperties.StoringKeepsFieldsExactly | properties/nm-netbird-editor-model.c:201-237 | storing an opened connection keeps its fields if and only if no secret is blank or unused |
| EditorProperties.UnusedSetupKeyIsDropped | properties/nm-netbird-editor-model.c:427-434 | a connection whose loaded setup key is not kept when it is stored |
| EditorTables.TablesAreValid | properties/nm-netbird-editor-model.c:5-68 | no key stands in two alias tables, so no field overwrites another |
| EditorToPlugin.SettingsOfCarry | internal/nmplugin/settings.go:211-248 | such are the settings NetworkManager sends: any connection section, and a vpn section with any scalars beside its tables |
| EditorToPlugin.PluginReadsSavedField | properties/nm-netbird-editor-model.c:415-427 | for any alias tables, and for any settings that hold the saved items in their vpn section, whatever else they hold, a plain field that was saved is what the flattened settings hold for it, unless another saved item reads like its key |
| EditorToPlugin.NetbirdFieldIsRead | properties/nm-netbird-editor-model.c:415-427 | for the editor's own tables, and for any settings that hold the saved items in their vpn section, whatever else they hold, the same, unless an item that was there before, under a key in none of the tables, reads like its key |
| EditorToPlugin.PluginReadsSavedSecret | internal/nmplugin/settings.go:236-245 | for any alias tables, and for any settings that hold the saved items in their vpn section, whatever else they hold, a secret that was saved is what the plugin reads, unless another saved secret reads like its key |
| EditorToPlugin.NetbirdSecretIsRead | internal/nmplugin/settings.go:236-245 | for the editor's own tables, and for any settings that hold the saved items in their vpn section, whatever else they hold, the same, unless a secret that was there before, under a key in none of the secret tables, reads like its key |

## Left out

- D-Bus export, introspection, the properties object, argument checks of the bus, and logging.
- Dialing over gRPC, address and environment parsing, starting the daemon's unit, DNS resolution and gateway metadata; whether the gateway can be told is a parameter of an activation.
- Real time: timeouts and tickers are outcomes of the step that waits for them.
- The order of StateChanged signals: a state write and its signal are one step.
- `activeProfile`, which the service writes but never reads.
- Wrap-around of the 64-bit session and activation counters: they are natural numbers.
- The daemon's own code is not part of this model: a handle names a profile by its exact id, a unique prefix of an id or a unique display name; login and settings requests do not change profiles; replies depend on the daemon's state only, which changes by requests and by time between status polls; issued ids are consecutive decimal numbers.
- Mapping of the daemon's status text to the five states: the states are the poll's outcome.
- The fields of login and settings requests, the SSO banner and the texts of error messages.
- `firstConnectionSetting` and the dialog's `firstSettingValue`, whose results may depend on Go's map order when keys collide.
- The plugin's choice among alternative names for a setting, profile names derived from uuid or id, and hostname defaults.
- The dialog's plain output of secrets without a key file, command line arguments, browser launching and notifications.
- A key file reader that skips blanks other than spaces around the equals sign, as GLib's does: the reader here follows the Desktop Entry Specification.
- Lower case of characters beyond ASCII: only those whose lower case form is an ASCII letter are mapped.
- Text that is not valid UTF-8, where strings are of Unicode characters; a null field of the editor reads as the empty string.
- D-Bus variants nested in variants, which Go prints in a notation of its own; all values printed as strings other than strings themselves are one case.
- Flags of secrets, and the GTK widgets of the editor.
- NetbirdFieldIsRead: does not say what is read when an item the editor does not know reads like the field's key, because the flattening rule in SettingsMeaning.FlattenMeaning then decides.
- NoDuplicatesEver: a Down of a Disconnect call falls between two activations, not into one, because an activation is one function on the daemon's state; a Down changes no profiles.
