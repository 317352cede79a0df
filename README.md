# Sender-pool supervisor

A Dafny model of the sender-pool supervisor of a bulk WhatsApp dispatcher.
The supervisor keeps a registry of sender records, `clients`, keyed by
integer id, and `numClientsConfigured`, the size of the pool. Each sender
record holds a provider instance (its handle), a status, a pending QR
payload and a session directory. Provider events move a sender through a
small status state machine (`Inicializando`, `QR_CODE`, `Autenticado`,
`Pronto`, `Falha na Autenticação`, `Desconectado`, `Erro de Inicialização`,
and `Removido`, which is only announced). Every change is broadcast as a
`clientStatusUpdate` snapshot followed by the `readyClientsForRoutine`
list. The exported operations are:

- `initializeClients(n)`: resize the pool.
- `createAndInitializeClient(id)`: create a sender, or keep a working one.
- `reauthenticateClient(id)`: force a fresh login.
- `getAllClientsStatus` / `getReadyClientsSafe`: read-only views.
- `sendMessage`: dispatch one message.

The project has five files:

- `senders.dfy` (module `Senders`): the record, the statuses with their
  literal strings, the names derived from an id, and the
  destination-number check `^\d{6,15}$`.
- `registry.dfy` (module `Registry`): the registry as a `map`, its
  `Object.values` order (ascending integer keys), and the two read-only
  views.
- `lifecycle.dfy` (module `Lifecycle`): the whole state as a value
  (`World`). Each operation is a function from the state before to the
  state after.
- `lifecycle_lemmas.dfy` (module `LifecycleProperties`): what the
  operations guarantee.
- `manager.dfy` (module `Supervisor`): the class `Manager`. Its fields are
  updated in place, as the module-level variables are. Each method is
  proved to move the state exactly as the matching `Lifecycle` function
  does, so the lemmas about those functions hold of the class.

Some things outside the process appear in the model as plain values:

- A provider instance is a token `Handle` drawn from a counter.
- The ghost set `live` holds the handles not yet destroyed. The invariant
  `WellFormed` requires every record to hold a handle of its own, allocated
  before the counter's current value, with the name and session directory
  derived from its id. It also requires `live` to equal the set of handles
  the records hold, so no operation leaks a live provider instance.
- Session directories are a ghost set of ids.
- The broadcast channel is a ghost log of announcements. It grows only
  after `init` has attached an observer.
- Provider outcomes are parameters. Each `initialize()` call either
  returns or throws. The poll gets the `isReady` flag seen at each
  check. A send is delivered, rejected with a reason, or times out.

Some consequences of the code that the model keeps:

- The readiness poll started by the `ready` handler is never cancelled.
  It runs until a check reads `true` or ten checks have been made, even
  after the sender has left `Pronto`. Once the record has been deleted,
  its checks throw (see Findings).
- The ids in use need not be `1..numClientsConfigured`:
  `reauthenticateClient` creates a record for any id it is given, and the
  shrink step of `initializeClients` never visits ids above the old count.
- A create keeps a record only when it is working (`Inicializando`,
  `QR_CODE`, `Autenticado` or `Pronto`, with a provider instance). A second
  `initializeClients(n)` therefore restarts every sender of `1..n` left in
  `Erro de Inicialização`, `Falha na Autenticação` or `Desconectado`. After
  `initializeClients(3)` and then `initializeClients(1)`, ids 2 and 3 are
  removed and id 1 is recreated unless it is working.

## Model

| member | source | states |
|---|---|---|
| Senders.DecimalString | whatsappClientManager.js:83-84 | the `${id}` rendering used in names and paths is a non-empty string of digits without a leading zero |
| Senders.DecimalRoundTrip | whatsappClientManager.js:83-84 | reading the rendering of an id back as a number gives the id |
| Senders.ClientNameInjective | whatsappClientManager.js:83 | distinct ids get distinct display names `WPP_Client_<id>` |
| Senders.SessionDirInjective | whatsappClientManager.js:84 | distinct ids get distinct session directories `sessions/session-<id>` |
| Registry.SortedIdsExact | whatsappClientManager.js:38 | the `Object.values` order lists each id of the registry once, strictly ascending |
| Registry.ValuesExact | whatsappClientManager.js:38 | `Object.values(clients)` holds exactly the records of the registry, one per id |
| Registry.AllStatusesExact | whatsappClientManager.js:37-46 | getAllClientsStatus has one snapshot per record, and a snapshot is listed exactly when it is the snapshot of the record under its id |
| Registry.OnlyReadyExact | whatsappClientManager.js:53-68 | the filter keeps exactly the `Pronto` records and no others |
| Registry.ReadyClientsExact | whatsappClientManager.js:50-78 | getReadyClientsSafe lists a record's `{id, name, status}` exactly when the record is `Pronto`; a handle is not required |
| Registry.ReadyClientsIncreasing | whatsappClientManager.js:52-78 | the ready list is in strictly ascending id order |
| Registry.ReadyIsFilterOfAll | whatsappClientManager.js:37-78 | the ready list is the `Pronto` part of the status list, in the same order, projected to `{id, name, status}` |
| Lifecycle.Announce | whatsappClientManager.js:11-28 | an emission appends the snapshot and then the ready list of that moment when an observer is attached, and nothing otherwise; only the log changes |
| Lifecycle.PollRead | whatsappClientManager.js:155-157 | the corrected check agrees with the code whenever the code's read does not throw, and reads not-ready when the record is missing |
| Lifecycle.PollChecks | whatsappClientManager.js:148-174 | the poll makes between 1 and 10 checks, every check before the last reads not-ready, and a poll that stops early stopped on a ready check |
| LifecycleProperties.InitialWellFormed | whatsappClientManager.js:7-8 | the state at load time, no records and one sender configured, satisfies the invariant |
| LifecycleProperties.EventPreservesWellFormed | whatsappClientManager.js:130-211 | an event handler keeps the invariant |
| LifecycleProperties.NextHandleFresh | whatsappClientManager.js:120-128 | under the invariant, the provider instance about to be created is not one of the live ones |
| LifecycleProperties.CreatePreservesWellFormed | whatsappClientManager.js:82-232 | createAndInitializeClient keeps the invariant: the old handle is destroyed whenever its record is replaced |
| LifecycleProperties.ResizePreservesWellFormed | whatsappClientManager.js:235-270 | initializeClients keeps the invariant |
| LifecycleProperties.ReauthenticatePreservesWellFormed | whatsappClientManager.js:273-300 | reauthenticateClient keeps the invariant |
| LifecycleProperties.CreateIdempotent | whatsappClientManager.js:90-95 | a record with a handle in a functional status is left unchanged, no handle is allocated or destroyed, and its snapshot is announced again |
| LifecycleProperties.CreateRestarts | whatsappClientManager.js:97-231 | any other record is replaced by a fresh `Inicializando` record on a newly allocated handle (`Erro de Inicialização` when `initialize()` throws); the old handle is destroyed; no other id changes |
| LifecycleProperties.CreateRestartAnnounces | whatsappClientManager.js:120-231 | a restart announces the fresh record, then the error record when `initialize()` throws, each with the ready list of that moment |
| LifecycleProperties.EventEffect | whatsappClientManager.js:130-211 | an event changes only the record under its id, and nothing when there is none; a disconnect also removes the session directory |
| LifecycleProperties.TransitionEffect | whatsappClientManager.js:130-200 | each event sets its status; `qr` stores the payload, `authenticated` keeps it, and the others clear it; handle, name and directory are kept |
| LifecycleProperties.EventAnnounces | whatsappClientManager.js:135-201 | an event on a registered id announces the new snapshot with the ready list after the change |
| LifecycleProperties.EventReadiness | whatsappClientManager.js:139-146 | after an event, the sender is on the ready list exactly when the event was `ready` |
| LifecycleProperties.ShrinkEffect | whatsappClientManager.js:239-257 | the shrink loop deletes exactly the records in its range that hold a handle (under the invariant, every record in its range), and changes neither the count, the handle counter nor the observer |
| LifecycleProperties.ShrinkMonotone | whatsappClientManager.js:239-257 | the shrink loop only removes: records, live handles and session directories can only disappear, and announcements are only appended |
| LifecycleProperties.ShrinkRemoves | whatsappClientManager.js:239-257 | every registered id of the loop's range is shut down: its provider instance destroyed (243-247), `Removido` announced (248), its record deleted (249) and its session directory removed (250-254) |
| LifecycleProperties.ShrinkSpares | whatsappClientManager.js:239-257 | the shrink loop never deletes an id outside its range or a record without a handle, and changes no record it keeps |
| LifecycleProperties.CreateFromEffect | whatsappClientManager.js:260-262 | the creation loop settles every id of its range (kept if working, otherwise restarted) and touches no other id |
| LifecycleProperties.CreateFrame | whatsappClientManager.js:82-232 | a create destroys handles but never revives one, adds the id's session directory and nothing else, only appends announcements, and never moves the handle counter back |
| LifecycleProperties.CreateFromFrame | whatsappClientManager.js:260-262 | the same for the creation loop: no handle allocated before it is revived, no session directory outside its range appears |
| LifecycleProperties.CreateFromKept | whatsappClientManager.js:260-262 | when every id of the range is working, the creation loop changes no record and allocates no handle |
| LifecycleProperties.ResizeEffect | whatsappClientManager.js:235-270 | after initializeClients(n): the count is `n` whatever the `initialize()` outcomes; ids `1..n` are settled (kept when working, otherwise restarted on a fresh handle) and never deleted; every id of `n+1..old count` is gone, and one that had a record was shut down (handle destroyed, `Removido` announced, session directory removed); other ids are untouched; the last announcement is the ready list |
| LifecycleProperties.ResizeTwiceStable | whatsappClientManager.js:235-270 | repeating initializeClients(n) after a call in which every `initialize()` returned changes no record and no handle |
| LifecycleProperties.ReauthenticateEffect | whatsappClientManager.js:273-300 | reauthentication always restarts the sender, even a working one: old handle destroyed, fresh record on a new handle, session directory present, count and other ids unchanged |
| LifecycleProperties.PollReadThrowsAfterShrink | whatsappClientManager.js:155 | as written, a poll check for an id that a shrink has removed throws |
| LifecycleProperties.PollRunsOutWithoutRecord | whatsappClientManager.js:148-174 | with no record under the id, the corrected poll reads not-ready at every check and always runs to the tenth |
| LifecycleProperties.PollAfterShrinkScenario | whatsappClientManager.js:139-174 | run from any empty pool: two senders, sender 2 becomes ready, resize to one; the next check of sender 2's poll throws as written, and the corrected poll runs to its tenth check from any point |
| Supervisor.Manager.constructor | whatsappClientManager.js:6-8 | the initial state is `Initial()` and satisfies the invariant |
| Supervisor.Manager.Init | whatsappClientManager.js:31-34 | attaches the observer and changes nothing else |
| Supervisor.Manager.EmitClientStatusUpdate | whatsappClientManager.js:11-28 | the new state is `Announce` of the old state |
| Supervisor.Manager.HandleEvent | whatsappClientManager.js:130-211 | the new state is `OnEvent` of the old state; the invariant is kept |
| Supervisor.Manager.CreateAndInitializeClient | whatsappClientManager.js:82-232 | the new state is `Create` of the old state; the invariant is kept |
| Supervisor.Manager.RestartClient | whatsappClientManager.js:97-231 | the new state is `Restart` of the old state: old instance destroyed and record dropped, fresh record installed and announced, and the error status set when `initialize()` throws; the invariant is kept |
| Supervisor.Manager.ShrinkLoop | whatsappClientManager.js:239-257 | the loop's final state is `ShrinkFrom` of its initial state |
| Supervisor.Manager.CreateLoop | whatsappClientManager.js:260-262 | the loop's final state is `CreateFrom` of its initial state |
| Supervisor.Manager.InitializeClients | whatsappClientManager.js:235-270 | the new state is `Resize` of the old state; the invariant is kept |
| Supervisor.Manager.ReauthenticateClient | whatsappClientManager.js:273-300 | the new state is `Reauthenticate` of the old state; the reply is always success with the fixed message |
| Supervisor.Manager.ReadinessPoll | whatsappClientManager.js:148-174 | the corrected poll makes `PollChecks` checks, stops at the first ready read or after ten, leaves the registry unchanged, and announces the ready list once at the end |
| Supervisor.Manager.SendMessage | whatsappClientManager.js:304-337 | a malformed number fails before any lookup and makes no call; a sender that is absent, has no handle or is not `Pronto` fails with the not-ready message and makes no call; otherwise the provider is called with `<number>@c.us`, and the reply succeeds exactly when the message is delivered; rejection and timeout give the failure message with their reason; the registry is not changed |

## Left out

- The provider library (`Client`, `LocalAuth`, the browser options) is not
  part of this model. A provider instance is an opaque handle. `destroy()`
  always counts as done: the code swallows its errors and drops the
  reference either way. `initialize()` and `sendMessage` become outcome
  parameters.
- Filesystem effects are reduced to the ghost set `sessionDirs`. The
  absolute path built from the module's directory becomes the relative
  string `sessions/session-<id>`. Only the removals in the `disconnected`
  handler (whatsappClientManager.js:204-209) and in `reauthenticateClient`
  (289-294) swallow their errors; in the model every filesystem call
  succeeds.
- Lifecycle.Create: the unguarded `fs.mkdirSync` (whatsappClientManager.js:87)
  is assumed to succeed. If it throws, `createAndInitializeClient` rejects
  before it touches the registry, and an `initializeClients` that called
  it stops there.
- LifecycleProperties.ResizeEffect: the count is `n` only when every
  filesystem call succeeds. The `fs.rmSync` of the shrink
  (whatsappClientManager.js:252) is unguarded; if it throws,
  `initializeClients` stops: the remaining ids are not removed, no sender
  is created and the count update at line 264 is never reached. The model
  has no such failure path.
- The broadcast channel is only the ghost log `log`. Delivery to clients is
  out of scope.
- Timing is left out: the poll's one-second interval and the send's
  60-second race become the supplied flags and the `TimedOut` outcome.
- Async interleaving is left out. Events that fire while `initialize()` is
  awaited, and poll ticks interleaved with other operations, are separate
  calls in some sequential order in the model.
  The poll that the `ready` handler starts is the separate method
  `Supervisor.Manager.ReadinessPoll`, which runs a whole poll with nothing
  in between. The interleaved case appears only in the findings lemmas.
- The `change_state` and `message` handlers only log, and console output
  is not modelled.
- Ids are natural numbers. A string id coming from a request, and the
  coercions JavaScript applies to it, are not modelled. Likewise
  `sendMessage`'s number is a string.
- The browser front end, the routine log writer and the theme toggle are
  not part of this model.

## Findings

| source | as written | input that shows it | evidently intended | confidence | as-written member | corrected member |
|---|---|---|---|---|---|---|
| whatsappClientManager.js:155 | each poll check reads `clients[id].wwebClient` without checking that `clients[id]` still exists, and nothing stops the poll when the record goes away | `initializeClients(2)`, then sender 2 emits `ready` (its poll starts), then `initializeClients(1)` deletes sender 2 before the poll ends; the next check throws a `TypeError` inside the timer callback | a missing record reads like a missing handle (not ready), so the poll runs out and announces the ready list; as written the throw happens before `clearInterval`, so the interval keeps throwing every second, and Node by default ends the process on an uncaught exception | medium, not executed | LifecycleProperties.PollAfterShrinkScenario | Supervisor.Manager.ReadinessPoll |
