/** The supervisor's whole state as one value, and each of its operations as
    a function from the state before to the state after. The class in
    `Supervisor` is proved to follow these functions step for step; the
    properties of the operations are proved about the functions in
    `LifecycleProperties`. */
module Lifecycle {
  import opened Senders
  import opened Registry

  /** What is pushed to the observers: a `clientStatusUpdate` snapshot or a
      `readyClientsForRoutine` list. */
  datatype Announcement =
    | StatusUpdate(snapshot: Snapshot)
    | ReadyList(ready: seq<ReadyInfo>)

  /** The supervisor's state. `clients` and `configured` are the registry and
      `numClientsConfigured`; `nextHandle` stands for the allocation of provider
      instances; `live` holds the handles not yet destroyed; `sessionDirs` the
      ids whose session directory exists; `observer` whether the broadcast
      channel has been attached; `log` everything announced so far. */
  datatype World = World(
    clients: Store,
    configured: nat,
    nextHandle: nat,
    live: set<Handle>,
    sessionDirs: set<nat>,
    observer: bool,
    log: seq<Announcement>)

  /** The state when the module is loaded: no record, one sender configured. */
  function Initial(): World
  {
    World(map[], 1, 0, {}, {}, false, [])
  }

  // ---------------------------------------------------------------------
  // The state invariant.

  /** The handles held by the records. */
  ghost function HeldHandles(m: Store): set<Handle>
  {
    set k | k in m && m[k].handle.Some? :: m[k].handle.value
  }

  /** No two records share a handle. */
  ghost predicate DistinctHandles(m: Store)
  {
    forall a, b :: a in m && b in m && a != b && m[a].handle.Some? && m[b].handle.Some? ==>
      m[a].handle.value != m[b].handle.value
  }

  /** Every record sits under its id with the name and directory derived from
      it; every record holds a handle (a record is only ever installed with
      its provider instance, and that field is never cleared); every handle
      was allocated before; no handle is shared; and the handles not yet
      destroyed are exactly the ones the records hold, so dropping a record
      never leaks a live provider instance. */
  ghost predicate WellFormed(w: World)
  {
    && Keyed(w.clients)
    && (forall k :: k in w.clients ==> RecordOk(k, w.clients[k], w.nextHandle))
    && DistinctHandles(w.clients)
    && w.live == HeldHandles(w.clients)
  }

  /** The record under `k` carries the name and directory derived from `k`
      and a handle allocated before `next`. */
  ghost predicate RecordOk(k: nat, c: Sender, next: nat)
  {
    c.name == ClientName(k) && c.sessionDir == SessionDir(k) && c.handle.Some? && c.handle.value < next
  }

  // ---------------------------------------------------------------------
  // Announcements.

  /** emitClientStatusUpdate: when the channel is attached, the snapshot and
      then the ready list as the registry stands at that moment. */
  function Announce(w: World, s: Snapshot): (r: World)
    ensures r == w.(log := r.log)
    ensures r.log == w.log + if w.observer then [StatusUpdate(s), ReadyList(ReadyClients(w.clients))] else []
  {
    if w.observer then w.(log := w.log + [StatusUpdate(s), ReadyList(ReadyClients(w.clients))]) else w
  }

  /** A bare `readyClientsForRoutine` emission. */
  function AnnounceReady(w: World): World
  {
    if w.observer then w.(log := w.log + [ReadyList(ReadyClients(w.clients))]) else w
  }

  /** The snapshot announced for a sender removed by a shrink. */
  function RemovedSnapshot(id: nat): Snapshot
  {
    Snapshot(id, ClientName(id), Removed, None, "")
  }

  // ---------------------------------------------------------------------
  // Provider events.

  datatype Event =
    | QrEvent(payload: string)
    | AuthenticatedEvent
    | ReadyEvent
    | AuthFailureEvent(message: string)
    | DisconnectedEvent(reason: string)
    | InitErrorEvent

  /** The status an event moves a record to. */
  function Target(e: Event): Status
  {
    match e
    case QrEvent(_) => QrCode
    case AuthenticatedEvent => Authenticated
    case ReadyEvent => Ready
    case AuthFailureEvent(_) => AuthFailed
    case DisconnectedEvent(_) => Disconnected
    case InitErrorEvent => InitError
  }

  /** The record after an event: the status changes; the QR payload is stored
      by `qr`, kept by `authenticated` and cleared by every other event. */
  function Transition(c: Sender, e: Event): Sender
  {
    match e
    case QrEvent(p) => c.(status := QrCode, qr := Some(p))
    case AuthenticatedEvent => c.(status := Authenticated)
    case ReadyEvent => c.(status := Ready, qr := None)
    case AuthFailureEvent(_) => c.(status := AuthFailed, qr := None)
    case DisconnectedEvent(_) => c.(status := Disconnected, qr := None)
    case InitErrorEvent => c.(status := InitError, qr := None)
  }

  /** An event handler: nothing happens unless the id has a record; otherwise
      the record changes and is announced, and a disconnect also removes the
      session directory. The handlers look the record up by id only. */
  function OnEvent(w: World, id: nat, e: Event): World
  {
    if id !in w.clients then w
    else
      var c := Transition(w.clients[id], e);
      var w1 := Announce(w.(clients := w.clients[id := c]), Snap(c));
      if e.DisconnectedEvent? then w1.(sessionDirs := w1.sessionDirs - {id}) else w1
  }

  // ---------------------------------------------------------------------
  // Creating a sender.

  datatype InitOutcome = InitOk | InitThrows

  /** The outcome of `initialize()` for id `i` in a resize; ids without a
      supplied outcome initialize normally. */
  function OutcomeFor(outs: seq<InitOutcome>, i: nat): InitOutcome
  {
    if 1 <= i <= |outs| then outs[i - 1] else InitOk
  }

  /** The record is left alone by a create request: it holds a handle and its
      status is one of the four functional ones. */
  predicate Keeps(m: Store, id: nat)
  {
    id in m && m[id].handle.Some? && IsFunctional(m[id].status)
  }

  /** The record installed for a new provider instance `h`. */
  function Fresh(id: nat, h: Handle): Sender
  {
    Sender(id, ClientName(id), Some(h), Initializing, None, SessionDir(id))
  }

  /** The record a create leaves behind once `initialize()` has settled. */
  function Started(id: nat, h: Handle, out: InitOutcome): Sender
  {
    if out == InitThrows then Fresh(id, h).(status := InitError) else Fresh(id, h)
  }

  /** Destroy the record's handle, if it holds one (errors are swallowed, so
      the handle counts as destroyed), and delete the entry. */
  function Discard(w: World, id: nat): World
  {
    if id !in w.clients then w
    else
      var w1 := if w.clients[id].handle.Some? then w.(live := w.live - {w.clients[id].handle.value}) else w;
      w1.(clients := w1.clients - {id})
  }

  /** Allocate a provider instance, install the fresh record and announce it. */
  function Install(w: World, id: nat): World
  {
    var h := w.nextHandle;
    var c := Fresh(id, h);
    Announce(w.(clients := w.clients[id := c], nextHandle := h + 1, live := w.live + {h}), Snap(c))
  }

  /** createAndInitializeClient: ensure the session directory; re-announce a
      record that is kept; otherwise discard whatever is there, install a fresh
      record and run `initialize()`, whose failure is handled as an event. */
  function Create(w: World, id: nat, out: InitOutcome): World
  {
    var w1 := w.(sessionDirs := w.sessionDirs + {id});
    if Keeps(w1.clients, id) then Announce(w1, Snap(w1.clients[id])) else Restart(w1, id, out)
  }

  /** The recreation path of a create: discard, install, initialize. */
  function Restart(w: World, id: nat, out: InitOutcome): World
  {
    var w1 := Install(Discard(w, id), id);
    if out == InitThrows then OnEvent(w1, id, InitErrorEvent) else w1
  }

  // ---------------------------------------------------------------------
  // Resizing the pool.

  /** One pass of the shrink loop: a record holding a handle has it destroyed,
      is announced as removed (the ready list still computed with the record
      present), is deleted and loses its session directory. A record without
      a handle is left in place. */
  function RemoveSender(w: World, i: nat): World
  {
    if i in w.clients && w.clients[i].handle.Some? then
      var w1 := Announce(w.(live := w.live - {w.clients[i].handle.value}), RemovedSnapshot(i));
      w1.(clients := w1.clients - {i}, sessionDirs := w1.sessionDirs - {i})
    else w
  }

  /** The shrink loop over ids `i..hi`, ascending. */
  function ShrinkFrom(w: World, i: nat, hi: nat): World
    decreases hi - i
  {
    if i > hi then w else ShrinkFrom(RemoveSender(w, i), i + 1, hi)
  }

  /** The creation loop over ids `i..n`, ascending, one id at a time. */
  function CreateFrom(w: World, i: nat, n: nat, outs: seq<InitOutcome>): World
    decreases n - i
  {
    if i > n then w else CreateFrom(Create(w, i, OutcomeFor(outs, i)), i + 1, n, outs)
  }

  /** initializeClients(n): shrink when `n` is below the configured count,
      ensure ids `1..n`, record `n` whatever the individual outcomes, and
      announce the ready list. */
  function Resize(w: World, n: nat, outs: seq<InitOutcome>): World
  {
    var w1 := if n < w.configured then ShrinkFrom(w, n + 1, w.configured) else w;
    var w2 := CreateFrom(w1, 1, n, outs);
    AnnounceReady(w2.(configured := n))
  }

  /** reauthenticateClient(id): discard the record whatever its state, remove
      the session directory, then create the id afresh. */
  function Reauthenticate(w: World, id: nat, out: InitOutcome): World
  {
    var w1 := Discard(w, id);
    Create(w1.(sessionDirs := w1.sessionDirs - {id}), id, out)
  }

  // ---------------------------------------------------------------------
  // The readiness poll started by a `ready` event.

  const MaxChecks: nat := 10

  /** What check `c + 1` of the poll reads, as written: `None` when the id has
      no record, because the read of `clients[id].wwebClient` then throws;
      otherwise whether the handle's ready flag is `true` (a missing handle
      reads as the text 'N/A'). `flags[c]` is the flag at check `c + 1`; a
      missing entry reads as not true. */
  function PollReadAsWritten(m: Store, id: nat, flags: seq<bool>, c: nat): Option<bool>
  {
    if id !in m then None else Some(m[id].handle.Some? && c < |flags| && flags[c])
  }

  /** What check `c + 1` reads once a missing record is treated like a
      missing handle. */
  function PollRead(m: Store, id: nat, flags: seq<bool>, c: nat): (b: bool)
    ensures PollReadAsWritten(m, id, flags, c).Some? ==> b == PollReadAsWritten(m, id, flags, c).value
    ensures id !in m ==> !b
  {
    id in m && m[id].handle.Some? && c < |flags| && flags[c]
  }

  /** The number of checks the poll makes from check `c + 1` on: it stops at
      the first check that reads `true`, and at check `MaxChecks` otherwise. */
  function PollChecks(m: Store, id: nat, flags: seq<bool>, c: nat): (n: nat)
    requires c < MaxChecks
    ensures c < n <= MaxChecks
    ensures forall j :: c <= j < n - 1 ==> !PollRead(m, id, flags, j)
    ensures n < MaxChecks ==> PollRead(m, id, flags, n - 1)
    decreases MaxChecks - c
  {
    if PollRead(m, id, flags, c) || c + 1 == MaxChecks then c + 1 else PollChecks(m, id, flags, c + 1)
  }
}
