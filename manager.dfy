/** The supervisor as the module holds it: the `clients` registry and
    `numClientsConfigured` are fields that the exported operations update in
    place. Each method is proved to move the state exactly as the matching
    function of `Lifecycle` does, so every property proved there holds of the
    class as well. */
module Supervisor {
  import opened Senders
  import opened Registry
  import opened Lifecycle
  import LifecycleProperties

  /** The reply of reauthenticateClient. */
  datatype Reply = Reply(success: bool, message: string)

  /** How the provider's `sendMessage` settles against the 60-second timer. */
  datatype ProviderOutcome =
    | Delivered
    | Rejected(reason: string)
    | TimedOut

  /** The provider call a dispatch makes. */
  datatype ProviderCall = ProviderCall(handle: Handle, chatId: string, body: string)

  /** The reply of sendMessage. */
  datatype SendResult = SendResult(success: bool, message: string)

  const TimeoutReason: string := "Tempo limite de envio de mensagem excedido."

  /** The message sendMessage reports for a sender that is not ready. */
  function NotReadyMessage(id: nat, status: Option<Status>): string
  {
    "Sender " + DecimalString(id) + " não está pronto para enviar mensagens. Status: "
      + (if status.Some? then Label(status.value) else "N/A")
  }

  /** The sender under `id` may dispatch: it has a record, holding a handle, in
      status `Pronto`. */
  predicate CanSend(m: Store, id: nat)
  {
    id in m && m[id].handle.Some? && m[id].status == Ready
  }

  class Manager {
    var clients: Store
    var configured: nat
    var nextHandle: nat
    var observer: bool
    ghost var live: set<Handle>
    ghost var sessionDirs: set<nat>
    ghost var log: seq<Announcement>

    ghost function Model(): World
      reads this
    {
      World(clients, configured, nextHandle, live, sessionDirs, observer, log)
    }

    ghost predicate Valid()
      reads this
    {
      WellFormed(Model())
    }

    /** The state when the module is loaded. */
    constructor()
      ensures Model() == Initial()
      ensures Valid()
    {
      clients := map[];
      configured := 1;
      nextHandle := 0;
      observer := false;
      live := {};
      sessionDirs := {};
      log := [];
      LifecycleProperties.InitialWellFormed();
    }

    /** init(io): attach the broadcast channel. */
    method Init()
      modifies this
      ensures Model() == old(Model()).(observer := true)
    {
      observer := true;
    }

    /** emitClientStatusUpdate. */
    method EmitClientStatusUpdate(s: Snapshot)
      modifies this
      ensures Model() == Announce(old(Model()), s)
    {
      if observer {
        log := log + [StatusUpdate(s), ReadyList(ReadyClients(clients))];
      }
    }

    /** A bare `readyClientsForRoutine` emission. */
    method EmitReadyList()
      modifies this
      ensures Model() == AnnounceReady(old(Model()))
    {
      if observer {
        log := log + [ReadyList(ReadyClients(clients))];
      }
    }

    /** The handler the provider instance of `id` runs for an event (and the
        error path of `initialize()`). */
    method HandleEvent(id: nat, e: Event)
      requires Valid()
      modifies this
      ensures Model() == OnEvent(old(Model()), id, e)
      ensures Valid()
    {
      LifecycleProperties.EventPreservesWellFormed(Model(), id, e);
      if id in clients {
        var c := Transition(clients[id], e);
        clients := clients[id := c];
        EmitClientStatusUpdate(Snap(c));
        if e.DisconnectedEvent? {
          sessionDirs := sessionDirs - {id};
        }
      }
    }

    /** Destroy the handle of the record under `id`, if any, and delete the
        entry. */
    method DiscardRecord(id: nat)
      requires Valid()
      modifies this
      ensures Model() == Discard(old(Model()), id)
      ensures Valid()
    {
      LifecycleProperties.DiscardPreserves(Model(), id);
      if id in clients {
        if clients[id].handle.Some? {
          live := live - {clients[id].handle.value};
        }
        clients := clients - {id};
      }
    }

    /** Allocate a provider instance for `id`, install the fresh record and
        announce it. */
    method InstallFresh(id: nat)
      modifies this
      ensures Model() == Install(old(Model()), id)
    {
      var h := nextHandle;
      var c := Fresh(id, h);
      clients := clients[id := c];
      nextHandle := h + 1;
      live := live + {h};
      EmitClientStatusUpdate(Snap(c));
    }

    /** createAndInitializeClient(id), with `out` the outcome of
        `initialize()`. */
    method CreateAndInitializeClient(id: nat, out: InitOutcome)
      requires Valid()
      modifies this
      ensures Model() == Create(old(Model()), id, out)
      ensures Valid()
    {
      LifecycleProperties.CreatePreservesWellFormed(Model(), id, out);
      sessionDirs := sessionDirs + {id};
      if id in clients && clients[id].handle.Some? && IsFunctional(clients[id].status) {
        EmitClientStatusUpdate(Snap(clients[id]));
      } else {
        RestartClient(id, out);
      }
    }

    /** The recreation path: destroy and delete whatever is under `id`,
        install a fresh record, and handle a failing `initialize()`. */
    method RestartClient(id: nat, out: InitOutcome)
      requires Valid()
      modifies this
      ensures Model() == Restart(old(Model()), id, out)
      ensures Valid()
    {
      ghost var w0 := Model();
      LifecycleProperties.DiscardPreserves(w0, id);
      LifecycleProperties.InstallPreserves(Discard(w0, id), id);
      DiscardRecord(id);
      InstallFresh(id);
      if out == InitThrows {
        HandleEvent(id, InitErrorEvent);
      }
    }

    /** One pass of the shrink loop of initializeClients. */
    method RemoveIfHeld(i: nat)
      requires Valid()
      modifies this
      ensures Model() == RemoveSender(old(Model()), i)
      ensures Valid()
    {
      LifecycleProperties.RemoveSenderPreserves(Model(), i);
      if i in clients && clients[i].handle.Some? {
        live := live - {clients[i].handle.value};
        EmitClientStatusUpdate(RemovedSnapshot(i));
        clients := clients - {i};
        sessionDirs := sessionDirs - {i};
      }
    }

    /** The shrink loop of initializeClients over ids `lo..hi`. */
    method ShrinkLoop(lo: nat, hi: nat)
      requires Valid()
      modifies this
      ensures Model() == ShrinkFrom(old(Model()), lo, hi)
      ensures Valid()
    {
      var i := lo;
      while i <= hi
        invariant lo <= i
        invariant ShrinkFrom(Model(), i, hi) == ShrinkFrom(old(Model()), lo, hi)
        invariant Valid()
        decreases hi + 1 - i
      {
        ghost var before := Model();
        RemoveIfHeld(i);
        assert ShrinkFrom(before, i, hi) == ShrinkFrom(Model(), i + 1, hi);
        i := i + 1;
      }
    }

    /** The creation loop of initializeClients over ids `lo..n`. */
    method CreateLoop(lo: nat, n: nat, outs: seq<InitOutcome>)
      requires Valid()
      modifies this
      ensures Model() == CreateFrom(old(Model()), lo, n, outs)
      ensures Valid()
    {
      var i := lo;
      while i <= n
        invariant lo <= i
        invariant CreateFrom(Model(), i, n, outs) == CreateFrom(old(Model()), lo, n, outs)
        invariant Valid()
        decreases n + 1 - i
      {
        ghost var before := Model();
        CreateAndInitializeClient(i, OutcomeFor(outs, i));
        assert CreateFrom(before, i, n, outs) == CreateFrom(Model(), i + 1, n, outs);
        i := i + 1;
      }
    }

    /** initializeClients(newCount), with `outs[i - 1]` the outcome of
        `initialize()` for id `i`. */
    method InitializeClients(newCount: nat, outs: seq<InitOutcome>)
      requires Valid()
      modifies this
      ensures Model() == Resize(old(Model()), newCount, outs)
      ensures Valid()
    {
      if newCount < configured {
        ShrinkLoop(newCount + 1, configured);
      }
      LifecycleProperties.ShrinkEffect(old(Model()), newCount + 1, old(configured));
      CreateLoop(1, newCount, outs);
      LifecycleProperties.ResizePreservesWellFormed(old(Model()), newCount, outs);
      configured := newCount;
      EmitReadyList();
    }

    /** reauthenticateClient(id): the record is discarded whatever its state,
        the session directory removed, and the sender created afresh. */
    method ReauthenticateClient(id: nat, out: InitOutcome) returns (r: Reply)
      requires Valid()
      modifies this
      ensures Model() == Reauthenticate(old(Model()), id, out)
      ensures r == Reply(true, "Reautenticação do Sender " + DecimalString(id) + " iniciada. Verifique o console para QR Code.")
      ensures Valid()
    {
      DiscardRecord(id);
      sessionDirs := sessionDirs - {id};
      CreateAndInitializeClient(id, out);
      r := Reply(true, "Reautenticação do Sender " + DecimalString(id) + " iniciada. Verifique o console para QR Code.");
    }

    /** The readiness poll a `ready` event starts, run to its end without other
        operations in between: check `c + 1` reads `flags[c]` through the
        current record, a missing record reading as not ready; the poll stops
        at the first check that reads `true` or after `MaxChecks` checks, and
        then announces the ready list. */
    method ReadinessPoll(id: nat, flags: seq<bool>) returns (checks: nat)
      modifies this
      ensures checks == PollChecks(old(clients), id, flags, 0)
      ensures 1 <= checks <= MaxChecks
      ensures forall j :: 0 <= j < checks - 1 ==> !PollRead(old(clients), id, flags, j)
      ensures checks < MaxChecks ==> PollRead(old(clients), id, flags, checks - 1)
      ensures Model() == AnnounceReady(old(Model()))
    {
      var checkCount := 0;
      var stopped := false;
      while !stopped
        invariant checkCount <= MaxChecks
        invariant Model() == old(Model())
        invariant !stopped ==> checkCount < MaxChecks && PollChecks(clients, id, flags, checkCount) == PollChecks(clients, id, flags, 0)
        invariant stopped ==> checkCount == PollChecks(clients, id, flags, 0)
        decreases MaxChecks - checkCount
      {
        var isReady := id in clients && clients[id].handle.Some? && checkCount < |flags| && flags[checkCount];
        checkCount := checkCount + 1;
        if isReady || checkCount >= MaxChecks {
          stopped := true;
        }
      }
      checks := checkCount;
      EmitReadyList();
    }

    /** sendMessage(id, number, body), with `outcome` how the provider call
        settles. Returns the reply and the provider call made, if any. */
    method SendMessage(id: nat, number: string, body: string, outcome: ProviderOutcome)
      returns (r: SendResult, call: Option<ProviderCall>)
      ensures !IsPhoneNumber(number) ==>
        r == SendResult(false, "Número de telefone inválido: " + number + ".")
      ensures IsPhoneNumber(number) && !CanSend(clients, id) ==>
        r == SendResult(false, NotReadyMessage(id, if id in clients then Some(clients[id].status) else None))
      ensures call.Some? <==> IsPhoneNumber(number) && CanSend(clients, id)
      ensures call.Some? ==> call.value == ProviderCall(clients[id].handle.value, number + "@c.us", body)
      ensures r.success <==> call.Some? && outcome == Delivered
      ensures r.success ==> r.message == "Mensagem enviada com sucesso para " + number + "."
      ensures call.Some? && outcome.Rejected? ==> r.message == "Falha ao enviar mensagem: " + outcome.reason
      ensures call.Some? && outcome.TimedOut? ==> r.message == "Falha ao enviar mensagem: " + TimeoutReason
    {
      if !IsPhoneNumber(number) {
        return SendResult(false, "Número de telefone inválido: " + number + "."), None;
      }
      if !(id in clients && clients[id].handle.Some? && clients[id].status == Ready) {
        var status := if id in clients then Some(clients[id].status) else None;
        return SendResult(false, NotReadyMessage(id, status)), None;
      }
      call := Some(ProviderCall(clients[id].handle.value, number + "@c.us", body));
      match outcome
      case Delivered =>
        r := SendResult(true, "Mensagem enviada com sucesso para " + number + ".");
      case Rejected(reason) =>
        r := SendResult(false, "Falha ao enviar mensagem: " + reason);
      case TimedOut =>
        r := SendResult(false, "Falha ao enviar mensagem: " + TimeoutReason);
    }
  }
}
