/** What the supervisor's operations guarantee, proved about the transition
    functions of `Lifecycle`. */
module LifecycleProperties {
  import opened Senders
  import opened Registry
  import opened Lifecycle

  // ---------------------------------------------------------------------
  // Handle bookkeeping under the three ways the registry changes.

  lemma HeldAfterRemove(m: Store, id: nat)
    requires DistinctHandles(m)
    ensures HeldHandles(m - {id}) == HeldHandles(m) - if id in m && m[id].handle.Some? then {m[id].handle.value} else {}
  {
    var lhs := HeldHandles(m - {id});
    var rhs := HeldHandles(m) - if id in m && m[id].handle.Some? then {m[id].handle.value} else {};
    forall h | h in rhs ensures h in lhs {
      var k :| k in m && m[k].handle.Some? && m[k].handle.value == h;
      assert k != id;
      assert k in m - {id};
    }
  }

  lemma HeldAfterInsert(m: Store, id: nat, c: Sender)
    requires id !in m
    ensures HeldHandles(m[id := c]) == HeldHandles(m) + if c.handle.Some? then {c.handle.value} else {}
  {
    var m' := m[id := c];
    var rhs := HeldHandles(m) + if c.handle.Some? then {c.handle.value} else {};
    forall h | h in rhs ensures h in HeldHandles(m') {
      if k :| k in m && m[k].handle.Some? && m[k].handle.value == h {
        assert k in m' && m'[k] == m[k];
      } else {
        assert id in m' && m'[id] == c;
      }
    }
  }

  lemma HeldAfterUpdate(m: Store, id: nat, c: Sender)
    requires id in m && c.handle == m[id].handle
    ensures HeldHandles(m[id := c]) == HeldHandles(m)
  {
    var m' := m[id := c];
    forall h | h in HeldHandles(m) ensures h in HeldHandles(m') {
      var k :| k in m && m[k].handle.Some? && m[k].handle.value == h;
      assert k in m' && m'[k].handle == m[k].handle;
    }
  }

  // ---------------------------------------------------------------------
  // Every operation keeps the state well formed.

  lemma AnnouncePreserves(w: World, s: Snapshot)
    requires WellFormed(w)
    ensures WellFormed(Announce(w, s))
  {
  }

  /** An event changes the status and payload of one record and nothing that
      the invariant constrains. */
  lemma EventPreservesWellFormed(w: World, id: nat, e: Event)
    requires WellFormed(w)
    ensures WellFormed(OnEvent(w, id, e))
  {
    if id in w.clients {
      var c := Transition(w.clients[id], e);
      HeldAfterUpdate(w.clients, id, c);
      var w0 := w.(clients := w.clients[id := c]);
      assert WellFormed(w0);
      AnnouncePreserves(w0, Snap(c));
    }
  }

  lemma DiscardPreserves(w: World, id: nat)
    requires WellFormed(w)
    ensures WellFormed(Discard(w, id))
    ensures id !in Discard(w, id).clients
    ensures Discard(w, id).nextHandle == w.nextHandle
  {
    HeldAfterRemove(w.clients, id);
  }

  lemma InstallPreserves(w: World, id: nat)
    requires WellFormed(w) && id !in w.clients
    ensures WellFormed(Install(w, id))
  {
    var h := w.nextHandle;
    var c := Fresh(id, h);
    HeldAfterInsert(w.clients, id, c);
    var w0 := w.(clients := w.clients[id := c], nextHandle := h + 1, live := w.live + {h});
    assert DistinctHandles(w0.clients);
    assert WellFormed(w0);
    AnnouncePreserves(w0, Snap(c));
  }

  lemma CreatePreservesWellFormed(w: World, id: nat, out: InitOutcome)
    requires WellFormed(w)
    ensures WellFormed(Create(w, id, out))
  {
    var w1 := w.(sessionDirs := w.sessionDirs + {id});
    assert WellFormed(w1);
    if !Keeps(w1.clients, id) {
      DiscardPreserves(w1, id);
      InstallPreserves(Discard(w1, id), id);
      EventPreservesWellFormed(Install(Discard(w1, id), id), id, InitErrorEvent);
    }
  }

  lemma RemoveSenderPreserves(w: World, i: nat)
    requires WellFormed(w)
    ensures WellFormed(RemoveSender(w, i))
  {
    if i in w.clients && w.clients[i].handle.Some? {
      HeldAfterRemove(w.clients, i);
    }
  }

  lemma {:induction false} ShrinkPreserves(w: World, i: nat, hi: nat)
    requires WellFormed(w)
    ensures WellFormed(ShrinkFrom(w, i, hi))
    decreases hi - i
  {
    if i <= hi {
      RemoveSenderPreserves(w, i);
      ShrinkPreserves(RemoveSender(w, i), i + 1, hi);
    }
  }

  lemma {:induction false} CreateFromPreserves(w: World, i: nat, n: nat, outs: seq<InitOutcome>)
    requires WellFormed(w)
    ensures WellFormed(CreateFrom(w, i, n, outs))
    decreases n - i
  {
    if i <= n {
      CreatePreservesWellFormed(w, i, OutcomeFor(outs, i));
      CreateFromPreserves(Create(w, i, OutcomeFor(outs, i)), i + 1, n, outs);
    }
  }

  lemma ResizePreservesWellFormed(w: World, n: nat, outs: seq<InitOutcome>)
    requires WellFormed(w)
    ensures WellFormed(Resize(w, n, outs))
  {
    var w1 := if n < w.configured then ShrinkFrom(w, n + 1, w.configured) else w;
    ShrinkPreserves(w, n + 1, w.configured);
    CreateFromPreserves(w1, 1, n, outs);
  }

  lemma ReauthenticatePreservesWellFormed(w: World, id: nat, out: InitOutcome)
    requires WellFormed(w)
    ensures WellFormed(Reauthenticate(w, id, out))
  {
    DiscardPreserves(w, id);
    var w1 := Discard(w, id);
    CreatePreservesWellFormed(w1.(sessionDirs := w1.sessionDirs - {id}), id, out);
  }

  /** The handle held under `id`, as a set with at most one element. */
  function HandleOf(m: Store, id: nat): set<Handle>
  {
    if id in m && m[id].handle.Some? then {m[id].handle.value} else {}
  }

  /** The next handle to be allocated is not live yet. */
  lemma NextHandleFresh(w: World)
    requires WellFormed(w)
    ensures w.nextHandle !in w.live
  {
  }

  lemma InitialWellFormed()
    ensures WellFormed(Initial())
  {
  }

  // ---------------------------------------------------------------------
  // Create: idempotent on a working sender, a clean restart otherwise.

  /** A sender that holds a handle and is in a functional status is left as it
      is: no handle is allocated or destroyed, and the same snapshot is
      announced again. */
  lemma CreateIdempotent(w: World, id: nat, out: InitOutcome)
    requires Keeps(w.clients, id)
    ensures Create(w, id, out).clients == w.clients
    ensures Create(w, id, out).nextHandle == w.nextHandle && Create(w, id, out).live == w.live
    ensures Create(w, id, out).sessionDirs == w.sessionDirs + {id}
    ensures Create(w, id, out).log
      == w.log + if w.observer then [StatusUpdate(Snap(w.clients[id])), ReadyList(ReadyClients(w.clients))] else []
  {
  }

  /** Any other sender (absent, without a handle, or in a failed status) is
      replaced by a fresh record on a newly allocated handle, in the
      initialization-error status when `initialize()` throws; the old handle
      is destroyed; no other id is touched. */
  lemma CreateRestarts(w: World, id: nat, out: InitOutcome)
    requires !Keeps(w.clients, id)
    ensures Create(w, id, out).clients == w.clients[id := Started(id, w.nextHandle, out)]
    ensures Create(w, id, out).nextHandle == w.nextHandle + 1
    ensures Create(w, id, out).live == w.live - HandleOf(w.clients, id) + {w.nextHandle}
    ensures Create(w, id, out).sessionDirs == w.sessionDirs + {id}
    ensures Create(w, id, out).configured == w.configured
  {
    var w1 := w.(sessionDirs := w.sessionDirs + {id});
    var w2 := Install(Discard(w1, id), id);
    DiscardInstall(w1, id);
    assert w2.clients == w.clients[id := Fresh(id, w.nextHandle)];
    if out == InitThrows {
      EventEffect(w2, id, InitErrorEvent);
      assert Create(w, id, out) == OnEvent(w2, id, InitErrorEvent);
    } else {
      assert Create(w, id, out) == w2;
    }
  }

  /** Discarding then installing: the record is replaced by a fresh one on the
      next handle, which becomes live while the old one is not. */
  lemma DiscardInstall(w: World, id: nat)
    ensures var r := Install(Discard(w, id), id);
      && r.clients == w.clients[id := Fresh(id, w.nextHandle)]
      && r.nextHandle == w.nextHandle + 1
      && r.live == w.live - HandleOf(w.clients, id) + {w.nextHandle}
      && r.sessionDirs == w.sessionDirs && r.configured == w.configured
  {
    DiscardFrame(w, id);
    UpdateAfterRemove(w.clients, id, Fresh(id, w.nextHandle));
  }

  /** A restart announces the fresh record as initializing and, when
      `initialize()` throws, announces it again in the initialization-error
      status, each time with the ready list as it then stands. */
  lemma CreateRestartAnnounces(w: World, id: nat, out: InitOutcome)
    requires !Keeps(w.clients, id)
    ensures var r := Create(w, id, out);
      var m1 := w.clients[id := Fresh(id, w.nextHandle)];
      r.log == w.log + if !w.observer then [] else
        [StatusUpdate(Snap(Fresh(id, w.nextHandle))), ReadyList(ReadyClients(m1))]
        + if out == InitOk then [] else [StatusUpdate(Snap(Started(id, w.nextHandle, out))), ReadyList(ReadyClients(r.clients))]
  {
    var w1 := w.(sessionDirs := w.sessionDirs + {id});
    var w2 := Discard(w1, id);
    assert w2.clients == w.clients - {id};
    assert (w.clients - {id})[id := Fresh(id, w.nextHandle)] == w.clients[id := Fresh(id, w.nextHandle)];
  }

  /** The per-id effect of a create, in the shape the resize loop needs. */
  lemma CreateEffect(w: World, id: nat, out: InitOutcome)
    ensures var r := Create(w, id, out);
      && r.configured == w.configured && r.observer == w.observer
      && r.nextHandle >= w.nextHandle
      && id in r.clients
      && (Keeps(w.clients, id) ==> r.clients == w.clients)
      && (!Keeps(w.clients, id) ==> r.clients == w.clients[id := Started(id, w.nextHandle, out)])
  {
    if Keeps(w.clients, id) {
      CreateIdempotent(w, id, out);
    } else {
      CreateRestarts(w, id, out);
    }
  }

  // ---------------------------------------------------------------------
  // Events.

  /** An event on a registered id replaces that record by its transition and
      touches no other id; an event on an id without a record changes
      nothing. */
  lemma EventEffect(w: World, id: nat, e: Event)
    ensures id !in w.clients ==> OnEvent(w, id, e) == w
    ensures id in w.clients ==> OnEvent(w, id, e).clients == w.clients[id := Transition(w.clients[id], e)]
    ensures OnEvent(w, id, e).nextHandle == w.nextHandle && OnEvent(w, id, e).live == w.live
    ensures OnEvent(w, id, e).configured == w.configured
    ensures OnEvent(w, id, e).sessionDirs == if e.DisconnectedEvent? && id in w.clients then w.sessionDirs - {id} else w.sessionDirs
  {
  }

  /** The transition sets the event's status, stores the payload of `qr`,
      keeps the payload on `authenticated`, clears it on every other event,
      and keeps the handle and the derived fields. */
  lemma TransitionEffect(c: Sender, e: Event)
    ensures var d := Transition(c, e);
      && d.status == Target(e)
      && d.id == c.id && d.name == c.name && d.handle == c.handle && d.sessionDir == c.sessionDir
      && d.qr == match e
                 case QrEvent(p) => Some(p)
                 case AuthenticatedEvent => c.qr
                 case _ => None
  {
  }

  /** An event on a registered id announces the new snapshot with the ready
      list as it stands after the change. */
  lemma EventAnnounces(w: World, id: nat, e: Event)
    requires id in w.clients
    ensures var r := OnEvent(w, id, e);
      r.log == w.log + if w.observer then [StatusUpdate(Snap(r.clients[id])), ReadyList(ReadyClients(r.clients))] else []
  {
  }

  /** After an event the sender is on the ready list exactly when the event was
      `ready`. */
  lemma EventReadiness(w: World, id: nat, e: Event)
    requires WellFormed(w) && id in w.clients
    ensures var r := OnEvent(w, id, e);
      Info(r.clients[id]) in ReadyClients(r.clients) <==> e == ReadyEvent
  {
    var r := OnEvent(w, id, e);
    EventPreservesWellFormed(w, id, e);
    ReadyClientsExact(r.clients);
  }

  // ---------------------------------------------------------------------
  // Shrinking.

  /** The registry after the shrink loop over `lo..hi`: the records there that
      hold a handle are gone, everything else stays. */
  function Shrunk(m: Store, lo: nat, hi: nat): Store
  {
    map k | k in m && (k < lo || hi < k || m[k].handle.None?) :: m[k]
  }

  lemma ShrunkStep(m: Store, lo: nat, hi: nat)
    requires lo <= hi
    ensures Shrunk(if lo in m && m[lo].handle.Some? then m - {lo} else m, lo + 1, hi) == Shrunk(m, lo, hi)
  {
  }

  lemma {:induction false} ShrinkEffect(w: World, lo: nat, hi: nat)
    ensures ShrinkFrom(w, lo, hi).clients == Shrunk(w.clients, lo, hi)
    ensures ShrinkFrom(w, lo, hi).configured == w.configured
    ensures ShrinkFrom(w, lo, hi).nextHandle == w.nextHandle
    ensures ShrinkFrom(w, lo, hi).observer == w.observer
    decreases hi - lo
  {
    if lo <= hi {
      var w1 := RemoveSender(w, lo);
      assert w1.clients == if lo in w.clients && w.clients[lo].handle.Some? then w.clients - {lo} else w.clients;
      ShrinkEffect(w1, lo + 1, hi);
      ShrunkStep(w.clients, lo, hi);
    } else {
      assert Shrunk(w.clients, lo, hi) == w.clients;
    }
  }

  /** The shrink loop over `lo..hi` never deletes an id below `lo` or above
      `hi`, nor a record without a handle, and changes no record it keeps. */
  lemma ShrinkSpares(w: World, lo: nat, hi: nat)
    ensures forall k :: k in w.clients && (k < lo || hi < k || w.clients[k].handle.None?) ==>
      k in ShrinkFrom(w, lo, hi).clients && ShrinkFrom(w, lo, hi).clients[k] == w.clients[k]
    ensures forall k :: k in ShrinkFrom(w, lo, hi).clients ==> k in w.clients && ShrinkFrom(w, lo, hi).clients[k] == w.clients[k]
  {
    ShrinkEffect(w, lo, hi);
  }

  /** The shrink loop only ever removes: records, live handles and session
      directories can only disappear, and the log only grows. */
  lemma {:induction false} ShrinkMonotone(w: World, lo: nat, hi: nat)
    ensures ShrinkFrom(w, lo, hi).clients.Keys <= w.clients.Keys
    ensures ShrinkFrom(w, lo, hi).live <= w.live
    ensures ShrinkFrom(w, lo, hi).sessionDirs <= w.sessionDirs
    ensures w.log <= ShrinkFrom(w, lo, hi).log
    decreases hi - lo
  {
    if lo <= hi {
      ShrinkMonotone(RemoveSender(w, lo), lo + 1, hi);
    }
  }

  /** Sender `k` of `before` has been shut down in `after`: its provider
      instance is destroyed, it was announced as `Removido`, and its record
      and session directory are gone. */
  ghost predicate ShutDown(before: World, after: World, k: nat)
  {
    && k !in after.clients
    && k !in after.sessionDirs
    && HandleOf(before.clients, k) !! after.live
    && (before.observer ==> StatusUpdate(RemovedSnapshot(k)) in after.log)
  }

  /** A shut-down sender stays shut down while the shrink loop goes on. */
  lemma ShutDownStays(before: World, mid: World, k: nat, lo: nat, hi: nat)
    requires ShutDown(before, mid, k)
    ensures ShutDown(before, ShrinkFrom(mid, lo, hi), k)
  {
    ShrinkMonotone(mid, lo, hi);
    var r := ShrinkFrom(mid, lo, hi);
    if before.observer {
      assert mid.log == r.log[..|mid.log|];
      var j :| 0 <= j < |mid.log| && mid.log[j] == StatusUpdate(RemovedSnapshot(k));
      assert r.log[j] == StatusUpdate(RemovedSnapshot(k));
    }
  }

  /** Every registered id of `lo..hi` is shut down by the shrink loop. */
  lemma {:induction false} ShrinkRemoves(w: World, lo: nat, hi: nat)
    requires WellFormed(w)
    ensures forall k :: lo <= k <= hi && k in w.clients ==> ShutDown(w, ShrinkFrom(w, lo, hi), k)
    decreases hi - lo
  {
    if lo <= hi {
      var w1 := RemoveSender(w, lo);
      RemoveSenderPreserves(w, lo);
      ShrinkRemoves(w1, lo + 1, hi);
      var r := ShrinkFrom(w1, lo + 1, hi);
      assert r == ShrinkFrom(w, lo, hi);
      forall k | lo <= k <= hi && k in w.clients ensures ShutDown(w, r, k) {
        if k == lo {
          HeldAfterRemove(w.clients, lo);
          assert ShutDown(w, w1, k);
          ShutDownStays(w, w1, k, lo + 1, hi);
        } else {
          assert k in w1.clients && w1.clients[k] == w.clients[k];
          assert ShutDown(w1, r, k);
        }
      }
    }
  }

  // ---------------------------------------------------------------------
  // The creation loop.

  /** Id `k` has been through a create that started from `before`: kept if it
      was working, otherwise restarted on a handle allocated at or after
      `base`. */
  ghost predicate SettledAt(before: Store, after: Store, k: nat, base: nat, out: InitOutcome)
  {
    && k in after
    && (Keeps(before, k) ==> after[k] == before[k])
    && (!Keeps(before, k) ==>
          after[k].handle.Some? && base <= after[k].handle.value && after[k] == Started(k, after[k].handle.value, out))
  }

  /** Id `k` is as it was. */
  ghost predicate Untouched(before: Store, after: Store, k: nat)
  {
    (k in after <==> k in before) && (k in before ==> after[k] == before[k])
  }

  lemma {:induction false} CreateFromEffect(w: World, i: nat, n: nat, outs: seq<InitOutcome>)
    ensures var r := CreateFrom(w, i, n, outs);
      && r.configured == w.configured && r.observer == w.observer
      && r.nextHandle >= w.nextHandle
      && (forall k: nat :: (k < i || n < k) ==> Untouched(w.clients, r.clients, k))
      && (forall k :: i <= k <= n ==> SettledAt(w.clients, r.clients, k, w.nextHandle, OutcomeFor(outs, k)))
    decreases n - i
  {
    if i <= n {
      var out := OutcomeFor(outs, i);
      var w1 := Create(w, i, out);
      CreateEffect(w, i, out);
      CreateFromEffect(w1, i + 1, n, outs);
      var r := CreateFrom(w1, i + 1, n, outs);
      forall k: nat | k < i || n < k ensures Untouched(w.clients, r.clients, k) {
        assert Untouched(w1.clients, r.clients, k);
      }
      forall k | i <= k <= n ensures SettledAt(w.clients, r.clients, k, w.nextHandle, OutcomeFor(outs, k)) {
        if k == i {
          assert Untouched(w1.clients, r.clients, k);
        } else {
          assert SettledAt(w1.clients, r.clients, k, w1.nextHandle, OutcomeFor(outs, k));
          assert Keeps(w1.clients, k) <==> Keeps(w.clients, k);
        }
      }
    }
  }

  /** When every id of `i..n` is kept, the creation loop changes no record and
      allocates no handle. */
  lemma {:induction false} CreateFromKept(w: World, i: nat, n: nat, outs: seq<InitOutcome>)
    requires forall k :: i <= k <= n ==> Keeps(w.clients, k)
    ensures CreateFrom(w, i, n, outs).clients == w.clients
    ensures CreateFrom(w, i, n, outs).nextHandle == w.nextHandle
    ensures CreateFrom(w, i, n, outs).live == w.live
    decreases n - i
  {
    if i <= n {
      CreateIdempotent(w, i, OutcomeFor(outs, i));
      CreateFromKept(Create(w, i, OutcomeFor(outs, i)), i + 1, n, outs);
    }
  }

  /** A create destroys at most the handle under its own id, allocates only
      from `nextHandle` on, adds only its own session directory and only
      appends to the log. */
  lemma CreateFrame(w: World, id: nat, out: InitOutcome)
    ensures var r := Create(w, id, out);
      && (forall h :: h in r.live && h < w.nextHandle ==> h in w.live)
      && r.sessionDirs == w.sessionDirs + {id}
      && w.log <= r.log
      && r.nextHandle >= w.nextHandle
  {
    if Keeps(w.clients, id) {
      CreateIdempotent(w, id, out);
    } else {
      CreateRestarts(w, id, out);
      CreateRestartAnnounces(w, id, out);
    }
  }

  /** The same for the creation loop over `i..n`. */
  lemma {:induction false} CreateFromFrame(w: World, i: nat, n: nat, outs: seq<InitOutcome>)
    ensures var r := CreateFrom(w, i, n, outs);
      && (forall h :: h in r.live && h < w.nextHandle ==> h in w.live)
      && (forall k :: k in r.sessionDirs && (k < i || n < k) ==> k in w.sessionDirs)
      && w.log <= r.log
      && r.nextHandle >= w.nextHandle
    decreases n - i
  {
    if i <= n {
      var w1 := Create(w, i, OutcomeFor(outs, i));
      CreateFrame(w, i, OutcomeFor(outs, i));
      CreateFromFrame(w1, i + 1, n, outs);
      var r := CreateFrom(w1, i + 1, n, outs);
      assert w1.log == r.log[..|w1.log|];
    }
  }

  // ---------------------------------------------------------------------
  // Resizing.

  /** initializeClients(n): afterwards the configured count is `n`; every id
      of `1..n` has been through a create (a working record is kept as it
      was, since the shrink never reaches it; any other restarts on a fresh
      handle); every id of `n+1..configured` is gone, and one that had a
      record was shut down (handle destroyed, `Removido` announced, session
      directory removed); every other id is untouched; the last announcement
      is the ready list. */
  lemma ResizeEffect(w: World, n: nat, outs: seq<InitOutcome>)
    requires WellFormed(w)
    ensures var r := Resize(w, n, outs);
      && r.configured == n
      && (forall k :: 1 <= k <= n ==> SettledAt(w.clients, r.clients, k, w.nextHandle, OutcomeFor(outs, k)))
      && (forall k :: n < k <= w.configured ==> k !in r.clients)
      && (forall k :: n < k <= w.configured && k in w.clients ==> ShutDown(w, r, k))
      && (forall k: nat :: k == 0 || (n < k && w.configured < k) ==> Untouched(w.clients, r.clients, k))
      && (r.observer ==> r.log[|r.log| - 1] == ReadyList(ReadyClients(r.clients)))
  {
    var w1 := if n < w.configured then ShrinkFrom(w, n + 1, w.configured) else w;
    assert w1 == ShrinkFrom(w, n + 1, w.configured);
    ShrinkEffect(w, n + 1, w.configured);
    ShrinkPreserves(w, n + 1, w.configured);
    CreateFromEffect(w1, 1, n, outs);
    var w2 := CreateFrom(w1, 1, n, outs);
    var r := Resize(w, n, outs);
    assert r.clients == w2.clients;
    forall k | 1 <= k <= n ensures SettledAt(w.clients, r.clients, k, w.nextHandle, OutcomeFor(outs, k)) {
      assert SettledAt(w1.clients, w2.clients, k, w1.nextHandle, OutcomeFor(outs, k));
      assert Untouched(w.clients, w1.clients, k);
    }
    forall k | n < k <= w.configured ensures k !in r.clients {
      assert Untouched(w1.clients, w2.clients, k);
    }
    ResizeShutsDown(w, n, outs);
    forall k: nat | k == 0 || (n < k && w.configured < k) ensures Untouched(w.clients, r.clients, k) {
      assert Untouched(w1.clients, w2.clients, k);
      assert Untouched(w.clients, w1.clients, k);
    }
  }

  /** The shut-down part of `ResizeEffect`. */
  lemma ResizeShutsDown(w: World, n: nat, outs: seq<InitOutcome>)
    requires WellFormed(w)
    ensures forall k :: n < k <= w.configured && k in w.clients ==> ShutDown(w, Resize(w, n, outs), k)
  {
    var w1 := ShrinkFrom(w, n + 1, w.configured);
    assert w1 == if n < w.configured then ShrinkFrom(w, n + 1, w.configured) else w;
    ShrinkRemoves(w, n + 1, w.configured);
    ShrinkEffect(w, n + 1, w.configured);
    ShrinkPreserves(w, n + 1, w.configured);
    CreateFromEffect(w1, 1, n, outs);
    CreateFromFrame(w1, 1, n, outs);
    var w2 := CreateFrom(w1, 1, n, outs);
    var r := Resize(w, n, outs);
    assert r == AnnounceReady(w2.(configured := n));
    assert r.clients == w2.clients && r.live == w2.live && r.sessionDirs == w2.sessionDirs;
    assert w2.log <= r.log;
    forall k | n < k <= w.configured && k in w.clients ensures ShutDown(w, r, k) {
      assert ShutDown(w, w1, k);
      assert Untouched(w1.clients, w2.clients, k);
      assert w.clients[k].handle.value < w1.nextHandle;
      if w.observer {
        var j :| 0 <= j < |w1.log| && w1.log[j] == StatusUpdate(RemovedSnapshot(k));
        assert w1.log == w2.log[..|w1.log|];
        assert w2.log == r.log[..|w2.log|];
        assert r.log[j] == StatusUpdate(RemovedSnapshot(k));
      }
    }
  }

  /** Calling initializeClients(n) again right after a call with the same `n`
      in which every `initialize()` returned changes no record and allocates
      or destroys no provider instance: every sender of `1..n` is then
      working and is kept. */
  lemma ResizeTwiceStable(w: World, n: nat, o1: seq<InitOutcome>, o2: seq<InitOutcome>)
    requires WellFormed(w)
    requires forall k :: 1 <= k <= n ==> OutcomeFor(o1, k) == InitOk
    ensures var r1 := Resize(w, n, o1);
      var r2 := Resize(r1, n, o2);
      && r2.clients == r1.clients && r2.nextHandle == r1.nextHandle && r2.live == r1.live
      && r2.configured == n
  {
    var r1 := Resize(w, n, o1);
    ResizeEffect(w, n, o1);
    forall k | 1 <= k <= n ensures Keeps(r1.clients, k) {
      assert SettledAt(w.clients, r1.clients, k, w.nextHandle, OutcomeFor(o1, k));
    }
    CreateFromKept(r1, 1, n, o2);
  }

  // ---------------------------------------------------------------------
  // Reauthentication.

  /** reauthenticateClient(id) always restarts the sender, even a working one:
      the old handle is destroyed, a fresh record on a new handle takes its
      place, the session directory exists again, and no other id and not the
      configured count are touched. */
  lemma ReauthenticateEffect(w: World, id: nat, out: InitOutcome)
    requires WellFormed(w)
    ensures var r := Reauthenticate(w, id, out);
      && r.clients == w.clients[id := Started(id, w.nextHandle, out)]
      && r.nextHandle == w.nextHandle + 1
      && r.live == w.live - HandleOf(w.clients, id) + {w.nextHandle}
      && w.nextHandle !in w.live
      && r.sessionDirs == w.sessionDirs + {id}
      && r.configured == w.configured
  {
    var w1 := Discard(w, id);
    DiscardPreserves(w, id);
    DiscardFrame(w, id);
    var w2 := w1.(sessionDirs := w1.sessionDirs - {id});
    ReauthenticateIsCreate(w, id, out);
    NextHandleFresh(w);
    assert WellFormed(w2) && !Keeps(w2.clients, id);
    CreateRestarts(w2, id, out);
    UpdateAfterRemove(w.clients, id, Started(id, w.nextHandle, out));
  }

  lemma ReauthenticateIsCreate(w: World, id: nat, out: InitOutcome)
    ensures Reauthenticate(w, id, out) == Create(Discard(w, id).(sessionDirs := Discard(w, id).sessionDirs - {id}), id, out)
  {
  }

  lemma UpdateAfterRemove(m: Store, id: nat, c: Sender)
    ensures (m - {id})[id := c] == m[id := c]
  {
  }

  /** What a discard leaves: the entry gone, its handle no longer live. */
  lemma DiscardFrame(w: World, id: nat)
    ensures Discard(w, id).clients == w.clients - {id}
    ensures Discard(w, id).live == w.live - HandleOf(w.clients, id)
    ensures Discard(w, id).nextHandle == w.nextHandle && Discard(w, id).configured == w.configured
    ensures Discard(w, id).sessionDirs == w.sessionDirs
  {
  }

  // ---------------------------------------------------------------------
  // The readiness poll.

  /** A poll still running for a sender that a shrink has just removed reads
      a record that is no longer there: as written, that check throws. */
  lemma PollReadThrowsAfterShrink(w: World, n: nat, outs: seq<InitOutcome>, i: nat, flags: seq<bool>, c: nat)
    requires WellFormed(w)
    requires n < i <= w.configured && i in w.clients && w.clients[i].handle.Some?
    ensures PollReadAsWritten(Resize(w, n, outs).clients, i, flags, c) == None
  {
    ResizeEffect(w, n, outs);
  }

  /** With no record under the id, the corrected poll reads not-ready at
      every check, runs to the last check and then announces the ready list. */
  lemma PollRunsOutWithoutRecord(m: Store, id: nat, flags: seq<bool>)
    requires id !in m
    ensures forall c: nat :: c < MaxChecks ==> PollChecks(m, id, flags, c) == MaxChecks
  {
    forall c: nat | c < MaxChecks ensures PollChecks(m, id, flags, c) == MaxChecks {
      var n := PollChecks(m, id, flags, c);
      assert !PollRead(m, id, flags, n - 1);
    }
  }

  /** The same, on a concrete run from an empty pool (the state at load time,
      say): two senders, the second becomes ready (its poll starts), then the
      pool is resized to one sender; the next check of that poll throws as
      written, where the corrected poll reads not-ready at every remaining
      check and runs out. */
  lemma PollAfterShrinkScenario(w: World, flags: seq<bool>)
    requires WellFormed(w) && w.clients == map[]
    ensures var w0 := Resize(w, 2, []);
      var w1 := OnEvent(w0, 2, ReadyEvent);
      var w2 := Resize(w1, 1, []);
      && 2 in w1.clients && w1.clients[2].status == Ready
      && PollReadAsWritten(w2.clients, 2, flags, 0) == None
      && forall c: nat :: c < MaxChecks ==> PollChecks(w2.clients, 2, flags, c) == MaxChecks
  {
    var w0 := Resize(w, 2, []);
    ScenarioStart(w);
    var w1 := OnEvent(w0, 2, ReadyEvent);
    EventEffect(w0, 2, ReadyEvent);
    EventPreservesWellFormed(w0, 2, ReadyEvent);
    var w2 := Resize(w1, 1, []);
    PollReadThrowsAfterShrink(w1, 1, [], 2, flags, 0);
    PollRunsOutWithoutRecord(w2.clients, 2, flags);
  }

  /** Sizing an empty pool to two senders leaves sender 2 registered with a
      handle and records the count. */
  lemma ScenarioStart(w: World)
    requires WellFormed(w) && w.clients == map[]
    ensures var r := Resize(w, 2, []);
      && WellFormed(r) && r.configured == 2 && 2 in r.clients
  {
    ResizeEffect(w, 2, []);
    ResizePreservesWellFormed(w, 2, []);
    assert SettledAt(w.clients, Resize(w, 2, []).clients, 2, w.nextHandle, OutcomeFor([], 2));
  }
}
