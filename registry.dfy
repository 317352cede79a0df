/** The `clients` registry as a map from id to record, and its two read-only
    projections. The registry's keys are non-negative integers, so listing its
    values yields the records in ascending id order. */
module Registry {
  import opened Senders

  type Store = map<nat, Sender>

  /** Every record sits under its own id. */
  ghost predicate Keyed(m: Store)
  {
    forall k :: k in m ==> m[k].id == k
  }

  predicate IsLeast(k: nat, s: set<nat>)
  {
    k in s && forall j | j in s :: k <= j
  }

  lemma {:induction false} LeastExists(s: set<nat>)
    requires s != {}
    ensures exists k :: IsLeast(k, s)
    decreases |s|
  {
    var x :| x in s;
    if s == {x} {
      assert IsLeast(x, s);
    } else {
      var rest := s - {x};
      LeastExists(rest);
      var y :| IsLeast(y, rest);
      var k := if x < y then x else y;
      forall j | j in s ensures k <= j {
        if j != x {
          assert j in rest;
        }
      }
      assert IsLeast(k, s);
    }
  }

  function MinId(s: set<nat>): (k: nat)
    requires s != {}
    ensures IsLeast(k, s)
  {
    LeastExists(s);
    var k :| IsLeast(k, s);
    k
  }

  ghost predicate Increasing(ids: seq<nat>)
  {
    forall i, j :: 0 <= i < j < |ids| ==> ids[i] < ids[j]
  }

  /** The ids of a set in ascending order. */
  function SortedIds(s: set<nat>): seq<nat>
    decreases |s|
  {
    if s == {} then []
    else
      var k := MinId(s);
      [k] + SortedIds(s - {k})
  }

  lemma {:induction false} SortedIdsExact(s: set<nat>)
    ensures Increasing(SortedIds(s))
    ensures |SortedIds(s)| == |s|
    ensures forall k :: k in SortedIds(s) <==> k in s
    decreases |s|
  {
    if s != {} {
      var k := MinId(s);
      var rest := SortedIds(s - {k});
      SortedIdsExact(s - {k});
      assert SortedIds(s) == [k] + rest;
      forall i | 0 <= i < |rest| ensures k < rest[i] {
        assert rest[i] in rest;
      }
    }
  }

  /** The records under the given ids, in that order; ids without a record are
      skipped. */
  function ValuesAt(m: Store, ids: seq<nat>): seq<Sender>
  {
    if ids == [] then []
    else (if ids[0] in m then [m[ids[0]]] else []) + ValuesAt(m, ids[1..])
  }

  lemma {:induction false} ValuesAtExact(m: Store, ids: seq<nat>)
    requires forall k :: k in ids ==> k in m
    ensures |ValuesAt(m, ids)| == |ids|
    ensures forall i :: 0 <= i < |ids| ==> ValuesAt(m, ids)[i] == m[ids[i]]
  {
    if ids != [] {
      ValuesAtExact(m, ids[1..]);
    }
  }

  /** `Object.values(clients)`: the records in ascending id order. */
  function Values(m: Store): seq<Sender>
  {
    ValuesAt(m, SortedIds(m.Keys))
  }

  /** The records in `Values(m)` stand at the positions of their ids in the
      ascending id list. */
  lemma ValuesAtIds(m: Store)
    ensures |Values(m)| == |SortedIds(m.Keys)| == |m|
    ensures forall i :: 0 <= i < |m| ==> SortedIds(m.Keys)[i] in m && Values(m)[i] == m[SortedIds(m.Keys)[i]]
  {
    SortedIdsExact(m.Keys);
    ValuesAtExact(m, SortedIds(m.Keys));
  }

  function SnapshotsOf(cs: seq<Sender>): seq<Snapshot>
  {
    if cs == [] then [] else [Snap(cs[0])] + SnapshotsOf(cs[1..])
  }

  lemma {:induction false} SnapshotsOfExact(cs: seq<Sender>)
    ensures |SnapshotsOf(cs)| == |cs|
    ensures forall i :: 0 <= i < |cs| ==> SnapshotsOf(cs)[i] == Snap(cs[i])
  {
    if cs != [] {
      SnapshotsOfExact(cs[1..]);
    }
  }

  function OnlyReady(cs: seq<Sender>): seq<Sender>
  {
    if cs == [] then []
    else if cs[0].status == Ready then [cs[0]] + OnlyReady(cs[1..])
    else OnlyReady(cs[1..])
  }

  function InfosOf(cs: seq<Sender>): seq<ReadyInfo>
  {
    if cs == [] then [] else [Info(cs[0])] + InfosOf(cs[1..])
  }

  lemma {:induction false} InfosOfExact(cs: seq<Sender>)
    ensures |InfosOf(cs)| == |cs|
    ensures forall i :: 0 <= i < |cs| ==> InfosOf(cs)[i] == Info(cs[i])
  {
    if cs != [] {
      InfosOfExact(cs[1..]);
    }
  }

  /** getAllClientsStatus: every record as a snapshot, in ascending id order. */
  function AllStatuses(m: Store): seq<Snapshot>
  {
    SnapshotsOf(Values(m))
  }

  /** getReadyClientsSafe: the records whose status is `Pronto`, projected to
      id, name and status, in ascending id order. The handle is not looked at. */
  function ReadyClients(m: Store): seq<ReadyInfo>
  {
    InfosOf(OnlyReady(Values(m)))
  }

  // ---------------------------------------------------------------------
  // What the projections return.

  lemma ValueOfKey(m: Store, k: nat)
    requires k in m
    ensures m[k] in Values(m)
  {
    var ids := SortedIds(m.Keys);
    SortedIdsExact(m.Keys);
    ValuesAtIds(m);
    assert k in ids;
    var i :| 0 <= i < |ids| && ids[i] == k;
    assert Values(m)[i] == m[k];
  }

  lemma KeyOfValue(m: Store, c: Sender)
    requires Keyed(m) && c in Values(m)
    ensures c.id in m && m[c.id] == c
  {
    ValuesAtIds(m);
    var i :| 0 <= i < |Values(m)| && Values(m)[i] == c;
  }

  /** `Object.values` lists each record once and nothing else. */
  lemma ValuesExact(m: Store)
    requires Keyed(m)
    ensures |Values(m)| == |m|
    ensures forall k :: k in m ==> m[k] in Values(m)
    ensures forall c :: c in Values(m) ==> c.id in m && m[c.id] == c
  {
    ValuesAtIds(m);
    forall k | k in m ensures m[k] in Values(m) {
      ValueOfKey(m, k);
    }
    forall c | c in Values(m) ensures c.id in m && m[c.id] == c {
      KeyOfValue(m, c);
    }
  }

  lemma {:induction false} OnlyReadyExact(cs: seq<Sender>)
    ensures forall c :: c in OnlyReady(cs) <==> c in cs && c.status == Ready
  {
    if cs != [] {
      OnlyReadyExact(cs[1..]);
      assert cs == [cs[0]] + cs[1..];
    }
  }

  lemma ReadyOfKey(m: Store, k: nat)
    requires k in m && m[k].status == Ready
    ensures Info(m[k]) in ReadyClients(m)
  {
    var rs := OnlyReady(Values(m));
    ValueOfKey(m, k);
    OnlyReadyExact(Values(m));
    InfosOfExact(rs);
    assert m[k] in rs;
    var i :| 0 <= i < |rs| && rs[i] == m[k];
    assert InfosOf(rs)[i] == Info(m[k]);
  }

  lemma KeyOfReady(m: Store, x: ReadyInfo)
    requires Keyed(m) && x in ReadyClients(m)
    ensures x.id in m && m[x.id].status == Ready && x == Info(m[x.id])
  {
    var rs := OnlyReady(Values(m));
    InfosOfExact(rs);
    var i :| 0 <= i < |rs| && InfosOf(rs)[i] == x;
    assert rs[i] in rs;
    OnlyReadyExact(Values(m));
    KeyOfValue(m, rs[i]);
  }

  /** The ready list holds exactly the projections of the records whose status
      is `Pronto`, whether or not they hold a handle. */
  lemma ReadyClientsExact(m: Store)
    requires Keyed(m)
    ensures forall k :: k in m && m[k].status == Ready ==> Info(m[k]) in ReadyClients(m)
    ensures forall x :: x in ReadyClients(m) ==> x.id in m && m[x.id].status == Ready && x == Info(m[x.id])
  {
    forall k | k in m && m[k].status == Ready ensures Info(m[k]) in ReadyClients(m) {
      ReadyOfKey(m, k);
    }
    forall x | x in ReadyClients(m) ensures x.id in m && m[x.id].status == Ready && x == Info(m[x.id]) {
      KeyOfReady(m, x);
    }
  }

  lemma SnapshotOfKey(m: Store, k: nat)
    requires k in m
    ensures Snap(m[k]) in AllStatuses(m)
  {
    var vs := Values(m);
    ValueOfKey(m, k);
    SnapshotsOfExact(vs);
    var i :| 0 <= i < |vs| && vs[i] == m[k];
    assert AllStatuses(m)[i] == Snap(m[k]);
  }

  lemma KeyOfSnapshot(m: Store, s: Snapshot)
    requires Keyed(m) && s in AllStatuses(m)
    ensures s.id in m && s == Snap(m[s.id])
  {
    var vs := Values(m);
    SnapshotsOfExact(vs);
    var i :| 0 <= i < |vs| && AllStatuses(m)[i] == s;
    assert vs[i] in vs;
    KeyOfValue(m, vs[i]);
  }

  /** The snapshot list holds one snapshot per record and nothing else. */
  lemma AllStatusesExact(m: Store)
    requires Keyed(m)
    ensures |AllStatuses(m)| == |m|
    ensures forall k :: k in m ==> Snap(m[k]) in AllStatuses(m)
    ensures forall s :: s in AllStatuses(m) ==> s.id in m && s == Snap(m[s.id])
  {
    ValuesAtIds(m);
    SnapshotsOfExact(Values(m));
    forall k | k in m ensures Snap(m[k]) in AllStatuses(m) {
      SnapshotOfKey(m, k);
    }
    forall s | s in AllStatuses(m) ensures s.id in m && s == Snap(m[s.id]) {
      KeyOfSnapshot(m, s);
    }
  }

  // ---------------------------------------------------------------------
  // Order.

  ghost predicate IdsIncreasing(cs: seq<Sender>)
  {
    forall i, j :: 0 <= i < j < |cs| ==> cs[i].id < cs[j].id
  }

  lemma ValuesIncreasing(m: Store)
    requires Keyed(m)
    ensures IdsIncreasing(Values(m))
  {
    var ids := SortedIds(m.Keys);
    SortedIdsExact(m.Keys);
    ValuesAtIds(m);
  }

  lemma IncreasingCons(c: Sender, cs: seq<Sender>)
    requires IdsIncreasing(cs)
    requires forall d :: d in cs ==> c.id < d.id
    ensures IdsIncreasing([c] + cs)
  {
    var r := [c] + cs;
    forall i, j | 0 <= i < j < |r| ensures r[i].id < r[j].id {
      if i == 0 {
        assert r[j] == cs[j - 1];
        assert cs[j - 1] in cs;
      } else {
        assert r[i] == cs[i - 1] && r[j] == cs[j - 1];
      }
    }
  }

  lemma {:induction false} OnlyReadyKeepsOrder(cs: seq<Sender>)
    requires IdsIncreasing(cs)
    ensures IdsIncreasing(OnlyReady(cs))
  {
    if cs != [] {
      var tail := cs[1..];
      assert IdsIncreasing(tail) by {
        forall i, j | 0 <= i < j < |tail| ensures tail[i].id < tail[j].id {
          assert tail[i] == cs[i + 1] && tail[j] == cs[j + 1];
        }
      }
      OnlyReadyKeepsOrder(tail);
      OnlyReadyExact(tail);
      if cs[0].status == Ready {
        forall d | d in OnlyReady(tail) ensures cs[0].id < d.id {
          var j :| 0 <= j < |tail| && tail[j] == d;
          assert cs[j + 1] == d;
        }
        IncreasingCons(cs[0], OnlyReady(tail));
      }
    }
  }

  /** The ready list is in strictly ascending id order. */
  lemma ReadyClientsIncreasing(m: Store)
    requires Keyed(m)
    ensures forall i, j :: 0 <= i < j < |ReadyClients(m)| ==> ReadyClients(m)[i].id < ReadyClients(m)[j].id
  {
    ValuesIncreasing(m);
    OnlyReadyKeepsOrder(Values(m));
    InfosOfExact(OnlyReady(Values(m)));
  }

  // ---------------------------------------------------------------------
  // The ready list is the `Pronto` part of the snapshot list.

  /** The ready-list view of a snapshot list: keep the `Pronto` snapshots and
      drop their `qr` and `sessionDir`. */
  function ReadyView(ss: seq<Snapshot>): seq<ReadyInfo>
  {
    if ss == [] then []
    else if ss[0].status == Ready then [ReadyInfo(ss[0].id, ss[0].name, ss[0].status)] + ReadyView(ss[1..])
    else ReadyView(ss[1..])
  }

  lemma {:induction false} ReadyViewOfSnapshots(cs: seq<Sender>)
    ensures ReadyView(SnapshotsOf(cs)) == InfosOf(OnlyReady(cs))
  {
    if cs != [] {
      ReadyViewOfSnapshots(cs[1..]);
      if cs[0].status == Ready {
        assert InfosOf(OnlyReady(cs)) == [Info(cs[0])] + InfosOf(OnlyReady(cs[1..]));
      }
    }
  }

  /** getReadyClientsSafe returns exactly the `Pronto` part of what
      getAllClientsStatus returns, in the same order. */
  lemma ReadyIsFilterOfAll(m: Store)
    ensures ReadyClients(m) == ReadyView(AllStatuses(m))
  {
    ReadyViewOfSnapshots(Values(m));
  }
}
