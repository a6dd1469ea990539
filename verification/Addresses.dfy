/** The AmneziaWG address pool (app/db.py:219-376): the least free host, pairwise distinct reservations, and no
    reuse of an address that the applied configuration still serves. */
module Addresses {
  import opened Base
  import opened VpnConfig
  import opened Tables
  import opened Capture
  import opened ConfigStore
  import opened Snapshots

  /* ---------- the allocator ---------- */

  /** A host is found exactly when one is free, and it is the least one. */
  lemma {:induction false} FirstFreeIsLeast(used: set<nat>, base: nat, host: nat)
    requires host <= LAST_HOST + 1
    ensures FirstFree(used, base, host).None? <==> forall x: nat | base + host <= x <= base + LAST_HOST :: x in used
    ensures FirstFree(used, base, host).Some?
        ==> var a := FirstFree(used, base, host).value;
            && base + host <= a <= base + LAST_HOST && a !in used
            && forall x: nat | base + host <= x < a :: x in used
    decreases LAST_HOST + 1 - host
  {
    if host <= LAST_HOST && base + host in used {
      FirstFreeIsLeast(used, base, host + 1);
    }
  }

  /** The pool is exhausted exactly when all 253 hosts from .2 to .254 are reserved. */
  lemma AllocateExactly(env: Env, c: Cfg)
    requires env.network(Configured(env, c.settings, NetworkPrefix)).Some?
    ensures var base := env.network(Configured(env, c.settings, NetworkPrefix)).value;
            && (Allocate(env, c).Raise? <==> forall x: nat | base + FIRST_HOST <= x <= base + LAST_HOST :: x in Used(c))
            && (Allocate(env, c).Raise? ==> Allocate(env, c).error == Exhausted)
            && (Allocate(env, c).Commit? ==>
                  var a := Allocate(env, c).value;
                  && base + FIRST_HOST <= a <= base + LAST_HOST && a !in Used(c)
                  && forall x: nat | base + FIRST_HOST <= x < a :: x in Used(c))
  {
    FirstFreeIsLeast(Used(c), env.network(Configured(env, c.settings, NetworkPrefix)).value, FIRST_HOST);
  }

  /** Both ways of choosing an address return one that no row reserves. */
  lemma AllocatedIsFree(env: Env, c: Cfg, client: nat)
    ensures Allocate(env, c).Commit? ==> Allocate(env, c).value !in Used(c)
    ensures LegacyOrFree(env, c, client).Commit? ==> LegacyOrFree(env, c, client).value !in Used(c)
  {
    if env.network(Configured(env, c.settings, NetworkPrefix)).Some? {
      AllocateExactly(env, c);
    }
  }

  /* ---------- distinct reservations ---------- */

  ghost predicate Holds(c: Cfg, id: nat, address: nat) {
    id in c.clients && c.clients[id].awgIpv4 == Some(address)
  }

  ghost predicate PeerHolds(c: Cfg, router: string, address: nat) {
    router in c.peers && c.peers[router].ipv4 == address
  }

  ghost predicate Distinct(c: Cfg) {
    && (forall i, j, a | Holds(c, i, a) && Holds(c, j, a) :: i == j)
    && (forall r, q, a | PeerHolds(c, r, a) && PeerHolds(c, q, a) :: r == q)
    && (forall i, r, a | Holds(c, i, a) :: !PeerHolds(c, r, a))
  }

  ghost predicate AddressesOk(c: Cfg) {
    ForeignKeysOk(c) && Distinct(c)
  }

  lemma UsedMeans(c: Cfg, address: nat)
    ensures address in Used(c) <==> (exists i :: Holds(c, i, address)) || (exists r :: PeerHolds(c, r, address))
  {
    if address in Used(c) {
      if i :| i in c.clients && c.clients[i].awgIpv4 == Some(address) {
        assert Holds(c, i, address);
      } else {
        var r :| r in c.peers && c.peers[r].ipv4 == address;
        assert PeerHolds(c, r, address);
      }
    }
  }

  /** A client row written with a free address, or with the one it had, keeps the reservations distinct. */
  lemma ClientRowKeeps(c: Cfg, id: nat, row: ClientRow)
    requires AddressesOk(c) && id <= c.nextClient
    requires row.awgIpv4.Some? && (id !in c.clients || c.clients[id].awgIpv4 != row.awgIpv4)
         ==> row.awgIpv4.value !in Used(c)
    ensures Distinct(c.(clients := c.clients[id := row]))
  {
    var c' := c.(clients := c.clients[id := row]);
    if row.awgIpv4.Some? {
      UsedMeans(c, row.awgIpv4.value);
    }
    if id in c.clients && row.awgIpv4 == c.clients[id].awgIpv4 && row.awgIpv4.Some? {
      assert Holds(c, id, row.awgIpv4.value);
    }
    forall i: nat, a: nat | Holds(c', i, a) ensures Holds(c, i, a) || (i == id && row.awgIpv4 == Some(a)) {
    }
    forall r, a: nat | PeerHolds(c', r, a) ensures PeerHolds(c, r, a) {
    }
  }

  lemma PeerRowKeeps(c: Cfg, router: string, row: PeerRow)
    requires AddressesOk(c) && router !in c.peers && row.ipv4 !in Used(c)
    ensures Distinct(c.(peers := c.peers[router := row]))
  {
    var c' := c.(peers := c.peers[router := row]);
    UsedMeans(c, row.ipv4);
    forall r, a: nat | PeerHolds(c', r, a) ensures PeerHolds(c, r, a) || (r == router && row.ipv4 == a) {
    }
    forall i: nat, a: nat | Holds(c', i, a) ensures Holds(c, i, a) {
    }
  }

  /** Fewer rows, or rows that keep their address, stay distinct. */
  lemma SubsetKeeps(c: Cfg, c': Cfg)
    requires Distinct(c)
    requires forall i, a | Holds(c', i, a) :: Holds(c, i, a)
    requires forall r, a | PeerHolds(c', r, a) :: PeerHolds(c, r, a)
    ensures Distinct(c')
  {
  }

  /* ---------- reservations outlive the applied configuration ---------- */

  /** A later transaction keeps a client row and its address; it may soft-delete it for a revision to come. */
  ghost predicate RowPersists(before: ClientRow, after: ClientRow, desired: nat) {
    && (before.awgIpv4.Some? ==> after.awgIpv4 == before.awgIpv4)
    && (before.deletedRevision == after.deletedRevision
        || (before.Live() && after.deletedRevision.Some? && desired < after.deletedRevision.value))
  }

  ghost predicate RowsPersist(c: Cfg, c': Cfg) {
    forall id | id in c.clients :: id in c'.clients && RowPersists(c.clients[id], c'.clients[id], c.desired)
  }

  predicate NotDeletedBy(row: ClientRow, revision: nat) {
    row.deletedRevision.None? || revision < row.deletedRevision.value
  }

  function Floor(c: Cfg): nat {
    if c.applied.Some? then c.applied.value else 0
  }

  /** A stored revision, from the applied one on, that configures a client with an address. */
  ghost predicate Serves(c: Cfg, r: nat, id: nat) {
    && r in c.snapshots && Floor(c) <= r && id in c.snapshots[r].payload.clients
    && c.snapshots[r].payload.clients[id].awgIpv4.Some?
  }

  ghost predicate Reserved(c: Cfg, r: nat, id: nat)
    requires Serves(c, r, id)
  {
    Holds(c, id, c.snapshots[r].payload.clients[id].awgIpv4.value) && NotDeletedBy(c.clients[id], r)
  }

  /** Every client that such a revision serves still holds its address. */
  ghost predicate Served(c: Cfg) {
    forall r, id | Serves(c, r, id) :: Reserved(c, r, id)
  }

  lemma PersistingRowsKeepServed(env: Env, c: Cfg, c': Cfg)
    requires SnapshotsOk(env, c) && Served(c) && RowsPersist(c, c')
    requires c'.snapshots == c.snapshots && c'.applied == c.applied
    ensures Served(c')
  {
    forall r, id | Serves(c', r, id)
      ensures Reserved(c', r, id)
    {
      assert Serves(c, r, id) && Reserved(c, r, id);
      assert RowPersists(c.clients[id], c'.clients[id], c.desired);
    }
  }

  lemma CapturedClientIsLive(env: Env, c: Cfg, id: nat)
    requires CaptureConfig(env, c).Some? && id in ToPayload(CaptureConfig(env, c).value).clients
    ensures id in c.clients && c.clients[id].Live()
    ensures ToPayload(CaptureConfig(env, c).value).clients[id] == CaptureClient(c.clients[id])
  {
    hide CaptureVless, CaptureHysteria, CaptureAmnezia, CapturePeers;
  }

  /** Storing the capture serves only live clients. */
  lemma PrepareKeepsServed(env: Env, c: Cfg, reprepare: bool)
    requires SnapshotsOk(env, c) && Served(c)
    ensures Served(EnsureSnapshot(env, c, reprepare).Or(c))
  {
    hide CaptureConfig, ToPayload;
    PrepareKeeps(env, c, reprepare);
    var c' := EnsureSnapshot(env, c, reprepare).Or(c);
    if CaptureConfig(env, c).Some? {
      forall id | id in ToPayload(CaptureConfig(env, c).value).clients
        ensures id in c.clients && c.clients[id].Live()
        ensures ToPayload(CaptureConfig(env, c).value).clients[id] == CaptureClient(c.clients[id])
      {
        CapturedClientIsLive(env, c, id);
      }
      StoreKeepsServed(c, c'.snapshots);
    }
  }

  /** Applying a revision purges only rows that it, and every later stored revision, excludes. */
  lemma ApplyKeepsServed(c: Cfg, applied: nat)
    requires Served(c) && Floor(c) <= applied
    ensures Served(Purge(c.(applied := Some(applied))))
  {
    var c1 := c.(applied := Some(applied));
    var c' := Purge(c1);
    forall r, id | Serves(c', r, id)
      ensures Reserved(c', r, id)
    {
      assert Serves(c, r, id) && Reserved(c, r, id);
      assert !Purgeable(c1, id);
    }
  }

  lemma CompleteKeepsServed(env: Env, c: Cfg, revision: nat, ts: string)
    requires Served(c) && revision in c.snapshots
    ensures Served(CompleteConfig(c, revision, ts).value)
  {
    var row := c.snapshots[revision].(lifecycle := APPLIED, appliedAt := Some(ts));
    var c1 := c.(snapshots := c.snapshots[revision := row]);
    assert Served(c1) by {
      forall r, id | Serves(c1, r, id)
        ensures Reserved(c1, r, id)
      {
        assert Serves(c, r, id) && Reserved(c, r, id);
      }
    }
    ApplyKeepsServed(c1, if c.applied.None? || c.applied.value < revision then revision else c.applied.value);
  }

  /** A stored row whose clients are all taken from live rows can be added. */
  lemma StoreKeepsServed(c: Cfg, snapshots: map<nat, Snapshot>)
    requires Served(c)
    requires forall r, id | r in snapshots && id in snapshots[r].payload.clients ::
      || (r in c.snapshots && snapshots[r].payload == c.snapshots[r].payload)
      || (id in c.clients && c.clients[id].Live() && snapshots[r].payload.clients[id] == CaptureClient(c.clients[id]))
    ensures Served(c.(snapshots := snapshots))
  {
    var c1 := c.(snapshots := snapshots);
    forall r, id | Serves(c1, r, id)
      ensures Reserved(c1, r, id)
    {
      if r in c.snapshots && snapshots[r].payload == c.snapshots[r].payload {
        assert Serves(c, r, id) && Reserved(c, r, id);
      }
    }
  }

  /** A publication serves the clients of its bound revision, all of them live at that moment. */
  lemma PublishKeepsServed(env: Env, c: Cfg, bound: nat, ip: string, box: Option<NewBox>, ts: string)
    requires SnapshotsOk(env, c) && Served(c) && PublishConfig(c, bound, ip, box, ts).Commit?
    ensures Served(PublishConfig(c, bound, ip, box, ts).value)
  {
    PublishKeeps(env, c, bound, ip, box, ts);
    hide CaptureConfig;
    var stored := c.snapshots[bound].payload;
    var payload := ToPayload(FromPayload(stored).value.(currentIp := ip, configUpdatedAt := ts, revision := bound + 1));
    var snapshots := c.snapshots[bound + 1 := Snapshot(payload, Digest(payload), APPLIED, Some(ts))]
                                [bound := MarkApplied(c.snapshots[bound], ts)];
    assert forall id | id in payload.clients :: id in stored.clients && payload.clients[id] == stored.clients[id];
    hide ToPayload, FromPayload;
    forall id | id in stored.clients
      ensures id in c.clients && c.clients[id].Live() && stored.clients[id] == CaptureClient(c.clients[id])
    {
      CapturedClientIsLive(env, c, id);
    }
    StoreKeepsServed(c, snapshots);
    var c1 := c.(snapshots := snapshots, settings := PublishedSettings(c.settings, ip, box, ts), desired := bound + 1);
    SameRowsKeepServed(c.(snapshots := snapshots), c1);
    ApplyKeepsServed(c1, bound + 1);
    assert PublishConfig(c, bound, ip, box, ts).value == Purge(c1.(applied := Some(bound + 1)));
  }

  lemma SameRowsKeepServed(c: Cfg, c': Cfg)
    requires Served(c) && c'.clients == c.clients && c'.snapshots == c.snapshots && c'.applied == c.applied
    ensures Served(c')
  {
    forall r, id | Serves(c', r, id)
      ensures Reserved(c', r, id)
    {
      assert Serves(c, r, id) && Reserved(c, r, id);
    }
  }

  /** An address that the applied configuration serves belongs to that client alone, and is never handed out. */
  lemma AppliedAddressIsNotReused(env: Env, c: Cfg, id: nat, address: nat, other: nat)
    requires SnapshotsOk(env, c) && AddressesOk(c) && Served(c) && c.applied.Some?
    requires id in c.snapshots[c.applied.value].payload.clients
    requires c.snapshots[c.applied.value].payload.clients[id].awgIpv4 == Some(address)
    ensures Holds(c, id, address)
    ensures forall i | i != id :: !Holds(c, i, address)
    ensures forall r :: !PeerHolds(c, r, address)
    ensures Allocate(env, c) != Commit(address) && LegacyOrFree(env, c, other) != Commit(address)
  {
    hide CaptureConfig;
    assert Serves(c, c.applied.value, id) && Reserved(c, c.applied.value, id);
    AllocatedIsFree(env, c, other);
    UsedMeans(c, address);
  }
}
