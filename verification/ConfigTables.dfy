/** The configuration tables as mutable state (app/db.py, app/router_credentials.py, app/vpn_state.py). Every method
    writes its rows one after the other; each is proved against the function of ConfigStore or Snapshots that says what
    the whole transaction does. */
module ConfigTables {
  import opened Base
  import opened VpnConfig
  import opened Tables
  import opened Capture
  import opened ConfigStore
  import opened Snapshots

  class ConfigConnection {
    var settings: Settings
    var clients: map<nat, ClientRow>
    var nextClient: nat
    var routers: map<string, RouterRow>
    var peers: map<string, PeerRow>
    var desired: nat
    var applied: Option<nat>
    var snapshots: map<nat, Snapshot>

    function Rows(): Cfg
      reads this
    {
      Cfg(settings, clients, nextClient, routers, peers, desired, applied, snapshots)
    }

    constructor ()
      ensures Rows() == EMPTY_DB.cfg
    {
      settings, clients, nextClient, routers := map[], map[], 1, map[];
      peers, desired, applied, snapshots := map[], 0, None, map[];
    }

    /** What the context manager does when a block raises. */
    method Rollback(before: Cfg)
      modifies this
      ensures Rows() == before
    {
      settings, clients, nextClient, routers := before.settings, before.clients, before.nextClient, before.routers;
      peers, desired, applied, snapshots := before.peers, before.desired, before.applied, before.snapshots;
    }

    /** _mark_vpn_config_updated */
    method MarkUpdated(ts: string)
      modifies `settings, `desired
      ensures Rows() == Bump(old(Rows()), ts)
    {
      settings := settings[ConfigUpdatedAt := ts];
      desired := desired + 1;
    }

    /** set_setting */
    method Set(k: Key, v: string, ts: string)
      modifies `settings, `desired
      ensures Rows() == SetSetting(old(Rows()), k, v, ts)
    {
      var previous := Get(settings, k);
      settings := settings[k := v];
      if IsVpnSetting(k) && previous != v {
        MarkUpdated(ts);
      }
    }

    /** _allocate_amnezia_address: the loop over the hosts from .2 to .254. */
    method AllocateAddress(env: Env) returns (address: Tx<nat>)
      ensures address == Allocate(env, Rows())
    {
      var network := env.network(Configured(env, settings, NetworkPrefix));
      if network.None? {
        return Raise(BadValue);
      }
      var used := Used(Rows());
      var host := FIRST_HOST;
      while host <= LAST_HOST
        invariant FIRST_HOST <= host <= LAST_HOST + 1
        invariant FirstFree(used, network.value, host) == FirstFree(used, network.value, FIRST_HOST)
        decreases LAST_HOST - host
      {
        if network.value + host !in used {
          return Commit(network.value + host);
        }
        host := host + 1;
      }
      address := Raise(Exhausted);
    }

    /** create_client: on failure nothing is left behind. */
    method AddClient(env: Env, f: ClientFields, ts: string) returns (error: Option<Error>)
      modifies this
      ensures var t := CreateClient(env, old(Rows()), f, ts);
              && Rows() == t.Or(old(Rows()))
              && error == (if t.Raise? then Some(t.error) else None)
    {
      var address := AllocateAddress(env);
      if address.Raise? {
        return Some(address.error);
      }
      clients := clients[nextClient := ClientRow(f.name, f.token, true, f.uuid, f.password, f.keys.privateKey,
                                                 f.keys.publicKey, f.keys.presharedKey, Some(address.value),
                                                 f.createdAt, None)];
      nextClient := nextClient + 1;
      MarkUpdated(ts);
      error := None;
    }

    /** delete_client: the revision is counted up first, and then the row remembers it. */
    method RemoveClient(id: nat, ts: string)
      modifies this
      ensures Rows() == DeleteClient(old(Rows()), id, ts)
    {
      if id in clients && clients[id].Live() {
        MarkUpdated(ts);
        clients := clients[id := clients[id].(deletedRevision := Some(desired))];
      }
    }

    /** purge_applied_deleted_clients, row by row, with the cascades it triggers. */
    method PurgeDeletedClients()
      modifies `clients, `routers, `peers
      ensures Rows() == Purge(old(Rows()))
    {
      hide Purgeable;
      ghost var before := Rows();
      var doomed := set id | id in clients && Purgeable(Rows(), id);
      ghost var all := doomed;
      while doomed != {}
        invariant doomed <= all && clients == before.clients - (all - doomed)
        invariant Rows() == before.(clients := clients)
      {
        var id :| id in doomed;
        clients := clients - {id};
        doomed := doomed - {id};
      }
      assert clients == map id | id in before.clients && !Purgeable(before, id) :: before.clients[id];
      routers := map r | r in routers && routers[r].clientId in clients :: routers[r];
      peers := map r | r in peers && r in routers :: peers[r];
    }

    /** create_router with its auxiliary peer: a full pool leaves no router behind. */
    method AddRouter(env: Env, router: string, title: string, client: nat, keys: Keys, ts: string)
      returns (error: Option<Error>)
      modifies this
      ensures var t := CreateRouter(env, old(Rows()), router, title, client, keys, ts);
              && Rows() == t.Or(old(Rows()))
              && error == (if t.Raise? then Some(t.error) else None)
    {
      var before := Rows();
      if !LiveClient(Rows(), client) {
        return Some(NotFound);
      }
      if exists r | r in routers :: routers[r].clientId == client {
        return Some(AlreadyAssigned);
      }
      if router in routers {
        return Some(KeyCollision);
      }
      routers := routers[router := RouterRow(client, title, true)];
      error := EnsureRouterPeer(env, router, keys, ts);
      if error.Some? {
        Rollback(before);
      }
    }

    /** _ensure_client_amnezia_material: the backfill goes through the clients in order, and a full pool undoes it. */
    method FillMissing(env: Env, keys: nat -> Keys) returns (error: Option<Error>)
      modifies this
      ensures var t := FillClients(env, old(Rows()), 0, keys);
              && Rows() == t.Or(old(Rows()))
              && error == (if t.Raise? then Some(t.error) else None)
    {
      var before := Rows();
      var id := 0;
      while id < nextClient
        invariant nextClient == before.nextClient
        invariant FillClients(env, Rows(), id, keys) == FillClients(env, before, 0, keys)
        decreases nextClient - id
      {
        if id in clients {
          var row := clients[id];
          var address := Commit(row.awgIpv4.GetOr(0));
          if row.awgIpv4.None? {
            address := LegacyAddress(env, id);
          }
          if address.Raise? {
            Rollback(before);
            return Some(address.error);
          }
          clients := clients[id := row.(awgPrivate := OrElse(row.awgPrivate, keys(id).privateKey),
                                        awgPublic := OrElse(row.awgPublic, keys(id).publicKey),
                                        awgPreshared := OrElse(row.awgPreshared, keys(id).presharedKey),
                                        awgIpv4 := Some(address.value))];
        }
        id := id + 1;
      }
      error := None;
    }

    /** _legacy_or_free_amnezia_address */
    method LegacyAddress(env: Env, client: nat) returns (address: Tx<nat>)
      ensures address == LegacyOrFree(env, Rows(), client)
    {
      var network := env.network(Configured(env, settings, NetworkPrefix));
      if network.None? {
        return Raise(BadValue);
      }
      if FIRST_HOST <= client + 1 <= LAST_HOST && network.value + client + 1 !in Used(Rows()) {
        return Commit(network.value + client + 1);
      }
      address := AllocateAddress(env);
    }

    /** set_client_enabled */
    method EnableClient(id: nat, enabled: bool, ts: string)
      modifies `clients, `settings, `desired
      ensures Rows() == SetClientEnabled(old(Rows()), id, enabled, ts)
    {
      if id !in clients || !clients[id].Live() || clients[id].enabled == enabled {
        return;
      }
      clients := clients[id := clients[id].(enabled := enabled)];
      MarkUpdated(ts);
    }

    /** update_client_name */
    method RenameClient(id: nat, name: string, ts: string)
      modifies `clients, `settings, `desired
      ensures Rows() == UpdateClientName(old(Rows()), id, name, ts)
    {
      if id !in clients || !clients[id].Live() || clients[id].name == name {
        return;
      }
      clients := clients[id := clients[id].(name := name)];
      MarkUpdated(ts);
    }

    /** set_router_enabled */
    method EnableRouter(router: string, enabled: bool, ts: string) returns (error: Option<Error>)
      modifies `routers, `settings, `desired
      ensures var t := SetRouterEnabled(old(Rows()), router, enabled, ts);
              Rows() == t.Or(old(Rows())) && error == (if t.Raise? then Some(t.error) else None)
    {
      if router !in routers {
        return Some(NotFound);
      }
      if routers[router].enabled != enabled {
        routers := routers[router := routers[router].(enabled := enabled)];
        MarkUpdated(ts);
      }
      error := None;
    }

    /** delete_router, with the cascade to its peer */
    method RemoveRouter(router: string, ts: string) returns (error: Option<Error>)
      modifies `routers, `peers, `settings, `desired
      ensures var t := DeleteRouter(old(Rows()), router, ts);
              Rows() == t.Or(old(Rows())) && error == (if t.Raise? then Some(t.error) else None)
    {
      if router !in routers {
        return Some(NotFound);
      }
      MarkUpdated(ts);
      routers := routers - {router};
      peers := peers - {router};
      error := None;
    }

    /** ensure_router_amnezia_peer */
    method EnsureRouterPeer(env: Env, router: string, keys: Keys, ts: string) returns (error: Option<Error>)
      modifies `peers, `settings, `desired
      ensures var t := EnsurePeer(env, old(Rows()), router, keys, ts);
              Rows() == t.Or(old(Rows())) && error == (if t.Raise? then Some(t.error) else None)
    {
      error := None;
      if router in peers {
        return;
      }
      if router !in routers {
        return Some(NotFound);
      }
      var address := AllocateAddress(env);
      if address.Raise? {
        return Some(address.error);
      }
      peers := peers[router := PeerRow(keys.privateKey, keys.publicKey, keys.presharedKey, address.value)];
      MarkUpdated(ts);
    }

    /** set_settings: whether anything changes is decided before the first write. */
    method SetMany(values: Settings, mark: bool, ts: string)
      modifies `settings, `desired
      ensures Rows() == SetSettings(old(Rows()), values, mark, ts)
    {
      hide IsVpnSetting, Get;
      ghost var before := Rows();
      var changed := false;
      var keys := values.Keys;
      while keys != {}
        invariant keys <= values.Keys
        invariant changed <==> exists k | k in values && k !in keys :: IsVpnSetting(k) && Get(settings, k) != values[k]
        decreases |keys|
      {
        var k :| k in keys;
        changed := changed || (IsVpnSetting(k) && Get(settings, k) != values[k]);
        keys := keys - {k};
      }
      settings := settings + values;
      if mark && changed {
        MarkUpdated(ts);
      }
    }

    /* ---------- snapshots ---------- */

    /** _ensure_snapshot */
    method Ensure(env: Env, reprepare: bool) returns (error: Option<Error>)
      modifies `snapshots
      ensures var t := EnsureSnapshot(env, old(Rows()), reprepare);
              && Rows() == t.Or(old(Rows()))
              && error == (if t.Raise? then Some(t.error) else None)
    {
      var config := CaptureConfig(env, Rows());
      if config.None? {
        return Some(BadValue);
      }
      var payload := ToPayload(config.value);
      error := None;
      if desired !in snapshots {
        snapshots := snapshots[desired := Snapshot(payload, Digest(payload), PREPARED, None)];
      } else if snapshots[desired].payload != payload || snapshots[desired].sha != Digest(payload) {
        error := Some(DifferentContent);
      } else if reprepare && !snapshots[desired].lifecycle.APPLIED? {
        snapshots := snapshots[desired := snapshots[desired].(lifecycle := PREPARED)];
      }
    }

    /** The UPDATE that fails a revision unless it is applied. */
    method Fail(revision: nat)
      modifies `snapshots
      ensures Rows() == FailSnapshot(old(Rows()), revision)
    {
      if revision in snapshots && !snapshots[revision].lifecycle.APPLIED? {
        snapshots := snapshots[revision := snapshots[revision].(lifecycle := FAILED)];
      }
    }

    /** The configuration half of complete_install_operation. */
    method Complete(revision: nat, ts: string) returns (error: Option<Error>)
      modifies this
      ensures var t := CompleteConfig(old(Rows()), revision, ts);
              && Rows() == t.Or(old(Rows()))
              && error == (if t.Raise? then Some(t.error) else None)
    {
      if revision !in snapshots {
        return Some(NotFound);
      }
      snapshots := snapshots[revision := snapshots[revision].(lifecycle := APPLIED, appliedAt := Some(ts))];
      if applied.None? || applied.value < revision {
        applied := Some(revision);
      }
      PurgeDeletedClients();
      error := None;
    }

    /** The configuration half of publish_ip_change: it raises before it writes anything. */
    method Publish(bound: nat, ip: string, box: Option<NewBox>, ts: string) returns (error: Option<Error>)
      modifies this
      ensures var t := PublishConfig(old(Rows()), bound, ip, box, ts);
              && Rows() == t.Or(old(Rows()))
              && error == (if t.Raise? then Some(t.error) else None)
    {
      if bound !in snapshots {
        return Some(NotFound);
      }
      if desired != bound {
        return Some(ConfigChanged);
      }
      var config := FromPayload(snapshots[bound].payload);
      if config.None? {
        return Some(BadValue);
      }
      if bound + 1 in snapshots {
        return Some(KeyCollision);
      }
      var payload := ToPayload(config.value.(currentIp := ip, configUpdatedAt := ts, revision := bound + 1));
      settings := settings[CurrentIp := ip][ConfigUpdatedAt := ts][HealthStatus := "OK"];
      if box.Some? {
        settings := settings[Sprint(BOXNAME) := box.value.name][Ssh(HOST) := ""];
        if box.value.keyPath.Some? {
          settings := settings[Ssh(USER) := "root"][Ssh(PORT) := "22"][Ssh(KEYPATH) := box.value.keyPath.value]
                              [Ssh(PASSWORD) := ""];
        }
      }
      snapshots := snapshots[bound + 1 := Snapshot(payload, Digest(payload), APPLIED, Some(ts))];
      snapshots := snapshots[bound := MarkApplied(snapshots[bound], ts)];
      desired := bound + 1;
      applied := Some(bound + 1);
      PurgeDeletedClients();
      error := None;
    }
  }
}
