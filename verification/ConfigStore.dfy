/** The transactions that change the captured configuration (app/db.py, app/router_credentials.py), as
    functions from the tables before to the tables after. */
module ConfigStore {
  import opened Base
  import opened Tables
  import opened Capture

  /** The foreign keys from peers to routers and from routers to clients, and the AUTOINCREMENT counter. */
  ghost predicate ForeignKeysOk(c: Cfg) {
    && (forall r | r in c.peers :: r in c.routers)
    && (forall r | r in c.routers :: c.routers[r].clientId in c.clients)
    && (forall id | id in c.clients :: id < c.nextClient)
  }

  /* ---------- the revision counter and settings ---------- */

  /** _mark_vpn_config_updated */
  function Bump(c: Cfg, ts: string): Cfg {
    c.(settings := c.settings[ConfigUpdatedAt := ts], desired := c.desired + 1)
  }

  predicate IsVpnName(name: string) {
    || name == "current_ip"
    || "vless." <= name || "hysteria." <= name || "amnezia." <= name
    || "config.vless_" <= name || "config.hysteria_" <= name || "config.amnezia_" <= name
  }

  /** _is_vpn_setting */
  predicate IsVpnSetting(k: Key) {
    IsVpnName(KeyName(k))
  }

  function SetSetting(c: Cfg, k: Key, v: string, ts: string): Cfg {
    var c1 := c.(settings := c.settings[k := v]);
    if IsVpnSetting(k) && Get(c.settings, k) != v then Bump(c1, ts) else c1
  }

  predicate VpnChange(c: Cfg, values: Settings) {
    exists k | k in values :: IsVpnSetting(k) && Get(c.settings, k) != values[k]
  }

  function SetSettings(c: Cfg, values: Settings, mark: bool, ts: string): Cfg {
    var c1 := c.(settings := c.settings + values);
    if mark && VpnChange(c, values) then Bump(c1, ts) else c1
  }

  /* ---------- addresses ---------- */

  const FIRST_HOST := 2
  const LAST_HOST := 254

  /** Every address a client or auxiliary peer row reserves, disabled and soft-deleted owners included. */
  function Used(c: Cfg): set<nat> {
    (set id | id in c.clients && c.clients[id].awgIpv4.Some? :: c.clients[id].awgIpv4.value)
    + (set r | r in c.peers :: c.peers[r].ipv4)
  }

  function FirstFree(used: set<nat>, base: nat, host: nat): Option<nat>
    decreases LAST_HOST + 1 - host
  {
    if host > LAST_HOST then None
    else if base + host !in used then Some(base + host)
    else FirstFree(used, base, host + 1)
  }

  /** _allocate_amnezia_address */
  function Allocate(env: Env, c: Cfg): Tx<nat> {
    var network := env.network(Configured(env, c.settings, NetworkPrefix));
    if network.None? then Raise(BadValue)
    else
      var free := FirstFree(Used(c), network.value, FIRST_HOST);
      if free.None? then Raise(Exhausted) else Commit(free.value)
  }

  /** _legacy_or_free_amnezia_address */
  function LegacyOrFree(env: Env, c: Cfg, client: nat): Tx<nat> {
    var network := env.network(Configured(env, c.settings, NetworkPrefix));
    if network.None? then Raise(BadValue)
    else if FIRST_HOST <= client + 1 <= LAST_HOST && network.value + client + 1 !in Used(c)
    then Commit(network.value + client + 1)
    else Allocate(env, c)
  }

  /* ---------- clients ---------- */

  datatype Keys = Keys(privateKey: string, publicKey: string, presharedKey: string)

  datatype ClientFields = ClientFields(name: string, token: string, uuid: string, password: string,
                                       keys: Keys, createdAt: string)

  function CreateClient(env: Env, c: Cfg, f: ClientFields, ts: string): Tx<Cfg> {
    var address :- Allocate(env, c);
    var row := ClientRow(f.name, f.token, true, f.uuid, f.password, f.keys.privateKey, f.keys.publicKey,
                         f.keys.presharedKey, Some(address), f.createdAt, None);
    Commit(Bump(c.(clients := c.clients[c.nextClient := row], nextClient := c.nextClient + 1), ts))
  }

  predicate LiveClient(c: Cfg, id: nat) {
    id in c.clients && c.clients[id].Live()
  }

  function SetClientEnabled(c: Cfg, id: nat, enabled: bool, ts: string): Cfg {
    if !LiveClient(c, id) || c.clients[id].enabled == enabled then c
    else Bump(c.(clients := c.clients[id := c.clients[id].(enabled := enabled)]), ts)
  }

  function UpdateClientName(c: Cfg, id: nat, name: string, ts: string): Cfg {
    if !LiveClient(c, id) || c.clients[id].name == name then c
    else Bump(c.(clients := c.clients[id := c.clients[id].(name := name)]), ts)
  }

  /** Soft delete: the row keeps its keys and address until an applied revision excludes it. */
  function DeleteClient(c: Cfg, id: nat, ts: string): Cfg {
    if !LiveClient(c, id) then c
    else
      var b := Bump(c, ts);
      b.(clients := b.clients[id := b.clients[id].(deletedRevision := Some(b.desired))])
  }

  predicate Purgeable(c: Cfg, id: nat) {
    && c.applied.Some? && id in c.clients
    && c.clients[id].deletedRevision.Some? && c.clients[id].deletedRevision.value <= c.applied.value
  }

  /** ON DELETE CASCADE from clients to routers and from routers to peers. */
  function Cascade(c: Cfg): Cfg {
    var routers := map r | r in c.routers && c.routers[r].clientId in c.clients :: c.routers[r];
    c.(routers := routers, peers := map r | r in c.peers && r in routers :: c.peers[r])
  }

  /** purge_applied_deleted_clients */
  function Purge(c: Cfg): Cfg {
    Cascade(c.(clients := map id | id in c.clients && !Purgeable(c, id) :: c.clients[id]))
  }

  /* ---------- routers ---------- */

  /** ensure_router_amnezia_peer, without the revision bump */
  function AddPeer(env: Env, c: Cfg, router: string, keys: Keys): Tx<Cfg> {
    if router in c.peers then Commit(c)
    else if router !in c.routers then Raise(NotFound)
    else
      var address :- Allocate(env, c);
      Commit(c.(peers := c.peers[router := PeerRow(keys.privateKey, keys.publicKey, keys.presharedKey, address)]))
  }

  function EnsurePeer(env: Env, c: Cfg, router: string, keys: Keys, ts: string): Tx<Cfg> {
    var c1 :- AddPeer(env, c, router, keys);
    Commit(if router in c.peers then c1 else Bump(c1, ts))
  }

  function CreateRouter(env: Env, c: Cfg, router: string, title: string, client: nat, keys: Keys, ts: string)
    : Tx<Cfg>
  {
    if !LiveClient(c, client) then Raise(NotFound)
    else if exists r | r in c.routers :: c.routers[r].clientId == client then Raise(AlreadyAssigned)
    else if router in c.routers then Raise(KeyCollision)
    else EnsurePeer(env, c.(routers := c.routers[router := RouterRow(client, title, true)]), router, keys, ts)
  }

  /** The configuration half of issue_router_credential. */
  function IssueFor(env: Env, c: Cfg, router: Option<string>, newRouter: string, title: string, client: nat,
                    keys: Keys, ts: string): Tx<Cfg>
  {
    if router.None? then CreateRouter(env, c, newRouter, title, client, keys, ts)
    else if !LiveClient(c, client) then Raise(NotFound)
    else if router.value !in c.routers || c.routers[router.value].clientId != client then Raise(NotFound)
    else EnsurePeer(env, c, router.value, keys, ts)
  }

  function SetRouterEnabled(c: Cfg, router: string, enabled: bool, ts: string): Tx<Cfg> {
    if router !in c.routers then Raise(NotFound)
    else if c.routers[router].enabled == enabled then Commit(c)
    else Commit(Bump(c.(routers := c.routers[router := c.routers[router].(enabled := enabled)]), ts))
  }

  function UpdateRouterTitle(c: Cfg, router: string, title: string): Tx<Cfg> {
    if router !in c.routers then Raise(NotFound)
    else Commit(c.(routers := c.routers[router := c.routers[router].(title := title)]))
  }

  function DeleteRouter(c: Cfg, router: string, ts: string): Tx<Cfg> {
    if router !in c.routers then Raise(NotFound)
    else
      var b := Bump(c, ts);
      Commit(b.(routers := b.routers - {router}, peers := b.peers - {router}))
  }

  /* ---------- initialisation ---------- */

  /** Fill the generated secrets that are missing or empty. */
  function FillSettings(s: Settings, generated: Settings): Settings {
    s + (map k | k in generated && Get(s, k) == "" :: generated[k])
  }

  predicate Complete(row: ClientRow) {
    row.awgPrivate != "" && row.awgPublic != "" && row.awgPreshared != "" && row.awgIpv4.Some?
  }

  function OrElse(value: string, generated: string): string {
    if value != "" then value else generated
  }

  /** _ensure_client_amnezia_material, one client after the other from id on */
  function FillClients(env: Env, c: Cfg, id: nat, keys: nat -> Keys): Tx<Cfg>
    decreases c.nextClient - id
  {
    if id >= c.nextClient then Commit(c)
    else if id !in c.clients then FillClients(env, c, id + 1, keys)
    else
      var row := c.clients[id];
      var address :- if row.awgIpv4.Some? then Commit(row.awgIpv4.value) else LegacyOrFree(env, c, id);
      var filled := row.(awgPrivate := OrElse(row.awgPrivate, keys(id).privateKey),
                         awgPublic := OrElse(row.awgPublic, keys(id).publicKey),
                         awgPreshared := OrElse(row.awgPreshared, keys(id).presharedKey),
                         awgIpv4 := Some(address));
      FillClients(env, c.(clients := c.clients[id := filled]), id + 1, keys)
  }

  /** _ensure_router_amnezia_peers over the routers in order */
  function FillPeers(env: Env, c: Cfg, routers: seq<string>, keys: string -> Keys): Tx<Cfg>
    decreases |routers|
  {
    if routers == [] then Commit(c)
    else
      var c1 :- AddPeer(env, c, routers[0], keys(routers[0]));
      FillPeers(env, c1, routers[1..], keys)
  }

  /** init_db after the migrations: one bump when anything was generated. */
  function InitDb(env: Env, c: Cfg, generated: Settings, clientKeys: nat -> Keys, routers: seq<string>,
                  routerKeys: string -> Keys, ts: string): Tx<Cfg>
  {
    var s := map[CurrentIp := "", HealthStatus := "UNKNOWN"] + c.settings;
    var c1 := c.(settings := FillSettings(s, generated));
    var c2 :- FillClients(env, c1, 0, clientKeys);
    var c3 :- FillPeers(env, c2, routers, routerKeys);
    var changed := (exists k | k in generated :: Get(s, k) == "")
                   || (exists id | id in c.clients :: !Complete(c.clients[id]))
                   || (exists i | 0 <= i < |routers| :: routers[i] !in c2.peers);
    Commit(if changed then Bump(c3, ts) else c3)
  }

  /* ---------- reset ---------- */

  predicate ResetDrops(k: Key) {
    || k.CurrentIp? || k.HealthStatus? || k.Ssh? || k.Sprint? || k.Provider?
    || (k.Other? &&
        ("config.eu_" <= k.name || "config.aeza_" <= k.name || "config.sprintbox_" <= k.name
         || "protocol." <= k.name || "server_operation." <= k.name
         || k.name in {"ssh.known_host_reset_last_output", "stats.last_refresh_at", "stats.last_error"}))
  }

  predicate ResetBumps(c: Cfg) {
    || Get(c.settings, CurrentIp) != ""
    || exists k | k in c.settings ::
         var n := KeyName(k); "config.vless_" <= n || "config.hysteria_" <= n || "config.amnezia_" <= n
  }

  /** The configuration half of _clear_server_and_aeza_state. */
  function ResetSettings(c: Cfg, ts: string): Cfg {
    var kept := map k | k in c.settings && !ResetDrops(k) :: c.settings[k];
    var c1 := c.(settings := kept[CurrentIp := ""][HealthStatus := "UNKNOWN"]);
    if ResetBumps(c) then Bump(c1, ts) else c1
  }
}
