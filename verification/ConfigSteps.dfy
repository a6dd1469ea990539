/** Every configuration transaction as one step, and what each step keeps. */
module ConfigSteps {
  import opened Base
  import opened Tables
  import opened Capture
  import opened ConfigStore
  import opened Snapshots
  import opened Addresses

  datatype ConfigEvent =
    | WriteSetting(k: Key, v: string, ts: string)
    | WriteSettings(values: Settings, mark: bool, ts: string)
    | MarkUpdated(ts: string)
    | AddClient(f: ClientFields, ts: string)
    | EnableClient(client: nat, enabled: bool, ts: string)
    | RenameClient(client: nat, name: string, ts: string)
    | RemoveClient(client: nat, ts: string)
    | AddRouter(router: string, title: string, client: nat, keys: Keys, ts: string)
    | IssueCredential(existing: Option<string>, router: string, title: string, client: nat, keys: Keys, ts: string)
    | EnableRouter(router: string, enabled: bool, ts: string)
    | RetitleRouter(router: string, title: string)
    | RemoveRouter(router: string, ts: string)
    | Initialise(generated: Settings, clientKeys: nat -> Keys, routers: seq<string>, routerKeys: string -> Keys,
                 ts: string)

  function ConfigNext(env: Env, c: Cfg, e: ConfigEvent): Cfg {
    match e
    case WriteSetting(k, v, ts) => SetSetting(c, k, v, ts)
    case WriteSettings(values, mark, ts) => SetSettings(c, values, mark, ts)
    case MarkUpdated(ts) => Bump(c, ts)
    case AddClient(f, ts) => CreateClient(env, c, f, ts).Or(c)
    case EnableClient(id, enabled, ts) => SetClientEnabled(c, id, enabled, ts)
    case RenameClient(id, name, ts) => UpdateClientName(c, id, name, ts)
    case RemoveClient(id, ts) => DeleteClient(c, id, ts)
    case AddRouter(router, title, client, keys, ts) => CreateRouter(env, c, router, title, client, keys, ts).Or(c)
    case IssueCredential(existing, router, title, client, keys, ts) =>
      IssueFor(env, c, existing, router, title, client, keys, ts).Or(c)
    case EnableRouter(router, enabled, ts) => SetRouterEnabled(c, router, enabled, ts).Or(c)
    case RetitleRouter(router, title) => UpdateRouterTitle(c, router, title).Or(c)
    case RemoveRouter(router, ts) => DeleteRouter(c, router, ts).Or(c)
    case Initialise(generated, clientKeys, routers, routerKeys, ts) =>
      InitDb(env, c, generated, clientKeys, routers, routerKeys, ts).Or(c)
  }

  /** What callers of the settings functions keep to: the update time is never written from outside, a silent
      blank is never written (app/main.py:590-592), and captured keys are written with the revision mark. */
  predicate CallerOk(c: Cfg, e: ConfigEvent) {
    match e
    case WriteSetting(k, v, _) => !k.ConfigUpdatedAt? && !SilentChange(c.settings, k, v)
    case WriteSettings(values, mark, _) =>
      && ConfigUpdatedAt !in values
      && (forall k | k in values :: !SilentChange(c.settings, k, values[k]))
      && (mark || forall k | k in values :: !IsCaptured(k))
    case _ => true
  }

  ghost predicate CfgInv(env: Env, c: Cfg) {
    SnapshotsOk(env, c) && AddressesOk(c) && Served(c)
  }

  /* ---------- reservations ---------- */

  /** What a configuration transaction does to the reservations. */
  ghost predicate KeepsRows(c: Cfg, c': Cfg) {
    AddressesOk(c') && RowsPersist(c, c')
  }

  lemma SameRowsKeep(c: Cfg, c': Cfg)
    requires AddressesOk(c)
    requires c'.clients == c.clients && c'.nextClient == c.nextClient && c'.routers == c.routers && c'.peers == c.peers
    ensures KeepsRows(c, c')
  {
    SubsetKeeps(c, c');
  }

  lemma NewClientKeeps(env: Env, c: Cfg, f: ClientFields, ts: string)
    requires AddressesOk(c)
    ensures KeepsRows(c, CreateClient(env, c, f, ts).Or(c))
  {
    hide Used, Allocate;
    AllocatedIsFree(env, c, 0);
    var c1 := CreateClient(env, c, f, ts).Or(c);
    if c1 != c {
      ClientRowKeeps(c, c.nextClient, c1.clients[c.nextClient]);
      SubsetKeeps(c.(clients := c1.clients), c1);
    }
  }

  lemma EditedRowKeeps(c: Cfg, c': Cfg, id: nat, row: ClientRow)
    requires AddressesOk(c) && id in c.clients && RowPersists(c.clients[id], row, c.desired)
    requires row.awgIpv4 == c.clients[id].awgIpv4 && c'.clients == c.clients[id := row]
    requires c'.nextClient == c.nextClient && c'.routers == c.routers && c'.peers == c.peers
    ensures KeepsRows(c, c')
  {
    SubsetKeeps(c, c');
  }

  lemma ClientRowsKeep(c: Cfg, id: nat, enabled: bool, name: string, ts: string)
    requires AddressesOk(c)
    ensures KeepsRows(c, SetClientEnabled(c, id, enabled, ts))
    ensures KeepsRows(c, UpdateClientName(c, id, name, ts))
    ensures KeepsRows(c, DeleteClient(c, id, ts))
  {
    hide KeepsRows, AddressesOk;
    SameRowsKeep(c, c);
    if LiveClient(c, id) {
      EditedRowKeeps(c, Bump(c.(clients := c.clients[id := c.clients[id].(enabled := enabled)]), ts), id,
                     c.clients[id].(enabled := enabled));
      EditedRowKeeps(c, Bump(c.(clients := c.clients[id := c.clients[id].(name := name)]), ts), id,
                     c.clients[id].(name := name));
      EditedRowKeeps(c, DeleteClient(c, id, ts), id, c.clients[id].(deletedRevision := Some(c.desired + 1)));
    }
  }

  lemma PeerRowsKeep(env: Env, c: Cfg, router: string, keys: Keys, ts: string)
    requires AddressesOk(c)
    ensures KeepsRows(c, AddPeer(env, c, router, keys).Or(c))
    ensures KeepsRows(c, EnsurePeer(env, c, router, keys, ts).Or(c))
  {
    hide Used, Allocate;
    AllocatedIsFree(env, c, 0);
    var c1 := AddPeer(env, c, router, keys).Or(c);
    if c1 != c {
      PeerRowKeeps(c, router, c1.peers[router]);
      SubsetKeeps(c1, Bump(c1, ts));
    }
  }

  lemma NewRouterKeeps(env: Env, c: Cfg, router: string, title: string, client: nat, keys: Keys, ts: string)
    requires AddressesOk(c)
    ensures KeepsRows(c, CreateRouter(env, c, router, title, client, keys, ts).Or(c))
  {
    if LiveClient(c, client) && router !in c.routers {
      var c1 := c.(routers := c.routers[router := RouterRow(client, title, true)]);
      SubsetKeeps(c, c1);
      PeerRowsKeep(env, c1, router, keys, ts);
    }
  }

  lemma RouterRowsKeep(c: Cfg, router: string, title: string, enabled: bool, ts: string)
    requires AddressesOk(c)
    ensures KeepsRows(c, SetRouterEnabled(c, router, enabled, ts).Or(c))
    ensures KeepsRows(c, UpdateRouterTitle(c, router, title).Or(c))
    ensures KeepsRows(c, DeleteRouter(c, router, ts).Or(c))
  {
    hide AddressesOk, KeepsRows, SetRouterEnabled, UpdateRouterTitle, DeleteRouter;
    SwitchRowsKeep(c, router, enabled, ts);
    TitleRowsKeep(c, router, title);
    DeletionRowsKeep(c, router, ts);
  }

  lemma SwitchRowsKeep(c: Cfg, router: string, enabled: bool, ts: string)
    requires AddressesOk(c)
    ensures KeepsRows(c, SetRouterEnabled(c, router, enabled, ts).Or(c))
  {
    SubsetKeeps(c, SetRouterEnabled(c, router, enabled, ts).Or(c));
  }

  lemma TitleRowsKeep(c: Cfg, router: string, title: string)
    requires AddressesOk(c)
    ensures KeepsRows(c, UpdateRouterTitle(c, router, title).Or(c))
  {
    SubsetKeeps(c, UpdateRouterTitle(c, router, title).Or(c));
  }

  lemma DeletionRowsKeep(c: Cfg, router: string, ts: string)
    requires AddressesOk(c)
    ensures KeepsRows(c, DeleteRouter(c, router, ts).Or(c))
  {
    SubsetKeeps(c, DeleteRouter(c, router, ts).Or(c));
  }

  lemma KeepsRowsTransitive(c: Cfg, c1: Cfg, c2: Cfg)
    requires KeepsRows(c, c1) && KeepsRows(c1, c2) && c1.desired == c.desired
    ensures KeepsRows(c, c2)
  {
    forall id | id in c.clients ensures id in c2.clients && RowPersists(c.clients[id], c2.clients[id], c.desired) {
      assert RowPersists(c.clients[id], c1.clients[id], c.desired);
      assert RowPersists(c1.clients[id], c2.clients[id], c1.desired);
    }
  }

  /** The backfill of missing client material gives every row an address of its own. */
  lemma {:induction false} FillClientsKeeps(env: Env, c: Cfg, id: nat, keys: nat -> Keys)
    requires AddressesOk(c) && FillClients(env, c, id, keys).Commit?
    ensures KeepsRows(c, FillClients(env, c, id, keys).value)
    ensures forall i | id <= i && i in c.clients :: FillClients(env, c, id, keys).value.clients[i].awgIpv4.Some?
    decreases c.nextClient - id
  {
    hide Used, LegacyOrFree;
    if id >= c.nextClient {
    } else if id !in c.clients {
      FillClientsKeeps(env, c, id + 1, keys);
    } else {
      var row := c.clients[id];
      var address := (if row.awgIpv4.Some? then Commit(row.awgIpv4.value) else LegacyOrFree(env, c, id)).value;
      var filled := row.(awgPrivate := OrElse(row.awgPrivate, keys(id).privateKey),
                         awgPublic := OrElse(row.awgPublic, keys(id).publicKey),
                         awgPreshared := OrElse(row.awgPreshared, keys(id).presharedKey),
                         awgIpv4 := Some(address));
      var c1 := c.(clients := c.clients[id := filled]);
      AllocatedIsFree(env, c, id);
      ClientRowKeeps(c, id, filled);
      assert KeepsRows(c, c1);
      FillClientsKeeps(env, c1, id + 1, keys);
      KeepsRowsTransitive(c, c1, FillClients(env, c1, id + 1, keys).value);
      assert id in c1.clients;
    }
  }

  lemma {:induction false} FillPeersKeeps(env: Env, c: Cfg, routers: seq<string>, keys: string -> Keys)
    requires AddressesOk(c) && FillPeers(env, c, routers, keys).Commit?
    ensures KeepsRows(c, FillPeers(env, c, routers, keys).value)
    decreases |routers|
  {
    if routers == [] {
    } else {
      PeerRowsKeep(env, c, routers[0], keys(routers[0]), "");
      var c1 := AddPeer(env, c, routers[0], keys(routers[0])).value;
      FillPeersKeeps(env, c1, routers[1..], keys);
      KeepsRowsTransitive(c, c1, FillPeers(env, c1, routers[1..], keys).value);
    }
  }

  lemma InitKeepsRows(env: Env, c: Cfg, generated: Settings, clientKeys: nat -> Keys, routers: seq<string>,
                      routerKeys: string -> Keys, ts: string)
    requires AddressesOk(c) && InitDb(env, c, generated, clientKeys, routers, routerKeys, ts).Commit?
    ensures KeepsRows(c, InitDb(env, c, generated, clientKeys, routers, routerKeys, ts).value)
  {
    hide FillClients, FillPeers, Distinct, Complete;
    var s := map[CurrentIp := "", HealthStatus := "UNKNOWN"] + c.settings;
    var c1 := c.(settings := FillSettings(s, generated));
    SameRowsKeep(c, c1);
    FillClientsKeeps(env, c1, 0, clientKeys);
    FillClientsFrame(env, c1, 0, clientKeys);
    var c2 := FillClients(env, c1, 0, clientKeys).value;
    KeepsRowsTransitive(c, c1, c2);
    FillPeersKeeps(env, c2, routers, routerKeys);
    var c3 := FillPeers(env, c2, routers, routerKeys).value;
    KeepsRowsTransitive(c, c2, c3);
    SameRowsKeep(c3, Bump(c3, ts));
  }

  /* ---------- the step lemma ---------- */

  lemma ConfigStepRows(env: Env, c: Cfg, e: ConfigEvent)
    requires AddressesOk(c)
    ensures KeepsRows(c, ConfigNext(env, c, e))
  {
    hide KeepsRows, AddressesOk, FillClients, FillPeers, Allocate;
    match e
    case WriteSetting(k, v, ts) => SameRowsKeep(c, SetSetting(c, k, v, ts));
    case WriteSettings(values, mark, ts) => SameRowsKeep(c, SetSettings(c, values, mark, ts));
    case MarkUpdated(ts) => SameRowsKeep(c, Bump(c, ts));
    case AddClient(f, ts) => NewClientKeeps(env, c, f, ts);
    case EnableClient(id, enabled, ts) => ClientRowsKeep(c, id, enabled, "", ts);
    case RenameClient(id, name, ts) => ClientRowsKeep(c, id, true, name, ts);
    case RemoveClient(id, ts) => ClientRowsKeep(c, id, true, "", ts);
    case AddRouter(router, title, client, keys, ts) => NewRouterKeeps(env, c, router, title, client, keys, ts);
    case IssueCredential(existing, router, title, client, keys, ts) =>
      NewRouterKeeps(env, c, router, title, client, keys, ts);
      SameRowsKeep(c, c);
      if existing.Some? {
        PeerRowsKeep(env, c, existing.value, keys, ts);
      }
    case EnableRouter(router, enabled, ts) => RouterRowsKeep(c, router, "", enabled, ts);
    case RetitleRouter(router, title) => RouterRowsKeep(c, router, title, true, "");
    case RemoveRouter(router, ts) => RouterRowsKeep(c, router, "", true, ts);
    case Initialise(generated, clientKeys, routers, routerKeys, ts) =>
      SameRowsKeep(c, c);
      if InitDb(env, c, generated, clientKeys, routers, routerKeys, ts).Commit? {
        InitKeepsRows(env, c, generated, clientKeys, routers, routerKeys, ts);
      }
  }

  function AnyClient(): ClientFields {
    ClientFields("", "", "", "", Keys("", "", ""), "")
  }

  lemma ConfigStepSnapshots(env: Env, c: Cfg, e: ConfigEvent)
    requires env.Ok() && SnapshotsOk(env, c) && ForeignKeysOk(c) && CallerOk(c, e)
    ensures var c' := ConfigNext(env, c, e);
            SnapshotsOk(env, c') && Extends(c, c') && c'.snapshots == c.snapshots && c'.applied == c.applied
  {
    hide SnapshotsOk, Extends, SetSetting, SetSettings, SilentChange, VpnChange, BumpsOrKeeps;
    if e.WriteSetting? {
      hide CallerOk;
      SetSettingKeepsRule(env, c, e);
    } else if e.WriteSettings? {
      hide CallerOk;
      SetSettingKeepsRule(env, c, e);
    } else {
      hide ConfigNext, CallerOk;
      MutatorBumpsOrKeeps(env, c, e);
      BumpsOrKeepsIsSafe(env, c, ConfigNext(env, c, e));
    }
  }

  lemma SetSettingKeepsRule(env: Env, c: Cfg, e: ConfigEvent)
    requires env.Ok() && SnapshotsOk(env, c) && CallerOk(c, e) && (e.WriteSetting? || e.WriteSettings?)
    ensures var c' := ConfigNext(env, c, e);
            SnapshotsOk(env, c') && Extends(c, c') && c'.snapshots == c.snapshots && c'.applied == c.applied
  {
    hide SnapshotsOk, Extends, IsVpnSetting, SilentChange, VpnChange, CaptureConfig;
    match e
    case WriteSetting(k, v, ts) => SetSettingKeeps(env, c, k, v, ts);
    case WriteSettings(values, mark, ts) => SetSettingsKeeps(env, c, values, mark, ts);
  }

  predicate OnClients(e: ConfigEvent) {
    e.AddClient? || e.EnableClient? || e.RenameClient? || e.RemoveClient?
  }

  lemma MutatorBumpsOrKeeps(env: Env, c: Cfg, e: ConfigEvent)
    requires env.Ok() && SnapshotsOk(env, c) && ForeignKeysOk(c) && !e.WriteSetting? && !e.WriteSettings?
    ensures BumpsOrKeeps(env, c, ConfigNext(env, c, e))
  {
    hide SnapshotsOk, BumpsOrKeeps, CaptureConfig, CreateClient, SetClientEnabled, UpdateClientName, DeleteClient,
         CreateRouter, IssueFor, SetRouterEnabled, UpdateRouterTitle, DeleteRouter, InitDb, SetSetting, SetSettings;
    match e
    case MarkUpdated(ts) => UnchangedOrBumped(env, c, ts);
    case EnableRouter(router, enabled, ts) => RouterMutatorsBump(env, c, router, enabled, ts);
    case RetitleRouter(router, title) => RouterTitleKeepsCapture(env, c, router, title);
    case RemoveRouter(router, ts) => RouterMutatorsBump(env, c, router, true, ts);
    case Initialise(generated, clientKeys, routers, routerKeys, ts) =>
      UnchangedOrBumped(env, c, ts);
      if InitDb(env, c, generated, clientKeys, routers, routerKeys, ts).Commit? {
        InitBumpsOrKeeps(env, c, generated, clientKeys, routers, routerKeys, ts);
      }
    case _ =>
      hide ConfigNext;
      if OnClients(e) {
        ClientEventBumps(env, c, e);
      } else {
        PeerEventBumps(env, c, e);
      }
  }

  lemma UnchangedOrBumped(env: Env, c: Cfg, ts: string)
    ensures BumpsOrKeeps(env, c, c) && BumpsOrKeeps(env, c, Bump(c, ts))
  {
    hide CaptureConfig;
  }

  lemma ClientEventBumps(env: Env, c: Cfg, e: ConfigEvent)
    requires env.Ok() && OnClients(e)
    ensures BumpsOrKeeps(env, c, ConfigNext(env, c, e))
  {
    hide BumpsOrKeeps, CaptureConfig, CreateClient, SetClientEnabled, UpdateClientName, DeleteClient, CreateRouter, IssueFor,
         SetRouterEnabled, UpdateRouterTitle, DeleteRouter, InitDb, SetSetting, SetSettings;
    match e
    case AddClient(f, ts) => ClientMutatorsBump(env, c, f, 0, true, "", ts);
    case EnableClient(id, enabled, ts) => ClientMutatorsBump(env, c, AnyClient(), id, enabled, "", ts);
    case RenameClient(id, name, ts) => ClientMutatorsBump(env, c, AnyClient(), id, true, name, ts);
    case RemoveClient(id, ts) => ClientMutatorsBump(env, c, AnyClient(), id, true, "", ts);
  }

  lemma PeerEventBumps(env: Env, c: Cfg, e: ConfigEvent)
    requires env.Ok() && ForeignKeysOk(c) && (e.AddRouter? || e.IssueCredential?)
    ensures BumpsOrKeeps(env, c, ConfigNext(env, c, e))
  {
    hide BumpsOrKeeps, CaptureConfig, CreateClient, SetClientEnabled, UpdateClientName, DeleteClient, CreateRouter, IssueFor,
         SetRouterEnabled, UpdateRouterTitle, DeleteRouter, InitDb, SetSetting, SetSettings;
    match e
    case AddRouter(router, title, client, keys, ts) => PeerMutatorsBump(env, c, router, None, title, client, keys, ts);
    case IssueCredential(existing, router, title, client, keys, ts) =>
      PeerMutatorsBump(env, c, router, existing, title, client, keys, ts);
  }

  /** No configuration transaction breaks the snapshots, the reservations, or the applied configuration. */
  lemma ConfigStepKeeps(env: Env, c: Cfg, e: ConfigEvent)
    requires env.Ok() && CfgInv(env, c) && CallerOk(c, e)
    ensures var c' := ConfigNext(env, c, e);
            CfgInv(env, c') && Extends(c, c') && c'.snapshots == c.snapshots && c'.applied == c.applied
  {
    hide SnapshotsOk, ConfigNext, Distinct, CallerOk;
    ConfigStepRows(env, c, e);
    ConfigStepSnapshots(env, c, e);
    PersistingRowsKeepServed(env, c, ConfigNext(env, c, e));
  }
}
