/** Immutable snapshots and the desired/applied revisions (app/vpn_state.py), and the invariant that makes
    "one revision, one content" hold in every reachable database. */
module Snapshots {
  import opened Base
  import opened VpnConfig
  import opened Tables
  import opened Capture
  import opened ConfigStore

  /* ---------- transactions on vpn_snapshots and vpn_state ---------- */

  /** _ensure_snapshot of the configuration captured in this transaction */
  function EnsureSnapshot(env: Env, c: Cfg, reprepare: bool): Tx<Cfg> {
    var config := CaptureConfig(env, c);
    if config.None? then Raise(BadValue)
    else
      var payload := ToPayload(config.value);
      if c.desired in c.snapshots then
        var row := c.snapshots[c.desired];
        if row.payload != payload || row.sha != Digest(payload) then Raise(DifferentContent)
        else if reprepare && !row.lifecycle.APPLIED?
        then Commit(c.(snapshots := c.snapshots[c.desired := row.(lifecycle := PREPARED)]))
        else Commit(c)
      else
        Commit(c.(snapshots := c.snapshots[c.desired := Snapshot(payload, Digest(payload), PREPARED, None)]))
  }

  /** The row of a replaced SprintBOX server: its box name, and its SSH key when one is given. */
  datatype NewBox = NewBox(name: string, keyPath: Option<string>)

  function PublishedSettings(s: Settings, ip: string, box: Option<NewBox>, ts: string): Settings {
    var s1 := s[CurrentIp := ip][ConfigUpdatedAt := ts][HealthStatus := "OK"];
    if box.None? then s1
    else
      var s2 := s1[Sprint(BOXNAME) := box.value.name][Ssh(HOST) := ""];
      if box.value.keyPath.None? then s2
      else s2[Ssh(USER) := "root"][Ssh(PORT) := "22"][Ssh(KEYPATH) := box.value.keyPath.value][Ssh(PASSWORD) := ""]
  }

  function MarkApplied(row: Snapshot, ts: string): Snapshot {
    row.(lifecycle := APPLIED, appliedAt := Some(row.appliedAt.GetOr(ts)))
  }

  /** The configuration half of publish_ip_change for the bound revision. */
  function PublishConfig(c: Cfg, bound: nat, ip: string, box: Option<NewBox>, ts: string): Tx<Cfg> {
    if bound !in c.snapshots then Raise(NotFound)
    else if c.desired != bound then Raise(ConfigChanged)
    else
      var config := FromPayload(c.snapshots[bound].payload);
      if config.None? then Raise(BadValue)
      else if bound + 1 in c.snapshots then Raise(KeyCollision)
      else
        var payload := ToPayload(config.value.(currentIp := ip, configUpdatedAt := ts, revision := bound + 1));
        var snapshots := c.snapshots[bound + 1 := Snapshot(payload, Digest(payload), APPLIED, Some(ts))]
                                    [bound := MarkApplied(c.snapshots[bound], ts)];
        Commit(Purge(c.(snapshots := snapshots, settings := PublishedSettings(c.settings, ip, box, ts),
                        desired := bound + 1, applied := Some(bound + 1))))
  }

  /** The configuration half of complete_install_operation. */
  function CompleteConfig(c: Cfg, revision: nat, ts: string): Tx<Cfg> {
    if revision !in c.snapshots then Raise(NotFound)
    else
      var row := c.snapshots[revision].(lifecycle := APPLIED, appliedAt := Some(ts));
      var applied := if c.applied.None? || c.applied.value < revision then revision else c.applied.value;
      Commit(Purge(c.(snapshots := c.snapshots[revision := row], applied := Some(applied))))
  }

  /** A failed, ambiguous or interrupted install marks its revision, unless that revision is applied. */
  function FailSnapshot(c: Cfg, revision: nat): Cfg {
    if revision in c.snapshots && !c.snapshots[revision].lifecycle.APPLIED?
    then c.(snapshots := c.snapshots[revision := c.snapshots[revision].(lifecycle := FAILED)])
    else c
  }

  /* ---------- the invariant ---------- */

  /** The snapshot stored for the desired revision is the canonical capture of the live tables. */
  ghost predicate DesiredIsCaptured(env: Env, c: Cfg) {
    c.desired in c.snapshots ==>
      CaptureConfig(env, c).Some? && c.snapshots[c.desired].payload == ToPayload(CaptureConfig(env, c).value)
  }

  ghost predicate SnapshotsOk(env: Env, c: Cfg) {
    && (forall r | r in c.snapshots ::
          && r <= c.desired && c.snapshots[r].sha == Digest(c.snapshots[r].payload)
          && c.snapshots[r].payload.revision == r && c.snapshots[r].payload.schemaVersion == 1)
    && DesiredIsCaptured(env, c)
    && (c.applied.Some? ==> c.applied.value in c.snapshots && c.snapshots[c.applied.value].lifecycle.APPLIED?)
  }

  /** What no later transaction undoes: contents of stored revisions, APPLIED marks, and both counters. */
  ghost predicate Extends(c: Cfg, c': Cfg) {
    && c.desired <= c'.desired
    && (c.applied.Some? ==> c'.applied.Some? && c.applied.value <= c'.applied.value)
    && (forall r | r in c.snapshots ::
          && r in c'.snapshots && c'.snapshots[r].payload == c.snapshots[r].payload
          && c'.snapshots[r].sha == c.snapshots[r].sha
          && (c.snapshots[r].lifecycle.APPLIED? ==> c'.snapshots[r].lifecycle.APPLIED?))
  }

  /** Any transaction that moves the desired revision and leaves the snapshots alone is safe. */
  lemma BumpedKeeps(env: Env, c: Cfg, c': Cfg)
    requires SnapshotsOk(env, c) && c.desired < c'.desired
    requires c'.snapshots == c.snapshots && c'.applied == c.applied
    ensures SnapshotsOk(env, c') && Extends(c, c')
  {
  }

  /* ---------- settings ---------- */

  /** A write of the empty text to an absent row that the capture reads as a change although the stored value
      looks the same: an enabled switch whose port is not blank, a port with no enabled switch, or an
      obfuscation number. A caller can test it before the call. */
  predicate SilentChange(s: Settings, k: Key, v: string) {
    && v == "" && k !in s
    && match k
       case Enabled(p) => Port(p) !in s || s[Port(p)] != ""
       case Port(p) => Enabled(p) !in s
       case Obf(_) => true
       case _ => false
  }

  /** Every captured key other than the update time is recognised by its prefix. */
  lemma CapturedKeysAreVpn(k: Key)
    requires IsCaptured(k) && !k.ConfigUpdatedAt?
    ensures IsVpnSetting(k)
  {
    var n := KeyName(k);
    match k
    case CurrentIp =>
    case Enabled(p) => assert n == ("config." + ProtoName(p) + "_") + "enabled"; ProtoPrefix(p, "enabled");
    case Port(p) => assert n == ("config." + ProtoName(p) + "_") + "port"; ProtoPrefix(p, "port");
    case Secret(name) => SecretPrefix(name);
    case Tunable(name) => TunablePrefix(name);
    case Obf(_) => assert "amnezia." <= n;
  }

  lemma SecretPrefix(name: SecretName)
    ensures IsVpnName(KeyName(Secret(name)))
  {
    var n := KeyName(Secret(name));
    assert "vless." <= n || "hysteria." <= n || "amnezia." <= n;
  }

  lemma TunablePrefix(name: TunableName)
    ensures IsVpnName(KeyName(Tunable(name)))
  {
    var n := KeyName(Tunable(name));
    assert "config.amnezia_" <= n || "config.vless_" <= n;
  }

  lemma ProtoPrefix(p: Proto, rest: string)
    ensures IsVpnName("config." + ProtoName(p) + "_" + rest)
  {
    var n := "config." + ProtoName(p) + "_" + rest;
    match p
    case VLESS => assert "config.vless_" <= n;
    case HYSTERIA => assert "config.hysteria_" <= n;
    case AMNEZIA => assert "config.amnezia_" <= n;
  }

  /** A write that the comparison in set_setting sees as no change is one the capture does not see either,
      except a silent one. */
  lemma EqualWriteKeepsReadings(env: Env, s: Settings, k: Key, v: string)
    requires env.Ok() && !SilentChange(s, k, v)
    requires IsCaptured(k) ==> Get(s, k) == v
    ensures SameReadings(env, s, s[k := v])
  {
    var s' := s[k := v];
    forall p ensures CaptureProtocol(env, s, p) == CaptureProtocol(env, s', p) {
      if k != Enabled(p) && k != Port(p) {
        assert Enabled(p) in s <==> Enabled(p) in s';
      }
    }
    forall o ensures CaptureNumber(env, s, o) == CaptureNumber(env, s', o) {
    }
    forall n ensures Get(s, Secret(n)) == Get(s', Secret(n)) {
    }
    forall t ensures Configured(env, s, t) == Configured(env, s', t) {
      assert Get(s, Tunable(t)) == Get(s', Tunable(t));
    }
  }

  lemma SettingWriteKeepsTables(c: Cfg, s: Settings)
    ensures CaptureClients(c) == CaptureClients(c.(settings := s))
    ensures CapturePeers(c) == CapturePeers(c.(settings := s))
  {
  }

  lemma SetSettingKeeps(env: Env, c: Cfg, k: Key, v: string, ts: string)
    requires env.Ok() && SnapshotsOk(env, c) && !SilentChange(c.settings, k, v) && !k.ConfigUpdatedAt?
    ensures SnapshotsOk(env, SetSetting(c, k, v, ts)) && Extends(c, SetSetting(c, k, v, ts))
  {
    hide SnapshotsOk, Extends, SilentChange, IsVpnSetting, CaptureConfig;
    var c' := SetSetting(c, k, v, ts);
    if c'.desired > c.desired {
      BumpedKeeps(env, c, c');
    } else {
      QuietWriteKeepsCapture(env, c, k, v, ts);
      SameCaptureIsSafe(env, c, c');
    }
  }

  lemma QuietWriteKeepsCapture(env: Env, c: Cfg, k: Key, v: string, ts: string)
    requires env.Ok() && !SilentChange(c.settings, k, v) && !k.ConfigUpdatedAt?
    requires SetSetting(c, k, v, ts).desired == c.desired
    ensures CaptureConfig(env, SetSetting(c, k, v, ts)) == CaptureConfig(env, c)
  {
    hide SilentChange, IsVpnSetting, CaptureConfig, CaptureClients, CapturePeers, SameReadings;
    var c' := SetSetting(c, k, v, ts);
    if IsCaptured(k) {
      CapturedKeysAreVpn(k);
    }
    EqualWriteKeepsReadings(env, c.settings, k, v);
    SettingWriteKeepsTables(c, c'.settings);
    CaptureFrame(env, c, c');
  }

  lemma SameCaptureIsSafe(env: Env, c: Cfg, c': Cfg)
    requires SnapshotsOk(env, c) && CaptureConfig(env, c') == CaptureConfig(env, c)
    requires c'.desired == c.desired && c'.snapshots == c.snapshots && c'.applied == c.applied
    ensures SnapshotsOk(env, c') && Extends(c, c')
  {
    hide CaptureConfig;
  }

  /** The other half: a silent blank, alone or in a batch that changes nothing else, makes the capture fail or changes
      its record, and leaves the revision where it was. */
  lemma SilentWriteChangesRecord(env: Env, c: Cfg, values: Settings, k: Key)
    requires env.Ok() && k in values && SilentChange(c.settings, k, values[k]) && CaptureConfig(env, c).Some?
    requires forall x | x in values && IsCaptured(x) :: Get(c.settings, x) == values[x]
    ensures var after := CaptureConfig(env, c.(settings := c.settings + values));
            after.None? || ToPayload(after.value) != ToPayload(CaptureConfig(env, c).value)
  {
    var c' := c.(settings := c.settings + values);
    CaptureReads(env, c);
    if k.Obf? {
      assert CaptureNumber(env, c'.settings, k.o).None?;
      UnreadNumberFails(env, c', k.o);
    } else {
      var p := k.p;
      assert Enabled(p) in values ==> IsCaptured(Enabled(p)) && values[Enabled(p)] == "";
      assert CaptureProtocol(env, c.settings, p).value.enabled && CaptureProtocol(env, c'.settings, p).Some?
             && !CaptureProtocol(env, c'.settings, p).value.enabled by {
        assert Port(p) in values ==> IsCaptured(Port(p)) && values[Port(p)] == Get(c.settings, Port(p));
      }
      hide CaptureConfig, ToPayload, CaptureProtocol;
      if CaptureConfig(env, c').Some? {
        CaptureReads(env, c');
        if ToPayload(CaptureConfig(env, c').value) == ToPayload(CaptureConfig(env, c).value) {
          ProtocolsAreRecorded(CaptureConfig(env, c).value, CaptureConfig(env, c').value, p);
          assert false;
        }
      }
    }
  }

  lemma ProtocolsAreRecorded(a: Config, b: Config, p: Proto)
    requires ToPayload(a) == ToPayload(b)
    ensures ProtocolOf(a, p) == ProtocolOf(b, p)
  {
  }

  lemma UnreadNumberFails(env: Env, c: Cfg, o: ObfuscationName)
    requires CaptureNumber(env, c.settings, o).None?
    ensures CaptureConfig(env, c).None?
  {
  }

  /** Exactly when set_setting keeps "one revision, one content", once the desired revision is stored: when the
      write is not a silent one. */
  lemma SetSettingIsSafeExactlyWhen(env: Env, c: Cfg, k: Key, v: string, ts: string)
    requires env.Ok() && SnapshotsOk(env, c) && c.desired in c.snapshots && !k.ConfigUpdatedAt?
    ensures SnapshotsOk(env, SetSetting(c, k, v, ts)) <==> !SilentChange(c.settings, k, v)
  {
    if SilentChange(c.settings, k, v) {
      SilentWriteChangesRecord(env, c, map[k := v], k);
      SilentWriteKeepsRevision(c, k, v, ts);
      hide SetSetting, CaptureConfig, ToPayload;
    } else {
      SetSettingKeeps(env, c, k, v, ts);
    }
  }

  lemma SetSettingsKeeps(env: Env, c: Cfg, values: Settings, mark: bool, ts: string)
    requires env.Ok() && SnapshotsOk(env, c) && ConfigUpdatedAt !in values
    requires forall k | k in values :: !SilentChange(c.settings, k, values[k])
    requires mark || forall k | k in values :: !IsCaptured(k)
    ensures SnapshotsOk(env, SetSettings(c, values, mark, ts)) && Extends(c, SetSettings(c, values, mark, ts))
  {
    var c' := SetSettings(c, values, mark, ts);
    if c'.desired > c.desired {
      BumpedKeeps(env, c, c');
    } else {
      forall k | k in values && IsCaptured(k) ensures Get(c.settings, k) == values[k] {
        CapturedKeysAreVpn(k);
      }
      EqualWritesKeepReadings(env, c.settings, values);
      SettingWriteKeepsTables(c, c'.settings);
      CaptureFrame(env, c, c');
    }
  }

  lemma SilentWriteKeepsRevision(c: Cfg, k: Key, v: string, ts: string)
    requires SilentChange(c.settings, k, v)
    ensures SetSetting(c, k, v, ts) == c.(settings := c.settings + map[k := v])
  {
  }

  /** Exactly when a marked batch keeps it: when something else in the batch counts as a change, or nothing in it is a
      silent blank. */
  lemma SetSettingsIsSafeExactlyWhen(env: Env, c: Cfg, values: Settings, ts: string)
    requires env.Ok() && SnapshotsOk(env, c) && c.desired in c.snapshots && ConfigUpdatedAt !in values
    ensures SnapshotsOk(env, SetSettings(c, values, true, ts))
       <==> VpnChange(c, values) || forall k | k in values :: !SilentChange(c.settings, k, values[k])
  {
    var c' := SetSettings(c, values, true, ts);
    if VpnChange(c, values) {
      BumpedKeeps(env, c, c');
    } else if k :| k in values && SilentChange(c.settings, k, values[k]) {
      forall x | x in values && IsCaptured(x) ensures Get(c.settings, x) == values[x] {
        CapturedKeysAreVpn(x);
      }
      SilentWriteChangesRecord(env, c, values, k);
      hide CaptureConfig, ToPayload;
    } else {
      SetSettingsKeeps(env, c, values, true, ts);
    }
  }

  lemma EqualWritesKeepReadings(env: Env, s: Settings, values: Settings)
    requires env.Ok() && forall k | k in values :: !SilentChange(s, k, values[k])
    requires forall k | k in values && IsCaptured(k) :: Get(s, k) == values[k]
    ensures SameReadings(env, s, s + values)
  {
    var s' := s + values;
    forall k | IsCaptured(k) ensures Get(s, k) == Get(s', k) && (k in s ==> k in s') {
    }
    forall p ensures CaptureProtocol(env, s, p) == CaptureProtocol(env, s', p) {
      var e, port := Enabled(p), Port(p);
      assert IsCaptured(e) && IsCaptured(port);
      assert e in values ==> !SilentChange(s, e, values[e]);
      assert port in values ==> !SilentChange(s, port, values[port]);
    }
    forall o ensures CaptureNumber(env, s, o) == CaptureNumber(env, s', o) {
      assert Obf(o) in values ==> !SilentChange(s, Obf(o), values[Obf(o)]);
    }
    forall t ensures Configured(env, s, t) == Configured(env, s', t) {
      assert Get(s, Tunable(t)) == Get(s', Tunable(t));
    }
  }

  /* ---------- clients and routers ---------- */

  /** A transaction either bumps the revision or leaves every captured table as it was; in both cases it leaves
      the snapshots alone. */
  ghost predicate BumpsOrKeeps(env: Env, c: Cfg, c': Cfg) {
    && c'.snapshots == c.snapshots && c'.applied == c.applied
    && (c.desired < c'.desired || (c.desired == c'.desired && CaptureConfig(env, c) == CaptureConfig(env, c')))
  }

  lemma BumpsOrKeepsIsSafe(env: Env, c: Cfg, c': Cfg)
    requires SnapshotsOk(env, c) && BumpsOrKeeps(env, c, c')
    ensures SnapshotsOk(env, c') && Extends(c, c') && c'.snapshots == c.snapshots && c'.applied == c.applied
  {
  }

  lemma ClientMutatorsBump(env: Env, c: Cfg, f: ClientFields, id: nat, enabled: bool, name: string, ts: string)
    ensures BumpsOrKeeps(env, c, CreateClient(env, c, f, ts).Or(c))
    ensures BumpsOrKeeps(env, c, SetClientEnabled(c, id, enabled, ts))
    ensures BumpsOrKeeps(env, c, UpdateClientName(c, id, name, ts))
    ensures BumpsOrKeeps(env, c, DeleteClient(c, id, ts))
  {
  }

  /** Writing one client row changes that entry of the captured clients and no other. */
  lemma OneRowShows(c: Cfg, c': Cfg, id: nat, row: ClientRow)
    requires c'.clients == c.clients[id := row]
    ensures CaptureClients(c') == if row.Live() then CaptureClients(c)[id := CaptureClient(row)] else CaptureClients(c) - {id}
  {
  }

  /** What the client mutators show: enabling, renaming or deleting touches the entry of that client alone. */
  lemma ClientMutatorsShow(c: Cfg, id: nat, enabled: bool, name: string, ts: string)
    requires LiveClient(c, id)
    ensures id in CaptureClients(c)
    ensures CaptureClients(SetClientEnabled(c, id, enabled, ts))
         == CaptureClients(c)[id := CaptureClients(c)[id].(enabled := enabled)]
    ensures CaptureClients(UpdateClientName(c, id, name, ts)) == CaptureClients(c)[id := CaptureClients(c)[id].(name := name)]
    ensures CaptureClients(DeleteClient(c, id, ts)) == CaptureClients(c) - {id}
  {
    var row := c.clients[id];
    OneRowShows(c, SetClientEnabled(c, id, enabled, ts), id, row.(enabled := enabled));
    OneRowShows(c, UpdateClientName(c, id, name, ts), id, row.(name := name));
    OneRowShows(c, DeleteClient(c, id, ts), id, row.(deletedRevision := Some(c.desired + 1)));
    assert CaptureClients(c)[id] == CaptureClient(row);
    hide CaptureClients;
  }

  /** A new client appears under a new id, enabled and with the address the allocator gave. */
  lemma NewClientShows(env: Env, c: Cfg, f: ClientFields, ts: string)
    requires c.nextClient !in c.clients && CreateClient(env, c, f, ts).Commit?
    ensures var shown := CaptureClients(CreateClient(env, c, f, ts).value);
            && shown - {c.nextClient} == CaptureClients(c)
            && c.nextClient in shown && shown[c.nextClient].token == f.token && shown[c.nextClient].enabled
            && shown[c.nextClient].awgIpv4 == Some(Allocate(env, c).value)
  {
    hide Allocate;
    var c' := CreateClient(env, c, f, ts).value;
    OneRowShows(c, c', c.nextClient, c'.clients[c.nextClient]);
    assert c.nextClient !in CaptureClients(c);
    hide CaptureClients;
  }

  /** Disabling or deleting a router takes its peer away, and no other. */
  lemma RouterLeaves(c: Cfg, router: string, ts: string)
    requires router in c.routers
    ensures CapturePeers(SetRouterEnabled(c, router, false, ts).value) == CapturePeers(c) - {router}
    ensures CapturePeers(DeleteRouter(c, router, ts).value) == CapturePeers(c) - {router}
  {
  }

  /** Enabling a router shows its peer exactly when it has one and its client is live and enabled. */
  lemma RouterReturns(c: Cfg, router: string, ts: string)
    requires router in c.routers
    ensures var on := SetRouterEnabled(c, router, true, ts).value;
            && CapturePeers(on) - {router} == CapturePeers(c) - {router}
            && (router in CapturePeers(on)
                <==> && router in c.peers && LiveClient(c, c.routers[router].clientId)
                     && c.clients[c.routers[router].clientId].enabled)
  {
    var on := SetRouterEnabled(c, router, true, ts).value;
    assert router in CapturePeers(on) <==> PeerServed(on, router);
  }

  lemma PeerMutatorsBump(env: Env, c: Cfg, router: string, existing: Option<string>, title: string, client: nat,
                         keys: Keys, ts: string)
    requires ForeignKeysOk(c)
    ensures BumpsOrKeeps(env, c, CreateRouter(env, c, router, title, client, keys, ts).Or(c))
    ensures BumpsOrKeeps(env, c, IssueFor(env, c, existing, router, title, client, keys, ts).Or(c))
    ensures BumpsOrKeeps(env, c, EnsurePeer(env, c, router, keys, ts).Or(c))
  {
    hide CaptureConfig, Allocate;
  }

  lemma RouterMutatorsBump(env: Env, c: Cfg, router: string, enabled: bool, ts: string)
    ensures BumpsOrKeeps(env, c, SetRouterEnabled(c, router, enabled, ts).Or(c))
    ensures BumpsOrKeeps(env, c, DeleteRouter(c, router, ts).Or(c))
  {
    hide CaptureConfig;
  }

  lemma RouterTitleKeepsCapture(env: Env, c: Cfg, router: string, title: string)
    ensures BumpsOrKeeps(env, c, UpdateRouterTitle(c, router, title).Or(c))
  {
    hide CaptureConfig;
    var c' := UpdateRouterTitle(c, router, title).Or(c);
    assert CaptureClients(c) == CaptureClients(c');
    forall r ensures PeerServed(c, r) == PeerServed(c', r) {
    }
    assert CapturePeers(c) == CapturePeers(c');
    SameSettings(env, c, c');
  }

  lemma SameSettings(env: Env, c: Cfg, c': Cfg)
    requires c.settings == c'.settings && c.desired == c'.desired
    requires CaptureClients(c) == CaptureClients(c') && CapturePeers(c) == CapturePeers(c')
    ensures CaptureConfig(env, c) == CaptureConfig(env, c')
  {
    CaptureFrame(env, c, c');
  }

  /** Purging applied deletions, and the routers and peers that go with them, does not change the capture. */
  lemma PurgeKeepsCapture(env: Env, c: Cfg)
    ensures CaptureConfig(env, Purge(c)) == CaptureConfig(env, c)
  {
    hide CaptureConfig;
    var c' := Purge(c);
    assert CaptureClients(c) == CaptureClients(c');
    forall r | r in c.peers && PeerServed(c, r) ensures PeerServed(c', r) {
    }
    assert CapturePeers(c) == CapturePeers(c');
    SameSettings(env, c, c');
  }

  lemma ResetKeepsReadings(env: Env, s: Settings, s': Settings)
    requires Get(s, CurrentIp) == Get(s', CurrentIp)
    requires forall k | IsCaptured(k) && !k.CurrentIp? :: (k in s <==> k in s') && (k in s ==> s[k] == s'[k])
    ensures SameReadings(env, s, s')
  {
    assert IsCaptured(ConfigUpdatedAt);
    forall p ensures CaptureProtocol(env, s, p) == CaptureProtocol(env, s', p) {
      assert IsCaptured(Enabled(p)) && IsCaptured(Port(p));
    }
    forall o ensures CaptureNumber(env, s, o) == CaptureNumber(env, s', o) {
      assert IsCaptured(Obf(o));
    }
    forall n ensures Get(s, Secret(n)) == Get(s', Secret(n)) {
      assert IsCaptured(Secret(n));
    }
    forall t ensures Configured(env, s, t) == Configured(env, s', t) {
      assert IsCaptured(Tunable(t));
    }
  }

  lemma ResetBumpsOrKeeps(env: Env, c: Cfg, ts: string)
    ensures BumpsOrKeeps(env, c, ResetSettings(c, ts))
  {
    hide CaptureConfig, KeyName;
    var c' := ResetSettings(c, ts);
    if !ResetBumps(c) {
      assert forall k | IsCaptured(k) && !k.CurrentIp? :: !ResetDrops(k);
      ResetKeepsReadings(env, c.settings, c'.settings);
      SettingWriteKeepsTables(c, c'.settings);
      CaptureFrame(env, c, c');
    }
  }

  /* ---------- initialisation ---------- */

  lemma FillClientsFrame(env: Env, c: Cfg, id: nat, keys: nat -> Keys)
    requires FillClients(env, c, id, keys).Commit?
    ensures var c' := FillClients(env, c, id, keys).value; c' == c.(clients := c'.clients)
    ensures (forall i | i in c.clients :: Complete(c.clients[i])) ==> FillClients(env, c, id, keys).value == c
    decreases c.nextClient - id
  {
    if id < c.nextClient {
      if id !in c.clients {
        FillClientsFrame(env, c, id + 1, keys);
      } else {
        var row := c.clients[id];
        var address := (if row.awgIpv4.Some? then Commit(row.awgIpv4.value) else LegacyOrFree(env, c, id)).value;
        var filled := row.(awgPrivate := OrElse(row.awgPrivate, keys(id).privateKey),
                           awgPublic := OrElse(row.awgPublic, keys(id).publicKey),
                           awgPreshared := OrElse(row.awgPreshared, keys(id).presharedKey),
                           awgIpv4 := Some(address));
        FillClientsFrame(env, c.(clients := c.clients[id := filled]), id + 1, keys);
        if Complete(row) {
          assert filled == row && c.clients[id := filled] == c.clients;
        }
      }
    }
  }

  lemma FillPeersFrame(env: Env, c: Cfg, routers: seq<string>, keys: string -> Keys)
    requires FillPeers(env, c, routers, keys).Commit?
    ensures var c' := FillPeers(env, c, routers, keys).value; c' == c.(peers := c'.peers)
    ensures (forall i | 0 <= i < |routers| :: routers[i] in c.peers) ==> FillPeers(env, c, routers, keys).value == c
    decreases |routers|
  {
    if routers != [] {
      var c1 := AddPeer(env, c, routers[0], keys(routers[0])).value;
      FillPeersFrame(env, c1, routers[1..], keys);
      if forall i | 0 <= i < |routers| :: routers[i] in c.peers {
        assert c1 == c;
      }
    }
  }

  lemma InitBumpsOrKeeps(env: Env, c: Cfg, generated: Settings, clientKeys: nat -> Keys, routers: seq<string>,
                         routerKeys: string -> Keys, ts: string)
    requires InitDb(env, c, generated, clientKeys, routers, routerKeys, ts).Commit?
    ensures BumpsOrKeeps(env, c, InitDb(env, c, generated, clientKeys, routers, routerKeys, ts).value)
  {
    hide CaptureConfig, CaptureClients, CapturePeers, FillClients, FillPeers, FillSettings, Complete, Get;
    var s := map[CurrentIp := "", HealthStatus := "UNKNOWN"] + c.settings;
    var c1 := c.(settings := FillSettings(s, generated));
    FillClientsFrame(env, c1, 0, clientKeys);
    var c2 := FillClients(env, c1, 0, clientKeys).value;
    FillPeersFrame(env, c2, routers, routerKeys);
    if !(exists k | k in generated :: Get(s, k) == "") {
      NothingGenerated(s, generated);
      DefaultsKeepCapture(env, c);
    }
  }

  lemma NothingGenerated(s: Settings, generated: Settings)
    requires forall k | k in generated :: Get(s, k) != ""
    ensures FillSettings(s, generated) == s
  {
  }

  lemma DefaultsKeepCapture(env: Env, c: Cfg)
    ensures var s := map[CurrentIp := "", HealthStatus := "UNKNOWN"] + c.settings;
            CaptureConfig(env, c.(settings := s)) == CaptureConfig(env, c)
  {
    hide CaptureConfig, CaptureClients, CapturePeers;
    var s := map[CurrentIp := "", HealthStatus := "UNKNOWN"] + c.settings;
    SettingWriteKeepsTables(c, s);
    ResetKeepsReadings(env, c.settings, s);
    CaptureFrame(env, c, c.(settings := s));
  }

  /* ---------- prepare, publish, complete ---------- */

  /** Storing the captured record for the desired revision is safe, over nothing or over itself. */
  lemma StoreKeeps(env: Env, c: Cfg, row: Snapshot)
    requires SnapshotsOk(env, c) && CaptureConfig(env, c).Some?
    requires row.payload == ToPayload(CaptureConfig(env, c).value) && row.sha == Digest(row.payload)
    requires c.desired in c.snapshots && c.snapshots[c.desired].lifecycle.APPLIED? ==> row.lifecycle.APPLIED?
    ensures var c' := c.(snapshots := c.snapshots[c.desired := row]); SnapshotsOk(env, c') && Extends(c, c')
  {
    hide CaptureConfig, ToPayload;
    CapturedHeader(env, c);
    SnapshotWriteKeepsCapture(env, c, c.snapshots[c.desired := row], c.applied);
    assert c.(snapshots := c.snapshots[c.desired := row])
        == c.(snapshots := c.snapshots[c.desired := row], applied := c.applied);
  }

  /** The "different immutable content" error is unreachable, and preparing keeps the invariant. */
  lemma PrepareKeeps(env: Env, c: Cfg, reprepare: bool)
    requires SnapshotsOk(env, c)
    ensures EnsureSnapshot(env, c, reprepare).Commit? <==> CaptureConfig(env, c).Some?
    ensures EnsureSnapshot(env, c, reprepare).Raise? ==> EnsureSnapshot(env, c, reprepare).error == BadValue
    ensures var c' := EnsureSnapshot(env, c, reprepare).Or(c);
            SnapshotsOk(env, c') && Extends(c, c') && c' == c.(snapshots := c'.snapshots)
    ensures EnsureSnapshot(env, c, reprepare).Commit?
        ==> c.desired in EnsureSnapshot(env, c, reprepare).value.snapshots
  {
    hide CaptureConfig, ToPayload;
    if CaptureConfig(env, c).Some? {
      var payload := ToPayload(CaptureConfig(env, c).value);
      if c.desired in c.snapshots {
        StoreKeeps(env, c, c.snapshots[c.desired].(lifecycle :=
          if reprepare && !c.snapshots[c.desired].lifecycle.APPLIED? then PREPARED
          else c.snapshots[c.desired].lifecycle));
        assert c.snapshots[c.desired := c.snapshots[c.desired]] == c.snapshots;
      } else {
        StoreKeeps(env, c, Snapshot(payload, Digest(payload), PREPARED, None));
      }
    }
  }

  lemma CapturedHeader(env: Env, c: Cfg)
    requires CaptureConfig(env, c).Some?
    ensures var p := ToPayload(CaptureConfig(env, c).value); p.revision == c.desired && p.schemaVersion == 1
  {
    hide CaptureVless, CaptureHysteria, CaptureAmnezia;
  }

  lemma SnapshotWriteKeepsCapture(env: Env, c: Cfg, snapshots: map<nat, Snapshot>, applied: Option<nat>)
    ensures CaptureConfig(env, c.(snapshots := snapshots, applied := applied)) == CaptureConfig(env, c)
  {
    hide CaptureConfig;
    var c' := c.(snapshots := snapshots, applied := applied);
    assert CaptureClients(c) == CaptureClients(c') && CapturePeers(c) == CapturePeers(c');
    SameSettings(env, c, c');
  }

  /** Completing an install applies its revision unless a later one is applied already. */
  lemma CompleteKeeps(env: Env, c: Cfg, revision: nat, ts: string)
    requires SnapshotsOk(env, c) && revision in c.snapshots
    ensures CompleteConfig(c, revision, ts).Commit?
    ensures var c' := CompleteConfig(c, revision, ts).value;
            SnapshotsOk(env, c') && Extends(c, c') && c'.desired == c.desired && c'.applied.value >= revision
  {
    hide CaptureConfig, SnapshotsOk, Extends, Purge;
    var row := c.snapshots[revision].(lifecycle := APPLIED, appliedAt := Some(ts));
    var applied := if c.applied.None? || c.applied.value < revision then revision else c.applied.value;
    var c1 := c.(snapshots := c.snapshots[revision := row], applied := Some(applied));
    AppliedKeeps(env, c, c1, revision, ts);
    PurgedKeeps(env, c, c1);
  }

  lemma AppliedKeeps(env: Env, c: Cfg, c1: Cfg, revision: nat, ts: string)
    requires SnapshotsOk(env, c) && revision in c.snapshots
    requires c1.snapshots == c.snapshots[revision := c.snapshots[revision].(lifecycle := APPLIED, appliedAt := Some(ts))]
    requires c1.applied == Some(if c.applied.None? || c.applied.value < revision then revision else c.applied.value)
    requires c1 == c.(snapshots := c1.snapshots, applied := c1.applied)
    ensures SnapshotsOk(env, c1) && Extends(c, c1)
  {
    hide CaptureConfig;
    SnapshotWriteKeepsCapture(env, c, c1.snapshots, c1.applied);
  }

  lemma PurgedKeeps(env: Env, c: Cfg, c1: Cfg)
    requires SnapshotsOk(env, c1) && Extends(c, c1)
    ensures SnapshotsOk(env, Purge(c1)) && Extends(c, Purge(c1))
    ensures Purge(c1).desired == c1.desired && Purge(c1).applied == c1.applied
  {
    hide CaptureConfig;
    PurgeKeepsCapture(env, c1);
  }

  /** What the live tables capture as once current_ip is replaced in a publication. */
  lemma PublicationCapture(env: Env, c: Cfg, ip: string, box: Option<NewBox>, ts: string)
    requires CaptureConfig(env, c).Some?
    ensures var c' := c.(settings := PublishedSettings(c.settings, ip, box, ts), desired := c.desired + 1);
            CaptureConfig(env, c') == Some(CaptureConfig(env, c).value.(currentIp := ip, configUpdatedAt := ts,
                                                                         revision := c.desired + 1))
  {
    hide CaptureVless, CaptureHysteria, CaptureAmnezia, CaptureClients, CapturePeers, PublishedSettings, Get,
         SameProtocolReadings;
    var s' := PublishedSettings(c.settings, ip, box, ts);
    SettingWriteKeepsTables(c, s');
    DesiredKeepsTables(c.(settings := s'), c.desired + 1);
    PublishedReadings(env, c.settings, ip, box, ts);
    SameProtocols(env, c.settings, s');
  }

  lemma DesiredKeepsTables(c: Cfg, desired: nat)
    ensures CaptureClients(c) == CaptureClients(c.(desired := desired))
    ensures CapturePeers(c) == CapturePeers(c.(desired := desired))
  {
  }

  lemma PublishedReadings(env: Env, s: Settings, ip: string, box: Option<NewBox>, ts: string)
    ensures var s' := PublishedSettings(s, ip, box, ts);
            SameProtocolReadings(env, s, s') && Get(s', CurrentIp) == ip && Get(s', ConfigUpdatedAt) == ts
  {
    hide PublishedSettings;
    var s' := PublishedSettings(s, ip, box, ts);
    PublishedKeys(s, ip, box, ts);
    forall t ensures Configured(env, s, t) == Configured(env, s', t) {
      assert Get(s, Tunable(t)) == Get(s', Tunable(t));
    }
  }

  /** What a publication writes is not read by any protocol. */
  predicate IsOfProtocols(k: Key) {
    k.Enabled? || k.Port? || k.Obf? || k.Secret? || k.Tunable?
  }

  lemma PublishedKeys(s: Settings, ip: string, box: Option<NewBox>, ts: string)
    ensures var s' := PublishedSettings(s, ip, box, ts);
            && Get(s', CurrentIp) == ip && Get(s', ConfigUpdatedAt) == ts
            && forall k | IsOfProtocols(k) :: (k in s' <==> k in s) && (k in s ==> s'[k] == s[k])
  {
  }

  /** Publication cannot collide with a stored revision, fails exactly when the desired revision has moved on
      from the bound one, and leaves the published row equal to the capture of the rewritten tables. */
  lemma PublishKeeps(env: Env, c: Cfg, bound: nat, ip: string, box: Option<NewBox>, ts: string)
    requires SnapshotsOk(env, c) && bound in c.snapshots
    ensures PublishConfig(c, bound, ip, box, ts).Commit? <==> c.desired == bound
    ensures c.desired != bound ==> PublishConfig(c, bound, ip, box, ts).error == ConfigChanged
    ensures var c' := PublishConfig(c, bound, ip, box, ts).Or(c); SnapshotsOk(env, c') && Extends(c, c')
    ensures c.desired == bound ==>
      var c' := PublishConfig(c, bound, ip, box, ts).value;
      && c'.desired == bound + 1 && c'.applied == Some(bound + 1)
      && Get(c'.settings, CurrentIp) == ip
  {
    hide CaptureConfig, ToPayload, FromPayload, PublishedSettings, Purge;
    if c.desired == bound {
      assert bound + 1 !in c.snapshots;
      DecodeEncode(CaptureConfig(env, c).value);
      PublishedValues(c, bound, ip, box, ts);
      hide PublishConfig;
      PublishStores(env, c, ip, box, ts);
    }
  }

  lemma PublishedValues(c: Cfg, bound: nat, ip: string, box: Option<NewBox>, ts: string)
    requires PublishConfig(c, bound, ip, box, ts).Commit?
    ensures var c' := PublishConfig(c, bound, ip, box, ts).value;
            c'.desired == bound + 1 && c'.applied == Some(bound + 1) && Get(c'.settings, CurrentIp) == ip
  {
    hide ToPayload, FromPayload;
  }

  lemma PublishStores(env: Env, c: Cfg, ip: string, box: Option<NewBox>, ts: string)
    requires SnapshotsOk(env, c) && PublishConfig(c, c.desired, ip, box, ts).Commit?
    ensures var c' := PublishConfig(c, c.desired, ip, box, ts).value; SnapshotsOk(env, c') && Extends(c, c')
  {
    hide CaptureConfig, DesiredIsCaptured, ToPayload, FromPayload, PublishedSettings;
    PublicationIsCaptured(env, c, ip, box, ts);
    PublishedRecordNames(c, ip, box, ts);
  }

  /** The new snapshot names its revision, as every record does. */
  lemma PublishedRecordNames(c: Cfg, ip: string, box: Option<NewBox>, ts: string)
    requires PublishConfig(c, c.desired, ip, box, ts).Commit?
    ensures var p := PublishConfig(c, c.desired, ip, box, ts).value.snapshots[c.desired + 1].payload;
            p.revision == c.desired + 1 && p.schemaVersion == 1
  {
    hide FromPayload, PublishedSettings;
  }

  lemma PublicationIsCaptured(env: Env, c: Cfg, ip: string, box: Option<NewBox>, ts: string)
    requires DesiredIsCaptured(env, c) && PublishConfig(c, c.desired, ip, box, ts).Commit?
    ensures DesiredIsCaptured(env, PublishConfig(c, c.desired, ip, box, ts).value)
  {
    hide CaptureConfig, ToPayload, FromPayload, PublishedSettings, SameProtocolReadings;
    var bound, config := c.desired, CaptureConfig(env, c).value;
    DecodeEncode(config);
    RepublishedRecord(config, ip, ts, bound + 1);
    PublicationCapture(env, c, ip, box, ts);
    var c' := PublishConfig(c, bound, ip, box, ts).value;
    var c1 := c.(settings := PublishedSettings(c.settings, ip, box, ts), desired := bound + 1);
    SnapshotWriteKeepsCapture(env, c1, c'.snapshots, c'.applied);
    PurgeKeepsCapture(env, c1.(snapshots := c'.snapshots, applied := c'.applied));
    assert c' == Purge(c1.(snapshots := c'.snapshots, applied := c'.applied));
  }
}
