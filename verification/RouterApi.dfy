/** Applied-only router reads and idempotent apply results (app/router_api.py, app/router_apply_results.py). */
module RouterApi {
  import opened Base
  import opened VpnConfig
  import opened Tables
  import opened OperationRows
  import opened Capture
  import opened Snapshots
  import opened ConfigSteps
  import opened Addresses
  import opened Operations
  import opened History
  import opened RowMarks

  datatype ApiError =
    | NotReady | ClientNotApplied | ServerError
    | EtagMismatch | SnapshotConflict | IdempotencyConflict

  datatype Answer<+T> = Is(value: T) | Fails(error: ApiError)

  /* ---------- the applied snapshot ---------- */

  /** The publication time of the latest operation that published this revision. */
  function LatestPublication(ip: map<nat, IpOp>, below: nat, revision: nat): Option<string> {
    if below == 0 then None
    else if below - 1 in ip && ip[below - 1].published == Some(revision) && ip[below - 1].publishedAt.Some?
    then ip[below - 1].publishedAt
    else LatestPublication(ip, below - 1, revision)
  }

  datatype Applied = Applied(revision: nat, row: Snapshot, config: Config, publishedAt: Option<string>)

  /** _load_applied_snapshot */
  function LoadApplied(db: Db): Answer<Applied> {
    var c := db.cfg;
    if c.applied.None? || c.applied.value !in c.snapshots || !c.snapshots[c.applied.value].lifecycle.APPLIED?
    then Fails(NotReady)
    else
      var row := c.snapshots[c.applied.value];
      if row.sha != Digest(row.payload) || FromPayload(row.payload).None? then Fails(NotReady)
      else
        Is(Applied(c.applied.value, row, FromPayload(row.payload).value,
                   LatestPublication(db.ops.ip, db.ops.nextIp, c.applied.value)))
  }

  /** hysteria_auth; None for an unsupported mode. The id is written in decimal by its caller. */
  function HysteriaAuth(decimal: nat -> string, id: nat, client: VpnClient, h: Hysteria): Option<string> {
    if h.authType == "password" then Some(h.password)
    else if h.authType != "userpass" then None
    else Some("client-" + decimal(id) + ":" + client.hysteriaPassword)
  }

  function Profile(config: Config, privateKey: string, presharedKey: string, address: Option<nat>): AwgProfile {
    AwgProfile(privateKey, presharedKey, address, config.amnezia.dns, config.amnezia.serverPublicKey, config.currentIp,
               config.amnezia.protocol.port, config.amnezia.obfuscation)
  }

  /** build_router_snapshot_response, and build_router_dual_snapshot_response when dual. */
  function Build(decimal: nat -> string, a: Applied, router: string, id: nat, client: VpnClient, dual: bool)
    : Answer<RouterResponse>
  {
    var config := a.config;
    var auth := HysteriaAuth(decimal, id, client, config.hysteria);
    if config.hysteria.protocol.enabled && auth.None? then Fails(ServerError)
    else
      var vless := if !config.vless.protocol.enabled then None
                   else Some(VlessOutbound(config.currentIp, config.vless.protocol.port, client.vlessUuid,
                                           config.vless.serverName, config.vless.fingerprint, config.vless.publicKey,
                                           config.vless.shortId));
      var hysteria := if !config.hysteria.protocol.enabled then None
                      else Some(HysteriaOutbound(config.currentIp, config.hysteria.protocol.port, auth.value,
                                                 config.vless.serverName,
                                                 if config.hysteria.obfsPassword == "" then None
                                                 else Some(config.hysteria.obfsPassword)));
      var amnezia := if !config.amnezia.protocol.enabled then None
                     else Some(Profile(config, client.awgPrivate, client.awgPreshared, client.awgIpv4));
      var auxiliary := if dual && config.amnezia.protocol.enabled && router in config.routerPeers
                          && config.routerPeers[router].clientId == id
                       then
                         var peer := config.routerPeers[router];
                         Some(Profile(config, peer.privateKey, peer.presharedKey, Some(peer.ipv4)))
                       else None;
      Is(RouterResponse(if dual then 4 else 3, router, a.revision, a.row.sha, a.row.appliedAt, a.publishedAt, id,
                        client.name, config.currentIp, vless, hysteria, amnezia, auxiliary))
  }

  /** What a router that is authorised for a client is served. */
  function View(decimal: nat -> string, db: Db, router: string, id: nat, dual: bool): Answer<RouterResponse> {
    var a := LoadApplied(db);
    if a.Fails? then Fails(a.error)
    else if id !in a.value.config.EnabledClients() then Fails(ClientNotApplied)
    else Build(decimal, a.value, router, id, a.value.config.EnabledClients()[id], dual)
  }

  function EtagOfResponse(r: RouterResponse): Etag {
    EtagOf(Digest(r))
  }

  /** The dual response is the plain one with its schema number and the router's own auxiliary profile, which is there
      exactly when AmneziaWG is enabled and the applied snapshot has a peer of that router for that client. */
  lemma DualExtendsPlain(decimal: nat -> string, db: Db, router: string, id: nat)
    requires View(decimal, db, router, id, false).Is?
    ensures var plain, dual := View(decimal, db, router, id, false), View(decimal, db, router, id, true);
            && dual.Is? && dual.value.(schemaVersion := 3, auxiliary := None) == plain.value
            && plain.value.auxiliary.None? && EtagOfResponse(plain.value) != EtagOfResponse(dual.value)
            && var config := LoadApplied(db).value.config;
               && (dual.value.auxiliary.Some? <==>
                     && config.amnezia.protocol.enabled && router in config.routerPeers
                     && config.routerPeers[router].clientId == id)
               && (dual.value.auxiliary.Some? && plain.value.amnezia.Some? ==>
                     dual.value.auxiliary.value.(privateKey := plain.value.amnezia.value.privateKey,
                                                 presharedKey := plain.value.amnezia.value.presharedKey,
                                                 address := plain.value.amnezia.value.address)
                     == plain.value.amnezia.value)
  {
    hide LatestPublication, FromPayload;
  }

  /** A disabled protocol is left out, and every enabled one points at the applied address. */
  lemma ResponseFollowsSnapshot(decimal: nat -> string, db: Db, router: string, id: nat, dual: bool)
    requires View(decimal, db, router, id, dual).Is?
    ensures var r, a := View(decimal, db, router, id, dual).value, LoadApplied(db).value;
            && db.cfg.applied == Some(r.revision) && r.sha == db.cfg.snapshots[r.revision].sha
            && (r.vless.Some? <==> a.config.vless.protocol.enabled)
            && (r.hysteria.Some? <==> a.config.hysteria.protocol.enabled)
            && (r.amnezia.Some? <==> a.config.amnezia.protocol.enabled)
            && (r.vless.Some? ==> r.vless.value.server == r.endpoint)
            && (r.hysteria.Some? ==> r.hysteria.value.server == r.endpoint)
            && (r.amnezia.Some? ==> r.amnezia.value.endpoint == r.endpoint)
            && r.endpoint == a.config.currentIp && id in a.config.EnabledClients()
  {
    hide LatestPublication, FromPayload;
  }

  /* ---------- independence of the desired state ---------- */

  /** Applied snapshots stay as they are, and so does the applied revision. */
  ghost predicate AppliedStays(c: Cfg, c': Cfg) {
    && c'.applied == c.applied
    && forall r | r in c.snapshots && c.snapshots[r].lifecycle.APPLIED? ::
         r in c'.snapshots && c'.snapshots[r] == c.snapshots[r]
  }

  /** Transactions that neither apply nor publish nor reset; a worker's update may repeat its published revision. */
  predicate LeavesApplied(db: Db, e: Event) {
    && !e.InstallDone? && !e.IpPublish? && !e.Reset?
    && (e.IpUpdate? && e.id in db.ops.ip && e.patch.published.Some? ==> e.patch.published == db.ops.ip[e.id].published)
  }

  ghost predicate AllLeaveApplied(env: Env, db: Db, es: seq<Event>)
    decreases |es|
  {
    es == [] || (LeavesApplied(db, es[0]) && AllLeaveApplied(env, Next(env, db, es[0]), es[1..]))
  }

  lemma EventStaysUnpublished(env: Env, db: Db, e: Event)
    requires LeavesApplied(db, e)
    ensures PublicationsStay(db.ops, Next(env, db, e).ops)
  {
    hide Next, PublicationsStay, RowsStay;
    if e.IpUpdate? {
      UpdateStaysUnpublished(env, db, e);
    } else {
      EventStays(env, db, e);
      StayingIsUnpublished(db.ops, Next(env, db, e).ops);
    }
  }

  lemma UpdateStaysUnpublished(env: Env, db: Db, e: Event)
    requires LeavesApplied(db, e) && e.IpUpdate?
    ensures PublicationsStay(db.ops, Next(env, db, e).ops)
  {
    hide PublicationsStay, UpdateIp, UpdateInstall, UpdateServer, HeartbeatInstall, MarkRebootSending, ClaimPurchase,
         ClaimCleanup, WriteContext, Reconcile, CancelSshWait, ResumeSshWait, PrepareInstall, PrepareIpChange,
         PrepareCleanup, PrepareSshWait, CreateServerOp, CompleteInstall, FailInstall, MarkInstallAmbiguous, PublishIp,
         Recover, ResetServer, ConfigNext;
    PatchStaysUnpublished(db.ops, e.id, e.patch, e.now);
  }

  lemma PatchStaysUnpublished(o: Ops, id: nat, patch: Patch, now: int)
    requires id in o.ip && patch.published.Some? ==> patch.published == o.ip[id].published
    ensures PublicationsStay(o, UpdateIp(o, id, patch, now))
  {
  }

  lemma StayingIsUnpublished(o: Ops, o': Ops)
    requires RowsStay(o, o')
    ensures PublicationsStay(o, o')
  {
  }

  ghost predicate PublicationsStay(o: Ops, o': Ops) {
    && o.nextIp <= o'.nextIp && (IdsBelow(o) ==> IdsBelow(o'))
    && (forall id | id in o.ip :: id in o'.ip)
    && (forall id: nat | id in o'.ip && id < o.nextIp ::
          id in o.ip && o'.ip[id].published == o.ip[id].published && o'.ip[id].publishedAt == o.ip[id].publishedAt)
    && (forall id: nat | id in o'.ip && o.nextIp <= id && IdsBelow(o) :: o'.ip[id].published.None?)
  }

  lemma {:induction false} PublicationIsStable(o: Ops, o': Ops, below: nat, revision: nat)
    requires PublicationsStay(o, o') && IdsBelow(o)
    ensures below <= o.nextIp ==> LatestPublication(o'.ip, below, revision) == LatestPublication(o.ip, below, revision)
    ensures o.nextIp <= below ==>
      LatestPublication(o'.ip, below, revision) == LatestPublication(o.ip, o.nextIp, revision)
  {
    if below > 0 {
      PublicationIsStable(o, o', below - 1, revision);
    }
  }

  lemma FailSnapshotStays(c: Cfg, revision: nat)
    ensures AppliedStays(c, FailSnapshot(c, revision))
  {
  }

  lemma EnsureStays(env: Env, c: Cfg, reprepare: bool)
    ensures AppliedStays(c, EnsureSnapshot(env, c, reprepare).Or(c))
  {
    hide CaptureConfig, ToPayload;
  }

  lemma AppliedStaysTransitive(a: Cfg, b: Cfg, c: Cfg)
    requires AppliedStays(a, b) && AppliedStays(b, c)
    ensures AppliedStays(a, c)
  {
  }

  lemma AcquireStaysApplied(db: Db, owner: Owner, now: int)
    ensures AppliedStays(db.cfg, Acquire(db, owner, now).Or(db).cfg)
  {
    hide FailSnapshot, InterruptIp;
    if db.ops.lease.Some? && db.ops.lease.value.owner.kind.INSTALL?
       && db.ops.lease.value.owner.id in db.ops.install {
      FailSnapshotStays(db.cfg, db.ops.install[db.ops.lease.value.owner.id].revision);
    }
  }

  lemma StartsStayApplied(env: Env, db: Db, e: Event)
    requires e.StartInstall? || e.StartIpChange? || e.StartServer?
    ensures AppliedStays(db.cfg, Next(env, db, e).cfg)
  {
    hide AppliedStays, EnsureSnapshot, Acquire, MayRotate, BindProvider, FollowUp;
    AppliedStaysItself(db.cfg);
    if e.StartServer? {
      var n := db.ops.nextServer;
      AcquireStaysApplied(db.(ops := db.ops.(server := db.ops.server[n := ServerOp(e.kind, PENDING, S_NOT_STARTED)],
                                             nextServer := n + 1)), Owner(SERVER, n), e.now);
    } else {
      EnsureStays(env, db.cfg, e.StartInstall?);
      var t := EnsureSnapshot(env, db.cfg, e.StartInstall?);
      if t.Commit? {
        var n, m := db.ops.nextInstall, db.ops.nextIp;
        var db1 := if e.StartInstall?
                   then Db(t.value, db.ops.(install := db.ops.install[n := InstallOp(PENDING, t.value.desired, e.host)],
                                            nextInstall := n + 1), db.api)
                   else Db(t.value, db.ops.(ip := db.ops.ip[m := UNBOUND_OP.(revision := t.value.desired)],
                                            nextIp := m + 1), db.api);
        var owner := if e.StartInstall? then Owner(INSTALL, n) else Owner(IP_CHANGE, m);
        AcquireStaysApplied(db1, owner, e.now);
        AppliedStaysTransitive(db.cfg, db1.cfg, Acquire(db1, owner, e.now).Or(db1).cfg);
      }
    }
  }

  lemma AppliedStaysItself(c: Cfg)
    ensures AppliedStays(c, c)
  {
  }

  lemma QueuesStayApplied(env: Env, db: Db, e: Event)
    requires e.QueueCleanup? || e.QueueSshWait?
    ensures AppliedStays(db.cfg, Next(env, db, e).cfg)
  {
    hide AppliedStays, Acquire, IsReviewable, IsDecidable;
    AppliedStaysItself(db.cfg);
    AcquireStaysApplied(db, Owner(IP_CHANGE, e.id), e.now);
  }

  lemma EventStaysApplied(env: Env, db: Db, e: Event)
    requires env.Ok() && DbInv(env, db) && (e.Configure? ==> CallerOk(db.cfg, e.e)) && LeavesApplied(db, e)
    ensures AppliedStays(db.cfg, Next(env, db, e).cfg)
  {
    match e
    case Configure(c) => ConfigStepKeeps(env, db.cfg, c); hide CfgInv, CallerOk;
    case StartInstall(_, _) | StartIpChange(_, _, _) | StartServer(_, _) => StartsStayApplied(env, db, e);
    case QueueCleanup(_, _) | QueueSshWait(_, _) => QueuesStayApplied(env, db, e);
    case Restart => RecoverStaysApplied(db);
    case _ => OtherEventsStayApplied(env, db, e);
  }

  lemma RecoverStaysApplied(db: Db)
    ensures AppliedStays(db.cfg, Recover(db).cfg)
  {
  }

  lemma OtherEventsStayApplied(env: Env, db: Db, e: Event)
    requires LeavesApplied(db, e) && !e.Configure? && !e.StartInstall? && !e.StartIpChange? && !e.StartServer?
    requires !e.QueueCleanup? && !e.QueueSshWait? && !e.Restart?
    ensures AppliedStays(db.cfg, Next(env, db, e).cfg)
  {
    hide IsDecidable, Patched, UpdateIp, UpdateInstall, UpdateServer, HeartbeatInstall, MarkRebootSending, ClaimPurchase,
         ClaimCleanup, WriteContext, Reconcile, CancelSshWait, SetRow, Release, PrepareInstall, PrepareIpChange,
         PrepareCleanup, PrepareSshWait, CreateServerOp, CompleteInstall, PublishIp, Recover, ResetServer, ConfigNext;
  }

  lemma ViewDependsOn(decimal: nat -> string, db: Db, db': Db, router: string, id: nat, dual: bool)
    requires AppliedStays(db.cfg, db'.cfg) && PublicationsStay(db.ops, db'.ops) && IdsBelow(db.ops)
    requires db.cfg.applied.Some? ==>
      db.cfg.applied.value in db.cfg.snapshots && db.cfg.snapshots[db.cfg.applied.value].lifecycle.APPLIED?
    ensures View(decimal, db', router, id, dual) == View(decimal, db, router, id, dual)
  {
    if db.cfg.applied.Some? {
      PublicationIsStable(db.ops, db'.ops, db'.ops.nextIp, db.cfg.applied.value);
    }
    hide Build, PublicationsStay, FromPayload;
  }

  /** What an authorised router is served, and so its ETag, does not change over any run of client, setting, router and
      operation transactions, crashes and recoveries included, until an install completes, a rotation publishes, or the
      server state is reset. */
  lemma {:induction false} ViewIsIndependentOfDesiredState(env: Env, db: Db, es: seq<Event>, decimal: nat -> string,
                                                           router: string, id: nat, dual: bool)
    requires env.Ok() && DbInv(env, db) && CallersOk(env, db, es) && AllLeaveApplied(env, db, es)
    ensures View(decimal, Run(env, db, es), router, id, dual) == View(decimal, db, router, id, dual)
    decreases |es|
  {
    hide Next, View, LeavesApplied, CallerOk, AppliedStays, PublicationsStay, Kept;
    if es == [] {
    } else {
      var db1 := Next(env, db, es[0]);
      StepKept(env, db, es[0]);
      EventStaysApplied(env, db, es[0]);
      EventStaysUnpublished(env, db, es[0]);
      InvGives(env, db);
      KeptGives(env, db, db1);
      ViewDependsOn(decimal, db, db1, router, id, dual);
      ViewIsIndependentOfDesiredState(env, db1, es[1..], decimal, router, id, dual);
    }
  }

  lemma InvGives(env: Env, db: Db)
    requires DbInv(env, db)
    ensures IdsBelow(db.ops)
    ensures db.cfg.applied.Some? ==>
      db.cfg.applied.value in db.cfg.snapshots && db.cfg.snapshots[db.cfg.applied.value].lifecycle.APPLIED?
  {
    hide CaptureConfig, Served, AddressesOk;
  }

  lemma KeptGives(env: Env, db: Db, db': Db)
    requires Kept(env, db, db')
    ensures DbInv(env, db')
  {
  }
}
