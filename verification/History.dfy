/** Whole runs of the control plane: any sequence of transactions, by anybody, in any order. */
module History {
  import opened Base
  import opened VpnConfig
  import opened Tables
  import opened OperationRows
  import opened Capture
  import opened ConfigStore
  import opened Snapshots
  import opened Addresses
  import opened ConfigSteps
  import opened Operations

  /** One committed or rolled-back transaction. Crashes, lost replies and stalled workers are sequences of these:
      a crash is the absence of the transactions that would have followed. */
  datatype Event =
    | Configure(e: ConfigEvent)
    | StartInstall(host: string, now: int)
    | InstallUpdate(id: nat, status: Option<Status>, now: int)
    | InstallHeartbeat(id: nat, now: int)
    | InstallDone(id: nat, ts: string)
    | InstallFailed(id: nat)
    | InstallAmbiguous(id: nat)
    | StartIpChange(review: Option<nat>, ssh: Option<nat>, now: int)
    | IpUpdate(id: nat, patch: Patch, now: int)
    | IpClaimPurchase(id: nat)
    | IpContext(id: nat, ctx: Context)
    | IpPublish(id: nat, ip: string, box: Option<NewBox>, ts: string)
    | IpReconcile(id: nat)
    | QueueCleanup(id: nat, now: int)
    | TakeCleanup(id: nat)
    | QueueSshWait(id: nat, now: int)
    | TakeSshWait(id: nat)
    | CancelWait(id: nat)
    | StartServer(kind: ServerKind, now: int)
    | ServerUpdate(id: nat, status: Option<Status>, action: Option<ServerAction>, now: int)
    | MarkReboot(id: nat, now: int)
    | Restart
    | Reset(ts: string)

  function WithOps(db: Db, o: Tx<Ops>): Db {
    db.(ops := o.Or(db.ops))
  }

  function Next(env: Env, db: Db, e: Event): Db {
    match e
    case Configure(c) => db.(cfg := ConfigNext(env, db.cfg, c))
    case StartInstall(host, now) => PrepareInstall(env, db, host, now).Or(db)
    case InstallUpdate(id, status, now) => db.(ops := UpdateInstall(db.ops, id, status, now))
    case InstallHeartbeat(id, now) => db.(ops := HeartbeatInstall(db.ops, id, now).0)
    case InstallDone(id, ts) => CompleteInstall(db, id, ts).Or(db)
    case InstallFailed(id) => FailInstall(db, id)
    case InstallAmbiguous(id) => MarkInstallAmbiguous(db, id)
    case StartIpChange(review, ssh, now) => PrepareIpChange(env, db, review, ssh, now).Or(db)
    case IpUpdate(id, patch, now) => db.(ops := UpdateIp(db.ops, id, patch, now))
    case IpClaimPurchase(id) => db.(ops := ClaimPurchase(db.ops, id).0)
    case IpContext(id, ctx) => db.(ops := WriteContext(db.ops, id, ctx))
    case IpPublish(id, ip, box, ts) => PublishIp(db, id, ip, box, ts).Or(db)
    case IpReconcile(id) => WithOps(db, Reconcile(db.ops, id))
    case QueueCleanup(id, now) => PrepareCleanup(env, db, id, now).Or(db)
    case TakeCleanup(id) => db.(ops := ClaimCleanup(db.ops, id).0)
    case QueueSshWait(id, now) => PrepareSshWait(env, db, id, now).Or(db)
    case TakeSshWait(id) => ResumeSshWait(env, db, id).0
    case CancelWait(id) => WithOps(db, CancelSshWait(db.ops, id))
    case StartServer(kind, now) => CreateServerOp(db, kind, now).Or(db)
    case ServerUpdate(id, status, action, now) => db.(ops := UpdateServer(db.ops, id, status, action, now))
    case MarkReboot(id, now) => db.(ops := MarkRebootSending(db.ops, id, now).0)
    case Restart => Recover(db)
    case Reset(ts) => ResetServer(db, ts).Or(db)
  }

  function Run(env: Env, db: Db, es: seq<Event>): Db
    decreases |es|
  {
    if es == [] then db else Run(env, Next(env, db, es[0]), es[1..])
  }

  /** Callers of the settings functions keep to their rule at every step of the run. */
  ghost predicate CallersOk(env: Env, db: Db, es: seq<Event>)
    decreases |es|
  {
    es == [] ||
    (&& (es[0].Configure? ==> CallerOk(db.cfg, es[0].e))
     && CallersOk(env, Next(env, db, es[0]), es[1..]))
  }

  /* ---------- the invariant of every reachable database ---------- */

  /** Operations are bound to stored revisions (the foreign keys of the two operation tables). */
  ghost predicate Bound(db: Db) {
    && (forall id | id in db.ops.install :: db.ops.install[id].revision in db.cfg.snapshots)
    && (forall id | id in db.ops.ip :: db.ops.ip[id].revision in db.cfg.snapshots)
    && IdsOk(db.ops)
  }

  /** AUTOINCREMENT: every row has an id that was handed out. */
  ghost predicate IdsOk(o: Ops) {
    && (forall id | id in o.install :: id < o.nextInstall)
    && (forall id | id in o.ip :: id < o.nextIp)
    && (forall id | id in o.server :: id < o.nextServer)
  }

  ghost predicate DbInv(env: Env, db: Db) {
    CfgInv(env, db.cfg) && Bound(db)
  }

  /** The configuration tables change as one of the proved transactions changes them. */
  ghost predicate CfgKept(env: Env, c: Cfg, c': Cfg) {
    CfgInv(env, c') && Extends(c, c')
  }

  /** Snapshots whose marks changed, but not from APPLIED. */
  ghost predicate Remarked(before: map<nat, Snapshot>, after: map<nat, Snapshot>) {
    && before.Keys == after.Keys
    && (forall r | r in before ::
          && after[r].payload == before[r].payload && after[r].sha == before[r].sha
          && (before[r].lifecycle.APPLIED? ==> after[r].lifecycle.APPLIED?))
  }

  lemma RemarkedKept(env: Env, c: Cfg, snapshots: map<nat, Snapshot>)
    requires CfgInv(env, c) && Remarked(c.snapshots, snapshots)
    ensures CfgKept(env, c, c.(snapshots := snapshots))
  {
    hide SnapshotsOk, Distinct, Served, Remarked;
    RemarkedRows(c, snapshots);
    RemarkedSnapshots(env, c, snapshots);
  }

  lemma RemarkedRows(c: Cfg, snapshots: map<nat, Snapshot>)
    requires AddressesOk(c) && Served(c) && Remarked(c.snapshots, snapshots)
    ensures var c' := c.(snapshots := snapshots); AddressesOk(c') && Served(c')
  {
    hide Distinct;
    var c' := c.(snapshots := snapshots);
    SubsetKeeps(c, c');
    forall r, id | Serves(c', r, id)
      ensures Reserved(c', r, id)
    {
      assert Serves(c, r, id) && Reserved(c, r, id);
    }
  }

  lemma RemarkedSnapshots(env: Env, c: Cfg, snapshots: map<nat, Snapshot>)
    requires SnapshotsOk(env, c) && Remarked(c.snapshots, snapshots)
    ensures var c' := c.(snapshots := snapshots); SnapshotsOk(env, c') && Extends(c, c')
  {
    hide CaptureConfig, ToPayload;
    SnapshotWriteKeepsCapture(env, c, snapshots, c.applied);
    assert c.(snapshots := snapshots) == c.(snapshots := snapshots, applied := c.applied);
  }

  lemma EnsureKept(env: Env, c: Cfg, reprepare: bool)
    requires CfgInv(env, c)
    ensures var t := EnsureSnapshot(env, c, reprepare);
            && CfgKept(env, c, t.Or(c)) && (t.Raise? ==> t.error == BadValue)
            && (t.Commit? ==> t.value.desired in t.value.snapshots)
  {
    hide SnapshotsOk, EnsureSnapshot, Served;
    PrepareKeeps(env, c, reprepare);
    PrepareKeepsServed(env, c, reprepare);
    SubsetKeeps(c, EnsureSnapshot(env, c, reprepare).Or(c));
  }

  lemma PurgedKeepsAddresses(c: Cfg, c': Cfg)
    requires AddressesOk(c)
    requires c'.clients == c.clients && c'.routers == c.routers && c'.peers == c.peers
    requires c'.nextClient == c.nextClient
    ensures AddressesOk(Purge(c'))
  {
    SubsetKeeps(c, Purge(c'));
  }

  lemma CompleteKept(env: Env, c: Cfg, revision: nat, ts: string)
    requires CfgInv(env, c) && revision in c.snapshots
    ensures CompleteConfig(c, revision, ts).Commit? && CfgKept(env, c, CompleteConfig(c, revision, ts).value)
  {
    hide SnapshotsOk, Served, Distinct, Purge;
    CompleteKeeps(env, c, revision, ts);
    CompleteKeepsServed(env, c, revision, ts);
    var row := c.snapshots[revision].(lifecycle := APPLIED, appliedAt := Some(ts));
    var applied := if c.applied.None? || c.applied.value < revision then revision else c.applied.value;
    PurgedKeepsAddresses(c, c.(snapshots := c.snapshots[revision := row], applied := Some(applied)));
  }

  lemma PublishKept(env: Env, c: Cfg, bound: nat, ip: string, box: Option<NewBox>, ts: string)
    requires CfgInv(env, c) && bound in c.snapshots
    ensures CfgKept(env, c, PublishConfig(c, bound, ip, box, ts).Or(c))
    ensures PublishConfig(c, bound, ip, box, ts).Raise? ==> PublishConfig(c, bound, ip, box, ts).error == ConfigChanged
    ensures PublishConfig(c, bound, ip, box, ts).Commit? <==> c.desired == bound
  {
    hide SnapshotsOk, Served, Distinct, Purge, PublishedSettings, ToPayload;
    PublishKeeps(env, c, bound, ip, box, ts);
    var t := PublishConfig(c, bound, ip, box, ts);
    if t.Commit? {
      PublishKeepsServed(env, c, bound, ip, box, ts);
      var payload := ToPayload(FromPayload(c.snapshots[bound].payload).value.(currentIp := ip, configUpdatedAt := ts,
                                                                           revision := bound + 1));
      PurgedKeepsAddresses(c,
        c.(snapshots := c.snapshots[bound + 1 := Snapshot(payload, Digest(payload), APPLIED, Some(ts))]
                                   [bound := MarkApplied(c.snapshots[bound], ts)],
           settings := PublishedSettings(c.settings, ip, box, ts), desired := bound + 1, applied := Some(bound + 1)));
    }
  }

  /* ---------- the step lemma ---------- */

  ghost predicate Kept(env: Env, db: Db, db': Db) {
    DbInv(env, db') && Extends(db.cfg, db'.cfg)
  }

  lemma ExtendsTransitive(a: Cfg, b: Cfg, c: Cfg)
    requires Extends(a, b) && Extends(b, c)
    ensures Extends(a, c)
  {
  }

  /** The same operation rows, each bound to the revision it was bound to. */
  ghost predicate SameBindings(o: Ops, o': Ops) {
    && o'.install.Keys == o.install.Keys && o'.ip.Keys == o.ip.Keys && o'.server.Keys == o.server.Keys
    && o'.nextInstall == o.nextInstall && o'.nextIp == o.nextIp && o'.nextServer == o.nextServer
    && (forall id | id in o.install :: o'.install[id].revision == o.install[id].revision)
    && (forall id | id in o.ip :: o'.ip[id].revision == o.ip[id].revision)
  }

  lemma DbKept(env: Env, db: Db, db': Db)
    requires DbInv(env, db) && CfgKept(env, db.cfg, db'.cfg) && SameBindings(db.ops, db'.ops)
    ensures Kept(env, db, db')
  {
    hide CfgInv;
  }

  lemma OpsOnlyKept(env: Env, db: Db, o: Ops)
    requires DbInv(env, db) && SameBindings(db.ops, o)
    ensures Kept(env, db, db.(ops := o))
  {
    hide CfgInv, SameBindings;
    DbKept(env, db, db.(ops := o));
  }

  lemma FailOwnerKept(env: Env, db: Db, owner: Owner)
    requires DbInv(env, db)
    ensures Kept(env, db, FailOwner(db, owner)) && SameBindings(db.ops, FailOwner(db, owner).ops)
    ensures FailOwner(db, owner).ops.lease == db.ops.lease
  {
    hide Kept, DbInv, CfgKept, SameBindings, FailOwner;
    FailOwnerBindings(db, owner);
    FailOwnerCfgKept(env, db, owner);
    DbKept(env, db, FailOwner(db, owner));
  }

  lemma FailOwnerBindings(db: Db, owner: Owner)
    ensures SameBindings(db.ops, FailOwner(db, owner).ops) && FailOwner(db, owner).ops.lease == db.ops.lease
    ensures FailOwner(db, owner).api == db.api
  {
    hide InterruptIp, FailSnapshot;
    InterruptKeepsRevision(db.ops);
  }

  lemma FailOwnerCfgKept(env: Env, db: Db, owner: Owner)
    requires DbInv(env, db)
    ensures CfgKept(env, db.cfg, FailOwner(db, owner).cfg)
  {
    hide CfgInv, InterruptIp, Extends, FailSnapshot;
    RemarkedKept(env, db.cfg, db.cfg.snapshots);
    if owner.kind.INSTALL? && owner.id in db.ops.install {
      FailSnapshotKept(env, db.cfg, db.ops.install[owner.id].revision);
    }
  }

  lemma InterruptKeepsRevision(o: Ops)
    ensures forall id | id in o.ip :: InterruptIp(o.ip[id]).revision == o.ip[id].revision
  {
  }

  lemma FailSnapshotKept(env: Env, c: Cfg, revision: nat)
    requires CfgInv(env, c)
    ensures CfgKept(env, c, FailSnapshot(c, revision))
  {
    hide CfgInv, CfgKept;
    RemarkedKept(env, c, FailSnapshot(c, revision).snapshots);
  }

  lemma AcquireKept(env: Env, db: Db, owner: Owner, now: int)
    requires DbInv(env, db)
    ensures Acquire(db, owner, now).Commit? ==>
      Kept(env, db, Acquire(db, owner, now).value) && SameBindings(db.ops, Acquire(db, owner, now).value.ops)
  {
    hide CfgInv, FailOwner;
    if db.ops.lease.Some? {
      FailOwnerKept(env, db, db.ops.lease.value.owner);
    }
  }

  lemma StartInstallKept(env: Env, db: Db, host: string, now: int)
    requires DbInv(env, db)
    ensures Kept(env, db, PrepareInstall(env, db, host, now).Or(db))
    ensures PrepareInstall(env, db, host, now).Raise? ==> PrepareInstall(env, db, host, now).error in {BadValue, Busy}
  {
    hide CfgInv, EnsureSnapshot, Acquire;
    EnsureKept(env, db.cfg, true);
    var t := EnsureSnapshot(env, db.cfg, true);
    if t.Commit? {
      var id := db.ops.nextInstall;
      var row := InstallOp(PENDING, t.value.desired, host);
      var db1 := Db(t.value, db.ops.(install := db.ops.install[id := row], nextInstall := id + 1), db.api);
      AcquireKept(env, db1, Owner(INSTALL, id), now);
      AcquireErrors(db1, Owner(INSTALL, id), now);
      if PrepareInstall(env, db, host, now).Commit? {
        ExtendsTransitive(db.cfg, db1.cfg, PrepareInstall(env, db, host, now).value.cfg);
      }
    }
  }

  lemma AcquireErrors(db: Db, owner: Owner, now: int)
    ensures Acquire(db, owner, now).Raise? ==> Acquire(db, owner, now).error == Busy
  {
  }

  lemma StartIpChangeKept(env: Env, db: Db, review: Option<nat>, ssh: Option<nat>, now: int)
    requires DbInv(env, db)
    ensures Kept(env, db, PrepareIpChange(env, db, review, ssh, now).Or(db))
    ensures PrepareIpChange(env, db, review, ssh, now).Raise?
        ==> PrepareIpChange(env, db, review, ssh, now).error in {BadValue, StaleDecision, SafetyHold, Busy}
  {
    hide CfgInv, EnsureSnapshot, Acquire, MayRotate, BindProvider, FollowUp;
    MayRotateErrors(env, db, review, ssh);
    EnsureKept(env, db.cfg, false);
    var t := EnsureSnapshot(env, db.cfg, false);
    if MayRotate(env, db, review, ssh).Commit? && t.Commit? {
      var id := db.ops.nextIp;
      var row := UNBOUND_OP.(revision := t.value.desired);
      var db1 := Db(t.value, db.ops.(ip := db.ops.ip[id := row], nextIp := id + 1), db.api);
      AcquireErrors(db1, Owner(IP_CHANGE, id), now);
      BindErrors(env, t.value.settings);
      if Acquire(db1, Owner(IP_CHANGE, id), now).Commit? && BindProvider(env, t.value.settings).Commit? {
        AcquireKept(env, db1, Owner(IP_CHANGE, id), now);
        var db2 := Acquire(db1, Owner(IP_CHANGE, id), now).value;
        ExtendsTransitive(db.cfg, db1.cfg, db2.cfg);
        FollowUpKept(env, db2, id, BindProvider(env, t.value.settings).value, review, ssh);
      }
    }
  }

  lemma BindErrors(env: Env, s: Settings)
    ensures BindProvider(env, s).Raise? ==> BindProvider(env, s).error == BadValue
  {
  }

  /** Writes to IP operations that leave statuses, revisions and the lease alone. */
  ghost predicate SameLines(o: Ops, o': Ops) {
    && o' == o.(ip := o'.ip) && o'.ip.Keys == o.ip.Keys
    && forall id | id in o.ip :: o'.ip[id].status == o.ip[id].status && o'.ip[id].revision == o.ip[id].revision
  }

  lemma FollowUpWrites(o: Ops, id: nat, bound: Binding, review: Option<nat>, ssh: Option<nat>)
    ensures SameLines(o, FollowUp(o, id, bound, review, ssh))
  {
    hide SameLines, Abandoned, WriteBinding, SetSomeAction;
    var kept := if ssh.Some? && ssh.value in o.ip then Abandoned(o.ip[ssh.value]) else map[];
    var o1 := WriteBinding(o, id, bound, kept);
    var o2 := SetSomeAction(o1, ssh, RETRY_REQUESTED);
    BindingIsOneLine(o, id, bound, kept);
    ActionIsOneLine(o1, ssh);
    ActionIsOneLine(o2, review);
    SameLinesTransitive(o, o1, o2);
    SameLinesTransitive(o, o2, FollowUp(o, id, bound, review, ssh));
  }

  lemma BindingIsOneLine(o: Ops, id: nat, bound: Binding, kept: map<string, string>)
    ensures SameLines(o, WriteBinding(o, id, bound, kept))
  {
  }

  lemma ActionIsOneLine(o: Ops, other: Option<nat>)
    ensures SameLines(o, SetSomeAction(o, other, RETRY_REQUESTED))
  {
  }

  lemma SameLinesTransitive(o: Ops, o1: Ops, o2: Ops)
    requires SameLines(o, o1) && SameLines(o1, o2)
    ensures SameLines(o, o2)
  {
  }

  /** The last writes of a preparation change no revision. */
  lemma FollowUpKept(env: Env, db: Db, id: nat, bound: Binding, review: Option<nat>, ssh: Option<nat>)
    requires DbInv(env, db)
    ensures DbInv(env, db.(ops := FollowUp(db.ops, id, bound, review, ssh)))
  {
    hide CfgInv, FollowUp;
    FollowUpWrites(db.ops, id, bound, review, ssh);
  }

  lemma MayRotateErrors(env: Env, db: Db, review: Option<nat>, ssh: Option<nat>)
    ensures MayRotate(env, db, review, ssh).Raise?
        ==> MayRotate(env, db, review, ssh).error in {BadValue, StaleDecision, SafetyHold}
  {
    hide IsDecidable, IsReviewable;
  }

  lemma RecoverKept(env: Env, db: Db)
    requires DbInv(env, db)
    ensures Kept(env, db, Recover(db))
  {
    hide CfgInv, InterruptIp;
    InterruptKeepsRevision(db.ops);
    assert SameBindings(db.ops, Recover(db).ops);
    hide SameBindings;
    RemarkedKept(env, db.cfg, Recover(db).cfg.snapshots);
    DbKept(env, db, Recover(db));
  }

  lemma InstallDoneKept(env: Env, db: Db, id: nat, ts: string)
    requires DbInv(env, db)
    ensures Kept(env, db, CompleteInstall(db, id, ts).Or(db))
  {
    hide CfgInv, CompleteConfig, CfgKept, Kept, Extends;
    OpsOnlyKept(env, db, db.ops);
    if id in db.ops.install {
      CompleteKept(env, db.cfg, db.ops.install[id].revision, ts);
      DbKept(env, db, CompleteInstall(db, id, ts).value);
    }
  }

  lemma InstallFailedKept(env: Env, db: Db, id: nat)
    requires DbInv(env, db)
    ensures Kept(env, db, FailInstall(db, id))
    ensures Kept(env, db, MarkInstallAmbiguous(db, id))
  {
    hide CfgInv, FailSnapshot, CfgKept, Kept, Extends;
    if id in db.ops.install {
      FailSnapshotKept(env, db.cfg, db.ops.install[id].revision);
      DbKept(env, db, FailInstall(db, id));
      DbKept(env, db, MarkInstallAmbiguous(db, id));
    } else {
      OpsOnlyKept(env, db, Release(db.ops, Owner(INSTALL, id)));
    }
  }

  /** A publication fails exactly when the operation is gone or the desired revision has moved. */
  lemma PublishIpKept(env: Env, db: Db, id: nat, ip: string, box: Option<NewBox>, ts: string)
    requires DbInv(env, db)
    ensures Kept(env, db, PublishIp(db, id, ip, box, ts).Or(db))
    ensures PublishIp(db, id, ip, box, ts).Commit?
       <==> id in db.ops.ip && db.ops.ip[id].revision == db.cfg.desired
  {
    hide CfgInv, PublishConfig;
    if id in db.ops.ip {
      PublishKept(env, db.cfg, db.ops.ip[id].revision, ip, box, ts);
    }
  }

  lemma DecisionsKept(env: Env, db: Db, id: nat, now: int)
    requires DbInv(env, db)
    ensures Kept(env, db, PrepareCleanup(env, db, id, now).Or(db))
    ensures Kept(env, db, PrepareSshWait(env, db, id, now).Or(db))
    ensures Kept(env, db, ResumeSshWait(env, db, id).0)
  {
    hide CfgInv, Acquire, IsReviewable, IsDecidable, Kept;
    OpsOnlyKept(env, db, db.ops);
    AcquireKept(env, db, Owner(IP_CHANGE, id), now);
    if Acquire(db, Owner(IP_CHANGE, id), now).Commit? {
      var db1 := Acquire(db, Owner(IP_CHANGE, id), now).value;
      SetRowKept(env, db, db1, id, PENDING, CLEANUP_QUEUED);
      SetRowKept(env, db, db1, id, PENDING, SSH_WAIT_QUEUED);
    }
    SetRowKept(env, db, db, id, RUNNING, WAITING_SSH);
    OpsOnlyKept(env, db, Release(SetRow(db.ops, id, DONE, SSH_UNREACHABLE), Owner(IP_CHANGE, id)));
  }

  lemma SetRowKept(env: Env, db: Db, db1: Db, id: nat, status: Status, action: IpAction)
    requires Kept(env, db, db1)
    ensures Kept(env, db, db1.(ops := SetRow(db1.ops, id, status, action)))
  {
    hide CfgInv, Extends;
  }

  lemma ResetKept(env: Env, db: Db, ts: string)
    requires env.Ok() && DbInv(env, db)
    ensures Kept(env, db, ResetServer(db, ts).Or(db))
  {
    hide ResetSettings, CfgInv, Idle;
    ResetCfgKept(env, db.cfg, ts);
    assert IdsOk(db.ops.(install := map[], ip := map[], server := map[]));
  }

  lemma ResetCfgKept(env: Env, c: Cfg, ts: string)
    requires env.Ok() && CfgInv(env, c)
    ensures CfgKept(env, c, ResetSettings(c, ts))
  {
    hide SnapshotsOk, ResetBumps, ResetDrops;
    var c' := ResetSettings(c, ts);
    ResetBumpsOrKeeps(env, c, ts);
    BumpsOrKeepsIsSafe(env, c, c');
    SameRowsKeep(c, c');
    SameRowsKeepServed(c, c');
  }

  predicate TouchesOneRow(e: Event) {
    e.InstallUpdate? || e.InstallHeartbeat? || e.IpUpdate? || e.IpClaimPurchase? || e.IpContext? || e.IpReconcile?
    || e.TakeCleanup? || e.CancelWait? || e.ServerUpdate? || e.MarkReboot?
  }

  lemma RowStepKept(env: Env, db: Db, e: Event)
    requires DbInv(env, db) && TouchesOneRow(e)
    ensures Kept(env, db, Next(env, db, e))
  {
    hide CfgInv, Kept, DbInv, SameBindings;
    var o' := Next(env, db, e).ops;
    if e.IpUpdate? || e.IpClaimPurchase? || e.IpContext? || e.IpReconcile? || e.TakeCleanup? || e.CancelWait? {
      IpRowBindings(env, db, e);
    } else {
      OtherRowBindings(env, db, e);
    }
    OpsOnlyKept(env, db, o');
  }

  lemma IpRowBindings(env: Env, db: Db, e: Event)
    requires e.IpUpdate? || e.IpClaimPurchase? || e.IpContext? || e.IpReconcile? || e.TakeCleanup? || e.CancelWait?
    ensures SameBindings(db.ops, Next(env, db, e).ops) && Next(env, db, e) == db.(ops := Next(env, db, e).ops)
  {
    hide SameBindings, Heartbeat, Release, Reconcilable;
    match e
    case IpUpdate(id, patch, now) => UpdateBinding(db.ops, id, patch, now); hide UpdateIp;
    case IpClaimPurchase(id) => OneRowBinding(db.ops, ClaimPurchase(db.ops, id).0, id);
    case IpContext(id, ctx) => OneRowBinding(db.ops, WriteContext(db.ops, id, ctx), id);
    case IpReconcile(id) => OneRowBinding(db.ops, Reconcile(db.ops, id).Or(db.ops), id);
    case TakeCleanup(id) => OneRowBinding(db.ops, ClaimCleanup(db.ops, id).0, id);
    case CancelWait(id) => OneRowBinding(db.ops, CancelSshWait(db.ops, id).Or(db.ops), id);
  }

  lemma UpdateBinding(o: Ops, id: nat, patch: Patch, now: int)
    ensures SameBindings(o, UpdateIp(o, id, patch, now))
    ensures var o' := UpdateIp(o, id, patch, now); o' == o.(ip := o'.ip, lease := o'.lease)
  {
    hide SameBindings;
    OneRowBinding(o, UpdateIp(o, id, patch, now), id);
  }

  lemma OneRowBinding(o: Ops, o': Ops, id: nat)
    requires o' == o.(ip := o'.ip, lease := o'.lease)
    requires o'.ip == o.ip || (id in o.ip && id in o'.ip && o'.ip == o.ip[id := o'.ip[id]]
                               && o'.ip[id].revision == o.ip[id].revision)
    ensures SameBindings(o, o')
  {
  }

  lemma OtherRowBindings(env: Env, db: Db, e: Event)
    requires e.InstallUpdate? || e.InstallHeartbeat? || e.ServerUpdate? || e.MarkReboot?
    ensures SameBindings(db.ops, Next(env, db, e).ops) && Next(env, db, e) == db.(ops := Next(env, db, e).ops)
  {
    hide SameBindings, UpdateInstall, HeartbeatInstall, UpdateServer, MarkRebootSending;
    match e
    case InstallUpdate(id, status, now) => InstallBindings(db.ops, id, status, now);
    case InstallHeartbeat(id, now) => InstallBindings(db.ops, id, None, now);
    case ServerUpdate(id, status, action, now) => ServerBindings(db.ops, id, status, action, now);
    case MarkReboot(id, now) => ServerBindings(db.ops, id, None, None, now);
  }

  lemma InstallBindings(o: Ops, id: nat, status: Option<Status>, now: int)
    ensures SameBindings(o, UpdateInstall(o, id, status, now)) && SameBindings(o, HeartbeatInstall(o, id, now).0)
  {
    hide SameBindings;
    OneOtherRow(o, UpdateInstall(o, id, status, now));
    OneOtherRow(o, HeartbeatInstall(o, id, now).0);
  }

  lemma ServerBindings(o: Ops, id: nat, status: Option<Status>, action: Option<ServerAction>, now: int)
    ensures SameBindings(o, UpdateServer(o, id, status, action, now)) && SameBindings(o, MarkRebootSending(o, id, now).0)
  {
    hide SameBindings;
    OneOtherRow(o, UpdateServer(o, id, status, action, now));
    OneOtherRow(o, MarkRebootSending(o, id, now).0);
  }

  lemma OneOtherRow(o: Ops, o': Ops)
    requires o' == o.(install := o'.install, server := o'.server, lease := o'.lease)
    requires o'.install.Keys == o.install.Keys && o'.server.Keys == o.server.Keys
    requires forall id | id in o.install :: o'.install[id].revision == o.install[id].revision
    ensures SameBindings(o, o')
  {
  }

  /** No transaction at all breaks the invariant, undoes a stored revision or moves a counter back. */
  lemma StepKept(env: Env, db: Db, e: Event)
    requires env.Ok() && DbInv(env, db) && (e.Configure? ==> CallerOk(db.cfg, e.e))
    ensures Kept(env, db, Next(env, db, e))
  {
    hide CfgInv, Kept, DbInv, TouchesOneRow, CallerOk, PrepareInstall, PrepareIpChange, CompleteInstall, PublishIp, Recover,
         ResetServer, PrepareCleanup, PrepareSshWait, ResumeSshWait, FailInstall, MarkInstallAmbiguous, ConfigNext,
         CreateServerOp, UpdateIp, UpdateInstall, UpdateServer, HeartbeatInstall, MarkRebootSending, ClaimPurchase,
         ClaimCleanup, WriteContext, Reconcile, CancelSshWait;
    match e
    case Configure(c) => ConfigKept(env, db, c);
    case StartInstall(host, now) => StartInstallKept(env, db, host, now);
    case InstallDone(id, ts) => InstallDoneKept(env, db, id, ts);
    case InstallFailed(id) => InstallFailedKept(env, db, id);
    case InstallAmbiguous(id) => InstallFailedKept(env, db, id);
    case StartIpChange(review, ssh, now) => StartIpChangeKept(env, db, review, ssh, now);
    case IpPublish(id, ip, box, ts) => PublishIpKept(env, db, id, ip, box, ts);
    case QueueCleanup(id, now) => DecisionsKept(env, db, id, now);
    case QueueSshWait(id, now) => DecisionsKept(env, db, id, now);
    case TakeSshWait(id) => DecisionsKept(env, db, id, 0);
    case StartServer(kind, now) => StartServerKept(env, db, kind, now);
    case Restart => RecoverKept(env, db);
    case Reset(ts) => ResetKept(env, db, ts);
    case _ =>
      hide Next;
      OtherTouchesOneRow(e);
      RowStepKept(env, db, e);
  }

  lemma OtherTouchesOneRow(e: Event)
    requires !e.Configure? && !e.StartInstall? && !e.InstallDone? && !e.InstallFailed? && !e.InstallAmbiguous?
    requires !e.StartIpChange? && !e.IpPublish? && !e.QueueCleanup? && !e.QueueSshWait? && !e.TakeSshWait?
    requires !e.StartServer? && !e.Restart? && !e.Reset?
    ensures TouchesOneRow(e)
  {
  }

  lemma ConfigKept(env: Env, db: Db, c: ConfigEvent)
    requires env.Ok() && DbInv(env, db) && CallerOk(db.cfg, c)
    ensures Kept(env, db, db.(cfg := ConfigNext(env, db.cfg, c)))
  {
    hide CfgInv, ConfigNext, CallerOk;
    ConfigStepKeeps(env, db.cfg, c);
  }

  lemma StartServerKept(env: Env, db: Db, kind: ServerKind, now: int)
    requires DbInv(env, db)
    ensures Kept(env, db, CreateServerOp(db, kind, now).Or(db))
  {
    hide CfgInv, Acquire;
    var id := db.ops.nextServer;
    var ops := db.ops.(server := db.ops.server[id := ServerOp(kind, PENDING, S_NOT_STARTED)], nextServer := id + 1);
    AcquireKept(env, db.(ops := ops), Owner(SERVER, id), now);
  }

  /* ---------- runs ---------- */

  lemma EmptyInv(env: Env)
    ensures DbInv(env, EMPTY_DB)
  {
  }

  /** Every run keeps the invariant, every content it stored, every APPLIED mark, and both counters. */
  lemma {:induction false} RunKept(env: Env, db: Db, es: seq<Event>)
    requires env.Ok() && DbInv(env, db) && CallersOk(env, db, es)
    ensures Kept(env, db, Run(env, db, es))
    decreases |es|
  {
    hide CfgInv, Next, CallerOk;
    if es == [] {
    } else {
      var db1 := Next(env, db, es[0]);
      StepKept(env, db, es[0]);
      RunKept(env, db1, es[1..]);
      ExtendsTransitive(db.cfg, db1.cfg, Run(env, db1, es[1..]).cfg);
    }
  }
}
