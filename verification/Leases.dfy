/** Who may be active: the lease, its owner and crash recovery over whole runs. */
module Leases {
  import opened Base
  import opened Tables
  import opened OperationRows
  import opened Capture
  import opened ConfigStore
  import opened Snapshots
  import opened ConfigSteps
  import opened Operations
  import opened History

  /** At most one operation over the three tables is pending or running, and it is exactly the lease owner. */
  ghost predicate LeaseOk(o: Ops) {
    && (forall owner | ActiveOwner(o, owner) :: Owns(o, owner))
    && (o.lease.Some? ==> ActiveOwner(o, o.lease.value.owner))
  }

  lemma AtMostOneActive(o: Ops, a: Owner, b: Owner)
    requires LeaseOk(o) && ActiveOwner(o, a) && ActiveOwner(o, b)
    ensures a == b
  {
    assert Owns(o, a) && Owns(o, b);
  }

  /* ---------- what holds whatever expires or stalls ---------- */

  /** Startup recovery leaves no active row and no lease, from any database at all. */
  lemma RecoverLeavesNothingActive(db: Db)
    ensures Idle(Recover(db).ops) && LeaseOk(Recover(db).ops)
  {
    var o := Recover(db).ops;
    assert forall id | id in o.install :: !InterruptInstall(db.ops.install[id]).status.Active();
    assert forall id | id in o.ip :: !InterruptIp(db.ops.ip[id]).status.Active();
    assert forall id | id in o.server :: !InterruptServer(db.ops.server[id]).status.Active();
  }

  /** Only its owner can release the lease, and while it is in force nobody else can take it. */
  lemma OnlyTheOwnerReleases(db: Db, owner: Owner, other: Owner, now: int)
    requires Owns(db.ops, owner)
    ensures Release(db.ops, other).lease.None? <==> other == owner
    ensures now < db.ops.lease.value.expiresAt <==> Acquire(db, other, now) == Raise(Busy)
    ensures now >= db.ops.lease.value.expiresAt ==>
      Acquire(db, other, now).Commit? && Owns(Acquire(db, other, now).value.ops, other)
  {
  }

  /* ---------- one step ---------- */

  /** The worker whose program a transaction belongs to, when its row update is not guarded by a condition. */
  function Worker(e: Event): Option<Owner> {
    match e
    case InstallUpdate(id, _, _) => Some(Owner(INSTALL, id))
    case InstallDone(id, _) => Some(Owner(INSTALL, id))
    case InstallFailed(id) => Some(Owner(INSTALL, id))
    case InstallAmbiguous(id) => Some(Owner(INSTALL, id))
    case IpUpdate(id, _, _) => Some(Owner(IP_CHANGE, id))
    case IpPublish(id, _, _, _) => Some(Owner(IP_CHANGE, id))
    case ServerUpdate(id, _, _, _) => Some(Owner(SERVER, id))
    case _ => None
  }

  ghost predicate OpsInv(o: Ops) {
    IdsOk(o) && LeaseOk(o)
  }

  /** A lease moves to a new row: the old owner, if any, is closed first. */
  lemma {:induction false} AcquireKeepsLease(db: Db, owner: Owner, now: int)
    requires IdsOk(db.ops) && Acquire(db, owner, now).Commit?
    requires ActiveOwner(db.ops, owner) && !Owns(db.ops, owner)
    requires forall other | ActiveOwner(db.ops, other) && other != owner :: Owns(db.ops, other)
    ensures var o := Acquire(db, owner, now).value.ops;
            IdsOk(o) && LeaseOk(o) && Owns(o, owner) && ActiveOwner(o, owner)
  {
    hide InterruptIp, InterruptInstall, InterruptServer, FailSnapshot;
    var o := Acquire(db, owner, now).value.ops;
    InterruptedIsClosed(db);
    forall other | other != owner ensures !ActiveOwner(o, other) {
      if ActiveOwner(db.ops, other) {
        assert Owns(db.ops, other);
      }
    }
  }

  /** Interrupting closes a row, whatever it was doing. */
  lemma InterruptedIsClosed(db: Db)
    ensures forall id | id in db.ops.install :: !InterruptInstall(db.ops.install[id]).status.Active()
    ensures forall id | id in db.ops.ip :: !InterruptIp(db.ops.ip[id]).status.Active()
    ensures forall id | id in db.ops.server :: !InterruptServer(db.ops.server[id]).status.Active()
  {
  }

  /** Taking over for a closed row leaves nobody active. */
  lemma TakeoverClosesEverything(db: Db, owner: Owner, now: int)
    requires OpsInv(db.ops) && Acquire(db, owner, now).Commit?
    ensures var o := Acquire(db, owner, now).value.ops;
            && IdsOk(o) && Owns(o, owner) && o.ip.Keys == db.ops.ip.Keys
            && forall other :: !ActiveOwner(o, other)
  {
    hide InterruptIp, InterruptInstall, InterruptServer, FailSnapshot;
    var o := Acquire(db, owner, now).value.ops;
    InterruptedIsClosed(db);
    forall other ensures !ActiveOwner(o, other) {
      if ActiveOwner(db.ops, other) {
        assert Owns(db.ops, other);
      }
    }
  }

  lemma StartsKeepLease(env: Env, db: Db, review: Option<nat>, ssh: Option<nat>, host: string, kind: ServerKind,
                        now: int)
    requires OpsInv(db.ops)
    ensures OpsInv(PrepareInstall(env, db, host, now).Or(db).ops)
    ensures OpsInv(CreateServerOp(db, kind, now).Or(db).ops)
  {
    hide EnsureSnapshot, Acquire, LeaseOk;
    var t := EnsureSnapshot(env, db.cfg, true);
    var n := db.ops.nextInstall;
    if t.Commit? {
      var ops := db.ops.(install := db.ops.install[n := InstallOp(PENDING, t.value.desired, host)], nextInstall := n + 1);
      NewRowLease(db.ops, ops, Owner(INSTALL, n));
      if Acquire(Db(t.value, ops, db.api), Owner(INSTALL, n), now).Commit? {
        AcquireKeepsLease(Db(t.value, ops, db.api), Owner(INSTALL, n), now);
      }
    }
    var m := db.ops.nextServer;
    var ops := db.ops.(server := db.ops.server[m := ServerOp(kind, PENDING, S_NOT_STARTED)], nextServer := m + 1);
    NewRowLease(db.ops, ops, Owner(SERVER, m));
    if Acquire(db.(ops := ops), Owner(SERVER, m), now).Commit? {
      AcquireKeepsLease(db.(ops := ops), Owner(SERVER, m), now);
    }
  }

  /** One new active row beside the ones there were. */
  lemma NewRowLease(o: Ops, o': Ops, owner: Owner)
    requires OpsInv(o) && o'.lease == o.lease && !ActiveOwner(o, owner)
    requires forall other | ActiveOwner(o', other) :: other == owner || ActiveOwner(o, other)
    ensures !Owns(o', owner)
    ensures forall other | ActiveOwner(o', other) && other != owner :: Owns(o', other)
  {
  }

  lemma StartIpChangeKeepsLease(env: Env, db: Db, review: Option<nat>, ssh: Option<nat>, now: int)
    requires OpsInv(db.ops)
    ensures OpsInv(PrepareIpChange(env, db, review, ssh, now).Or(db).ops)
  {
    hide EnsureSnapshot, Acquire, LeaseOk, MayRotate, FollowUp, BindProvider;
    var t := EnsureSnapshot(env, db.cfg, false);
    if t.Commit? {
      var n := db.ops.nextIp;
      var ops := db.ops.(ip := db.ops.ip[n := UNBOUND_OP.(revision := t.value.desired)], nextIp := n + 1);
      var db1 := Db(t.value, ops, db.api);
      NewRowLease(db.ops, ops, Owner(IP_CHANGE, n));
      if Acquire(db1, Owner(IP_CHANGE, n), now).Commit? && BindProvider(env, t.value.settings).Commit? {
        AcquireKeepsLease(db1, Owner(IP_CHANGE, n), now);
        var o := Acquire(db1, Owner(IP_CHANGE, n), now).value.ops;
        FollowUpKeepsLease(o, n, BindProvider(env, t.value.settings).value, review, ssh);
      }
    }
  }

  lemma FollowUpKeepsLease(o: Ops, id: nat, bound: Binding, review: Option<nat>, ssh: Option<nat>)
    requires OpsInv(o)
    ensures OpsInv(FollowUp(o, id, bound, review, ssh)) && SameOwner(o, FollowUp(o, id, bound, review, ssh))
  {
    hide OpsInv, FollowUp;
    FollowUpWrites(o, id, bound, review, ssh);
    SameStatusesKeepLease(o, FollowUp(o, id, bound, review, ssh));
  }

  /** Writes that leave every status and the lease owner alone. */
  lemma SameStatusesKeepLease(o: Ops, o': Ops)
    requires OpsInv(o) && SameOwner(o, o') && o'.install == o.install && o'.server == o.server
    requires o'.nextIp == o.nextIp && o'.nextInstall == o.nextInstall && o'.nextServer == o.nextServer
    requires o'.ip.Keys == o.ip.Keys && forall id | id in o.ip :: o'.ip[id].status.Active() == o.ip[id].status.Active()
    ensures OpsInv(o')
  {
    forall owner ensures ActiveOwner(o', owner) == ActiveOwner(o, owner) && Owns(o', owner) == Owns(o, owner) {
    }
  }

  ghost predicate SameOwner(o: Ops, o': Ops) {
    if o.lease.None? then o'.lease.None? else o'.lease.Some? && o'.lease.value.owner == o.lease.value.owner
  }

  lemma QueuesKeepLease(env: Env, db: Db, id: nat, now: int)
    requires OpsInv(db.ops)
    ensures OpsInv(PrepareCleanup(env, db, id, now).Or(db).ops)
    ensures OpsInv(PrepareSshWait(env, db, id, now).Or(db).ops)
    ensures OpsInv(ResumeSshWait(env, db, id).0.ops)
    ensures OpsInv(ClaimCleanup(db.ops, id).0)
  {
    hide LeaseOk;
    if IsReviewable(env, db, id) || IsDecidable(env, db, id, false) {
      ReactivatedRow(db, id, now, CLEANUP_QUEUED);
      ReactivatedRow(db, id, now, SSH_WAIT_QUEUED);
    }
    SwitchedRow(db.ops, id, WAITING_SSH);
    SwitchedRow(db.ops, id, CLEANUP_RUNNING);
    ClosedRow(db.ops, id, SSH_UNREACHABLE);
  }

  /** A terminal row becomes active again together with its lease. */
  lemma ReactivatedRow(db: Db, id: nat, now: int, action: IpAction)
    requires OpsInv(db.ops) && id in db.ops.ip && !db.ops.ip[id].status.Active()
    ensures Acquire(db, Owner(IP_CHANGE, id), now).Commit? ==>
      OpsInv(SetRow(Acquire(db, Owner(IP_CHANGE, id), now).value.ops, id, PENDING, action))
  {
    hide Acquire;
    if Acquire(db, Owner(IP_CHANGE, id), now).Commit? {
      TakeoverClosesEverything(db, Owner(IP_CHANGE, id), now);
      var o := Acquire(db, Owner(IP_CHANGE, id), now).value.ops;
      var o' := SetRow(o, id, PENDING, action);
      forall other | ActiveOwner(o', other) ensures other == Owner(IP_CHANGE, id) {
        assert !ActiveOwner(o, other);
      }
    }
  }

  lemma SwitchedRow(o: Ops, id: nat, action: IpAction)
    requires OpsInv(o)
    ensures id in o.ip && o.ip[id].status.Active() ==> OpsInv(SetRow(o, id, RUNNING, action))
  {
    if id in o.ip && o.ip[id].status.Active() {
      SameStatusesKeepLease(o, SetRow(o, id, RUNNING, action));
    }
  }

  lemma ClosedRow(o: Ops, id: nat, action: IpAction)
    requires OpsInv(o)
    ensures id in o.ip && o.ip[id].status.Active() ==>
      OpsInv(Release(SetRow(o, id, DONE, action), Owner(IP_CHANGE, id)))
  {
    if id in o.ip && o.ip[id].status.Active() {
      assert ActiveOwner(o, Owner(IP_CHANGE, id));
      var o' := Release(SetRow(o, id, DONE, action), Owner(IP_CHANGE, id));
      forall other | ActiveOwner(o', other) ensures false {
        assert ActiveOwner(o, other);
      }
    }
  }

  /** Exactly when update_operation keeps the lease exclusive: it comes from the lease owner, or it does not set
      the row to an active status. A stalled worker that lost its lease and reports RUNNING revives its row. */
  lemma UpdateIpKeepsLeaseExactlyWhen(o: Ops, id: nat, p: Patch, now: int)
    requires OpsInv(o) && id in o.ip
    ensures OpsInv(UpdateIp(o, id, p, now))
       <==> Owns(o, Owner(IP_CHANGE, id)) || p.status.None? || !p.status.value.Active()
  {
    var o' := UpdateIp(o, id, p, now);
    var me := Owner(IP_CHANGE, id);
    if !Owns(o, me) {
      assert !ActiveOwner(o, me);
      if p.status.Some? && p.status.value.Active() {
        assert ActiveOwner(o', me) && !Owns(o', me);
      } else {
        SameStatusesKeepLease(o, o');
      }
    } else {
      forall other | ActiveOwner(o', other) ensures Owns(o', other) {
        if other != me {
          assert ActiveOwner(o, other);
        }
      }
    }
  }

  lemma UpdateInstallKeepsLease(o: Ops, id: nat, status: Option<Status>, now: int)
    requires OpsInv(o) && Owns(o, Owner(INSTALL, id))
    ensures OpsInv(UpdateInstall(o, id, status, now))
  {
    var o' := UpdateInstall(o, id, status, now);
    forall other | ActiveOwner(o', other) ensures Owns(o', other) {
      if other != Owner(INSTALL, id) {
        assert ActiveOwner(o, other);
      }
    }
  }

  lemma UpdateServerKeepsLease(o: Ops, id: nat, status: Option<Status>, action: Option<ServerAction>, now: int)
    requires OpsInv(o) && Owns(o, Owner(SERVER, id))
    ensures OpsInv(UpdateServer(o, id, status, action, now))
  {
    var o' := UpdateServer(o, id, status, action, now);
    forall other | ActiveOwner(o', other) ensures Owns(o', other) {
      if other != Owner(SERVER, id) {
        assert ActiveOwner(o, other);
      }
    }
  }

  lemma InstallEndsKeepLease(db: Db, id: nat, ts: string)
    requires OpsInv(db.ops) && Owns(db.ops, Owner(INSTALL, id))
    ensures OpsInv(CompleteInstall(db, id, ts).Or(db).ops)
    ensures OpsInv(FailInstall(db, id).ops)
    ensures OpsInv(MarkInstallAmbiguous(db, id).ops)
  {
    hide CompleteConfig, FailSnapshot;
    assert ActiveOwner(db.ops, Owner(INSTALL, id));
    var row := db.ops.install[id];
    ClosedInstall(db.ops, id, row.(status := DONE));
    ClosedInstall(db.ops, id, row.(status := FAILURE));
    ClosedInstall(db.ops, id, row.(status := AMBIGUOUS));
  }

  lemma ClosedInstall(o: Ops, id: nat, row: InstallOp)
    requires OpsInv(o) && Owns(o, Owner(INSTALL, id)) && !row.status.Active()
    ensures OpsInv(Release(o.(install := o.install[id := row]), Owner(INSTALL, id)))
  {
    var o' := Release(o.(install := o.install[id := row]), Owner(INSTALL, id));
    assert ActiveOwner(o, Owner(INSTALL, id));
    forall other ensures !ActiveOwner(o', other) {
      if other != Owner(INSTALL, id) {
        assert !ActiveOwner(o, other);
      }
    }
  }

  lemma PublishKeepsLease(db: Db, id: nat, ip: string, box: Option<NewBox>, ts: string)
    requires OpsInv(db.ops) && Owns(db.ops, Owner(IP_CHANGE, id))
    ensures OpsInv(PublishIp(db, id, ip, box, ts).Or(db).ops)
  {
    hide PublishConfig;
    assert ActiveOwner(db.ops, Owner(IP_CHANGE, id));
    SameStatusesKeepLease(db.ops, PublishIp(db, id, ip, box, ts).Or(db).ops);
  }

  lemma HeartbeatsKeepLease(o: Ops, id: nat, now: int)
    requires OpsInv(o)
    ensures OpsInv(HeartbeatInstall(o, id, now).0)
    ensures OpsInv(MarkRebootSending(o, id, now).0)
    ensures OpsInv(ClaimPurchase(o, id).0)
  {
    SameStatusesKeepLease(o, HeartbeatInstall(o, id, now).0);
    SameStatusesKeepLease(o, ClaimPurchase(o, id).0);
    var o' := MarkRebootSending(o, id, now).0;
    forall other ensures ActiveOwner(o', other) == ActiveOwner(o, other) && Owns(o', other) == Owns(o, other) {
    }
  }

  /** Every transaction keeps the lease exclusive, when each unguarded row update comes from the lease owner. */
  lemma StepKeepsLease(env: Env, db: Db, e: Event)
    requires OpsInv(db.ops) && (Worker(e).Some? ==> Owns(db.ops, Worker(e).value))
    ensures OpsInv(Next(env, db, e).ops)
  {
    hide LeaseOk, OpsInv, PrepareInstall, PrepareIpChange, CompleteInstall, PublishIp, Recover, PrepareCleanup,
         PrepareSshWait, ResumeSshWait, FailInstall, MarkInstallAmbiguous, ConfigNext, UpdateIp, UpdateInstall,
         UpdateServer, ClaimPurchase, MarkRebootSending, HeartbeatInstall, ClaimCleanup, CreateServerOp;
    match e
    case Configure(c) =>
    case StartInstall(host, now) => StartsKeepLease(env, db, None, None, host, REBOOT, now);
    case InstallUpdate(id, status, now) => UpdateInstallKeepsLease(db.ops, id, status, now);
    case InstallHeartbeat(id, now) => HeartbeatsKeepLease(db.ops, id, now);
    case InstallDone(id, ts) => InstallEndsKeepLease(db, id, ts);
    case InstallFailed(id) => InstallEndsKeepLease(db, id, "");
    case InstallAmbiguous(id) => InstallEndsKeepLease(db, id, "");
    case StartIpChange(review, ssh, now) => StartIpChangeKeepsLease(env, db, review, ssh, now);
    case IpUpdate(id, patch, now) => OwnerRowExists(db.ops, id); UpdateIpKeepsLeaseExactlyWhen(db.ops, id, patch, now);
    case IpClaimPurchase(id) => HeartbeatsKeepLease(db.ops, id, 0);
    case IpContext(id, ctx) => RowWriteKeepsLease(db.ops, id, ctx, NOT_STARTED);
    case IpPublish(id, ip, box, ts) => PublishKeepsLease(db, id, ip, box, ts);
    case IpReconcile(id) => RowWriteKeepsLease(db.ops, id, NO_CONTEXT, Tables.RECONCILED);
    case QueueCleanup(id, now) => QueuesKeepLease(env, db, id, now);
    case TakeCleanup(id) => QueuesKeepLease(env, db, id, 0);
    case QueueSshWait(id, now) => QueuesKeepLease(env, db, id, now);
    case TakeSshWait(id) => QueuesKeepLease(env, db, id, 0);
    case CancelWait(id) => RowWriteKeepsLease(db.ops, id, NO_CONTEXT, CANCELLED);
    case StartServer(kind, now) => StartsKeepLease(env, db, None, None, "", kind, now);
    case ServerUpdate(id, status, action, now) => UpdateServerKeepsLease(db.ops, id, status, action, now);
    case MarkReboot(id, now) => HeartbeatsKeepLease(db.ops, id, now);
    case Restart => RecoverKeepsLease(db);
    case Reset(ts) => ResetKeepsLease(db, ts);
  }

  lemma OwnerRowExists(o: Ops, id: nat)
    requires OpsInv(o) && Owns(o, Owner(IP_CHANGE, id))
    ensures id in o.ip
  {
    assert ActiveOwner(o, Owner(IP_CHANGE, id));
  }

  lemma RowWriteKeepsLease(o: Ops, id: nat, ctx: Context, action: IpAction)
    requires OpsInv(o)
    ensures OpsInv(WriteContext(o, id, ctx)) && OpsInv(SetAction(o, id, action)) && OpsInv(o)
  {
    hide OpsInv, WriteContext, SetAction;
    ContextKeepsLease(o, id, ctx);
    ActionKeepsLease(o, id, action);
  }

  lemma ContextKeepsLease(o: Ops, id: nat, ctx: Context)
    requires OpsInv(o)
    ensures OpsInv(WriteContext(o, id, ctx))
  {
    hide OpsInv;
    SameStatusesKeepLease(o, WriteContext(o, id, ctx));
  }

  lemma ActionKeepsLease(o: Ops, id: nat, action: IpAction)
    requires OpsInv(o)
    ensures OpsInv(SetAction(o, id, action))
  {
    hide OpsInv;
    SameStatusesKeepLease(o, SetAction(o, id, action));
  }

  lemma RecoverKeepsLease(db: Db)
    requires OpsInv(db.ops)
    ensures OpsInv(Recover(db).ops)
  {
    RecoverLeavesNothingActive(db);
  }

  lemma ResetKeepsLease(db: Db, ts: string)
    requires OpsInv(db.ops)
    ensures OpsInv(ResetServer(db, ts).Or(db).ops)
  {
    hide ResetSettings;
  }

  /* ---------- workers over whole runs ---------- */

  /** The database and the operations that some process is currently working on. */
  datatype World = World(db: Db, live: set<Owner>)

  predicate Terminal(status: Option<Status>) {
    status.Some? && !status.value.Active()
  }

  /** The worker that a transaction starts: one invocation for each operation that is created or queued again. */
  function Begun(env: Env, db: Db, e: Event): Option<Owner> {
    match e
    case StartInstall(host, now) =>
      if PrepareInstall(env, db, host, now).Commit? then Some(Owner(INSTALL, db.ops.nextInstall)) else None
    case StartIpChange(review, ssh, now) =>
      if PrepareIpChange(env, db, review, ssh, now).Commit? then Some(Owner(IP_CHANGE, db.ops.nextIp)) else None
    case StartServer(kind, now) =>
      if CreateServerOp(db, kind, now).Commit? then Some(Owner(SERVER, db.ops.nextServer)) else None
    case QueueCleanup(id, now) => if PrepareCleanup(env, db, id, now).Commit? then Some(Owner(IP_CHANGE, id)) else None
    case QueueSshWait(id, now) => if PrepareSshWait(env, db, id, now).Commit? then Some(Owner(IP_CHANGE, id)) else None
    case _ => None
  }

  /** The worker that a transaction is the last one of. */
  function Ended(env: Env, db: Db, e: Event): Option<Owner> {
    match e
    case InstallUpdate(id, status, _) => if Terminal(status) then Some(Owner(INSTALL, id)) else None
    case InstallDone(id, _) => Some(Owner(INSTALL, id))
    case InstallFailed(id) => Some(Owner(INSTALL, id))
    case InstallAmbiguous(id) => Some(Owner(INSTALL, id))
    case IpUpdate(id, patch, _) => if Terminal(patch.status) then Some(Owner(IP_CHANGE, id)) else None
    case ServerUpdate(id, status, _, _) => if Terminal(status) then Some(Owner(SERVER, id)) else None
    case TakeSshWait(id) => if ResumeSshWait(env, db, id).1 then None else Some(Owner(IP_CHANGE, id))
    case _ => None
  }

  /** A restart is the crash of every worker. */
  function WorldNext(env: Env, w: World, e: Event): World {
    var ended, begun := Ended(env, w.db, e), Begun(env, w.db, e);
    var still := if e.Restart? then {} else if ended.Some? then w.live - {ended.value} else w.live;
    World(Next(env, w.db, e), if begun.Some? then still + {begun.value} else still)
  }

  /** Row updates come from a running worker, and no operation takes an expired lease over from a running one. */
  predicate Behaves(env: Env, w: World, e: Event) {
    && (Worker(e).Some? ==> Worker(e).value in w.live)
    && (Begun(env, w.db, e).Some? && w.db.ops.lease.Some? ==> w.db.ops.lease.value.owner !in w.live)
  }

  ghost predicate AllBehave(env: Env, w: World, es: seq<Event>)
    decreases |es|
  {
    es == [] || (Behaves(env, w, es[0]) && AllBehave(env, WorldNext(env, w, es[0]), es[1..]))
  }

  function WorldRun(env: Env, w: World, es: seq<Event>): World
    decreases |es|
  {
    if es == [] then w else WorldRun(env, WorldNext(env, w, es[0]), es[1..])
  }

  ghost predicate WorldInv(w: World) {
    OpsInv(w.db.ops) && forall owner | owner in w.live :: Owns(w.db.ops, owner)
  }

  /** The lease stays where it is, or goes to the worker that starts, or is given up by the worker that ends. */
  ghost predicate LeaseMoves(o: Ops, o': Ops, begun: Option<Owner>, ended: Option<Owner>) {
    if begun.Some? then Owns(o', begun.value)
    else SameOwner(o, o') || (ended.Some? && Owns(o, ended.value))
  }

  lemma StartsMoveLease(env: Env, db: Db, e: Event)
    requires e.StartInstall? || e.StartIpChange? || e.StartServer? || e.QueueCleanup? || e.QueueSshWait?
    ensures LeaseMoves(db.ops, Next(env, db, e).ops, Begun(env, db, e), Ended(env, db, e))
  {
    hide EnsureSnapshot, BindProvider, MayRotate, IsReviewable, IsDecidable, FailOwner;
  }

  lemma WorkersMoveLease(env: Env, db: Db, e: Event)
    requires Worker(e).Some? || e.TakeSshWait?
    ensures LeaseMoves(db.ops, Next(env, db, e).ops, Begun(env, db, e), Ended(env, db, e))
  {
    hide IsDecidable, CompleteConfig, FailSnapshot, PublishConfig, Patched;
  }

  lemma OthersKeepLease(env: Env, db: Db, e: Event)
    requires Worker(e).None? && !e.TakeSshWait? && !e.Restart?
    requires !(e.StartInstall? || e.StartIpChange? || e.StartServer? || e.QueueCleanup? || e.QueueSshWait?)
    ensures SameOwner(db.ops, Next(env, db, e).ops)
  {
    hide ConfigNext, ResetSettings;
  }

  lemma WorldStepKeeps(env: Env, w: World, e: Event)
    requires WorldInv(w) && Behaves(env, w, e)
    ensures WorldInv(WorldNext(env, w, e))
  {
    hide OpsInv, Next, Ended, Worker, PrepareInstall, PrepareIpChange, CreateServerOp, PrepareCleanup, PrepareSshWait;
    BehavingOwns(env, w, e);
    StepKeepsLease(env, w.db, e);
    LeaseMovesOrStays(env, w.db, e);
    var w' := WorldNext(env, w, e);
    var ended := Ended(env, w.db, e);
    forall owner | owner in w'.live ensures Owns(w'.db.ops, owner) {
      if Begun(env, w.db, e) != Some(owner) {
        assert owner in w.live && Owns(w.db.ops, owner);
      }
    }
  }

  lemma BehavingOwns(env: Env, w: World, e: Event)
    requires WorldInv(w) && Behaves(env, w, e)
    ensures Worker(e).Some? ==> Owns(w.db.ops, Worker(e).value)
  {
    hide OpsInv, Owns, Begun, Worker;
  }

  lemma LeaseMovesOrStays(env: Env, db: Db, e: Event)
    ensures e.Restart? || LeaseMoves(db.ops, Next(env, db, e).ops, Begun(env, db, e), Ended(env, db, e))
  {
    hide Next, Ended, SameOwner, Owns, PrepareInstall, PrepareIpChange, CreateServerOp, PrepareCleanup, PrepareSshWait;
    if Worker(e).Some? || e.TakeSshWait? {
      WorkersMoveLease(env, db, e);
    } else if e.StartInstall? || e.StartIpChange? || e.StartServer? || e.QueueCleanup? || e.QueueSshWait? {
      StartsMoveLease(env, db, e);
    } else if !e.Restart? {
      OthersKeepLease(env, db, e);
    }
  }

  /** Over any run, with crashes anywhere and leases of dead workers expiring, the lease stays exclusive: at most
      one operation of the three tables is active, it is exactly the lease owner, and any running worker is its. */
  lemma {:induction false} LeaseIsExclusive(env: Env, w: World, es: seq<Event>)
    requires WorldInv(w) && AllBehave(env, w, es)
    ensures WorldInv(WorldRun(env, w, es))
    decreases |es|
  {
    hide WorldInv, WorldNext, Behaves;
    if es == [] {
    } else {
      WorldStepKeeps(env, w, es[0]);
      LeaseIsExclusive(env, WorldNext(env, w, es[0]), es[1..]);
    }
  }
}
