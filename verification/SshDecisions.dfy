/** The decision over a new SprintBOX box that does not answer on SSH: at most one, nothing deployed to it, and each
    of wait, retry and cancel takes it once. */
module SshDecisions {
  import opened Base
  import opened Tables
  import opened OperationRows
  import opened Capture
  import opened ConfigStore
  import opened Snapshots
  import opened ConfigSteps
  import opened Operations
  import opened History
  import opened Leases
  import opened Decisions

  /** A box was bought and nothing has been done to it yet. */
  predicate OnlyBought(row: IpOp) {
    && row.purchase == P_CONFIRMED && row.makeMain == M_NOT_STARTED && row.apply == A_NOT_STARTED
    && row.published.None? && row.newIpId != "" && row.newIp != ""
  }

  predicate RowOk(row: IpOp) {
    && (Undecided(row) ==> OnlyBought(row))
    && (row.action in {WAITING_SSH, SSH_WAIT_QUEUED} ==> row.published.None?)
    && (row.action == SSH_WAIT_QUEUED && row.status.Active() ==> OnlyBought(row))
  }

  type Rows = map<nat, IpOp>

  ghost predicate ActiveIp(rows: Rows, id: nat) {
    id in rows && rows[id].status.Active()
  }

  ghost predicate Open(rows: Rows, id: nat) {
    id in rows && Undecided(rows[id])
  }

  /** At most one decision is open; nothing is deployed to its box; and an IP operation that is active beside it
      has published already, so that it can only be a cleanup. */
  ghost predicate DecisionInv(rows: Rows) {
    && (forall id | id in rows :: RowOk(rows[id]))
    && (forall a: nat, b: nat | Open(rows, a) && Open(rows, b) :: a == b)
    && (forall a: nat, b: nat | Open(rows, a) && ActiveIp(rows, b) :: rows[b].published.Some?)
  }

  ghost predicate OneActiveIp(rows: Rows) {
    forall a: nat, b: nat | ActiveIp(rows, a) && ActiveIp(rows, b) :: a == b
  }

  lemma LeaseGivesOneActive(o: Ops)
    requires LeaseOk(o)
    ensures OneActiveIp(o.ip)
  {
    forall a: nat, b: nat | ActiveIp(o.ip, a) && ActiveIp(o.ip, b) ensures a == b {
      AtMostOneActive(o, Owner(IP_CHANGE, a), Owner(IP_CHANGE, b));
    }
  }

  /** How one transaction may change one row. */
  predicate RowMay(row: IpOp, row': IpOp) {
    && RowOk(row')
    && (row.published.Some? ==> row'.published.Some?)
    && (Undecided(row') ==> Undecided(row) || row.status.Active())
    && (row'.status.Active() ==> row.status.Active() || Undecided(row) || row'.published.Some?)
  }

  lemma RowWriteKeeps(rows: Rows, rows': Rows, id: nat)
    requires DecisionInv(rows) && OneActiveIp(rows)
    requires rows' == rows || (id in rows && id in rows' && rows' == rows[id := rows'[id]] && RowMay(rows[id], rows'[id]))
    ensures DecisionInv(rows')
  {
    if rows' != rows {
      forall a: nat, b: nat | Open(rows', a) && Open(rows', b) ensures a == b {
        assert a != id ==> Open(rows, a);
        assert b != id ==> Open(rows, b);
        assert a == id || b == id ==> ActiveIp(rows, id) || Open(rows, id);
      }
      forall a: nat, b: nat | Open(rows', a) && ActiveIp(rows', b) ensures rows'[b].published.Some? {
        assert a != id ==> Open(rows, a);
        assert b != id ==> ActiveIp(rows, b);
        assert a == id ==> ActiveIp(rows, id) || Open(rows, id);
        assert b == id ==> ActiveIp(rows, id) || Open(rows, id) || rows'[id].published.Some?;
      }
    }
  }

  /** Interrupting a row: a decision that reopens was one before it was queued. */
  lemma InterruptMay(row: IpOp)
    requires RowOk(row)
    ensures RowMay(row, InterruptIp(row))
  {
  }

  lemma AcquireKeeps(db: Db, owner: Owner, now: int)
    requires DecisionInv(db.ops.ip) && OneActiveIp(db.ops.ip) && Acquire(db, owner, now).Commit?
    ensures var o' := Acquire(db, owner, now).value.ops;
            DecisionInv(o'.ip) && o'.ip.Keys == db.ops.ip.Keys
            && forall id | id in db.ops.ip && !db.ops.ip[id].status.Active() :: o'.ip[id] == db.ops.ip[id]
  {
    hide Acquire, DecisionInv, InterruptIp;
    TakeoverRows(db, owner, now);
    var o' := Acquire(db, owner, now).value.ops;
    if db.ops.lease.Some? && db.ops.lease.value.owner.kind.IP_CHANGE? && db.ops.lease.value.owner.id in db.ops.ip {
      var id := db.ops.lease.value.owner.id;
      RowsAreOk(db.ops);
      InterruptMay(db.ops.ip[id]);
      RowWriteKeeps(db.ops.ip, o'.ip, id);
    } else {
      assert o'.ip == db.ops.ip;
      RowWriteKeeps(db.ops.ip, o'.ip, 0);
    }
    ClosedRowsStay(db.ops);
  }

  lemma RowsAreOk(o: Ops)
    requires DecisionInv(o.ip)
    ensures forall id | id in o.ip :: RowOk(o.ip[id])
  {
  }

  lemma ClosedRowsStay(o: Ops)
    ensures forall id | id in o.ip && !o.ip[id].status.Active() :: InterruptIp(o.ip[id]) == o.ip[id]
  {
  }

  lemma StartsKeepDecision(env: Env, db: Db, host: string, kind: ServerKind, now: int)
    requires DecisionInv(db.ops.ip) && OneActiveIp(db.ops.ip)
    ensures DecisionInv(PrepareInstall(env, db, host, now).Or(db).ops.ip)
    ensures DecisionInv(CreateServerOp(db, kind, now).Or(db).ops.ip)
  {
    hide EnsureSnapshot, Acquire;
    var t := EnsureSnapshot(env, db.cfg, true);
    var n, m := db.ops.nextInstall, db.ops.nextServer;
    if t.Commit? {
      var db1 := Db(t.value, db.ops.(install := db.ops.install[n := InstallOp(PENDING, t.value.desired, host)],
                                     nextInstall := n + 1), db.api);
      if Acquire(db1, Owner(INSTALL, n), now).Commit? {
        AcquireKeeps(db1, Owner(INSTALL, n), now);
      }
    }
    var db2 := db.(ops := db.ops.(server := db.ops.server[m := ServerOp(kind, PENDING, S_NOT_STARTED)],
                                  nextServer := m + 1));
    if Acquire(db2, Owner(SERVER, m), now).Commit? {
      AcquireKeeps(db2, Owner(SERVER, m), now);
    }
  }

  /** The lease that is taken over belongs to an operation that waits for SSH: the takeover makes a decision of it. */
  predicate OpensDecision(o: Ops) {
    && o.lease.Some? && o.lease.value.owner.kind.IP_CHANGE? && o.lease.value.owner.id in o.ip
    && o.ip[o.lease.value.owner.id].status.Active() && Undecided(InterruptIp(o.ip[o.lease.value.owner.id]))
  }

  /** A rotation leaves no open decision at all, unless it takes such a lease over. */
  lemma RotationClosesDecision(env: Env, db: Db, review: Option<nat>, ssh: Option<nat>, now: int)
    requires DecisionInv(db.ops.ip) && IdsOk(db.ops) && !OpensDecision(db.ops)
    requires PrepareIpChange(env, db, review, ssh, now).Commit?
    ensures var o' := PrepareIpChange(env, db, review, ssh, now).value.ops;
            DecisionInv(o'.ip) && forall id :: !Open(o'.ip, id)
  {
    hide PrepareIpChange, IdsOk, DecisionInv;
    StartsBesideDecisionExactlyWhen(env, db, review, ssh, now);
    RotationRows(env, db, review, ssh, now);
    FollowedIsClosed(env, db, review, ssh, now);
    RowsAreOk(db.ops);
    RotatedRowsAreOk(db.ops, PrepareIpChange(env, db, review, ssh, now).value.ops, review, ssh);
  }

  lemma RotatedRowsAreOk(o: Ops, o': Ops, review: Option<nat>, ssh: Option<nat>)
    requires Rotated(o, o', review, ssh) && (forall id | id in o.ip :: RowOk(o.ip[id])) && forall id :: !Open(o'.ip, id)
    ensures DecisionInv(o'.ip)
  {
    forall id | id in o'.ip ensures RowOk(o'.ip[id]) {
      hide InterruptIp;
      if id in o.ip {
        InterruptMay(o.ip[id]);
        RetriedRow(TakenOver(o, id));
      } else {
        assert id == o.nextIp;
      }
    }
    hide RowOk;
  }

  lemma RetriedRow(row: IpOp)
    requires RowOk(row)
    ensures var retried := row.(action := RETRY_REQUESTED); RowOk(retried) && !Undecided(retried)
  {
  }

  lemma QueueCleanupKeeps(env: Env, db: Db, id: nat, now: int)
    requires DecisionInv(db.ops.ip) && OpsInv(db.ops)
    ensures DecisionInv(PrepareCleanup(env, db, id, now).Or(db).ops.ip)
  {
    hide Acquire, DecisionInv, OpsInv, IsActiveTarget, OneActiveIp;
    if Acquire(db, Owner(IP_CHANGE, id), now).Commit? && IsReviewable(env, db, id) {
      ReviewIsPublished(env, db, id);
      QueuedRowKeeps(db, id, now, CLEANUP_QUEUED);
    }
  }

  lemma QueueSshWaitKeeps(env: Env, db: Db, id: nat, now: int)
    requires DecisionInv(db.ops.ip) && OpsInv(db.ops)
    ensures DecisionInv(PrepareSshWait(env, db, id, now).Or(db).ops.ip)
  {
    hide Acquire, DecisionInv, OpsInv, SameAccount, OneActiveIp;
    if Acquire(db, Owner(IP_CHANGE, id), now).Commit? && IsDecidable(env, db, id, false) {
      QueuedRowKeeps(db, id, now, SSH_WAIT_QUEUED);
    }
  }

  lemma QueuedRowKeeps(db: Db, id: nat, now: int, action: IpAction)
    requires DecisionInv(db.ops.ip) && OpsInv(db.ops) && Acquire(db, Owner(IP_CHANGE, id), now).Commit?
    requires id in db.ops.ip && !db.ops.ip[id].status.Active()
    requires RowMay(db.ops.ip[id], db.ops.ip[id].(status := PENDING, action := action))
    ensures DecisionInv(SetRow(Acquire(db, Owner(IP_CHANGE, id), now).value.ops, id, PENDING, action).ip)
  {
    hide Acquire, DecisionInv, RowMay;
    LeaseGivesOneActive(db.ops);
    AcquireKeeps(db, Owner(IP_CHANGE, id), now);
    TakeoverClosesEverything(db, Owner(IP_CHANGE, id), now);
    var o := Acquire(db, Owner(IP_CHANGE, id), now).value.ops;
    NobodyActive(o);
    RowWriteKeeps(o.ip, SetRow(o, id, PENDING, action).ip, id);
  }

  lemma ReviewIsPublished(env: Env, db: Db, id: nat)
    requires IsActiveTarget(env, db, id)
    ensures id in db.ops.ip && db.ops.ip[id].published.Some?
  {
  }

  lemma NobodyActive(o: Ops)
    requires forall owner :: !ActiveOwner(o, owner)
    ensures OneActiveIp(o.ip) && forall id: nat :: !ActiveIp(o.ip, id)
  {
    forall id: nat ensures !ActiveIp(o.ip, id) {
      assert !ActiveOwner(o, Owner(IP_CHANGE, id));
    }
  }

  /** Queued operations are taken up or given back. */
  lemma TakesKeepDecision(env: Env, db: Db, id: nat)
    requires DecisionInv(db.ops.ip) && OneActiveIp(db.ops.ip)
    ensures DecisionInv(ResumeSshWait(env, db, id).0.ops.ip)
    ensures DecisionInv(ClaimCleanup(db.ops, id).0.ip)
    ensures DecisionInv(ClaimPurchase(db.ops, id).0.ip)
  {
    hide DecisionInv, OneActiveIp, IsDecidable;
    RowsAreOk(db.ops);
    RowWriteKeeps(db.ops.ip, ResumeSshWait(env, db, id).0.ops.ip, id);
    RowWriteKeeps(db.ops.ip, ClaimCleanup(db.ops, id).0.ip, id);
    RowWriteKeeps(db.ops.ip, ClaimPurchase(db.ops, id).0.ip, id);
  }

  lemma RecoverKeepsDecision(db: Db)
    requires DecisionInv(db.ops.ip) && OneActiveIp(db.ops.ip)
    ensures DecisionInv(Recover(db).ops.ip)
  {
    var rows, rows' := db.ops.ip, Recover(db).ops.ip;
    hide InterruptIp;
    forall id | id in rows ensures RowMay(rows[id], rows'[id]) && !rows'[id].status.Active() {
      InterruptMay(rows[id]);
      InterruptedIsClosed(db);
    }
    forall id: nat | Open(rows', id) ensures Open(rows, id) || (ActiveIp(rows, id) && rows[id].published.None?) {
      ReopenedWasUnpublished(rows[id]);
    }
  }

  lemma ReopenedWasUnpublished(row: IpOp)
    requires RowOk(row) && Undecided(InterruptIp(row))
    ensures Undecided(row) || (row.status.Active() && row.published.None?)
  {
  }

  /* ---------- over whole runs ---------- */

  /** What the programs keep to: a worker reports SSH_UNREACHABLE only for a box that it only bought, it waits for
      SSH only before publication; and no rotation takes over the expired lease of an operation that waits for SSH. */
  ghost predicate Calm(env: Env, w: World, e: Event) {
    && (e.IpUpdate? && e.id in w.db.ops.ip ==> RowOk(Patched(w.db.ops.ip[e.id], e.patch)))
    && (Begun(env, w.db, e).Some? && e.StartIpChange? ==> !OpensDecision(w.db.ops))
  }

  ghost predicate DecisionWorld(w: World) {
    WorldInv(w) && DecisionInv(w.db.ops.ip)
  }

  lemma DecisionStepKeeps(env: Env, w: World, e: Event)
    requires DecisionWorld(w) && Behaves(env, w, e) && Calm(env, w, e)
    ensures DecisionWorld(WorldNext(env, w, e))
  {
    hide WorldInv, DecisionInv, Behaves, Calm, Next, OneActiveIp;
    WorldStepKeeps(env, w, e);
    WorldHasOneActive(w);
    if Begins(e) {
      BeginKeepsDecision(env, w, e);
    } else if Writes(e) {
      WriteKeepsDecision(env, w, e);
    } else {
      OtherRowsStay(env, w.db, e);
      NoRowsNoDecision(w.db.ops, Next(env, w.db, e).ops);
    }
  }

  lemma WorldHasOneActive(w: World)
    requires WorldInv(w)
    ensures OpsInv(w.db.ops) && IdsOk(w.db.ops) && OneActiveIp(w.db.ops.ip)
  {
    hide OneActiveIp;
    LeaseGivesOneActive(w.db.ops);
  }

  lemma NoRowsNoDecision(o: Ops, o': Ops)
    requires DecisionInv(o.ip) && o'.ip in {o.ip, map[]}
    ensures DecisionInv(o'.ip)
  {
  }

  /** The transactions that take the lease, or take it away. */
  predicate Begins(e: Event) {
    e.StartInstall? || e.StartServer? || e.StartIpChange? || e.QueueCleanup? || e.QueueSshWait? || e.Restart?
  }

  /** Those that write one row of an IP operation. */
  predicate Writes(e: Event) {
    || e.TakeCleanup? || e.TakeSshWait? || e.IpClaimPurchase? || e.IpUpdate? || e.IpPublish? || e.IpContext?
    || e.IpReconcile? || e.CancelWait?
  }

  lemma BeginKeepsDecision(env: Env, w: World, e: Event)
    requires DecisionInv(w.db.ops.ip) && OpsInv(w.db.ops) && IdsOk(w.db.ops) && OneActiveIp(w.db.ops.ip)
    requires Calm(env, w, e) && Begins(e)
    ensures DecisionInv(Next(env, w.db, e).ops.ip)
  {
    hide DecisionInv, OpsInv, IdsOk, OneActiveIp, PrepareInstall, PrepareIpChange, CreateServerOp, PrepareCleanup,
         PrepareSshWait, Recover, RowOk, OpensDecision;
    var db := w.db;
    match e
    case StartInstall(host, now) => StartsKeepDecision(env, db, host, REBOOT, now);
    case StartServer(kind, now) => StartsKeepDecision(env, db, "", kind, now);
    case StartIpChange(review, ssh, now) =>
      if PrepareIpChange(env, db, review, ssh, now).Commit? { RotationClosesDecision(env, db, review, ssh, now); }
    case QueueCleanup(id, now) => QueueCleanupKeeps(env, db, id, now);
    case QueueSshWait(id, now) => QueueSshWaitKeeps(env, db, id, now);
    case Restart => RecoverKeepsDecision(db);
  }

  lemma WriteKeepsDecision(env: Env, w: World, e: Event)
    requires DecisionWorld(w) && OneActiveIp(w.db.ops.ip) && Behaves(env, w, e) && Calm(env, w, e) && Writes(e)
    ensures DecisionInv(Next(env, w.db, e).ops.ip)
  {
    hide WorldInv, DecisionInv, OneActiveIp, PublishIp, ResumeSshWait, ClaimCleanup, ClaimPurchase, UpdateIp, WriteContext,
         Reconcile, CancelSshWait, Behaves, Calm;
    var db := w.db;
    match e
    case TakeCleanup(id) => TakesKeepDecision(env, db, id);
    case TakeSshWait(id) => TakesKeepDecision(env, db, id);
    case IpClaimPurchase(id) => TakesKeepDecision(env, db, id);
    case IpUpdate(id, patch, now) => BehavingWorkerLives(env, w, e); WorkerUpdateKeeps(env, w, e);
    case IpPublish(id, ip, box, ts) => BehavingWorkerLives(env, w, e); PublishKeepsDecision(w, e);
    case IpContext(id, ctx) => ContextWriteKeeps(db.ops, id, ctx);
    case IpReconcile(id) => ClosedRowWriteKeeps(db.ops, id);
    case CancelWait(id) => ClosedRowWriteKeeps(db.ops, id);
  }

  lemma BehavingWorkerLives(env: Env, w: World, e: Event)
    requires Behaves(env, w, e) && (e.IpUpdate? || e.IpPublish?)
    ensures Owner(IP_CHANGE, e.id) in w.live
  {
    hide Begun;
  }

  lemma OtherRowsStay(env: Env, db: Db, e: Event)
    requires e.Configure? || e.InstallUpdate? || e.InstallHeartbeat? || e.InstallDone? || e.InstallFailed?
             || e.InstallAmbiguous? || e.ServerUpdate? || e.MarkReboot? || e.Reset?
    ensures Next(env, db, e).ops.ip == (if e.Reset? && ResetServer(db, e.ts).Commit? then map[] else db.ops.ip)
  {
    hide ConfigNext, CompleteConfig, FailSnapshot, ResetSettings, Idle;
  }

  lemma LiveWorkerIsActive(w: World, id: nat)
    requires WorldInv(w) && Owner(IP_CHANGE, id) in w.live
    ensures ActiveIp(w.db.ops.ip, id)
  {
    assert Owns(w.db.ops, Owner(IP_CHANGE, id));
    assert ActiveOwner(w.db.ops, Owner(IP_CHANGE, id));
  }

  lemma WorkerUpdateKeeps(env: Env, w: World, e: Event)
    requires WorldInv(w) && DecisionInv(w.db.ops.ip) && Calm(env, w, e)
    requires e.IpUpdate? && Owner(IP_CHANGE, e.id) in w.live
    ensures DecisionInv(UpdateIp(w.db.ops, e.id, e.patch, e.now).ip)
  {
    LiveWorkerIsActive(w, e.id);
    LeaseGivesOneActive(w.db.ops);
    hide WorldInv, DecisionInv, OneActiveIp, RowOk;
    var row := w.db.ops.ip[e.id];
    assert RowMay(row, Patched(row, e.patch));
    RowWriteKeeps(w.db.ops.ip, UpdateIp(w.db.ops, e.id, e.patch, e.now).ip, e.id);
  }

  lemma PublishKeepsDecision(w: World, e: Event)
    requires WorldInv(w) && DecisionInv(w.db.ops.ip) && e.IpPublish? && Owner(IP_CHANGE, e.id) in w.live
    ensures DecisionInv(PublishIp(w.db, e.id, e.ip, e.box, e.ts).Or(w.db).ops.ip)
  {
    LiveWorkerIsActive(w, e.id);
    LeaseGivesOneActive(w.db.ops);
    hide WorldInv, DecisionInv, OneActiveIp, PublishConfig;
    RowWriteKeeps(w.db.ops.ip, PublishIp(w.db, e.id, e.ip, e.box, e.ts).Or(w.db).ops.ip, e.id);
  }

  lemma ContextWriteKeeps(o: Ops, id: nat, ctx: Context)
    requires DecisionInv(o.ip) && OneActiveIp(o.ip)
    ensures DecisionInv(WriteContext(o, id, ctx).ip)
  {
    hide DecisionInv, OneActiveIp;
    RowsAreOk(o);
    RowWriteKeeps(o.ip, WriteContext(o, id, ctx).ip, id);
  }

  lemma ClosedRowWriteKeeps(o: Ops, id: nat)
    requires DecisionInv(o.ip) && OneActiveIp(o.ip)
    ensures DecisionInv(Reconcile(o, id).Or(o).ip)
    ensures DecisionInv(CancelSshWait(o, id).Or(o).ip)
  {
    hide DecisionInv, OneActiveIp, SetAction;
    if id in o.ip && !o.ip[id].status.Active() {
      ClosedActionKeeps(o, id, Tables.RECONCILED);
      ClosedActionKeeps(o, id, CANCELLED);
    }
  }

  lemma ClosedActionKeeps(o: Ops, id: nat, action: IpAction)
    requires DecisionInv(o.ip) && OneActiveIp(o.ip) && id in o.ip && !o.ip[id].status.Active()
    requires action in {RECONCILED, CANCELLED}
    ensures DecisionInv(SetAction(o, id, action).ip)
  {
    hide DecisionInv, OneActiveIp, RowOk, RowMay;
    RowsAreOk(o);
    ActionWriteMay(o.ip[id]);
    RowWriteKeeps(o.ip, SetAction(o, id, action).ip, id);
  }

  lemma ActionWriteMay(row: IpOp)
    requires RowOk(row) && !row.status.Active()
    ensures RowMay(row, row.(action := Tables.RECONCILED)) && RowMay(row, row.(action := CANCELLED))
  {
  }

  ghost predicate AllCalm(env: Env, w: World, es: seq<Event>)
    decreases |es|
  {
    es == [] || (Behaves(env, w, es[0]) && Calm(env, w, es[0]) && AllCalm(env, WorldNext(env, w, es[0]), es[1..]))
  }

  /** Over whole runs there is at most one open decision, nothing has been deployed or published for it, and only
      a cleanup can be active beside it. */
  lemma {:induction false} AtMostOneDecision(env: Env, w: World, es: seq<Event>)
    requires DecisionWorld(w) && AllCalm(env, w, es)
    ensures DecisionWorld(WorldRun(env, w, es))
    decreases |es|
  {
    hide DecisionWorld, WorldNext, Behaves, Calm;
    if es == [] {
    } else {
      DecisionStepKeeps(env, w, es[0]);
      AtMostOneDecision(env, WorldNext(env, w, es[0]), es[1..]);
    }
  }

  /* ---------- each decision is taken once ---------- */

  /** Wait, retry and cancel each need an open decision. */
  lemma DecisionIsNeeded(env: Env, db: Db, id: nat, now: int)
    requires !Open(db.ops.ip, id)
    ensures PrepareSshWait(env, db, id, now) == Raise(StaleDecision)
    ensures PrepareIpChange(env, db, None, Some(id), now) == Raise(StaleDecision)
    ensures CancelSshWait(db.ops, id) == Raise(StaleDecision)
  {
  }

  /** And each of them closes it, so that a second one is refused, whatever lease they take over. */
  lemma DecisionIsConsumed(env: Env, db: Db, id: nat, now: int)
    requires IdsOk(db.ops)
    ensures CancelSshWait(db.ops, id).Commit? ==> !Open(CancelSshWait(db.ops, id).value.ip, id)
    ensures PrepareSshWait(env, db, id, now).Commit? ==> !Open(PrepareSshWait(env, db, id, now).value.ops.ip, id)
    ensures PrepareIpChange(env, db, None, Some(id), now).Commit?
        ==> !Open(PrepareIpChange(env, db, None, Some(id), now).value.ops.ip, id)
  {
    hide PrepareIpChange, IdsOk, IsDecidable, Acquire, Patched;
    if PrepareIpChange(env, db, None, Some(id), now).Commit? {
      RotationTakesDecision(env, db, id, now);
    }
  }

  lemma RotationTakesDecision(env: Env, db: Db, id: nat, now: int)
    requires IdsOk(db.ops) && PrepareIpChange(env, db, None, Some(id), now).Commit?
    ensures !Open(PrepareIpChange(env, db, None, Some(id), now).value.ops.ip, id)
  {
    hide PrepareIpChange, IdsOk, IsDecidable, InterruptIp;
    RotationRows(env, db, None, Some(id), now);
    FollowedIsClosed(env, db, None, Some(id), now);
    RetriedIsNotOnHold(db.ops.ip[id]);
  }

  /* ---------- what can be active beside an open decision ---------- */

  /** prepare_cleanup asks for a reviewable operation and the lease, but not whether a decision is open, and it takes
      the lease after it has asked. So the cleanup is active beside an open decision exactly when one was open before,
      or when the lease it takes over makes one. */
  lemma CleanupBesideDecisionExactlyWhen(env: Env, db: Db, id: nat, now: int)
    requires PrepareCleanup(env, db, id, now).Commit?
    ensures var rows' := PrepareCleanup(env, db, id, now).value.ops.ip;
            && ActiveIp(rows', id)
            && ((exists x: nat :: Open(rows', x)) <==> (exists x: nat :: Open(db.ops.ip, x)) || OpensDecision(db.ops))
  {
    var o, rows' := db.ops, PrepareCleanup(env, db, id, now).value.ops.ip;
    assert IsReviewable(env, db, id);
    TakeoverRows(db, Owner(IP_CHANGE, id), now);
    hide SameAccount, Acquire;
    assert rows' == Acquire(db, Owner(IP_CHANGE, id), now).value.ops.ip[id := rows'[id]];
    assert rows'[id].status == PENDING && !Open(o.ip, id) && !o.ip[id].status.Active();
    hide PrepareCleanup, InterruptIp, IsReviewable, OpensDecision, Undecided;
    OpenAfterTakeover(o);
    DecisionsAfterCleanup(o, rows', id);
  }

  lemma DecisionsAfterCleanup(o: Ops, rows': Rows, id: nat)
    requires id in o.ip && rows'.Keys == o.ip.Keys && !Open(rows', id) && !Open(o.ip, id) && !o.ip[id].status.Active()
    requires forall x | x in o.ip && x != id :: rows'[x] == TakenOver(o, x)
    requires forall x: nat | x in o.ip :: Undecided(TakenOver(o, x)) <==>
               Undecided(o.ip[x]) || (OpensDecision(o) && o.lease.value.owner == Owner(IP_CHANGE, x))
    ensures (exists x: nat :: Open(rows', x)) <==> (exists x: nat :: Open(o.ip, x)) || OpensDecision(o)
  {
    hide InterruptIp;
    if x: nat :| Open(rows', x) {
      assert x != id && (Open(o.ip, x) || OpensDecision(o));
    }
    if x: nat :| Open(o.ip, x) {
      assert Open(rows', x);
    }
    if OpensDecision(o) {
      assert Open(rows', o.lease.value.owner.id);
    }
  }

  /** A takeover opens no decision but that of its old owner, and closes none. */
  lemma OpenAfterTakeover(o: Ops)
    ensures forall x: nat | x in o.ip :: Undecided(TakenOver(o, x)) <==>
              Undecided(o.ip[x]) || (OpensDecision(o) && o.lease.value.owner == Owner(IP_CHANGE, x))
  {
  }

  /** The same for a new rotation, which asks before it takes the lease: it is active beside an open decision exactly
      when the lease it takes over makes one. */
  lemma StartsBesideDecisionExactlyWhen(env: Env, db: Db, review: Option<nat>, ssh: Option<nat>, now: int)
    requires PrepareIpChange(env, db, review, ssh, now).Commit? && IdsOk(db.ops)
    ensures var rows' := PrepareIpChange(env, db, review, ssh, now).value.ops.ip;
            && ((exists x: nat :: Open(rows', x)) <==> OpensDecision(db.ops))
            && (OpensDecision(db.ops) ==> ActiveIp(rows', db.ops.nextIp))
  {
    hide PrepareIpChange, InterruptIp, OnHold, IsDecidable;
    NoRotationOnHold(env, db, review, ssh, now);
    RotationRows(env, db, review, ssh, now);
    FollowedIsClosed(env, db, review, ssh, now);
    OpenAfterTakeover(db.ops);
    DecisionsAfterRotation(db.ops, PrepareIpChange(env, db, review, ssh, now).value.ops, review, ssh);
  }

  lemma DecisionsAfterRotation(o: Ops, o': Ops, review: Option<nat>, ssh: Option<nat>)
    requires Rotated(o, o', review, ssh) && Followed(o, review, ssh) && IdsOk(o)
    requires forall id | id in o.ip && Undecided(o.ip[id]) :: ssh == Some(id)
    requires forall x: nat | x in o.ip :: Undecided(TakenOver(o, x)) <==>
               Undecided(o.ip[x]) || (OpensDecision(o) && o.lease.value.owner == Owner(IP_CHANGE, x))
    ensures (exists x: nat :: Open(o'.ip, x)) <==> OpensDecision(o)
    ensures OpensDecision(o) ==> ActiveIp(o'.ip, o.nextIp)
  {
    hide Rotated, Followed, OpensDecision, Undecided, TakenOver, IdsOk;
    if OpensDecision(o) {
      TakenOverIsOpen(o, o', review, ssh);
    }
    if x: nat :| Open(o'.ip, x) {
      OpenIsTakenOver(o, o', review, ssh, x);
    }
  }

  lemma TakenOverIsOpen(o: Ops, o': Ops, review: Option<nat>, ssh: Option<nat>)
    requires Rotated(o, o', review, ssh) && Followed(o, review, ssh) && IdsOk(o) && OpensDecision(o)
    requires forall x: nat | x in o.ip :: Undecided(TakenOver(o, x)) <==>
               Undecided(o.ip[x]) || (OpensDecision(o) && o.lease.value.owner == Owner(IP_CHANGE, x))
    ensures Open(o'.ip, o.lease.value.owner.id) && ActiveIp(o'.ip, o.nextIp)
  {
    hide InterruptIp, OnHold, TakenOver;
    assert o.ip[o.lease.value.owner.id].status.Active();
  }

  lemma OpenIsTakenOver(o: Ops, o': Ops, review: Option<nat>, ssh: Option<nat>, x: nat)
    requires Rotated(o, o', review, ssh) && Open(o'.ip, x)
    requires forall id | id in o.ip && Undecided(o.ip[id]) :: ssh == Some(id)
    requires forall x: nat | x in o.ip :: Undecided(TakenOver(o, x)) <==>
               Undecided(o.ip[x]) || (OpensDecision(o) && o.lease.value.owner == Owner(IP_CHANGE, x))
    ensures OpensDecision(o)
  {
    hide InterruptIp, OnHold, TakenOver;
    assert x in o.ip;
  }
}
