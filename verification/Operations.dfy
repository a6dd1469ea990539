/** The durable operations and the VPS lease (app/operation_coordinator.py, app/vpn_state.py, app/db.py,
    app/sprintbox_review.py, app/server_operations.py), one function per transaction. */
module Operations {
  import opened Base
  import opened Tables
  import opened OperationRows
  import opened Capture
  import opened ConfigStore
  import opened Snapshots

  const LEASE_SECONDS := 3600

  /* ---------- the lease ---------- */

  /** _fail_owner */
  function FailOwner(db: Db, owner: Owner): Db {
    match owner
    case Owner(INSTALL, id) =>
      if id !in db.ops.install then db
      else
        var row := db.ops.install[id];
        Db(FailSnapshot(db.cfg, row.revision), db.ops.(install := db.ops.install[id := InterruptInstall(row)]), db.api)
    case Owner(IP_CHANGE, id) =>
      if id !in db.ops.ip then db
      else db.(ops := db.ops.(ip := db.ops.ip[id := InterruptIp(db.ops.ip[id])]))
    case Owner(SERVER, id) =>
      if id !in db.ops.server then db
      else db.(ops := db.ops.(server := db.ops.server[id := InterruptServer(db.ops.server[id])]))
  }

  predicate Owns(o: Ops, owner: Owner) {
    o.lease.Some? && o.lease.value.owner == owner
  }

  function Release(o: Ops, owner: Owner): Ops {
    if Owns(o, owner) then o.(lease := None) else o
  }

  function Heartbeat(o: Ops, owner: Owner, now: int): Ops {
    if Owns(o, owner) then o.(lease := Some(Lease(owner, now + LEASE_SECONDS))) else o
  }

  function Acquire(db: Db, owner: Owner, now: int): Tx<Db> {
    if db.ops.lease.Some? && db.ops.lease.value.expiresAt > now then Raise(Busy)
    else
      var db1 := if db.ops.lease.Some? then FailOwner(db, db.ops.lease.value.owner) else db;
      Commit(db1.(ops := db1.ops.(lease := Some(Lease(owner, now + LEASE_SECONDS)))))
  }

  /** recover_incomplete_vps_operations: every active row of the three tables, and then the lease. */
  function Recover(db: Db): Db {
    var interrupted := set id | id in db.ops.install && db.ops.install[id].status.Active() ::
                         db.ops.install[id].revision;
    var snapshots := map r | r in db.cfg.snapshots ::
      if r in interrupted && !db.cfg.snapshots[r].lifecycle.APPLIED?
      then db.cfg.snapshots[r].(lifecycle := FAILED) else db.cfg.snapshots[r];
    Db(db.cfg.(snapshots := snapshots),
       db.ops.(install := map id | id in db.ops.install :: InterruptInstall(db.ops.install[id]),
               ip := map id | id in db.ops.ip :: InterruptIp(db.ops.ip[id]),
               server := map id | id in db.ops.server :: InterruptServer(db.ops.server[id]),
               lease := None),
       db.api)
  }

  /* ---------- row updates by a worker ---------- */

  function Touch(o: Ops, owner: Owner, status: Option<Status>, now: int): Ops {
    if status.Some? && !status.value.Active() then Release(o, owner) else Heartbeat(o, owner, now)
  }

  /** update_operation: no guard on status or lease. */
  function UpdateIp(o: Ops, id: nat, p: Patch, now: int): Ops {
    var o1 := if id in o.ip then o.(ip := o.ip[id := Patched(o.ip[id], p)]) else o;
    Touch(o1, Owner(IP_CHANGE, id), p.status, now)
  }

  /** update_install_operation */
  function UpdateInstall(o: Ops, id: nat, status: Option<Status>, now: int): Ops {
    var o1 := if id in o.install
              then o.(install := o.install[id := o.install[id].(status := status.GetOr(o.install[id].status))]) else o;
    Touch(o1, Owner(INSTALL, id), status, now)
  }

  /** update_server_operation */
  function UpdateServer(o: Ops, id: nat, status: Option<Status>, action: Option<ServerAction>, now: int): Ops {
    var o1 := if id in o.server
              then o.(server := o.server[id := o.server[id].(status := status.GetOr(o.server[id].status),
                                                             action := action.GetOr(o.server[id].action))]) else o;
    Touch(o1, Owner(SERVER, id), status, now)
  }

  /** heartbeat_install_operation: the new table and the answer. */
  function HeartbeatInstall(o: Ops, id: nat, now: int): (Ops, bool) {
    if id in o.install && o.install[id].status.Active() && Owns(o, Owner(INSTALL, id))
    then (Heartbeat(o, Owner(INSTALL, id), now), true) else (o, false)
  }

  /* ---------- installs ---------- */

  function PrepareInstall(env: Env, db: Db, host: string, now: int): Tx<Db> {
    var cfg :- EnsureSnapshot(env, db.cfg, true);
    var id := db.ops.nextInstall;
    var ops := db.ops.(install := db.ops.install[id := InstallOp(PENDING, cfg.desired, host)], nextInstall := id + 1);
    Acquire(Db(cfg, ops, db.api), Owner(INSTALL, id), now)
  }

  function CompleteInstall(db: Db, id: nat, ts: string): Tx<Db> {
    if id !in db.ops.install then Raise(NotFound)
    else
      var cfg :- CompleteConfig(db.cfg, db.ops.install[id].revision, ts);
      var ops := db.ops.(install := db.ops.install[id := db.ops.install[id].(status := DONE)]);
      Commit(Db(cfg, Release(ops, Owner(INSTALL, id)), db.api))
  }

  function FailInstall(db: Db, id: nat): Db {
    if id !in db.ops.install then db.(ops := Release(db.ops, Owner(INSTALL, id)))
    else
      var ops := db.ops.(install := db.ops.install[id := db.ops.install[id].(status := FAILURE)]);
      Db(FailSnapshot(db.cfg, db.ops.install[id].revision), Release(ops, Owner(INSTALL, id)), db.api)
  }

  function MarkInstallAmbiguous(db: Db, id: nat): Db {
    if id !in db.ops.install then db.(ops := Release(db.ops, Owner(INSTALL, id)))
    else
      var row := db.ops.install[id];
      var ops := db.ops.(install := db.ops.install[id := if row.status.Active() then row.(status := AMBIGUOUS) else row]);
      Db(FailSnapshot(db.cfg, row.revision), Release(ops, Owner(INSTALL, id)), db.api)
  }

  /* ---------- decisions and holds ---------- */

  predicate SomeHold(o: Ops) {
    exists id | id in o.ip :: OnHold(o.ip[id])
  }

  function ProviderValue(env: Env, s: Settings): string {
    var v := Get(s, Provider);
    if v != "" then v else env.provider
  }

  function SprintValue(env: Env, s: Settings, f: SprintField): string {
    if f == BOXNAME && Sprint(f) in s then s[Sprint(f)]
    else
      var v := Get(s, Sprint(f));
      if v != "" then v else env.sprint(f)
  }

  predicate SameAccount(env: Env, s: Settings, b: Binding) {
    && b.SprintBinding? && ProviderValue(env, s) == "sprintbox"
    && b.login == SprintValue(env, s, LOGIN) && b.credential == Digest(SprintValue(env, s, APIKEY))
  }

  /** validate_target */
  predicate IsActiveTarget(env: Env, db: Db, id: nat) {
    && id in db.ops.ip && SameAccount(env, db.cfg.settings, db.ops.ip[id].bound)
    && db.ops.ip[id].published.Some? && CurrentIp in db.cfg.settings
    && db.ops.ip[id].newIp == db.cfg.settings[CurrentIp]
    && db.ops.ip[id].newIpId == SprintValue(env, db.cfg.settings, BOXNAME)
  }

  /** validate_review */
  predicate IsReviewable(env: Env, db: Db, id: nat) {
    IsActiveTarget(env, db, id) && db.ops.ip[id].status == DONE && db.ops.ip[id].action == AWAITING_USER_REVIEW
  }

  /** validate_ssh_decision */
  predicate IsDecidable(env: Env, db: Db, id: nat, queued: bool) {
    && id in db.ops.ip
    && var row := db.ops.ip[id]; var s := db.cfg.settings;
    && (if queued then row.status == PENDING && row.action == SSH_WAIT_QUEUED else Undecided(row))
    && SameAccount(env, s, row.bound)
    && row.bound.boxName == SprintValue(env, s, BOXNAME) && row.bound.service == SprintValue(env, s, SERVICE)
    && row.bound.distributive == SprintValue(env, s, DISTRIBUTIVE)
    && row.revision == db.cfg.desired && row.oldIp == Get(s, CurrentIp)
    && row.published.None? && row.purchase == P_CONFIRMED && row.apply == A_NOT_STARTED
    && row.makeMain == M_NOT_STARTED && row.newIpId != "" && row.newIp != "" && row.newIpId != row.bound.boxName
  }

  /** bind_provider */
  function BindProvider(env: Env, s: Settings): Tx<Binding> {
    var p := ProviderValue(env, s);
    if p == "aeza" then Commit(AezaBinding)
    else if p == "sprintbox" then
      Commit(SprintBinding(SprintValue(env, s, LOGIN), Digest(SprintValue(env, s, APIKEY)),
                           SprintValue(env, s, BOXNAME), SprintValue(env, s, SERVICE),
                           SprintValue(env, s, DISTRIBUTIVE)))
    else Raise(BadValue)
  }

  function SetAction(o: Ops, id: nat, action: IpAction): Ops {
    if id in o.ip then o.(ip := o.ip[id := o.ip[id].(action := action)]) else o
  }

  /** The checks of prepare_ip_change_operation before it writes anything. */
  function MayRotate(env: Env, db: Db, review: Option<nat>, ssh: Option<nat>): Tx<()> {
    if review.Some? && ssh.Some? then Raise(BadValue)
    else if ssh.Some? && !IsDecidable(env, db, ssh.value, false) then Raise(StaleDecision)
    else if exists id | id in db.ops.ip :: Undecided(db.ops.ip[id]) && Some(id) != ssh then Raise(SafetyHold)
    else if review.Some? && !IsReviewable(env, db, review.value) then Raise(StaleDecision)
    else if SomeHold(db.ops) then Raise(SafetyHold)
    else Commit(())
  }

  function WriteBinding(o: Ops, id: nat, bound: Binding, kept: map<string, string>): Ops {
    if id in o.ip then o.(ip := o.ip[id := o.ip[id].(bound := bound, ctx := NO_CONTEXT.(retained := kept))]) else o
  }

  function SetSomeAction(o: Ops, id: Option<nat>, action: IpAction): Ops {
    if id.Some? then SetAction(o, id.value, action) else o
  }

  /** The writes after the lease is taken: the binding, and the decision that this operation follows up. */
  function FollowUp(o: Ops, id: nat, bound: Binding, review: Option<nat>, ssh: Option<nat>): Ops {
    var kept := if ssh.Some? && ssh.value in o.ip then Abandoned(o.ip[ssh.value]) else map[];
    SetSomeAction(SetSomeAction(WriteBinding(o, id, bound, kept), ssh, RETRY_REQUESTED), review, RETRY_REQUESTED)
  }

  /** prepare_ip_change_operation */
  function PrepareIpChange(env: Env, db: Db, review: Option<nat>, ssh: Option<nat>, now: int): Tx<Db> {
    var _ :- MayRotate(env, db, review, ssh);
    var cfg :- EnsureSnapshot(env, db.cfg, false);
    var id := db.ops.nextIp;
    var ops := db.ops.(ip := db.ops.ip[id := UNBOUND_OP.(revision := cfg.desired)], nextIp := id + 1);
    var db1 :- Acquire(Db(cfg, ops, db.api), Owner(IP_CHANGE, id), now);
    var bound :- BindProvider(env, cfg.settings);
    Commit(db1.(ops := FollowUp(db1.ops, id, bound, review, ssh)))
  }

  /** publish_ip_change */
  function PublishIp(db: Db, id: nat, ip: string, box: Option<NewBox>, ts: string): Tx<Db> {
    if id !in db.ops.ip then Raise(NotFound)
    else
      var row := db.ops.ip[id];
      var cfg :- PublishConfig(db.cfg, row.revision, ip, box, ts);
      Commit(Db(cfg, db.ops.(ip := db.ops.ip[id := PublishedRow(row, ts)]), db.api))
  }

  /** reconcile_ip_operation */
  function Reconcile(o: Ops, id: nat): Tx<Ops> {
    if id !in o.ip then Raise(NotFound)
    else if !Reconcilable(o.ip[id]) then Raise(NotReconcilable)
    else Commit(SetAction(o, id, Tables.RECONCILED))
  }

  /* ---------- SprintBOX decisions ---------- */

  function SetRow(o: Ops, id: nat, status: Status, action: IpAction): Ops {
    if id in o.ip then o.(ip := o.ip[id := o.ip[id].(status := status, action := action)]) else o
  }

  /** prepare_cleanup */
  function PrepareCleanup(env: Env, db: Db, id: nat, now: int): Tx<Db> {
    if !IsReviewable(env, db, id) then Raise(StaleDecision)
    else
      var db1 :- Acquire(db, Owner(IP_CHANGE, id), now);
      Commit(db1.(ops := SetRow(db1.ops, id, PENDING, CLEANUP_QUEUED)))
  }

  /** The claim of run_sprintbox_cleanup: the new table and whether it was claimed. */
  function ClaimCleanup(o: Ops, id: nat): (Ops, bool) {
    if id in o.ip && o.ip[id].status == PENDING && o.ip[id].action == CLEANUP_QUEUED
    then (SetRow(o, id, RUNNING, CLEANUP_RUNNING), true) else (o, false)
  }

  /** prepare_ssh_wait */
  function PrepareSshWait(env: Env, db: Db, id: nat, now: int): Tx<Db> {
    if !IsDecidable(env, db, id, false) then Raise(StaleDecision)
    else
      var db1 :- Acquire(db, Owner(IP_CHANGE, id), now);
      Commit(db1.(ops := SetRow(db1.ops, id, PENDING, SSH_WAIT_QUEUED)))
  }

  /** The transaction of _resume_ssh_wait: the new table and whether the wait goes on. */
  function ResumeSshWait(env: Env, db: Db, id: nat): (Db, bool) {
    if !(id in db.ops.ip && db.ops.ip[id].status == PENDING && db.ops.ip[id].action == SSH_WAIT_QUEUED)
    then (db, false)
    else if !IsDecidable(env, db, id, true)
    then (db.(ops := Release(SetRow(db.ops, id, DONE, SSH_UNREACHABLE), Owner(IP_CHANGE, id))), false)
    else (db.(ops := SetRow(db.ops, id, RUNNING, WAITING_SSH)), true)
  }

  /** cancel_ssh_wait */
  function CancelSshWait(o: Ops, id: nat): Tx<Ops> {
    if id in o.ip && Undecided(o.ip[id]) then Commit(SetAction(o, id, CANCELLED)) else Raise(StaleDecision)
  }

  /** The compare-and-set before box/add: the new table and whether it was claimed. */
  function ClaimPurchase(o: Ops, id: nat): (Ops, bool) {
    if id in o.ip && o.ip[id].purchase == P_NOT_STARTED && o.ip[id].status == RUNNING
    then (o.(ip := o.ip[id := o.ip[id].(purchase := P_SENDING, action := PURCHASE_SENDING)]), true)
    else (o, false)
  }

  function WriteContext(o: Ops, id: nat, ctx: Context): Ops {
    if id in o.ip then o.(ip := o.ip[id := o.ip[id].(ctx := ctx)]) else o
  }

  /* ---------- server operations ---------- */

  /** create_server_operation and create_protocol_refresh_operation */
  function CreateServerOp(db: Db, kind: ServerKind, now: int): Tx<Db> {
    var id := db.ops.nextServer;
    var ops := db.ops.(server := db.ops.server[id := ServerOp(kind, PENDING, S_NOT_STARTED)], nextServer := id + 1);
    Acquire(db.(ops := ops), Owner(SERVER, id), now)
  }

  /** mark_reboot_sending: the new table and whether this caller may send the reboot. */
  function MarkRebootSending(o: Ops, id: nat, now: int): (Ops, bool) {
    if id in o.server && o.server[id].kind == REBOOT && o.server[id].status.Active()
       && o.server[id].action == S_NOT_STARTED
    then
      var o1 := o.(server := o.server[id := o.server[id].(status := RUNNING, action := S_SENDING)]);
      (Heartbeat(o1, Owner(SERVER, id), now), true)
    else (o, false)
  }

  /* ---------- reset ---------- */

  predicate ActiveOwner(o: Ops, owner: Owner) {
    match owner
    case Owner(INSTALL, id) => id in o.install && o.install[id].status.Active()
    case Owner(IP_CHANGE, id) => id in o.ip && o.ip[id].status.Active()
    case Owner(SERVER, id) => id in o.server && o.server[id].status.Active()
  }

  predicate Idle(o: Ops) {
    && o.lease.None?
    && (forall id | id in o.install :: !o.install[id].status.Active())
    && (forall id | id in o.ip :: !o.ip[id].status.Active())
    && (forall id | id in o.server :: !o.server[id].status.Active())
  }

  /** reset_server_and_aeza_state */
  function ResetServer(db: Db, ts: string): Tx<Db> {
    if !Idle(db.ops) then Raise(Busy)
    else Commit(Db(ResetSettings(db.cfg, ts), db.ops.(install := map[], ip := map[], server := map[]), db.api))
  }
}
