/** Manual holds and SSH decisions: neither bypassable nor stuck, and each decision is taken once. */
module Decisions {
  import opened Base
  import opened Tables
  import opened OperationRows
  import opened Capture
  import opened ConfigStore
  import opened Snapshots
  import opened ConfigSteps
  import opened Operations
  import opened History

  /* ---------- a hold can always be resolved ---------- */

  /** A closed row on hold is accepted by reconcile_ip_operation exactly when it is well-formed in that sense:
      the hold query also looks at the action AMBIGUOUS, which the acceptance test does not. */
  lemma ReconcilableExactlyWhen(row: IpOp)
    requires !row.status.Active() && OnHold(row)
    ensures Reconcilable(row) <==> HoldOk(row)
  {
  }

  ghost predicate HoldInv(o: Ops) {
    forall id | id in o.ip :: HoldOk(o.ip[id])
  }

  /** Reconciling resolves the hold of that operation and touches nothing else. */
  lemma HoldIsResolved(o: Ops, id: nat)
    requires HoldInv(o) && id in o.ip && !o.ip[id].status.Active() && OnHold(o.ip[id])
    ensures Reconcile(o, id).Commit?
    ensures var o' := Reconcile(o, id).value;
            && !OnHold(o'.ip[id]) && o'.ip[id] == o.ip[id].(action := Tables.RECONCILED)
            && o' == o.(ip := o'.ip) && o'.ip - {id} == o.ip - {id}
            && Reconcile(o', id) == Raise(NotReconcilable)
  {
    ReconcilableExactlyWhen(o.ip[id]);
  }

  /** What a worker's own updates keep to: none of them closes a row with the action AMBIGUOUS but another status,
      or gives such an action to a row closed with another status. */
  ghost predicate PatchOk(o: Ops, e: Event) {
    e.IpUpdate? && e.id in o.ip ==> HoldOk(Patched(o.ip[e.id], e.patch))
  }

  /** Every row is as it was or well-formed. */
  ghost predicate RowsHold(o: Ops, o': Ops) {
    forall id | id in o'.ip :: (id in o.ip && o'.ip[id] == o.ip[id]) || HoldOk(o'.ip[id])
  }

  lemma AcquireHolds(db: Db, owner: Owner, now: int)
    requires HoldInv(db.ops)
    ensures Acquire(db, owner, now).Commit? ==> HoldInv(Acquire(db, owner, now).value.ops)
  {
    hide FailSnapshot;
    if db.ops.lease.Some? {
      assert RowsHold(db.ops, FailOwner(db, db.ops.lease.value.owner).ops);
    }
  }

  lemma QueuesHold(env: Env, db: Db, id: nat, now: int)
    requires HoldInv(db.ops)
    ensures HoldInv(PrepareCleanup(env, db, id, now).Or(db).ops)
    ensures HoldInv(PrepareSshWait(env, db, id, now).Or(db).ops)
    ensures HoldInv(ResumeSshWait(env, db, id).0.ops)
    ensures HoldInv(ClaimCleanup(db.ops, id).0)
  {
    hide IsDecidable, IsReviewable, Acquire;
    AcquireHolds(db, Owner(IP_CHANGE, id), now);
  }

  lemma StartsHold(env: Env, db: Db, review: Option<nat>, ssh: Option<nat>, host: string, kind: ServerKind, now: int)
    requires HoldInv(db.ops)
    ensures HoldInv(PrepareInstall(env, db, host, now).Or(db).ops)
    ensures HoldInv(CreateServerOp(db, kind, now).Or(db).ops)
  {
    hide EnsureSnapshot, Acquire, HoldOk;
    var t := EnsureSnapshot(env, db.cfg, true);
    var n, m := db.ops.nextInstall, db.ops.nextServer;
    if t.Commit? {
      AcquireHolds(Db(t.value, db.ops.(install := db.ops.install[n := InstallOp(PENDING, t.value.desired, host)],
                                       nextInstall := n + 1), db.api), Owner(INSTALL, n), now);
    }
    AcquireHolds(db.(ops := db.ops.(server := db.ops.server[m := ServerOp(kind, PENDING, S_NOT_STARTED)],
                                    nextServer := m + 1)), Owner(SERVER, m), now);
  }

  lemma FollowUpHolds(o: Ops, id: nat, bound: Binding, review: Option<nat>, ssh: Option<nat>)
    requires HoldInv(o)
    ensures HoldInv(FollowUp(o, id, bound, review, ssh))
  {
    hide Abandoned;
    var kept := if ssh.Some? && ssh.value in o.ip then Abandoned(o.ip[ssh.value]) else map[];
    var o1 := WriteBinding(o, id, bound, kept);
    var o2 := SetSomeAction(o1, ssh, RETRY_REQUESTED);
    assert HoldInv(o1);
    assert HoldInv(o2);
  }

  lemma StartIpChangeHolds(env: Env, db: Db, review: Option<nat>, ssh: Option<nat>, now: int)
    requires HoldInv(db.ops)
    ensures HoldInv(PrepareIpChange(env, db, review, ssh, now).Or(db).ops)
  {
    hide EnsureSnapshot, Acquire, FollowUp, MayRotate, BindProvider;
    var t := EnsureSnapshot(env, db.cfg, false);
    if t.Commit? {
      var n := db.ops.nextIp;
      var row := UNBOUND_OP.(revision := t.value.desired);
      assert HoldOk(row);
      var db1 := Db(t.value, db.ops.(ip := db.ops.ip[n := row], nextIp := n + 1), db.api);
      AcquireHolds(db1, Owner(IP_CHANGE, n), now);
      if Acquire(db1, Owner(IP_CHANGE, n), now).Commit? && BindProvider(env, t.value.settings).Commit? {
        FollowUpHolds(Acquire(db1, Owner(IP_CHANGE, n), now).value.ops, n, BindProvider(env, t.value.settings).value,
                      review, ssh);
      }
    }
  }

  lemma HoldStepKeeps(env: Env, db: Db, e: Event)
    requires HoldInv(db.ops) && PatchOk(db.ops, e)
    ensures HoldInv(Next(env, db, e).ops)
  {
    hide PrepareInstall, PrepareIpChange, PrepareCleanup, PrepareSshWait, ResumeSshWait, ConfigNext, CreateServerOp,
         ClaimCleanup, CompleteInstall, FailInstall, MarkInstallAmbiguous, PublishIp, ResetServer, Patched, HoldInv,
         UpdateInstall, UpdateServer, MarkRebootSending, HeartbeatInstall, Recover;
    var o, o' := db.ops, Next(env, db, e).ops;
    match e
    case StartInstall(host, now) => StartsHold(env, db, None, None, host, REBOOT, now);
    case StartIpChange(review, ssh, now) => StartIpChangeHolds(env, db, review, ssh, now);
    case StartServer(kind, now) => StartsHold(env, db, None, None, "", kind, now);
    case QueueCleanup(id, now) => QueuesHold(env, db, id, now);
    case TakeCleanup(id) => QueuesHold(env, db, id, 0);
    case QueueSshWait(id, now) => QueuesHold(env, db, id, now);
    case TakeSshWait(id) => QueuesHold(env, db, id, 0);
    case Restart => RecoverHolds(db);
    case Configure(_) =>
    case IpUpdate(id, patch, now) => RowWriteHolds(o, o', id);
    case IpClaimPurchase(id) => RowWriteHolds(o, o', id);
    case IpContext(id, ctx) => RowChangeHolds(o, id, o'); RowWriteHolds(o, o', id);
    case IpReconcile(id) => RowWriteHolds(o, o', id);
    case CancelWait(id) => RowWriteHolds(o, o', id);
    case _ => OthersHold(env, db, e);
  }

  lemma RowWriteHolds(o: Ops, o': Ops, id: nat)
    requires HoldInv(o)
    requires o'.ip == o.ip || (id in o.ip && id in o'.ip && o'.ip == o.ip[id := o'.ip[id]] && HoldOk(o'.ip[id]))
    ensures HoldInv(o')
  {
  }

  /** A write of the context alone. */
  lemma RowChangeHolds(o: Ops, id: nat, o': Ops)
    requires HoldInv(o) && id in o.ip ==> id in o'.ip && o'.ip[id] == o.ip[id].(ctx := o'.ip[id].ctx)
    ensures HoldInv(o) && id in o.ip ==> HoldOk(o'.ip[id])
  {
  }

  lemma OthersHold(env: Env, db: Db, e: Event)
    requires HoldInv(db.ops)
    requires e.InstallUpdate? || e.InstallHeartbeat? || e.InstallDone? || e.InstallFailed? || e.InstallAmbiguous?
             || e.IpPublish? || e.ServerUpdate? || e.MarkReboot? || e.Reset?
    ensures HoldInv(Next(env, db, e).ops)
  {
    hide CompleteConfig, FailSnapshot, PublishConfig, ResetSettings, Idle;
  }

  lemma RecoverHolds(db: Db)
    requires HoldInv(db.ops)
    ensures HoldInv(Recover(db).ops)
  {
    forall id | id in Recover(db).ops.ip ensures HoldOk(Recover(db).ops.ip[id]) {
      assert HoldOk(db.ops.ip[id]);
    }
  }

  ghost predicate PatchesOk(env: Env, db: Db, es: seq<Event>)
    decreases |es|
  {
    es == [] || (PatchOk(db.ops, es[0]) && PatchesOk(env, Next(env, db, es[0]), es[1..]))
  }

  /** In every reachable state, with leases expiring and workers stalling at will, each closed operation on hold is
      accepted by reconcile_ip_operation and stops matching the hold query. */
  lemma {:induction false} HoldsAreResolvable(env: Env, db: Db, es: seq<Event>, id: nat)
    requires HoldInv(db.ops) && PatchesOk(env, db, es)
    ensures HoldInv(Run(env, db, es).ops)
    ensures var o := Run(env, db, es).ops;
            id in o.ip && !o.ip[id].status.Active() && OnHold(o.ip[id])
            ==> Reconcile(o, id).Commit? && !OnHold(Reconcile(o, id).value.ip[id])
    decreases |es|
  {
    if es == [] {
      var o := db.ops;
      if id in o.ip && !o.ip[id].status.Active() && OnHold(o.ip[id]) {
        HoldIsResolved(o, id);
      }
    } else {
      HoldStepKeeps(env, db, es[0]);
      HoldsAreResolvable(env, Next(env, db, es[0]), es[1..], id);
    }
  }

  /* ---------- a hold cannot be bypassed ---------- */

  /** An IP operation starts only when, at the start of that transaction, nothing is on hold and no decision is
      open other than the one it follows up. Its own row is the only one created. */
  lemma NoRotationOnHold(env: Env, db: Db, review: Option<nat>, ssh: Option<nat>, now: int)
    requires PrepareIpChange(env, db, review, ssh, now).Commit?
    ensures forall id | id in db.ops.ip :: !OnHold(db.ops.ip[id])
    ensures forall id | id in db.ops.ip && Undecided(db.ops.ip[id]) :: Some(id) == ssh && IsDecidable(env, db, id, false)
    ensures PrepareIpChange(env, db, review, ssh, now).value.ops.ip.Keys == db.ops.ip.Keys + {db.ops.nextIp}
  {
    hide EnsureSnapshot, BindProvider, IsReviewable, IsDecidable, Abandoned, FailSnapshot, InterruptIp, OnHold, FollowUp,
         Acquire, MayRotate;
    NothingHeld(env, db, review, ssh);
    StartedKeys(env, db, review, ssh, now);
  }

  lemma NothingHeld(env: Env, db: Db, review: Option<nat>, ssh: Option<nat>)
    requires MayRotate(env, db, review, ssh).Commit?
    ensures forall id | id in db.ops.ip :: !OnHold(db.ops.ip[id])
    ensures forall id | id in db.ops.ip && Undecided(db.ops.ip[id]) :: Some(id) == ssh && IsDecidable(env, db, id, false)
  {
    hide IsReviewable, IsDecidable, OnHold;
    assert !SomeHold(db.ops);
  }

  lemma StartedKeys(env: Env, db: Db, review: Option<nat>, ssh: Option<nat>, now: int)
    requires PrepareIpChange(env, db, review, ssh, now).Commit?
    ensures PrepareIpChange(env, db, review, ssh, now).value.ops.ip.Keys == db.ops.ip.Keys + {db.ops.nextIp}
  {
    hide MayRotate, EnsureSnapshot, BindProvider, Acquire, FollowUp, TakenOver;
    var t, id := EnsureSnapshot(env, db.cfg, false), db.ops.nextIp;
    var ops := db.ops.(ip := db.ops.ip[id := UNBOUND_OP.(revision := t.value.desired)], nextIp := id + 1);
    var db1 := Db(t.value, ops, db.api);
    TakeoverRows(db1, Owner(IP_CHANGE, id), now);
    var o, bound := Acquire(db1, Owner(IP_CHANGE, id), now).value.ops, BindProvider(env, t.value.settings).value;
    FollowUpKeys(o, id, bound, review, ssh);
  }

  lemma FollowUpKeys(o: Ops, id: nat, bound: Binding, review: Option<nat>, ssh: Option<nat>)
    ensures FollowUp(o, id, bound, review, ssh).ip.Keys == o.ip.Keys
  {
    hide Abandoned;
  }

  /** The lease that is taken over belongs to an operation which the takeover turns into a hold. */
  predicate TakesOverAmbiguity(o: Ops) {
    && o.lease.Some? && o.lease.value.owner.kind.IP_CHANGE? && o.lease.value.owner.id in o.ip
    && OnHold(InterruptIp(o.ip[o.lease.value.owner.id]))
  }

  /** Exactly when a rotation starts beside a hold all the same, whatever it follows up: when it takes over the expired
      lease of an operation that may have acted at the provider. The hold checks ran before that takeover. */
  lemma StartsBesideHoldExactlyWhen(env: Env, db: Db, review: Option<nat>, ssh: Option<nat>, now: int)
    requires PrepareIpChange(env, db, review, ssh, now).Commit? && IdsOk(db.ops)
    ensures SomeHold(PrepareIpChange(env, db, review, ssh, now).value.ops) <==> TakesOverAmbiguity(db.ops)
  {
    hide PrepareIpChange, InterruptIp, OnHold, Undecided, IsDecidable, Rotated, Followed;
    NoRotationOnHold(env, db, review, ssh, now);
    FollowedIsClosed(env, db, review, ssh, now);
    RotationRows(env, db, review, ssh, now);
    HoldsAfterRotation(db.ops, PrepareIpChange(env, db, review, ssh, now).value.ops, review, ssh);
  }

  lemma HoldsAfterRotation(o: Ops, o': Ops, review: Option<nat>, ssh: Option<nat>)
    requires Rotated(o, o', review, ssh) && Followed(o, review, ssh) && !SomeHold(o)
    ensures SomeHold(o') <==> TakesOverAmbiguity(o)
  {
    hide InterruptIp, OnHold, Undecided;
    if TakesOverAmbiguity(o) {
      assert OnHold(o'.ip[o.lease.value.owner.id]);
    }
    forall id | id in o'.ip && OnHold(o'.ip[id]) ensures TakesOverAmbiguity(o) {
      assert id in o.ip;
      if ssh == Some(id) || review == Some(id) {
        RetriedIsNotOnHold(o.ip[id]);
      }
    }
  }

  ghost predicate Followed(o: Ops, review: Option<nat>, ssh: Option<nat>) {
    forall id: nat | ssh == Some(id) || review == Some(id) ::
      id in o.ip && o.ip[id].status == DONE && InterruptIp(o.ip[id]) == o.ip[id]
  }

  /** What a rotation follows up is DONE, so that no takeover changes it. */
  lemma FollowedIsClosed(env: Env, db: Db, review: Option<nat>, ssh: Option<nat>, now: int)
    requires PrepareIpChange(env, db, review, ssh, now).Commit?
    ensures Followed(db.ops, review, ssh)
  {
    hide EnsureSnapshot, Acquire, BindProvider, SameAccount, FollowUp;
  }

  lemma RetriedIsNotOnHold(row: IpOp)
    requires row.status == DONE
    ensures !OnHold(row.(action := RETRY_REQUESTED)) && !Undecided(row.(action := RETRY_REQUESTED))
  {
  }

  /** A row of the table once the lease of its operation, if it holds it, is taken over. */
  function TakenOver(o: Ops, id: nat): IpOp
    requires id in o.ip
  {
    if Owns(o, Owner(IP_CHANGE, id)) then InterruptIp(o.ip[id]) else o.ip[id]
  }

  /** What a rotation leaves in the operation table: its own row, and every other one as the takeover and the follow-up
      change it. */
  ghost predicate Rotated(o: Ops, o': Ops, review: Option<nat>, ssh: Option<nat>) {
    && o'.ip.Keys == o.ip.Keys + {o.nextIp}
    && !OnHold(o'.ip[o.nextIp]) && !Undecided(o'.ip[o.nextIp]) && RowIsNew(o'.ip[o.nextIp])
    && (!Owns(o, Owner(IP_CHANGE, o.nextIp)) ==> o'.ip[o.nextIp].status == PENDING)
    && forall id | id in o.ip :: o'.ip[id] ==
         if ssh == Some(id) || review == Some(id) then TakenOver(o, id).(action := RETRY_REQUESTED) else TakenOver(o, id)
  }

  lemma RotationRows(env: Env, db: Db, review: Option<nat>, ssh: Option<nat>, now: int)
    requires PrepareIpChange(env, db, review, ssh, now).Commit? && IdsOk(db.ops)
    ensures Rotated(db.ops, PrepareIpChange(env, db, review, ssh, now).value.ops, review, ssh)
  {
    hide PrepareIpChange, Acquire, FollowUp, BindProvider, Entered, TakenOver, Rotated;
    RotationIsFollowUp(env, db, review, ssh, now);
    var n := db.ops.nextIp;
    var db1 := Entered(env, db);
    var bound := BindProvider(env, db1.cfg.settings).value;
    EnteredRows(env, db);
    TakeoverRows(db1, Owner(IP_CHANGE, n), now);
    var o2 := Acquire(db1, Owner(IP_CHANGE, n), now).value.ops;
    FollowUpLines(o2, n, bound, review, ssh);
    RowsCombine(db.ops, db1.ops, o2, FollowUp(o2, n, bound, review, ssh), review, ssh);
  }

  lemma RowsCombine(o: Ops, o1: Ops, o2: Ops, o': Ops, review: Option<nat>, ssh: Option<nat>)
    requires o1.ip.Keys == o.ip.Keys + {o.nextIp} && o.nextIp !in o.ip && review != Some(o.nextIp)
    requires ssh != Some(o.nextIp)
    requires o1.ip[o.nextIp] == UNBOUND_OP.(revision := o1.ip[o.nextIp].revision)
    requires TakenOver(o1, o.nextIp) in {o1.ip[o.nextIp], InterruptIp(o1.ip[o.nextIp])}
    requires !Owns(o, Owner(IP_CHANGE, o.nextIp)) ==> TakenOver(o1, o.nextIp) == o1.ip[o.nextIp]
    requires forall id | id in o.ip :: TakenOver(o1, id) == TakenOver(o, id)
    requires o2.ip.Keys == o1.ip.Keys && forall id | id in o1.ip :: o2.ip[id] == TakenOver(o1, id)
    requires o'.ip.Keys == o2.ip.Keys
    requires o'.ip[o.nextIp].(bound := AezaBinding, ctx := NO_CONTEXT) == o2.ip[o.nextIp].(bound := AezaBinding, ctx := NO_CONTEXT)
    requires forall id | id in o2.ip && id != o.nextIp ::
               o'.ip[id] == if ssh == Some(id) || review == Some(id) then o2.ip[id].(action := RETRY_REQUESTED) else o2.ip[id]
    ensures Rotated(o, o', review, ssh)
  {
    hide TakenOver, InterruptIp, Owns, OnHold, Undecided, RowIsNew;
    FreshRow(o1.ip[o.nextIp], o2.ip[o.nextIp], o'.ip[o.nextIp]);
  }

  /** The tables once the new row is entered. */
  function Entered(env: Env, db: Db): Db {
    var c := EnsureSnapshot(env, db.cfg, false).Or(db.cfg);
    var n := db.ops.nextIp;
    Db(c, db.ops.(ip := db.ops.ip[n := UNBOUND_OP.(revision := c.desired)], nextIp := n + 1), db.api)
  }

  lemma EnteredRows(env: Env, db: Db)
    requires IdsOk(db.ops)
    ensures var o, o1 := db.ops, Entered(env, db).ops;
            && o1.ip.Keys == o.ip.Keys + {o.nextIp} && o.nextIp !in o.ip && o1.lease == o.lease
            && o1.ip[o.nextIp] == UNBOUND_OP.(revision := o1.ip[o.nextIp].revision)
            && TakenOver(o1, o.nextIp) in {o1.ip[o.nextIp], InterruptIp(o1.ip[o.nextIp])}
            && (!Owns(o, Owner(IP_CHANGE, o.nextIp)) ==> TakenOver(o1, o.nextIp) == o1.ip[o.nextIp])
            && forall id | id in o.ip :: TakenOver(o1, id) == TakenOver(o, id)
  {
    hide EnsureSnapshot, InterruptIp;
  }

  lemma RotationIsFollowUp(env: Env, db: Db, review: Option<nat>, ssh: Option<nat>, now: int)
    requires PrepareIpChange(env, db, review, ssh, now).Commit? && IdsOk(db.ops)
    ensures var n, db1 := db.ops.nextIp, Entered(env, db);
            && BindProvider(env, db1.cfg.settings).Commit? && Acquire(db1, Owner(IP_CHANGE, n), now).Commit?
            && PrepareIpChange(env, db, review, ssh, now).value.ops
               == FollowUp(Acquire(db1, Owner(IP_CHANGE, n), now).value.ops, n, BindProvider(env, db1.cfg.settings).value,
                           review, ssh)
            && review != Some(n) && ssh != Some(n)
  {
    hide MayRotate, EnsureSnapshot, BindProvider, Acquire, InterruptIp, OnHold, FollowUp;
    FollowedIsClosed(env, db, review, ssh, now);
  }

  predicate RowIsNew(row: IpOp) {
    row.action == NOT_STARTED && row.published.None?
  }

  /** The new row is fresh, even if an old lease was left on its number. */
  lemma FreshRow(row: IpOp, row': IpOp, row'': IpOp)
    requires row == UNBOUND_OP.(revision := row.revision) && row' in {row, InterruptIp(row)}
    requires row''.(bound := AezaBinding, ctx := NO_CONTEXT) == row'.(bound := AezaBinding, ctx := NO_CONTEXT)
    ensures !OnHold(row'') && !Undecided(row'') && RowIsNew(row'') && (row' == row ==> row''.status == PENDING)
  {
  }

  /** Acquiring the lease closes the row of the expired lease, if there is one, and no other. */
  lemma TakeoverRows(db: Db, owner: Owner, now: int)
    requires Acquire(db, owner, now).Commit?
    ensures var o, o' := db.ops, Acquire(db, owner, now).value.ops;
            o'.ip.Keys == o.ip.Keys && forall id | id in o.ip :: o'.ip[id] == TakenOver(o, id)
  {
    hide InterruptIp, FailSnapshot;
  }

  lemma FollowUpLines(o: Ops, id: nat, bound: Binding, review: Option<nat>, ssh: Option<nat>)
    requires id in o.ip && review != Some(id) && ssh != Some(id)
    ensures var o' := FollowUp(o, id, bound, review, ssh);
            && o'.ip.Keys == o.ip.Keys
            && o'.ip[id].(bound := AezaBinding, ctx := NO_CONTEXT) == o.ip[id].(bound := AezaBinding, ctx := NO_CONTEXT)
            && forall other | other in o.ip && other != id :: o'.ip[other] ==
                 if ssh == Some(other) || review == Some(other) then o.ip[other].(action := RETRY_REQUESTED)
                 else o.ip[other]
  {
    hide Abandoned, WriteBinding, SetSomeAction;
    var kept := if ssh.Some? && ssh.value in o.ip then Abandoned(o.ip[ssh.value]) else map[];
    BindingLine(o, id, bound, kept);
    var o1 := WriteBinding(o, id, bound, kept);
    SomeActionLine(o1, ssh);
    SomeActionLine(SetSomeAction(o1, ssh, RETRY_REQUESTED), review);
  }

  lemma BindingLine(o: Ops, id: nat, bound: Binding, kept: map<string, string>)
    requires id in o.ip
    ensures var o' := WriteBinding(o, id, bound, kept);
            && o'.ip.Keys == o.ip.Keys && (forall other | other in o.ip && other != id :: o'.ip[other] == o.ip[other])
            && o'.ip[id].(bound := AezaBinding, ctx := NO_CONTEXT) == o.ip[id].(bound := AezaBinding, ctx := NO_CONTEXT)
  {
  }

  lemma SomeActionLine(o: Ops, id: Option<nat>)
    ensures var o' := SetSomeAction(o, id, RETRY_REQUESTED);
            && o'.ip.Keys == o.ip.Keys
            && forall x | x in o.ip :: o'.ip[x] == if id == Some(x) then o.ip[x].(action := RETRY_REQUESTED) else o.ip[x]
  {
  }
}
