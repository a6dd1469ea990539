/** What transactions leave alone in the rows of the IP operations: a purchase mark once set, and the publication. */
module RowMarks {
  import opened Base
  import opened Tables
  import opened OperationRows
  import opened Capture
  import opened Snapshots
  import opened ConfigSteps
  import opened Operations
  import opened History

  ghost predicate IdsBelow(o: Ops) {
    forall id | id in o.ip :: id < o.nextIp
  }

  predicate RowStays(row: IpOp, row': IpOp) {
    && (row.purchase != P_NOT_STARTED ==> row'.purchase != P_NOT_STARTED)
    && row'.published == row.published && row'.publishedAt == row.publishedAt
  }

  /** Every row is still there with its marks, and new ones are unpublished. */
  ghost predicate RowsStay(o: Ops, o': Ops) {
    && o.nextIp <= o'.nextIp && (IdsBelow(o) ==> IdsBelow(o'))
    && (forall id | id in o.ip :: id in o'.ip)
    && (forall id: nat | id in o'.ip && id < o.nextIp :: id in o.ip && RowStays(o.ip[id], o'.ip[id]))
    && (forall id: nat | id in o'.ip && o.nextIp <= id && IdsBelow(o) :: o'.ip[id].published.None?)
  }

  lemma AcquireStays(db: Db, owner: Owner, now: int)
    ensures Acquire(db, owner, now).Commit? ==> RowsStay(db.ops, Acquire(db, owner, now).value.ops)
  {
    hide FailOwner;
    if db.ops.lease.Some? {
      FailOwnerStays(db, db.ops.lease.value.owner);
    }
  }

  lemma FailOwnerStays(db: Db, owner: Owner)
    ensures RowsStay(db.ops, FailOwner(db, owner).ops) && FailOwner(db, owner).ops.nextIp == db.ops.nextIp
  {
    InterruptKeepsMark(db.ops);
    hide InterruptIp;
  }

  lemma InterruptKeepsMark(o: Ops)
    ensures forall id | id in o.ip :: RowStays(o.ip[id], InterruptIp(o.ip[id]))
  {
  }

  /** One row is rewritten without taking its mark back. */
  lemma OneRowStays(o: Ops, o': Ops, id: nat)
    requires o'.nextIp == o.nextIp
    requires o'.ip == o.ip || (id in o.ip && id in o'.ip && o'.ip == o.ip[id := o'.ip[id]]
                               && RowStays(o.ip[id], o'.ip[id]))
    ensures RowsStay(o, o')
  {
  }

  lemma WorkerEventsStay(env: Env, db: Db, e: Event)
    requires e.IpClaimPurchase? || e.IpContext?
    ensures RowsStay(db.ops, Next(env, db, e).ops)
  {
    hide RowsStay;
    match e
    case IpClaimPurchase(id) => OneRowStays(db.ops, ClaimPurchase(db.ops, id).0, id);
    case IpContext(id, ctx) => OneRowStays(db.ops, WriteContext(db.ops, id, ctx), id);
  }

  lemma DecisionEventsStay(env: Env, db: Db, e: Event)
    requires e.IpReconcile? || e.TakeCleanup? || e.TakeSshWait? || e.CancelWait?
    ensures RowsStay(db.ops, Next(env, db, e).ops)
  {
    hide RowsStay, Reconcile, ClaimCleanup, ResumeSshWait, CancelSshWait;
    match e
    case IpReconcile(id) => AnswersStay(db.ops, id);
    case TakeCleanup(id) => AnswersStay(db.ops, id);
    case TakeSshWait(id) => TakeWaitStays(env, db, id);
    case CancelWait(id) => AnswersStay(db.ops, id);
  }

  lemma AnswersStay(o: Ops, id: nat)
    ensures RowsStay(o, Reconcile(o, id).Or(o)) && RowsStay(o, ClaimCleanup(o, id).0)
    ensures RowsStay(o, CancelSshWait(o, id).Or(o))
  {
    hide RowsStay, Reconcilable;
    OneRowStays(o, Reconcile(o, id).Or(o), id);
    OneRowStays(o, ClaimCleanup(o, id).0, id);
    OneRowStays(o, CancelSshWait(o, id).Or(o), id);
  }

  lemma TakeWaitStays(env: Env, db: Db, id: nat)
    ensures RowsStay(db.ops, ResumeSshWait(env, db, id).0.ops)
  {
    hide IsDecidable, RowsStay;
    OneRowStays(db.ops, ResumeSshWait(env, db, id).0.ops, id);
  }

  lemma StartsStay(env: Env, db: Db, e: Event)
    requires e.StartInstall? || e.StartServer?
    ensures RowsStay(db.ops, Next(env, db, e).ops)
  {
    hide EnsureSnapshot, Acquire;
    if e.StartInstall? && EnsureSnapshot(env, db.cfg, true).Commit? {
      var c := EnsureSnapshot(env, db.cfg, true).value;
      var n := db.ops.nextInstall;
      AcquireStays(Db(c, db.ops.(install := db.ops.install[n := InstallOp(PENDING, c.desired, e.host)],
                                    nextInstall := n + 1), db.api), Owner(INSTALL, n), e.now);
    } else if e.StartServer? {
      var n := db.ops.nextServer;
      AcquireStays(db.(ops := db.ops.(server := db.ops.server[n := ServerOp(e.kind, PENDING, S_NOT_STARTED)],
                                         nextServer := n + 1)), Owner(SERVER, n), e.now);
    }
  }

  lemma StartIpChangeStays(env: Env, db: Db, review: Option<nat>, ssh: Option<nat>, now: int)
    ensures RowsStay(db.ops, PrepareIpChange(env, db, review, ssh, now).Or(db).ops)
  {
    hide EnsureSnapshot, Acquire, MayRotate, FollowUp, BindProvider;
    var t := EnsureSnapshot(env, db.cfg, false);
    if PrepareIpChange(env, db, review, ssh, now).Commit? {
      var n := db.ops.nextIp;
      var db1 := Db(t.value, db.ops.(ip := db.ops.ip[n := UNBOUND_OP.(revision := t.value.desired)], nextIp := n + 1),
                    db.api);
      AcquireStays(db1, Owner(IP_CHANGE, n), now);
      FollowUpStays(Acquire(db1, Owner(IP_CHANGE, n), now).value.ops, n, BindProvider(env, t.value.settings).value,
                       review, ssh);
    }
  }

  lemma FollowUpStays(o: Ops, id: nat, bound: Binding, review: Option<nat>, ssh: Option<nat>)
    ensures RowsStay(o, FollowUp(o, id, bound, review, ssh)) && FollowUp(o, id, bound, review, ssh).nextIp == o.nextIp
  {
    hide RowsStay, Abandoned, WriteBinding, SetSomeAction;
    var kept := if ssh.Some? && ssh.value in o.ip then Abandoned(o.ip[ssh.value]) else map[];
    var o1 := WriteBinding(o, id, bound, kept);
    var o2 := SetSomeAction(o1, ssh, RETRY_REQUESTED);
    var o3 := SetSomeAction(o2, review, RETRY_REQUESTED);
    BindingStays(o, id, bound, kept);
    SomeActionStays(o1, ssh);
    SomeActionStays(o2, review);
    StaysTransitive(o, o1, o2);
    StaysTransitive(o, o2, o3);
  }

  lemma BindingStays(o: Ops, id: nat, bound: Binding, kept: map<string, string>)
    ensures RowsStay(o, WriteBinding(o, id, bound, kept)) && WriteBinding(o, id, bound, kept).nextIp == o.nextIp
  {
    OneRowStays(o, WriteBinding(o, id, bound, kept), id);
    hide RowsStay;
  }

  lemma SomeActionStays(o: Ops, id: Option<nat>)
    ensures var o' := SetSomeAction(o, id, RETRY_REQUESTED); RowsStay(o, o') && o'.nextIp == o.nextIp
  {
    OneRowStays(o, SetSomeAction(o, id, RETRY_REQUESTED), id.GetOr(0));
    hide RowsStay;
  }

  lemma StaysTransitive(o: Ops, o1: Ops, o2: Ops)
    requires RowsStay(o, o1) && RowsStay(o1, o2) && o1.nextIp == o.nextIp
    ensures RowsStay(o, o2)
  {
  }

  lemma QueuesStay(env: Env, db: Db, id: nat, now: int)
    ensures RowsStay(db.ops, PrepareCleanup(env, db, id, now).Or(db).ops)
    ensures RowsStay(db.ops, PrepareSshWait(env, db, id, now).Or(db).ops)
  {
    hide IsReviewable, IsDecidable, Acquire, RowsStay;
    OneRowStays(db.ops, db.ops, id);
    AcquireStays(db, Owner(IP_CHANGE, id), now);
    AcquireKeepsCount(db, Owner(IP_CHANGE, id), now);
    if Acquire(db, Owner(IP_CHANGE, id), now).Commit? {
      var o := Acquire(db, Owner(IP_CHANGE, id), now).value.ops;
      OneRowStays(o, SetRow(o, id, PENDING, CLEANUP_QUEUED), id);
      OneRowStays(o, SetRow(o, id, PENDING, SSH_WAIT_QUEUED), id);
      StaysTransitive(db.ops, o, SetRow(o, id, PENDING, CLEANUP_QUEUED));
      StaysTransitive(db.ops, o, SetRow(o, id, PENDING, SSH_WAIT_QUEUED));
    }
  }

  lemma AcquireKeepsCount(db: Db, owner: Owner, now: int)
    ensures Acquire(db, owner, now).Commit? ==> Acquire(db, owner, now).value.ops.nextIp == db.ops.nextIp
  {
    hide FailSnapshot, InterruptIp;
  }

  lemma OtherEventsStay(env: Env, db: Db, e: Event)
    requires e.Configure? || e.InstallUpdate? || e.InstallHeartbeat? || e.InstallDone? || e.InstallFailed?
             || e.InstallAmbiguous? || e.ServerUpdate? || e.MarkReboot?
    ensures RowsStay(db.ops, Next(env, db, e).ops)
  {
    hide ConfigNext, CompleteConfig, FailSnapshot;
  }

  /** Every transaction but a worker's update, the publication and the reset leaves the marks of every row alone. */
  lemma EventStays(env: Env, db: Db, e: Event)
    requires !e.IpUpdate? && !e.IpPublish? && !e.Reset?
    ensures RowsStay(db.ops, Next(env, db, e).ops)
  {
    hide RowsStay, PrepareInstall, PrepareIpChange, CreateServerOp, PrepareCleanup, PrepareSshWait;
    match e
    case StartInstall(_, _) => StartsStay(env, db, e);
    case StartServer(_, _) => StartsStay(env, db, e);
    case StartIpChange(review, ssh, now) => StartIpChangeStays(env, db, review, ssh, now);
    case QueueCleanup(id, now) => QueuesStay(env, db, id, now);
    case QueueSshWait(id, now) => QueuesStay(env, db, id, now);
    case Restart => RecoverStays(db);
    case IpClaimPurchase(_) | IpContext(_, _) => WorkerEventsStay(env, db, e);
    case IpReconcile(_) | TakeCleanup(_) | TakeSshWait(_) | CancelWait(_) => DecisionEventsStay(env, db, e);
    case _ => OtherEventsStay(env, db, e);
  }

  lemma RecoverStays(db: Db)
    ensures RowsStay(db.ops, Recover(db).ops)
  {
    InterruptKeepsMark(db.ops);
    hide InterruptIp;
  }
}
