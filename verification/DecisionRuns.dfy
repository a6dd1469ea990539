/** Runs from the empty database: the invariants hold at their start, and one of them takes a cleanup up beside an
    open decision although every worker behaves. */
module DecisionRuns {
  import opened Base
  import opened Tables
  import opened OperationRows
  import opened Capture
  import opened ConfigStore
  import opened Snapshots
  import opened ConfigSteps
  import opened Operations
  import opened History
  import opened Leases
  import opened Decisions
  import opened SshDecisions

  const START := World(EMPTY_DB, {})

  /** What the theorems about runs ask of the database they begin with holds of the empty one. */
  lemma RunsMayStart(env: Env)
    ensures DecisionWorld(START) && HoldInv(EMPTY_DB.ops) && DbInv(env, EMPTY_DB)
  {
    EmptyInv(env);
  }

  /** The world is reached by transactions of workers and callers that keep to their rules. */
  ghost predicate Reached(env: Env, w: World) {
    exists es :: CallersOk(env, EMPTY_DB, es) && AllCalm(env, START, es) && WorldRun(env, START, es) == w
  }

  ghost predicate MayHappen(env: Env, w: World, e: Event) {
    (e.Configure? ==> CallerOk(w.db.cfg, e.e)) && Behaves(env, w, e) && Calm(env, w, e)
  }

  lemma {:induction false} RunGoesOn(env: Env, w: World, es: seq<Event>, e: Event)
    requires CallersOk(env, w.db, es) && AllCalm(env, w, es) && MayHappen(env, WorldRun(env, w, es), e)
    ensures CallersOk(env, w.db, es + [e]) && AllCalm(env, w, es + [e])
    ensures WorldRun(env, w, es + [e]) == WorldNext(env, WorldRun(env, w, es), e)
    decreases |es|
  {
    hide Next, CallerOk, Behaves, Calm, Begun, Ended;
    if es == [] {
      assert es + [e] == [e] && [e][1..] == [];
    } else {
      assert (es + [e])[0] == es[0] && (es + [e])[1..] == es[1..] + [e];
      RunGoesOn(env, WorldNext(env, w, es[0]), es[1..], e);
    }
  }

  lemma ReachedOn(env: Env, w: World, e: Event)
    requires Reached(env, w) && MayHappen(env, w, e)
    ensures Reached(env, WorldNext(env, w, e))
  {
    hide MayHappen, WorldNext, CallersOk, AllCalm, WorldRun;
    var es :| CallersOk(env, EMPTY_DB, es) && AllCalm(env, START, es) && WorldRun(env, START, es) == w;
    RunGoesOn(env, START, es, e);
  }

  lemma {:induction false} RunIsWorldRun(env: Env, w: World, es: seq<Event>)
    ensures WorldRun(env, w, es).db == Run(env, w.db, es)
    decreases |es|
  {
    hide Next, Begun, Ended;
    if es == [] {
    } else {
      RunIsWorldRun(env, WorldNext(env, w, es[0]), es[1..]);
    }
  }

  lemma ReachedInv(env: Env, w: World)
    requires env.Ok() && Reached(env, w)
    ensures DbInv(env, w.db) && DecisionWorld(w)
  {
    hide DecisionWorld, DbInv, CallersOk, AllCalm, WorldRun, Run;
    var es :| CallersOk(env, EMPTY_DB, es) && AllCalm(env, START, es) && WorldRun(env, START, es) == w;
    RunsMayStart(env);
    RunIsWorldRun(env, START, es);
    RunKept(env, EMPTY_DB, es);
    AtMostOneDecision(env, START, es);
  }

  /* ---------- the stages of a rotation ---------- */

  /** Settings of a SprintBOX account that name no port, switch or number. */
  predicate Plain(env: Env, s: Settings) {
    && ProviderValue(env, s) == "sprintbox"
    && forall k | k in s :: !k.Enabled? && !k.Port? && !k.Obf?
  }

  lemma PlainIsCaptured(env: Env, c: Cfg)
    requires Plain(env, c.settings)
    ensures CaptureConfig(env, c).Some?
  {
  }

  /** Nobody works, and nothing waits for the operator but reviews. */
  predicate Quiet(w: World) {
    w.live == {} && w.db.ops.lease.None? && forall id | id in w.db.ops.ip :: !OnHold(w.db.ops.ip[id]) && !Undecided(w.db.ops.ip[id])
  }

  function Account(env: Env, s: Settings): Binding {
    SprintBinding(SprintValue(env, s, LOGIN), Digest(SprintValue(env, s, APIKEY)), SprintValue(env, s, BOXNAME),
                  SprintValue(env, s, SERVICE), SprintValue(env, s, DISTRIBUTIVE))
  }

  function NewRow(env: Env, c: Cfg): IpOp {
    UNBOUND_OP.(revision := c.desired, bound := Account(env, c.settings), ctx := NO_CONTEXT)
  }

  /** The operation is the one under way, with this row; the settings are these. */
  ghost predicate Working(env: Env, w: World, id: nat, rows: Rows, settings: Settings, desired: nat) {
    && Reached(env, w) && w.live == {Owner(IP_CHANGE, id)} && Owns(w.db.ops, Owner(IP_CHANGE, id)) && id in rows
    && w.db.ops.ip == rows && w.db.cfg.settings == settings && w.db.cfg.desired == desired
  }

  lemma Begins(env: Env, w: World) returns (w': World)
    requires env.Ok() && Reached(env, w) && Quiet(w) && Plain(env, w.db.cfg.settings)
    ensures var id := w.db.ops.nextIp;
            && Working(env, w', id, w.db.ops.ip[id := NewRow(env, w.db.cfg)], w.db.cfg.settings, w.db.cfg.desired)
            && w'.db.ops.nextIp == id + 1
  {
    hide Reached, Plain, DbInv, DecisionWorld, NewRow, PrepareIpChange, MayHappen, WorldNext, OnHold, Undecided;
    ReachedInv(env, w);
    InvGives(env, w);
    RotationCommits(env, w.db);
    RotationHappens(env, w);
    ReachedOn(env, w, StartIpChange(None, None, 0));
    w' := WorldNext(env, w, StartIpChange(None, None, 0));
  }

  lemma InvGives(env: Env, w: World)
    requires DbInv(env, w.db)
    ensures w.db.ops.nextIp !in w.db.ops.ip
  {
    hide CfgInv;
  }

  lemma RotationHappens(env: Env, w: World)
    requires PrepareIpChange(env, w.db, None, None, 0).Commit? && w.live == {} && w.db.ops.lease.None?
    ensures var e := StartIpChange(None, None, 0);
            && MayHappen(env, w, e)
            && WorldNext(env, w, e)
               == World(PrepareIpChange(env, w.db, None, None, 0).value, {Owner(IP_CHANGE, w.db.ops.nextIp)})
  {
    hide PrepareIpChange;
  }

  lemma RotationCommits(env: Env, db: Db)
    requires DbInv(env, db) && Plain(env, db.cfg.settings) && db.ops.lease.None?
    requires forall id | id in db.ops.ip :: !OnHold(db.ops.ip[id]) && !Undecided(db.ops.ip[id])
    ensures var t := PrepareIpChange(env, db, None, None, 0);
            && t.Commit? && t.value.ops.ip == db.ops.ip[db.ops.nextIp := NewRow(env, db.cfg)]
            && t.value.ops.nextIp == db.ops.nextIp + 1 && Owns(t.value.ops, Owner(IP_CHANGE, db.ops.nextIp))
            && t.value.cfg.settings == db.cfg.settings && t.value.cfg.desired == db.cfg.desired
  {
    hide CfgInv, Plain, OnHold, Undecided, EnsureSnapshot, Acquire, BindProvider, FollowUp, NewRow;
    EnsureCommits(env, db.cfg);
    NothingForbids(env, db);
    var c, id := EnsureSnapshot(env, db.cfg, false).value, db.ops.nextIp;
    PlainBinds(env, c.settings);
    var db1 := Db(c, db.ops.(ip := db.ops.ip[id := UNBOUND_OP.(revision := c.desired)], nextIp := id + 1), db.api);
    FreeLease(db1, Owner(IP_CHANGE, id));
    hide MayRotate;
    BindsRow(env, Acquire(db1, Owner(IP_CHANGE, id), 0).value.ops, id, c);
    SameNewRow(env, c, db.cfg);
    assert db1.ops.ip[id := NewRow(env, c)] == db.ops.ip[id := NewRow(env, c)];
  }

  lemma SameNewRow(env: Env, c: Cfg, c': Cfg)
    requires c.settings == c'.settings && c.desired == c'.desired
    ensures NewRow(env, c) == NewRow(env, c')
  {
  }

  lemma EnsureCommits(env: Env, c: Cfg)
    requires CfgInv(env, c) && Plain(env, c.settings)
    ensures var t := EnsureSnapshot(env, c, false);
            t.Commit? && t.value.settings == c.settings && t.value.desired == c.desired
  {
    hide CfgInv, CaptureConfig, Plain;
    PlainIsCaptured(env, c);
    EnsureKept(env, c, false);
  }

  lemma NothingForbids(env: Env, db: Db)
    requires forall id | id in db.ops.ip :: !OnHold(db.ops.ip[id]) && !Undecided(db.ops.ip[id])
    ensures MayRotate(env, db, None, None) == Commit(())
  {
    hide OnHold, Undecided;
  }

  lemma PlainBinds(env: Env, s: Settings)
    requires Plain(env, s)
    ensures BindProvider(env, s) == Commit(Account(env, s))
  {
    hide SprintValue;
  }

  lemma FreeLease(db: Db, owner: Owner)
    requires db.ops.lease.None?
    ensures Acquire(db, owner, 0) == Commit(db.(ops := db.ops.(lease := Some(Lease(owner, LEASE_SECONDS)))))
  {
  }

  lemma BindsRow(env: Env, o: Ops, id: nat, c: Cfg)
    requires id in o.ip && o.ip[id] == UNBOUND_OP.(revision := c.desired)
    ensures FollowUp(o, id, Account(env, c.settings), None, None) == o.(ip := o.ip[id := NewRow(env, c)])
  {
    hide SprintValue;
  }

  /** The worker updates its row and goes on. */
  lemma Works(env: Env, w: World, id: nat, rows: Rows, settings: Settings, desired: nat, p: Patch) returns (w': World)
    requires Working(env, w, id, rows, settings, desired) && RowOk(Patched(rows[id], p)) && !Terminal(p.status)
    ensures Working(env, w', id, rows[id := Patched(rows[id], p)], settings, desired)
    ensures w'.db.ops.nextIp == w.db.ops.nextIp
  {
    hide Reached, RowOk, Patched, MayHappen;
    UpdateHappens(env, w, id, p);
    ReachedOn(env, w, IpUpdate(id, p, 0));
    w' := WorldNext(env, w, IpUpdate(id, p, 0));
  }

  lemma UpdateHappens(env: Env, w: World, id: nat, p: Patch)
    requires id in w.db.ops.ip && Owner(IP_CHANGE, id) in w.live && RowOk(Patched(w.db.ops.ip[id], p))
    ensures MayHappen(env, w, IpUpdate(id, p, 0))
  {
    hide RowOk, Patched;
  }

  /** The last update of the worker: it gives the lease up. */
  lemma Ends(env: Env, w: World, id: nat, rows: Rows, settings: Settings, desired: nat, p: Patch) returns (w': World)
    requires Working(env, w, id, rows, settings, desired) && RowOk(Patched(rows[id], p)) && Terminal(p.status)
    ensures Reached(env, w') && w'.live == {} && w'.db.ops.lease.None?
    ensures w'.db.ops.ip == rows[id := Patched(rows[id], p)]
    ensures w'.db.cfg == w.db.cfg && w'.db.ops.nextIp == w.db.ops.nextIp
  {
    hide Reached, RowOk, Patched, MayHappen;
    UpdateHappens(env, w, id, p);
    ReachedOn(env, w, IpUpdate(id, p, 0));
    w' := WorldNext(env, w, IpUpdate(id, p, 0));
  }

  /** The purchase is claimed. */
  lemma Claims(env: Env, w: World, id: nat, rows: Rows, settings: Settings, desired: nat) returns (w': World)
    requires Working(env, w, id, rows, settings, desired) && rows[id].purchase == P_NOT_STARTED
    requires rows[id].status == RUNNING
    ensures Working(env, w', id, rows[id := rows[id].(purchase := P_SENDING, action := PURCHASE_SENDING)], settings, desired)
    ensures w'.db.ops.nextIp == w.db.ops.nextIp
  {
    hide Reached;
    ReachedOn(env, w, IpClaimPurchase(id));
    w' := WorldNext(env, w, IpClaimPurchase(id));
  }

  /** The publication of the bound revision, with a new box. */
  lemma Publishes(env: Env, w: World, id: nat, rows: Rows, settings: Settings, ip: string, box: string) returns (w': World)
    requires env.Ok() && id in rows && Working(env, w, id, rows, settings, rows[id].revision)
    ensures var after := PublishedSettings(settings, ip, Some(NewBox(box, None)), "");
            Working(env, w', id, rows[id := PublishedRow(rows[id], "")], after, rows[id].revision + 1)
    ensures w'.db.ops.nextIp == w.db.ops.nextIp
  {
    hide Reached, DbInv, DecisionWorld, MayHappen, WorldNext, PublishedRow, PublishConfig, PublishedSettings;
    ReachedInv(env, w);
    var e := IpPublish(id, ip, Some(NewBox(box, None)), "");
    PublicationHappens(env, w, id, ip, box);
    ReachedOn(env, w, e);
    w' := WorldNext(env, w, e);
  }

  lemma PublicationHappens(env: Env, w: World, id: nat, ip: string, box: string)
    requires DbInv(env, w.db) && id in w.db.ops.ip && w.db.ops.ip[id].revision == w.db.cfg.desired
    requires Owner(IP_CHANGE, id) in w.live
    ensures var e := IpPublish(id, ip, Some(NewBox(box, None)), ""); var w' := WorldNext(env, w, e);
            && MayHappen(env, w, e) && w'.live == w.live
            && w'.db.ops == w.db.ops.(ip := w.db.ops.ip[id := PublishedRow(w.db.ops.ip[id], "")])
            && w'.db.cfg.settings == PublishedSettings(w.db.cfg.settings, ip, Some(NewBox(box, None)), "")
            && w'.db.cfg.desired == w.db.cfg.desired + 1
  {
    hide DbInv, PublishIp, PublishedRow, PublishedSettings;
    PublicationCommits(env, w.db, id, ip, Some(NewBox(box, None)), "");
  }

  lemma PublicationCommits(env: Env, db: Db, id: nat, ip: string, box: Option<NewBox>, ts: string)
    requires DbInv(env, db) && id in db.ops.ip && db.ops.ip[id].revision == db.cfg.desired
    ensures var t := PublishIp(db, id, ip, box, ts);
            && t.Commit? && t.value.ops == db.ops.(ip := db.ops.ip[id := PublishedRow(db.ops.ip[id], ts)])
            && t.value.cfg.settings == PublishedSettings(db.cfg.settings, ip, box, ts)
            && t.value.cfg.desired == db.cfg.desired + 1
  {
    hide CfgInv, PublishedRow, PublishedSettings, PublishConfig;
    PublishIpKept(env, db, id, ip, box, ts);
    PublishedTables(db.cfg, db.ops.ip[id].revision, ip, box, ts);
  }

  lemma PublishedTables(c: Cfg, bound: nat, ip: string, box: Option<NewBox>, ts: string)
    ensures var t := PublishConfig(c, bound, ip, box, ts);
            t.Commit? ==> t.value.settings == PublishedSettings(c.settings, ip, box, ts) && t.value.desired == bound + 1
  {
    hide PublishedSettings;
  }

  /* ---------- the run ---------- */

  function Bought(row: IpOp, oldIp: string, box: string, ip: string): IpOp {
    row.(status := RUNNING, oldIp := oldIp, action := PURCHASE_SENDING, purchase := P_CONFIRMED, newIpId := box, newIp := ip)
  }

  /** From the new row to the confirmed box. */
  lemma Buys(env: Env, w: World, id: nat, rows: Rows, settings: Settings, desired: nat, oldIp: string, box: string, ip: string)
    returns (w': World)
    requires id in rows && Working(env, w, id, rows, settings, desired) && rows[id] == NewRow(env, w.db.cfg)
    ensures Working(env, w', id, rows[id := Bought(rows[id], oldIp, box, ip)], settings, desired)
    ensures w'.db.ops.nextIp == w.db.ops.nextIp
  {
    hide Working, RowOk, Patched, NewRow, Bought;
    var row := rows[id];
    var row1 := row.(status := RUNNING, oldIp := oldIp);
    var row2 := row1.(purchase := P_SENDING, action := PURCHASE_SENDING);
    var bought := KEEP.(newIpId := Some(box), newIp := Some(ip), purchase := Some(P_CONFIRMED));
    NewRowIsBought(env, w.db.cfg, row, oldIp, box, ip);
    var w1 := Works(env, w, id, rows, settings, desired, KEEP.(status := Some(RUNNING), oldIp := Some(oldIp)));
    var w2 := Claims(env, w1, id, rows[id := row1], settings, desired);
    assert rows[id := row1][id := row2] == rows[id := row2];
    w' := Works(env, w2, id, rows[id := row2], settings, desired, bought);
    assert rows[id := row2][id := Bought(row, oldIp, box, ip)] == rows[id := Bought(row, oldIp, box, ip)];
  }

  lemma NewRowIsBought(env: Env, c: Cfg, row: IpOp, oldIp: string, box: string, ip: string)
    requires row == NewRow(env, c)
    ensures var row1 := row.(status := RUNNING, oldIp := oldIp);
            && Patched(row, KEEP.(status := Some(RUNNING), oldIp := Some(oldIp))) == row1 && RowOk(row1)
            && row.purchase == P_NOT_STARTED
            && var row2 := row1.(purchase := P_SENDING, action := PURCHASE_SENDING);
            && Patched(row2, KEEP.(newIpId := Some(box), newIp := Some(ip), purchase := Some(P_CONFIRMED)))
               == Bought(row, oldIp, box, ip)
            && RowOk(Bought(row, oldIp, box, ip))
  {
  }

  /** A published operation whose review is open, bound to this account. */
  predicate UnderReview(row: IpOp, bound: Binding, box: string, ip: string) {
    && row.status == DONE && row.action == AWAITING_USER_REVIEW && row.published.Some? && row.newIpId == box && row.newIp == ip
    && row.bound == bound
  }

  /** From the confirmed box to the open review. */
  lemma Reviews(env: Env, w: World, id: nat, rows: Rows, settings: Settings, box: string, ip: string)
    returns (w': World, row': IpOp)
    requires env.Ok() && id in rows && Working(env, w, id, rows, settings, rows[id].revision)
    requires rows[id].newIpId == box && rows[id].newIp == ip && rows[id].published.None? && rows[id].status == RUNNING
    ensures Reached(env, w') && w'.live == {} && w'.db.ops.lease.None? && w'.db.ops.nextIp == w.db.ops.nextIp
    ensures w'.db.ops.ip == rows[id := row'] && UnderReview(row', rows[id].bound, box, ip)
    ensures w'.db.cfg.settings == PublishedSettings(settings, ip, Some(NewBox(box, None)), "")
  {
    hide Working, RowOk, Patched, PublishedRow, PublishedSettings, UnderReview;
    var row := rows[id];
    var applied := KEEP.(status := Some(RUNNING), action := Some(APPLYING), apply := Some(A_APPLIED));
    var row1 := row.(action := APPLYING, apply := A_APPLIED);
    var closed := KEEP.(status := Some(DONE), action := Some(AWAITING_USER_REVIEW));
    row' := Patched(PublishedRow(row1, ""), closed);
    AppliedRow(row);
    ReviewedRow(row1);
    var w1 := Works(env, w, id, rows, settings, row.revision, applied);
    var w2 := Publishes(env, w1, id, rows[id := row1], settings, ip, box);
    assert rows[id := row1][id := PublishedRow(row1, "")] == rows[id := PublishedRow(row1, "")];
    var after := PublishedSettings(settings, ip, Some(NewBox(box, None)), "");
    w' := Ends(env, w2, id, rows[id := PublishedRow(row1, "")], after, row.revision + 1, closed);
    assert rows[id := PublishedRow(row1, "")][id := row'] == rows[id := row'];
    WorkingSettings(env, w2, id, rows[id := PublishedRow(row1, "")], after, row.revision + 1);
  }

  lemma AppliedRow(row: IpOp)
    requires row.status == RUNNING
    ensures var row1 := row.(action := APPLYING, apply := A_APPLIED);
            && Patched(row, KEEP.(status := Some(RUNNING), action := Some(APPLYING), apply := Some(A_APPLIED))) == row1
            && RowOk(row1)
  {
  }

  lemma ReviewedRow(row: IpOp)
    ensures var row' := Patched(PublishedRow(row, ""), KEEP.(status := Some(DONE), action := Some(AWAITING_USER_REVIEW)));
            RowOk(row') && UnderReview(row', row.bound, row.newIpId, row.newIp)
  {
  }

  lemma WaitingRow(row: IpOp)
    requires OnlyBought(row)
    ensures var row1 := row.(status := RUNNING, action := WAITING_SSH);
            && Patched(row, KEEP.(status := Some(RUNNING), action := Some(WAITING_SSH))) == row1 && RowOk(row1)
    ensures var row' := row.(status := DONE, action := SSH_UNREACHABLE);
            && Patched(row.(status := RUNNING, action := WAITING_SSH), KEEP.(status := Some(DONE), action := Some(SSH_UNREACHABLE)))
               == row'
            && RowOk(row') && Undecided(row')
  {
  }

  lemma WorkingSettings(env: Env, w: World, id: nat, rows: Rows, settings: Settings, desired: nat)
    requires Working(env, w, id, rows, settings, desired)
    ensures w.db.cfg.settings == settings && w.db.cfg.desired == desired
  {
  }

  /** From the confirmed box to the open decision. */
  lemma Decides(env: Env, w: World, id: nat, rows: Rows, settings: Settings, desired: nat)
    returns (w': World, row': IpOp)
    requires Working(env, w, id, rows, settings, desired) && OnlyBought(rows[id])
    ensures Reached(env, w') && w'.live == {} && w'.db.ops.lease.None?
    ensures w'.db.ops.ip == rows[id := row'] && Undecided(row') && w'.db.cfg.settings == settings
  {
    var row := rows[id];
    var waiting := KEEP.(status := Some(RUNNING), action := Some(WAITING_SSH));
    var row1 := row.(status := RUNNING, action := WAITING_SSH);
    var closed := KEEP.(status := Some(DONE), action := Some(SSH_UNREACHABLE));
    row' := row.(status := DONE, action := SSH_UNREACHABLE);
    WaitingRow(row);
    hide Working, OnlyBought, RowOk, Patched, Undecided;
    var w1 := Works(env, w, id, rows, settings, desired, waiting);
    w' := Ends(env, w1, id, rows[id := row1], settings, desired, closed);
    assert rows[id := row1][id := row'] == rows[id := row'];
    WorkingSettings(env, w1, id, rows[id := row1], settings, desired);
  }

  lemma ChoosesProvider(env: Env) returns (w: World)
    requires env.Ok()
    ensures Reached(env, w) && Quiet(w) && Plain(env, w.db.cfg.settings) && w.db.ops.ip == map[] && w.db.ops.nextIp == 1
  {
    var e := Configure(WriteSetting(Tables.Provider, "sprintbox", ""));
    assert CallersOk(env, EMPTY_DB, []) && AllCalm(env, START, []) && WorldRun(env, START, []) == START;
    hide KeyName, IsVpnName, CallersOk, AllCalm, WorldRun;
    assert MayHappen(env, START, e);
    ReachedOn(env, START, e);
    w := WorldNext(env, START, e);
  }

  lemma NewIsBought(env: Env, c: Cfg, box: string, ip: string)
    ensures var row := Bought(NewRow(env, c), "", box, ip);
            && row.revision == c.desired && row.bound == Account(env, c.settings) && row.newIpId == box && row.newIp == ip
            && row.published.None? && row.status == RUNNING && (box != "" && ip != "" ==> OnlyBought(row))
  {
  }

  /** A rotation is published and waits for its review. */
  lemma FirstRotation(env: Env, box: string, ip: string) returns (w: World, s: Settings, review: IpOp)
    requires env.Ok()
    ensures Reached(env, w) && w.live == {} && w.db.ops.lease.None? && w.db.ops.nextIp == 2
    ensures w.db.ops.ip == map[1 := review]
    ensures Plain(env, s) && UnderReview(review, Account(env, s), box, ip)
    ensures w.db.cfg.settings == PublishedSettings(s, ip, Some(NewBox(box, None)), "")
  {
    hide Reached, Plain, Quiet, UnderReview, NewRow, Account, PublishedSettings, Bought, OnlyBought, Working;
    var w0 := ChoosesProvider(env);
    var w1 := Begins(env, w0);
    s := w0.db.cfg.settings;
    var row := NewRow(env, w0.db.cfg);
    var bought := Bought(row, "", box, ip);
    NewIsBought(env, w0.db.cfg, box, ip);
    WorkingSettings(env, w1, 1, w0.db.ops.ip[1 := row], s, w0.db.cfg.desired);
    assert w0.db.ops.ip[1 := row] == map[1 := row] && map[1 := row][1 := bought] == map[1 := bought];
    SameNewRow(env, w0.db.cfg, w1.db.cfg);
    var w2 := Buys(env, w1, 1, map[1 := row], s, w0.db.cfg.desired, "", box, ip);
    w, review := Reviews(env, w2, 1, map[1 := bought], s, box, ip);
  }

  /** And another one buys a box that does not answer. */
  lemma SecondAttempt(env: Env, w: World, review: IpOp, box: string, ip: string) returns (w': World)
    requires env.Ok() && Reached(env, w) && Quiet(w) && Plain(env, w.db.cfg.settings) && box != "" && ip != ""
    requires w.db.ops.nextIp == 2 && w.db.ops.ip == map[1 := review]
    ensures Reached(env, w') && w'.db.ops.lease.None? && w'.db.cfg.settings == w.db.cfg.settings
    ensures 1 in w'.db.ops.ip && w'.db.ops.ip[1] == review && Open(w'.db.ops.ip, 2)
  {
    hide Reached, Quiet, Plain, Working, NewRow, Undecided, OnlyBought, Bought, Account;
    var w1 := Begins(env, w);
    var row := NewRow(env, w.db.cfg);
    var rows := map[1 := review, 2 := row];
    assert w.db.ops.ip[2 := row] == rows;
    WorkingSettings(env, w1, 2, rows, w.db.cfg.settings, w.db.cfg.desired);
    SameNewRow(env, w.db.cfg, w1.db.cfg);
    NewIsBought(env, w.db.cfg, box, ip);
    var w2 := Buys(env, w1, 2, rows, w.db.cfg.settings, w.db.cfg.desired, "", box, ip);
    var attempt;
    w', attempt := Decides(env, w2, 2, rows[2 := Bought(row, "", box, ip)], w.db.cfg.settings, w.db.cfg.desired);
  }

  lemma PublishedIsPlain(env: Env, s: Settings, ip: string, box: string)
    requires Plain(env, s)
    ensures var s' := PublishedSettings(s, ip, Some(NewBox(box, None)), "");
            && Plain(env, s') && CurrentIp in s' && s'[CurrentIp] == ip && SprintValue(env, s', BOXNAME) == box
            && SprintValue(env, s', LOGIN) == SprintValue(env, s, LOGIN)
            && SprintValue(env, s', APIKEY) == SprintValue(env, s, APIKEY)
  {
  }

  lemma ReviewIsReviewable(env: Env, db: Db, s: Settings, box: string, ip: string)
    requires Plain(env, s) && 1 in db.ops.ip && UnderReview(db.ops.ip[1], Account(env, s), box, ip)
    requires db.cfg.settings == PublishedSettings(s, ip, Some(NewBox(box, None)), "")
    ensures IsReviewable(env, db, 1)
  {
    PublishedIsPlain(env, s, ip, box);
    hide PublishedSettings;
  }

  /** Although every worker and every caller keeps to its rules, a cleanup can be active beside an open decision: in
      this run a rotation began while the review of the last one was open, its box does not answer, and then the
      review is answered. */
  lemma CleanupBesideDecision(env: Env, box: string, ip: string, box': string, ip': string, now: int)
    requires env.Ok() && box' != "" && ip' != ""
    ensures exists w :: Reached(env, w) && PrepareCleanup(env, w.db, 1, now).Commit?
                        && ActiveIp(PrepareCleanup(env, w.db, 1, now).value.ops.ip, 1)
                        && Open(PrepareCleanup(env, w.db, 1, now).value.ops.ip, 2)
  {
    hide Reached, Quiet, Plain, PublishedSettings, UnderReview, Undecided, IsReviewable, PrepareCleanup, ActiveIp, Open;
    var w, s, review := FirstRotation(env, box, ip);
    PublishedIsPlain(env, s, ip, box);
    ReviewIsQuiet(env, w, s, review, box, ip);
    var w' := SecondAttempt(env, w, review, box', ip');
    ReviewIsReviewable(env, w'.db, s, box, ip);
    CleanupIsQueued(env, w'.db, now);
  }

  lemma ReviewIsQuiet(env: Env, w: World, s: Settings, review: IpOp, box: string, ip: string)
    requires w.live == {} && w.db.ops.lease.None? && w.db.ops.ip == map[1 := review]
    requires UnderReview(review, Account(env, s), box, ip)
    ensures Quiet(w)
  {
  }

  lemma CleanupIsQueued(env: Env, db: Db, now: int)
    requires IsReviewable(env, db, 1) && db.ops.lease.None? && Open(db.ops.ip, 2)
    ensures PrepareCleanup(env, db, 1, now).Commit?
    ensures ActiveIp(PrepareCleanup(env, db, 1, now).value.ops.ip, 1)
    ensures Open(PrepareCleanup(env, db, 1, now).value.ops.ip, 2)
  {
    hide SameAccount;
  }
}
