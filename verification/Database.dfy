/** The transactions that write both halves of the database (app/operation_coordinator.py:44-133,
    app/vpn_state.py:86-452, app/sprintbox_review.py:79-131, app/router_apply_results.py:276-370). Each method is one
    `with get_db()` block: it writes step by step, rolls back when it raises, and is proved against the function of
    the whole transaction. */
module Database {
  import opened Base
  import opened Tables
  import opened OperationRows
  import opened Capture
  import opened Snapshots
  import opened Operations
  import opened ConfigTables
  import opened OperationTables
  import opened ApplyResults
  import RouterApi

  class Connection {
    const config: ConfigConnection
    const operations: OperationConnection
    var credentials: map<string, CredentialRow>
    var results: map<(string, string), ResultRow>
    var nextResult: nat

    function View(): Db
      reads this, config, operations
    {
      Db(config.Rows(), operations.Rows(), Api(credentials, results, nextResult))
    }

    /** The migrated, empty database. */
    constructor ()
      ensures View() == EMPTY_DB && fresh(config) && fresh(operations)
    {
      config := new ConfigConnection();
      operations := new OperationConnection();
      credentials, results, nextResult := map[], map[], 1;
    }

    method Rollback(before: Db)
      requires before.api == View().api
      modifies config, operations
      ensures View() == before
    {
      config.Rollback(before.cfg);
      operations.Rollback(before.ops);
    }

    /** _fail_owner */
    method FailOperation(owner: Owner)
      modifies config`snapshots, operations`ip, operations`install, operations`server
      ensures View() == FailOwner(old(View()), owner)
    {
      var id := owner.id;
      match owner.kind {
        case INSTALL =>
          if id in operations.install {
            config.Fail(operations.install[id].revision);
            if operations.install[id].status.Active() {
              operations.install := operations.install[id := operations.install[id].(status := FAILURE)];
            }
          }
        case IP_CHANGE =>
          if id in operations.ip {
            operations.ip := operations.ip[id := InterruptIp(operations.ip[id])];
          }
        case SERVER =>
          if id in operations.server {
            operations.server := operations.server[id := InterruptServer(operations.server[id])];
          }
      }
    }

    /** acquire_vps_lease: an expired lease is closed and released before the new one is entered. */
    method AcquireLease(owner: Owner, now: int) returns (error: Option<Error>)
      modifies config`snapshots, operations`ip, operations`install, operations`server, operations`lease
      ensures var t := Acquire(old(View()), owner, now);
              View() == t.Or(old(View())) && error == (if t.Raise? then Some(t.error) else None)
    {
      if operations.lease.Some? {
        if operations.lease.value.expiresAt > now {
          return Some(Busy);
        }
        var expired := operations.lease.value.owner;
        FailOperation(expired);
        var _ := operations.ReleaseLease(expired);
      }
      operations.lease := Some(Lease(owner, now + LEASE_SECONDS));
      error := None;
    }

    /** prepare_install_operation */
    method StartInstall(env: Env, host: string, now: int) returns (error: Option<Error>)
      modifies config, operations
      ensures var t := PrepareInstall(env, old(View()), host, now);
              View() == t.Or(old(View())) && error == (if t.Raise? then Some(t.error) else None)
    {
      hide EnsureSnapshot, Acquire;
      var before := View();
      error := config.Ensure(env, true);
      if error.Some? {
        return;
      }
      var id := operations.nextInstall;
      operations.install := operations.install[id := InstallOp(PENDING, config.desired, host)];
      operations.nextInstall := id + 1;
      error := AcquireLease(Owner(INSTALL, id), now);
      if error.Some? {
        Rollback(before);
      }
    }

    /** complete_install_operation */
    method FinishInstall(id: nat, ts: string) returns (error: Option<Error>)
      modifies config, operations
      ensures var t := CompleteInstall(old(View()), id, ts);
              View() == t.Or(old(View())) && error == (if t.Raise? then Some(t.error) else None)
    {
      if id !in operations.install {
        return Some(NotFound);
      }
      error := config.Complete(operations.install[id].revision, ts);
      if error.None? {
        operations.install := operations.install[id := operations.install[id].(status := DONE)];
        var _ := operations.ReleaseLease(Owner(INSTALL, id));
      }
    }

    /** fail_install_operation */
    method AbandonInstall(id: nat)
      modifies config, operations
      ensures View() == FailInstall(old(View()), id)
    {
      if id in operations.install {
        config.Fail(operations.install[id].revision);
        operations.install := operations.install[id := operations.install[id].(status := FAILURE)];
      }
      var _ := operations.ReleaseLease(Owner(INSTALL, id));
    }

    /** mark_install_operation_ambiguous */
    method LeaveInstallUncertain(id: nat)
      modifies config, operations
      ensures View() == MarkInstallAmbiguous(old(View()), id)
    {
      if id in operations.install {
        config.Fail(operations.install[id].revision);
        if operations.install[id].status.Active() {
          operations.install := operations.install[id := operations.install[id].(status := AMBIGUOUS)];
        }
      }
      var _ := operations.ReleaseLease(Owner(INSTALL, id));
    }

    /** prepare_ip_change_operation */
    method StartIpChange(env: Env, review: Option<nat>, ssh: Option<nat>, now: int) returns (error: Option<Error>)
      modifies config, operations
      ensures var t := PrepareIpChange(env, old(View()), review, ssh, now);
              View() == t.Or(old(View())) && error == (if t.Raise? then Some(t.error) else None)
    {
      hide EnsureSnapshot, Acquire, MayRotate, BindProvider, FollowUp;
      var before := View();
      var checked := MayRotate(env, before, review, ssh);
      if checked.Raise? {
        return Some(checked.error);
      }
      error := config.Ensure(env, false);
      if error.Some? {
        return;
      }
      var id := operations.nextIp;
      operations.ip := operations.ip[id := UNBOUND_OP.(revision := config.desired)];
      operations.nextIp := id + 1;
      var settings := config.settings;
      error := AcquireLease(Owner(IP_CHANGE, id), now);
      if error.Some? {
        Rollback(before);
        return;
      }
      var bound := BindProvider(env, settings);
      if bound.Raise? {
        Rollback(before);
        return Some(bound.error);
      }
      WriteFollowUp(id, bound.value, review, ssh);
    }

    /** The last writes of prepare_ip_change_operation. */
    method WriteFollowUp(id: nat, bound: Binding, review: Option<nat>, ssh: Option<nat>)
      modifies operations`ip
      ensures View() == old(View()).(ops := FollowUp(old(operations.Rows()), id, bound, review, ssh))
    {
      hide Abandoned;
      var kept := if ssh.Some? && ssh.value in operations.ip then Abandoned(operations.ip[ssh.value]) else map[];
      if id in operations.ip {
        operations.ip :=
          operations.ip[id := operations.ip[id].(bound := bound, ctx := NO_CONTEXT.(retained := kept))];
      }
      if ssh.Some? && ssh.value in operations.ip {
        operations.ip := operations.ip[ssh.value := operations.ip[ssh.value].(action := RETRY_REQUESTED)];
      }
      if review.Some? && review.value in operations.ip {
        operations.ip := operations.ip[review.value := operations.ip[review.value].(action := RETRY_REQUESTED)];
      }
    }

    /** publish_ip_change */
    method Publish(id: nat, ip: string, box: Option<NewBox>, ts: string) returns (error: Option<Error>)
      modifies config, operations
      ensures var t := PublishIp(old(View()), id, ip, box, ts);
              View() == t.Or(old(View())) && error == (if t.Raise? then Some(t.error) else None)
    {
      if id !in operations.ip {
        return Some(NotFound);
      }
      error := config.Publish(operations.ip[id].revision, ip, box, ts);
      if error.None? {
        operations.ip := operations.ip[id := PublishedRow(operations.ip[id], ts)];
      }
    }

    /** prepare_cleanup */
    method QueueCleanup(env: Env, id: nat, now: int) returns (error: Option<Error>)
      modifies config, operations
      ensures var t := PrepareCleanup(env, old(View()), id, now);
              View() == t.Or(old(View())) && error == (if t.Raise? then Some(t.error) else None)
    {
      hide IsReviewable, Acquire;
      if !IsReviewable(env, View(), id) {
        return Some(StaleDecision);
      }
      error := AcquireLease(Owner(IP_CHANGE, id), now);
      if error.None? && id in operations.ip {
        operations.ip := operations.ip[id := operations.ip[id].(status := PENDING, action := CLEANUP_QUEUED)];
      }
    }

    /** prepare_ssh_wait */
    method QueueSshWait(env: Env, id: nat, now: int) returns (error: Option<Error>)
      modifies config, operations
      ensures var t := PrepareSshWait(env, old(View()), id, now);
              View() == t.Or(old(View())) && error == (if t.Raise? then Some(t.error) else None)
    {
      hide IsDecidable, Acquire;
      if !IsDecidable(env, View(), id, false) {
        return Some(StaleDecision);
      }
      error := AcquireLease(Owner(IP_CHANGE, id), now);
      if error.None? && id in operations.ip {
        operations.ip := operations.ip[id := operations.ip[id].(status := PENDING, action := SSH_WAIT_QUEUED)];
      }
    }

    /** The transaction of _resume_ssh_wait: it goes on, or gives the decision back together with the lease. */
    method ResumeWait(env: Env, id: nat) returns (goesOn: bool)
      modifies operations
      ensures (View(), goesOn) == ResumeSshWait(env, old(View()), id)
    {
      if id !in operations.ip || operations.ip[id].status != PENDING || operations.ip[id].action != SSH_WAIT_QUEUED {
        return false;
      }
      goesOn := IsDecidable(env, View(), id, true);
      if goesOn {
        operations.ip := operations.ip[id := operations.ip[id].(status := RUNNING, action := WAITING_SSH)];
      } else {
        operations.ip := operations.ip[id := operations.ip[id].(status := DONE, action := SSH_UNREACHABLE)];
        var _ := operations.ReleaseLease(Owner(IP_CHANGE, id));
      }
    }

    /** create_server_operation */
    method StartServer(kind: ServerKind, now: int) returns (error: Option<Error>)
      modifies config, operations
      ensures var t := CreateServerOp(old(View()), kind, now);
              View() == t.Or(old(View())) && error == (if t.Raise? then Some(t.error) else None)
    {
      hide Acquire;
      var before := View();
      var id := operations.nextServer;
      operations.server := operations.server[id := ServerOp(kind, PENDING, S_NOT_STARTED)];
      operations.nextServer := id + 1;
      error := AcquireLease(Owner(SERVER, id), now);
      if error.Some? {
        Rollback(before);
      }
    }

    /** record_router_apply_result */
    method RecordResult(p: Put) returns (answer: RouterApi.Answer<ResultRow>)
      modifies this
      ensures (answer, View()) == Record(old(View()), p)
    {
      if config.applied.None? {
        return RouterApi.Fails(RouterApi.NotReady);
      }
      var revision := config.applied.value;
      if revision !in config.snapshots || !config.snapshots[revision].lifecycle.APPLIED?
         || p.body.revision != revision || p.body.sha != config.snapshots[revision].sha {
        return RouterApi.Fails(RouterApi.SnapshotConflict);
      }
      if p.Slot() in results {
        return Replay(results[p.Slot()], p);
      }
      if p.credential !in credentials {
        return RouterApi.Fails(RouterApi.IdempotencyConflict);
      }
      results := results[p.Slot() := ResultRow(nextResult, BodyDigest(p.body), revision, p.body.sha, p.etag)];
      nextResult := nextResult + 1;
      answer := RouterApi.Is(results[p.Slot()]);
    }

    /* ---------- startup recovery ---------- */

    /** The loop of recover_incomplete_vps_operations over the active installs, one at a time and in any order. */
    method RecoverInstalls()
      modifies config`snapshots, operations`ip, operations`install, operations`server
      ensures View() == InstallsRecovered(old(View()))
    {
      ghost var before := View();
      var pending := set id | id in operations.install && operations.install[id].status.Active();
      ghost var all := pending;
      ghost var failed: set<nat> := {};
      while pending != {}
        invariant pending <= all == set id | id in before.ops.install && before.ops.install[id].status.Active()
        invariant failed == set id | id in all - pending :: before.ops.install[id].revision
        invariant config.Rows() == before.cfg.(snapshots := FailAll(before.cfg.snapshots, failed))
        invariant operations.Rows() == before.ops.(install := CloseAll(before.ops.install, all - pending))
        invariant View().api == before.api
        decreases |pending|
      {
        hide CloseAll, FailAll, InterruptInstall, FailSnapshot;
        var id :| id in pending;
        CloseOneInstall(before.ops.install, all - pending, id);
        FailOneMore(before.cfg, failed, before.ops.install[id].revision);
        FailOperation(Owner(INSTALL, id));
        failed := failed + {before.ops.install[id].revision};
        assert all - (pending - {id}) == (all - pending) + {id};
        pending := pending - {id};
      }
      AllInstallsClosed(before, failed);
    }

    /** The loop over the active IP operations. */
    method RecoverIpChanges()
      modifies config`snapshots, operations`ip, operations`install, operations`server
      ensures View() == IpChangesRecovered(old(View()))
    {
      ghost var before := View();
      var pending := set id | id in operations.ip && operations.ip[id].status.Active();
      ghost var all := pending;
      while pending != {}
        invariant pending <= all == set id | id in before.ops.ip && before.ops.ip[id].status.Active()
        invariant config.Rows() == before.cfg && View().api == before.api
        invariant operations.Rows() == before.ops.(ip := CloseIp(before.ops.ip, all - pending))
        decreases |pending|
      {
        hide CloseIp, InterruptIp;
        var id :| id in pending;
        CloseOneIp(before.ops.ip, all - pending, id);
        FailOperation(Owner(IP_CHANGE, id));
        assert all - (pending - {id}) == (all - pending) + {id};
        pending := pending - {id};
      }
      assert CloseIp(before.ops.ip, all) == map id | id in before.ops.ip :: InterruptIp(before.ops.ip[id]);
    }

    /** The loop over the active server operations. */
    method RecoverServerOperations()
      modifies config`snapshots, operations`ip, operations`install, operations`server
      ensures View() == ServersRecovered(old(View()))
    {
      ghost var before := View();
      var pending := set id | id in operations.server && operations.server[id].status.Active();
      ghost var all := pending;
      while pending != {}
        invariant pending <= all == set id | id in before.ops.server && before.ops.server[id].status.Active()
        invariant config.Rows() == before.cfg && View().api == before.api
        invariant operations.Rows() == before.ops.(server := CloseServers(before.ops.server, all - pending))
        decreases |pending|
      {
        hide CloseServers, InterruptServer;
        var id :| id in pending;
        CloseOneServer(before.ops.server, all - pending, id);
        FailOperation(Owner(SERVER, id));
        assert all - (pending - {id}) == (all - pending) + {id};
        pending := pending - {id};
      }
      assert CloseServers(before.ops.server, all)
          == map id | id in before.ops.server :: InterruptServer(before.ops.server[id]);
    }

    /** recover_incomplete_vps_operations */
    method RecoverIncomplete()
      modifies config`snapshots, operations`ip, operations`install, operations`server, operations`lease
      ensures View() == Recover(old(View()))
    {
      RecoverInstalls();
      RecoverIpChanges();
      RecoverServerOperations();
      operations.lease := None;
    }
  }

  /* ---------- what each recovery loop amounts to ---------- */

  function FailAll(snapshots: map<nat, Snapshot>, revisions: set<nat>): map<nat, Snapshot> {
    map r | r in snapshots ::
      if r in revisions && !snapshots[r].lifecycle.APPLIED? then snapshots[r].(lifecycle := FAILED) else snapshots[r]
  }

  function CloseAll(install: map<nat, InstallOp>, ids: set<nat>): map<nat, InstallOp> {
    map id | id in install :: if id in ids then InterruptInstall(install[id]) else install[id]
  }

  function CloseIp(ip: map<nat, IpOp>, ids: set<nat>): map<nat, IpOp> {
    map id | id in ip :: if id in ids then InterruptIp(ip[id]) else ip[id]
  }

  function CloseServers(server: map<nat, ServerOp>, ids: set<nat>): map<nat, ServerOp> {
    map id | id in server :: if id in ids then InterruptServer(server[id]) else server[id]
  }

  lemma FailOneMore(c: Cfg, revisions: set<nat>, r: nat)
    ensures FailSnapshot(c.(snapshots := FailAll(c.snapshots, revisions)), r)
         == c.(snapshots := FailAll(c.snapshots, revisions + {r}))
  {
    assert FailSnapshot(c.(snapshots := FailAll(c.snapshots, revisions)), r).snapshots
        == FailAll(c.snapshots, revisions + {r});
  }

  lemma CloseOneInstall(install: map<nat, InstallOp>, done: set<nat>, id: nat)
    requires id in install && id !in done
    ensures CloseAll(install, done).Keys == install.Keys && CloseAll(install, done)[id] == install[id]
    ensures CloseAll(install, done + {id}) == CloseAll(install, done)[id := InterruptInstall(install[id])]
  {
  }

  lemma AllInstallsClosed(db: Db, failed: set<nat>)
    requires failed == set id | id in db.ops.install && db.ops.install[id].status.Active() :: db.ops.install[id].revision
    ensures var active := set id | id in db.ops.install && db.ops.install[id].status.Active();
            InstallsRecovered(db) == db.(cfg := db.cfg.(snapshots := FailAll(db.cfg.snapshots, failed)),
                                         ops := db.ops.(install := CloseAll(db.ops.install, active)))
  {
    var active := set id | id in db.ops.install && db.ops.install[id].status.Active();
    assert CloseAll(db.ops.install, active) == map id | id in db.ops.install :: InterruptInstall(db.ops.install[id]);
    hide FailAll;
  }

  lemma CloseOneIp(ip: map<nat, IpOp>, done: set<nat>, id: nat)
    requires id in ip && id !in done
    ensures CloseIp(ip, done).Keys == ip.Keys && CloseIp(ip, done)[id] == ip[id]
    ensures CloseIp(ip, done + {id}) == CloseIp(ip, done)[id := InterruptIp(ip[id])]
  {
    hide InterruptIp;
  }

  lemma CloseOneServer(server: map<nat, ServerOp>, done: set<nat>, id: nat)
    requires id in server && id !in done
    ensures CloseServers(server, done).Keys == server.Keys && CloseServers(server, done)[id] == server[id]
    ensures CloseServers(server, done + {id}) == CloseServers(server, done)[id := InterruptServer(server[id])]
  {
    hide InterruptServer;
  }

  ghost function InstallsRecovered(db: Db): Db {
    var interrupted := set id | id in db.ops.install && db.ops.install[id].status.Active() ::
                         db.ops.install[id].revision;
    db.(cfg := db.cfg.(snapshots := FailAll(db.cfg.snapshots, interrupted)),
        ops := db.ops.(install := map id | id in db.ops.install :: InterruptInstall(db.ops.install[id])))
  }

  ghost function IpChangesRecovered(db: Db): Db {
    db.(ops := db.ops.(ip := map id | id in db.ops.ip :: InterruptIp(db.ops.ip[id])))
  }

  ghost function ServersRecovered(db: Db): Db {
    db.(ops := db.ops.(server := map id | id in db.ops.server :: InterruptServer(db.ops.server[id])))
  }
}
