/** The operation tables and the lease as mutable state (app/operation_coordinator.py, app/db.py,
    app/sprintbox_review.py, app/server_operations.py), method by method against the functions of Operations. */
module OperationTables {
  import opened Base
  import opened Tables
  import opened OperationRows
  import opened Operations

  class OperationConnection {
    var ip: map<nat, IpOp>
    var nextIp: nat
    var install: map<nat, InstallOp>
    var nextInstall: nat
    var server: map<nat, ServerOp>
    var nextServer: nat
    var lease: Option<Lease>

    function Rows(): Ops
      reads this
    {
      Ops(ip, nextIp, install, nextInstall, server, nextServer, lease)
    }

    constructor ()
      ensures Rows() == EMPTY_DB.ops
    {
      ip, nextIp, install, nextInstall, server, nextServer, lease := map[], 1, map[], 1, map[], 1, None;
    }

    method Rollback(before: Ops)
      modifies this
      ensures Rows() == before
    {
      ip, nextIp, install, nextInstall := before.ip, before.nextIp, before.install, before.nextInstall;
      server, nextServer, lease := before.server, before.nextServer, before.lease;
    }

    /** release_vps_lease: DELETE ... WHERE owner_type = ? AND owner_id = ?, and whether a row was deleted. */
    method ReleaseLease(owner: Owner) returns (released: bool)
      modifies `lease
      ensures Rows() == Release(old(Rows()), owner) && released == Owns(old(Rows()), owner)
    {
      released := lease.Some? && lease.value.owner == owner;
      if released {
        lease := None;
      }
    }

    /** heartbeat_vps_lease */
    method HeartbeatLease(owner: Owner, now: int) returns (renewed: bool)
      modifies `lease
      ensures Rows() == Heartbeat(old(Rows()), owner, now) && renewed == Owns(old(Rows()), owner)
    {
      renewed := lease.Some? && lease.value.owner == owner;
      if renewed {
        lease := Some(Lease(owner, now + LEASE_SECONDS));
      }
    }

    /** update_operation */
    method Update(id: nat, p: Patch, now: int)
      modifies `ip, `lease
      ensures Rows() == UpdateIp(old(Rows()), id, p, now)
    {
      if id in ip {
        ip := ip[id := Patched(ip[id], p)];
      }
      if p.status.Some? && !p.status.value.Active() {
        var _ := ReleaseLease(Owner(IP_CHANGE, id));
      } else {
        var _ := HeartbeatLease(Owner(IP_CHANGE, id), now);
      }
    }

    /** heartbeat_install_operation */
    method HeartbeatInstallRow(id: nat, now: int) returns (alive: bool)
      modifies `lease
      ensures (Rows(), alive) == HeartbeatInstall(old(Rows()), id, now)
    {
      if id !in install || !install[id].status.Active() {
        return false;
      }
      alive := HeartbeatLease(Owner(INSTALL, id), now);
    }

    /** mark_reboot_sending: the compare-and-set before the request. */
    method MarkReboot(id: nat, now: int) returns (mine: bool)
      modifies `server, `lease
      ensures (Rows(), mine) == MarkRebootSending(old(Rows()), id, now)
    {
      mine := id in server && server[id].kind == REBOOT && server[id].status.Active()
              && server[id].action == S_NOT_STARTED;
      if mine {
        server := server[id := server[id].(status := RUNNING, action := S_SENDING)];
        var _ := HeartbeatLease(Owner(SERVER, id), now);
      }
    }

    /** The compare-and-set before box/add. */
    method Claim(id: nat) returns (mine: bool)
      modifies `ip
      ensures (Rows(), mine) == ClaimPurchase(old(Rows()), id)
    {
      mine := id in ip && ip[id].purchase == P_NOT_STARTED && ip[id].status == RUNNING;
      if mine {
        ip := ip[id := ip[id].(purchase := P_SENDING, action := PURCHASE_SENDING)];
      }
    }

    /** The claim of run_sprintbox_cleanup. */
    method TakeCleanup(id: nat) returns (mine: bool)
      modifies `ip
      ensures (Rows(), mine) == ClaimCleanup(old(Rows()), id)
    {
      mine := id in ip && ip[id].status == PENDING && ip[id].action == CLEANUP_QUEUED;
      if mine {
        ip := ip[id := ip[id].(status := RUNNING, action := CLEANUP_RUNNING)];
      }
    }

    /** reconcile_ip_operation */
    method ReconcileRow(id: nat) returns (error: Option<Error>)
      modifies `ip
      ensures var t := Reconcile(old(Rows()), id);
              Rows() == t.Or(old(Rows())) && error == (if t.Raise? then Some(t.error) else None)
    {
      if id !in ip {
        return Some(NotFound);
      }
      var row := ip[id];
      if row.status.Active() {
        return Some(NotReconcilable);
      }
      var hold := row.status == AMBIGUOUS || row.action in {CLEANUP_AMBIGUOUS, PUBLISHED_AWAITING_AWG_CHECK};
      if !hold || row.action == Tables.RECONCILED {
        return Some(NotReconcilable);
      }
      ip := ip[id := row.(action := Tables.RECONCILED)];
      error := None;
    }

    /** cancel_ssh_wait */
    method Cancel(id: nat) returns (error: Option<Error>)
      modifies `ip
      ensures var t := CancelSshWait(old(Rows()), id);
              Rows() == t.Or(old(Rows())) && error == (if t.Raise? then Some(t.error) else None)
    {
      if id !in ip || ip[id].status != DONE || ip[id].action != SSH_UNREACHABLE {
        return Some(StaleDecision);
      }
      ip := ip[id := ip[id].(action := CANCELLED)];
      error := None;
    }
  }
}
