/** One row of an operation table: what its columns mean to the transactions that read and write it. */
module OperationRows {
  import opened Base
  import opened Tables

  /** What _fail_owner makes of an interrupted IP operation. A box that waits for SSH becomes a decision again;
      anything that may have reached the provider or the server becomes ambiguous. */
  function InterruptIp(row: IpOp): IpOp {
    if !row.status.Active() then row
    else if && row.action in {WAITING_SSH, SSH_WAIT_QUEUED} && row.purchase == P_CONFIRMED
            && row.makeMain == M_NOT_STARTED && row.apply == A_NOT_STARTED && row.newIpId != "" && row.newIp != ""
    then row.(status := DONE, action := SSH_UNREACHABLE)
    else if ExternalActionStarted(row) then row.(status := AMBIGUOUS, action := AMBIGUOUS_ACTION)
    else row.(status := FAILURE, action := NOT_STARTED)
  }

  predicate ExternalActionStarted(row: IpOp) {
    row.purchase != P_NOT_STARTED || row.makeMain != M_NOT_STARTED || row.apply != A_NOT_STARTED
  }

  function InterruptInstall(row: InstallOp): InstallOp {
    if row.status.Active() then row.(status := FAILURE) else row
  }

  function InterruptServer(row: ServerOp): ServerOp {
    if !row.status.Active() then row
    else if row.kind == REBOOT && row.action != S_NOT_STARTED
    then row.(status := AMBIGUOUS, action := S_AMBIGUOUS)
    else row.(status := FAILURE)
  }

  /** The keyword arguments of update_operation: None leaves a column alone. */
  datatype Patch = Patch(
    status: Option<Status>, action: Option<IpAction>, purchase: Option<Purchase>, makeMain: Option<MakeMain>,
    apply: Option<Apply>, rollback: Option<Rollback>, published: Option<nat>,
    oldIp: Option<string>, newIp: Option<string>, oldIpId: Option<string>, newIpId: Option<string>)

  const KEEP := Patch(None, None, None, None, None, None, None, None, None, None, None)

  function Patched(row: IpOp, p: Patch): IpOp {
    row.(status := p.status.GetOr(row.status), action := p.action.GetOr(row.action),
         purchase := p.purchase.GetOr(row.purchase), makeMain := p.makeMain.GetOr(row.makeMain),
         apply := p.apply.GetOr(row.apply), rollback := p.rollback.GetOr(row.rollback),
         published := if p.published.Some? then p.published else row.published,
         oldIp := p.oldIp.GetOr(row.oldIp), newIp := p.newIp.GetOr(row.newIp),
         oldIpId := p.oldIpId.GetOr(row.oldIpId), newIpId := p.newIpId.GetOr(row.newIpId))
  }

  /** The query of prepare_ip_change_operation for an operation that still needs manual verification. */
  predicate OnHold(row: IpOp) {
    (row.status == AMBIGUOUS && row.action != RECONCILED)
    || row.action in {AMBIGUOUS_ACTION, CLEANUP_AMBIGUOUS, PUBLISHED_AWAITING_AWG_CHECK}
  }

  predicate Undecided(row: IpOp) {
    row.status == DONE && row.action == SSH_UNREACHABLE
  }

  const UNBOUND_OP := IpOp(PENDING, NOT_STARTED, P_NOT_STARTED, M_NOT_STARTED, A_NOT_STARTED, NO_ROLLBACK, 0, None, None,
                           "", "", "", "", AezaBinding, NO_CONTEXT)

  /** The boxes an SSH retry hands on: those the abandoned attempt retained, and its own. */
  function Abandoned(row: IpOp): map<string, string> {
    row.ctx.retained[row.newIpId := row.newIp]
  }

  function PublishedRow(row: IpOp, ts: string): IpOp {
    row.(status := RUNNING, action := PUBLISHED, published := Some(row.revision + 1), publishedAt := Some(ts))
  }

  predicate Reconcilable(row: IpOp) {
    && !row.status.Active()
    && (row.status == AMBIGUOUS || row.action in {CLEANUP_AMBIGUOUS, PUBLISHED_AWAITING_AWG_CHECK})
    && row.action != RECONCILED
  }

  /** A closed row whose last action is ambiguous is itself ambiguous. */
  predicate HoldOk(row: IpOp) {
    !row.status.Active() && row.action == AMBIGUOUS_ACTION ==> row.status == AMBIGUOUS
  }
}
