/** The steps of the rotation machine are the transactions on the database, seen from one operation. */
module AezaLink {
  import opened Base
  import opened Tables
  import opened OperationRows
  import opened Operations
  import History
  import Snapshots
  import Capture
  import ConfigSteps
  import Leases
  import Decisions
  import SshDecisions
  import opened AezaAddresses
  import opened AezaRotation

  /* ---------- one write of the program is one update ---------- */

  /** Where the program reports progress and nothing else. */
  predicate Reports(pc: Pc) {
    || pc.ListStep? || pc.FindStep? || pc.SettleStep? || pc.AppearStep? || pc.ConfirmStep? || pc.SshStep? || pc.HealthStep?
    || pc.PublishStep?
  }

  function SendsBuy(s: State): Patch {
    match s.pc
    case OldFound => KEEP.(oldIp := Some(s.vars.oldIp), oldIpId := Some(s.vars.oldId))
    case BuyStep => KEEP.(status := Some(RUNNING), action := Some(PURCHASE_SENDING), purchase := Some(P_SENDING))
    case BuyLost => KEEP.(action := Some(AMBIGUOUS_ACTION), purchase := Some(P_AMBIGUOUS))
    case BuyAnswered => KEEP.(action := Some(PURCHASE_SENT), purchase := Some(P_SENT))
    case Appeared =>
      KEEP.(newIp := Some(s.vars.newIp), newIpId := Some(s.vars.newId), action := Some(PURCHASE_CONFIRMED),
            purchase := Some(P_CONFIRMED))
    case _ => KEEP
  }

  function SendsMain(s: State): Patch {
    match s.pc
    case MainStep => KEEP.(status := Some(RUNNING), action := Some(MAKE_MAIN_SENDING), makeMain := Some(M_SENDING))
    case MainLost => KEEP.(action := Some(AMBIGUOUS_ACTION), makeMain := Some(M_AMBIGUOUS))
    case MainAnswered => KEEP.(action := Some(MAIN_CHANGED), makeMain := Some(M_SENT))
    case Confirmed => KEEP.(action := Some(MAIN_CONFIRMED), makeMain := Some(M_CONFIRMED))
    case _ => KEEP
  }

  function SendsApply(s: State): Patch {
    match s.pc
    case ApplyStep => KEEP.(status := Some(RUNNING), action := Some(APPLYING), apply := Some(A_RUNNING))
    case ApplyLost => KEEP.(action := Some(AMBIGUOUS_ACTION), apply := Some(A_AMBIGUOUS))
    case ApplyRefused => KEEP.(action := Some(APPLY_FAILED), apply := Some(A_FAILED))
    case ApplyAnswered => KEEP.(action := Some(APPLY_DONE), apply := Some(A_APPLIED))
    case _ => KEEP
  }

  function SendsFinish(k: Job, s: State): Patch {
    match s.pc
    case DeleteStep => KEEP.(status := Some(RUNNING), action := Some(CLEANUP_SENDING))
    case DeleteLost => KEEP.(action := Some(CLEANUP_AMBIGUOUS))
    case DeleteAnswered => KEEP.(action := Some(CLEANUP_CONFIRMED))
    case FinishStep =>
      KEEP.(status := Some(DONE), published := Some(k.config.revision + 1),
            action := Some(if k.config.amnezia.protocol.enabled then PUBLISHED_AWAITING_AWG_CHECK
                           else if s.vars.cleanupAmbiguous then CLEANUP_AMBIGUOUS else FINISHED))
    case _ => KEEP
  }

  function SendsHandle(s: State): Patch {
    match s.pc
    case Loading =>
      if s.row.status.Active() && !Unsent(s.row) then KEEP.(status := Some(AMBIGUOUS), action := Some(AMBIGUOUS_ACTION))
      else KEEP
    case RollbackStep => KEEP.(action := Some(Tables.ROLLING_BACK), rollback := Some(R_SENDING))
    case RollbackLost => KEEP.(action := Some(AMBIGUOUS_ACTION), rollback := Some(R_AMBIGUOUS))
    case RollbackAnswered => KEEP.(action := Some(ROLLED_BACK), rollback := Some(RESTORED_OLD_MAIN))
    case ClosingStep(ambiguous) =>
      KEEP.(status := Some(if ambiguous then AMBIGUOUS else FAILURE),
            action := Some(if ambiguous then AMBIGUOUS_ACTION else FAILED_ACTION))
    case _ => KEEP
  }

  /** What the program hands to update_operation at this point; KEEP where it writes nothing. */
  function Sends(k: Job, s: State): Patch {
    if Reports(s.pc) then KEEP.(status := Some(RUNNING))
    else if s.pc.OldFound? || s.pc.BuyStep? || (Buys(s.pc) && !s.pc.MainStep?) then SendsBuy(s)
    else if s.pc.MainStep? || Switches(s.pc) then SendsMain(s)
    else if Applies(s.pc) then SendsApply(s)
    else if Finishes(s.pc) then SendsFinish(k, s)
    else SendsHandle(s)
  }

  lemma LookupWrites(k: Job, s: State, r: Reply)
    requires s.pc.Loading? || (Looking(s.pc) && !s.pc.CheckBeforeBuying? && !s.pc.BuyStep?)
    ensures WorkLookup(k, s, r).row == Patched(s.row, Sends(k, s))
  {
    hide Sends, Patched, WorkLookup;
    if s.pc.Loading? {
      LoadWrites(k, s, r);
    } else {
      LookWrites(k, s, r);
    }
  }

  lemma LoadWrites(k: Job, s: State, r: Reply)
    requires s.pc.Loading?
    ensures WorkLookup(k, s, r).row == Patched(s.row, Sends(k, s))
  {
    hide FindMainIp, SendsBuy, SendsMain, SendsApply, SendsFinish;
  }

  lemma LookWrites(k: Job, s: State, r: Reply)
    requires Looking(s.pc) && !s.pc.CheckBeforeBuying? && !s.pc.BuyStep?
    ensures WorkLookup(k, s, r).row == Patched(s.row, Sends(k, s))
  {
    hide FindMainIp, SendsMain, SendsApply, SendsFinish;
  }

  lemma BuyWrites(k: Job, s: State, r: Reply)
    requires s.pc.CheckBeforeBuying? || s.pc.BuyStep? || (Buys(s.pc) && !s.pc.CheckBeforeMain? && !s.pc.MainStep?)
    ensures WorkBuy(k, s, r).row == Patched(s.row, Sends(k, s))
  {
    hide FindNewIp;
  }

  lemma MainWrites(k: Job, s: State, r: Reply)
    requires s.pc.CheckBeforeMain? || s.pc.MainStep? || Switches(s.pc)
    ensures WorkMain(k, s, r).row == Patched(s.row, Sends(k, s))
  {
    hide SendsBuy, SendsMain, SendsApply, SendsFinish, SendsHandle, Patched, WorkMain;
    if s.pc.ConfirmStep? || s.pc.SshStep? || s.pc.CheckBeforeMain? {
      MainReports(k, s, r);
    } else if s.pc.MainStep? || s.pc.SettingMain? || s.pc.MainLost? || s.pc.MainAnswered? {
      SwitchWrites(k, s, r);
    } else {
      ConfirmedWrites(k, s, r);
    }
  }

  lemma MainReports(k: Job, s: State, r: Reply)
    requires s.pc.ConfirmStep? || s.pc.SshStep? || s.pc.CheckBeforeMain?
    ensures WorkMain(k, s, r).row == Patched(s.row, Sends(k, s))
  {
  }

  lemma SwitchWrites(k: Job, s: State, r: Reply)
    requires s.pc.MainStep? || s.pc.SettingMain? || s.pc.MainLost? || s.pc.MainAnswered?
    ensures WorkMain(k, s, r).row == Patched(s.row, Sends(k, s))
  {
  }

  lemma ConfirmedWrites(k: Job, s: State, r: Reply)
    requires s.pc.Confirming? || s.pc.Confirmed? || s.pc.AwaitingSsh? || s.pc.SshAnswered?
    ensures WorkMain(k, s, r).row == Patched(s.row, Sends(k, s))
  {
  }

  lemma ApplyWrites(k: Job, s: State, r: Reply)
    requires Applies(s.pc) && !s.pc.Publishing?
    ensures WorkApply(k, s, r).row == Patched(s.row, Sends(k, s))
  {
    hide Sends, Patched, WorkApply;
    if s.pc.ApplyStep? || s.pc.Applying? || s.pc.ApplyLost? || s.pc.ApplyRefused? || s.pc.ApplyAnswered? {
      ScriptWrites(k, s, r);
    } else {
      CheckWrites(k, s, r);
    }
  }

  lemma ScriptWrites(k: Job, s: State, r: Reply)
    requires s.pc.ApplyStep? || s.pc.Applying? || s.pc.ApplyLost? || s.pc.ApplyRefused? || s.pc.ApplyAnswered?
    ensures WorkApply(k, s, r).row == Patched(s.row, Sends(k, s))
  {
    hide Healthy, SendsBuy, SendsMain, SendsFinish, SendsHandle;
  }

  lemma CheckWrites(k: Job, s: State, r: Reply)
    requires Applies(s.pc) && !s.pc.Publishing? && !s.pc.ApplyStep? && !s.pc.Applying? && !s.pc.ApplyLost?
    requires !s.pc.ApplyRefused? && !s.pc.ApplyAnswered?
    ensures WorkApply(k, s, r).row == Patched(s.row, Sends(k, s))
  {
    hide Healthy, SendsBuy, SendsMain, SendsFinish, SendsHandle;
  }

  lemma FinishWrites(k: Job, s: State, r: Reply)
    requires Finishes(s.pc)
    ensures WorkFinish(k, s, r).row == Patched(s.row, Sends(k, s))
  {
    hide Sends, Patched, WorkFinish;
    if s.pc.FinishStep? {
      EndWrites(k, s, r);
    } else {
      DeletionWrites(k, s, r);
    }
  }

  lemma EndWrites(k: Job, s: State, r: Reply)
    requires s.pc.FinishStep?
    ensures WorkFinish(k, s, r).row == Patched(s.row, Sends(k, s))
  {
    hide SendsBuy, SendsMain, SendsApply, SendsHandle;
  }

  lemma DeletionWrites(k: Job, s: State, r: Reply)
    requires Finishes(s.pc) && !s.pc.FinishStep?
    ensures WorkFinish(k, s, r).row == Patched(s.row, Sends(k, s))
  {
    hide SendsBuy, SendsMain, SendsApply, SendsHandle;
  }

  lemma HandleWrites(k: Job, s: State, r: Reply)
    requires !Looking(s.pc) && !Buys(s.pc) && !Switches(s.pc) && !Applies(s.pc) && !Finishes(s.pc) && !s.pc.Loading?
    ensures WorkHandle(k, s, r).row == Patched(s.row, Sends(k, s))
  {
  }

  lemma WorkWrites(k: Job, s: State, r: Reply)
    ensures var row' := WorkNext(k, s, r).row;
            if s.pc.Publishing? then row' == s.row || (row' == PublishedRow(s.row, "") && s.row.revision == s.desired)
            else row' == Patched(s.row, Sends(k, s))
  {
    hide WorkLookup, WorkBuy, WorkMain, WorkFinish, WorkHandle, Sends, Patched;
    if s.pc.Idle? {
      IdleWrites(k, s);
    } else if s.pc.Loading? || (Looking(s.pc) && !s.pc.CheckBeforeBuying? && !s.pc.BuyStep?) {
      LookupWrites(k, s, r);
    } else if Looking(s.pc) || (Buys(s.pc) && !s.pc.CheckBeforeMain? && !s.pc.MainStep?) {
      BuyWrites(k, s, r);
    } else if Buys(s.pc) || Switches(s.pc) {
      MainWrites(k, s, r);
    } else if Applies(s.pc) {
      if !s.pc.Publishing? {
        hide WorkApply;
        ApplyWrites(k, s, r);
      }
    } else if Finishes(s.pc) {
      FinishWrites(k, s, r);
    } else {
      HandleWrites(k, s, r);
    }
  }

  lemma IdleWrites(k: Job, s: State)
    requires s.pc.Idle?
    ensures Patched(s.row, Sends(k, s)) == s.row
  {
  }

  /** In every state the machine reaches, whatever crashes, is taken over or is refused: what the program does next to its
      row is one update_operation, or the publication. The update meets what HoldsAreResolvable and AtMostOneDecision
      ask of the updates of workers. */
  lemma EveryUpdateMeetsTheRules(k: Job, s0: State, acts: seq<Act>, r: Reply, env: Capture.Env, w: Leases.World, id: nat,
                                 now: int)
    requires Initial(k, s0) && AllFit(k, s0, acts) && Fits(Run(k, s0, acts), Work(r))
    requires id in w.db.ops.ip && w.db.ops.ip[id] == Run(k, s0, acts).row && !Run(k, s0, acts).pc.Publishing?
    ensures var s := Run(k, s0, acts); var e := History.IpUpdate(id, Sends(k, s), now);
            && History.Next(env, w.db, e).ops.ip == w.db.ops.ip[id := WorkNext(k, s, r).row]
            && Decisions.PatchOk(w.db.ops, e) && SshDecisions.Calm(env, w, e)
  {
    hide Run, AllFit, Initial, Sends, Patched, WorkNext, Inv, Undoing, Fits, SshDecisions.RowOk, HoldOk;
    InitialInv(k, s0);
    RunKeepsOrUndoes(k, s0, acts);
    var s := Run(k, s0, acts);
    NextRowMeetsTheRules(k, s, r);
    WorkWrites(k, s, r);
    UpdateWrites(w.db, id, Sends(k, s), now);
  }

  lemma NextRowMeetsTheRules(k: Job, s: State, r: Reply)
    requires (Inv(k, s) || Undoing(k, s)) && Fits(s, Work(r))
    ensures var row := WorkNext(k, s, r).row; HoldOk(row) && SshDecisions.RowOk(row)
  {
    hide Inv, Undoing, Fits, WorkNext, SshDecisions.RowOk, HoldOk;
    if Inv(k, s) {
      WorkKeeps(k, s, r);
      RowMeetsTheRules(k, WorkNext(k, s, r));
    } else {
      UndoingWork(k, s, r);
      UndoneMeetsTheRules(k, WorkNext(k, s, r));
    }
  }

  lemma RowMeetsTheRules(k: Job, s: State)
    requires Inv(k, s)
    ensures HoldOk(s.row) && SshDecisions.RowOk(s.row)
  {
    RowsHold(k, s);
    hide Inv;
  }

  lemma UndoneMeetsTheRules(k: Job, s: State)
    requires Undoing(k, s)
    ensures HoldOk(s.row) && SshDecisions.RowOk(s.row)
  {
    hide Healthy;
  }

  lemma UpdateWrites(db: Db, id: nat, p: Patch, now: int)
    requires id in db.ops.ip
    ensures UpdateIp(db.ops, id, p, now).ip == db.ops.ip[id := Patched(db.ops.ip[id], p)]
  {
    hide Patched;
  }

  /* ---------- the publication ---------- */

  /** The publication step is publish_ip_change seen from this operation: it commits exactly when the bound revision
      is still the desired one, and then it writes that row, counts up and rewrites the published address. */
  lemma PublicationIsTheTransaction(env: Capture.Env, db: Db, id: nat, ip: string, ts: string)
    requires History.DbInv(env, db) && id in db.ops.ip
    ensures var t := PublishIp(db, id, ip, None, ts);
            && (t.Commit? <==> db.ops.ip[id].revision == db.cfg.desired)
            && (t.Commit? ==>
                  && t.value.ops == db.ops.(ip := db.ops.ip[id := PublishedRow(db.ops.ip[id], ts)])
                  && t.value.cfg.desired == db.cfg.desired + 1
                  && t.value.cfg.applied == Some(t.value.cfg.desired)
                  && Get(t.value.cfg.settings, CurrentIp) == ip)
  {
    hide ConfigSteps.CfgInv, Snapshots.PublishConfig;
    History.PublishIpKept(env, db, id, ip, None, ts);
    if PublishIp(db, id, ip, None, ts).Commit? {
      Published(env, db.cfg, db.ops.ip[id].revision, ip, ts);
    }
  }

  lemma Published(env: Capture.Env, c: Cfg, bound: nat, ip: string, ts: string)
    requires ConfigSteps.CfgInv(env, c) && bound in c.snapshots && c.desired == bound
    ensures var c' := Snapshots.PublishConfig(c, bound, ip, None, ts).value;
            Snapshots.PublishConfig(c, bound, ip, None, ts).Commit? && c'.desired == bound + 1
            && c'.applied == Some(bound + 1) && Get(c'.settings, CurrentIp) == ip
  {
    hide Snapshots.PublishConfig, Snapshots.SnapshotsOk, Snapshots.Extends;
    Snapshots.PublishKeeps(env, c, bound, ip, None, ts);
  }
}
