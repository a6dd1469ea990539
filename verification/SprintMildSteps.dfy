/** The steps of a SprintBOX chain that move no box. */
module SprintMildSteps {
  import opened Base
  import opened Tables
  import opened OperationRows
  import opened SprintChain
  import opened SprintPrograms
  import opened SprintConservation

  lemma SameRowIsMild(c: Chain, id: nat, row: IpOp)
    requires RowOk(c.desired, row)
    ensures MildRow(c, id, row, row)
  {
  }

  lemma SameCreatorsAreMild(c: Chain)
    ensures forall id | id in c.creators :: MildCreator(c, id, c.creators[id])
  {
  }

  /** The same settings, boxes and follow-ups. */
  ghost predicate SameBoxes(c: Chain, c': Chain) {
    && c'.nextId == c.nextId && c'.desired == c.desired && c'.box == c.box && c'.ip == c.ip
    && c'.past.publisher == c.past.publisher && c'.past.made == c.past.made && c'.past.gone == c.past.gone
    && c'.past.follows == c.past.follows && c'.past.overlapped == c.past.overlapped
  }

  /** One row is written, and its program goes on. */
  lemma PutIsMild(c: Chain, c': Chain, id: nat)
    requires Sound(c) && SameBoxes(c, c') && id in c.rows && id in c'.rows && c'.rows == c.rows[id := c'.rows[id]]
    requires MildRow(c, id, c.rows[id], c'.rows[id])
    requires forall x | x in c'.creators :: (x in c.creators && c'.creators[x] == c.creators[x]) || MildCreator(c, x, c'.creators[x])
    ensures Mild(c, c')
  {
    hide MildRow, MildCreator, Sound;
    forall x | x in c.rows ensures MildRow(c, x, c.rows[x], c'.rows[x]) {
      if x != id {
        RowIsOk(c, x);
        SameRowIsMild(c, x, c.rows[x]);
      }
    }
    SameCreatorsAreMild(c);
  }

  lemma NoWriteIsMild(c: Chain, c': Chain)
    requires Sound(c) && SameBoxes(c, c') && c'.rows == c.rows
    requires forall x | x in c'.creators :: x in c.creators && c'.creators[x] == c.creators[x]
    ensures Mild(c, c')
  {
    forall x | x in c.rows ensures MildRow(c, x, c.rows[x], c'.rows[x]) {
      RowIsOk(c, x);
      SameRowIsMild(c, x, c.rows[x]);
    }
    SameCreatorsAreMild(c);
    hide MildRow, MildCreator, Sound;
  }

  lemma MildIsTransitive(a: Chain, b: Chain, c: Chain)
    requires Mild(a, b) && Mild(b, c)
    requires forall id | id in a.rows :: b.rows[id].purchase in {P_NOT_STARTED, P_REJECTED} ==> b.rows[id].purchase == a.rows[id].purchase
    requires b.creators == a.creators
    ensures Mild(a, c)
  {
  }

  /* ---------- decisions ---------- */

  lemma QuietRowIsMild(c: Chain, id: nat, row: IpOp, row': IpOp)
    requires QuietRow(row, row') && (HandedOn(row') ==> HandedOn(row)) && RowOk(c.desired, row')
    ensures MildRow(c, id, row, row')
  {
  }

  lemma InterruptedIsMild(c: Chain, id: nat, row: IpOp)
    requires RowOk(c.desired, row)
    ensures MildRow(c, id, row, InterruptIp(row))
  {
    InterruptedRow(c.desired, row);
    QuietRowIsMild(c, id, row, InterruptIp(row));
  }

  lemma TakeOverIsMild(c: Chain, taken: Option<nat>)
    requires Sound(c)
    ensures Mild(c, TakeOver(c, taken)) && TakeOver(c, taken).creators == c.creators
    ensures Sound(TakeOver(c, taken))
    ensures TakeOver(c, taken).rows.Keys == c.rows.Keys
    ensures forall id | id in c.rows :: TakeOver(c, taken).rows[id].purchase == c.rows[id].purchase
  {
    hide Mild, Sound, RowOk, QuietStep, MildRow, MildCreator, InterruptIp;
    TakeOverKeeps(c, taken);
    QuietKeepsPurchase(c, TakeOver(c, taken));
    if taken.Some? && taken.value in c.rows {
      RowIsOk(c, taken.value);
      InterruptedIsMild(c, taken.value, c.rows[taken.value]);
      PutIsMild(c, TakeOver(c, taken), taken.value);
    } else {
      NoWriteIsMild(c, TakeOver(c, taken));
    }
  }

  lemma QuietKeepsPurchase(c: Chain, c': Chain)
    requires QuietStep(c, c')
    ensures c'.rows.Keys == c.rows.Keys && forall id | id in c.rows :: c'.rows[id].purchase == c.rows[id].purchase
  {
  }

  /** A write of status and action that hands nothing on. */
  lemma SetStatusIsMild(c: Chain, id: nat, status: Status, action: IpAction, c': Chain)
    requires Sound(c) && id in c.rows && MayWrite(c.rows[id], status, action) && action != RETRY_REQUESTED
    requires c'.rows == SetStatus(c, id, status, action).rows && c'.creators == c.creators && SameBoxes(c, c')
    ensures Mild(c, c')
  {
    hide Mild, Sound, MildRow, MildCreator, RowOk, QuietRow, MayWrite;
    RowIsOk(c, id);
    StatusWrite(c.desired, c.rows[id], status, action);
    QuietRowIsMild(c, id, c.rows[id], c.rows[id].(status := status, action := action));
    PutIsMild(c, c', id);
  }

  lemma QueueIsMild(c: Chain, id: nat, taken: Option<nat>)
    requires Sound(c)
    ensures Mild(c, AfterQueueWait(c, id, taken))
    ensures Mild(c, AfterQueueCleanup(c, id, taken))
  {
    hide Sound, Mild, TakeOver, SetStatus, SameBoxes;
    UnchangedIsMild(c);
    if id in c.rows && !c.rows[id].status.Active() {
      if MayWrite(c.rows[id], PENDING, SSH_WAIT_QUEUED) {
        QueuedIsMild(c, id, taken, SSH_WAIT_QUEUED);
      }
      if MayWrite(c.rows[id], PENDING, CLEANUP_QUEUED) {
        QueuedIsMild(c, id, taken, CLEANUP_QUEUED);
      }
    }
  }

  lemma UnchangedIsMild(c: Chain)
    requires Sound(c)
    ensures Mild(c, c)
  {
    hide Sound, Mild;
    NoWriteIsMild(c, c);
  }

  lemma QueuedIsMild(c: Chain, id: nat, taken: Option<nat>, action: IpAction)
    requires Sound(c) && id in c.rows && !c.rows[id].status.Active() && MayWrite(c.rows[id], PENDING, action)
    requires action != RETRY_REQUESTED
    ensures Mild(c, SetStatus(TakeOver(c, taken), id, PENDING, action))
  {
    hide Sound, Mild, TakeOver, MayWrite;
    var c1 := TakeOver(c, taken);
    var c2 := SetStatus(c1, id, PENDING, action);
    TakeOverIsMild(c, taken);
    ClosedStays(c, taken, id);
    SetStatusIsMild(c1, id, PENDING, action, c2);
    MildIsTransitive(c, c1, c2);
  }

  lemma DecisionIsMild(c: Chain, s: Step)
    requires Sound(c) && (s.TakeWait? || s.LateLoad? || s.Cancel? || s.TakeCleanup?)
    ensures Mild(c, NextDecide(c, s))
  {
    hide Sound, Mild, RowOk, ExternalActionStarted, Decidable, MayWrite, SameBoxes;
    UnchangedIsMild(c);
    var c' := NextDecide(c, s);
    if c' != c {
      RowIsOk(c, s.id);
      var row := c'.rows[s.id];
      DecisionMayWrite(c, s);
      SetStatusIsMild(c, s.id, row.status, row.action, c');
    }
  }

  lemma DecisionMayWrite(c: Chain, s: Step)
    requires (s.TakeWait? || s.LateLoad? || s.Cancel? || s.TakeCleanup?) && NextDecide(c, s) != c
    requires s.id in c.rows && RowOk(c.desired, c.rows[s.id])
    ensures var c' := NextDecide(c, s);
            && s.id in c'.rows && c'.creators == c.creators && SameBoxes(c, c')
            && var row := c'.rows[s.id];
            && MayWrite(c.rows[s.id], row.status, row.action) && row.action != RETRY_REQUESTED
            && c'.rows == SetStatus(c, s.id, row.status, row.action).rows
  {
    hide RowOk, ExternalActionStarted, Decidable, AfterBegin, AfterQueueWait, AfterTakeWait, AfterQueueCleanup;
    if s.TakeWait? {
      WaitMayWrite(c, s.id, s.w, s.resumes);
    } else {
      RowGives(c.desired, c.rows[s.id]);
    }
  }

  lemma WaitMayWrite(c: Chain, id: nat, w: nat, resumes: bool)
    requires AfterTakeWait(c, id, w, resumes) != c && id in c.rows && RowOk(c.desired, c.rows[id])
    ensures var c' := AfterTakeWait(c, id, w, resumes);
            && id in c'.rows && c'.creators == c.creators && SameBoxes(c, c')
            && var row := c'.rows[id];
            && MayWrite(c.rows[id], row.status, row.action) && row.action != RETRY_REQUESTED
            && c'.rows == SetStatus(c, id, row.status, row.action).rows
  {
    hide RowOk, Decidable;
    RowGives(c.desired, c.rows[id]);
  }

  /* ---------- run_sprintbox_rotation ---------- */

  lemma TellIsMild(c: Chain, id: nat, row: IpOp, k: Option<Creator>, c': Chain)
    requires Sound(c) && Rotates(c, id) && MildRow(c, id, c.rows[id], row) && (k.Some? ==> MildCreator(c, id, k.value))
    requires c'.rows == Tell(c, id, row, k).rows && c'.creators == Tell(c, id, row, k).creators && SameBoxes(c, c')
    ensures Mild(c, c')
  {
    hide Mild, Sound, MildRow, MildCreator;
    PutIsMild(c, c', id);
  }

  lemma StructGives(c: Chain, id: nat)
    requires Sound(c) && Struct(c) && Rotates(c, id)
    ensures c.rows[id].purchase in {P_NOT_STARTED, P_REJECTED} || Unordered(c, id) ==> !Bought(c, id)
    ensures RowOk(c.desired, c.rows[id]) && CreatorOk(c.rows[id], c.creators[id])
  {
    OnlyProgram(c, id);
    if n :| n in c.past.made && c.past.made[n] == id {
      assert Ordered(c, id);
    }
  }


  lemma LoadIsMild(c: Chain, id: nat)
    requires Sound(c) && Struct(c) && Rotates(c, id)
    ensures Mild(c, AfterLoad(c, id))
  {
    hide Sound, Mild, Struct, Bought, Own;
    StructGives(c, id);
    UnchangedIsMild(c);
    var row, k, c' := c.rows[id], c.creators[id], AfterLoad(c, id);
    if c' != c {
      if !row.status.Active() {
        TellIsMild(c, id, row, None, c');
      } else if ExternalActionStarted(row) {
        TellIsMild(c, id, row.(status := AMBIGUOUS, action := AMBIGUOUS_ACTION), None, c');
      } else {
        TellIsMild(c, id, row, Some(k.(pc := Checking)), c');
      }
    }
  }

  lemma NoteIsMild(c: Chain, id: nat, oldIp: string, oldIpId: string)
    requires Sound(c) && Struct(c) && Rotates(c, id)
    ensures Mild(c, AfterNote(c, id, oldIp, oldIpId))
  {
    hide Sound, Mild, Struct, Bought, Own;
    StructGives(c, id);
    UnchangedIsMild(c);
    var row, k, c' := c.rows[id], c.creators[id], AfterNote(c, id, oldIp, oldIpId);
    if c' != c {
      TellIsMild(c, id, row.(status := RUNNING, oldIp := oldIp, oldIpId := oldIpId), Some(k), c');
    }
  }

  lemma ClaimIsMild(c: Chain, id: nat)
    requires Sound(c) && Struct(c) && Rotates(c, id)
    ensures Mild(c, AfterClaim(c, id))
  {
    hide Sound, Mild, Struct, Bought, Own;
    StructGives(c, id);
    UnchangedIsMild(c);
    var row, k, c' := c.rows[id], c.creators[id], AfterClaim(c, id);
    if c' != c {
      if row.purchase != P_NOT_STARTED || !row.status.RUNNING? {
        TellIsMild(c, id, row, None, c');
      } else {
        TellIsMild(c, id, row.(purchase := P_SENDING, action := PURCHASE_SENDING), Some(k.(pc := Ordering)), c');
      }
    }
  }

  lemma OrderIsMild(c: Chain, id: nat, reply: Reply)
    requires Sound(c) && Struct(c) && Rotates(c, id)
    ensures Mild(c, AfterOrder(c, id, None, reply))
  {
    hide Sound, Mild, Struct, Bought, Own;
    StructGives(c, id);
    UnchangedIsMild(c);
    var row, k, c' := c.rows[id], c.creators[id], AfterOrder(c, id, None, reply);
    if c' != c {
      var pc := if reply.Told? then Answered else if reply.NoReply? then Lost else Refused;
      TellIsMild(c, id, row, Some(k.(pc := pc)), c');
    }
  }

  lemma RejectIsMild(c: Chain, id: nat)
    requires Sound(c) && Struct(c) && Rotates(c, id)
    ensures Mild(c, AfterReject(c, id))
  {
    hide Sound, Mild, Struct, Bought, Own;
    StructGives(c, id);
    UnchangedIsMild(c);
    var row, k, c' := c.rows[id], c.creators[id], AfterReject(c, id);
    if c' != c {
      TellIsMild(c, id, row.(purchase := P_REJECTED), Some(k.(pc := Rejected)), c');
    }
  }

  lemma AnswerIsMild(c: Chain, id: nat)
    requires Sound(c) && Struct(c) && Rotates(c, id)
    ensures Mild(c, AfterAnswer(c, id))
  {
    hide Sound, Mild, Struct, Bought, Own;
    StructGives(c, id);
    UnchangedIsMild(c);
    var row, k, c' := c.rows[id], c.creators[id], AfterAnswer(c, id);
    if c' != c {
      TellIsMild(c, id, row.(purchase := P_SENT, action := PURCHASE_SENT), Some(k.(pc := Identifying)), c');
    }
  }

  lemma IdentifyIsMild(c: Chain, id: nat, name: string)
    requires Sound(c) && Struct(c) && Rotates(c, id) && Own(c, id, name)
    ensures Mild(c, AfterIdentify(c, id, name))
  {
    hide Sound, Mild, Struct, Bought, Own;
    StructGives(c, id);
    UnchangedIsMild(c);
    var row, k, c' := c.rows[id], c.creators[id], AfterIdentify(c, id, name);
    if c' != c {
      TellIsMild(c, id, row.(newIpId := name), Some(k), c');
    }
  }

  lemma ConfirmIsMild(c: Chain, id: nat, name: string, ip: string, w: nat)
    requires Sound(c) && Struct(c) && Rotates(c, id) && Own(c, id, name)
    ensures Mild(c, AfterConfirm(c, id, name, ip, w))
  {
    hide Sound, Mild, Struct, Bought, Own;
    StructGives(c, id);
    UnchangedIsMild(c);
    var row, k, c' := c.rows[id], c.creators[id], AfterConfirm(c, id, name, ip, w);
    if c' != c {
      TellIsMild(c, id, row.(newIpId := name, newIp := ip, purchase := P_CONFIRMED), None, c');
    }
  }

  lemma FailIsMild(c: Chain, id: nat)
    requires Sound(c) && Struct(c) && Rotates(c, id)
    ensures Mild(c, AfterFail(c, id))
  {
    hide Sound, Mild, Struct, Bought, Own;
    StructGives(c, id);
    UnchangedIsMild(c);
    var row, k, c' := c.rows[id], c.creators[id], AfterFail(c, id);
    if c' != c {
      if CreationStarted(k.pc) {
        TellIsMild(c, id, row.(status := AMBIGUOUS, action := AMBIGUOUS_ACTION), None, c');
      } else {
        TellIsMild(c, id, row.(status := FAILURE, action := FAILED_ACTION), None, c');
      }
    }
  }

  /* ---------- _provision_box ---------- */

  /** A write that keeps the row in order, hands nothing on and publishes nothing. */
  predicate MildReport(desired: nat, row: IpOp, row': IpOp) {
    KeepsFit(row, row') && RowOk(desired, row') && row'.revision == row.revision && row'.published == row.published && !HandedOn(row')
  }

  lemma ReportsAreMild(desired: nat, row: IpOp, k: Installer)
    requires RowOk(desired, row) && InstallerOk(row, k)
    ensures MildReport(desired, row, row.(status := RUNNING, action := WAITING_SSH))
    ensures MildReport(desired, row, row.(status := DONE, action := SSH_UNREACHABLE))
    ensures MildReport(desired, row, row.(status := RUNNING, action := APPLYING, apply := A_RUNNING))
    ensures MildReport(desired, row, row.(status := RUNNING))
    ensures k.pc.Deployed? ==> MildReport(desired, row, row.(status := RUNNING, apply := A_RUNNING))
    ensures k.pc.Closing? ==> MildReport(desired, row, row.(status := DONE, action := AWAITING_USER_REVIEW))
    ensures MildReport(desired, row, row.(status := AMBIGUOUS, action := AMBIGUOUS_ACTION))
  {
  }

  lemma ReportIsMild(c: Chain, w: nat, row: IpOp, pc: Option<InstallerPc>, c': Chain)
    requires Sound(c) && Provisions(c, w) && MildReport(c.desired, RowOf(c, w), row)
    requires c' == Report(c, w, row, pc).(past := c'.past) && SameBoxes(c, c')
    ensures Mild(c, c')
  {
    hide Mild, Sound, MildRow, MildCreator, MildReport;
    ReportedRow(c, c.installers[w].id, RowOf(c, w), row);
    PutIsMild(c, c', c.installers[w].id);
  }

  lemma ReportedRow(c: Chain, id: nat, row: IpOp, row': IpOp)
    requires MildReport(c.desired, row, row')
    ensures MildRow(c, id, row, row')
  {
  }

  lemma EnterIsMild(c: Chain, w: nat)
    requires Sound(c) && Provisions(c, w)
    ensures Mild(c, AfterEnter(c, w))
  {
    hide Sound, Mild, RowOk, InstallerOk, MildReport;
    InstallerFits(c, w);
    UnchangedIsMild(c);
    var row, k := RowOf(c, w), c.installers[w];
    ReportsAreMild(c.desired, row, k);
    if AfterEnter(c, w) != c {
      ReportIsMild(c, w, row.(status := RUNNING, action := WAITING_SSH), Some(Waiting), AfterEnter(c, w));
    }
  }

  lemma UnreachableIsMild(c: Chain, w: nat)
    requires Sound(c) && Provisions(c, w)
    ensures Mild(c, AfterUnreachable(c, w))
  {
    hide Sound, Mild, RowOk, InstallerOk, MildReport;
    InstallerFits(c, w);
    UnchangedIsMild(c);
    var row, k := RowOf(c, w), c.installers[w];
    ReportsAreMild(c.desired, row, k);
    if AfterUnreachable(c, w) != c {
      ReportIsMild(c, w, row.(status := DONE, action := SSH_UNREACHABLE), None, AfterUnreachable(c, w));
    }
  }

  lemma MarkDeployIsMild(c: Chain, w: nat)
    requires Sound(c) && Provisions(c, w)
    ensures Mild(c, AfterMarkDeploy(c, w))
  {
    hide Sound, Mild, RowOk, InstallerOk, MildReport;
    InstallerFits(c, w);
    UnchangedIsMild(c);
    var row, k := RowOf(c, w), c.installers[w];
    ReportsAreMild(c.desired, row, k);
    if AfterMarkDeploy(c, w) != c {
      ReportIsMild(c, w, row.(status := RUNNING, action := APPLYING, apply := A_RUNNING), Some(Deploying), AfterMarkDeploy(c, w));
    }
  }

  lemma NoteInstallIsMild(c: Chain, w: nat)
    requires Sound(c) && Provisions(c, w)
    ensures Mild(c, AfterNoteInstall(c, w))
  {
    hide Sound, Mild, RowOk, InstallerOk, MildReport;
    InstallerFits(c, w);
    UnchangedIsMild(c);
    var row, k := RowOf(c, w), c.installers[w];
    ReportsAreMild(c.desired, row, k);
    if AfterNoteInstall(c, w) != c {
      var row' := if k.pc.Deployed? then row.(status := RUNNING, apply := A_RUNNING) else row.(status := RUNNING);
      ReportIsMild(c, w, row', Some(k.pc), AfterNoteInstall(c, w));
    }
  }

  lemma CloseIsMild(c: Chain, w: nat)
    requires Sound(c) && Provisions(c, w)
    ensures Mild(c, AfterClose(c, w))
  {
    hide Sound, Mild, RowOk, InstallerOk, MildReport;
    InstallerFits(c, w);
    UnchangedIsMild(c);
    var row, k := RowOf(c, w), c.installers[w];
    ReportsAreMild(c.desired, row, k);
    if AfterClose(c, w) != c {
      ReportIsMild(c, w, row.(status := DONE, action := AWAITING_USER_REVIEW), None, AfterClose(c, w));
    }
  }

  lemma BreakIsMild(c: Chain, w: nat)
    requires Sound(c) && Provisions(c, w)
    ensures Mild(c, AfterBreak(c, w))
  {
    hide Sound, Mild, RowOk, InstallerOk, MildReport;
    InstallerFits(c, w);
    UnchangedIsMild(c);
    var row, k := RowOf(c, w), c.installers[w];
    ReportsAreMild(c.desired, row, k);
    if AfterBreak(c, w) != c {
      ReportIsMild(c, w, row.(status := AMBIGUOUS, action := AMBIGUOUS_ACTION), None, AfterBreak(c, w));
    }
  }

  /** A row that was handed on may still be written by a program that stalled. */
  lemma SilentlyReported(c: Chain, w: nat, row: IpOp, pc: Option<InstallerPc>, c': Chain)
    requires Sound(c) && Provisions(c, w) && MildRow(c, c.installers[w].id, RowOf(c, w), row)
    requires c' == Report(c, w, row, pc).(past := c'.past) && SameBoxes(c, c')
    ensures Mild(c, c')
  {
    hide Mild, Sound, MildRow, MildCreator;
    PutIsMild(c, c', c.installers[w].id);
  }

  lemma SilentReports(c: Chain, id: nat, row: IpOp)
    requires RowOk(c.desired, row)
    ensures MildRow(c, id, row, row) && MildRow(c, id, row, row.(apply := A_APPLIED))
  {
  }

  lemma ReachIsMild(c: Chain, w: nat)
    requires Sound(c) && Provisions(c, w)
    ensures Mild(c, AfterReach(c, w))
  {
    hide Sound, Mild, RowOk, InstallerOk, MildRow;
    InstallerFits(c, w);
    UnchangedIsMild(c);
    var row := RowOf(c, w);
    SilentReports(c, c.installers[w].id, row);
    if AfterReach(c, w) != c {
      SilentlyReported(c, w, row, Some(Reached), AfterReach(c, w));
    }
  }

  lemma DeployIsMild(c: Chain, w: nat)
    requires Sound(c) && Provisions(c, w)
    ensures Mild(c, AfterDeploy(c, w))
  {
    hide Sound, Mild, RowOk, InstallerOk, MildRow;
    InstallerFits(c, w);
    UnchangedIsMild(c);
    var row := RowOf(c, w);
    SilentReports(c, c.installers[w].id, row);
    if AfterDeploy(c, w) != c {
      SilentlyReported(c, w, row, Some(Deployed), AfterDeploy(c, w));
    }
  }

  lemma AppliedIsMild(c: Chain, w: nat)
    requires Sound(c) && Provisions(c, w)
    ensures Mild(c, AfterApplied(c, w))
  {
    hide Sound, Mild, RowOk, InstallerOk, MildRow;
    InstallerFits(c, w);
    UnchangedIsMild(c);
    var row := RowOf(c, w);
    SilentReports(c, c.installers[w].id, row);
    if AfterApplied(c, w) != c {
      SilentlyReported(c, w, row.(apply := A_APPLIED), Some(Publishing), AfterApplied(c, w));
    }
  }

  lemma InstallIsMild(c: Chain, s: Step, w: nat)
    requires Sound(c) && Provisions(c, w) && !s.Publish?
    ensures Mild(c, NextInstall(c, s, w))
  {
    hide Sound, Provisions, Mild, AfterEnter, AfterUnreachable, AfterReach, AfterMarkDeploy, AfterDeploy,
         AfterNoteInstall, AfterApplied, AfterClose, AfterBreak;
    if s.Enter? {
      EnterIsMild(c, w);
    } else if s.Unreachable? {
      UnreachableIsMild(c, w);
    } else if s.Reach? {
      ReachIsMild(c, w);
    } else if s.MarkDeploy? {
      MarkDeployIsMild(c, w);
    } else if s.Deploy? {
      DeployIsMild(c, w);
    } else if s.NoteInstall? {
      NoteInstallIsMild(c, w);
    } else if s.Applied? {
      AppliedIsMild(c, w);
    } else if s.Close? {
      CloseIsMild(c, w);
    } else if s.Break? {
      BreakIsMild(c, w);
    } else {
      UnchangedIsMild(c);
    }
  }

  /* ---------- run_sprintbox_cleanup and everybody else ---------- */

  /** A save that keeps the set. */
  lemma SaveIsMild(c: Chain, id: nat, ctx: Context, pc: CleanerPc, c': Chain)
    requires Sound(c) && CleansUp(c, id) && ctx.retained == c.cleaners[id].ctx.retained
    requires ctx.marker == c.cleaners[id].ctx.marker
    requires c' == SaveCleanup(c, id, ctx, pc).(past := c'.past) && SameBoxes(c, c')
    ensures Mild(c, c')
  {
    hide Mild, Sound, MildRow, MildCreator, RowOk, CleanerOk;
    CleanerFits(c, id);
    assert MildRow(c, id, c.rows[id], c.rows[id].(ctx := ctx)) by {
      SavedRowIsMild(c, id, c.rows[id], c.cleaners[id], ctx);
    }
    PutIsMild(c, c', id);
  }

  lemma SavedRowIsMild(c: Chain, id: nat, row: IpOp, k: Cleaner, ctx: Context)
    requires RowOk(c.desired, row) && CleanerOk(row, k) && ctx.retained == k.ctx.retained && ctx.marker == k.ctx.marker
    ensures MildRow(c, id, row, row.(ctx := ctx))
  {
  }

  lemma CleanIsMild(c: Chain, s: Step, id: nat)
    requires Sound(c) && CleansUp(c, id) && !(s.Record? && IsGone(s.result))
    ensures Mild(c, NextClean(c, s, id))
  {
    hide Sound, Mild, MayRecord, Target, Carried, CleanerOk, RowOk;
    UnchangedIsMild(c);
    var c' := NextClean(c, s, id);
    if s.NoteCleanup? || s.EndCleanup? {
      CleanupStatusIsMild(c, id, if s.EndCleanup? then s.action else FINISHED);
    } else if c' != c {
      SaveIsMild(c, id, c'.cleaners[id].ctx, c'.cleaners[id].pc, c');
    }
  }

  lemma CleanupStatusIsMild(c: Chain, id: nat, action: IpAction)
    requires Sound(c) && CleansUp(c, id)
    ensures Mild(c, AfterNoteCleanup(c, id)) && Mild(c, AfterEndCleanup(c, id, action))
  {
    hide Mild, Sound, MildRow, MildCreator, RowOk, CleanerOk, QuietRow;
    CleanerFits(c, id);
    UnchangedIsMild(c);
    ClosingRowIsMild(c, id, c.rows[id], c.cleaners[id], action);
    PutIsMild(c, AfterNoteCleanup(c, id), id);
    if AfterEndCleanup(c, id, action) != c {
      PutIsMild(c, AfterEndCleanup(c, id, action), id);
    }
  }

  lemma ClosingRowIsMild(c: Chain, id: nat, row: IpOp, k: Cleaner, action: IpAction)
    requires RowOk(c.desired, row) && CleanerOk(row, k)
    ensures MildRow(c, id, row, row.(status := RUNNING))
    ensures action in {FINISHED, CLEANUP_REJECTED, CLEANUP_AMBIGUOUS} ==> MildRow(c, id, row, row.(status := DONE, action := action))
  {
    ClosingRow(c.desired, row, k, action);
    QuietRowIsMild(c, id, row, row.(status := RUNNING));
    if action in {FINISHED, CLEANUP_REJECTED, CLEANUP_AMBIGUOUS} {
      QuietRowIsMild(c, id, row, row.(status := DONE, action := action));
    }
  }

  lemma OtherIsMild(c: Chain, s: Step)
    requires Sound(c) && !s.Configure?
    ensures Mild(c, NextOther(c, s))
  {
    hide Sound, Mild, TakeOver, Reconcilable;
    UnchangedIsMild(c);
    if s.Interrupt? {
      TakeOverIsMild(c, Some(s.id));
    } else if s.Reconcile? {
      ReconcileIsMild(c, s.id);
    } else {
      EndingIsMild(c, NextOther(c, s));
    }
  }

  /** Programs end. */
  lemma EndingIsMild(c: Chain, c': Chain)
    requires Sound(c)
    ensures c' == c.(creators := c'.creators, installers := c'.installers, cleaners := c'.cleaners)
            && (forall x | x in c'.creators :: x in c.creators && c'.creators[x] == c.creators[x])
        ==> Mild(c, c')
  {
    hide Sound, Mild;
    if c' == c.(creators := c'.creators, installers := c'.installers, cleaners := c'.cleaners)
       && forall x | x in c'.creators :: x in c.creators && c'.creators[x] == c.creators[x] {
      NoWriteIsMild(c, c');
    }
  }

  lemma ReconcileIsMild(c: Chain, id: nat)
    requires Sound(c)
    ensures id in c.rows && Reconcilable(c.rows[id]) ==> Mild(c, Put(c, id, c.rows[id].(action := Tables.RECONCILED)))
  {
    if id in c.rows && Reconcilable(c.rows[id]) {
      RowIsOk(c, id);
      ReconciledRow(c.desired, c.rows[id]);
      hide Sound, Mild, MildRow, MildCreator, RowOk, QuietRow;
      QuietRowIsMild(c, id, c.rows[id], c.rows[id].(action := Tables.RECONCILED));
      PutIsMild(c, Put(c, id, c.rows[id].(action := Tables.RECONCILED)), id);
    }
  }
}
