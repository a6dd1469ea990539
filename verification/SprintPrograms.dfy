/** What holds of the rows of a SprintBOX chain and of the programs on them, whoever stalls and wakes up. */
module SprintPrograms {
  import opened Base
  import opened Tables
  import opened OperationRows
  import opened SprintChain

  /* ---------- one row ---------- */

  /** The review of a publication is open: it has not been followed up, and its cleanup not been taken up. */
  predicate UnderReview(row: IpOp) {
    row.action in {AWAITING_USER_REVIEW, CLEANUP_QUEUED}
  }

  /** What the columns of a row always satisfy. A closed row that is not published says why. */
  predicate Columns(row: IpOp) {
    && row.makeMain == M_NOT_STARTED && row.purchase != P_AMBIGUOUS && !row.status.TIMED_OUT?
    && (row.purchase in {P_NOT_STARTED, P_SENDING, P_REJECTED} ==> row.newIpId == "")
    && (row.purchase == P_CONFIRMED ==> row.newIpId != "" && row.newIp != "")
    && (row.purchase != P_NOT_STARTED ==> row.ctx.marker != "")
    && (row.apply != A_NOT_STARTED ==> row.purchase == P_CONFIRMED)
    && (row.published.Some? ==> row.apply != A_NOT_STARTED && row.published == Some(row.revision + 1))
    && (row.action in {WAITING_SSH, SSH_WAIT_QUEUED} ==> row.purchase == P_CONFIRMED)
    && (UnderReview(row) ==> row.published.Some?)
    && (row.status == FAILURE ==> row.purchase in {P_NOT_STARTED, P_REJECTED})
    && (row.status == DONE ==> row.purchase == P_CONFIRMED)
    && (row.status == DONE && row.published.None? ==> row.action in {SSH_UNREACHABLE, CANCELLED, RETRY_REQUESTED})
    && HoldOk(row)
  }

  /** No row is newer than the desired revision, and the published ones are older. */
  predicate RowOk(desired: nat, row: IpOp) {
    Columns(row) && row.revision <= desired && (row.published.Some? ==> row.revision < desired)
  }

  ghost predicate RowsOk(c: Chain) {
    forall id | id in c.rows :: RowOk(c.desired, c.rows[id])
  }

  /* ---------- the programs on it ---------- */

  predicate CreatorOk(row: IpOp, k: Creator) {
    match k.pc
    case Loading | Checking | Collected(_) => row.purchase == P_NOT_STARTED
    case Saved => row.purchase == P_NOT_STARTED && row.ctx.marker != ""
    case Ordering | Lost | Refused | Answered => row.purchase == P_SENDING
    case Rejected => row.purchase == P_REJECTED
    case Identifying => row.purchase == P_SENT
  }

  predicate InstallerOk(row: IpOp, k: Installer) {
    && row.purchase == P_CONFIRMED && row.newIpId == k.name && row.newIp == k.ip
    && (k.pc.Deploying? || k.pc.Deployed? || k.pc.Publishing? || k.pc.Closing? ==> row.apply != A_NOT_STARTED)
    && (k.pc.Closing? ==> row.published.Some?)
  }

  predicate CleanerOk(row: IpOp, k: Cleaner) {
    && row.published.Some? && row.ctx == k.ctx
    && (k.pc.Choosing? || (k.pc.name in k.ctx.retained && k.pc.name != row.newIpId))
    && (k.pc.Marked? || k.pc.Asked? ==> k.pc.name in k.ctx.results)
  }

  ghost predicate Programs(c: Chain) {
    && (forall id | id in c.creators :: id in c.rows && CreatorOk(c.rows[id], c.creators[id]))
    && (forall w | w in c.installers :: c.installers[w].id in c.rows && InstallerOk(c.rows[c.installers[w].id], c.installers[w]))
    && (forall id | id in c.cleaners :: id in c.rows && CleanerOk(c.rows[id], c.cleaners[id]))
  }

  ghost predicate Sound(c: Chain) {
    RowsOk(c) && Programs(c)
  }

  /** One row is rewritten, and its own programs still fit it. */
  lemma PutPrograms(c: Chain, c': Chain, id: nat)
    requires Programs(c) && id in c'.rows && c'.rows == c.rows[id := c'.rows[id]]
    requires forall x | x in c'.creators && x != id :: x in c.creators && c'.creators[x] == c.creators[x]
    requires forall x | x in c'.cleaners && x != id :: x in c.cleaners && c'.cleaners[x] == c.cleaners[x]
    requires forall w | w in c'.installers && c'.installers[w].id != id :: w in c.installers && c'.installers[w] == c.installers[w]
    requires id in c'.creators ==> CreatorOk(c'.rows[id], c'.creators[id])
    requires id in c'.cleaners ==> CleanerOk(c'.rows[id], c'.cleaners[id])
    requires forall w | w in c'.installers && c'.installers[w].id == id :: InstallerOk(c'.rows[id], c'.installers[w])
    ensures Programs(c')
  {
    hide CreatorOk, InstallerOk, CleanerOk;
  }

  /** A write that no other program of the operation minds. */
  predicate QuietRow(row: IpOp, row': IpOp) {
    && row'.revision == row.revision && row'.published == row.published && row'.purchase == row.purchase
    && row'.newIpId == row.newIpId && row'.newIp == row.newIp && row'.ctx == row.ctx
    && (row.apply != A_NOT_STARTED ==> row'.apply != A_NOT_STARTED)
  }

  lemma QuietRowKeeps(row: IpOp, row': IpOp)
    requires QuietRow(row, row')
    ensures forall k: Creator :: CreatorOk(row, k) ==> CreatorOk(row', k)
    ensures forall k: Installer :: InstallerOk(row, k) ==> InstallerOk(row', k)
    ensures forall k: Cleaner :: CleanerOk(row, k) ==> CleanerOk(row', k)
  {
  }

  /** Programs go on or end, and rows are rewritten quietly. */
  ghost predicate QuietStep(c: Chain, c': Chain) {
    && c'.rows.Keys == c.rows.Keys && forall id | id in c.rows :: QuietRow(c.rows[id], c'.rows[id])
  }

  lemma QuietPrograms(c: Chain, c': Chain)
    requires Programs(c) && QuietStep(c, c')
    requires forall x | x in c'.creators ::
               x in c.rows && ((x in c.creators && c'.creators[x] == c.creators[x]) || CreatorOk(c'.rows[x], c'.creators[x]))
    requires forall x | x in c'.cleaners ::
               x in c.rows && ((x in c.cleaners && c'.cleaners[x] == c.cleaners[x]) || CleanerOk(c'.rows[x], c'.cleaners[x]))
    requires forall w | w in c'.installers :: c'.installers[w].id in c.rows
               && ((w in c.installers && c'.installers[w] == c.installers[w])
                   || InstallerOk(c'.rows[c'.installers[w].id], c'.installers[w]))
    ensures Programs(c')
  {
    hide CreatorOk, InstallerOk, CleanerOk, QuietRow;
    forall id | id in c.rows
      ensures forall k: Creator :: CreatorOk(c.rows[id], k) ==> CreatorOk(c'.rows[id], k)
      ensures forall k: Installer :: InstallerOk(c.rows[id], k) ==> InstallerOk(c'.rows[id], k)
      ensures forall k: Cleaner :: CleanerOk(c.rows[id], k) ==> CleanerOk(c'.rows[id], k)
    {
      QuietRowKeeps(c.rows[id], c'.rows[id]);
    }
  }

  /* ---------- decisions ---------- */

  lemma InterruptedRow(desired: nat, row: IpOp)
    requires RowOk(desired, row)
    ensures RowOk(desired, InterruptIp(row)) && QuietRow(row, InterruptIp(row))
  {
  }

  /** A closed row is not changed by a takeover. */
  lemma ClosedStays(c: Chain, taken: Option<nat>, id: nat)
    requires id in c.rows && !c.rows[id].status.Active()
    ensures id in TakeOver(c, taken).rows && TakeOver(c, taken).rows[id] == c.rows[id]
    ensures TakeOver(c, taken) == c.(rows := TakeOver(c, taken).rows)
  {
  }

  lemma QuietPutKeeps(c: Chain, id: nat, row: IpOp)
    requires Sound(c) && id in c.rows && QuietRow(c.rows[id], row) && RowOk(c.desired, row)
    ensures Sound(Put(c, id, row)) && QuietStep(c, Put(c, id, row))
  {
    hide RowOk;
    assert forall r: IpOp :: QuietRow(r, r);
    assert QuietStep(c, Put(c, id, row));
    ProgramsHaveRows(c);
    hide Programs, QuietRow;
    QuietPrograms(c, Put(c, id, row));
  }

  lemma ProgramsHaveRows(c: Chain)
    requires Programs(c)
    ensures forall x | x in c.creators :: x in c.rows
    ensures forall x | x in c.cleaners :: x in c.rows
    ensures forall w | w in c.installers :: c.installers[w].id in c.rows
  {
  }

  lemma TakeOverKeeps(c: Chain, taken: Option<nat>)
    requires Sound(c)
    ensures Sound(TakeOver(c, taken)) && QuietStep(c, TakeOver(c, taken))
  {
    hide RowOk, InterruptIp;
    if taken.Some? && taken.value in c.rows {
      InterruptedRow(c.desired, c.rows[taken.value]);
      hide Sound, QuietStep;
      QuietPutKeeps(c, taken.value, InterruptIp(c.rows[taken.value]));
    } else {
      assert forall r: IpOp :: QuietRow(r, r);
    }
  }

  lemma EnrolKeeps(c: Chain, ssh: Option<nat>)
    requires Sound(c) && c.nextId !in c.rows
    ensures Sound(Enrol(c, ssh))
  {
    hide Abandoned;
    var c' := Enrol(c, ssh);
    assert RowOk(c'.desired, c'.rows[c.nextId]) && CreatorOk(c'.rows[c.nextId], c'.creators[c.nextId]);
    hide RowOk, CreatorOk, InstallerOk, CleanerOk;
    forall w | w in c'.installers ensures c'.installers[w].id != c.nextId {
      assert c.installers[w].id in c.rows;
    }
    assert c.nextId !in c.cleaners;
    PutPrograms(c, c', c.nextId);
  }

  lemma RetryKeeps(c: Chain, id: Option<nat>)
    requires Sound(c) && (id.Some? && id.value in c.rows ==> c.rows[id.value].status == DONE)
    ensures Sound(Retry(c, id))
    ensures Retry(c, id).rows.Keys == c.rows.Keys
    ensures forall x | x in c.rows :: Retry(c, id).rows[x].status == c.rows[x].status
  {
    if id.Some? && id.value in c.rows {
      RetriedRow(c.desired, c.rows[id.value]);
      hide RowOk, Programs, QuietRow, QuietStep;
      QuietPutKeeps(c, id.value, c.rows[id.value].(action := RETRY_REQUESTED));
    }
  }

  lemma RetriedRow(desired: nat, row: IpOp)
    requires RowOk(desired, row) && row.status == DONE
    ensures RowOk(desired, row.(action := RETRY_REQUESTED)) && QuietRow(row, row.(action := RETRY_REQUESTED))
  {
  }

  predicate IsDone(c: Chain, id: Option<nat>) {
    id.Some? && id.value in c.rows ==> c.rows[id.value].status == DONE
  }

  lemma BegunFromDone(c: Chain, ssh: Option<nat>, review: Option<nat>, taken: Option<nat>)
    requires MayBegin(c, ssh, review) && c.nextId !in c.rows
    ensures var c1 := TakeOver(c, taken); var c2 := Enrol(c1, ssh);
            && c1.nextId == c.nextId && c.nextId !in c1.rows && IsDone(c2, ssh) && IsDone(c2, review)
  {
    if ssh.Some? {
      ClosedStays(c, taken, ssh.value);
    }
    if review.Some? {
      ClosedStays(c, taken, review.value);
    }
    hide InterruptIp, Abandoned, OnHold;
  }

  lemma BeginKeepsRows(c: Chain, ssh: Option<nat>, review: Option<nat>, taken: Option<nat>)
    requires Sound(c) && c.nextId !in c.rows
    ensures var c' := AfterBegin(c, ssh, review, taken); Sound(c')
  {
    hide Sound, MayBegin, TakeOver, Enrol, Retry, QuietStep;
    if MayBegin(c, ssh, review) {
      BegunFromDone(c, ssh, review, taken);
      var c1 := TakeOver(c, taken);
      TakeOverKeeps(c, taken);
      EnrolKeeps(c1, ssh);
      RetryKeeps(Enrol(c1, ssh), ssh);
      RetryKeeps(Retry(Enrol(c1, ssh), ssh), review);
    }
  }

  /** When a row may be given this status and action. */
  predicate MayWrite(row: IpOp, status: Status, action: IpAction) {
    && !status.TIMED_OUT?
    && (status == FAILURE ==> row.purchase in {P_NOT_STARTED, P_REJECTED})
    && (status == DONE ==> row.purchase == P_CONFIRMED)
    && (status == DONE && row.published.None? ==> action in {SSH_UNREACHABLE, CANCELLED, RETRY_REQUESTED})
    && (action in {WAITING_SSH, SSH_WAIT_QUEUED} ==> row.purchase == P_CONFIRMED)
    && (action in {AWAITING_USER_REVIEW, CLEANUP_QUEUED} ==> row.published.Some?)
    && (!status.Active() && action == AMBIGUOUS_ACTION ==> status == AMBIGUOUS)
  }

  lemma StatusWrite(desired: nat, row: IpOp, status: Status, action: IpAction)
    requires RowOk(desired, row) && MayWrite(row, status, action)
    ensures RowOk(desired, row.(status := status, action := action))
    ensures QuietRow(row, row.(status := status, action := action))
  {
  }

  lemma SetStatusKeeps(c: Chain, id: nat, status: Status, action: IpAction)
    requires Sound(c) && id in c.rows && MayWrite(c.rows[id], status, action)
    ensures var c' := SetStatus(c, id, status, action); Sound(c') && QuietStep(c, c')
  {
    hide RowOk, Programs, QuietRow, QuietStep;
    StatusWrite(c.desired, c.rows[id], status, action);
    QuietPutKeeps(c, id, c.rows[id].(status := status, action := action));
  }

  /** What other lemmas take from a row. */
  lemma RowGives(desired: nat, row: IpOp)
    requires RowOk(desired, row)
    ensures row.action in {WAITING_SSH, SSH_WAIT_QUEUED} ==> row.purchase == P_CONFIRMED
    ensures row.status == DONE ==> row.purchase == P_CONFIRMED
    ensures UnderReview(row) ==> row.published.Some?
    ensures row.published.Some? ==> row.purchase == P_CONFIRMED
    ensures row.purchase == P_CONFIRMED ==> row.newIpId != "" && row.newIp != ""
    ensures row.revision <= desired && (row.published.Some? ==> row.revision < desired)
  {
  }

  lemma RowIsOk(c: Chain, id: nat)
    requires Sound(c) && id in c.rows
    ensures RowOk(c.desired, c.rows[id])
  {
  }

  lemma QueueKeepsRows(c: Chain, id: nat, taken: Option<nat>)
    requires Sound(c)
    ensures var c' := AfterQueueWait(c, id, taken); Sound(c')
    ensures var c' := AfterQueueCleanup(c, id, taken); Sound(c')
  {
    hide Sound, QuietStep, TakeOver, InterruptIp, RowOk, SetStatus;
    TakeOverKeeps(c, taken);
    if id in c.rows && !c.rows[id].status.Active() {
      ClosedStays(c, taken, id);
      if MayWrite(c.rows[id], PENDING, SSH_WAIT_QUEUED) {
        SetStatusKeeps(TakeOver(c, taken), id, PENDING, SSH_WAIT_QUEUED);
      }
      if MayWrite(c.rows[id], PENDING, CLEANUP_QUEUED) {
        SetStatusKeeps(TakeOver(c, taken), id, PENDING, CLEANUP_QUEUED);
      }
    }
  }

  lemma TakeWaitKeepsRows(c: Chain, id: nat, w: nat, resumes: bool)
    requires Sound(c)
    ensures var c' := AfterTakeWait(c, id, w, resumes); Sound(c')
  {
    hide Sound, QuietStep, RowOk, QuietRow;
    if id in c.rows && WaitQueued(c.rows[id]) {
      RowIsOk(c, id);
      RowGives(c.desired, c.rows[id]);
      SetStatusKeeps(c, id, DONE, SSH_UNREACHABLE);
      SetStatusKeeps(c, id, RUNNING, WAITING_SSH);
      NewInstaller(SetStatus(c, id, RUNNING, WAITING_SSH), w, Installer(id, c.rows[id].newIpId, c.rows[id].newIp, Entering));
    }
  }

  lemma NewInstaller(c: Chain, w: nat, k: Installer)
    requires Sound(c) && k.id in c.rows
    ensures InstallerOk(c.rows[k.id], k) ==> var c' := c.(installers := c.installers[w := k]); Sound(c')
  {
    hide RowOk, CreatorOk, InstallerOk, CleanerOk;
  }

  lemma CleanupKeepsRows(c: Chain, id: nat)
    requires Sound(c)
    ensures var c' := AfterTakeCleanup(c, id); Sound(c')
  {
    hide Sound, QuietStep, RowOk, QuietRow;
    if AfterTakeCleanup(c, id) != c {
      RowIsOk(c, id);
      RowGives(c.desired, c.rows[id]);
      SetStatusKeeps(c, id, RUNNING, CLEANUP_RUNNING);
      NewCleaner(SetStatus(c, id, RUNNING, CLEANUP_RUNNING), id, Cleaner(c.rows[id].ctx, Choosing), AfterTakeCleanup(c, id).past);
    }
  }

  lemma NewCleaner(c: Chain, id: nat, k: Cleaner, past: Past)
    requires Sound(c) && id in c.rows && CleanerOk(c.rows[id], k)
    ensures var c' := c.(cleaners := c.cleaners[id := k], past := past); Sound(c')
  {
    hide RowOk, CreatorOk, InstallerOk, CleanerOk;
  }

  lemma CloseKeepsRows(c: Chain, id: nat)
    requires Sound(c)
    ensures Sound(AfterLateLoad(c, id))
    ensures Sound(AfterCancel(c, id))
  {
    hide Sound, QuietStep, RowOk, QuietRow, SetStatus, ExternalActionStarted;
    if id in c.rows {
      RowIsOk(c, id);
      RowGives(c.desired, c.rows[id]);
      SetStatusKeeps(c, id, AMBIGUOUS, AMBIGUOUS_ACTION);
      if Undecided(c.rows[id]) {
        SetStatusKeeps(c, id, DONE, CANCELLED);
      }
    }
  }

  lemma DecideKeepsRows(c: Chain, s: Step)
    requires Sound(c) && c.nextId !in c.rows
    ensures Sound(NextDecide(c, s))
  {
    hide Sound, AfterBegin, AfterQueueWait, AfterTakeWait, AfterLateLoad, AfterCancel, AfterQueueCleanup,
         AfterTakeCleanup;
    match s
    case Begin(ssh, review, taken) => BeginKeepsRows(c, ssh, review, taken);
    case QueueWait(id, taken) => QueueKeepsRows(c, id, taken);
    case TakeWait(id, w, resumes) => TakeWaitKeepsRows(c, id, w, resumes);
    case LateLoad(id) => CloseKeepsRows(c, id);
    case Cancel(id) => CloseKeepsRows(c, id);
    case QueueCleanup(id, taken) => QueueKeepsRows(c, id, taken);
    case TakeCleanup(id) => CleanupKeepsRows(c, id);
    case _ =>
  }

  /* ---------- run_sprintbox_rotation ---------- */

  /** Before its box is confirmed an operation has no other program. */
  lemma OnlyProgram(c: Chain, id: nat)
    requires Sound(c) && id in c.creators
    ensures id in c.rows && CreatorOk(c.rows[id], c.creators[id]) && RowOk(c.desired, c.rows[id])
    ensures c.rows[id].purchase != P_CONFIRMED && c.rows[id].published.None? && c.rows[id].apply == A_NOT_STARTED
    ensures id !in c.cleaners && forall w | w in c.installers :: c.installers[w].id != id
  {
    assert CreatorOk(c.rows[id], c.creators[id]) && RowOk(c.desired, c.rows[id]);
    assert id in c.cleaners ==> CleanerOk(c.rows[id], c.cleaners[id]);
    forall w | w in c.installers ensures c.installers[w].id != id {
      assert InstallerOk(c.rows[c.installers[w].id], c.installers[w]);
    }
  }

  lemma TellKeeps(c: Chain, id: nat, row: IpOp, k: Option<Creator>)
    requires Sound(c) && Rotates(c, id) && RowOk(c.desired, row) && (k.Some? ==> CreatorOk(row, k.value))
    ensures Sound(Tell(c, id, row, k))
  {
    hide RowOk, CreatorOk, InstallerOk, CleanerOk;
    OnlyProgram(c, id);
    PutPrograms(c, Tell(c, id, row, k), id);
  }

  /** Rows and programs do not depend on the past, nor on the settings. */
  lemma PastKeepsPrograms(c: Chain, c': Chain)
    requires Sound(c) && c'.rows == c.rows && c.desired <= c'.desired
    requires c'.creators == c.creators && c'.installers == c.installers && c'.cleaners == c.cleaners
    ensures Sound(c')
  {
    hide Columns, CreatorOk, InstallerOk, CleanerOk;
  }

  /** The writes of the program, row by row. */
  lemma EarlyRow(desired: nat, row: IpOp, k: Creator, oldIp: string, oldIpId: string)
    requires RowOk(desired, row) && CreatorOk(row, k)
    ensures var noted := row.(status := RUNNING, oldIp := oldIp, oldIpId := oldIpId);
            RowOk(desired, noted) && CreatorOk(noted, k)
    ensures RowOk(desired, row.(status := AMBIGUOUS, action := AMBIGUOUS_ACTION))
    ensures k.pc.Loading? ==> CreatorOk(row, k.(pc := Checking))
    ensures k.pc.Checking? ==> forall kept :: CreatorOk(row, k.(pc := Collected(kept)))
  {
  }

  lemma LoadKeepsRows(c: Chain, id: nat)
    requires Sound(c) && Rotates(c, id)
    ensures Sound(AfterLoad(c, id))
  {
    hide Sound, Tell;
    OnlyProgram(c, id);
    var row, k := c.rows[id], c.creators[id];
    EarlyRow(c.desired, row, k, "", "");
    if k.pc.Loading? {
      TellKeeps(c, id, row, None);
      TellKeeps(c, id, row.(status := AMBIGUOUS, action := AMBIGUOUS_ACTION), None);
      TellKeeps(c, id, row, Some(k.(pc := Checking)));
    }
  }

  lemma NoteKeepsRows(c: Chain, id: nat, oldIp: string, oldIpId: string)
    requires Sound(c) && Rotates(c, id)
    ensures Sound(AfterNote(c, id, oldIp, oldIpId))
  {
    hide Sound, Tell;
    OnlyProgram(c, id);
    var row, k := c.rows[id], c.creators[id];
    EarlyRow(c.desired, row, k, oldIp, oldIpId);
    TellKeeps(c, id, row.(status := RUNNING, oldIp := oldIp, oldIpId := oldIpId), Some(k));
  }

  lemma CollectKeepsRows(c: Chain, id: nat)
    requires Sound(c) && Rotates(c, id)
    ensures Sound(AfterCollect(c, id))
  {
    hide Sound, Tell, Collection;
    OnlyProgram(c, id);
    var row, k := c.rows[id], c.creators[id];
    EarlyRow(c.desired, row, k, "", "");
    if k.pc.Checking? {
      TellKeeps(c, id, row, Some(k.(pc := Collected(row.ctx.retained + Collection(c, k)))));
    }
  }

  lemma SaveKeepsRows(c: Chain, id: nat, marker: string, keyPath: string)
    requires Sound(c) && Rotates(c, id)
    ensures Sound(AfterSave(c, id, marker, keyPath))
  {
    hide Sound, Tell;
    OnlyProgram(c, id);
    var row, k := c.rows[id], c.creators[id];
    if k.pc.Collected? && marker != "" {
      TellKeeps(c, id, row.(ctx := Context(k.pc.kept, marker, keyPath, map[])), Some(k.(pc := Saved)));
    }
  }

  lemma ClaimKeepsRows(c: Chain, id: nat)
    requires Sound(c) && Rotates(c, id)
    ensures Sound(AfterClaim(c, id))
  {
    hide Sound, Tell;
    OnlyProgram(c, id);
    var row, k := c.rows[id], c.creators[id];
    if k.pc.Saved? {
      TellKeeps(c, id, row, None);
      if row.purchase == P_NOT_STARTED && row.status.RUNNING? {
        TellKeeps(c, id, row.(purchase := P_SENDING, action := PURCHASE_SENDING), Some(k.(pc := Ordering)));
      }
    }
  }

  lemma OrderKeepsRows(c: Chain, id: nat, effect: Option<string>, reply: Reply)
    requires Sound(c) && Rotates(c, id)
    ensures Sound(AfterOrder(c, id, effect, reply))
  {
    hide Sound, Tell;
    OnlyProgram(c, id);
    var row, k := c.rows[id], c.creators[id];
    if k.pc.Ordering? {
      var pc := if reply.Told? then Answered else if reply.NoReply? then Lost else Refused;
      TellKeeps(c, id, row, Some(k.(pc := pc)));
      PastKeepsPrograms(Tell(c, id, row, Some(k.(pc := pc))), AfterOrder(c, id, effect, reply));
    }
  }

  lemma RejectKeepsRows(c: Chain, id: nat)
    requires Sound(c) && Rotates(c, id)
    ensures Sound(AfterReject(c, id))
  {
    hide Sound, Tell;
    OnlyProgram(c, id);
    var row, k := c.rows[id], c.creators[id];
    if k.pc.Refused? {
      TellKeeps(c, id, row.(purchase := P_REJECTED), Some(k.(pc := Rejected)));
    }
  }

  lemma AnswerKeepsRows(c: Chain, id: nat)
    requires Sound(c) && Rotates(c, id)
    ensures Sound(AfterAnswer(c, id))
  {
    hide Sound, Tell;
    OnlyProgram(c, id);
    var row, k := c.rows[id], c.creators[id];
    if k.pc.Answered? {
      TellKeeps(c, id, row.(purchase := P_SENT, action := PURCHASE_SENT), Some(k.(pc := Identifying)));
    }
  }

  lemma IdentifyKeepsRows(c: Chain, id: nat, name: string)
    requires Sound(c) && Rotates(c, id)
    requires name != ""
    ensures Sound(AfterIdentify(c, id, name))
  {
    hide Sound, Tell;
    OnlyProgram(c, id);
    var row, k := c.rows[id], c.creators[id];
    if k.pc.Identifying? {
      TellKeeps(c, id, row.(newIpId := name), Some(k));
    }
  }

  lemma ConfirmKeepsRows(c: Chain, id: nat, name: string, ip: string, w: nat)
    requires Sound(c) && Rotates(c, id)
    requires name != "" && ip != ""
    ensures Sound(AfterConfirm(c, id, name, ip, w))
  {
    hide Sound, Tell;
    OnlyProgram(c, id);
    var row, k := c.rows[id], c.creators[id];
    if k.pc.Identifying? && w !in c.installers {
      var row' := row.(newIpId := name, newIp := ip, purchase := P_CONFIRMED);
      TellKeeps(c, id, row', None);
      var c1 := Tell(c, id, row', None);
      ToldRow(c, id, row', None);
      NewInstaller(c1, w, Installer(id, name, ip, Entering));
      assert AfterConfirm(c, id, name, ip, w) == c1.(installers := c1.installers[w := Installer(id, name, ip, Entering)]);
    }
  }

  lemma FailKeepsRows(c: Chain, id: nat)
    requires Sound(c) && Rotates(c, id)
    ensures Sound(AfterFail(c, id))
  {
    hide Sound, Tell;
    OnlyProgram(c, id);
    var row, k := c.rows[id], c.creators[id];
    if !k.pc.Loading? && !k.pc.Refused? {
      if CreationStarted(k.pc) {
        TellKeeps(c, id, row.(status := AMBIGUOUS, action := AMBIGUOUS_ACTION), None);
      } else {
        TellKeeps(c, id, row.(status := FAILURE, action := FAILED_ACTION), None);
      }
    }
  }

  lemma ToldRow(c: Chain, id: nat, row: IpOp, k: Option<Creator>)
    ensures var c' := Tell(c, id, row, k);
            id in c'.rows && c'.rows[id] == row && c'.installers == c.installers
  {
  }

  lemma StartKeepsRows(c: Chain, s: Step, id: nat)
    requires Sound(c) && Rotates(c, id) && (s.Load? || s.Note? || s.Collect? || s.Save? || s.Claim?)
    ensures Sound(NextCreate(c, s, id))
  {
    hide Sound, AfterLoad, AfterNote, AfterCollect, AfterSave, AfterClaim, AfterOrder, AfterReject, AfterAnswer,
         AfterIdentify, AfterConfirm, AfterFail;
    match s
    case Load(_) => LoadKeepsRows(c, id);
    case Note(_, oldIp, oldIpId) => NoteKeepsRows(c, id, oldIp, oldIpId);
    case Collect(_) => CollectKeepsRows(c, id);
    case Save(_, marker, keyPath) => SaveKeepsRows(c, id, marker, keyPath);
    case Claim(_) => ClaimKeepsRows(c, id);
  }

  lemma BuyKeepsRows(c: Chain, s: Step, id: nat)
    requires Sound(c) && Rotates(c, id) && !(s.Load? || s.Note? || s.Collect? || s.Save? || s.Claim?)
    requires (s.Identify? || s.Confirm? ==> s.name != "") && (s.Confirm? ==> s.ip != "")
    ensures Sound(NextCreate(c, s, id))
  {
    hide Sound, AfterLoad, AfterNote, AfterCollect, AfterSave, AfterClaim, AfterOrder, AfterReject, AfterAnswer,
         AfterIdentify, AfterConfirm, AfterFail;
    if s.Order? {
      OrderKeepsRows(c, id, s.effect, s.reply);
    } else if s.Reject? {
      RejectKeepsRows(c, id);
    } else if s.Answer? {
      AnswerKeepsRows(c, id);
    } else if s.Identify? {
      IdentifyKeepsRows(c, id, s.name);
    } else if s.Confirm? {
      ConfirmKeepsRows(c, id, s.name, s.ip, s.w);
    } else if s.Fail? {
      FailKeepsRows(c, id);
    }
  }

  lemma CreateKeepsRows(c: Chain, s: Step, id: nat)
    requires Sound(c) && Rotates(c, id)
    requires (s.Identify? || s.Confirm? ==> s.name != "") && (s.Confirm? ==> s.ip != "")
    ensures Sound(NextCreate(c, s, id))
  {
    hide Sound, NextCreate;
    if s.Load? || s.Note? || s.Collect? || s.Save? || s.Claim? {
      StartKeepsRows(c, s, id);
    } else {
      BuyKeepsRows(c, s, id);
    }
  }

  /* ---------- _provision_box ---------- */

  /** What the programs beside it need. */
  predicate KeepsFit(row: IpOp, row': IpOp) {
    && row'.purchase == row.purchase && row'.newIpId == row.newIpId && row'.newIp == row.newIp && row'.ctx == row.ctx
    && (row.apply != A_NOT_STARTED ==> row'.apply != A_NOT_STARTED)
    && (row.published.Some? ==> row'.published.Some?)
  }

  lemma FitKept(row: IpOp, row': IpOp, k: Installer, cleaner: Cleaner)
    requires KeepsFit(row, row')
    ensures InstallerOk(row, k) ==> InstallerOk(row', k)
    ensures CleanerOk(row, cleaner) ==> CleanerOk(row', cleaner)
  {
  }

  lemma InstallerFits(c: Chain, w: nat)
    requires Sound(c) && Provisions(c, w)
    ensures InstallerOk(RowOf(c, w), c.installers[w]) && RowOk(c.desired, RowOf(c, w))
    ensures c.installers[w].id !in c.creators
  {
    if c.installers[w].id in c.creators {
      OnlyProgram(c, c.installers[w].id);
    }
  }

  /** A program that installs writes the row of its operation, perhaps beside others. */
  lemma ReportKeeps(c: Chain, w: nat, row: IpOp, pc: Option<InstallerPc>, c': Chain)
    requires Sound(c) && Provisions(c, w) && KeepsFit(RowOf(c, w), row) && c.desired <= c'.desired
    requires RowOk(c'.desired, row) && (pc.Some? ==> InstallerOk(row, c.installers[w].(pc := pc.value)))
    requires c' == Report(c, w, row, pc).(box := c'.box, ip := c'.ip, desired := c'.desired, past := c'.past)
    ensures Sound(c')
  {
    hide Columns, InstallerOk, CleanerOk, CreatorOk, KeepsFit;
    var id := c.installers[w].id;
    InstallerFits(c, w);
    forall x | x in c.installers && c.installers[x].id == id ensures InstallerOk(row, c.installers[x]) {
      FitKept(c.rows[id], row, c.installers[x], Cleaner(NO_CONTEXT, Choosing));
    }
    if id in c.cleaners {
      FitKept(c.rows[id], row, c.installers[w], c.cleaners[id]);
    }
    PutPrograms(c, c', id);
  }

  lemma EnterKeepsRows(c: Chain, w: nat)
    requires Sound(c) && Provisions(c, w)
    ensures Sound(AfterEnter(c, w))
  {
    hide Sound;
    InstallerFits(c, w);
    var row, k := RowOf(c, w), c.installers[w];
    if AfterEnter(c, w) != c {
      ReportKeeps(c, w, row.(status := RUNNING, action := WAITING_SSH), Some(Waiting), AfterEnter(c, w));
    }
  }

  lemma UnreachableKeepsRows(c: Chain, w: nat)
    requires Sound(c) && Provisions(c, w)
    ensures Sound(AfterUnreachable(c, w))
  {
    hide Sound;
    InstallerFits(c, w);
    var row, k := RowOf(c, w), c.installers[w];
    if AfterUnreachable(c, w) != c {
      ReportKeeps(c, w, row.(status := DONE, action := SSH_UNREACHABLE), None, AfterUnreachable(c, w));
    }
  }

  lemma ReachKeepsRows(c: Chain, w: nat)
    requires Sound(c) && Provisions(c, w)
    ensures Sound(AfterReach(c, w))
  {
    hide Sound;
    InstallerFits(c, w);
    var row, k := RowOf(c, w), c.installers[w];
    if AfterReach(c, w) != c {
      ReportKeeps(c, w, row, Some(Reached), AfterReach(c, w));
    }
  }

  lemma MarkDeployKeepsRows(c: Chain, w: nat)
    requires Sound(c) && Provisions(c, w)
    ensures Sound(AfterMarkDeploy(c, w))
  {
    hide Sound;
    InstallerFits(c, w);
    var row, k := RowOf(c, w), c.installers[w];
    if AfterMarkDeploy(c, w) != c {
      ReportKeeps(c, w, row.(status := RUNNING, action := APPLYING, apply := A_RUNNING), Some(Deploying), AfterMarkDeploy(c, w));
    }
  }

  lemma DeployKeepsRows(c: Chain, w: nat)
    requires Sound(c) && Provisions(c, w)
    ensures Sound(AfterDeploy(c, w))
  {
    InstallerFits(c, w);
    var row, k := RowOf(c, w), c.installers[w];
    hide Sound;
    if AfterDeploy(c, w) != c {
      ReportKeeps(c, w, row, Some(Deployed), AfterDeploy(c, w));
    }
  }

  lemma NoteInstallKeepsRows(c: Chain, w: nat)
    requires Sound(c) && Provisions(c, w)
    ensures Sound(AfterNoteInstall(c, w))
  {
    hide Sound;
    InstallerFits(c, w);
    var row, k := RowOf(c, w), c.installers[w];
    if AfterNoteInstall(c, w) != c {
      var row' := if k.pc.Deployed? then row.(status := RUNNING, apply := A_RUNNING) else row.(status := RUNNING);
      ReportKeeps(c, w, row', Some(k.pc), AfterNoteInstall(c, w));
    }
  }

  lemma AppliedKeepsRows(c: Chain, w: nat)
    requires Sound(c) && Provisions(c, w)
    ensures Sound(AfterApplied(c, w))
  {
    hide Sound;
    InstallerFits(c, w);
    var row, k := RowOf(c, w), c.installers[w];
    if AfterApplied(c, w) != c {
      ReportKeeps(c, w, row.(apply := A_APPLIED), Some(Publishing), AfterApplied(c, w));
    }
  }

  lemma PublishKeepsRows(c: Chain, w: nat)
    requires Sound(c) && Provisions(c, w)
    ensures Sound(AfterPublish(c, w))
  {
    hide Sound;
    InstallerFits(c, w);
    var row, k := RowOf(c, w), c.installers[w];
    if AfterPublish(c, w) != c {
      ReportKeeps(c, w, PublishedRow(row, ""), Some(Closing), AfterPublish(c, w));
    }
  }

  lemma ReviewKeepsRows(c: Chain, w: nat)
    requires Sound(c) && Provisions(c, w)
    ensures Sound(AfterClose(c, w))
  {
    hide Sound;
    InstallerFits(c, w);
    var row, k := RowOf(c, w), c.installers[w];
    if AfterClose(c, w) != c {
      ReportKeeps(c, w, row.(status := DONE, action := AWAITING_USER_REVIEW), None, AfterClose(c, w));
    }
  }

  lemma BreakKeepsRows(c: Chain, w: nat)
    requires Sound(c) && Provisions(c, w)
    ensures Sound(AfterBreak(c, w))
  {
    hide Sound;
    InstallerFits(c, w);
    var row, k := RowOf(c, w), c.installers[w];
    if AfterBreak(c, w) != c {
      ReportKeeps(c, w, row.(status := AMBIGUOUS, action := AMBIGUOUS_ACTION), None, AfterBreak(c, w));
    }
  }

  lemma WaitingKeepsRows(c: Chain, s: Step, w: nat)
    requires Sound(c) && Provisions(c, w) && (s.Enter? || s.Unreachable? || s.Reach? || s.MarkDeploy? || s.Deploy?)
    ensures Sound(NextInstall(c, s, w))
  {
    hide Sound, AfterEnter, AfterUnreachable, AfterReach, AfterMarkDeploy, AfterDeploy;
    match s
    case Enter(_) => EnterKeepsRows(c, w);
    case Unreachable(_) => UnreachableKeepsRows(c, w);
    case Reach(_) => ReachKeepsRows(c, w);
    case MarkDeploy(_) => MarkDeployKeepsRows(c, w);
    case Deploy(_) => DeployKeepsRows(c, w);
  }

  lemma InstallKeepsRows(c: Chain, s: Step, w: nat)
    requires Sound(c) && Provisions(c, w)
    ensures Sound(NextInstall(c, s, w))
  {
    hide Sound, Provisions, AfterNoteInstall, AfterApplied, AfterPublish, AfterClose, AfterBreak;
    if s.NoteInstall? {
      NoteInstallKeepsRows(c, w);
    } else if s.Applied? {
      AppliedKeepsRows(c, w);
    } else if s.Publish? {
      PublishKeepsRows(c, w);
    } else if s.Close? {
      ReviewKeepsRows(c, w);
    } else if s.Break? {
      BreakKeepsRows(c, w);
    } else {
      hide NextInstall;
      if s.Enter? || s.Unreachable? || s.Reach? || s.MarkDeploy? || s.Deploy? {
        WaitingKeepsRows(c, s, w);
      } else {
        NoInstallStep(c, s, w);
      }
    }
  }

  lemma NoInstallStep(c: Chain, s: Step, w: nat)
    requires Provisions(c, w) && !Installs(s)
    ensures NextInstall(c, s, w) == c
  {
  }

  /* ---------- run_sprintbox_cleanup ---------- */

  lemma CleanerFits(c: Chain, id: nat)
    requires Sound(c) && CleansUp(c, id)
    ensures CleanerOk(c.rows[id], c.cleaners[id]) && RowOk(c.desired, c.rows[id]) && id !in c.creators
  {
    if id in c.creators {
      OnlyProgram(c, id);
    }
  }

  /** The cleanup saves a context with the same marker. */
  lemma SavedCleanup(c: Chain, id: nat, ctx: Context, pc: CleanerPc)
    requires Sound(c) && CleansUp(c, id) && ctx.marker == c.cleaners[id].ctx.marker
    requires pc.Choosing? || (pc.name in ctx.retained && pc.name != c.rows[id].newIpId)
    requires pc.Marked? || pc.Asked? ==> pc.name in ctx.results
    ensures var c' := SaveCleanup(c, id, ctx, pc); Sound(c')
  {
    hide RowOk, CleanerOk, CreatorOk, InstallerOk;
    CleanerFits(c, id);
    CleanupRow(c.desired, c.rows[id], c.cleaners[id], ctx, pc);
    InstallersStay(c, id, ctx);
    PutPrograms(c, SaveCleanup(c, id, ctx, pc), id);
  }

  /** Programs that install do not look at the context. */
  lemma InstallersStay(c: Chain, id: nat, ctx: Context)
    requires Programs(c) && id in c.rows
    ensures forall x | x in c.installers && c.installers[x].id == id :: InstallerOk(c.rows[id].(ctx := ctx), c.installers[x])
  {
    forall x | x in c.installers && c.installers[x].id == id ensures InstallerOk(c.rows[id].(ctx := ctx), c.installers[x]) {
      assert InstallerOk(c.rows[id], c.installers[x]);
    }
  }

  lemma CleanupRow(desired: nat, row: IpOp, k: Cleaner, ctx: Context, pc: CleanerPc)
    requires RowOk(desired, row) && CleanerOk(row, k) && ctx.marker == k.ctx.marker
    requires pc.Choosing? || (pc.name in ctx.retained && pc.name != row.newIpId)
    requires pc.Marked? || pc.Asked? ==> pc.name in ctx.results
    ensures RowOk(desired, row.(ctx := ctx)) && CleanerOk(row.(ctx := ctx), Cleaner(ctx, pc))
  {
  }

  lemma ClosingRow(desired: nat, row: IpOp, k: Cleaner, action: IpAction)
    requires RowOk(desired, row) && CleanerOk(row, k)
    ensures var row' := row.(status := RUNNING); RowOk(desired, row') && QuietRow(row, row')
    ensures action in {FINISHED, CLEANUP_REJECTED, CLEANUP_AMBIGUOUS} ==>
              var row' := row.(status := DONE, action := action); RowOk(desired, row') && QuietRow(row, row')
  {
  }

  lemma NoteCleanupKeepsRows(c: Chain, id: nat)
    requires Sound(c) && CleansUp(c, id)
    ensures Sound(AfterNoteCleanup(c, id))
  {
    CleanerFits(c, id);
    ClosingRow(c.desired, c.rows[id], c.cleaners[id], FINISHED);
    hide Sound, RowOk, CleanerOk, QuietRow, QuietStep;
    QuietPutKeeps(c, id, c.rows[id].(status := RUNNING));
  }

  lemma EndCleanupKeepsRows(c: Chain, id: nat, action: IpAction)
    requires Sound(c) && CleansUp(c, id)
    ensures Sound(AfterEndCleanup(c, id, action))
  {
    if AfterEndCleanup(c, id, action) != c {
      CleanerFits(c, id);
      ClosingRow(c.desired, c.rows[id], c.cleaners[id], action);
      hide Sound, RowOk, CleanerOk, QuietRow, QuietStep;
      QuietPutKeeps(c, id, c.rows[id].(status := DONE, action := action));
      CleanerEnds(Put(c, id, c.rows[id].(status := DONE, action := action)), id);
    }
  }

  lemma CleanerEnds(c: Chain, id: nat)
    requires Sound(c)
    ensures var c' := c.(cleaners := c.cleaners - {id}); Sound(c')
    ensures var c' := c.(creators := c.creators - {id}); Sound(c')
    ensures var c' := c.(installers := c.installers - {id}); Sound(c')
  {
    hide RowOk, CreatorOk, InstallerOk, CleanerOk;
  }

  lemma ChooseKeepsRows(c: Chain, id: nat, name: string)
    requires Sound(c) && CleansUp(c, id)
    ensures Sound(AfterChoose(c, id, name))
  {
    hide Sound, Target, SaveCleanup;
    if AfterChoose(c, id, name) != c {
      SavedCleanup(c, id, c.cleaners[id].ctx, Chosen(name));
    }
  }

  lemma MarkDeleteKeepsRows(c: Chain, id: nat)
    requires Sound(c) && CleansUp(c, id)
    ensures Sound(AfterMarkDelete(c, id))
  {
    hide Sound, RowOk, SaveCleanup;
    CleanerFits(c, id);
    var k := c.cleaners[id];
    if AfterMarkDelete(c, id) != c {
      SavedCleanup(c, id, k.ctx.(results := k.ctx.results[k.pc.name := D_SENDING]), Marked(k.pc.name));
    }
  }

  lemma AskKeepsRows(c: Chain, id: nat)
    requires Sound(c) && CleansUp(c, id)
    ensures Sound(AfterAsk(c, id))
  {
    hide Sound, RowOk, SaveCleanup;
    CleanerFits(c, id);
    var k := c.cleaners[id];
    if k.pc.Marked? {
      SavedCleanup(c, id, k.ctx, Asked(k.pc.name));
      PastKeepsPrograms(SaveCleanup(c, id, k.ctx, Asked(k.pc.name)), AfterAsk(c, id));
    }
  }

  lemma MarkSentKeepsRows(c: Chain, id: nat)
    requires Sound(c) && CleansUp(c, id)
    ensures Sound(AfterMarkSent(c, id))
  {
    hide Sound, RowOk, SaveCleanup;
    CleanerFits(c, id);
    var k := c.cleaners[id];
    if k.pc.Asked? {
      SavedCleanup(c, id, k.ctx.(results := k.ctx.results[k.pc.name := D_SENT]), k.pc);
    }
  }

  lemma RecordKeepsRows(c: Chain, id: nat, name: string, result: Deletion)
    requires Sound(c) && CleansUp(c, id)
    ensures Sound(AfterRecord(c, id, name, result))
  {
    hide Sound, Carried, MayRecord, SaveCleanup;
    var k := c.cleaners[id];
    var ctx := k.ctx.(results := k.ctx.results[name := result]);
    SavedCleanup(c, id, ctx, Choosing);
    var removed := ctx.(retained := ctx.retained - {name});
    SavedCleanup(c, id, removed, Choosing);
    if AfterRecord(c, id, name, result) != c && IsGone(result) {
      PastKeepsPrograms(SaveCleanup(c, id, removed, Choosing), AfterRecord(c, id, name, result));
    }
  }

  lemma CleanKeepsRows(c: Chain, s: Step, id: nat)
    requires Sound(c) && CleansUp(c, id)
    ensures Sound(NextClean(c, s, id))
  {
    hide Sound, AfterNoteCleanup, AfterChoose, AfterMarkDelete, AfterAsk, AfterMarkSent, AfterRecord,
         AfterEndCleanup;
    match s
    case NoteCleanup(_) => NoteCleanupKeepsRows(c, id);
    case Choose(_, name) => ChooseKeepsRows(c, id, name);
    case MarkDelete(_) => MarkDeleteKeepsRows(c, id);
    case Ask(_) => AskKeepsRows(c, id);
    case MarkSent(_) => MarkSentKeepsRows(c, id);
    case Record(_, name, result) => RecordKeepsRows(c, id, name, result);
    case EndCleanup(_, action) => EndCleanupKeepsRows(c, id, action);
    case _ =>
  }

  /* ---------- everybody else ---------- */

  lemma OtherKeepsRows(c: Chain, s: Step)
    requires Sound(c)
    ensures Sound(NextOther(c, s))
  {
    hide Sound, TakeOver, QuietStep, RowOk, QuietRow;
    match s
    case Interrupt(id) => TakeOverKeeps(c, Some(id));
    case Reconcile(id) =>
      if id in c.rows && Reconcilable(c.rows[id]) {
        RowIsOk(c, id);
        ReconciledRow(c.desired, c.rows[id]);
        QuietPutKeeps(c, id, c.rows[id].(action := Tables.RECONCILED));
      }
    case Configure(desired) =>
      if c.desired <= desired {
        PastKeepsPrograms(c, c.(desired := desired));
      }
    case LoseCreator(id) => CleanerEnds(c, id);
    case LoseInstaller(w) => CleanerEnds(c, w);
    case LoseCleaner(id) => CleanerEnds(c, id);
    case _ =>
  }

  lemma ReconciledRow(desired: nat, row: IpOp)
    requires RowOk(desired, row) && Reconcilable(row)
    ensures var row' := row.(action := Tables.RECONCILED); RowOk(desired, row') && QuietRow(row, row')
  {
  }

  /** Every step of every program, stalled ones included, keeps the rows and the programs in order. */
  lemma StepKeepsRows(c: Chain, s: Step)
    requires Sound(c) && c.nextId !in c.rows && Fits(c, s) && "" !in c.past.made
    ensures Sound(Next(c, s))
  {
    hide Sound, NextDecide, NextCreate, NextInstall, NextClean, NextOther;
    if Decides(s) {
      DecideKeepsRows(c, s);
    } else if Creates(s) {
      if Rotates(c, s.id) {
        CreateKeepsRows(c, s, s.id);
      }
    } else if Installs(s) {
      if Provisions(c, s.w) {
        InstallKeepsRows(c, s, s.w);
      }
    } else if Cleans(s) {
      if CleansUp(c, s.id) {
        CleanKeepsRows(c, s, s.id);
      }
    } else {
      OtherKeepsRows(c, s);
    }
  }
}
