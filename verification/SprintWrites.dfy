/** What the programs of a SprintBOX chain write, and that nothing is installed where a box is waited for or decided
    over. */
module SprintWrites {
  import opened Base
  import opened Tables
  import opened OperationRows
  import opened SprintChain
  import opened SprintPrograms
  import opened SprintConservation
  import opened SprintRuns
  import opened SprintRequests
  import opened SprintStalls

  /* ---------- what a program writes ---------- */

  /** The transactions of the programs on one row. */
  datatype Write = Update(p: Patch) | TakeClaim | SaveContext(ctx: Context) | Publication

  const NOTHING := Update(KEEP)

  function Written(row: IpOp, w: Write): IpOp {
    match w
    case Update(p) => Patched(row, p)
    case TakeClaim => row.(purchase := P_SENDING, action := PURCHASE_SENDING)
    case SaveContext(ctx) => row.(ctx := ctx)
    case Publication => PublishedRow(row, "")
  }

  function Report(status: Status, action: IpAction): Write {
    Update(KEEP.(status := Some(status), action := Some(action)))
  }

  /** run_sprintbox_rotation up to the confirmed box */
  function CreateWrite(c: Chain, s: Step, id: nat): Write
    requires Rotates(c, id)
  {
    var row, pc := c.rows[id], c.creators[id].pc;
    match s
    case Load(_) =>
      if pc.Loading? && row.status.Active() && ExternalActionStarted(row) then Report(AMBIGUOUS, AMBIGUOUS_ACTION) else NOTHING
    case Note(_, oldIp, oldIpId) =>
      if pc.Loading? then NOTHING
      else Update(KEEP.(status := Some(RUNNING), oldIp := Some(oldIp), oldIpId := Some(oldIpId)))
    case Save(_, marker, keyPath) =>
      if pc.Collected? && marker != "" then SaveContext(Context(pc.kept, marker, keyPath, map[])) else NOTHING
    case Claim(_) => if pc.Saved? && row.purchase == P_NOT_STARTED && row.status.RUNNING? then TakeClaim else NOTHING
    case Reject(_) => if pc.Refused? then Update(KEEP.(purchase := Some(P_REJECTED))) else NOTHING
    case Answer(_) =>
      if pc.Answered? then Update(KEEP.(purchase := Some(P_SENT), action := Some(PURCHASE_SENT))) else NOTHING
    case Identify(_, name) => if pc.Identifying? then Update(KEEP.(newIpId := Some(name))) else NOTHING
    case Confirm(_, name, ip, w) =>
      if pc.Identifying? && w !in c.installers
      then Update(KEEP.(newIpId := Some(name), newIp := Some(ip), purchase := Some(P_CONFIRMED))) else NOTHING
    case Fail(_) =>
      if pc.Loading? || pc.Refused? then NOTHING
      else if CreationStarted(pc) then Report(AMBIGUOUS, AMBIGUOUS_ACTION) else Report(FAILURE, FAILED_ACTION)
    case _ => NOTHING
  }

  /** _provision_box */
  function InstallWrite(c: Chain, s: Step, w: nat): Write
    requires Provisions(c, w)
  {
    var pc := c.installers[w].pc;
    match s
    case Enter(_) => if pc.Entering? then Report(RUNNING, WAITING_SSH) else NOTHING
    case Unreachable(_) => if pc.Waiting? then Report(DONE, SSH_UNREACHABLE) else NOTHING
    case MarkDeploy(_) =>
      if pc.Reached? then Update(KEEP.(status := Some(RUNNING), action := Some(APPLYING), apply := Some(A_RUNNING)))
      else NOTHING
    case NoteInstall(_) =>
      if pc.Entering? || pc.Waiting? || pc.Reached? then NOTHING
      else if pc.Deployed? then Update(KEEP.(status := Some(RUNNING), apply := Some(A_RUNNING)))
      else Update(KEEP.(status := Some(RUNNING)))
    case Applied(_) => if pc.Deployed? then Update(KEEP.(apply := Some(A_APPLIED))) else NOTHING
    case Publish(_) => if pc.Publishing? && RowOf(c, w).revision == c.desired then Publication else NOTHING
    case Close(_) => if pc.Closing? then Report(DONE, AWAITING_USER_REVIEW) else NOTHING
    case Break(_) => Report(AMBIGUOUS, AMBIGUOUS_ACTION)
    case _ => NOTHING
  }

  /** run_sprintbox_cleanup: its status, or its context and nothing else */
  ghost function CleanWrite(c: Chain, s: Step, id: nat): Write
    requires CleansUp(c, id)
  {
    match s
    case NoteCleanup(_) => Update(KEEP.(status := Some(RUNNING)))
    case EndCleanup(_, action) =>
      if c.cleaners[id].pc.Choosing? && action in {FINISHED, CLEANUP_REJECTED, CLEANUP_AMBIGUOUS} then Report(DONE, action)
      else NOTHING
    case _ => SaveContext(NextClean(c, s, id).rows[id].ctx)
  }

  lemma CreateWrites(c: Chain, s: Step, id: nat)
    requires Rotates(c, id)
    ensures NextCreate(c, s, id).rows == c.rows[id := Written(c.rows[id], CreateWrite(c, s, id))]
  {
    hide NextCreate, Written, CreateWrite, Rotates;
    if s.Load? || s.Note? || s.Collect? || s.Save? || s.Claim? {
      StartWrites(c, s, id);
    } else {
      BuyWrites(c, s, id);
    }
  }

  lemma StartWrites(c: Chain, s: Step, id: nat)
    requires Rotates(c, id) && (s.Load? || s.Note? || s.Collect? || s.Save? || s.Claim?)
    ensures NextCreate(c, s, id).rows == c.rows[id := Written(c.rows[id], CreateWrite(c, s, id))]
  {
    TellWrites(c, id);
    hide Tell, Collection, ExternalActionStarted;
    assert c.rows == c.rows[id := c.rows[id]];
  }

  lemma BuyWrites(c: Chain, s: Step, id: nat)
    requires Rotates(c, id) && !(s.Load? || s.Note? || s.Collect? || s.Save? || s.Claim?)
    ensures NextCreate(c, s, id).rows == c.rows[id := Written(c.rows[id], CreateWrite(c, s, id))]
  {
    TellWrites(c, id);
    hide Tell, ExternalActionStarted;
    assert c.rows == c.rows[id := c.rows[id]];
  }

  lemma TellWrites(c: Chain, id: nat)
    ensures forall row: IpOp, k: Option<Creator> :: Tell(c, id, row, k).rows == c.rows[id := row]
  {
  }

  lemma InstallWrites(c: Chain, s: Step, w: nat)
    requires Provisions(c, w)
    ensures NextInstall(c, s, w).rows == c.rows[c.installers[w].id := Written(RowOf(c, w), InstallWrite(c, s, w))]
  {
    assert c.rows == c.rows[c.installers[w].id := RowOf(c, w)];
    if s.MarkDeploy? || s.NoteInstall? || s.Applied? {
      DeployWrites(c, s, w);
    } else {
      hide AfterMarkDeploy, AfterNoteInstall, AfterApplied;
    }
  }

  lemma DeployWrites(c: Chain, s: Step, w: nat)
    requires Provisions(c, w) && (s.MarkDeploy? || s.NoteInstall? || s.Applied?)
    ensures NextInstall(c, s, w).rows == c.rows[c.installers[w].id := Written(RowOf(c, w), InstallWrite(c, s, w))]
  {
    assert c.rows == c.rows[c.installers[w].id := RowOf(c, w)];
  }

  predicate SavedRows(c: Chain, c': Chain, id: nat) {
    id in c.rows && id in c'.rows && c'.rows == c.rows[id := c.rows[id].(ctx := c'.rows[id].ctx)]
  }

  lemma SavesSaveRows(c: Chain, id: nat)
    requires CleansUp(c, id)
    ensures forall ctx, pc, past :: SavedRows(c, SaveCleanup(c, id, ctx, pc).(past := past), id)
    ensures forall ctx, pc :: SavedRows(c, SaveCleanup(c, id, ctx, pc), id)
    ensures SavedRows(c, c, id)
  {
    assert c.rows == c.rows[id := c.rows[id]];
  }

  lemma CleanWrites(c: Chain, s: Step, id: nat)
    requires CleansUp(c, id)
    ensures NextClean(c, s, id).rows == c.rows[id := Written(c.rows[id], CleanWrite(c, s, id))]
  {
    hide NextClean, Written, CleanWrite;
    if s.NoteCleanup? || s.EndCleanup? {
      StatusWrites(c, s, id);
    } else {
      ContextWrites(c, s, id);
    }
  }

  lemma StatusWrites(c: Chain, s: Step, id: nat)
    requires CleansUp(c, id) && (s.NoteCleanup? || s.EndCleanup?)
    ensures NextClean(c, s, id).rows == c.rows[id := Written(c.rows[id], CleanWrite(c, s, id))]
  {
    hide AfterChoose, AfterMarkDelete, AfterAsk, AfterMarkSent, AfterRecord;
    assert c.rows == c.rows[id := c.rows[id]];
  }

  lemma ContextWrites(c: Chain, s: Step, id: nat)
    requires CleansUp(c, id) && !s.NoteCleanup? && !s.EndCleanup?
    ensures NextClean(c, s, id).rows == c.rows[id := Written(c.rows[id], CleanWrite(c, s, id))]
  {
    hide NextClean;
    SavesRows(c, s, id);
  }

  lemma SavesRows(c: Chain, s: Step, id: nat)
    requires CleansUp(c, id) && !s.NoteCleanup? && !s.EndCleanup?
    ensures SavedRows(c, NextClean(c, s, id), id)
  {
    hide SaveCleanup, SavedRows, Carried, Target, MayRecord, IsGone;
    SavesSaveRows(c, id);
  }

  /* ---------- the rows ---------- */

  /** Where a box is waited for, or the wait waits for a decision, nothing has been installed. */
  predicate Bare(row: IpOp) {
    row.action in {WAITING_SSH, SSH_WAIT_QUEUED} || Undecided(row) ==> row.apply == A_NOT_STARTED
  }

  ghost predicate AllBare(c: Chain) {
    forall id | id in c.rows :: Bare(c.rows[id])
  }

  lemma WriteBare(c: Chain, c': Chain, id: nat)
    requires AllBare(c) && id in c.rows && id in c'.rows && c'.rows == c.rows[id := c'.rows[id]] && Bare(c'.rows[id])
    ensures AllBare(c')
  {
    hide Bare;
  }

  lemma InterruptedIsBare(row: IpOp)
    requires Bare(row)
    ensures Bare(InterruptIp(row))
  {
  }

  lemma TakeOverBare(c: Chain, taken: Option<nat>)
    requires AllBare(c)
    ensures AllBare(TakeOver(c, taken))
  {
    hide Bare, InterruptIp;
    if taken.Some? && taken.value in c.rows {
      InterruptedIsBare(c.rows[taken.value]);
    }
  }

  lemma BeginBare(c: Chain, ssh: Option<nat>, review: Option<nat>, taken: Option<nat>)
    requires AllBare(c)
    ensures AllBare(AfterBegin(c, ssh, review, taken))
  {
    hide MayBegin, TakeOver;
    hide Enrol;
    hide Retry, AllBare;
    TakeOverBare(c, taken);
    EnrolBare(TakeOver(c, taken), ssh);
    RetryBare(Enrol(TakeOver(c, taken), ssh), ssh);
    RetryBare(Retry(Enrol(TakeOver(c, taken), ssh), ssh), review);
  }

  lemma EnrolBare(c: Chain, ssh: Option<nat>)
    requires AllBare(c)
    ensures AllBare(Enrol(c, ssh))
  {
    hide Abandoned;
  }

  lemma RetryBare(c: Chain, id: Option<nat>)
    requires AllBare(c)
    ensures AllBare(Retry(c, id))
  {
  }

  lemma QueueBare(c: Chain, id: nat, taken: Option<nat>)
    requires AllBare(c)
    ensures AllBare(AfterQueueWait(c, id, taken)) && AllBare(AfterQueueCleanup(c, id, taken))
  {
    TakeOverBare(c, taken);
    if id in c.rows && !c.rows[id].status.Active() {
      ClosedStays(c, taken, id);
    }
    hide TakeOver, Decidable;
  }

  lemma DecideBare(c: Chain, s: Step)
    requires AllBare(c)
    ensures AllBare(NextDecide(c, s))
  {
    hide AfterBegin, AfterQueueWait, AfterQueueCleanup, Decidable, ExternalActionStarted;
    match s
    case Begin(ssh, review, taken) => BeginBare(c, ssh, review, taken);
    case QueueWait(id, taken) => QueueBare(c, id, taken);
    case QueueCleanup(id, taken) => QueueBare(c, id, taken);
    case _ =>
  }

  lemma CreateBare(c: Chain, s: Step, id: nat)
    requires AllBare(c) && Sound(c) && Rotates(c, id)
    ensures AllBare(NextCreate(c, s, id))
  {
    hide NextCreate, Sound, RowOk, CreatorOk, Written, CreateWrite, AllBare;
    OnlyProgram(c, id);
    CreateWrites(c, s, id);
    CreateKeepsApply(c, s, id);
    WriteBare(c, NextCreate(c, s, id), id);
  }

  lemma CreateKeepsApply(c: Chain, s: Step, id: nat)
    requires Rotates(c, id)
    ensures Written(c.rows[id], CreateWrite(c, s, id)).apply == c.rows[id].apply
  {
    hide ExternalActionStarted;
  }

  lemma InstallBare(c: Chain, s: Step, w: nat)
    requires AllBare(c) && Sound(c) && Single(c) && Provisions(c, w)
    ensures AllBare(NextInstall(c, s, w))
  {
    InstallerFits(c, w);
    assert Early(c.installers[w].pc) ==> RowOf(c, w).apply == A_NOT_STARTED;
    assert Bare(RowOf(c, w));
    hide Sound, RowOk, Single, AllBare, NextInstall, Written, InstallWrite;
    InstallWrites(c, s, w);
    InstalledIsBare(c, s, w);
    WriteBare(c, NextInstall(c, s, w), c.installers[w].id);
  }

  lemma InstalledIsBare(c: Chain, s: Step, w: nat)
    requires Provisions(c, w) && Bare(RowOf(c, w)) && InstallerOk(RowOf(c, w), c.installers[w])
    requires Early(c.installers[w].pc) ==> RowOf(c, w).apply == A_NOT_STARTED
    ensures Bare(Written(RowOf(c, w), InstallWrite(c, s, w)))
  {
  }

  lemma CleanBare(c: Chain, s: Step, id: nat)
    requires AllBare(c) && Sound(c) && CleansUp(c, id)
    ensures AllBare(NextClean(c, s, id))
  {
    CleanerFits(c, id);
    CleanWrites(c, s, id);
    assert Bare(c.rows[id]) && c.rows[id].apply != A_NOT_STARTED;
    hide Sound, AllBare, NextClean, RowOk, CleanerOk, Bare, Written, CleanWrite;
    CleanedIsBare(c, s, id);
    WriteBare(c, NextClean(c, s, id), id);
  }

  lemma CleanedIsBare(c: Chain, s: Step, id: nat)
    requires CleansUp(c, id) && Bare(c.rows[id]) && c.rows[id].apply != A_NOT_STARTED
    ensures Bare(Written(c.rows[id], CleanWrite(c, s, id)))
  {
    hide NextClean;
  }

  lemma OtherBare(c: Chain, s: Step)
    requires AllBare(c)
    ensures AllBare(NextOther(c, s))
  {
    TakeOverBare(c, if s.Interrupt? then Some(s.id) else None);
    hide TakeOver;
  }

  lemma StepBare(c: Chain, s: Step)
    requires AllBare(c) && Sound(c) && Single(c)
    ensures AllBare(Next(c, s))
  {
    hide Sound, Single, AllBare, NextDecide, NextCreate, NextInstall, NextClean, NextOther;
    if Decides(s) {
      DecideBare(c, s);
    } else if Creates(s) {
      if Rotates(c, s.id) { CreateBare(c, s, s.id); }
    } else if Installs(s) {
      if Provisions(c, s.w) { InstallBare(c, s, s.w); }
    } else if Cleans(s) {
      if CleansUp(c, s.id) { CleanBare(c, s, s.id); }
    } else {
      OtherBare(c, s);
    }
  }

  lemma {:induction false} RunBare(c: Chain, steps: seq<Step>)
    requires ChainOk(c) && Single(c) && AllBare(c) && AllFit(c, steps) && NoneJoins(c, steps)
    ensures ChainOk(Run(c, steps)) && Single(Run(c, steps)) && AllBare(Run(c, steps))
    decreases |steps|
  {
    hide Sound, Conserved, Single, AllBare, Next, Fits, Joins;
    if steps == [] {
    } else {
      StepConserves(c, steps[0]);
      StepSingle(c, steps[0]);
      StepBare(c, steps[0]);
      RunBare(Next(c, steps[0]), steps[1..]);
    }
  }

  lemma InitialIsBare(c: Chain)
    requires Initial(c)
    ensures ChainOk(c) && Single(c) && AllBare(c)
  {
    hide ChainOk;
    InitialChain(c);
  }
}
