/** Attempts of a SprintBOX chain that cannot publish any more: no step gets one of them going again. */
module SprintStuck {
  import opened Base
  import opened Tables
  import opened OperationRows
  import opened SprintChain
  import opened SprintPrograms
  import opened SprintConservation
  import opened SprintRuns
  import opened SprintSteps
  import opened SprintSecondInstall

  /** The program that buys can still come to a confirmed box. */
  predicate Buying(c: Chain, id: nat) {
    && id in c.creators && id in c.rows
    && match c.creators[id].pc
       case Loading => c.rows[id].status.Active()
       case Checking | Collected(_) | Saved | Ordering => true
       case Answered | Identifying => Bought(c, id)
       case _ => false
  }

  /** A current attempt that is being installed, or whose box is being bought, or is waited for or decided over. */
  ghost predicate CanFinish(c: Chain, id: nat) {
    && Current(c, id)
    && ((exists w :: Works(c, w, id)) || Buying(c, id) || (Decidable(c, c.rows[id]) && Resumable(c.rows[id])))
  }

  /** An attempt that was not published and cannot be. */
  ghost predicate Stuck(c: Chain, id: nat) {
    id in c.rows && c.rows[id].published.None? && !CanFinish(c, id)
  }

  lemma DeadIsStuck(c: Chain, id: nat)
    requires Dead(c, id)
    ensures Stuck(c, id)
  {
    hide Works;
  }

  ghost predicate StuckStays(c: Chain, c': Chain) {
    forall id: nat | Stuck(c, id) :: Stuck(c', id)
  }

  lemma StaysTransitively(a: Chain, b: Chain, c: Chain)
    requires StuckStays(a, b) && StuckStays(b, c)
    ensures StuckStays(a, c)
  {
    hide Stuck;
  }

  lemma UnchangedStays(c: Chain)
    ensures StuckStays(c, c)
  {
    hide Stuck;
  }

  /* ---------- writes that get nothing going ---------- */

  predicate KeepsRow(row: IpOp, row': IpOp) {
    && row' == row.(status := row'.status, action := row'.action)
    && (Resumable(row') ==> Resumable(row)) && (row'.status.Active() ==> row.status.Active())
  }

  /** The attempt comes no closer to a publication. */
  ghost predicate NoCloser(c: Chain, c': Chain, id: nat) {
    && id in c.rows && id in c'.rows && KeepsRow(c.rows[id], c'.rows[id]) && c.desired <= c'.desired
    && (id in c'.creators ==> id in c.creators && c'.creators[id] == c.creators[id])
    && (forall w | Works(c', w, id) :: Works(c, w, id)) && (Bought(c', id) ==> Bought(c, id))
  }

  lemma NoCloserStays(c: Chain, c': Chain, id: nat)
    requires Stuck(c, id) && NoCloser(c, c', id) && c.rows[id].revision <= c.desired
    ensures Stuck(c', id)
  {
    hide Works, Bought, Resumable;
  }

  /** One row is written, and the other attempts come no closer. */
  lemma OneWriteStays(c: Chain, c': Chain, id: nat)
    requires RowsOk(c) && WritesOne(c, c', id) && c.desired <= c'.desired && (Stuck(c, id) ==> Stuck(c', id))
    requires forall x: nat | x != id && Bought(c', x) :: Bought(c, x)
    ensures StuckStays(c, c')
  {
    hide Stuck, RowOk, Bought;
    assert forall row: IpOp :: KeepsRow(row, row);
    hide KeepsRow;
    forall x: nat | Stuck(c, x) ensures Stuck(c', x) {
      if x != id {
        StuckHasRow(c, x);
        NoCloserStays(c, c', x);
      }
    }
  }

  lemma StuckHasRow(c: Chain, id: nat)
    requires RowsOk(c) && Stuck(c, id)
    ensures id in c.rows && c.rows[id].revision <= c.desired
  {
    assert RowOk(c.desired, c.rows[id]);
    hide Columns, CanFinish;
  }

  lemma PutStays(c: Chain, id: nat, row: IpOp)
    requires RowsOk(c) && id in c.rows && (Stuck(c, id) ==> KeepsRow(c.rows[id], row))
    ensures StuckStays(c, Put(c, id, row))
  {
    hide Stuck, RowOk, KeepsRow;
    assert WritesOne(c, Put(c, id, row), id);
    SameBought(c, Put(c, id, row));
    if Stuck(c, id) {
      StuckHasRow(c, id);
      NoCloserStays(c, Put(c, id, row), id);
    }
    OneWriteStays(c, Put(c, id, row), id);
  }

  lemma SameBought(c: Chain, c': Chain)
    requires c'.past.made == c.past.made
    ensures forall x: nat :: Bought(c', x) == Bought(c, x)
  {
  }

  /* ---------- decisions ---------- */

  lemma SoundGivesRows(c: Chain)
    requires Sound(c)
    ensures RowsOk(c)
  {
    hide RowsOk, Programs;
  }

  lemma InterruptedKeeps(row: IpOp)
    ensures KeepsRow(row, InterruptIp(row))
  {
  }

  lemma TakeOverStays(c: Chain, taken: Option<nat>)
    requires Sound(c)
    ensures StuckStays(c, TakeOver(c, taken))
  {
    hide Sound, RowsOk, StuckStays, Stuck, KeepsRow, InterruptIp;
    UnchangedStays(c);
    if taken.Some? && taken.value in c.rows {
      SoundGivesRows(c);
      InterruptedKeeps(c.rows[taken.value]);
      PutStays(c, taken.value, InterruptIp(c.rows[taken.value]));
    }
  }

  lemma RetryStays(c: Chain, id: Option<nat>)
    requires Sound(c)
    ensures StuckStays(c, Retry(c, id))
  {
    hide Sound, RowsOk, StuckStays, Stuck;
    UnchangedStays(c);
    if id.Some? && id.value in c.rows {
      SoundGivesRows(c);
      PutStays(c, id.value, c.rows[id.value].(action := RETRY_REQUESTED));
    }
  }

  lemma EnrolStays(c: Chain, ssh: Option<nat>)
    requires Sound(c) && c.nextId !in c.rows
    ensures StuckStays(c, Enrol(c, ssh))
  {
    hide StuckStays, Stuck, RowOk, Abandoned, Programs;
    SameBought(c, Enrol(c, ssh));
    assert WritesOne(c, Enrol(c, ssh), c.nextId);
    assert !Stuck(c, c.nextId) by {
      NoRowIsNotStuck(c, c.nextId);
    }
    hide Enrol, WritesOne;
    OneWriteStays(c, Enrol(c, ssh), c.nextId);
  }

  lemma NoRowIsNotStuck(c: Chain, id: nat)
    requires id !in c.rows
    ensures !Stuck(c, id)
  {
    hide CanFinish;
  }

  lemma BeginStays(c: Chain, ssh: Option<nat>, review: Option<nat>, taken: Option<nat>)
    requires ChainOk(c)
    ensures StuckStays(c, AfterBegin(c, ssh, review, taken))
  {
    hide Sound, Conserved, StuckStays, MayBegin, TakeOver, Enrol, Retry, QuietStep, IsDone;
    UnchangedStays(c);
    if MayBegin(c, ssh, review) {
      ConservedGives(c);
      var c1 := TakeOver(c, taken);
      var c2 := Enrol(c1, ssh);
      TakeOverStays(c, taken);
      TakeOverKeeps(c, taken);
      BegunFromDone(c, ssh, review, taken);
      EnrolStays(c1, ssh);
      EnrolKeeps(c1, ssh);
      RetryStays(c2, ssh);
      RetryIsSound(c2, ssh);
      RetryStays(Retry(c2, ssh), review);
      StaysTransitively(c, c1, c2);
      StaysTransitively(c, c2, Retry(c2, ssh));
      StaysTransitively(c, Retry(c2, ssh), Retry(Retry(c2, ssh), review));
    }
  }

  lemma RetryIsSound(c: Chain, id: Option<nat>)
    requires Sound(c) && IsDone(c, id)
    ensures Sound(Retry(c, id))
  {
    hide Sound, Retry;
    RetryKeeps(c, id);
  }

  lemma StatusStays(c: Chain, id: nat, status: Status, action: IpAction)
    requires Sound(c)
    requires id in c.rows && Stuck(c, id) ==> KeepsRow(c.rows[id], c.rows[id].(status := status, action := action))
    ensures StuckStays(c, SetStatus(c, id, status, action))
  {
    hide Sound, RowsOk, StuckStays, Stuck, KeepsRow;
    UnchangedStays(c);
    SoundGivesRows(c);
    if id in c.rows {
      PutStays(c, id, c.rows[id].(status := status, action := action));
    }
  }

  /** Who waits for a decision, or for a queued wait to be taken up, over a current box can finish. */
  lemma WaitingIsNotStuck(c: Chain, id: nat)
    requires id in c.rows && Decidable(c, c.rows[id]) && Resumable(c.rows[id])
    ensures !Stuck(c, id)
  {
    hide Resumable, Works;
  }

  lemma PublishedIsNotStuck(c: Chain, id: nat)
    requires id in c.rows && c.rows[id].published.Some?
    ensures !Stuck(c, id)
  {
    hide CanFinish;
  }

  lemma QueueStays(c: Chain, id: nat, taken: Option<nat>)
    requires Sound(c)
    ensures StuckStays(c, AfterQueueWait(c, id, taken))
    ensures StuckStays(c, AfterQueueCleanup(c, id, taken))
  {
    hide Sound, StuckStays, Stuck, KeepsRow, SetStatus, TakeOver, QuietStep;
    UnchangedStays(c);
    TakeOverStays(c, taken);
    TakeOverKeeps(c, taken);
    var c1 := TakeOver(c, taken);
    if id in c.rows && !c.rows[id].status.Active() {
      ClosedStays(c, taken, id);
      if Undecided(c.rows[id]) && Decidable(c, c.rows[id]) {
        WaitingIsNotStuck(c1, id);
        StatusStays(c1, id, PENDING, SSH_WAIT_QUEUED);
        StaysTransitively(c, c1, SetStatus(c1, id, PENDING, SSH_WAIT_QUEUED));
      }
      if Reviewable(c, id) {
        PublishedIsNotStuck(c1, id);
        StatusStays(c1, id, PENDING, CLEANUP_QUEUED);
        StaysTransitively(c, c1, SetStatus(c1, id, PENDING, CLEANUP_QUEUED));
      }
    }
  }

  lemma TakeWaitStays(c: Chain, id: nat, w: nat, resumes: bool)
    requires Sound(c)
    ensures StuckStays(c, AfterTakeWait(c, id, w, resumes))
  {
    hide Sound, StuckStays, Stuck, SetStatus, Decidable;
    UnchangedStays(c);
    if id in c.rows && WaitQueued(c.rows[id]) {
      if resumes && Decidable(c, c.rows[id]) {
        WaitingIsNotStuck(c, id);
        TakenUpStays(c, id, w);
      } else {
        StatusStays(c, id, DONE, SSH_UNREACHABLE);
      }
    }
  }

  lemma TakenUpStays(c: Chain, id: nat, w: nat)
    requires Sound(c) && !Stuck(c, id)
    ensures StuckStays(c, AfterTakeWait(c, id, w, true))
  {
    hide Sound, RowsOk, StuckStays, Stuck, AfterTakeWait, WritesOne;
    SoundGivesRows(c);
    TakenUpWritesOne(c, id, w);
    OneWriteStays(c, AfterTakeWait(c, id, w, true), id);
  }

  lemma TakenUpWritesOne(c: Chain, id: nat, w: nat)
    ensures var c' := AfterTakeWait(c, id, w, true); WritesOne(c, c', id) && c'.desired == c.desired
    ensures forall x: nat :: Bought(AfterTakeWait(c, id, w, true), x) == Bought(c, x)
  {
    hide Bought, Decidable;
    SameBought(c, AfterTakeWait(c, id, w, true));
  }

  lemma CloseStays(c: Chain, id: nat)
    requires Sound(c)
    ensures StuckStays(c, AfterLateLoad(c, id)) && StuckStays(c, AfterCancel(c, id))
  {
    hide Sound, StuckStays, Stuck, SetStatus, ExternalActionStarted;
    UnchangedStays(c);
    StatusStays(c, id, AMBIGUOUS, AMBIGUOUS_ACTION);
    StatusStays(c, id, DONE, CANCELLED);
  }

  lemma TakeCleanupStays(c: Chain, id: nat)
    requires Sound(c)
    ensures StuckStays(c, AfterTakeCleanup(c, id))
  {
    hide Sound, StuckStays, Stuck;
    UnchangedStays(c);
    if AfterTakeCleanup(c, id) != c {
      StatusStays(c, id, RUNNING, CLEANUP_RUNNING);
      SameAttempts(SetStatus(c, id, RUNNING, CLEANUP_RUNNING), AfterTakeCleanup(c, id));
      StaysTransitively(c, SetStatus(c, id, RUNNING, CLEANUP_RUNNING), AfterTakeCleanup(c, id));
    }
  }

  lemma SameAttempts(c: Chain, c': Chain)
    requires c'.rows == c.rows && c'.creators == c.creators && c'.installers == c.installers && c'.desired == c.desired
    requires c'.past.made == c.past.made
    ensures StuckStays(c, c')
  {
    SameBought(c, c');
    assert forall w, x :: Works(c', w, x) == Works(c, w, x);
    hide Works, Bought, Resumable;
  }

  lemma DecideStays(c: Chain, s: Step)
    requires ChainOk(c)
    ensures StuckStays(c, NextDecide(c, s))
  {
    hide Sound, Conserved, StuckStays, AfterBegin, AfterQueueWait, AfterTakeWait, AfterLateLoad, AfterCancel,
         AfterQueueCleanup, AfterTakeCleanup;
    UnchangedStays(c);
    match s
    case Begin(ssh, review, taken) => BeginStays(c, ssh, review, taken);
    case QueueWait(id, taken) => QueueStays(c, id, taken);
    case TakeWait(id, w, resumes) => TakeWaitStays(c, id, w, resumes);
    case LateLoad(id) => CloseStays(c, id);
    case Cancel(id) => CloseStays(c, id);
    case QueueCleanup(id, taken) => QueueStays(c, id, taken);
    case TakeCleanup(id) => TakeCleanupStays(c, id);
    case _ =>
  }

  /* ---------- programs ---------- */

  /** Where its program has no box and can get none, nothing that it still does helps. */
  lemma CreateStays(c: Chain, s: Step, id: nat)
    requires ChainOk(c) && Rotates(c, id) && Fits(c, s) && Creates(s) && s.id == id
    ensures StuckStays(c, NextCreate(c, s, id))
  {
    hide Sound, RowsOk, Conserved, StuckStays, Stuck, NextCreate, WritesOne, Fits;
    SoundGivesRows(c);
    CreateWritesOne(c, s, id);
    CreateMakes(c, s, id);
    if Stuck(c, id) {
      CreateStaysStuck(c, s, id);
    }
    OneWriteStays(c, NextCreate(c, s, id), id);
  }

  lemma CreateMakes(c: Chain, s: Step, id: nat)
    requires Rotates(c, id)
    ensures var c' := NextCreate(c, s, id);
            c'.desired == c.desired && forall x: nat | x != id && Bought(c', x) :: Bought(c, x)
  {
    hide Bought, Collection, ExternalActionStarted;
    if s.Order? {
      OrderMakes(c, id, s.effect, s.reply);
    } else {
      SameBought(c, NextCreate(c, s, id));
    }
  }

  lemma OrderMakes(c: Chain, id: nat, effect: Option<string>, reply: Reply)
    requires Rotates(c, id)
    ensures forall x: nat | x != id && Bought(AfterOrder(c, id, effect, reply), x) :: Bought(c, x)
  {
  }

  lemma CreateStaysStuck(c: Chain, s: Step, id: nat)
    requires Sound(c) && Rotates(c, id) && Fits(c, s) && Creates(s) && s.id == id && Stuck(c, id)
    ensures Stuck(NextCreate(c, s, id), id)
  {
    hide Sound, NextCreate, Stuck, Fits, Creates, Rotates;
    if s.Load? || s.Note? || s.Collect? || s.Save? || s.Claim? {
      StartStaysStuck(c, s, id);
    } else {
      BuyStaysStuck(c, s, id);
    }
  }

  lemma StartStaysStuck(c: Chain, s: Step, id: nat)
    requires Sound(c) && Rotates(c, id) && Stuck(c, id) && (s.Load? || s.Note? || s.Collect? || s.Save? || s.Claim?)
    ensures Stuck(NextCreate(c, s, id), id)
  {
    hide Sound, Collection, ExternalActionStarted, Resumable, RowOk, Bought, Works;
    OnlyProgram(c, id);
    SameBought(c, NextCreate(c, s, id));
    SameInstallersWork(c, NextCreate(c, s, id));
  }

  lemma SameInstallersWork(c: Chain, c': Chain)
    ensures c'.installers == c.installers ==> forall w, id :: Works(c', w, id) == Works(c, w, id)
  {
  }

  lemma BuyStaysStuck(c: Chain, s: Step, id: nat)
    requires Sound(c) && Rotates(c, id) && Fits(c, s) && Creates(s) && s.id == id && Stuck(c, id)
    requires !(s.Load? || s.Note? || s.Collect? || s.Save? || s.Claim?)
    ensures Stuck(NextCreate(c, s, id), id)
  {
    hide Sound, Collection, ExternalActionStarted, RowOk, Resumable;
    OnlyProgram(c, id);
  }

  lemma InstallStays(c: Chain, s: Step, w: nat)
    requires ChainOk(c) && Provisions(c, w) && Installs(s) && s.w == w
    ensures StuckStays(c, NextInstall(c, s, w))
  {
    var id := c.installers[w].id;
    hide Sound, RowsOk, Conserved, StuckStays, Stuck, NextInstall, WritesOne, Provisions;
    SoundGivesRows(c);
    InstallWritesOne(c, s, w);
    if Stuck(c, id) {
      InstallStaysStuck(c, s, w);
    }
    OneWriteStays(c, NextInstall(c, s, w), id);
  }

  lemma InstallWritesOne(c: Chain, s: Step, w: nat)
    requires Provisions(c, w)
    ensures var c' := NextInstall(c, s, w); WritesOne(c, c', c.installers[w].id) && c.desired <= c'.desired
    ensures forall x: nat :: Bought(NextInstall(c, s, w), x) == Bought(c, x)
  {
    hide Bought, WritesOne, Report, AfterPublish;
    ReportsWriteOne(c, w);
    PublishWritesOne(c, w);
    SameBought(c, NextInstall(c, s, w));
  }

  lemma PublishWritesOne(c: Chain, w: nat)
    requires Provisions(c, w)
    ensures var c' := AfterPublish(c, w);
            WritesOne(c, c', c.installers[w].id) && c.desired <= c'.desired && c'.past.made == c.past.made
  {
  }

  lemma ReportsWriteOne(c: Chain, w: nat)
    requires Provisions(c, w)
    ensures forall row: IpOp, pc, past: Past ::
              var c' := Report(c, w, row, pc).(past := past);
              WritesOne(c, c', c.installers[w].id) && c'.desired == c.desired
    ensures forall row: IpOp, pc :: Report(c, w, row, pc).past == c.past && Report(c, w, row, pc).desired == c.desired
    ensures WritesOne(c, c, c.installers[w].id)
  {
  }

  /** An attempt with a program that installs is stuck only if it is outdated, and then it remains so. */
  lemma InstallStaysStuck(c: Chain, s: Step, w: nat)
    requires RowsOk(c) && Provisions(c, w) && Stuck(c, c.installers[w].id)
    ensures Stuck(NextInstall(c, s, w), c.installers[w].id)
  {
    hide NextInstall, Buying, Decidable, Resumable, RowOk;
    assert Works(c, w, c.installers[w].id);
    StuckHasRow(c, c.installers[w].id);
    OutdatedStays(c, s, w);
    hide Works, RowsOk;
  }

  lemma OutdatedStays(c: Chain, s: Step, w: nat)
    requires Provisions(c, w) && RowOf(c, w).revision < c.desired && RowOf(c, w).published.None?
    ensures var c', id := NextInstall(c, s, w), c.installers[w].id;
            && id in c'.rows && c'.rows[id].revision == c.rows[id].revision && c'.rows[id].published.None?
            && c'.desired == c.desired
  {
  }

  lemma CleanStays(c: Chain, s: Step, id: nat)
    requires ChainOk(c) && CleansUp(c, id)
    ensures StuckStays(c, NextClean(c, s, id))
  {
    hide Sound, RowsOk, RowOk, Conserved, StuckStays, Stuck, NextClean, WritesOne;
    SoundGivesRows(c);
    CleanerFits(c, id);
    CleanWritesOne(c, s, id);
    CleanMakes(c, s, id);
    PublishedIsNotStuck(c, id);
    OneWriteStays(c, NextClean(c, s, id), id);
  }

  lemma CleanMakes(c: Chain, s: Step, id: nat)
    requires CleansUp(c, id)
    ensures NextClean(c, s, id).desired == c.desired && forall x: nat :: Bought(NextClean(c, s, id), x) == Bought(c, x)
  {
    hide SaveCleanup, Carried, Target, MayRecord, Bought, IsGone;
    SavesMakeNothing(c, id);
    SameBought(c, NextClean(c, s, id));
  }

  lemma SavesMakeNothing(c: Chain, id: nat)
    requires CleansUp(c, id)
    ensures forall ctx, pc :: SaveCleanup(c, id, ctx, pc).past == c.past && SaveCleanup(c, id, ctx, pc).desired == c.desired
  {
  }

  lemma OtherStays(c: Chain, s: Step)
    requires ChainOk(c)
    ensures StuckStays(c, NextOther(c, s))
  {
    hide Sound, Conserved, StuckStays, TakeOver;
    UnchangedStays(c);
    if s.Interrupt? {
      TakeOverStays(c, Some(s.id));
    } else if s.Reconcile? {
      ReconcileStays(c, s.id);
    } else {
      EndStays(c, NextOther(c, s));
    }
  }

  lemma ReconcileStays(c: Chain, id: nat)
    requires Sound(c)
    ensures StuckStays(c, NextOther(c, Reconcile(id)))
  {
    hide Sound, RowsOk, StuckStays, Stuck;
    UnchangedStays(c);
    SoundGivesRows(c);
    if id in c.rows && Reconcilable(c.rows[id]) {
      PutStays(c, id, c.rows[id].(action := Tables.RECONCILED));
    }
  }

  /** Programs end or the configuration is changed, and no row is written. */
  lemma EndStays(c: Chain, c': Chain)
    requires Sound(c)
    ensures c'.rows == c.rows && c'.past.made == c.past.made && c.desired <= c'.desired
            && (forall x | x in c'.creators :: x in c.creators && c'.creators[x] == c.creators[x])
            && (forall w | w in c'.installers :: w in c.installers && c'.installers[w] == c.installers[w])
        ==> StuckStays(c, c')
  {
    SoundGivesRows(c);
    hide Sound, RowOk, Stuck, Bought;
    if && c'.rows == c.rows && c'.past.made == c.past.made && c.desired <= c'.desired
       && (forall x | x in c'.creators :: x in c.creators && c'.creators[x] == c.creators[x])
       && (forall w | w in c'.installers :: w in c.installers && c'.installers[w] == c.installers[w])
    {
      SameBought(c, c');
      forall x: nat | Stuck(c, x) ensures Stuck(c', x) {
        StuckHasRow(c, x);
        NoCloserStays(c, c', x);
      }
    }
  }

  /** No step makes a stuck attempt one that can finish. */
  lemma StepStays(c: Chain, s: Step)
    requires ChainOk(c) && Fits(c, s)
    ensures StuckStays(c, Next(c, s))
  {
    hide ChainOk, StuckStays, Fits, NextDecide, NextCreate, NextInstall, NextClean, NextOther;
    UnchangedStays(c);
    if Decides(s) {
      DecideStays(c, s);
    } else if Creates(s) {
      if Rotates(c, s.id) { CreateStays(c, s, s.id); }
    } else if Installs(s) {
      if Provisions(c, s.w) { InstallStays(c, s, s.w); }
    } else if Cleans(s) {
      if CleansUp(c, s.id) { CleanStays(c, s, s.id); }
    } else {
      OtherStays(c, s);
    }
  }
}
