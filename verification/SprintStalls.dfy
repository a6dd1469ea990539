/** What it takes to install a SprintBOX operation twice: a queued wait that is taken up while another program of the
    operation is alive, and for that the takeover of an operation that is being installed. */
module SprintStalls {
  import opened Base
  import opened Tables
  import opened OperationRows
  import opened SprintChain
  import opened SprintPrograms
  import opened SprintConservation
  import opened SprintRuns
  import opened SprintRequests
  import opened SprintSending
  import opened SprintSteps

  /* ---------- one program at a time installs ---------- */

  /** A queued wait is taken up, and begins to install, beside a program of the same operation. A caller can see both. */
  ghost predicate Joins(c: Chain, s: Step) {
    && s.TakeWait? && s.resumes && s.w !in c.installers && s.id in c.rows && WaitQueued(c.rows[s.id])
    && Decidable(c, c.rows[s.id]) && exists w :: Works(c, w, s.id)
  }

  /** Each operation has one program that installs at most, and before it marks its deployment there is no mark. */
  ghost predicate Single(c: Chain) {
    && (forall v, w, id | Works(c, v, id) && Works(c, w, id) :: v == w)
    && (forall w | w in c.installers && Early(c.installers[w].pc) :: !Installed(c, c.installers[w].id))
    && c.past.repeated == {}
  }

  /** Programs go on or end, and no mark is set. */
  ghost predicate Level(c: Chain, c': Chain) {
    && (forall id | id in c.rows :: id in c'.rows && c'.rows[id].apply == c.rows[id].apply)
    && (forall w | w in c'.installers :: w in c.installers && c'.installers[w].id == c.installers[w].id
                                         && (Early(c'.installers[w].pc) ==> Early(c.installers[w].pc)))
    && c'.past.repeated == c.past.repeated
  }

  lemma SteadyIsLevel(c: Chain, c': Chain)
    requires Steady(c, c')
    ensures Level(c, c')
  {
    hide Asks, Early;
  }

  lemma LevelKeeps(c: Chain, c': Chain)
    requires Single(c) && Programs(c) && Level(c, c')
    ensures Single(c')
  {
    hide Programs, Early;
    ProgramsHaveRows(c);
    forall w | w in c'.installers && Early(c'.installers[w].pc) ensures !Installed(c', c'.installers[w].id) {
      assert !Installed(c, c.installers[w].id);
    }
    forall v, w, id | Works(c', v, id) && Works(c', w, id) ensures v == w {
      assert Works(c, v, id) && Works(c, w, id);
    }
  }

  lemma TakeOverIsLevel(c: Chain, taken: Option<nat>)
    ensures Level(c, TakeOver(c, taken))
  {
    hide InterruptIp, Early;
    if taken.Some? && taken.value in c.rows {
      InterruptedIsOnward(c.rows[taken.value]);
    }
  }

  lemma SetStatusIsLevel(c: Chain, id: nat, status: Status, action: IpAction)
    ensures Level(c, SetStatus(c, id, status, action))
  {
    hide Early;
  }

  lemma LevelIsTransitive(a: Chain, b: Chain, c: Chain)
    requires Level(a, b) && Level(b, c)
    ensures Level(a, c)
  {
    hide Early;
  }

  lemma BeginIsLevel(c: Chain, ssh: Option<nat>, review: Option<nat>, taken: Option<nat>)
    requires c.nextId !in c.rows
    ensures Level(c, AfterBegin(c, ssh, review, taken))
  {
    hide Level, Onward, Steady, MayBegin, Retry;
    StillOnward(c);
    SteadyIsLevel(c, c);
    if MayBegin(c, ssh, review) {
      var c1 := TakeOver(c, taken);
      assert c1.nextId == c.nextId && c1.nextId !in c1.rows;
      var c2 := Enrol(c1, ssh);
      TakeOverIsLevel(c, taken);
      EnrolIsOnward(c1, ssh);
      RetryIsOnward(c2, ssh);
      RetryIsOnward(Retry(c2, ssh), review);
      hide TakeOver, Enrol;
      SteadyIsLevel(c1, c2);
      SteadyIsLevel(c2, Retry(c2, ssh));
      SteadyIsLevel(Retry(c2, ssh), Retry(Retry(c2, ssh), review));
      LevelIsTransitive(c, c1, c2);
      LevelIsTransitive(c, c2, Retry(c2, ssh));
      LevelIsTransitive(c, Retry(c2, ssh), Retry(Retry(c2, ssh), review));
    }
  }

  lemma QueueIsLevel(c: Chain, id: nat, taken: Option<nat>)
    ensures Level(c, AfterQueueWait(c, id, taken)) && Level(c, AfterQueueCleanup(c, id, taken))
  {
    hide Level, Onward, Steady, TakeOver, SetStatus, Decidable;
    StillOnward(c);
    SteadyIsLevel(c, c);
    var c1 := TakeOver(c, taken);
    TakeOverIsLevel(c, taken);
    SetStatusIsLevel(c1, id, PENDING, SSH_WAIT_QUEUED);
    SetStatusIsLevel(c1, id, PENDING, CLEANUP_QUEUED);
    LevelIsTransitive(c, c1, SetStatus(c1, id, PENDING, SSH_WAIT_QUEUED));
    LevelIsTransitive(c, c1, SetStatus(c1, id, PENDING, CLEANUP_QUEUED));
  }

  /** A program that begins to install where no other does, and nothing is marked. */
  lemma FirstInstaller(c: Chain, w: nat, k: Installer)
    requires Single(c) && !Installed(c, k.id) && forall v :: !Works(c, v, k.id)
    ensures Single(c.(installers := c.installers[w := k]))
  {
    var c' := c.(installers := c.installers[w := k]);
    assert forall id :: Installed(c', id) == Installed(c, id);
    hide Installed, Early;
    forall v, x, id | Works(c', v, id) && Works(c', x, id) ensures v == x {
      assert v != w ==> Works(c, v, id);
      assert x != w ==> Works(c, x, id);
    }
  }

  lemma TakeWaitSingle(c: Chain, id: nat, w: nat, resumes: bool)
    requires Single(c) && Programs(c) && !Joins(c, TakeWait(id, w, resumes))
    ensures Single(AfterTakeWait(c, id, w, resumes))
  {
    hide Single, Programs, SetStatus, Level;
    SetStatusIsLevel(c, id, DONE, SSH_UNREACHABLE);
    LevelKeeps(c, SetStatus(c, id, DONE, SSH_UNREACHABLE));
    if AfterTakeWait(c, id, w, resumes) != c && resumes {
      var c1 := SetStatus(c, id, RUNNING, WAITING_SSH);
      SetStatusIsLevel(c, id, RUNNING, WAITING_SSH);
      LevelKeeps(c, c1);
      StatusKeepsInstallers(c, id, RUNNING, WAITING_SSH);
      StatusKeepsMark(c, id, RUNNING, WAITING_SSH);
      assert forall v :: Works(c1, v, id) == Works(c, v, id);
      hide Works;
      FirstInstaller(c1, w, Installer(id, c.rows[id].newIpId, c.rows[id].newIp, Entering));
    }
  }

  lemma StatusKeepsMark(c: Chain, id: nat, status: Status, action: IpAction)
    ensures Installed(SetStatus(c, id, status, action), id) == Installed(c, id)
  {
  }

  lemma ConfirmSingle(c: Chain, id: nat, name: string, ip: string, w: nat)
    requires Single(c) && Sound(c) && Rotates(c, id)
    ensures Single(AfterConfirm(c, id, name, ip, w))
  {
    OnlyProgram(c, id);
    var row := c.rows[id].(newIpId := name, newIp := ip, purchase := P_CONFIRMED);
    assert SteadyRow(c.rows[id], row);
    TellIsOnward(c, id, row, None);
    SteadyIsLevel(c, Tell(c, id, row, None));
    ToldRow(c, id, row, None);
    assert Programs(c);
    hide Single, Sound, Programs, Level, Steady, SteadyRow, Tell, RowOk, CreatorOk;
    LevelKeeps(c, Tell(c, id, row, None));
    FirstInstaller(Tell(c, id, row, None), w, Installer(id, name, ip, Entering));
  }

  /** The only program of an operation sets its mark. */
  lemma MarkSingle(c: Chain, w: nat, row: IpOp, pc: InstallerPc, past: Past)
    requires Single(c) && Programs(c) && Provisions(c, w) && !Early(pc) && past.repeated == {}
    ensures Single(Report(c, w, row, Some(pc)).(past := past))
  {
    hide Programs;
    ProgramsHaveRows(c);
    var c' := Report(c, w, row, Some(pc)).(past := past);
    var id := c.installers[w].id;
    forall v, x, y | Works(c', v, y) && Works(c', x, y) ensures v == x {
      assert Works(c, v, y) && Works(c, x, y);
    }
    forall v | v in c'.installers && Early(c'.installers[v].pc) ensures !Installed(c', c'.installers[v].id) {
      assert v != w && c'.installers[v] == c.installers[v];
      assert c.installers[v].id == id ==> Works(c, v, id) && Works(c, w, id);
      assert !Installed(c, c.installers[v].id);
    }
  }

  lemma InstallSingle(c: Chain, s: Step, w: nat)
    requires Single(c) && Sound(c) && Provisions(c, w)
    ensures Single(NextInstall(c, s, w))
  {
    hide Single, Sound, Programs, Level, AfterMarkDeploy, AfterNoteInstall, AfterApplied;
    SoundGives(c);
    if s.MarkDeploy? && AfterMarkDeploy(c, w) != c {
      MarkedSingle(c, w);
    } else if s.NoteInstall? && AfterNoteInstall(c, w) != c {
      NotedSingle(c, w);
    } else if s.Applied? && AfterApplied(c, w) != c {
      AppliedSingle(c, w);
    } else {
      hide NextInstall;
      InstallIsLevel(c, s, w);
      LevelKeeps(c, NextInstall(c, s, w));
    }
  }

  lemma MarkedSingle(c: Chain, w: nat)
    requires Single(c) && Programs(c) && Provisions(c, w)
    ensures AfterMarkDeploy(c, w) != c ==> Single(AfterMarkDeploy(c, w))
  {
    hide Programs;
    if c.installers[w].pc.Reached? {
      assert !Installed(c, c.installers[w].id);
      MarkSingle(c, w, RowOf(c, w).(status := RUNNING, action := APPLYING, apply := A_RUNNING), Deploying, c.past);
    }
  }

  lemma AppliedSingle(c: Chain, w: nat)
    requires Single(c) && Programs(c) && Provisions(c, w)
    ensures AfterApplied(c, w) != c ==> Single(AfterApplied(c, w))
  {
    hide Single, Programs, Report;
    SingleGives(c);
    if c.installers[w].pc.Deployed? {
      MarkSingle(c, w, RowOf(c, w).(apply := A_APPLIED), Publishing, c.past);
      PastItself(Report(c, w, RowOf(c, w).(apply := A_APPLIED), Some(Publishing)));
      ReportPast(c, w, RowOf(c, w).(apply := A_APPLIED), Publishing);
    }
  }

  lemma PastItself(c: Chain)
    ensures c.(past := c.past) == c
  {
  }

  lemma NotedSingle(c: Chain, w: nat)
    requires Single(c) && Programs(c) && Provisions(c, w)
    ensures Single(AfterNoteInstall(c, w))
  {
    hide Single, Programs, Report;
    var k, row := c.installers[w], RowOf(c, w);
    if !Early(k.pc) {
      var row' := if k.pc.Deployed? then row.(status := RUNNING, apply := A_RUNNING) else row.(status := RUNNING);
      SingleGives(c);
      MarkSingle(c, w, row', k.pc, c.past);
      ReportPast(c, w, row', k.pc);
    }
  }

  lemma SingleGives(c: Chain)
    requires Single(c)
    ensures c.past.repeated == {}
  {
  }

  lemma ReportPast(c: Chain, w: nat, row: IpOp, pc: InstallerPc)
    requires Provisions(c, w)
    ensures Report(c, w, row, Some(pc)).(past := c.past) == Report(c, w, row, Some(pc))
  {
  }

  lemma InstallIsLevel(c: Chain, s: Step, w: nat)
    requires Sound(c) && Provisions(c, w)
    requires (s.MarkDeploy? ==> AfterMarkDeploy(c, w) == c) && (s.NoteInstall? ==> AfterNoteInstall(c, w) == c)
    requires s.Applied? ==> AfterApplied(c, w) == c
    ensures Level(c, NextInstall(c, s, w))
  {
    hide Sound, Level, Onward, Steady, AfterEnter, AfterUnreachable, AfterReach, AfterDeploy, AfterPublish, AfterClose,
         AfterBreak, AfterMarkDeploy, AfterNoteInstall, AfterApplied, Provisions, RowOf;
    if s.Unreachable? {
      UnreachableIsLevel(c, w);
    } else {
      InstallIsSteady(c, s, w);
      hide NextInstall;
      SteadyIsLevel(c, NextInstall(c, s, w));
    }
  }

  lemma InstallIsSteady(c: Chain, s: Step, w: nat)
    requires Sound(c) && Provisions(c, w) && !s.Unreachable?
    requires (s.MarkDeploy? ==> AfterMarkDeploy(c, w) == c) && (s.NoteInstall? ==> AfterNoteInstall(c, w) == c)
    requires s.Applied? ==> AfterApplied(c, w) == c
    ensures Steady(c, NextInstall(c, s, w))
  {
    hide Sound, Onward, Steady, AfterEnter, AfterUnreachable, AfterReach, AfterDeploy, AfterPublish, AfterClose,
         AfterBreak, AfterMarkDeploy, AfterNoteInstall, AfterApplied, Provisions, RowOf;
    StillOnward(c);
    if s.Enter? {
      EnterIsOnward(c, w);
    } else if s.Reach? {
      ReachIsOnward(c, w);
    } else if s.Deploy? {
      DeployIsSteady(c, w);
    } else if s.Publish? {
      PublishIsSteady(c, w);
    } else if s.Close? {
      CloseIsSteady(c, w);
    } else if s.Break? {
      BreakIsOnward(c, w);
    }
  }

  lemma UnreachableIsLevel(c: Chain, w: nat)
    requires Provisions(c, w)
    ensures Level(c, AfterUnreachable(c, w))
  {
  }

  lemma DecideSingle(c: Chain, s: Step)
    requires Single(c) && Sound(c) && !Joins(c, s) && c.nextId !in c.rows
    ensures Single(NextDecide(c, s))
  {
    hide Single, Sound, Programs, Level, Joins, AfterBegin, AfterQueueWait, AfterTakeWait, AfterLateLoad, AfterCancel,
         AfterQueueCleanup, AfterTakeCleanup;
    SoundGives(c);
    match s
    case Begin(ssh, review, taken) => BeginIsLevel(c, ssh, review, taken); LevelKeeps(c, AfterBegin(c, ssh, review, taken));
    case QueueWait(id, taken) => QueueIsLevel(c, id, taken); LevelKeeps(c, AfterQueueWait(c, id, taken));
    case TakeWait(id, w, resumes) => TakeWaitSingle(c, id, w, resumes);
    case LateLoad(id) => CloseIsLevel(c, id); LevelKeeps(c, AfterLateLoad(c, id));
    case Cancel(id) => CloseIsLevel(c, id); LevelKeeps(c, AfterCancel(c, id));
    case QueueCleanup(id, taken) => QueueIsLevel(c, id, taken); LevelKeeps(c, AfterQueueCleanup(c, id, taken));
    case TakeCleanup(id) => CloseIsLevel(c, id); LevelKeeps(c, AfterTakeCleanup(c, id));
    case _ =>
  }

  lemma CloseIsLevel(c: Chain, id: nat)
    ensures Level(c, AfterLateLoad(c, id)) && Level(c, AfterCancel(c, id)) && Level(c, AfterTakeCleanup(c, id))
  {
    StillOnward(c);
    SteadyIsLevel(c, c);
    SetStatusIsLevel(c, id, AMBIGUOUS, AMBIGUOUS_ACTION);
    SetStatusIsLevel(c, id, DONE, CANCELLED);
    SetStatusIsLevel(c, id, RUNNING, CLEANUP_RUNNING);
    CleanerIsLevel(c, SetStatus(c, id, RUNNING, CLEANUP_RUNNING), AfterTakeCleanup(c, id));
    hide Level, Onward, Steady, ExternalActionStarted, SetStatus;
  }

  lemma CleanerIsLevel(c: Chain, c1: Chain, c': Chain)
    requires Level(c, c1)
    ensures c' == c1.(cleaners := c'.cleaners, past := c1.past.(cleaned := c'.past.cleaned)) ==> Level(c, c')
  {
    hide Early;
  }

  lemma CreateSingle(c: Chain, s: Step, id: nat)
    requires Single(c) && Sound(c) && Rotates(c, id)
    ensures Single(NextCreate(c, s, id))
  {
    assert Programs(c);
    hide Single, Sound, Programs, Level, AfterConfirm;
    if s.Confirm? {
      ConfirmSingle(c, id, s.name, s.ip, s.w);
    } else {
      CreateIsSteady(c, s, id);
      hide NextCreate, Steady;
      SteadyIsLevel(c, NextCreate(c, s, id));
      LevelKeeps(c, NextCreate(c, s, id));
    }
  }

  lemma CreateIsSteady(c: Chain, s: Step, id: nat)
    requires Sound(c) && Rotates(c, id) && !s.Confirm?
    ensures Steady(c, NextCreate(c, s, id))
  {
    hide Sound, Rotates, Onward, Steady, AfterLoad, AfterNote, AfterCollect, AfterSave, AfterClaim, AfterOrder,
         AfterReject, AfterAnswer, AfterIdentify, AfterFail;
    StillOnward(c);
    if s.Load? {
      LoadIsOnward(c, id);
    } else if s.Note? {
      NoteIsOnward(c, id, s.oldIp, s.oldIpId);
    } else if s.Collect? {
      CollectIsOnward(c, id);
    } else if s.Save? {
      SaveIsOnward(c, id, s.marker, s.keyPath);
    } else if s.Claim? {
      ClaimIsSteady(c, id);
    } else if s.Order? {
      OrderIsSteady(c, id, s.effect, s.reply);
    } else if s.Reject? {
      RejectIsOnward(c, id);
    } else if s.Answer? {
      AnswerIsOnward(c, id);
    } else if s.Identify? {
      IdentifyIsOnward(c, id, s.name);
    } else if s.Fail? {
      FailIsOnward(c, id);
    }
  }

  lemma CleanIsSteady(c: Chain, s: Step, id: nat)
    requires Sound(c) && CleansUp(c, id)
    ensures Steady(c, NextClean(c, s, id))
  {
    hide Sound, CleansUp, Onward, Steady, AfterNoteCleanup, AfterChoose, AfterMarkDelete, AfterAsk, AfterMarkSent,
         AfterRecord, AfterEndCleanup;
    StillOnward(c);
    if s.NoteCleanup? {
      NoteCleanupIsOnward(c, id);
    } else if s.Choose? {
      ChooseIsOnward(c, id, s.name);
    } else if s.MarkDelete? {
      MarkDeleteIsSteady(c, id);
    } else if s.Ask? {
      AskIsSteady(c, id);
    } else if s.MarkSent? {
      MarkSentIsOnward(c, id);
    } else if s.Record? {
      RecordIsOnward(c, id, s.name, s.result);
    } else if s.EndCleanup? {
      EndCleanupIsOnward(c, id, s.action);
    }
  }

  lemma OtherSingle(c: Chain, s: Step)
    requires Single(c) && Programs(c)
    ensures Single(NextOther(c, s))
  {
    hide Single, Programs, Level, Onward, Steady, TakeOver;
    if s.Interrupt? {
      TakeOverIsLevel(c, Some(s.id));
      LevelKeeps(c, TakeOver(c, Some(s.id)));
    } else {
      OtherIsOnward(c, s);
      hide NextOther;
      SteadyIsLevel(c, NextOther(c, s));
      LevelKeeps(c, NextOther(c, s));
    }
  }

  lemma StepSingle(c: Chain, s: Step)
    requires ChainOk(c) && Single(c) && !Joins(c, s)
    ensures Single(Next(c, s))
  {
    hide Sound, Conserved, Struct, Programs, Single, NextDecide, NextCreate, NextInstall, NextClean, NextOther, Joins,
         Steady, Level, Rotates, Provisions, CleansUp;
    ConservedGives(c);
    SoundGives(c);
    if Decides(s) {
      DecideSingle(c, s);
    } else if Creates(s) {
      if Rotates(c, s.id) {
        CreateSingle(c, s, s.id);
      }
    } else if Installs(s) {
      if Provisions(c, s.w) {
        InstallSingle(c, s, s.w);
      }
    } else if Cleans(s) {
      if CleansUp(c, s.id) {
        CleanIsSteady(c, s, s.id);
        SteadyIsLevel(c, NextClean(c, s, s.id));
        LevelKeeps(c, NextClean(c, s, s.id));
      }
    } else {
      OtherSingle(c, s);
    }
  }

  ghost predicate NoneJoins(c: Chain, steps: seq<Step>)
    decreases |steps|
  {
    steps == [] || (!Joins(c, steps[0]) && NoneJoins(Next(c, steps[0]), steps[1..]))
  }

  lemma {:induction false} RunSingle(c: Chain, steps: seq<Step>)
    requires ChainOk(c) && Single(c) && AllFit(c, steps) && NoneJoins(c, steps)
    ensures Single(Run(c, steps))
    decreases |steps|
  {
    hide ChainOk, Single, Next, Fits, Joins;
    if steps == [] {
    } else {
      StepConserves(c, steps[0]);
      StepSingle(c, steps[0]);
      RunSingle(Next(c, steps[0]), steps[1..]);
    }
  }

  /** Some operation is installed a second time. */
  predicate Twice(sent: seq<nat>) {
    exists i, j | 0 <= i < j < |sent| :: sent[i] == sent[j]
  }

  lemma SingleInstallsOnce(c: Chain, steps: seq<Step>)
    requires ChainOk(c) && Requests(c) && Single(c) && AllFit(c, steps) && NoneJoins(c, steps)
    ensures !Twice(Run(c, steps).past.deployments)
  {
    hide Run, AllFit, NoneJoins, ChainOk, OrdersOk, DeletionsOk, ReviewsOk;
    RunSingle(c, steps);
    RunKeepsRequests(c, steps);
  }

  lemma InitialIsSingle(c: Chain)
    requires Initial(c)
    ensures ChainOk(c) && Requests(c) && Single(c)
  {
    hide ChainOk, Requests;
    InitialRequests(c);
  }

  /** Unless a queued wait is taken up beside a living program of the same operation, each operation installs once at
      most. */
  lemma InstalledOnce(c0: Chain, steps: seq<Step>)
    requires Initial(c0) && AllFit(c0, steps) && NoneJoins(c0, steps)
    ensures !Twice(Run(c0, steps).past.deployments)
  {
    hide Initial, Run, AllFit, NoneJoins, ChainOk, Requests, Single, Twice;
    InitialIsSingle(c0);
    SingleInstallsOnce(c0, steps);
  }

  /* ---------- what it takes ---------- */

  /** No lease of an operation that is being installed is taken over, and no recovery interrupts one. */
  ghost predicate Spares(c: Chain, s: Step) {
    match s
    case Begin(_, _, taken) => taken.Some? ==> forall w :: !Works(c, w, taken.value)
    case QueueWait(_, taken) => taken.Some? ==> forall w :: !Works(c, w, taken.value)
    case QueueCleanup(_, taken) => taken.Some? ==> forall w :: !Works(c, w, taken.value)
    case Interrupt(id) => forall w :: !Works(c, w, id)
    case _ => true
  }

  /** Where a program installs, no decision is open and no wait is queued. */
  ghost predicate Unasked(c: Chain) {
    forall w | w in c.installers && c.installers[w].id in c.rows :: !Asks(c.rows[c.installers[w].id])
  }

  ghost predicate Unasking(c: Chain, c': Chain) {
    && (forall id | id in c.rows :: id in c'.rows && (Asks(c'.rows[id]) ==> Asks(c.rows[id])))
    && (forall w | w in c'.installers :: w in c.installers && c'.installers[w].id == c.installers[w].id)
  }

  lemma SteadyIsUnasking(c: Chain, c': Chain)
    requires Steady(c, c')
    ensures Unasking(c, c')
  {
    hide Asks, Early;
  }

  lemma UnaskingKeeps(c: Chain, c': Chain)
    requires Unasked(c) && Programs(c) && Unasking(c, c')
    ensures Unasked(c')
  {
    hide Programs, Asks;
    ProgramsHaveRows(c);
  }

  /** A row may be given any status while nobody installs. */
  lemma FreePutKeeps(c: Chain, id: nat, row: IpOp)
    requires Unasked(c) && forall w :: !Works(c, w, id)
    ensures Unasked(Put(c, id, row))
  {
    forall w | w in c.installers ensures c.installers[w].id != id {
      assert !Works(c, w, id);
    }
    hide Asks;
  }

  lemma SparedTakeOver(c: Chain, taken: Option<nat>)
    requires Unasked(c) && (taken.Some? ==> forall w :: !Works(c, w, taken.value))
    ensures Unasked(TakeOver(c, taken)) && TakeOver(c, taken).installers == c.installers
  {
    hide Unasked, InterruptIp, Works;
    if taken.Some? && taken.value in c.rows {
      FreePutKeeps(c, taken.value, InterruptIp(c.rows[taken.value]));
    }
  }

  lemma BeginUnasked(c: Chain, ssh: Option<nat>, review: Option<nat>, taken: Option<nat>)
    requires Sound(c) && Unasked(c) && Spares(c, Begin(ssh, review, taken)) && c.nextId !in c.rows
    ensures Unasked(AfterBegin(c, ssh, review, taken))
  {
    hide Unasked, Unasking, Onward, Steady, MayBegin, Retry, QuietStep;
    SparedTakeOver(c, taken);
    TakeOverKeeps(c, taken);
    if MayBegin(c, ssh, review) {
      var c1 := TakeOver(c, taken);
      assert c1.nextId == c.nextId && c1.nextId !in c1.rows;
      var c2 := Enrol(c1, ssh);
      EnrolIsOnward(c1, ssh);
      EnrolKeeps(c1, ssh);
      RetryIsOnward(c2, ssh);
      RetryIsOnward(Retry(c2, ssh), review);
      BegunFromDone(c, ssh, review, taken);
      RetryKeeps(c2, ssh);
      SoundGives(c1);
      SoundGives(c2);
      SoundGives(Retry(c2, ssh));
      hide TakeOver, Enrol, Sound, Programs, IsDone;
      SteadyIsUnasking(c1, c2);
      UnaskingKeeps(c1, c2);
      SteadyIsUnasking(c2, Retry(c2, ssh));
      UnaskingKeeps(c2, Retry(c2, ssh));
      SteadyIsUnasking(Retry(c2, ssh), Retry(Retry(c2, ssh), review));
      UnaskingKeeps(Retry(c2, ssh), Retry(Retry(c2, ssh), review));
    }
  }

  lemma SoundGives(c: Chain)
    requires Sound(c)
    ensures Programs(c)
  {
  }

  /** An open decision and a queued wait have no program. */
  lemma AskedIsFree(c: Chain, id: nat)
    requires Unasked(c) && id in c.rows && Asks(c.rows[id])
    ensures forall w :: !Works(c, w, id)
  {
  }

  lemma QueueUnasked(c: Chain, id: nat, taken: Option<nat>)
    requires Unasked(c) && (taken.Some? ==> forall w :: !Works(c, w, taken.value))
    ensures Unasked(AfterQueueWait(c, id, taken)) && Unasked(AfterQueueCleanup(c, id, taken))
  {
    hide Unasked, TakeOver, Decidable, Works, Asks;
    SparedTakeOver(c, taken);
    var c1 := TakeOver(c, taken);
    if id in c.rows && !c.rows[id].status.Active() {
      ClosedStays(c, taken, id);
      if Undecided(c.rows[id]) {
        AskedIsFree(c, id);
        SameWorks(c, c1, id);
        FreePutKeeps(c1, id, c1.rows[id].(status := PENDING, action := SSH_WAIT_QUEUED));
      }
      StatusUnasked(c1, id, PENDING, CLEANUP_QUEUED);
    }
  }

  lemma SameWorks(c: Chain, c': Chain, id: nat)
    requires c'.installers == c.installers
    ensures forall w :: Works(c', w, id) == Works(c, w, id)
  {
  }

  lemma StatusUnasked(c: Chain, id: nat, status: Status, action: IpAction)
    requires Unasked(c) && !(status == DONE && action == SSH_UNREACHABLE)
    requires !(status == PENDING && action == SSH_WAIT_QUEUED)
    ensures Unasked(SetStatus(c, id, status, action))
  {
  }

  lemma TakeWaitUnasked(c: Chain, id: nat, w: nat, resumes: bool)
    requires Unasked(c)
    ensures Unasked(AfterTakeWait(c, id, w, resumes))
  {
    hide Unasked, Decidable;
    if id in c.rows && WaitQueued(c.rows[id]) {
      AskedIsFree(c, id);
      FreePutKeeps(c, id, c.rows[id].(status := DONE, action := SSH_UNREACHABLE));
      var c1 := SetStatus(c, id, RUNNING, WAITING_SSH);
      StatusUnasked(c, id, RUNNING, WAITING_SSH);
      InstallerUnasked(c1, w, Installer(id, c.rows[id].newIpId, c.rows[id].newIp, Entering));
    }
  }

  lemma InstallerUnasked(c: Chain, w: nat, k: Installer)
    requires Unasked(c) && k.id in c.rows && !Asks(c.rows[k.id])
    ensures Unasked(c.(installers := c.installers[w := k]))
  {
  }

  lemma DecideUnasked(c: Chain, s: Step)
    requires Sound(c) && Unasked(c) && Spares(c, s) && c.nextId !in c.rows
    ensures Unasked(NextDecide(c, s))
  {
    hide Sound, Unasked, AfterBegin, AfterQueueWait, AfterTakeWait, AfterQueueCleanup, SetStatus, ExternalActionStarted;
    match s
    case Begin(ssh, review, taken) => BeginUnasked(c, ssh, review, taken);
    case QueueWait(id, taken) => QueueUnasked(c, id, taken);
    case TakeWait(id, w, resumes) => TakeWaitUnasked(c, id, w, resumes);
    case LateLoad(id) => StatusUnasked(c, id, AMBIGUOUS, AMBIGUOUS_ACTION);
    case Cancel(id) => StatusUnasked(c, id, DONE, CANCELLED);
    case QueueCleanup(id, taken) => QueueUnasked(c, id, taken);
    case TakeCleanup(id) =>
      StatusUnasked(c, id, RUNNING, CLEANUP_RUNNING);
      CleanerUnasked(SetStatus(c, id, RUNNING, CLEANUP_RUNNING), AfterTakeCleanup(c, id));
    case _ =>
  }

  lemma CleanerUnasked(c: Chain, c': Chain)
    requires Unasked(c)
    ensures c'.rows == c.rows && c'.installers == c.installers ==> Unasked(c')
  {
    hide Asks;
  }

  lemma ConfirmUnasked(c: Chain, id: nat, name: string, ip: string, w: nat)
    requires Sound(c) && Unasked(c) && Rotates(c, id)
    ensures Unasked(AfterConfirm(c, id, name, ip, w))
  {
    OnlyProgram(c, id);
    RowGives(c.desired, c.rows[id]);
    var row := c.rows[id].(newIpId := name, newIp := ip, purchase := P_CONFIRMED);
    assert !Asks(c.rows[id]) && !Asks(row);
    hide Sound, RowOk, CreatorOk, Asks;
    forall v | v in AfterConfirm(c, id, name, ip, w).installers && c.creators[id].pc.Identifying?
      ensures v in c.installers ==> c.installers[v].id != id
    {
    }
  }

  /** A box that does not answer: its only program ends when it says so. */
  lemma UnreachableUnasked(c: Chain, w: nat)
    requires Single(c) && Unasked(c) && Provisions(c, w)
    ensures Unasked(AfterUnreachable(c, w))
  {
    forall v | v in c.installers && c.installers[v].id == c.installers[w].id ensures v == w {
      assert Works(c, v, c.installers[w].id) && Works(c, w, c.installers[w].id);
    }
    hide Single;
  }

  lemma WorkIsUnasking(c: Chain, s: Step, w: nat)
    requires Provisions(c, w) && (s.MarkDeploy? || s.NoteInstall? || s.Applied?)
    ensures Unasking(c, NextInstall(c, s, w))
  {
    hide Asks, Report, RowOf;
    var row, pc := RowOf(c, w), c.installers[w].pc;
    WorkAsksNot(row);
    UnchangedIsUnasking(c);
    ReportIsUnasking(c, w, row.(status := RUNNING), pc);
    ReportIsUnasking(c, w, row.(status := RUNNING, apply := A_RUNNING), pc);
    ReportIsUnasking(c, w, row.(apply := A_APPLIED), Publishing);
    ReportIsUnasking(c, w, row.(status := RUNNING, action := APPLYING, apply := A_RUNNING), Deploying);
    hide Unasking;
    if s.MarkDeploy? {
      PastIsUnasking(c, Report(c, w, row.(status := RUNNING, action := APPLYING, apply := A_RUNNING), Some(Deploying)),
                     AfterMarkDeploy(c, w).past);
    }
  }

  lemma WorkAsksNot(row: IpOp)
    ensures !Asks(row.(status := RUNNING, action := APPLYING, apply := A_RUNNING))
    ensures !Asks(row.(status := RUNNING)) && !Asks(row.(status := RUNNING, apply := A_RUNNING))
    ensures Asks(row.(apply := A_APPLIED)) == Asks(row)
  {
  }

  lemma ReportIsUnasking(c: Chain, w: nat, row: IpOp, pc: InstallerPc)
    requires Provisions(c, w) && (Asks(row) ==> Asks(RowOf(c, w)))
    ensures Unasking(c, Report(c, w, row, Some(pc)))
  {
    hide Asks;
  }

  lemma UnchangedIsUnasking(c: Chain)
    ensures Unasking(c, c)
  {
    hide Asks;
  }

  lemma PastIsUnasking(c: Chain, c': Chain, past: Past)
    requires Unasking(c, c')
    ensures Unasking(c, c'.(past := past))
  {
    hide Asks;
  }

  lemma InstallUnasked(c: Chain, s: Step, w: nat)
    requires Sound(c) && Single(c) && Unasked(c) && Provisions(c, w)
    ensures Unasked(NextInstall(c, s, w))
  {
    hide Sound, Programs, Single, Unasked, Unasking, Steady, AfterUnreachable, AfterMarkDeploy, AfterNoteInstall,
         AfterApplied, Provisions;
    SoundGives(c);
    if s.Unreachable? {
      UnreachableUnasked(c, w);
    } else {
      hide NextInstall;
      if s.MarkDeploy? || s.NoteInstall? || s.Applied? {
        WorkIsUnasking(c, s, w);
      } else {
        InstallIsSteady(c, s, w);
        SteadyIsUnasking(c, NextInstall(c, s, w));
      }
      UnaskingKeeps(c, NextInstall(c, s, w));
    }
  }

  lemma StepUnasked(c: Chain, s: Step)
    requires ChainOk(c) && Single(c) && Unasked(c) && Spares(c, s)
    ensures Unasked(Next(c, s))
  {
    hide Sound, Conserved, Struct, Single, Unasked, NextDecide, NextCreate, NextInstall, NextClean, NextOther, Spares;
    ConservedGives(c);
    if Decides(s) {
      DecideUnasked(c, s);
    } else if Creates(s) {
      if Rotates(c, s.id) {
        CreateUnasked(c, s, s.id);
      }
    } else if Installs(s) {
      if Provisions(c, s.w) {
        InstallUnasked(c, s, s.w);
      }
    } else if Cleans(s) {
      if CleansUp(c, s.id) {
        CleanUnasked(c, s, s.id);
      }
    } else {
      OtherUnasked(c, s);
    }
  }

  lemma CreateUnasked(c: Chain, s: Step, id: nat)
    requires Sound(c) && Unasked(c) && Rotates(c, id)
    ensures Unasked(NextCreate(c, s, id))
  {
    hide Sound, Programs, Unasked, Unasking, Steady, AfterConfirm;
    SoundGives(c);
    if s.Confirm? {
      ConfirmUnasked(c, id, s.name, s.ip, s.w);
    } else {
      CreateIsSteady(c, s, id);
      hide NextCreate;
      SteadyIsUnasking(c, NextCreate(c, s, id));
      UnaskingKeeps(c, NextCreate(c, s, id));
    }
  }

  lemma CleanUnasked(c: Chain, s: Step, id: nat)
    requires Sound(c) && Unasked(c) && CleansUp(c, id)
    ensures Unasked(NextClean(c, s, id))
  {
    hide Sound, Programs, Unasked, Unasking, Steady, NextClean;
    SoundGives(c);
    CleanIsSteady(c, s, id);
    SteadyIsUnasking(c, NextClean(c, s, id));
    UnaskingKeeps(c, NextClean(c, s, id));
  }

  lemma UnaskedJoinsNothing(c: Chain, s: Step)
    requires Unasked(c)
    ensures !Joins(c, s)
  {
    if s.TakeWait? && s.id in c.rows && WaitQueued(c.rows[s.id]) {
      AskedIsFree(c, s.id);
    }
  }

  lemma OtherUnasked(c: Chain, s: Step)
    requires Sound(c) && Unasked(c) && Spares(c, s)
    ensures Unasked(NextOther(c, s))
  {
    hide Sound, Programs, Unasked, Unasking, Steady, Onward, TakeOver;
    SoundGives(c);
    if s.Interrupt? {
      SparedTakeOver(c, Some(s.id));
    } else {
      OtherIsOnward(c, s);
      hide NextOther;
      SteadyIsUnasking(c, NextOther(c, s));
      UnaskingKeeps(c, NextOther(c, s));
    }
  }

  ghost predicate AllSpare(c: Chain, steps: seq<Step>)
    decreases |steps|
  {
    steps == [] || (Spares(c, steps[0]) && AllSpare(Next(c, steps[0]), steps[1..]))
  }

  /** As long as no lease is taken over while its operation is being installed, no queued wait is taken up beside a
      program of its operation. So a second installation always begins with the takeover of a stalled program. */
  lemma {:induction false} SparedRunsJoinNothing(c: Chain, steps: seq<Step>)
    requires ChainOk(c) && Single(c) && Unasked(c) && AllFit(c, steps) && AllSpare(c, steps)
    ensures NoneJoins(c, steps)
    decreases |steps|
  {
    hide ChainOk, Single, Unasked, Next, Fits, Joins, Spares;
    if steps == [] {
    } else {
      UnaskedJoinsNothing(c, steps[0]);
      StepUnasked(c, steps[0]);
      StepConserves(c, steps[0]);
      StepSingle(c, steps[0]);
      SparedRunsJoinNothing(Next(c, steps[0]), steps[1..]);
    }
  }

  lemma SparedInstallsOnce(c0: Chain, steps: seq<Step>)
    requires Initial(c0) && AllFit(c0, steps) && AllSpare(c0, steps)
    ensures !Twice(Run(c0, steps).past.deployments)
  {
    InitialIsSingle(c0);
    assert Unasked(c0);
    hide Twice, Requests, Run, AllFit, AllSpare, ChainOk, Single, Unasked;
    SparedRunsJoinNothing(c0, steps);
    InstalledOnce(c0, steps);
  }
}
