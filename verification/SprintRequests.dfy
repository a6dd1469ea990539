/** What is sent in a SprintBOX chain: the invariant, and the steps that send nothing and come no closer to sending. */
module SprintRequests {
  import opened Base
  import opened Tables
  import opened OperationRows
  import opened SprintChain
  import opened SprintPrograms

  /* ---------- the invariant ---------- */

  /** Its order was sent, or may have been. */
  predicate Spent(c: Chain, id: nat) {
    id in c.rows && c.rows[id].purchase != P_NOT_STARTED && !(id in c.creators && c.creators[id].pc.Ordering?)
  }

  predicate Installed(c: Chain, id: nat) {
    id in c.rows && c.rows[id].apply != A_NOT_STARTED
  }

  /** A deletion was marked in its operation before it was sent, and is of a box older than the operation, never of the
      box the operation published. */
  predicate DeletionOk(c: Chain, d: (nat, string)) {
    && d.0 in c.rows && c.rows[d.0].published.Some? && d.1 in c.rows[d.0].ctx.results && d.1 != c.rows[d.0].newIpId
    && d.1 in c.past.made && c.past.made[d.1] < d.0
  }

  predicate IsClosing(c: Chain, w: nat, id: nat) {
    w in c.installers && c.installers[w].id == id && c.installers[w].pc.Closing?
  }

  predicate IsDeploying(c: Chain, w: nat, id: nat) {
    w in c.installers && c.installers[w].id == id && c.installers[w].pc.Deploying?
  }

  ghost predicate OrdersOk(c: Chain) {
    && (forall i | 0 <= i < |c.past.orders| :: Spent(c, c.past.orders[i]))
    && (forall i, j | 0 <= i < j < |c.past.orders| :: c.past.orders[i] != c.past.orders[j])
  }

  ghost predicate DeletionsOk(c: Chain) {
    && (forall i | 0 <= i < |c.past.deletions| :: DeletionOk(c, c.past.deletions[i]))
    && (forall i, j | 0 <= i < j < |c.past.deletions| :: c.past.deletions[i] != c.past.deletions[j])
    && (forall id | id in c.cleaners && c.cleaners[id].pc.Marked? :: (id, c.cleaners[id].pc.name) !in c.past.deletions)
  }

  /** Unless a deployment was marked over a mark, one deployment, or one about to be sent. */
  ghost predicate DeploymentsOk(c: Chain) {
    && (forall i | 0 <= i < |c.past.deployments| :: Installed(c, c.past.deployments[i]))
    && (forall i, j | 0 <= i < j < |c.past.deployments| && c.past.deployments[i] == c.past.deployments[j] ::
          c.past.deployments[i] in c.past.repeated)
    && (forall w, id | IsDeploying(c, w, id) :: id in c.past.repeated || id !in c.past.deployments)
    && (forall v, w, id | IsDeploying(c, v, id) && IsDeploying(c, w, id) :: id in c.past.repeated || v == w)
  }

  /** A review is opened once, by the program that published, and its cleanup is taken up once. */
  ghost predicate ReviewsOk(c: Chain) {
    && (forall v, w, id | IsClosing(c, v, id) && IsClosing(c, w, id) :: v == w)
    && (forall id | id in c.rows && UnderReview(c.rows[id]) :: id !in c.past.cleaned && forall w :: !IsClosing(c, w, id))
    && (forall w, id | IsClosing(c, w, id) :: id !in c.past.cleaned)
    && c.cleaners.Keys <= c.past.cleaned && (forall id | id in c.past.cleaned :: id in c.rows && c.rows[id].published.Some?)
  }

  ghost predicate Requests(c: Chain) {
    OrdersOk(c) && DeletionsOk(c) && DeploymentsOk(c) && ReviewsOk(c)
  }

  /* ---------- onward steps ---------- */

  predicate OnwardRow(row: IpOp, row': IpOp) {
    && (row.purchase != P_NOT_STARTED ==> row'.purchase != P_NOT_STARTED)
    && (row.apply != A_NOT_STARTED ==> row'.apply != A_NOT_STARTED)
    && (row.published.Some? ==>
          row'.published.Some? && row'.newIpId == row.newIpId && row.ctx.results.Keys <= row'.ctx.results.Keys)
    && (UnderReview(row') ==> UnderReview(row))
  }

  /** Nothing is sent, and no program comes closer to sending. */
  ghost predicate Onward(c: Chain, c': Chain) {
    && (forall id | id in c.rows :: id in c'.rows && OnwardRow(c.rows[id], c'.rows[id]))
    && (forall id | id in c'.rows && id !in c.rows :: !UnderReview(c'.rows[id]))
    && (forall id | id in c'.creators && c'.creators[id].pc.Ordering? :: id in c.creators && c.creators[id].pc.Ordering?)
    && (forall w, id | IsDeploying(c', w, id) :: IsDeploying(c, w, id))
    && (forall w, id | IsClosing(c', w, id) :: IsClosing(c, w, id))
    && (forall id | id in c'.cleaners :: id in c.cleaners && (c'.cleaners[id].pc.Marked? ==> c'.cleaners[id].pc == c.cleaners[id].pc))
    && (forall n | n in c.past.made :: n in c'.past.made && c'.past.made[n] == c.past.made[n])
    && c'.past.orders == c.past.orders && c'.past.deployments == c.past.deployments && c'.past.deletions == c.past.deletions
    && c'.past.cleaned == c.past.cleaned && c'.past.repeated == c.past.repeated
  }

  lemma OnwardOrders(c: Chain, c': Chain)
    requires OrdersOk(c) && Onward(c, c')
    ensures OrdersOk(c')
  {
    forall i | 0 <= i < |c'.past.orders| ensures Spent(c', c'.past.orders[i]) {
      assert Spent(c, c.past.orders[i]);
    }
  }

  lemma OnwardDeletions(c: Chain, c': Chain)
    requires DeletionsOk(c) && Onward(c, c')
    ensures DeletionsOk(c')
  {
    forall i | 0 <= i < |c'.past.deletions| ensures DeletionOk(c', c'.past.deletions[i]) {
      assert DeletionOk(c, c.past.deletions[i]);
    }
  }

  lemma OnwardDeployments(c: Chain, c': Chain)
    requires DeploymentsOk(c) && Onward(c, c')
    ensures DeploymentsOk(c')
  {
    forall i | 0 <= i < |c'.past.deployments| ensures Installed(c', c'.past.deployments[i]) {
      assert Installed(c, c.past.deployments[i]);
    }
    hide IsDeploying;
  }

  lemma OnwardReviews(c: Chain, c': Chain)
    requires ReviewsOk(c) && Onward(c, c')
    ensures ReviewsOk(c')
  {
    hide IsClosing, UnderReview;
  }

  lemma OnwardKeeps(c: Chain, c': Chain)
    requires Requests(c) && Onward(c, c')
    ensures Requests(c')
  {
    hide OrdersOk, DeletionsOk, DeploymentsOk, ReviewsOk, Onward;
    OnwardOrders(c, c');
    OnwardDeletions(c, c');
    OnwardDeployments(c, c');
    OnwardReviews(c, c');
  }

  lemma StillOnward(c: Chain)
    ensures Onward(c, c) && Steady(c, c)
  {
  }

  /* ---------- steady steps ---------- */

  /** The row waits for an answer to its decision, or for the wait to be taken up. */
  predicate Asks(row: IpOp) {
    Undecided(row) || WaitQueued(row)
  }

  predicate SteadyRow(row: IpOp, row': IpOp) {
    row'.apply == row.apply && (Asks(row') ==> Asks(row))
  }

  predicate Early(pc: InstallerPc) {
    pc.Entering? || pc.Waiting? || pc.Reached?
  }

  /** No decision is opened, no program begins to install and no deployment is marked. */
  ghost predicate Steady(c: Chain, c': Chain) {
    && (forall id | id in c.rows :: id in c'.rows && SteadyRow(c.rows[id], c'.rows[id]))
    && (forall id | id in c'.rows && id !in c.rows :: !Asks(c'.rows[id]))
    && (forall w | w in c'.installers :: w in c.installers && c'.installers[w].id == c.installers[w].id
                                         && (Early(c'.installers[w].pc) ==> Early(c.installers[w].pc)))
    && (forall id | id in c'.creators :: id in c.creators || id !in c.rows)
    && c'.past.repeated == c.past.repeated
  }

  lemma RowsAreOnward()
    ensures forall row: IpOp :: OnwardRow(row, row)
    ensures forall row: IpOp :: SteadyRow(row, row)
  {
  }

  /** A program before the confirmed box writes its row. */
  lemma TellIsOnward(c: Chain, id: nat, row: IpOp, k: Option<Creator>)
    requires Rotates(c, id)
    ensures OnwardRow(c.rows[id], row) && (k.Some? && k.value.pc.Ordering? ==> c.creators[id].pc.Ordering?)
        ==> Onward(c, Tell(c, id, row, k))
    ensures SteadyRow(c.rows[id], row) ==> Steady(c, Tell(c, id, row, k))
  {
    RowsAreOnward();
    hide OnwardRow, SteadyRow, UnderReview, Asks, IsClosing, IsDeploying, Early;
    SameInstallers(c, Tell(c, id, row, k));
  }

  lemma SameInstallers(c: Chain, c': Chain)
    requires c'.installers == c.installers
    ensures forall w, id | IsDeploying(c', w, id) :: IsDeploying(c, w, id)
    ensures forall w, id | IsClosing(c', w, id) :: IsClosing(c, w, id)
  {
  }

  /** A program that installs writes its row. */
  lemma ReportIsOnward(c: Chain, w: nat, row: IpOp, pc: Option<InstallerPc>)
    requires Provisions(c, w)
    ensures OnwardRow(RowOf(c, w), row) && (pc.Some? && (pc.value.Deploying? || pc.value.Closing?) ==> pc.value == c.installers[w].pc)
        ==> Onward(c, Report(c, w, row, pc))
    ensures SteadyRow(RowOf(c, w), row) && (pc.Some? && Early(pc.value) ==> Early(c.installers[w].pc))
        ==> Steady(c, Report(c, w, row, pc))
  {
    RowsAreOnward();
    hide OnwardRow, SteadyRow, UnderReview, Asks;
  }

  /** A cleanup saves its context. */
  lemma SavingIsOnward(c: Chain, id: nat, ctx: Context, pc: CleanerPc)
    requires CleansUp(c, id)
    ensures c.rows[id].ctx.results.Keys <= ctx.results.Keys && (pc.Marked? ==> pc == c.cleaners[id].pc)
        ==> Onward(c, SaveCleanup(c, id, ctx, pc))
    ensures Steady(c, SaveCleanup(c, id, ctx, pc))
  {
    RowsAreOnward();
    var row := c.rows[id];
    SavedIsOnward(row, ctx);
    hide OnwardRow, SteadyRow, UnderReview, Asks, IsClosing, IsDeploying, Early;
    SameInstallers(c, SaveCleanup(c, id, ctx, pc));
  }

  lemma SavedIsOnward(row: IpOp, ctx: Context)
    ensures row.ctx.results.Keys <= ctx.results.Keys ==> OnwardRow(row, row.(ctx := ctx))
    ensures SteadyRow(row, row.(ctx := ctx))
  {
  }

  /** The past but for what was sent and marked does not matter. */
  lemma PastIsOnward(c: Chain, c1: Chain, c': Chain)
    requires c' == c1.(past := c'.past, box := c'.box, ip := c'.ip, desired := c'.desired)
    ensures Steady(c, c1) && c'.past.repeated == c1.past.repeated ==> Steady(c, c')
    ensures Onward(c, c1) && c'.past.made == c1.past.made && c'.past.orders == c1.past.orders
            && c'.past.deployments == c1.past.deployments && c'.past.deletions == c1.past.deletions
            && c'.past.cleaned == c1.past.cleaned && c'.past.repeated == c1.past.repeated
        ==> Onward(c, c')
  {
    hide OnwardRow, SteadyRow, UnderReview, Asks, Early, IsClosing, IsDeploying;
    SameInstallers(c1, c');
  }

  /* ---------- decisions ---------- */

  lemma InterruptedIsOnward(row: IpOp)
    ensures OnwardRow(row, InterruptIp(row)) && InterruptIp(row).apply == row.apply
  {
  }

  lemma PutIsOnward(c: Chain, id: nat, row: IpOp)
    requires id in c.rows
    ensures OnwardRow(c.rows[id], row) ==> Onward(c, Put(c, id, row))
    ensures SteadyRow(c.rows[id], row) ==> Steady(c, Put(c, id, row))
  {
    RowsAreOnward();
    hide OnwardRow, SteadyRow, UnderReview, Asks, IsClosing, IsDeploying, Early;
    SameInstallers(c, Put(c, id, row));
  }

  lemma TakeOverIsOnward(c: Chain, taken: Option<nat>)
    ensures Onward(c, TakeOver(c, taken))
  {
    hide Onward, Steady, OnwardRow, InterruptIp;
    StillOnward(c);
    if taken.Some? && taken.value in c.rows {
      InterruptedIsOnward(c.rows[taken.value]);
      PutIsOnward(c, taken.value, InterruptIp(c.rows[taken.value]));
    }
  }

  lemma RetryIsOnward(c: Chain, id: Option<nat>)
    ensures Onward(c, Retry(c, id)) && Steady(c, Retry(c, id))
  {
    StillOnward(c);
    if id.Some? && id.value in c.rows {
      var row' := c.rows[id.value].(action := RETRY_REQUESTED);
      assert OnwardRow(c.rows[id.value], row') && SteadyRow(c.rows[id.value], row');
      hide Onward, Steady;
      PutIsOnward(c, id.value, row');
    }
  }

  lemma EnrolIsOnward(c: Chain, ssh: Option<nat>)
    requires c.nextId !in c.rows
    ensures Onward(c, Enrol(c, ssh)) && Steady(c, Enrol(c, ssh))
  {
    hide Abandoned, OnwardRow, SteadyRow, IsClosing, IsDeploying, Early;
    RowsAreOnward();
    SameInstallers(c, Enrol(c, ssh));
  }

  lemma SetStatusIsOnward(c: Chain, id: nat, status: Status, action: IpAction)
    requires id in c.rows && (action in {AWAITING_USER_REVIEW, CLEANUP_QUEUED} ==> UnderReview(c.rows[id]))
    ensures Onward(c, SetStatus(c, id, status, action))
    ensures !(status == DONE && action == SSH_UNREACHABLE) && !(status == PENDING && action == SSH_WAIT_QUEUED)
        ==> Steady(c, SetStatus(c, id, status, action))
  {
    hide Onward, Steady;
    var row' := c.rows[id].(status := status, action := action);
    assert OnwardRow(c.rows[id], row');
    PutIsOnward(c, id, row');
  }

  lemma LoadIsOnward(c: Chain, id: nat)
    requires Sound(c) && Rotates(c, id)
    ensures Onward(c, AfterLoad(c, id)) && Steady(c, AfterLoad(c, id))
  {
    hide Sound, RowOk, CreatorOk, Onward, Steady, Tell, Collection, ExternalActionStarted;
    OnlyProgram(c, id);
    StillOnward(c);
    var row, k := c.rows[id], c.creators[id];
    if AfterLoad(c, id) != c {
      TellIsOnward(c, id, row, None);
      TellIsOnward(c, id, row.(status := AMBIGUOUS, action := AMBIGUOUS_ACTION), None);
      TellIsOnward(c, id, row, Some(k.(pc := Checking)));
    }
  }

  lemma NoteIsOnward(c: Chain, id: nat, oldIp: string, oldIpId: string)
    requires Sound(c) && Rotates(c, id)
    ensures Onward(c, AfterNote(c, id, oldIp, oldIpId)) && Steady(c, AfterNote(c, id, oldIp, oldIpId))
  {
    hide Sound, RowOk, CreatorOk, Onward, Steady, Tell, Collection, ExternalActionStarted;
    OnlyProgram(c, id);
    StillOnward(c);
    var row, k := c.rows[id], c.creators[id];
    if AfterNote(c, id, oldIp, oldIpId) != c {
      TellIsOnward(c, id, row.(status := RUNNING, oldIp := oldIp, oldIpId := oldIpId), Some(k));
    }
  }

  lemma CollectIsOnward(c: Chain, id: nat)
    requires Sound(c) && Rotates(c, id)
    ensures Onward(c, AfterCollect(c, id)) && Steady(c, AfterCollect(c, id))
  {
    hide Sound, RowOk, CreatorOk, Onward, Steady, Tell, Collection, ExternalActionStarted;
    OnlyProgram(c, id);
    StillOnward(c);
    var row, k := c.rows[id], c.creators[id];
    if AfterCollect(c, id) != c {
      TellIsOnward(c, id, row, Some(k.(pc := Collected(row.ctx.retained + Collection(c, k)))));
    }
  }

  lemma SaveIsOnward(c: Chain, id: nat, marker: string, keyPath: string)
    requires Sound(c) && Rotates(c, id)
    ensures Onward(c, AfterSave(c, id, marker, keyPath)) && Steady(c, AfterSave(c, id, marker, keyPath))
  {
    hide Sound, RowOk, CreatorOk, Onward, Steady, Tell, Collection, ExternalActionStarted;
    OnlyProgram(c, id);
    StillOnward(c);
    var row, k := c.rows[id], c.creators[id];
    if AfterSave(c, id, marker, keyPath) != c {
      TellIsOnward(c, id, row.(ctx := Context(k.pc.kept, marker, keyPath, map[])), Some(k.(pc := Saved)));
    }
  }

  lemma RejectIsOnward(c: Chain, id: nat)
    requires Sound(c) && Rotates(c, id)
    ensures Onward(c, AfterReject(c, id)) && Steady(c, AfterReject(c, id))
  {
    hide Sound, RowOk, CreatorOk, Onward, Steady, Tell, Collection, ExternalActionStarted;
    OnlyProgram(c, id);
    StillOnward(c);
    var row, k := c.rows[id], c.creators[id];
    if AfterReject(c, id) != c {
      TellIsOnward(c, id, row.(purchase := P_REJECTED), Some(k.(pc := Rejected)));
    }
  }

  lemma AnswerIsOnward(c: Chain, id: nat)
    requires Sound(c) && Rotates(c, id)
    ensures Onward(c, AfterAnswer(c, id)) && Steady(c, AfterAnswer(c, id))
  {
    hide Sound, RowOk, CreatorOk, Onward, Steady, Tell, Collection, ExternalActionStarted;
    OnlyProgram(c, id);
    StillOnward(c);
    var row, k := c.rows[id], c.creators[id];
    if AfterAnswer(c, id) != c {
      TellIsOnward(c, id, row.(purchase := P_SENT, action := PURCHASE_SENT), Some(k.(pc := Identifying)));
    }
  }

  lemma IdentifyIsOnward(c: Chain, id: nat, name: string)
    requires Sound(c) && Rotates(c, id)
    ensures Onward(c, AfterIdentify(c, id, name)) && Steady(c, AfterIdentify(c, id, name))
  {
    hide Sound, RowOk, CreatorOk, Onward, Steady, Tell, Collection, ExternalActionStarted;
    OnlyProgram(c, id);
    StillOnward(c);
    var row, k := c.rows[id], c.creators[id];
    if AfterIdentify(c, id, name) != c {
      TellIsOnward(c, id, row.(newIpId := name), Some(k));
    }
  }

  lemma FailIsOnward(c: Chain, id: nat)
    requires Sound(c) && Rotates(c, id)
    ensures Onward(c, AfterFail(c, id)) && Steady(c, AfterFail(c, id))
  {
    hide Sound, RowOk, CreatorOk, Onward, Steady, Tell, Collection, ExternalActionStarted;
    OnlyProgram(c, id);
    StillOnward(c);
    var row, k := c.rows[id], c.creators[id];
    if AfterFail(c, id) != c {
      TellIsOnward(c, id, row.(status := AMBIGUOUS, action := AMBIGUOUS_ACTION), None);
      TellIsOnward(c, id, row.(status := FAILURE, action := FAILED_ACTION), None);
    }
  }

  lemma ClaimIsSteady(c: Chain, id: nat)
    requires Sound(c) && Rotates(c, id)
    ensures Steady(c, AfterClaim(c, id))
  {
    hide Sound, Onward, Steady, Tell;
    StillOnward(c);
    var row, k := c.rows[id], c.creators[id];
    if AfterClaim(c, id) != c {
      TellIsOnward(c, id, row, None);
      TellIsOnward(c, id, row.(purchase := P_SENDING, action := PURCHASE_SENDING), Some(k.(pc := Ordering)));
    }
  }

  lemma OrderIsSteady(c: Chain, id: nat, effect: Option<string>, reply: Reply)
    requires Sound(c) && Rotates(c, id)
    ensures Steady(c, AfterOrder(c, id, effect, reply))
  {
    StillOnward(c);
    var k, c' := c.creators[id], AfterOrder(c, id, effect, reply);
    hide Sound, Onward, Steady, Tell;
    if c' != c {
      var pc := if reply.Told? then Answered else if reply.NoReply? then Lost else Refused;
      TellIsOnward(c, id, c.rows[id], Some(k.(pc := pc)));
      PastIsOnward(c, Tell(c, id, c.rows[id], Some(k.(pc := pc))), c');
    }
  }

  lemma ConfirmIsOnward(c: Chain, id: nat, name: string, ip: string, w: nat)
    requires Sound(c) && Rotates(c, id)
    ensures Onward(c, AfterConfirm(c, id, name, ip, w))
  {
    OnlyProgram(c, id);
    StillOnward(c);
    var row := c.rows[id].(newIpId := name, newIp := ip, purchase := P_CONFIRMED);
    assert OnwardRow(c.rows[id], row);
    hide Sound, OnwardRow, RowOk, CreatorOk, Tell, Onward;
    TellIsOnward(c, id, row, None);
    InstallerEnters(c, Tell(c, id, row, None), w, Installer(id, name, ip, Entering));
    ToldRow(c, id, row, None);
  }

  lemma InstallerEnters(c: Chain, c1: Chain, w: nat, k: Installer)
    requires Onward(c, c1) && k.pc.Entering?
    ensures Onward(c, c1.(installers := c1.installers[w := k]))
  {
    hide OnwardRow, UnderReview;
  }

  lemma CleanerLeaves(c: Chain, c1: Chain, id: nat)
    requires Onward(c, c1) && Steady(c, c1)
    ensures Onward(c, c1.(cleaners := c1.cleaners - {id})) && Steady(c, c1.(cleaners := c1.cleaners - {id}))
  {
    hide OnwardRow, SteadyRow, UnderReview, Asks, IsClosing, IsDeploying, Early;
    SameInstallers(c1, c1.(cleaners := c1.cleaners - {id}));
  }

  lemma EnterIsOnward(c: Chain, w: nat)
    requires Sound(c) && Provisions(c, w)
    ensures Onward(c, AfterEnter(c, w)) && Steady(c, AfterEnter(c, w))
  {
    hide Sound, Onward, Steady, Report;
    InstallerFits(c, w);
    StillOnward(c);
    var row, k := RowOf(c, w), c.installers[w];
    if AfterEnter(c, w) != c {
      ReportIsOnward(c, w, row.(status := RUNNING, action := WAITING_SSH), Some(Waiting));
    }
  }

  lemma UnreachableIsOnward(c: Chain, w: nat)
    requires Sound(c) && Provisions(c, w)
    ensures Onward(c, AfterUnreachable(c, w))
  {
    hide Sound, Onward, Steady, Report;
    InstallerFits(c, w);
    StillOnward(c);
    var row, k := RowOf(c, w), c.installers[w];
    if AfterUnreachable(c, w) != c {
      ReportIsOnward(c, w, row.(status := DONE, action := SSH_UNREACHABLE), None);
    }
  }

  lemma ReachIsOnward(c: Chain, w: nat)
    requires Sound(c) && Provisions(c, w)
    ensures Onward(c, AfterReach(c, w)) && Steady(c, AfterReach(c, w))
  {
    hide Sound, Onward, Steady, Report;
    InstallerFits(c, w);
    StillOnward(c);
    var row, k := RowOf(c, w), c.installers[w];
    if AfterReach(c, w) != c {
      ReportIsOnward(c, w, row, Some(Reached));
    }
  }

  lemma DeployIsSteady(c: Chain, w: nat)
    requires Sound(c) && Provisions(c, w)
    ensures Steady(c, AfterDeploy(c, w))
  {
    InstallerFits(c, w);
    StillOnward(c);
    var row, k := RowOf(c, w), c.installers[w];
    hide Sound, Onward, Steady, Report;
    if AfterDeploy(c, w) != c {
      ReportIsOnward(c, w, row, Some(Deployed));
      PastIsOnward(c, Report(c, w, row, Some(Deployed)), AfterDeploy(c, w));
    }
  }

  lemma NoteInstallIsOnward(c: Chain, w: nat)
    requires Sound(c) && Provisions(c, w)
    ensures Onward(c, AfterNoteInstall(c, w))
  {
    hide Sound, Onward, Steady, Report;
    InstallerFits(c, w);
    StillOnward(c);
    var row, k := RowOf(c, w), c.installers[w];
    if AfterNoteInstall(c, w) != c {
      ReportIsOnward(c, w, if k.pc.Deployed? then row.(status := RUNNING, apply := A_RUNNING) else row.(status := RUNNING), Some(k.pc));
    }
  }

  lemma AppliedIsOnward(c: Chain, w: nat)
    requires Sound(c) && Provisions(c, w)
    ensures Onward(c, AfterApplied(c, w))
  {
    hide Sound, Onward, Steady, Report;
    InstallerFits(c, w);
    StillOnward(c);
    var row, k := RowOf(c, w), c.installers[w];
    if AfterApplied(c, w) != c {
      ReportIsOnward(c, w, row.(apply := A_APPLIED), Some(Publishing));
    }
  }

  lemma PublishIsSteady(c: Chain, w: nat)
    requires Sound(c) && Provisions(c, w)
    ensures Steady(c, AfterPublish(c, w))
  {
    InstallerFits(c, w);
    StillOnward(c);
    var row, k := RowOf(c, w), c.installers[w];
    hide Sound, Onward, Steady, Report;
    if AfterPublish(c, w) != c {
      ReportIsOnward(c, w, PublishedRow(row, ""), Some(Closing));
      PastIsOnward(c, Report(c, w, PublishedRow(row, ""), Some(Closing)), AfterPublish(c, w));
    }
  }

  lemma CloseIsSteady(c: Chain, w: nat)
    requires Sound(c) && Provisions(c, w)
    ensures Steady(c, AfterClose(c, w))
  {
    hide Sound, Onward, Steady, Report;
    InstallerFits(c, w);
    StillOnward(c);
    var row, k := RowOf(c, w), c.installers[w];
    if AfterClose(c, w) != c {
      ReportIsOnward(c, w, row.(status := DONE, action := AWAITING_USER_REVIEW), None);
    }
  }

  lemma BreakIsOnward(c: Chain, w: nat)
    requires Sound(c) && Provisions(c, w)
    ensures Onward(c, AfterBreak(c, w)) && Steady(c, AfterBreak(c, w))
  {
    hide Sound, Onward, Steady, Report;
    InstallerFits(c, w);
    StillOnward(c);
    var row, k := RowOf(c, w), c.installers[w];
    if AfterBreak(c, w) != c {
      ReportIsOnward(c, w, row.(status := AMBIGUOUS, action := AMBIGUOUS_ACTION), None);
    }
  }

  lemma ChooseIsOnward(c: Chain, id: nat, name: string)
    requires Sound(c) && CleansUp(c, id)
    ensures Onward(c, AfterChoose(c, id, name)) && Steady(c, AfterChoose(c, id, name))
  {
    hide Sound, Onward, Steady, SaveCleanup, Target, MayRecord, Carried, RowOk;
    CleanerFits(c, id);
    StillOnward(c);
    var k := c.cleaners[id];
    if AfterChoose(c, id, name) != c {
      SavingIsOnward(c, id, k.ctx, Chosen(name));
    }
  }

  lemma MarkDeleteIsSteady(c: Chain, id: nat)
    requires Sound(c) && CleansUp(c, id)
    ensures Steady(c, AfterMarkDelete(c, id))
  {
    hide Sound, Onward, Steady, SaveCleanup, Target, MayRecord, Carried, RowOk;
    CleanerFits(c, id);
    StillOnward(c);
    var k := c.cleaners[id];
    if AfterMarkDelete(c, id) != c {
      SavingIsOnward(c, id, k.ctx.(results := k.ctx.results[k.pc.name := D_SENDING]), Marked(k.pc.name));
    }
  }

  lemma AskIsSteady(c: Chain, id: nat)
    requires Sound(c) && CleansUp(c, id)
    ensures Steady(c, AfterAsk(c, id))
  {
    CleanerFits(c, id);
    StillOnward(c);
    var k := c.cleaners[id];
    hide Sound, Onward, Steady, SaveCleanup, Target, MayRecord, Carried, RowOk;
    if AfterAsk(c, id) != c {
      SavingIsOnward(c, id, k.ctx, Asked(k.pc.name));
      PastIsOnward(c, SaveCleanup(c, id, k.ctx, Asked(k.pc.name)), AfterAsk(c, id));
    }
  }

  lemma MarkSentIsOnward(c: Chain, id: nat)
    requires Sound(c) && CleansUp(c, id)
    ensures Onward(c, AfterMarkSent(c, id)) && Steady(c, AfterMarkSent(c, id))
  {
    hide Sound, Onward, Steady, SaveCleanup, Target, MayRecord, Carried, RowOk;
    CleanerFits(c, id);
    StillOnward(c);
    var k := c.cleaners[id];
    if AfterMarkSent(c, id) != c {
      SavingIsOnward(c, id, k.ctx.(results := k.ctx.results[k.pc.name := D_SENT]), k.pc);
    }
  }

  lemma RecordIsOnward(c: Chain, id: nat, name: string, result: Deletion)
    requires Sound(c) && CleansUp(c, id)
    ensures Onward(c, AfterRecord(c, id, name, result)) && Steady(c, AfterRecord(c, id, name, result))
  {
    CleanerFits(c, id);
    StillOnward(c);
    var k := c.cleaners[id];
    hide Sound, Onward, Steady, SaveCleanup, MayRecord, Carried, RowOk;
    var ctx := k.ctx.(results := k.ctx.results[name := result]);
    SavingIsOnward(c, id, ctx, Choosing);
    if AfterRecord(c, id, name, result) != c && IsGone(result) {
      var removed := ctx.(retained := ctx.retained - {name});
      SavingIsOnward(c, id, removed, Choosing);
      PastIsOnward(c, SaveCleanup(c, id, removed, Choosing), AfterRecord(c, id, name, result));
    }
  }

  lemma NoteCleanupIsOnward(c: Chain, id: nat)
    requires Sound(c) && CleansUp(c, id)
    ensures Onward(c, AfterNoteCleanup(c, id)) && Steady(c, AfterNoteCleanup(c, id))
  {
    hide Onward, Steady;
    var row := c.rows[id].(status := RUNNING);
    assert OnwardRow(c.rows[id], row) && SteadyRow(c.rows[id], row);
    PutIsOnward(c, id, row);
  }

  lemma EndCleanupIsOnward(c: Chain, id: nat, action: IpAction)
    requires Sound(c) && CleansUp(c, id)
    ensures Onward(c, AfterEndCleanup(c, id, action)) && Steady(c, AfterEndCleanup(c, id, action))
  {
    var c' := AfterEndCleanup(c, id, action);
    StillOnward(c);
    if c' != c {
      var row := c.rows[id].(status := DONE, action := action);
      assert OnwardRow(c.rows[id], row) && SteadyRow(c.rows[id], row);
      PutIsOnward(c, id, row);
      hide Onward, Steady, OnwardRow, SteadyRow, UnderReview, Asks, Sound;
      CleanerLeaves(c, Put(c, id, row), id);
    }
  }

  lemma OtherIsOnward(c: Chain, s: Step)
    ensures Onward(c, NextOther(c, s)) && (!s.Interrupt? ==> Steady(c, NextOther(c, s)))
  {
    hide TakeOver, Onward, Steady;
    StillOnward(c);
    match s
    case Interrupt(id) => TakeOverIsOnward(c, Some(id));
    case Reconcile(id) => ReconcileIsOnward(c, id);
    case LoseCleaner(id) => CleanerLeaves(c, c, id);
    case _ => EndingIsOnward(c, s);
  }

  lemma ReconcileIsOnward(c: Chain, id: nat)
    ensures id in c.rows ==> var c' := Put(c, id, c.rows[id].(action := Tables.RECONCILED)); Onward(c, c') && Steady(c, c')
  {
    if id in c.rows {
      var row := c.rows[id].(action := Tables.RECONCILED);
      assert OnwardRow(c.rows[id], row) && SteadyRow(c.rows[id], row);
      hide Onward, Steady;
      PutIsOnward(c, id, row);
    }
  }

  lemma EndingIsOnward(c: Chain, s: Step)
    requires !s.Interrupt? && !s.Reconcile? && !s.LoseCleaner?
    ensures Onward(c, NextOther(c, s)) && Steady(c, NextOther(c, s))
  {
    RowsAreOnward();
    hide OnwardRow, SteadyRow, UnderReview, Asks, Early, TakeOver;
  }
}
