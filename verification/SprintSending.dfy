/** The steps of a SprintBOX chain that send something or come closer to it, and what every run sends. */
module SprintSending {
  import opened Base
  import opened Tables
  import opened OperationRows
  import opened SprintChain
  import opened SprintPrograms
  import opened SprintConservation
  import opened SprintRuns
  import opened SprintRequests

  /* ---------- ordering ---------- */

  /** The claim is won: nothing was ordered before. */
  lemma ClaimKeeps(c: Chain, id: nat)
    requires Sound(c) && Requests(c) && Rotates(c, id)
    ensures Requests(AfterClaim(c, id))
  {
    hide Requests, Sound, Tell, Onward, Steady;
    var row, k := c.rows[id], c.creators[id];
    if k.pc.Saved? {
      if row.purchase == P_NOT_STARTED && row.status.RUNNING? {
        ClaimWins(c, id);
      } else {
        RowsAreOnward();
        TellIsOnward(c, id, row, None);
        hide OnwardRow;
        OnwardKeeps(c, Tell(c, id, row, None));
      }
    }
  }

  lemma ClaimWins(c: Chain, id: nat)
    requires Sound(c) && Requests(c) && Rotates(c, id) && c.rows[id].purchase == P_NOT_STARTED
    ensures var row' := c.rows[id].(purchase := P_SENDING, action := PURCHASE_SENDING);
            Requests(Tell(c, id, row', Some(c.creators[id].(pc := Ordering))))
  {
    var row, k := c.rows[id], c.creators[id].(pc := Ordering);
    var row' := row.(purchase := P_SENDING, action := PURCHASE_SENDING);
    OnlyProgram(c, id);
    UnspentIsUnordered(c, id);
    assert OnwardRow(row, row');
    hide Requests, Sound, Tell, Onward, Steady, OnwardRow, RowOk, CreatorOk;
    TellIsOnward(c, id, row', None);
    OnwardKeeps(c, Tell(c, id, row', None));
    ToldAgain(c, id, row', k);
    OrderingBegins(Tell(c, id, row', None), id, k);
  }

  lemma ToldAgain(c: Chain, id: nat, row: IpOp, k: Creator)
    ensures var c1 := Tell(c, id, row, None);
            Tell(c, id, row, Some(k)) == c1.(creators := c1.creators[id := k]) && c1.past == c.past
  {
    assert (c.creators - {id})[id := k] == c.creators[id := k];
  }

  lemma UnspentIsUnordered(c: Chain, id: nat)
    requires Requests(c) && !Spent(c, id)
    ensures id !in c.past.orders
  {
  }

  lemma OrderingBegins(c: Chain, id: nat, k: Creator)
    requires Requests(c) && id !in c.past.orders
    ensures Requests(c.(creators := c.creators[id := k]))
  {
    hide DeletionsOk, DeploymentsOk, ReviewsOk;
    var c' := c.(creators := c.creators[id := k]);
    forall i | 0 <= i < |c'.past.orders| ensures Spent(c', c'.past.orders[i]) {
      assert Spent(c, c.past.orders[i]);
    }
    SameInstallers(c, c');
    SameInstallers(c', c);
    OtherRequestsStay(c, c');
  }

  lemma OtherRequestsStay(c: Chain, c': Chain)
    requires c' == c.(creators := c'.creators, past := c'.past)
    requires c'.past == c.past.(orders := c'.past.orders, made := c'.past.made)
    requires forall n | n in c.past.made :: n in c'.past.made && c'.past.made[n] == c.past.made[n]
    ensures DeletionsOk(c) ==> DeletionsOk(c')
    ensures DeploymentsOk(c) ==> DeploymentsOk(c')
    ensures ReviewsOk(c) ==> ReviewsOk(c')
  {
    assert forall d: (nat, string) :: DeletionOk(c, d) ==> DeletionOk(c', d);
    assert forall w, id :: IsDeploying(c', w, id) == IsDeploying(c, w, id) && IsClosing(c', w, id) == IsClosing(c, w, id);
    assert forall id :: Installed(c', id) == Installed(c, id);
    hide DeletionOk, IsDeploying, IsClosing, Installed, UnderReview;
  }

  /** The order is sent: its program leaves the place it was sent from. */
  lemma OrderKeeps(c: Chain, id: nat, effect: Option<string>, reply: Reply)
    requires Sound(c) && Requests(c) && Rotates(c, id) && (effect.Some? ==> effect.value !in c.past.made)
    ensures Requests(AfterOrder(c, id, effect, reply))
  {
    hide Requests, Sound, Tell, Onward, Spent;
    var k := c.creators[id];
    if k.pc.Ordering? {
      OrderingIsUnspent(c, id);
      var pc := if reply.Told? then Answered else if reply.NoReply? then Lost else Refused;
      UnspentIsUnordered(c, id);
      OrderLeaves(c, id, k.(pc := pc));
      OrderSent(Tell(c, id, c.rows[id], Some(k.(pc := pc))), AfterOrder(c, id, effect, reply), id);
    }
  }

  lemma OrderingIsUnspent(c: Chain, id: nat)
    requires Rotates(c, id) && c.creators[id].pc.Ordering?
    ensures !Spent(c, id)
  {
  }

  lemma OrderLeaves(c: Chain, id: nat, k: Creator)
    requires Sound(c) && Requests(c) && Rotates(c, id) && c.creators[id].pc.Ordering? && !k.pc.Ordering?
    ensures var c1 := Tell(c, id, c.rows[id], Some(k)); Requests(c1) && Spent(c1, id) && c1.past == c.past
  {
    hide Requests, Sound, Onward, Steady, OnwardRow, RowOk;
    OnlyProgram(c, id);
    RowsAreOnward();
    TellIsOnward(c, id, c.rows[id], Some(k));
    OnwardKeeps(c, Tell(c, id, c.rows[id], Some(k)));
  }

  lemma OrderSent(c: Chain, c': Chain, id: nat)
    requires Requests(c) && id !in c.past.orders && Spent(c, id)
    requires c' == c.(past := c.past.(orders := c.past.orders + [id], made := c'.past.made))
    requires forall n | n in c.past.made :: n in c'.past.made && c'.past.made[n] == c.past.made[n]
    ensures Requests(c')
  {
    forall i | 0 <= i < |c'.past.orders| ensures Spent(c', c'.past.orders[i]) {
      if i < |c.past.orders| {
        assert Spent(c, c.past.orders[i]);
      }
    }
    OtherRequestsStay(c, c');
    hide DeletionsOk, DeploymentsOk, ReviewsOk, Spent;
  }

  /* ---------- installing ---------- */

  lemma MarkDeployKeeps(c: Chain, w: nat)
    requires Sound(c) && Requests(c) && Provisions(c, w)
    ensures Requests(AfterMarkDeploy(c, w))
  {
    var row, k, c' := RowOf(c, w), c.installers[w], AfterMarkDeploy(c, w);
    if c' != c {
      var row' := row.(status := RUNNING, action := APPLYING, apply := A_RUNNING);
      if row.apply == A_NOT_STARTED {
        MarkedOnce(c, w);
      }
      ReportedFirst(c, w, row', Deploying);
      hide Requests, Sound, Onward, Report;
      DeployingBegins(Report(c, w, row', None), c', w, k.(pc := Deploying));
    }
  }

  /** Writing the row first, and then going on. */
  lemma ReportedFirst(c: Chain, w: nat, row: IpOp, pc: InstallerPc)
    requires Sound(c) && Requests(c) && Provisions(c, w) && OnwardRow(RowOf(c, w), row)
    ensures var k, c1 := c.installers[w].(pc := pc), Report(c, w, row, None);
            && Requests(c1) && Report(c, w, row, Some(pc)) == c1.(installers := c1.installers[w := k])
            && w !in c1.installers && c1.past == c.past && k.id in c1.rows && c1.rows[k.id] == row
            && (forall v, id | IsClosing(c1, v, id) :: IsClosing(c, v, id))
            && (forall v, id | IsDeploying(c1, v, id) :: IsDeploying(c, v, id))
  {
    hide Requests, Sound, Onward, Steady, OnwardRow;
    ReportIsOnward(c, w, row, None);
    assert (c.installers - {w})[w := c.installers[w].(pc := pc)] == c.installers[w := c.installers[w].(pc := pc)];
    OnwardKeeps(c, Report(c, w, row, None));
  }

  /** A row that is marked for the first time has no deployment and nobody else about to send one. */
  lemma MarkedOnce(c: Chain, w: nat)
    requires Sound(c) && Requests(c) && Provisions(c, w) && RowOf(c, w).apply == A_NOT_STARTED
    ensures var id := c.installers[w].id; id !in c.past.deployments && forall v :: !IsDeploying(c, v, id)
  {
    var id := c.installers[w].id;
    assert id in c.past.deployments ==> Installed(c, id);
    forall v ensures !IsDeploying(c, v, id) {
      if IsDeploying(c, v, id) {
        InstallerFits(c, v);
      }
    }
  }

  lemma DeployingBegins(c: Chain, c': Chain, w: nat, k: Installer)
    requires Requests(c) && w !in c.installers && k.pc.Deploying?
    requires c' == c.(installers := c.installers[w := k], past := c'.past)
    requires c'.past == c.past.(repeated := c'.past.repeated) && c.past.repeated <= c'.past.repeated
    requires k.id in c'.past.repeated || (k.id !in c.past.deployments && forall v :: !IsDeploying(c, v, k.id))
    ensures Requests(c')
  {
    forall v, id ensures IsClosing(c', v, id) == IsClosing(c, v, id) {
    }
    forall v, id ensures IsDeploying(c', v, id) == (IsDeploying(c, v, id) || (v == w && id == k.id)) {
    }
    assert forall id :: Installed(c', id) == Installed(c, id) && Spent(c', id) == Spent(c, id);
    assert forall d: (nat, string) :: DeletionOk(c', d) == DeletionOk(c, d);
    hide IsClosing, IsDeploying, Installed, Spent, DeletionOk, UnderReview;
  }

  lemma DeployKeeps(c: Chain, w: nat)
    requires Sound(c) && Requests(c) && Provisions(c, w)
    ensures Requests(AfterDeploy(c, w))
  {
    hide Requests, Sound, Onward, Steady, OnwardRow, IsDeploying;
    if c.installers[w].pc.Deploying? {
      var row, id := RowOf(c, w), c.installers[w].id;
      var c1 := Report(c, w, row, Some(Deployed));
      RowsAreOnward();
      ReportIsOnward(c, w, row, Some(Deployed));
      OnwardKeeps(c, c1);
      DeployedAlone(c, w);
      hide Report;
      DeploymentSent(c1, AfterDeploy(c, w), id);
    }
  }

  /** Nobody else is about to send a deployment of the operation. */
  lemma DeployedAlone(c: Chain, w: nat)
    requires Sound(c) && Requests(c) && Provisions(c, w) && c.installers[w].pc.Deploying?
    ensures var id, c1 := c.installers[w].id, Report(c, w, RowOf(c, w), Some(Deployed));
            && Installed(c1, id) && c1.past == c.past
            && (id in c.past.repeated || (id !in c.past.deployments && forall v :: !IsDeploying(c1, v, id)))
  {
    hide Requests, Sound, RowOk;
    DeployingAlone(c, w);
    InstallerFits(c, w);
    var id, c1 := c.installers[w].id, Report(c, w, RowOf(c, w), Some(Deployed));
    forall v ensures id in c.past.repeated || !IsDeploying(c1, v, id) {
      assert v != w ==> IsDeploying(c1, v, id) == IsDeploying(c, v, id);
    }
  }

  lemma DeployingAlone(c: Chain, w: nat)
    requires Requests(c) && Provisions(c, w) && c.installers[w].pc.Deploying?
    ensures var id := c.installers[w].id;
            id in c.past.repeated || (id !in c.past.deployments && forall v | IsDeploying(c, v, id) :: v == w)
  {
    assert IsDeploying(c, w, c.installers[w].id);
  }

  lemma DeploymentSent(c: Chain, c': Chain, id: nat)
    requires Requests(c) && Installed(c, id) && c' == c.(past := c.past.(deployments := c.past.deployments + [id]))
    requires id in c.past.repeated || (id !in c.past.deployments && forall v :: !IsDeploying(c, v, id))
    ensures Requests(c')
  {
    assert forall v, x :: IsClosing(c', v, x) == IsClosing(c, v, x) && IsDeploying(c', v, x) == IsDeploying(c, v, x);
    assert forall x :: Installed(c', x) == Installed(c, x) && Spent(c', x) == Spent(c, x);
    assert forall d: (nat, string) :: DeletionOk(c', d) == DeletionOk(c, d);
    hide IsClosing, IsDeploying, Installed, Spent, DeletionOk, UnderReview;
    forall i | 0 <= i < |c'.past.deployments| ensures Installed(c', c'.past.deployments[i]) {
      if i < |c.past.deployments| {
        assert Installed(c, c.past.deployments[i]);
      }
    }
  }

  /* ---------- publishing and reviewing ---------- */

  lemma PublishKeeps(c: Chain, w: nat)
    requires Sound(c) && Requests(c) && Provisions(c, w)
    ensures Requests(AfterPublish(c, w))
  {
    var row, k, c' := RowOf(c, w), c.installers[w], AfterPublish(c, w);
    if c' != c {
      InstallerFits(c, w);
      var row' := PublishedRow(row, "");
      assert OnwardRow(row, row') && !UnderReview(row');
      FirstPublication(c, w);
      hide Requests, Sound, OnwardRow, UnderReview, RowOk, InstallerOk;
      ReportedFirst(c, w, row', Closing);
      hide Report, IsClosing, IsDeploying;
      ClosingBegins(Report(c, w, row', None), c', w, k.(pc := Closing));
    }
  }

  lemma FirstPublication(c: Chain, w: nat)
    requires Sound(c) && Requests(c) && Provisions(c, w) && RowOf(c, w).revision == c.desired
    ensures var id := c.installers[w].id; id !in c.past.cleaned && forall v :: !IsClosing(c, v, id)
  {
    var id := c.installers[w].id;
    InstallerFits(c, w);
    assert RowOf(c, w).published.None?;
    forall v ensures !IsClosing(c, v, id) {
      if IsClosing(c, v, id) {
        InstallerFits(c, v);
      }
    }
  }

  lemma ClosingBegins(c: Chain, c': Chain, w: nat, k: Installer)
    requires Requests(c) && w !in c.installers && k.pc.Closing?
    requires k.id in c.rows && !UnderReview(c.rows[k.id]) && k.id !in c.past.cleaned && forall v :: !IsClosing(c, v, k.id)
    requires c' == c.(installers := c.installers[w := k], box := c'.box, ip := c'.ip, desired := c'.desired, past := c'.past)
    requires c'.past == c.past.(publisher := c'.past.publisher)
    ensures Requests(c')
  {
    forall v, id ensures IsDeploying(c', v, id) == IsDeploying(c, v, id) {
    }
    forall v, id ensures IsClosing(c', v, id) == (IsClosing(c, v, id) || (v == w && id == k.id)) {
    }
    assert forall id :: Installed(c', id) == Installed(c, id) && Spent(c', id) == Spent(c, id);
    assert forall d: (nat, string) :: DeletionOk(c', d) == DeletionOk(c, d);
    hide IsClosing, IsDeploying, Installed, Spent, DeletionOk, UnderReview;
  }

  lemma CloseKeeps(c: Chain, w: nat)
    requires Sound(c) && Requests(c) && Provisions(c, w)
    ensures Requests(AfterClose(c, w))
  {
    var row, k := RowOf(c, w), c.installers[w];
    hide Requests, Sound, OnwardRow, Report, IsClosing;
    if k.pc.Closing? {
      var row1 := row.(status := DONE, action := PUBLISHED);
      ClosedRow(row);
      ClosingAlone(c, w);
      ReportedFirst(c, w, row1, Closing);
      NoneCloses(c, w, row1);
      ReportedAgain(c, w, row1, row.(status := DONE, action := AWAITING_USER_REVIEW));
      ReviewOpens(Report(c, w, row1, None), k.id);
    }
  }

  lemma ClosedRow(row: IpOp)
    ensures OnwardRow(row, row.(status := DONE, action := PUBLISHED))
  {
  }

  lemma NoneCloses(c: Chain, w: nat, row: IpOp)
    requires Provisions(c, w) && forall v | IsClosing(c, v, c.installers[w].id) :: v == w
    ensures forall v :: !IsClosing(Report(c, w, row, None), v, c.installers[w].id)
  {
    forall v ensures !IsClosing(Report(c, w, row, None), v, c.installers[w].id) {
      assert IsClosing(Report(c, w, row, None), v, c.installers[w].id) ==> IsClosing(c, v, c.installers[w].id);
    }
  }

  lemma ReportedAgain(c: Chain, w: nat, row: IpOp, row': IpOp)
    requires Provisions(c, w)
    ensures Put(Report(c, w, row, None), c.installers[w].id, row') == Report(c, w, row', None)
  {
    assert c.rows[c.installers[w].id := row][c.installers[w].id := row'] == c.rows[c.installers[w].id := row'];
  }

  lemma ClosingAlone(c: Chain, w: nat)
    requires Requests(c) && Provisions(c, w) && c.installers[w].pc.Closing?
    ensures var id := c.installers[w].id; id !in c.past.cleaned && forall v | IsClosing(c, v, id) :: v == w
  {
    assert IsClosing(c, w, c.installers[w].id);
  }

  lemma ReviewOpens(c: Chain, id: nat)
    requires Requests(c) && id in c.rows && id !in c.past.cleaned && forall v :: !IsClosing(c, v, id)
    ensures Requests(Put(c, id, c.rows[id].(action := AWAITING_USER_REVIEW)))
  {
    var c' := Put(c, id, c.rows[id].(action := AWAITING_USER_REVIEW));
    hide IsClosing, IsDeploying, Installed, Spent, DeletionOk, UnderReview;
    SameInstallers(c, c');
    SameInstallers(c', c);
    ReviewedRow(c, id);
  }

  lemma ReviewedRow(c: Chain, id: nat)
    requires id in c.rows
    ensures var c' := Put(c, id, c.rows[id].(action := AWAITING_USER_REVIEW));
            && (forall x :: Installed(c', x) == Installed(c, x) && Spent(c', x) == Spent(c, x))
            && (forall d: (nat, string) :: DeletionOk(c', d) == DeletionOk(c, d))
  {
  }

  /* ---------- cleaning up ---------- */

  lemma TakeCleanupKeeps(c: Chain, id: nat)
    requires Sound(c) && Requests(c)
    ensures Requests(AfterTakeCleanup(c, id))
  {
    var c' := AfterTakeCleanup(c, id);
    if c' != c {
      CleanupTaken(c, id);
      hide Requests, Sound, SetStatus, UnderReview, IsClosing;
      CleanupBegins(SetStatus(c, id, RUNNING, CLEANUP_RUNNING), c', id, Cleaner(c.rows[id].ctx, Choosing));
    }
  }

  lemma CleanupTaken(c: Chain, id: nat)
    requires Sound(c) && Requests(c) && id in c.rows && c.rows[id].action.CLEANUP_QUEUED?
    ensures var c1 := SetStatus(c, id, RUNNING, CLEANUP_RUNNING);
            && Requests(c1) && c1.past == c.past && id in c1.rows && !UnderReview(c1.rows[id]) && c1.rows[id].published.Some?
            && c1.cleaners == c.cleaners && forall v :: !IsClosing(c1, v, id)
  {
    hide Requests, Sound, Onward, Steady, RowOk, IsClosing, UnderReview;
    var c1 := SetStatus(c, id, RUNNING, CLEANUP_RUNNING);
    ReviewIsFree(c, id);
    ReviewEnds(c.rows[id]);
    SetStatusIsOnward(c, id, RUNNING, CLEANUP_RUNNING);
    RowIsOk(c, id);
    RowGives(c.desired, c.rows[id]);
    OnwardKeeps(c, c1);
    SameInstallers(c, c1);
  }

  lemma ReviewEnds(row: IpOp)
    requires row.action.CLEANUP_QUEUED?
    ensures UnderReview(row) && !UnderReview(row.(status := RUNNING, action := CLEANUP_RUNNING))
  {
  }

  lemma ReviewIsFree(c: Chain, id: nat)
    requires Requests(c) && id in c.rows && c.rows[id].action.CLEANUP_QUEUED?
    ensures forall v :: !IsClosing(c, v, id)
  {
    hide OrdersOk, DeletionsOk, DeploymentsOk, IsClosing;
    assert UnderReview(c.rows[id]);
  }

  lemma CleanupBegins(c: Chain, c': Chain, id: nat, k: Cleaner)
    requires Requests(c) && id in c.rows && !UnderReview(c.rows[id]) && c.rows[id].published.Some? && k.pc.Choosing?
    requires forall v :: !IsClosing(c, v, id)
    requires c' == c.(cleaners := c.cleaners[id := k], past := c.past.(cleaned := c.past.cleaned + {id}))
    ensures Requests(c')
  {
    assert forall v, x :: IsClosing(c', v, x) == IsClosing(c, v, x) && IsDeploying(c', v, x) == IsDeploying(c, v, x);
    assert forall x :: Installed(c', x) == Installed(c, x) && Spent(c', x) == Spent(c, x);
    assert forall d: (nat, string) :: DeletionOk(c', d) == DeletionOk(c, d);
    hide IsClosing, IsDeploying, Installed, Spent, DeletionOk, UnderReview;
  }

  lemma MarkDeleteKeeps(c: Chain, id: nat)
    requires Sound(c) && Requests(c) && CleansUp(c, id)
    ensures Requests(AfterMarkDelete(c, id))
  {
    var k, c' := c.cleaners[id], AfterMarkDelete(c, id);
    if c' != c {
      var ctx := k.ctx.(results := k.ctx.results[k.pc.name := D_SENDING]);
      UntriedIsUnsent(c, id, k.pc.name);
      SavedFirst(c, id, ctx, Marked(k.pc.name));
      hide Requests, Sound, SaveCleanup;
      MarkingEnds(SaveCleanup(c, id, ctx, Choosing), id, Cleaner(ctx, Marked(k.pc.name)));
    }
  }

  lemma UntriedIsUnsent(c: Chain, id: nat, name: string)
    requires Sound(c) && Requests(c) && CleansUp(c, id) && name !in c.cleaners[id].ctx.results
    ensures (id, name) !in c.past.deletions
  {
    CleanerFits(c, id);
    assert (id, name) in c.past.deletions ==> DeletionOk(c, (id, name));
  }

  lemma SavedFirst(c: Chain, id: nat, ctx: Context, pc: CleanerPc)
    requires Sound(c) && Requests(c) && CleansUp(c, id) && c.cleaners[id].ctx.results.Keys <= ctx.results.Keys
    ensures var c1 := SaveCleanup(c, id, ctx, Choosing);
            && Requests(c1) && c1.past == c.past && id in c1.cleaners
            && SaveCleanup(c, id, ctx, pc) == c1.(cleaners := c1.cleaners[id := Cleaner(ctx, pc)])
  {
    hide Requests, Sound, Onward, Steady, RowOk, SaveCleanup;
    CleanerFits(c, id);
    SavingIsOnward(c, id, ctx, Choosing);
    SavedAgain(c, id, ctx, pc);
    OnwardKeeps(c, SaveCleanup(c, id, ctx, Choosing));
  }

  lemma SavedAgain(c: Chain, id: nat, ctx: Context, pc: CleanerPc)
    requires CleansUp(c, id)
    ensures var c1 := SaveCleanup(c, id, ctx, Choosing);
            && c1.past == c.past && id in c1.cleaners
            && SaveCleanup(c, id, ctx, pc) == c1.(cleaners := c1.cleaners[id := Cleaner(ctx, pc)])
  {
    assert c.cleaners[id := Cleaner(ctx, Choosing)][id := Cleaner(ctx, pc)] == c.cleaners[id := Cleaner(ctx, pc)];
  }

  lemma MarkingEnds(c: Chain, id: nat, k: Cleaner)
    requires Requests(c) && id in c.cleaners && k.pc.Marked? && (id, k.pc.name) !in c.past.deletions
    ensures Requests(c.(cleaners := c.cleaners[id := k]))
  {
    var c' := c.(cleaners := c.cleaners[id := k]);
    assert forall v, x :: IsClosing(c', v, x) == IsClosing(c, v, x) && IsDeploying(c', v, x) == IsDeploying(c, v, x);
    assert forall x :: Installed(c', x) == Installed(c, x) && Spent(c', x) == Spent(c, x);
    assert forall d: (nat, string) :: DeletionOk(c', d) == DeletionOk(c, d);
    hide IsClosing, IsDeploying, Installed, Spent, DeletionOk, UnderReview;
  }

  lemma AskKeeps(c: Chain, id: nat)
    requires Sound(c) && Struct(c) && Requests(c) && CleansUp(c, id)
    ensures Requests(AfterAsk(c, id))
  {
    var k, c' := c.cleaners[id], AfterAsk(c, id);
    if c' != c {
      CleanerFits(c, id);
      var name := k.pc.name;
      var c1 := SaveCleanup(c, id, k.ctx, Asked(name));
      SavingIsOnward(c, id, k.ctx, Asked(name));
      assert AllBefore(c, id, c.rows[id].ctx.retained);
      assert DeletionOk(c1, (id, name)) && (id, name) !in c.past.deletions && c1.past == c.past;
      assert id in c1.cleaners && !c1.cleaners[id].pc.Marked?;
      hide Requests, Sound, Struct, Onward, Steady, SaveCleanup, RowOk, DeletionOk;
      OnwardKeeps(c, c1);
      Asking(c1, c', id, name);
    }
  }

  lemma Asking(c: Chain, c': Chain, id: nat, name: string)
    requires Requests(c) && DeletionOk(c, (id, name)) && (id, name) !in c.past.deletions
    requires id in c.cleaners && !c.cleaners[id].pc.Marked?
    requires c' == c.(past := c.past.(deletions := c.past.deletions + [(id, name)]))
    ensures Requests(c')
  {
    assert forall v, x :: IsClosing(c', v, x) == IsClosing(c, v, x) && IsDeploying(c', v, x) == IsDeploying(c, v, x);
    assert forall x :: Installed(c', x) == Installed(c, x) && Spent(c', x) == Spent(c, x);
    assert forall d: (nat, string) :: DeletionOk(c', d) == DeletionOk(c, d);
    hide IsClosing, IsDeploying, Installed, Spent, DeletionOk, UnderReview;
    forall i | 0 <= i < |c'.past.deletions| ensures DeletionOk(c', c'.past.deletions[i]) {
      if i < |c.past.deletions| {
        assert DeletionOk(c, c.past.deletions[i]);
      }
    }
  }

  /* ---------- every step ---------- */

  lemma BeginKeeps(c: Chain, ssh: Option<nat>, review: Option<nat>, taken: Option<nat>)
    requires Requests(c) && c.nextId !in c.rows
    ensures Requests(AfterBegin(c, ssh, review, taken))
  {
    hide Requests, Onward, Steady, MayBegin, Retry;
    if MayBegin(c, ssh, review) {
      var c1 := TakeOver(c, taken);
      assert c1.nextId == c.nextId && c1.nextId !in c1.rows;
      var c2 := Enrol(c1, ssh);
      TakeOverIsOnward(c, taken);
      EnrolIsOnward(c1, ssh);
      hide TakeOver, Enrol;
      RetryIsOnward(c2, ssh);
      RetryIsOnward(Retry(c2, ssh), review);
      OnwardKeeps(c, c1);
      OnwardKeeps(c1, c2);
      OnwardKeeps(c2, Retry(c2, ssh));
      OnwardKeeps(Retry(c2, ssh), Retry(Retry(c2, ssh), review));
    }
  }

  lemma QueueKeeps(c: Chain, id: nat, taken: Option<nat>)
    requires Requests(c)
    ensures Requests(AfterQueueWait(c, id, taken)) && Requests(AfterQueueCleanup(c, id, taken))
  {
    hide Requests, Onward, Steady, SetStatus, TakeOver, Decidable, InterruptIp;
    if id in c.rows && !c.rows[id].status.Active() {
      var c1 := TakeOver(c, taken);
      TakeOverIsOnward(c, taken);
      ClosedStays(c, taken, id);
      OnwardKeeps(c, c1);
      SetStatusIsOnward(c1, id, PENDING, SSH_WAIT_QUEUED);
      OnwardKeeps(c1, SetStatus(c1, id, PENDING, SSH_WAIT_QUEUED));
      if UnderReview(c.rows[id]) {
        SetStatusIsOnward(c1, id, PENDING, CLEANUP_QUEUED);
        OnwardKeeps(c1, SetStatus(c1, id, PENDING, CLEANUP_QUEUED));
      }
    }
  }

  lemma TakeWaitKeeps(c: Chain, id: nat, w: nat, resumes: bool)
    requires Requests(c)
    ensures Requests(AfterTakeWait(c, id, w, resumes))
  {
    hide Requests, Onward, Steady, SetStatus, Decidable;
    if id in c.rows {
      SetStatusIsOnward(c, id, DONE, SSH_UNREACHABLE);
      SetStatusIsOnward(c, id, RUNNING, WAITING_SSH);
      var c1 := SetStatus(c, id, RUNNING, WAITING_SSH);
      StatusKeepsInstallers(c, id, RUNNING, WAITING_SSH);
      InstallerEnters(c, c1, w, Installer(id, c.rows[id].newIpId, c.rows[id].newIp, Entering));
      OnwardKeeps(c, SetStatus(c, id, DONE, SSH_UNREACHABLE));
      OnwardKeeps(c, c1.(installers := c1.installers[w := Installer(id, c.rows[id].newIpId, c.rows[id].newIp, Entering)]));
    }
  }

  lemma StatusKeepsInstallers(c: Chain, id: nat, status: Status, action: IpAction)
    ensures SetStatus(c, id, status, action).installers == c.installers
  {
  }

  lemma CancelKeeps(c: Chain, id: nat)
    requires Requests(c)
    ensures Requests(AfterCancel(c, id)) && Requests(AfterLateLoad(c, id))
  {
    hide Requests, Onward, Steady, SetStatus, ExternalActionStarted;
    if id in c.rows {
      SetStatusIsOnward(c, id, DONE, CANCELLED);
      SetStatusIsOnward(c, id, AMBIGUOUS, AMBIGUOUS_ACTION);
      OnwardKeeps(c, SetStatus(c, id, DONE, CANCELLED));
      OnwardKeeps(c, SetStatus(c, id, AMBIGUOUS, AMBIGUOUS_ACTION));
    }
  }

  lemma DecideKeeps(c: Chain, s: Step)
    requires Sound(c) && Requests(c) && c.nextId !in c.rows
    ensures Requests(NextDecide(c, s))
  {
    hide Sound, Requests, AfterBegin, AfterQueueWait, AfterTakeWait, AfterLateLoad, AfterCancel, AfterQueueCleanup,
         AfterTakeCleanup;
    match s
    case Begin(ssh, review, taken) => BeginKeeps(c, ssh, review, taken);
    case QueueWait(id, taken) => QueueKeeps(c, id, taken);
    case TakeWait(id, w, resumes) => TakeWaitKeeps(c, id, w, resumes);
    case LateLoad(id) => CancelKeeps(c, id);
    case Cancel(id) => CancelKeeps(c, id);
    case QueueCleanup(id, taken) => QueueKeeps(c, id, taken);
    case TakeCleanup(id) => TakeCleanupKeeps(c, id);
    case _ =>
  }

  lemma CreateKeeps(c: Chain, s: Step, id: nat)
    requires Sound(c) && Requests(c) && Rotates(c, id) && Fits(c, s) && Creates(s) && s.id == id
    ensures Requests(NextCreate(c, s, id))
  {
    hide Sound, Requests, AfterClaim, AfterOrder, Onward;
    if s.Claim? {
      ClaimKeeps(c, id);
    } else if s.Order? {
      OrderKeeps(c, id, s.effect, s.reply);
    } else {
      CreateIsOnward(c, s, id);
      hide NextCreate;
      OnwardKeeps(c, NextCreate(c, s, id));
    }
  }

  lemma CreateIsOnward(c: Chain, s: Step, id: nat)
    requires Sound(c) && Rotates(c, id) && !s.Claim? && !s.Order?
    ensures Onward(c, NextCreate(c, s, id))
  {
    hide Sound, Rotates, Onward, Steady, AfterLoad, AfterNote, AfterCollect, AfterSave, AfterReject, AfterAnswer,
         AfterIdentify, AfterConfirm, AfterFail;
    StillOnward(c);
    if s.Load? {
      LoadIsOnward(c, id);
    } else if s.Note? {
      NoteIsOnward(c, id, s.oldIp, s.oldIpId);
    } else if s.Collect? {
      CollectIsOnward(c, id);
    } else if s.Save? {
      SaveIsOnward(c, id, s.marker, s.keyPath);
    } else if s.Reject? {
      RejectIsOnward(c, id);
    } else if s.Answer? {
      AnswerIsOnward(c, id);
    } else if s.Identify? {
      IdentifyIsOnward(c, id, s.name);
    } else if s.Confirm? {
      ConfirmIsOnward(c, id, s.name, s.ip, s.w);
    } else if s.Fail? {
      FailIsOnward(c, id);
    }
  }

  lemma InstallKeeps(c: Chain, s: Step, w: nat)
    requires Sound(c) && Requests(c) && Provisions(c, w)
    ensures Requests(NextInstall(c, s, w))
  {
    hide Sound, Requests, AfterMarkDeploy, AfterDeploy, AfterPublish, AfterClose, Onward;
    match s
    case MarkDeploy(_) => MarkDeployKeeps(c, w);
    case Deploy(_) => DeployKeeps(c, w);
    case Publish(_) => PublishKeeps(c, w);
    case Close(_) => CloseKeeps(c, w);
    case _ =>
      InstallIsOnward(c, s, w);
      hide NextInstall;
      OnwardKeeps(c, NextInstall(c, s, w));
  }

  lemma InstallIsOnward(c: Chain, s: Step, w: nat)
    requires Sound(c) && Provisions(c, w) && !s.MarkDeploy? && !s.Deploy? && !s.Publish? && !s.Close?
    ensures Onward(c, NextInstall(c, s, w))
  {
    hide Sound, Onward, Steady, AfterEnter, AfterUnreachable, AfterReach, AfterNoteInstall, AfterApplied, AfterBreak,
         Provisions, RowOf;
    StillOnward(c);
    if s.Enter? {
      EnterIsOnward(c, w);
    } else if s.Unreachable? {
      UnreachableIsOnward(c, w);
    } else if s.Reach? {
      ReachIsOnward(c, w);
    } else if s.NoteInstall? {
      NoteInstallIsOnward(c, w);
    } else if s.Applied? {
      AppliedIsOnward(c, w);
    } else if s.Break? {
      BreakIsOnward(c, w);
    }
  }

  lemma CleanKeeps(c: Chain, s: Step, id: nat)
    requires Sound(c) && Struct(c) && Requests(c) && CleansUp(c, id)
    ensures Requests(NextClean(c, s, id))
  {
    hide Sound, Struct, Requests, AfterMarkDelete, AfterAsk, Onward;
    if s.MarkDelete? {
      MarkDeleteKeeps(c, id);
    } else if s.Ask? {
      AskKeeps(c, id);
    } else {
      CleanIsOnward(c, s, id);
      hide NextClean;
      OnwardKeeps(c, NextClean(c, s, id));
    }
  }

  lemma CleanIsOnward(c: Chain, s: Step, id: nat)
    requires Sound(c) && CleansUp(c, id) && !s.MarkDelete? && !s.Ask?
    ensures Onward(c, NextClean(c, s, id))
  {
    hide Sound, Onward, Steady, AfterNoteCleanup, AfterChoose, AfterMarkSent, AfterRecord, AfterEndCleanup, CleansUp;
    StillOnward(c);
    if s.NoteCleanup? {
      NoteCleanupIsOnward(c, id);
    } else if s.Choose? {
      ChooseIsOnward(c, id, s.name);
    } else if s.MarkSent? {
      MarkSentIsOnward(c, id);
    } else if s.Record? {
      RecordIsOnward(c, id, s.name, s.result);
    } else if s.EndCleanup? {
      EndCleanupIsOnward(c, id, s.action);
    }
  }

  lemma StepKeepsRequests(c: Chain, s: Step)
    requires ChainOk(c) && Requests(c) && Fits(c, s)
    ensures Requests(Next(c, s))
  {
    hide Sound, Conserved, Struct, Requests, NextDecide, NextCreate, NextInstall, NextClean, Fits, Onward, Steady;
    ConservedGives(c);
    if Decides(s) {
      DecideKeeps(c, s);
    } else if Creates(s) {
      if Rotates(c, s.id) {
        CreateKeeps(c, s, s.id);
      }
    } else if Installs(s) {
      if Provisions(c, s.w) {
        InstallKeeps(c, s, s.w);
      }
    } else if Cleans(s) {
      if CleansUp(c, s.id) {
        CleanKeeps(c, s, s.id);
      }
    } else {
      OtherIsOnward(c, s);
      hide NextOther;
      OnwardKeeps(c, NextOther(c, s));
    }
  }

  lemma {:induction false} RunKeepsRequests(c: Chain, steps: seq<Step>)
    requires ChainOk(c) && Requests(c) && AllFit(c, steps)
    ensures ChainOk(Run(c, steps)) && Requests(Run(c, steps))
    decreases |steps|
  {
    hide ChainOk, Requests, Next, Fits;
    if steps == [] {
    } else {
      StepConserves(c, steps[0]);
      StepKeepsRequests(c, steps[0]);
      RunKeepsRequests(Next(c, steps[0]), steps[1..]);
    }
  }

  lemma InitialRequests(c: Chain)
    requires Initial(c)
    ensures ChainOk(c) && Requests(c)
  {
    hide ChainOk;
    InitialChain(c);
  }

  /** Over every run, programs stalling at will: each operation orders one box at most, and each deletion it asks for
      is of an older box, asked for once, and never of the box that is active. */
  lemma RequestsAreSentOnce(c0: Chain, steps: seq<Step>)
    requires Initial(c0) && AllFit(c0, steps)
    ensures OrdersOk(Run(c0, steps)) && DeletionsOk(Run(c0, steps))
    ensures forall d | d in Run(c0, steps).past.deletions :: d.1 != Run(c0, steps).box
  {
    hide Run, AllFit, Sound, DeploymentsOk, ReviewsOk, DeletionsOk, OrdersOk;
    InitialRequests(c0);
    RunKeepsRequests(c0, steps);
    ActiveBoxIsNeverAsked(Run(c0, steps));
  }

  lemma ActiveBoxIsNeverAsked(c: Chain)
    requires Conserved(c) && Requests(c)
    ensures forall d | d in c.past.deletions :: d.1 != c.box
  {
    forall d | d in c.past.deletions ensures d.1 != c.box {
      assert DeletionOk(c, d) && c.past.publisher.Some? && d.0 <= c.past.publisher.value;
      assert Own(c, c.past.publisher.value, c.rows[c.past.publisher.value].newIpId);
    }
  }

  /* ---------- installing twice ---------- */

  /** An operation installs twice only if a deployment was marked in it over the mark of another. */
  lemma SecondDeploymentNeedsRepeat(c0: Chain, steps: seq<Step>, id: nat, i: nat, j: nat)
    requires Initial(c0) && AllFit(c0, steps)
    requires var sent := Run(c0, steps).past.deployments; i < j < |sent| && sent[i] == sent[j] == id
    ensures id in Run(c0, steps).past.repeated
  {
    hide Run, AllFit, ChainOk, OrdersOk, DeletionsOk, ReviewsOk;
    InitialRequests(c0);
    RunKeepsRequests(c0, steps);
  }

  /** And in every run: a program that has reached the box of an operation that was installed marks over the mark of that
      installation, and its next step sends the script again. No row update prevents it. */
  lemma RepeatDeploysAgain(c0: Chain, steps: seq<Step>, w: nat)
    requires Initial(c0) && AllFit(c0, steps)
    requires var c := Run(c0, steps);
             Provisions(c, w) && c.installers[w].pc.Reached? && c.installers[w].id in c.past.deployments
    ensures var c := Run(c0, steps); var id, marked := c.installers[w].id, Next(c, MarkDeploy(w));
            var sent := Next(marked, Deploy(w)).past.deployments;
            && id in marked.past.repeated && sent == c.past.deployments + [id]
            && exists i | 0 <= i < |sent| - 1 :: sent[i] == sent[|sent| - 1]
  {
    hide Run, AllFit, ChainOk, OrdersOk, DeletionsOk, ReviewsOk;
    InitialRequests(c0);
    RunKeepsRequests(c0, steps);
    MarkedAndSent(Run(c0, steps), w);
  }

  lemma MarkedAndSent(c: Chain, w: nat)
    requires DeploymentsOk(c) && Provisions(c, w) && c.installers[w].pc.Reached? && c.installers[w].id in c.past.deployments
    ensures var id, marked := c.installers[w].id, Next(c, MarkDeploy(w));
            var sent := Next(marked, Deploy(w)).past.deployments;
            && id in marked.past.repeated && sent == c.past.deployments + [id]
            && exists i | 0 <= i < |sent| - 1 :: sent[i] == sent[|sent| - 1]
  {
    var id, sent := c.installers[w].id, c.past.deployments;
    var i :| 0 <= i < |sent| && sent[i] == id;
    assert Installed(c, sent[i]);
    hide DeploymentsOk, NextDecide, NextCreate, NextClean, NextOther;
    assert (sent + [id])[i] == (sent + [id])[|sent|];
  }
}
