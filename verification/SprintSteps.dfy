/** What a step of a SprintBOX chain can do to the boxes, and which rows no step changes any more. */
module SprintSteps {
  import opened Base
  import opened Tables
  import opened OperationRows
  import opened SprintChain
  import opened SprintPrograms
  import opened SprintConservation
  import opened SprintMildSteps
  import opened SprintMoves
  import opened SprintPublishes
  import opened SprintRuns

  /* ---------- the moves ---------- */

  ghost predicate Collects(c: Chain, c': Chain, id: nat) {
    && Rotates(c, id) && c.rows[id].published.None?
    && var kept := c.rows[id].ctx.retained + Collection(c, c.creators[id]);
    c' == c.(creators := c.creators[id := c.creators[id].(pc := Collected(kept))])
  }

  ghost predicate SavesSet(c: Chain, c': Chain, id: nat) {
    exists ctx :: Saves(c, c', id, ctx) && c.rows[id].published.None?
  }

  /** A step that opens no attempt is mild, or moves boxes in one of six ways. */
  ghost predicate Moves(c: Chain, s: Step, c': Chain) {
    || Mild(c, c')
    || (s.Collect? && Collects(c, c', s.id))
    || (s.Save? && SavesSet(c, c', s.id))
    || (s.Order? && s.effect.Some? && Buys(c, c', s.id, s.effect.value))
    || (s.Publish? && s.w in c.installers && Publishes(c, c', c.installers[s.w].id))
    || (s.Record? && Removes(c, c', s.id, s.name))
    || (s.Configure? && c.desired <= s.desired && c' == c.(desired := s.desired))
  }

  lemma CreateMoves(c: Chain, s: Step, id: nat)
    requires ChainOk(c) && Rotates(c, id) && Creates(s) && s.id == id && Fits(c, s)
    ensures Moves(c, s, NextCreate(c, s, id))
  {
    hide ChainOk, Rotates, Moves, Fits, AfterCollect, AfterSave, AfterOrder;
    if s.Collect? {
      CollectMoves(c, s, id);
    } else if s.Save? {
      SaveMoves(c, s, id);
    } else if s.Order? {
      OrderMoves(c, s, id);
    } else {
      hide NextCreate;
      CreateIsMild(c, s, id);
      MildMoves(c, s, NextCreate(c, s, id));
    }
  }

  lemma CollectMoves(c: Chain, s: Step, id: nat)
    requires ChainOk(c) && Rotates(c, id) && s == Collect(id)
    ensures Moves(c, s, AfterCollect(c, id))
  {
    hide Sound, Conserved, RowOk, CreatorOk, Mild, Collection;
    OnlyProgram(c, id);
    UnchangedIsMild(c);
    assert c.rows[id := c.rows[id]] == c.rows;
  }

  lemma SaveMoves(c: Chain, s: Step, id: nat)
    requires ChainOk(c) && Rotates(c, id) && s.Save? && s.id == id
    ensures Moves(c, s, AfterSave(c, id, s.marker, s.keyPath))
  {
    hide Sound, Conserved, RowOk, CreatorOk, Mild;
    OnlyProgram(c, id);
    UnchangedIsMild(c);
    if AfterSave(c, id, s.marker, s.keyPath) != c {
      assert Saves(c, AfterSave(c, id, s.marker, s.keyPath), id, Context(c.creators[id].pc.kept, s.marker, s.keyPath, map[]));
    }
  }

  lemma OrderMoves(c: Chain, s: Step, id: nat)
    requires ChainOk(c) && Rotates(c, id) && s.Order? && s.id == id && Fits(c, s)
    ensures Moves(c, s, AfterOrder(c, id, s.effect, s.reply))
  {
    hide Sound, Conserved, Struct, Mild, Buys;
    ConservedGives(c);
    UnchangedIsMild(c);
    if s.effect.None? {
      OrderIsMild(c, id, s.reply);
    } else if c.creators[id].pc.Ordering? {
      OrderBuys(c, id, s.effect.value, s.reply);
    }
  }

  lemma InstallMoves(c: Chain, s: Step, w: nat)
    requires ChainOk(c) && Provisions(c, w) && Installs(s) && s.w == w
    ensures Moves(c, s, NextInstall(c, s, w))
  {
    hide Sound, Conserved, Mild, Publishes, Moves, Provisions;
    if s.Publish? {
      PublishMoves(c, s, w);
      hide AfterPublish;
    } else {
      hide NextInstall;
      InstallIsMild(c, s, w);
      MildMoves(c, s, NextInstall(c, s, w));
    }
  }

  lemma PublishMoves(c: Chain, s: Step, w: nat)
    requires ChainOk(c) && Provisions(c, w) && s == Publish(w)
    ensures Moves(c, s, AfterPublish(c, w))
  {
    hide Sound, Conserved, Mild, Publishes, Moves, AfterPublish;
    UnchangedIsMild(c);
    if AfterPublish(c, w) != c {
      PublishPublishes(c, w);
      PublicationMoves(c, s, AfterPublish(c, w));
    } else {
      MildMoves(c, s, c);
    }
  }

  lemma CleanMoves(c: Chain, s: Step, id: nat)
    requires ChainOk(c) && CleansUp(c, id) && Cleans(s) && s.id == id
    ensures Moves(c, s, NextClean(c, s, id))
  {
    hide ChainOk, CleansUp, Moves, AfterRecord;
    ChainOkGives(c);
    if s.Record? && IsGone(s.result) {
      RecordMoves(c, s, id);
    } else {
      hide NextClean;
      CleanIsMild(c, s, id);
      MildMoves(c, s, NextClean(c, s, id));
    }
  }

  lemma RecordMoves(c: Chain, s: Step, id: nat)
    requires Sound(c) && CleansUp(c, id) && s.Record? && s.id == id && IsGone(s.result)
    ensures Moves(c, s, AfterRecord(c, id, s.name, s.result))
  {
    hide Sound, Mild, Removes, Moves, AfterRecord;
    UnchangedIsMild(c);
    if AfterRecord(c, id, s.name, s.result) != c {
      RecordRemoves(c, id, s.name, s.result);
      RemovalMoves(c, s, AfterRecord(c, id, s.name, s.result));
    } else {
      MildMoves(c, s, c);
    }
  }

  lemma OtherMoves(c: Chain, s: Step)
    requires ChainOk(c) && !Decides(s)
    ensures Moves(c, s, NextOther(c, s))
  {
    hide Sound, Conserved, Mild, TakeOver;
    UnchangedIsMild(c);
    if !s.Configure? {
      hide NextOther;
      OtherIsMild(c, s);
    }
  }

  lemma DecideMoves(c: Chain, s: Step)
    requires ChainOk(c) && Decides(s) && !s.Begin?
    ensures Mild(c, NextDecide(c, s))
  {
    hide Sound, Conserved, Mild, AfterQueueWait, AfterQueueCleanup;
    if s.QueueWait? || s.QueueCleanup? {
      QueueIsMild(c, s.id, s.taken);
    } else {
      hide NextDecide;
      DecisionIsMild(c, s);
    }
  }

  lemma StepMoves(c: Chain, s: Step)
    requires ChainOk(c) && Fits(c, s) && !s.Begin?
    ensures Moves(c, s, Next(c, s))
  {
    hide ChainOk, Sound, Fits, Moves, Mild, NextDecide, NextCreate, NextInstall, NextClean, NextOther, Rotates,
         Provisions, CleansUp;
    ChainOkGives(c);
    UnchangedIsMild(c);
    if Decides(s) {
      DecideMoves(c, s);
      MildMoves(c, s, NextDecide(c, s));
    } else if Creates(s) {
      if Rotates(c, s.id) { CreateMoves(c, s, s.id); } else { MildMoves(c, s, c); }
    } else if Installs(s) {
      if Provisions(c, s.w) { InstallMoves(c, s, s.w); } else { MildMoves(c, s, c); }
    } else if Cleans(s) {
      if CleansUp(c, s.id) { CleanMoves(c, s, s.id); } else { MildMoves(c, s, c); }
    } else {
      OtherMoves(c, s);
    }
  }

  lemma MildMoves(c: Chain, s: Step, c': Chain)
    requires Mild(c, c')
    ensures Moves(c, s, c')
  {
  }

  lemma PublicationMoves(c: Chain, s: Step, c': Chain)
    requires s.Publish? && s.w in c.installers && Publishes(c, c', c.installers[s.w].id)
    ensures Moves(c, s, c')
  {
  }

  lemma RemovalMoves(c: Chain, s: Step, c': Chain)
    requires s.Record? && Removes(c, c', s.id, s.name)
    ensures Moves(c, s, c')
  {
  }

  /** An attempt is opened, and what it follows up is handed on to it. */
  ghost predicate Opened(c: Chain, c': Chain, ssh: Option<nat>) {
    && var id := c.nextId;
    && c'.nextId == id + 1 && id !in c.rows && c'.rows.Keys == c.rows.Keys + {id}
    && (forall x | x in c.rows && ssh != Some(x) :: c'.rows[x] == c.rows[x])
    && c'.desired == c.desired && c'.box == c.box && c'.ip == c.ip && c'.installers == c.installers
    && c'.cleaners == c.cleaners && c'.creators == c.creators[id := Creator(c.box, c.ip, Loading)]
    && c'.rows[id] == UNBOUND_OP.(revision := c.desired, ctx := NO_CONTEXT.(retained := Inherited(c, ssh)))
    && c'.past == c.past.(follows := if ssh.Some? then c.past.follows[id := ssh.value] else c.past.follows)
    && (ssh.Some? ==>
          && ssh.value in c.rows && Undecided(c.rows[ssh.value]) && c.rows[ssh.value].published.None?
          && c.rows[ssh.value].newIpId != "" && c'.rows[ssh.value] == c.rows[ssh.value].(action := RETRY_REQUESTED))
  }

  lemma BeginOpens(c: Chain, ssh: Option<nat>, review: Option<nat>, taken: Option<nat>)
    requires ChainOk(c) && MayBegin(c, ssh, review)
    ensures var c1 := TakeOver(c, taken);
            var c2 := Retry(Enrol(c1, ssh), ssh);
            && Mild(c, c1) && Opened(c1, c2, ssh) && Mild(c2, Retry(c2, review)) && AfterBegin(c, ssh, review, taken) == Retry(c2, review)
            && ChainOk(c1) && ChainOk(c2)
            && (review.Some? ==> review.value in c2.rows && c2.rows[review.value].published.Some?)
  {
    var c1 := TakeOver(c, taken);
    var c2 := Retry(Enrol(c1, ssh), ssh);
    BeginFollows(c, ssh, review, taken);
    UndecidedStays(c, ssh, review, taken);
    TakeOverIsMild(c, taken);
    ConservedGives(c);
    hide MayBegin, Sound, Mild, TakeOver, Conserved, Followable, Struct, Enrol, Retry, Opened;
    MildKeeps(c, c1);
    BegunConserved(c1, ssh, None);
    RetryNone(Retry(Enrol(c1, ssh), ssh));
    BegunSound(c1, ssh);
    EnrolOpens(c1, ssh);
    OpenedReview(c1, c2, ssh, review);
    ReviewedIsMild(c2, review);
  }

  lemma UndecidedStays(c: Chain, ssh: Option<nat>, review: Option<nat>, taken: Option<nat>)
    requires MayBegin(c, ssh, review) && c.nextId !in c.rows
    ensures var c1 := TakeOver(c, taken);
            && c1.nextId !in c1.rows && c1.nextId == c.nextId
            && (ssh.Some? ==> ssh.value in c1.rows && Undecided(c1.rows[ssh.value]) && c1.rows[ssh.value].newIpId != "")
  {
    if ssh.Some? {
      ClosedStays(c, taken, ssh.value);
    }
    hide InterruptIp, OnHold;
  }

  lemma RetryNone(c: Chain)
    ensures Retry(c, None) == c
  {
  }

  lemma BegunSound(c: Chain, ssh: Option<nat>)
    requires Sound(c) && c.nextId !in c.rows && (ssh.Some? ==> ssh.value in c.rows && c.rows[ssh.value].status == DONE)
    ensures Sound(Retry(Enrol(c, ssh), ssh))
  {
    EnrolKeeps(c, ssh);
    var c2 := Enrol(c, ssh);
    assert ssh.Some? ==> ssh.value in c2.rows && c2.rows[ssh.value] == c.rows[ssh.value];
    hide Sound, Enrol;
    RetryKeeps(c2, ssh);
  }

  lemma EnrolOpens(c: Chain, ssh: Option<nat>)
    requires c.nextId !in c.rows
    requires ssh.Some? ==> ssh.value in c.rows && Undecided(c.rows[ssh.value]) && c.rows[ssh.value].published.None?
                           && c.rows[ssh.value].newIpId != ""
    ensures Opened(c, Retry(Enrol(c, ssh), ssh), ssh)
  {
    hide Abandoned;
  }

  lemma OpenedReview(c: Chain, c': Chain, ssh: Option<nat>, review: Option<nat>)
    requires Opened(c, c', ssh)
    requires review.Some? ==> review.value in c.rows && c.rows[review.value].status == DONE
                              && c.rows[review.value].published.Some?
    ensures review.Some? ==> review.value in c'.rows && c'.rows[review.value].status == DONE
                             && c'.rows[review.value].published.Some?
  {
  }

  /* ---------- rows at their end ---------- */

  predicate Works(c: Chain, w: nat, id: nat) {
    w in c.installers && c.installers[w].id == id
  }

  /** An attempt that ended unpublished, with no decision open and no program left. */
  ghost predicate Dead(c: Chain, id: nat) {
    && id in c.rows && c.rows[id].published.None? && !c.rows[id].status.Active() && !Undecided(c.rows[id])
    && id !in c.creators && forall w :: !Works(c, w, id)
  }

  /** The operator may reconcile it, and that is all. */
  predicate StillRow(row: IpOp, row': IpOp) {
    row' == row || (Reconcilable(row) && row' == row.(action := Tables.RECONCILED))
  }

  ghost predicate Frozen(c: Chain, c': Chain) {
    forall id | Dead(c, id) :: Dead(c', id) && StillRow(c.rows[id], c'.rows[id])
  }

  /** A step that writes one other row, and gives no other row a program. */
  lemma OneRowFreezes(c: Chain, c': Chain, id: nat)
    requires !Dead(c, id) && (forall x | x in c.rows && x != id :: x in c'.rows && c'.rows[x] == c.rows[x])
    requires forall x | x in c'.creators && x != id :: x in c.creators
    requires forall w | w in c'.installers && c'.installers[w].id != id ::
               w in c.installers && c'.installers[w].id == c.installers[w].id
    ensures Frozen(c, c')
  {
    assert forall w, x | Works(c', w, x) && x != id :: Works(c, w, x);
    hide Works;
  }

  lemma CreateFreezes(c: Chain, s: Step, id: nat)
    requires Rotates(c, id)
    ensures Frozen(c, NextCreate(c, s, id))
  {
    hide NextCreate;
    CreateWritesOne(c, s, id);
    OneRowFreezes(c, NextCreate(c, s, id), id);
  }

  ghost predicate WritesOne(c: Chain, c': Chain, id: nat) {
    && (forall x | x in c.rows && x != id :: x in c'.rows && c'.rows[x] == c.rows[x])
    && (forall x | x in c'.creators && x != id :: x in c.creators && c'.creators[x] == c.creators[x])
    && forall w | w in c'.installers && c'.installers[w].id != id :: w in c.installers && c'.installers[w] == c.installers[w]
  }

  lemma TellsWriteOne(c: Chain, id: nat)
    ensures forall row: IpOp, k: Option<Creator> :: WritesOne(c, Tell(c, id, row, k), id)
    ensures WritesOne(c, c, id)
  {
  }

  lemma CreateWritesOne(c: Chain, s: Step, id: nat)
    requires Rotates(c, id)
    ensures WritesOne(c, NextCreate(c, s, id), id)
  {
    hide AfterConfirm, AfterOrder, WritesOne, Tell, Collection, ExternalActionStarted;
    if s.Confirm? {
      ConfirmWritesOne(c, id, s.name, s.ip, s.w);
    } else if s.Order? {
      OrderWritesOne(c, id, s.effect, s.reply);
    } else {
      TellsWriteOne(c, id);
    }
  }

  lemma ConfirmWritesOne(c: Chain, id: nat, name: string, ip: string, w: nat)
    requires Rotates(c, id)
    ensures WritesOne(c, AfterConfirm(c, id, name, ip, w), id)
  {
  }

  lemma OrderWritesOne(c: Chain, id: nat, effect: Option<string>, reply: Reply)
    requires Rotates(c, id)
    ensures WritesOne(c, AfterOrder(c, id, effect, reply), id)
  {
  }

  lemma InstallFreezes(c: Chain, s: Step, w: nat)
    requires Provisions(c, w)
    ensures Frozen(c, NextInstall(c, s, w))
  {
    assert Works(c, w, c.installers[w].id);
    OneRowFreezes(c, NextInstall(c, s, w), c.installers[w].id);
  }

  lemma CleanFreezes(c: Chain, s: Step, id: nat)
    requires Sound(c) && CleansUp(c, id)
    ensures Frozen(c, NextClean(c, s, id))
  {
    hide NextClean, Sound, RowOk;
    CleanerFits(c, id);
    CleanWritesOne(c, s, id);
    OneRowFreezes(c, NextClean(c, s, id), id);
  }

  lemma SavesWriteOne(c: Chain, id: nat)
    requires CleansUp(c, id)
    ensures forall ctx, pc :: WritesOne(c, SaveCleanup(c, id, ctx, pc), id)
    ensures forall row: IpOp :: WritesOne(c, Put(c, id, row), id)
    ensures WritesOne(c, c, id)
  {
  }

  /** What else changes does not matter. */
  lemma SameWritesOne(c: Chain, c1: Chain, id: nat)
    requires WritesOne(c, c1, id)
    ensures forall past: Past :: WritesOne(c, c1.(past := past), id)
    ensures forall cleaners: map<nat, Cleaner> :: WritesOne(c, c1.(cleaners := cleaners), id)
  {
  }

  lemma CleanWritesOne(c: Chain, s: Step, id: nat)
    requires CleansUp(c, id)
    ensures WritesOne(c, NextClean(c, s, id), id)
  {
    SavesWriteOne(c, id);
    hide WritesOne, SaveCleanup, Put, Carried, Target, MayRecord, IsGone;
    if s.Ask? {
      var k := c.cleaners[id];
      if k.pc.Marked? {
        SameWritesOne(c, SaveCleanup(c, id, k.ctx, Asked(k.pc.name)), id);
      }
    } else if s.Record? {
      var k := c.cleaners[id];
      var ctx := k.ctx.(results := k.ctx.results[s.name := s.result]);
      SameWritesOne(c, SaveCleanup(c, id, ctx.(retained := ctx.retained - {s.name}), Choosing), id);
    } else if s.EndCleanup? {
      SameWritesOne(c, Put(c, id, c.rows[id].(status := DONE, action := s.action)), id);
    }
  }

  lemma UnchangedIsFrozen(c: Chain)
    ensures Frozen(c, c)
  {
  }

  lemma TakeOverFreezes(c: Chain, taken: Option<nat>)
    ensures Frozen(c, TakeOver(c, taken))
  {
    UnchangedIsFrozen(c);
    if taken.Some? && taken.value in c.rows && c.rows[taken.value].status.Active() {
      hide InterruptIp;
      OneRowFreezes(c, TakeOver(c, taken), taken.value);
    } else {
      hide Frozen;
      assert TakeOver(c, taken).rows == c.rows;
    }
  }

  lemma BeginFreezes(c: Chain, ssh: Option<nat>, review: Option<nat>, taken: Option<nat>)
    requires ChainOk(c)
    ensures Frozen(c, AfterBegin(c, ssh, review, taken))
  {
    UnchangedIsFrozen(c);
    if MayBegin(c, ssh, review) {
      var c1 := TakeOver(c, taken);
      var c2 := Retry(Enrol(c1, ssh), ssh);
      BeginOpens(c, ssh, review, taken);
      TakeOverFreezes(c, taken);
      hide ChainOk, MayBegin, Frozen, Mild, TakeOver, Opened, Retry, Enrol;
      OpenedFreezes(c1, c2, ssh);
      ReviewFreezes(c2, review);
      FrozenIsTransitive(c, c1, c2);
      FrozenIsTransitive(c, c2, Retry(c2, review));
    }
  }

  lemma OpenedFreezes(c: Chain, c': Chain, ssh: Option<nat>)
    requires Opened(c, c', ssh)
    ensures Frozen(c, c')
  {
    assert forall w, x | Works(c', w, x) :: Works(c, w, x);
    hide Works;
  }

  lemma ReviewFreezes(c: Chain, review: Option<nat>)
    requires review.Some? ==> review.value in c.rows && c.rows[review.value].published.Some?
    ensures Frozen(c, Retry(c, review))
  {
    UnchangedIsFrozen(c);
    if review.Some? {
      OneRowFreezes(c, Retry(c, review), review.value);
    }
  }

  lemma FrozenIsTransitive(a: Chain, b: Chain, c: Chain)
    requires Frozen(a, b) && Frozen(b, c)
    ensures Frozen(a, c)
  {
    hide Dead;
  }

  lemma StatusFreezes(c: Chain, id: nat, status: Status, action: IpAction)
    requires !Dead(c, id)
    ensures Frozen(c, SetStatus(c, id, status, action))
  {
    OneRowFreezes(c, SetStatus(c, id, status, action), id);
  }

  lemma QueueFreezes(c: Chain, id: nat, taken: Option<nat>)
    ensures Frozen(c, AfterQueueWait(c, id, taken))
    ensures Frozen(c, AfterQueueCleanup(c, id, taken))
  {
    hide TakeOver, Decidable, SetStatus, Frozen;
    var c1 := TakeOver(c, taken);
    TakeOverFreezes(c, taken);
    UnchangedIsFrozen(c);
    if id in c.rows && !c.rows[id].status.Active() && !Dead(c, id) {
      ClosedStays(c, taken, id);
      SameDead(c, c1, id);
      hide Frozen, Dead, SetStatus, TakeOver, Decidable;
      StatusFreezes(c1, id, PENDING, SSH_WAIT_QUEUED);
      StatusFreezes(c1, id, PENDING, CLEANUP_QUEUED);
      FrozenIsTransitive(c, c1, SetStatus(c1, id, PENDING, SSH_WAIT_QUEUED));
      FrozenIsTransitive(c, c1, SetStatus(c1, id, PENDING, CLEANUP_QUEUED));
    }
  }

  lemma SameDead(c: Chain, c': Chain, id: nat)
    requires id in c.rows && id in c'.rows && c'.rows[id] == c.rows[id] && c'.creators == c.creators
    requires c'.installers == c.installers
    ensures Dead(c', id) == Dead(c, id)
  {
    assert forall w :: Works(c', w, id) == Works(c, w, id);
    hide Works;
  }

  lemma TakesFreeze(c: Chain, s: Step)
    requires Sound(c) && (s.TakeWait? || s.LateLoad? || s.Cancel? || s.TakeCleanup?)
    ensures Frozen(c, NextDecide(c, s))
  {
    hide ExternalActionStarted, Sound, Decidable, RowOk, Frozen;
    UnchangedIsFrozen(c);
    var c' := NextDecide(c, s);
    if c' != c {
      RowIsOk(c, s.id);
      RowGives(c.desired, c.rows[s.id]);
      OneRowFreezes(c, c', s.id);
    }
  }

  lemma DecideFreezes(c: Chain, s: Step)
    requires ChainOk(c) && Decides(s)
    ensures Frozen(c, NextDecide(c, s))
  {
    hide ChainOk, Frozen, AfterBegin, AfterQueueWait, AfterQueueCleanup, AfterTakeWait, AfterLateLoad, AfterCancel,
         AfterTakeCleanup;
    if s.Begin? {
      BeginFreezes(c, s.ssh, s.review, s.taken);
    } else if s.QueueWait? || s.QueueCleanup? {
      QueueFreezes(c, s.id, s.taken);
    } else {
      hide NextDecide;
      ChainOkGives(c);
      TakesFreeze(c, s);
    }
  }

  lemma ChainOkGives(c: Chain)
    requires ChainOk(c)
    ensures Sound(c) && Conserved(c)
  {
    hide Sound, Conserved;
  }

  lemma OtherFreezes(c: Chain, s: Step)
    requires !Decides(s)
    ensures Frozen(c, NextOther(c, s))
  {
    hide TakeOver, Dead;
    if s.Interrupt? {
      TakeOverFreezes(c, Some(s.id));
    } else if s.Reconcile? {
      ReconcileFreezes(c, s.id);
    } else {
      EndFreezes(c, NextOther(c, s));
    }
  }

  lemma ReconcileFreezes(c: Chain, id: nat)
    ensures id in c.rows && Reconcilable(c.rows[id]) ==> Frozen(c, Put(c, id, c.rows[id].(action := Tables.RECONCILED)))
    ensures Frozen(c, c)
  {
    var c' := if id in c.rows then Put(c, id, c.rows[id].(action := Tables.RECONCILED)) else c;
    assert forall w, x :: Works(c', w, x) == Works(c, w, x);
    hide Works;
  }

  /** Programs end, and no row is written. */
  lemma EndFreezes(c: Chain, c': Chain)
    ensures c'.rows == c.rows && c'.creators.Keys <= c.creators.Keys
            && (forall w | w in c'.installers :: w in c.installers && c'.installers[w] == c.installers[w])
        ==> Frozen(c, c')
  {
    if c'.rows == c.rows && forall w | w in c'.installers :: w in c.installers && c'.installers[w] == c.installers[w] {
      assert forall w, x | Works(c', w, x) :: Works(c, w, x);
      hide Works;
    }
  }

  /** No step writes a dead row, but for its reconciliation, nor gives it a program. */
  lemma StepFreezes(c: Chain, s: Step)
    requires ChainOk(c)
    ensures Frozen(c, Next(c, s))
  {
    hide ChainOk, Sound, Conserved, Frozen, NextDecide, NextCreate, NextInstall, NextClean, NextOther;
    ChainOkGives(c);
    UnchangedIsFrozen(c);
    if Decides(s) {
      DecideFreezes(c, s);
    } else if Creates(s) {
      if Rotates(c, s.id) {
        CreateFreezes(c, s, s.id);
      }
    } else if Installs(s) {
      if Provisions(c, s.w) {
        InstallFreezes(c, s, s.w);
      }
    } else if Cleans(s) {
      if CleansUp(c, s.id) {
        CleanFreezes(c, s, s.id);
      }
    } else {
      OtherFreezes(c, s);
    }
  }
}
