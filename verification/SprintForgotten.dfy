/** Exactly when a SprintBOX box is forgotten, and that it is so for good: no attempt that lists it can finish. An SSH
    retry that fails before it buys leaves its boxes like that. */
module SprintForgotten {
  import opened Base
  import opened Tables
  import opened OperationRows
  import opened SprintChain
  import opened SprintPrograms
  import opened SprintConservation
  import opened SprintMoves
  import opened SprintPublishes
  import opened SprintRuns
  import opened SprintSteps
  import opened SprintStalls
  import opened SprintHeirs
  import opened SprintSoleHeirs
  import opened SprintStuck

  /** The row lists the box, or its program has collected it. */
  predicate Lists(c: Chain, id: nat, n: string) {
    && id in c.rows
    && (|| n in c.rows[id].ctx.retained || Own(c, id, n)
        || (id in c.creators && c.creators[id].pc.Collected? && n in c.creators[id].pc.kept))
  }

  /** A bought box that is neither active nor retained by the publication nor gone, and that only stuck attempts
      list. */
  ghost predicate Forgotten(c: Chain, n: string) {
    n in c.past.made && !AtRest(c, n) && forall id: nat | Lists(c, id, n) :: Stuck(c, id)
  }

  /* ---------- it stays forgotten ---------- */

  /** What every step has to keep. */
  lemma ForgetsFrom(c: Chain, c': Chain, n: string)
    requires Forgotten(c, n) && StuckStays(c, c') && n in c'.past.made && !AtRest(c', n)
    requires forall x: nat | Lists(c', x, n) :: Lists(c, x, n)
    ensures Forgotten(c', n)
  {
    hide AtRest, Stuck, Lists;
  }

  lemma ForgottenGives(c: Chain, n: string)
    requires Forgotten(c, n)
    ensures n in c.past.made && !AtRest(c, n)
  {
    hide AtRest, Stuck, Lists;
  }

  /** Who can finish, or has published, does not list it. */
  lemma OthersListNot(c: Chain, id: nat, n: string)
    requires Forgotten(c, n) && !Stuck(c, id)
    ensures !Lists(c, id, n)
  {
    hide AtRest, Stuck, Lists;
  }

  lemma ChainGives(c: Chain)
    requires ChainOk(c)
    ensures Sound(c) && Struct(c) && PublisherOk(c) && Rests(c)
  {
    hide Sound, Struct, PublisherOk, Rests, GoneOk;
  }

  lemma MildLists(c: Chain, c': Chain, n: string)
    requires Mild(c, c')
    ensures AtRest(c', n) == AtRest(c, n) && c'.past.made == c.past.made
    ensures forall x: nat | Lists(c', x, n) :: Lists(c, x, n)
  {
    MildRests(c, c');
    hide AtRest, Kept;
    forall id: nat | Lists(c', id, n) ensures Lists(c, id, n) {
      assert MildRow(c, id, c.rows[id], c'.rows[id]);
      assert id in c'.creators ==> MildCreator(c, id, c'.creators[id]);
    }
  }

  lemma MildForgets(c: Chain, c': Chain, n: string)
    requires Forgotten(c, n) && Mild(c, c') && StuckStays(c, c')
    ensures Forgotten(c', n)
  {
    hide Forgotten, Mild, StuckStays, AtRest, Lists;
    MildLists(c, c', n);
    ForgottenGives(c, n);
    ForgetsFrom(c, c', n);
  }

  lemma CollectsLists(c: Chain, c': Chain, id: nat, n: string)
    requires Collects(c, c', id) && AllAtRest(c, Collection(c, c.creators[id])) && !AtRest(c, n)
    ensures c'.past == c.past && !AtRest(c', n) && forall x: nat | Lists(c', x, n) :: Lists(c, x, n)
  {
    hide Collection;
    assert n !in Collection(c, c.creators[id]);
    assert Kept(c') == Kept(c);
  }

  lemma CollectsForgets(c: Chain, c': Chain, id: nat, n: string)
    requires ChainOk(c) && Forgotten(c, n) && Collects(c, c', id) && StuckStays(c, c')
    ensures Forgotten(c', n)
  {
    CollectionRests(c, id);
    hide ChainOk, Forgotten, StuckStays, Lists, AtRest;
    ForgottenGives(c, n);
    CollectsLists(c, c', id, n);
    ForgetsFrom(c, c', n);
  }

  lemma SavesLists(c: Chain, c': Chain, id: nat, n: string)
    requires PublisherOk(c) && SavesSet(c, c', id)
    ensures c'.past == c.past && AtRest(c', n) == AtRest(c, n) && forall x: nat | Lists(c', x, n) :: Lists(c, x, n)
  {
    hide AtRest, Kept, Current, Open, PublisherOk;
    var ctx :| Saves(c, c', id, ctx) && c.rows[id].published.None?;
    SaveFrame(c, c', id, ctx);
  }

  lemma SavesForgets(c: Chain, c': Chain, id: nat, n: string)
    requires ChainOk(c) && Forgotten(c, n) && SavesSet(c, c', id) && StuckStays(c, c')
    ensures Forgotten(c', n)
  {
    hide ChainOk, Sound, Struct, PublisherOk, Rests, Forgotten, StuckStays, AtRest, SavesSet, Lists;
    ChainGives(c);
    ForgottenGives(c, n);
    SavesLists(c, c', id, n);
    ForgetsFrom(c, c', n);
  }

  lemma BuysForgets(c: Chain, c': Chain, id: nat, name: string, n: string)
    requires Forgotten(c, n) && Buys(c, c', id, name) && StuckStays(c, c')
    ensures Forgotten(c', n)
  {
    hide AtRest, Kept, Stuck, Open, Forgotten, StuckStays;
    BuyFrame(c, c', id, name);
    ForgottenGives(c, n);
    assert forall x: nat | Lists(c', x, n) :: Lists(c, x, n);
    hide Lists, Buys;
    ForgetsFrom(c, c', n);
  }

  lemma PublishesForgets(c: Chain, c': Chain, id: nat, w: nat, n: string)
    requires ChainOk(c) && Forgotten(c, n) && Publishes(c, c', id) && Works(c, w, id) && StuckStays(c, c')
    ensures Forgotten(c', n)
  {
    PublishFrame(c, c', id);
    hide ChainOk, Sound, PublisherOk, Rests, Forgotten, StuckStays, Struct, AtRest, Kept;
    ChainGives(c);
    ForgottenGives(c, n);
    WorkerIsNotStuck(c, id, w);
    OthersListNot(c, id, n);
    PublishLists(c, c', id, n);
    hide Publishes, Lists;
    ForgetsFrom(c, c', n);
  }

  lemma WorkerIsNotStuck(c: Chain, id: nat, w: nat)
    requires Current(c, id) && Works(c, w, id)
    ensures !Stuck(c, id)
  {
    hide Current, Works;
  }

  lemma PublishLists(c: Chain, c': Chain, id: nat, n: string)
    requires Struct(c) && Publishes(c, c', id) && Kept(c') == c.rows[id].ctx.retained
    requires n in c.past.made && !AtRest(c, n) && !Lists(c, id, n)
    ensures !AtRest(c', n) && n in c'.past.made && c'.creators == c.creators
    ensures forall x: nat | Lists(c', x, n) :: Lists(c, x, n)
  {
    assert Own(c, id, c.rows[id].newIpId);
    hide Struct, Kept;
  }

  lemma RemovesForgets(c: Chain, c': Chain, id: nat, name: string, n: string)
    requires Forgotten(c, n) && Removes(c, c', id, name) && StuckStays(c, c')
    ensures Forgotten(c', n)
  {
    hide Carried, Forgotten, StuckStays, AtRest, Kept, Stuck;
    RemoveFrame(c, c', id, name);
    ForgottenGives(c, n);
    PublishedIsNotStuck(c, id);
    OthersListNot(c, id, n);
    RemoveLists(c, c', id, name, n);
    hide Removes, Lists;
    ForgetsFrom(c, c', n);
  }

  lemma RemoveLists(c: Chain, c': Chain, id: nat, name: string, n: string)
    requires Removes(c, c', id, name) && n in c.past.made && !AtRest(c, n) && !Lists(c, id, n)
    requires Kept(c') == (if c.past.publisher == Some(id) then Kept(c) - {name} else Kept(c))
    ensures !AtRest(c', n) && n in c'.past.made
    ensures forall x: nat | Lists(c', x, n) :: Lists(c, x, n)
  {
    hide Carried, Kept;
  }

  lemma OpenedForgets(c: Chain, c': Chain, ssh: Option<nat>, n: string)
    requires ChainOk(c) && Forgotten(c, n) && Opened(c, c', ssh) && StuckStays(c, c')
    requires ssh.Some? ==> ssh.value in c.rows && Decidable(c, c.rows[ssh.value])
    ensures Forgotten(c', n)
  {
    hide ChainOk, Sound, Struct, PublisherOk, Rests, Opened, Inherited, AtRest, Kept, Forgotten, StuckStays, Lists, Own,
         Decidable, Stuck;
    ChainGives(c);
    ForgottenGives(c, n);
    FollowedListsNot(c, c', ssh, n);
    OpenedRests(c, c', ssh);
    OpenedRows(c, c', ssh);
    InheritedIsOwned(c, ssh);
    NextHasNoBox(c);
    OpenedLists(c, c', ssh, n);
    ForgetsFrom(c, c', n);
  }

  lemma FollowedListsNot(c: Chain, c': Chain, ssh: Option<nat>, n: string)
    requires Forgotten(c, n) && Opened(c, c', ssh)
    requires ssh.Some? ==> ssh.value in c.rows && Decidable(c, c.rows[ssh.value])
    ensures ssh.Some? ==> ssh.value in c.rows && n !in c.rows[ssh.value].ctx.retained && !Own(c, ssh.value, n)
  {
    hide Forgotten, Own, Decidable;
    if ssh.Some? {
      WaitingIsNotStuck(c, ssh.value);
      OthersListNot(c, ssh.value, n);
    }
  }

  lemma OpenedLists(c: Chain, c': Chain, ssh: Option<nat>, n: string)
    requires c.nextId !in c.rows && c'.rows.Keys == c.rows.Keys + {c.nextId} && c'.past.made == c.past.made
    requires c'.rows[c.nextId].ctx.retained == Inherited(c, ssh) && !Own(c, c.nextId, n)
    requires c'.creators == c.creators[c.nextId := Creator(c.box, c.ip, Loading)]
    requires forall x | x in c.rows :: c'.rows[x].ctx == c.rows[x].ctx
    requires forall m | m in Inherited(c, ssh) :: ssh.Some? && Charged(c, ssh.value, m)
    requires ssh.Some? ==> ssh.value in c.rows && n !in c.rows[ssh.value].ctx.retained && !Own(c, ssh.value, n)
    ensures forall x: nat | Lists(c', x, n) :: Lists(c, x, n)
  {
    hide Inherited;
  }

  lemma ConfigureForgets(c: Chain, desired: nat, n: string)
    requires Forgotten(c, n) && StuckStays(c, c.(desired := desired))
    ensures Forgotten(c.(desired := desired), n)
  {
    var c' := c.(desired := desired);
    assert Kept(c') == Kept(c) && AtRest(c', n) == AtRest(c, n);
    assert forall x: nat :: Lists(c', x, n) == Lists(c, x, n);
    hide AtRest, Kept, Lists, Stuck;
  }

  lemma MoveForgets(c: Chain, s: Step, c': Chain, n: string)
    requires ChainOk(c) && Forgotten(c, n) && Moves(c, s, c') && StuckStays(c, c')
    ensures Forgotten(c', n)
  {
    hide ChainOk, Forgotten, Mild, Collects, SavesSet, Buys, Publishes, Removes, StuckStays;
    if Mild(c, c') {
      MildForgets(c, c', n);
    } else if s.Collect? {
      CollectsForgets(c, c', s.id, n);
    } else if s.Save? {
      SavesForgets(c, c', s.id, n);
    } else if s.Order? {
      BuysForgets(c, c', s.id, s.effect.value, n);
    } else if s.Publish? {
      PublishesForgets(c, c', c.installers[s.w].id, s.w, n);
    } else if s.Record? {
      RemovesForgets(c, c', s.id, s.name, n);
    } else {
      ConfigureForgets(c, s.desired, n);
    }
  }

  lemma BeginForgets(c: Chain, ssh: Option<nat>, review: Option<nat>, taken: Option<nat>, n: string)
    requires ChainOk(c) && Forgotten(c, n)
    ensures Forgotten(AfterBegin(c, ssh, review, taken), n)
  {
    hide ChainOk, MayBegin, Forgotten, Mild, StuckStays, TakeOver, Opened, Retry, Enrol, Decidable;
    if MayBegin(c, ssh, review) {
      var c1 := TakeOver(c, taken);
      var c2 := Retry(Enrol(c1, ssh), ssh);
      BeginOpens(c, ssh, review, taken);
      BeginStaysApart(c, ssh, review, taken);
      MildForgets(c, c1, n);
      OpenedForgets(c1, c2, ssh, n);
      MildForgets(c2, Retry(c2, review), n);
    }
  }

  lemma BeginStaysApart(c: Chain, ssh: Option<nat>, review: Option<nat>, taken: Option<nat>)
    requires ChainOk(c) && MayBegin(c, ssh, review)
    ensures var c1 := TakeOver(c, taken); var c2 := Retry(Enrol(c1, ssh), ssh);
            && StuckStays(c, c1) && StuckStays(c1, c2) && StuckStays(c2, Retry(c2, review))
            && (ssh.Some? ==> ssh.value in c1.rows && Decidable(c1, c1.rows[ssh.value]))
  {
    var c1 := TakeOver(c, taken);
    var c2 := Enrol(c1, ssh);
    DecidableStays(c, ssh, review, taken);
    hide Sound, Conserved, StuckStays, MayBegin, TakeOver, Enrol, Retry, QuietStep, IsDone, Decidable;
    ConservedGives(c);
    BegunFromDone(c, ssh, review, taken);
    TakeOverKeeps(c, taken);
    TakeOverStays(c, taken);
    EnrolStays(c1, ssh);
    EnrolKeeps(c1, ssh);
    RetryStays(c2, ssh);
    RetryIsSound(c2, ssh);
    RetryStays(Retry(c2, ssh), review);
    StaysTransitively(c1, c2, Retry(c2, ssh));
  }

  lemma DecidableStays(c: Chain, ssh: Option<nat>, review: Option<nat>, taken: Option<nat>)
    requires MayBegin(c, ssh, review)
    ensures var c1 := TakeOver(c, taken); ssh.Some? ==> ssh.value in c1.rows && Decidable(c1, c1.rows[ssh.value])
  {
    hide InterruptIp, OnHold;
    if ssh.Some? {
      ClosedStays(c, taken, ssh.value);
    }
  }

  lemma StepForgets(c: Chain, s: Step, n: string)
    requires ChainOk(c) && Forgotten(c, n) && Fits(c, s)
    ensures Forgotten(Next(c, s), n)
  {
    hide ChainOk, Forgotten, Moves, StuckStays, Fits, NextCreate, NextInstall, NextClean, NextOther, AfterBegin;
    if s.Begin? {
      BeginForgets(c, s.ssh, s.review, s.taken, n);
    } else {
      hide Next;
      StepStays(c, s);
      StepMoves(c, s);
      MoveForgets(c, s, Next(c, s), n);
    }
  }

  /** In no later run, whatever stalls and is taken over, does anything count on the box again. */
  lemma {:induction false} ForgottenForGood(c: Chain, steps: seq<Step>, n: string)
    requires ChainOk(c) && Forgotten(c, n) && AllFit(c, steps)
    ensures Forgotten(Run(c, steps), n)
    decreases |steps|
  {
    hide ChainOk, Forgotten, Next, Fits;
    if steps == [] {
    } else {
      StepConserves(c, steps[0]);
      StepForgets(c, steps[0], n);
      ForgottenForGood(Next(c, steps[0]), steps[1..], n);
    }
  }

  /* ---------- when it is forgotten ---------- */

  /** Whoever lists a box that is not at rest is the attempt that answers for it, or handed it on and died. */
  lemma CarrierIsHeirOrDead(c: Chain, x: nat, y: nat, n: string)
    requires Kin(c) && Open(c, x) && Charged(c, x, n) && n in c.past.made && !AtRest(c, n) && Lists(c, y, n)
    ensures y == x || Dead(c, y)
  {
    hide Single, Unasked, Passed, OwnIsLoose, InheritedIsLoose, AtRest;
    CollectedIsListed(c, y, n);
    if c.rows[y].published.Some? {
      PublishedIsAtRest(c, y, n);
    } else if !Open(c, y) && !HandedOn(c.rows[y]) {
      FailedListsNothing(c, y, n);
    }
    hide ChainOk;
  }

  /** What a program has collected and is not at rest, its row lists. */
  lemma CollectedIsListed(c: Chain, y: nat, n: string)
    requires KeptFit(c) && Lists(c, y, n) && !AtRest(c, n)
    ensures Charged(c, y, n)
  {
    hide AtRest;
    if y in c.creators && c.creators[y].pc.Collected? {
      assert KeptFits(c, y, c.creators[y].pc.kept);
    }
  }

  lemma PublishedIsAtRest(c: Chain, id: nat, n: string)
    requires Sound(c) && Struct(c) && Rests(c) && id in c.rows && Charged(c, id, n) && c.rows[id].published.Some?
    ensures AtRest(c, n)
  {
    RowIsOk(c, id);
    RowGives(c.desired, c.rows[id]);
    assert RowRests(c, id, c.rows[id]) && Own(c, id, c.rows[id].newIpId);
  }

  lemma FailedListsNothing(c: Chain, id: nat, n: string)
    requires Sound(c) && Struct(c) && Rests(c) && id in c.rows && Charged(c, id, n) && c.rows[id].status == FAILURE
    requires id !in c.past.follows
    ensures AtRest(c, n)
  {
    FailedIsUnbought(c, id);
    RestingSet(c, id);
    hide Sound, Struct, Rests, AtRest;
  }

  /** A box that is not at rest is forgotten if and only if the attempt that answers for it is stuck. */
  lemma ForgottenExactlyWhen(c: Chain, x: nat, n: string)
    requires Kin(c) && Open(c, x) && Charged(c, x, n) && n in c.past.made && !AtRest(c, n)
    ensures Forgotten(c, n) <==> Stuck(c, x)
  {
    hide Kin, Open, AtRest, Stuck;
    assert Lists(c, x, n) by {
      OpenHasRow(c, x);
    }
    if Stuck(c, x) {
      forall y: nat | Lists(c, y, n) ensures Stuck(c, y) {
        CarrierIsHeirOrDead(c, x, y, n);
        if y != x {
          DeadIsStuck(c, y);
        }
      }
    }
  }

  /** So a change of the configuration forgets every box that is not at rest: what is not published yet is outdated, and
      neither a publication nor a decision accepts it any more. */
  lemma ChangeForgets(c: Chain, desired: nat, n: string)
    requires ChainOk(c) && n in c.past.made && !AtRest(c, n) && c.desired < desired
    ensures Forgotten(Next(c, Configure(desired)), n)
  {
    hide ChainOk, NextDecide, NextCreate, NextInstall, NextClean, AtRest, Lists, Stuck, Open, Buying, Decidable;
    var c' := Next(c, Configure(desired));
    assert c' == c.(desired := desired);
    ChangedRests(c, desired, n);
    forall x: nat | Lists(c', x, n) ensures Stuck(c', x) {
      ListedIsUnpublished(c, x, n);
      OutdatedIsStuck(c, x, desired);
    }
  }

  lemma ChangedRests(c: Chain, desired: nat, n: string)
    ensures AtRest(c.(desired := desired), n) == AtRest(c, n)
    ensures forall x: nat :: Lists(c.(desired := desired), x, n) == Lists(c, x, n)
  {
    assert Kept(c.(desired := desired)) == Kept(c);
    hide Kept;
  }

  lemma OutdatedIsStuck(c: Chain, x: nat, desired: nat)
    requires ChainOk(c) && x in c.rows && c.rows[x].published.None? && c.desired < desired
    ensures Stuck(c.(desired := desired), x)
  {
    hide ChainOk, Sound, Struct, PublisherOk, Rests, Columns, Buying, Decidable, Works;
    ChainGives(c);
    RowIsOk(c, x);
  }

  /** What a published row lists is at rest. */
  lemma ListedIsUnpublished(c: Chain, x: nat, n: string)
    requires ChainOk(c) && Lists(c, x, n) && !AtRest(c, n)
    ensures x in c.rows && c.rows[x].published.None?
  {
    hide ChainOk, Sound, Struct, PublisherOk, Rests, AtRest;
    ChainGives(c);
    if x in c.rows && c.rows[x].published.Some? {
      PublishedHasNoCreator(c, x);
      PublishedIsAtRest(c, x, n);
    }
  }

  lemma PublishedHasNoCreator(c: Chain, x: nat)
    requires Sound(c) && x in c.rows && c.rows[x].published.Some?
    ensures x !in c.creators
  {
    RowIsOk(c, x);
    RowGives(c.desired, c.rows[x]);
    if x in c.creators {
      OnlyProgram(c, x);
    }
    hide Sound, RowOk;
  }

  /* ---------- the retry that fails ---------- */

  /** The retry failed before it bought a box, and its program has ended. */
  predicate RetryFailed(c: Chain, b: nat) {
    && b in c.past.follows && c.past.follows[b] in c.rows && b in c.rows && c.rows[b].status == FAILURE
    && b !in c.creators
  }

  lemma FailedRetryIsDead(c: Chain, b: nat)
    requires Kin(c) && RetryFailed(c, b)
    ensures Open(c, b) && Dead(c, b)
  {
    hide Heirs, Passed, Single, Unasked, Conserved, Sound, RowOk, InstallerOk;
    RowIsOk(c, b);
    FailedRow(c.desired, c.rows[b]);
    forall w ensures !Works(c, w, b) {
      if Works(c, w, b) {
        InstallerFits(c, w);
        FailedHasNoInstaller(c.desired, c.rows[b], c.installers[w]);
      }
    }
  }

  lemma FailedRow(desired: nat, row: IpOp)
    requires RowOk(desired, row) && row.status == FAILURE
    ensures row.published.None?
  {
  }

  lemma FailedHasNoInstaller(desired: nat, row: IpOp, k: Installer)
    requires RowOk(desired, row) && row.status == FAILURE
    ensures !InstallerOk(row, k)
  {
  }

  /** Without the takeover of an operation that is being installed: when an SSH retry has failed, on whatever path
      before its purchase, the box of the attempt it follows up is forgotten. Whatever happens afterwards, stalls and
      takeovers included, it never becomes the active box, nor one that the publication retains, nor is it recorded
      gone. */
  lemma FailedRetryForgets(c0: Chain, steps: seq<Step>, later: seq<Step>, b: nat)
    requires Initial(c0) && AllFit(c0, steps) && AllSpare(c0, steps) && RetryFailed(Run(c0, steps), b)
    requires AllFit(Run(c0, steps), later)
    ensures var c := Run(c0, steps); var n := c.rows[c.past.follows[b]].newIpId; var c' := Run(c, later);
            && n in c'.past.made && Forgotten(c', n) && n != c'.box && n !in Kept(c') && n !in c'.past.gone
  {
    InitialKin(c0);
    RunKin(c0, steps);
    var c := Run(c0, steps);
    var n := c.rows[c.past.follows[b]].newIpId;
    hide Run, AllFit, AllSpare, Initial;
    FailedRetryIsDead(c, b);
    InheritedBox(c, b);
    hide Dead, Open, Charged, Kept;
    DeadIsStuck(c, b);
    hide Stuck;
    ForgottenExactlyWhen(c, b, n);
    KinIsOk(c);
    hide Kin, ChainOk;
    ForgottenForGood(c, later, n);
  }

  lemma KinIsOk(c: Chain)
    requires Kin(c)
    ensures ChainOk(c)
  {
    hide ChainOk, Single, Unasked, Passed, Heirs;
  }

  /** What an open retry answers for first of all. */
  lemma InheritedBox(c: Chain, b: nat)
    requires Kin(c) && b in c.past.follows && Open(c, b) && c.past.follows[b] in c.rows
    ensures var n := c.rows[c.past.follows[b]].newIpId; n in c.past.made && !AtRest(c, n) && n != "" && Charged(c, b, n)
  {
    var a := c.past.follows[b];
    assert PassedOn(c, a, b) && Loose(c, a) && Own(c, a, c.rows[a].newIpId);
    hide ChainOk, Single, Unasked, Heirs;
  }

  /** Nor is its deletion asked for again. */
  lemma {:induction false} ForgottenIsNotAskedFor(c: Chain, steps: seq<Step>, n: string)
    requires ChainOk(c) && Forgotten(c, n) && AllFit(c, steps)
    ensures forall d | d in Run(c, steps).past.deletions && d.1 == n :: d in c.past.deletions
    decreases |steps|
  {
    hide ChainOk, Forgotten, Next, Fits;
    if steps == [] {
    } else {
      StepConserves(c, steps[0]);
      StepForgets(c, steps[0], n);
      StepAsksNot(c, steps[0], n);
      ForgottenIsNotAskedFor(Next(c, steps[0]), steps[1..], n);
    }
  }

  lemma StepAsksNot(c: Chain, s: Step, n: string)
    requires ChainOk(c) && Forgotten(c, n)
    ensures forall d | d in Next(c, s).past.deletions && d.1 == n :: d in c.past.deletions
  {
    hide ChainOk, Forgotten, Next, AfterAsk;
    if s.Ask? && CleansUp(c, s.id) {
      AskAsksNot(c, s.id, n);
      AskIsNext(c, s.id);
    } else {
      OnlyAskAsks(c, s);
    }
  }

  lemma AskIsNext(c: Chain, id: nat)
    requires CleansUp(c, id)
    ensures Next(c, Ask(id)) == AfterAsk(c, id)
  {
    hide AfterAsk, NextDecide, NextCreate, NextInstall, NextOther;
  }

  lemma AskAsksNot(c: Chain, id: nat, n: string)
    requires ChainOk(c) && Forgotten(c, n) && CleansUp(c, id)
    ensures forall d | d in AfterAsk(c, id).past.deletions && d.1 == n :: d in c.past.deletions
  {
    ChainGives(c);
    hide ChainOk, Sound, Struct, PublisherOk, Rests, Forgotten;
    CleanerFits(c, id);
    PublishedIsNotStuck(c, id);
    OthersListNot(c, id, n);
  }

  lemma OnlyAskAsks(c: Chain, s: Step)
    requires !s.Ask? || !CleansUp(c, s.id)
    ensures Next(c, s).past.deletions == c.past.deletions
  {
    hide NextDecide, NextCreate, NextInstall, NextClean, NextOther;
    if Decides(s) {
      DecideAsksNot(c, s);
    } else if Creates(s) {
      if Rotates(c, s.id) { CreateAsksNot(c, s, s.id); }
    } else if Installs(s) {
      if Provisions(c, s.w) { InstallAsksNot(c, s, s.w); }
    } else if Cleans(s) {
      if CleansUp(c, s.id) { CleanAsksNot(c, s, s.id); }
    } else {
      OtherAsksNot(c, s);
    }
  }

  lemma DecideAsksNot(c: Chain, s: Step)
    ensures NextDecide(c, s).past.deletions == c.past.deletions
  {
    hide AfterBegin, TakeOver, SetStatus, MayBegin, Decidable, ExternalActionStarted, Reviewable;
    StatusAsksNot(c);
    if s.Begin? {
      BeginAsksNot(c, s.ssh, s.review, s.taken);
    } else if s.QueueWait? || s.QueueCleanup? {
      StatusAsksNot(TakeOver(c, s.taken));
      TakeOverAsksNot(c, s.taken);
    }
  }

  lemma StatusAsksNot(c: Chain)
    ensures forall id, status, action :: SetStatus(c, id, status, action).past == c.past
  {
  }

  lemma TakeOverAsksNot(c: Chain, taken: Option<nat>)
    ensures TakeOver(c, taken).past == c.past
  {
    hide InterruptIp;
  }

  lemma BeginAsksNot(c: Chain, ssh: Option<nat>, review: Option<nat>, taken: Option<nat>)
    ensures AfterBegin(c, ssh, review, taken).past.deletions == c.past.deletions
  {
    hide TakeOver, Enrol, Retry, MayBegin;
    TakeOverAsksNot(c, taken);
    EnrolAsksNot(TakeOver(c, taken), ssh);
    RetryAsksNot(Enrol(TakeOver(c, taken), ssh), ssh);
    RetryAsksNot(Retry(Enrol(TakeOver(c, taken), ssh), ssh), review);
  }

  lemma EnrolAsksNot(c: Chain, ssh: Option<nat>)
    ensures Enrol(c, ssh).past.deletions == c.past.deletions
  {
    hide Abandoned;
  }

  lemma RetryAsksNot(c: Chain, id: Option<nat>)
    ensures Retry(c, id).past == c.past
  {
  }

  lemma CreateAsksNot(c: Chain, s: Step, id: nat)
    requires Rotates(c, id)
    ensures NextCreate(c, s, id).past.deletions == c.past.deletions
  {
    hide Tell, Collection, ExternalActionStarted;
    TellAsksNot(c, id);
  }

  lemma TellAsksNot(c: Chain, id: nat)
    ensures forall row: IpOp, k: Option<Creator> :: Tell(c, id, row, k).past == c.past
  {
  }

  lemma InstallAsksNot(c: Chain, s: Step, w: nat)
    requires Provisions(c, w)
    ensures NextInstall(c, s, w).past.deletions == c.past.deletions
  {
  }

  lemma CleanAsksNot(c: Chain, s: Step, id: nat)
    requires CleansUp(c, id) && !s.Ask?
    ensures NextClean(c, s, id).past.deletions == c.past.deletions
  {
    hide Carried, Target, MayRecord;
  }

  lemma OtherAsksNot(c: Chain, s: Step)
    ensures NextOther(c, s).past.deletions == c.past.deletions
  {
    hide InterruptIp;
  }
}
