/** A SprintBOX box that is not at rest comes to rest in some run if and only if it is not forgotten. */
module SprintRescue {
  import opened Base
  import opened Tables
  import opened OperationRows
  import opened SprintChain
  import opened SprintPrograms
  import opened SprintConservation
  import opened SprintRuns
  import opened SprintSteps
  import opened SprintSecondInstall
  import opened SprintStuck
  import opened SprintForgotten

  /** A current attempt lists the box. */
  ghost predicate Carrying(c: Chain, x: nat, n: string) {
    Current(c, x) && n in c.past.made && Lists(c, x, n)
  }

  lemma LeadsConserves(c0: Chain, c: Chain)
    requires ChainOk(c0) && Leads(c0, c)
    ensures ChainOk(c)
  {
    hide ChainOk;
    var steps :| AllFit(c0, steps) && Run(c0, steps) == c;
    RunConserves(c0, steps);
  }

  /* ---------- installing and publishing ---------- */

  function WorkStep(w: nat, pc: InstallerPc): Step {
    match pc
    case Entering => Enter(w)
    case Waiting => Reach(w)
    case Reached => MarkDeploy(w)
    case Deploying => Deploy(w)
    case Deployed => Applied(w)
    case Publishing => Publish(w)
    case Closing => Close(w)
  }

  function Onward(pc: InstallerPc): InstallerPc {
    match pc
    case Entering => Waiting
    case Waiting => Reached
    case Reached => Deploying
    case Deploying => Deployed
    case Deployed => Publishing
    case _ => Closing
  }

  function Distance(pc: InstallerPc): nat {
    match pc
    case Entering => 6
    case Waiting => 5
    case Reached => 4
    case Deploying => 3
    case Deployed => 2
    case Publishing => 1
    case Closing => 0
  }

  /** The same box and set in the same attempt, with the same provider. */
  ghost predicate SameLoad(c: Chain, c': Chain, x: nat) {
    && x in c.rows && x in c'.rows && c'.desired == c.desired && c'.past.made == c.past.made
    && c'.rows[x].ctx == c.rows[x].ctx && c'.rows[x].revision == c.rows[x].revision
    && c'.rows[x].published == c.rows[x].published
    && (x in c.creators && c.creators[x].pc.Collected?
        ==> x in c'.creators && c'.creators[x].pc.Collected? && c'.creators[x].pc.kept == c.creators[x].pc.kept)
  }

  lemma SameLoadCarries(c: Chain, c': Chain, x: nat, n: string)
    requires Carrying(c, x, n) && SameLoad(c, c', x)
    ensures Carrying(c', x, n)
  {
  }

  lemma WorkGoes(c: Chain, w: nat, x: nat)
    requires Works(c, w, x) && x in c.rows && !c.installers[w].pc.Publishing? && !c.installers[w].pc.Closing?
    ensures var pc := c.installers[w].pc; var c' := Next(c, WorkStep(w, pc));
            SameLoad(c, c', x) && Works(c', w, x) && c'.installers[w].pc == Onward(pc) && Fits(c, WorkStep(w, pc))
  {
    hide NextDecide, NextCreate, NextClean, NextOther;
  }

  /** The publication makes its box the active one, and keeps its set. */
  lemma PublishRests(c: Chain, w: nat, x: nat, n: string)
    requires ChainOk(c) && Carrying(c, x, n) && Works(c, w, x) && c.installers[w].pc.Publishing?
    ensures AtRest(Next(c, Publish(w)), n) && Fits(c, Publish(w))
  {
    hide ChainOk, Sound, Struct, PublisherOk, Rests, RowOk, Next, Own;
    ChainGives(c);
    InstallerFits(c, w);
    RowGives(c.desired, c.rows[x]);
    OwnBox(c, x, n);
    PublishTakes(c, w, x);
  }

  lemma PublishTakes(c: Chain, w: nat, x: nat)
    requires Current(c, x) && Works(c, w, x) && c.installers[w].pc.Publishing?
    ensures var c' := Next(c, Publish(w));
            && c'.box == c.installers[w].name && c'.past.publisher == Some(x) && x in c'.rows
            && c'.rows[x].ctx == c.rows[x].ctx
  {
    hide NextDecide, NextCreate, NextClean, NextOther;
  }

  lemma OwnBox(c: Chain, x: nat, n: string)
    requires Struct(c) && x in c.rows && c.rows[x].newIpId != ""
    ensures Own(c, x, n) ==> n == c.rows[x].newIpId
  {
    assert Own(c, x, c.rows[x].newIpId);
  }

  /** A program that installs goes on to the publication. */
  lemma {:induction false} WorkRests(c0: Chain, c: Chain, w: nat, x: nat, n: string) returns (c': Chain)
    requires ChainOk(c0) && Leads(c0, c) && Carrying(c, x, n) && Works(c, w, x)
    ensures Leads(c0, c') && AtRest(c', n)
    decreases Distance(c.installers[w].pc)
  {
    hide ChainOk, Leads, Next, Fits, AtRest, Lists, Current;
    LeadsConserves(c0, c);
    NotClosing(c, w, x);
    var pc := c.installers[w].pc;
    LeadsToNext(c0, c, w, x, n);
    if pc.Publishing? {
      c' := Next(c, Publish(w));
    } else {
      c' := WorkRests(c0, Next(c, WorkStep(w, pc)), w, x, n);
    }
  }

  lemma LeadsToNext(c0: Chain, c: Chain, w: nat, x: nat, n: string)
    requires ChainOk(c) && Leads(c0, c) && Carrying(c, x, n) && Works(c, w, x) && !c.installers[w].pc.Closing?
    ensures var pc := c.installers[w].pc; var c' := Next(c, WorkStep(w, pc));
            && Leads(c0, c') && (pc.Publishing? ==> AtRest(c', n))
            && (!pc.Publishing? ==> Carrying(c', x, n) && Works(c', w, x) && c'.installers[w].pc == Onward(pc))
  {
    hide ChainOk, Leads, Next, Fits, AtRest, Lists;
    if c.installers[w].pc.Publishing? {
      PublishRests(c, w, x, n);
    } else {
      WorkGoes(c, w, x);
      SameLoadCarries(c, Next(c, WorkStep(w, c.installers[w].pc)), x, n);
    }
    LeadsOn(c0, c, WorkStep(w, c.installers[w].pc));
  }

  lemma NotClosing(c: Chain, w: nat, x: nat)
    requires ChainOk(c) && Current(c, x) && Works(c, w, x)
    ensures !c.installers[w].pc.Closing?
  {
    hide ChainOk, Sound, Struct, PublisherOk, Rests, RowOk;
    ChainGives(c);
    InstallerFits(c, w);
  }

  /* ---------- taking the wait up ---------- */

  lemma {:induction false} FreshNumber(s: set<nat>) returns (w: nat)
    ensures forall v | v in s :: v < w
  {
    if s == {} {
      w := 0;
    } else {
      var v :| v in s;
      w := FreshNumber(s - {v});
      w := if v < w then w else v + 1;
      assert forall u | u in s :: u == v || u in s - {v};
    }
  }

  /** A box that is waited for, or decided over, is waited for again by a new program. */
  lemma WaitRests(c0: Chain, c: Chain, x: nat, n: string) returns (c': Chain)
    requires ChainOk(c0) && Leads(c0, c) && Carrying(c, x, n) && Decidable(c, c.rows[x]) && Resumable(c.rows[x])
    ensures Leads(c0, c') && AtRest(c', n)
  {
    hide ChainOk, Leads, Next, AtRest, Decidable;
    var w := FreshNumber(c.installers.Keys);
    var c1 := WaitIsQueued(c0, c, x);
    TakenUp(c1, x, w);
    LeadsOn(c0, c1, TakeWait(x, w, true));
    var c2 := Next(c1, TakeWait(x, w, true));
    SameLoadCarries(c, c2, x, n);
    c' := WorkRests(c0, c2, w, x, n);
  }

  /* ---------- buying ---------- */

  lemma {:induction false} FreshName(s: set<string>) returns (n: string)
    ensures n != "" && forall m | m in s :: |m| < |n|
  {
    if s == {} {
      n := "n";
    } else {
      var m :| m in s;
      n := FreshName(s - {m});
      n := if |m| < |n| then n else m + "n";
      assert forall k | k in s :: k == m || k in s - {m};
    }
  }

  predicate BuysAt(c: Chain, x: nat, pc: CreatorPc) {
    x in c.creators && x in c.rows && c.creators[x].pc == pc
  }

  lemma UnspentRow(c: Chain, x: nat)
    requires Sound(c) && BuysAt(c, x, Loading)
    ensures !ExternalActionStarted(c.rows[x])
  {
    OnlyProgram(c, x);
    hide Sound;
  }

  lemma LoadGoes(c: Chain, x: nat, n: string)
    requires Sound(c) && Carrying(c, x, n) && BuysAt(c, x, Loading) && c.rows[x].status.Active()
    ensures var c' := Next(c, Load(x)); Carrying(c', x, n) && BuysAt(c', x, Checking) && Fits(c, Load(x))
  {
    hide Sound, Columns, NextDecide, NextInstall, NextClean, NextOther;
    OnlyProgram(c, x);
    UnspentRow(c, x);
  }

  lemma CollectGoes(c: Chain, x: nat, n: string)
    requires Carrying(c, x, n) && BuysAt(c, x, Checking)
    ensures var c' := Next(c, Collect(x));
            Carrying(c', x, n) && x in c'.creators && c'.creators[x].pc.Collected? && Fits(c, Collect(x))
  {
    hide NextDecide, NextInstall, NextClean, NextOther, Collection;
  }

  lemma SaveGoes(c: Chain, x: nat, n: string)
    requires Rests(c) && Carrying(c, x, n) && x in c.creators && c.creators[x].pc.Collected?
    ensures var s := Save(x, "m", ""); Carrying(Next(c, s), x, n) && BuysAt(Next(c, s), x, Saved) && Fits(c, s)
  {
    hide Rests, NextDecide, NextInstall, NextClean, NextOther;
    CollectedKeeps(c, x);
  }

  lemma CollectedKeeps(c: Chain, x: nat)
    requires Rests(c) && x in c.creators && x in c.rows && c.creators[x].pc.Collected?
    ensures c.rows[x].ctx.retained.Keys <= c.creators[x].pc.kept.Keys
  {
    assert CreatorRests(c, x, c.creators[x]);
    hide Rests, AtRest;
  }

  lemma NoteGoes(c: Chain, x: nat, n: string)
    requires Carrying(c, x, n) && BuysAt(c, x, Saved)
    ensures var s := Note(x, "", "");
            && Carrying(Next(c, s), x, n) && BuysAt(Next(c, s), x, Saved) && Fits(c, s)
            && Next(c, s).rows[x].status == RUNNING
  {
    hide NextDecide, NextInstall, NextClean, NextOther;
  }

  lemma ClaimGoes(c: Chain, x: nat, n: string)
    requires Sound(c) && Carrying(c, x, n) && BuysAt(c, x, Saved) && c.rows[x].status == RUNNING
    ensures Carrying(Next(c, Claim(x)), x, n) && BuysAt(Next(c, Claim(x)), x, Ordering) && Fits(c, Claim(x))
  {
    hide Sound, RowOk, NextDecide, NextInstall, NextClean, NextOther;
    OnlyProgram(c, x);
  }

  lemma OrderGoes(c: Chain, x: nat, n: string, name: string)
    requires Carrying(c, x, n) && BuysAt(c, x, Ordering) && name !in c.past.made && name != ""
    ensures var s := Order(x, Some(name), Told); var c' := Next(c, s);
            Carrying(c', x, n) && BuysAt(c', x, Answered) && Bought(c', x) && Fits(c, s)
  {
    hide NextDecide, NextInstall, NextClean, NextOther;
    assert name in Next(c, Order(x, Some(name), Told)).past.made;
  }

  lemma AnswerGoes(c: Chain, x: nat, n: string)
    requires Carrying(c, x, n) && BuysAt(c, x, Answered) && Bought(c, x)
    ensures var c' := Next(c, Answer(x));
            Carrying(c', x, n) && BuysAt(c', x, Identifying) && Bought(c', x) && Fits(c, Answer(x))
  {
    hide NextDecide, NextInstall, NextClean, NextOther;
  }

  lemma ConfirmGoes(c: Chain, x: nat, n: string, name: string, w: nat)
    requires Carrying(c, x, n) && BuysAt(c, x, Identifying) && Own(c, x, name) && w !in c.installers
    ensures var s := Confirm(x, name, "1", w); Carrying(Next(c, s), x, n) && Works(Next(c, s), w, x) && Fits(c, s)
  {
    hide NextDecide, NextInstall, NextClean, NextOther;
  }

  /** From the order on. */
  lemma OrderedRests(c0: Chain, c: Chain, x: nat, n: string) returns (c': Chain)
    requires ChainOk(c0) && Leads(c0, c) && Carrying(c, x, n) && BuysAt(c, x, Ordering)
    ensures Leads(c0, c') && AtRest(c', n)
  {
    hide ChainOk, Leads, Next, AtRest, Lists, Current, Fits, Bought;
    var name := FreshName(c.past.made.Keys);
    OrderGoes(c, x, n, name);
    LeadsOn(c0, c, Order(x, Some(name), Told));
    c' := AnsweredRests(c0, Next(c, Order(x, Some(name), Told)), x, n);
  }

  lemma AnsweredRests(c0: Chain, c: Chain, x: nat, n: string) returns (c': Chain)
    requires ChainOk(c0) && Leads(c0, c) && Carrying(c, x, n) && BuysAt(c, x, Answered) && Bought(c, x)
    ensures Leads(c0, c') && AtRest(c', n)
  {
    hide ChainOk, Leads, Next, AtRest, Lists, Current, Fits, Bought;
    AnswerGoes(c, x, n);
    LeadsOn(c0, c, Answer(x));
    c' := IdentifiedRests(c0, Next(c, Answer(x)), x, n);
  }

  lemma IdentifiedRests(c0: Chain, c: Chain, x: nat, n: string) returns (c': Chain)
    requires ChainOk(c0) && Leads(c0, c) && Carrying(c, x, n) && BuysAt(c, x, Identifying) && Bought(c, x)
    ensures Leads(c0, c') && AtRest(c', n)
  {
    hide ChainOk, Leads, Next, AtRest, Lists, Current, Fits;
    var name :| name in c.past.made && c.past.made[name] == x;
    var w := FreshNumber(c.installers.Keys);
    ConfirmGoes(c, x, n, name, w);
    LeadsOn(c0, c, Confirm(x, name, "1", w));
    c' := WorkRests(c0, Next(c, Confirm(x, name, "1", w)), w, x, n);
  }

  lemma SavedRests(c0: Chain, c: Chain, x: nat, n: string) returns (c': Chain)
    requires ChainOk(c0) && Leads(c0, c) && Carrying(c, x, n) && BuysAt(c, x, Saved)
    ensures Leads(c0, c') && AtRest(c', n)
  {
    hide ChainOk, Leads, Next, AtRest, Lists, Current, Fits;
    NoteGoes(c, x, n);
    LeadsOn(c0, c, Note(x, "", ""));
    var c1 := Next(c, Note(x, "", ""));
    LeadsConserves(c0, c1);
    ChainGives(c1);
    ClaimGoes(c1, x, n);
    LeadsOn(c0, c1, Claim(x));
    c' := OrderedRests(c0, Next(c1, Claim(x)), x, n);
  }

  lemma CollectedRests(c0: Chain, c: Chain, x: nat, n: string) returns (c': Chain)
    requires ChainOk(c0) && Leads(c0, c) && Carrying(c, x, n) && x in c.creators && c.creators[x].pc.Collected?
    ensures Leads(c0, c') && AtRest(c', n)
  {
    hide ChainOk, Leads, Next, AtRest, Lists, Current, Fits;
    LeadsConserves(c0, c);
    ChainGives(c);
    SaveGoes(c, x, n);
    LeadsOn(c0, c, Save(x, "m", ""));
    c' := SavedRests(c0, Next(c, Save(x, "m", "")), x, n);
  }

  lemma CheckedRests(c0: Chain, c: Chain, x: nat, n: string) returns (c': Chain)
    requires ChainOk(c0) && Leads(c0, c) && Carrying(c, x, n) && BuysAt(c, x, Checking)
    ensures Leads(c0, c') && AtRest(c', n)
  {
    hide ChainOk, Leads, Next, AtRest, Lists, Current, Fits;
    CollectGoes(c, x, n);
    LeadsOn(c0, c, Collect(x));
    c' := CollectedRests(c0, Next(c, Collect(x)), x, n);
  }

  lemma LoadedRests(c0: Chain, c: Chain, x: nat, n: string) returns (c': Chain)
    requires ChainOk(c0) && Leads(c0, c) && Carrying(c, x, n) && BuysAt(c, x, Loading) && c.rows[x].status.Active()
    ensures Leads(c0, c') && AtRest(c', n)
  {
    hide ChainOk, Leads, Next, AtRest, Lists, Current, Fits;
    LeadsConserves(c0, c);
    ChainGives(c);
    LoadGoes(c, x, n);
    LeadsOn(c0, c, Load(x));
    c' := CheckedRests(c0, Next(c, Load(x)), x, n);
  }

  lemma BuyingRests(c0: Chain, c: Chain, x: nat, n: string) returns (c': Chain)
    requires ChainOk(c0) && Leads(c0, c) && Carrying(c, x, n) && Buying(c, x)
    ensures Leads(c0, c') && AtRest(c', n)
  {
    hide ChainOk, Leads, AtRest, Lists, Current, Bought;
    match c.creators[x].pc
    case Loading => c' := LoadedRests(c0, c, x, n);
    case Checking => c' := CheckedRests(c0, c, x, n);
    case Collected(_) => c' := CollectedRests(c0, c, x, n);
    case Saved => c' := SavedRests(c0, c, x, n);
    case Ordering => c' := OrderedRests(c0, c, x, n);
    case Answered => c' := AnsweredRests(c0, c, x, n);
    case Identifying => c' := IdentifiedRests(c0, c, x, n);
  }

  /* ---------- exactly when ---------- */

  /** An attempt that can finish brings what it lists to rest, in some run. */
  lemma FinishingRests(c: Chain, x: nat, n: string) returns (c': Chain)
    requires ChainOk(c) && CanFinish(c, x) && n in c.past.made && Lists(c, x, n)
    ensures Leads(c, c') && AtRest(c', n)
  {
    hide ChainOk, Leads, AtRest, Lists, Current, Buying, Decidable, Resumable, Works;
    StaysPut(c);
    if w :| Works(c, w, x) {
      c' := WorkRests(c, c, w, x, n);
    } else if Buying(c, x) {
      c' := BuyingRests(c, c, x, n);
    } else {
      c' := WaitRests(c, c, x, n);
    }
  }

  /** In every state, whatever stalled: a box that is not at rest comes to rest in some run if and only if it is not
      forgotten. */
  lemma RestsInSomeRunExactlyWhen(c: Chain, n: string)
    requires ChainOk(c) && n in c.past.made && !AtRest(c, n)
    ensures (exists c' :: Leads(c, c') && AtRest(c', n)) <==> !Forgotten(c, n)
  {
    hide ChainOk, Leads, AtRest, Lists, CanFinish;
    if Forgotten(c, n) {
      forall c' | Leads(c, c') ensures !AtRest(c', n) {
        ForgottenLeads(c, c', n);
      }
    } else {
      var x: nat :| Lists(c, x, n) && !Stuck(c, x);
      ListedIsUnpublished(c, x, n);
      var c' := FinishingRests(c, x, n);
    }
  }

  lemma ForgottenLeads(c: Chain, c': Chain, n: string)
    requires ChainOk(c) && Leads(c, c') && Forgotten(c, n)
    ensures !AtRest(c', n)
  {
    hide ChainOk, Forgotten, AtRest;
    var steps :| AllFit(c, steps) && Run(c, steps) == c';
    ForgottenForGood(c, steps, n);
    ForgottenGives(c', n);
  }
}
