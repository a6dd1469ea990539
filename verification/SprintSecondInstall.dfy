/** Exactly when a SprintBOX operation can be installed twice, or a decision open over an installed box: when a queued
    wait is taken up beside a living program of the same operation. And such a wait follows from every state in which a
    program that has not begun to install can be taken over. */
module SprintSecondInstall {
  import opened Base
  import opened Tables
  import opened OperationRows
  import opened SprintChain
  import opened SprintPrograms
  import opened SprintConservation
  import opened SprintRuns
  import opened SprintSteps
  import opened SprintRequests
  import opened SprintSending
  import opened SprintStalls
  import opened SprintWrites

  /* ---------- runs, step by step ---------- */

  ghost predicate Leads(c: Chain, c': Chain) {
    exists steps :: AllFit(c, steps) && Run(c, steps) == c'
  }

  /** No further wait is taken up beside a living program. */
  ghost predicate LeadsAlone(c: Chain, c': Chain) {
    exists steps :: AllFit(c, steps) && NoneJoins(c, steps) && Run(c, steps) == c'
  }

  lemma StaysPut(c: Chain)
    ensures Leads(c, c) && LeadsAlone(c, c)
  {
    assert AllFit(c, []) && NoneJoins(c, []) && Run(c, []) == c;
  }

  lemma {:induction false} RunGoesOn(c: Chain, steps: seq<Step>, more: seq<Step>)
    requires AllFit(c, steps) && AllFit(Run(c, steps), more)
    ensures AllFit(c, steps + more) && Run(c, steps + more) == Run(Run(c, steps), more)
    ensures NoneJoins(c, steps) && NoneJoins(Run(c, steps), more) ==> NoneJoins(c, steps + more)
    decreases |steps|
  {
    hide Next, Fits, Joins;
    if steps == [] {
      assert steps + more == more;
    } else {
      assert (steps + more)[0] == steps[0] && (steps + more)[1..] == steps[1..] + more;
      RunGoesOn(Next(c, steps[0]), steps[1..], more);
    }
  }

  lemma OneStep(c: Chain, s: Step)
    requires Fits(c, s)
    ensures AllFit(c, [s]) && Run(c, [s]) == Next(c, s) && (!Joins(c, s) ==> NoneJoins(c, [s]))
  {
    hide Next, Fits, Joins;
    var c' := Next(c, s);
    assert [s][1..] == [] && AllFit(c', []) && NoneJoins(c', []) && Run(c', []) == c';
  }

  lemma LeadsOn(c0: Chain, c: Chain, s: Step)
    requires Leads(c0, c) && Fits(c, s)
    ensures Leads(c0, Next(c, s))
  {
    hide Next, Fits, Joins;
    var steps :| AllFit(c0, steps) && Run(c0, steps) == c;
    OneStep(c, s);
    RunGoesOn(c0, steps, [s]);
  }

  lemma AloneOn(c0: Chain, c: Chain, s: Step)
    requires LeadsAlone(c0, c) && Fits(c, s) && !Joins(c, s)
    ensures LeadsAlone(c0, Next(c, s))
  {
    hide Next, Fits, Joins;
    var steps :| AllFit(c0, steps) && NoneJoins(c0, steps) && Run(c0, steps) == c;
    OneStep(c, s);
    RunGoesOn(c0, steps, [s]);
  }

  lemma LeadsThen(c0: Chain, c: Chain, c': Chain)
    requires Leads(c0, c) && LeadsAlone(c, c')
    ensures Leads(c0, c')
  {
    var steps :| AllFit(c0, steps) && Run(c0, steps) == c;
    var more :| AllFit(c, more) && NoneJoins(c, more) && Run(c, more) == c';
    RunGoesOn(c0, steps, more);
  }

  /* ---------- one program installs ---------- */

  /** A program works on the row, at this point. */
  predicate At(c: Chain, v: nat, id: nat, pc: InstallerPc) {
    v in c.installers && id in c.rows && c.installers[v].id == id && c.installers[v].pc == pc
  }

  /** The program goes on to this point, and nobody else does. */
  predicate GoesTo(c: Chain, c': Chain, w: nat, pc: InstallerPc) {
    w in c.installers && c'.installers == c.installers[w := c.installers[w].(pc := pc)] && c'.rows.Keys == c.rows.Keys
  }

  lemma OthersStay(c: Chain, c': Chain, w: nat, pc: InstallerPc)
    requires GoesTo(c, c', w, pc)
    ensures forall v, id, at | v != w && At(c, v, id, at) :: At(c', v, id, at)
    ensures forall id, at | At(c, w, id, at) :: At(c', w, id, pc)
  {
  }

  lemma EnterGoes(c: Chain, w: nat, id: nat)
    requires At(c, w, id, Entering)
    ensures var c' := Next(c, Enter(w));
            && GoesTo(c, c', w, Waiting) && c'.past == c.past && c'.desired == c.desired
            && c'.rows[id] == c.rows[id].(status := RUNNING, action := WAITING_SSH)
  {
    hide NextDecide, NextCreate, NextClean, NextOther;
  }

  lemma ReachGoes(c: Chain, w: nat, id: nat)
    requires At(c, w, id, Waiting)
    ensures var c' := Next(c, Reach(w)); GoesTo(c, c', w, Reached) && c'.past == c.past && c'.rows[id] == c.rows[id]
  {
    hide NextDecide, NextCreate, NextClean, NextOther;
  }

  lemma MarkGoes(c: Chain, w: nat, id: nat)
    requires At(c, w, id, Reached)
    ensures var c' := Next(c, MarkDeploy(w));
            && GoesTo(c, c', w, Deploying) && c'.past.deployments == c.past.deployments && c'.rows[id].apply == A_RUNNING
  {
    hide NextDecide, NextCreate, NextClean, NextOther;
  }

  lemma DeployGoes(c: Chain, w: nat, id: nat)
    requires At(c, w, id, Deploying)
    ensures var c' := Next(c, Deploy(w));
            && GoesTo(c, c', w, Deployed) && c'.past.deployments == c.past.deployments + [id]
            && c'.rows[id].apply == c.rows[id].apply
  {
    hide NextDecide, NextCreate, NextClean, NextOther;
  }

  function PlaceOf(pc: InstallerPc): nat {
    match pc
    case Entering => 0
    case Waiting => 1
    case _ => 2
  }

  /** A program that has not begun to install installs, whatever else works on its row. */
  lemma {:induction false} EarlyInstalls(c0: Chain, c: Chain, w: nat, id: nat, pc: InstallerPc) returns (c': Chain)
    requires LeadsAlone(c0, c) && At(c, w, id, pc) && Early(pc)
    ensures LeadsAlone(c0, c') && GoesTo(c, c', w, Deployed) && c'.past.deployments == c.past.deployments + [id]
    ensures c'.rows[id].apply == A_RUNNING
    decreases 2 - PlaceOf(pc)
  {
    hide LeadsAlone, Next, Joins, GoesTo;
    if pc.Entering? {
      EnterGoes(c, w, id);
      StepGoes(c0, c, Enter(w), w, id, Waiting);
      c' := EarlyInstalls(c0, Next(c, Enter(w)), w, id, Waiting);
      GoesFarther(c, Next(c, Enter(w)), c', w, Waiting, Deployed);
    } else if pc.Waiting? {
      ReachGoes(c, w, id);
      StepGoes(c0, c, Reach(w), w, id, Reached);
      c' := EarlyInstalls(c0, Next(c, Reach(w)), w, id, Reached);
      GoesFarther(c, Next(c, Reach(w)), c', w, Reached, Deployed);
    } else {
      MarkGoes(c, w, id);
      var c1 := Next(c, MarkDeploy(w));
      StepGoes(c0, c, MarkDeploy(w), w, id, Deploying);
      DeployGoes(c1, w, id);
      StepGoes(c0, c1, Deploy(w), w, id, Deployed);
      c' := Next(c1, Deploy(w));
      GoesFarther(c, c1, c', w, Deploying, Deployed);
    }
  }

  lemma StepGoes(c0: Chain, c: Chain, s: Step, w: nat, id: nat, pc: InstallerPc)
    requires LeadsAlone(c0, c) && id in c.rows && w in c.installers && c.installers[w].id == id && Installs(s)
    requires GoesTo(c, Next(c, s), w, pc)
    ensures LeadsAlone(c0, Next(c, s)) && At(Next(c, s), w, id, pc)
  {
    hide LeadsAlone, Next;
    AloneOn(c0, c, s);
  }

  lemma GoesFarther(c: Chain, c1: Chain, c': Chain, w: nat, pc1: InstallerPc, pc: InstallerPc)
    requires GoesTo(c, c1, w, pc1) && GoesTo(c1, c', w, pc)
    ensures GoesTo(c, c', w, pc)
  {
  }

  /* ---------- exactly when it is installed twice ---------- */

  /** Somebody waits for a decision over a box that was installed. */
  predicate Reopened(c: Chain) {
    exists id | id in c.rows :: Undecided(c.rows[id]) && c.rows[id].apply != A_NOT_STARTED
  }

  /** A wait that joins a program: neither of the two has begun to install. */
  lemma JoinedIsEarly(c: Chain, s: Step) returns (v: nat)
    requires Sound(c) && Joins(c, s)
    ensures s.TakeWait? && v != s.w && v in c.installers && Early(c.installers[v].pc)
    ensures At(Next(c, s), v, s.id, c.installers[v].pc) && At(Next(c, s), s.w, s.id, Entering)
    ensures Next(c, s).past == c.past
  {
    hide Sound, Decidable, Next;
    v :| Works(c, v, s.id);
    EarlyOnDecidable(c, v, s.id);
    TakenUp(c, s.id, s.w);
  }

  /** A queued wait that is taken up gives the operation one more program, and changes nothing but its status. */
  lemma TakenUp(c: Chain, id: nat, w: nat)
    requires id in c.rows && WaitQueued(c.rows[id]) && Decidable(c, c.rows[id]) && w !in c.installers
    ensures var c' := Next(c, TakeWait(id, w, true));
            && c' == Put(c, id, c.rows[id].(status := RUNNING, action := WAITING_SSH)).(installers := c'.installers)
            && c'.installers == c.installers[w := Installer(id, c.rows[id].newIpId, c.rows[id].newIp, Entering)]
  {
    hide Decidable, AfterBegin, NextCreate, NextInstall, NextClean, NextOther;
  }

  lemma EarlyOnDecidable(c: Chain, v: nat, id: nat)
    requires Sound(c) && Works(c, v, id) && id in c.rows && Decidable(c, c.rows[id])
    ensures Early(c.installers[v].pc)
  {
    InstallerFits(c, v);
    hide Sound, RowOk;
  }

  /** Two programs of one operation that have not begun to install both do. */
  lemma BothInstall(c: Chain, v: nat, w: nat, id: nat, pc: InstallerPc) returns (c': Chain)
    requires At(c, v, id, pc) && Early(pc) && At(c, w, id, Entering) && v != w
    ensures LeadsAlone(c, c') && c'.past.deployments == c.past.deployments + [id, id]
  {
    hide LeadsAlone, Next, At, GoesTo;
    StaysPut(c);
    var c1 := EarlyInstalls(c, c, v, id, pc);
    OthersStay(c, c1, v, Deployed);
    c' := EarlyInstalls(c, c1, w, id, Entering);
    assert c'.past.deployments == c.past.deployments + [id, id];
  }

  /** Or the second one finds that the box does not answer any more. */
  lemma SecondReopens(c: Chain, v: nat, w: nat, id: nat, pc: InstallerPc) returns (c': Chain)
    requires At(c, v, id, pc) && Early(pc) && At(c, w, id, Entering) && v != w
    ensures LeadsAlone(c, c') && id in c'.rows && Undecided(c'.rows[id]) && c'.rows[id].apply != A_NOT_STARTED
  {
    hide LeadsAlone, Next, GoesTo;
    StaysPut(c);
    var c1 := EarlyInstalls(c, c, v, id, pc);
    OthersStay(c, c1, v, Deployed);
    EnterGoes(c1, w, id);
    StepGoes(c, c1, Enter(w), w, id, Waiting);
    var c2 := Next(c1, Enter(w));
    GivesUp(c2, w, id);
    AloneOn(c, c2, Unreachable(w));
    c' := Next(c2, Unreachable(w));
  }

  lemma GivesUp(c: Chain, w: nat, id: nat)
    requires At(c, w, id, Waiting)
    ensures !Joins(c, Unreachable(w)) && Fits(c, Unreachable(w))
    ensures var c' := Next(c, Unreachable(w));
            && c' == Put(c, id, c.rows[id].(status := DONE, action := SSH_UNREACHABLE)).(installers := c'.installers)
            && c'.installers == c.installers - {w}
  {
    hide NextDecide, NextCreate, NextClean, NextOther;
  }

  /** While one program at a time installs, a step makes a second installation possible, without a further wait that
      joins a program, if and only if it is such a wait itself. */
  lemma InstallsTwiceExactlyWhen(c: Chain, s: Step)
    requires ChainOk(c) && Requests(c) && Single(c) && Fits(c, s)
    ensures Joins(c, s) <==> exists c' :: LeadsAlone(Next(c, s), c') && Twice(c'.past.deployments)
  {
    hide Sound, Conserved, Requests, Single, Fits, Next, Joins, LeadsAlone, Twice;
    if Joins(c, s) {
      var v := JoinedIsEarly(c, s);
      var c' := BothInstall(Next(c, s), v, s.w, s.id, c.installers[v].pc);
      LastTwo(c.past.deployments, s.id);
    } else {
      StepConserves(c, s);
      StepKeepsRequests(c, s);
      StepSingle(c, s);
      forall c' | LeadsAlone(Next(c, s), c') ensures !Twice(c'.past.deployments) {
        var steps := RunTo(Next(c, s), c');
        SingleInstallsOnce(Next(c, s), steps);
      }
    }
  }

  lemma RunTo(c: Chain, c': Chain) returns (steps: seq<Step>)
    requires LeadsAlone(c, c')
    ensures AllFit(c, steps) && NoneJoins(c, steps) && Run(c, steps) == c'
  {
    steps :| AllFit(c, steps) && NoneJoins(c, steps) && Run(c, steps) == c';
  }

  lemma LastTwo(sent: seq<nat>, id: nat)
    ensures Twice(sent + [id, id])
  {
    assert (sent + [id, id])[|sent|] == (sent + [id, id])[|sent| + 1];
  }

  /** And the same for a decision over an installed box. */
  lemma ReopensExactlyWhen(c: Chain, s: Step)
    requires ChainOk(c) && Single(c) && AllBare(c) && Fits(c, s)
    ensures Joins(c, s) <==> exists c' :: LeadsAlone(Next(c, s), c') && Reopened(c')
  {
    hide Sound, Conserved, Single, AllBare, Fits, Next, Joins, LeadsAlone, At;
    if Joins(c, s) {
      var v := JoinedIsEarly(c, s);
      var c' := SecondReopens(Next(c, s), v, s.w, s.id, c.installers[v].pc);
      assert Reopened(c');
    } else {
      StepConserves(c, s);
      StepSingle(c, s);
      StepBare(c, s);
      forall c' | LeadsAlone(Next(c, s), c') ensures !Reopened(c') {
        var steps := RunTo(Next(c, s), c');
        RunBare(Next(c, s), steps);
        BareReopensNothing(c');
      }
    }
  }

  lemma BareReopensNothing(c: Chain)
    requires AllBare(c)
    ensures !Reopened(c)
  {
  }

  /** In the words of whole runs: as long as no wait joined a program, the next step makes both possible, or neither. */
  lemma FirstJoinDecides(c0: Chain, steps: seq<Step>, s: Step)
    requires Initial(c0) && AllFit(c0, steps) && NoneJoins(c0, steps) && Fits(Run(c0, steps), s)
    ensures var c := Run(c0, steps);
            && (Joins(c, s) <==> exists c' :: LeadsAlone(Next(c, s), c') && Twice(c'.past.deployments))
            && (Joins(c, s) <==> exists c' :: LeadsAlone(Next(c, s), c') && Reopened(c'))
  {
    hide Initial, ChainOk, Requests, Single, AllBare, Run, AllFit, NoneJoins, Fits, Next, Joins, LeadsAlone, Reopened,
         Twice;
    InitialIsSingle(c0);
    RunKeepsRequests(c0, steps);
    InitialIsBare(c0);
    RunBare(c0, steps);
    InstallsTwiceExactlyWhen(Run(c0, steps), s);
    ReopensExactlyWhen(Run(c0, steps), s);
  }

  /* ---------- from where it can come to that ---------- */

  /** A bought and current box, to which nothing has been done. */
  predicate Ready(c: Chain, id: nat) {
    id in c.rows && Decidable(c, c.rows[id])
  }

  /** The row is waited for, or waits for a decision. */
  predicate Resumable(row: IpOp) {
    Undecided(row) || (row.status.Active() && row.action in {WAITING_SSH, SSH_WAIT_QUEUED})
  }

  /** The lease is taken over, and the operator queues a wait. The programs do not notice. */
  lemma WaitIsQueued(c0: Chain, c: Chain, id: nat) returns (c': Chain)
    requires Leads(c0, c) && Ready(c, id) && Resumable(c.rows[id])
    ensures Leads(c0, c') && Ready(c', id)
    ensures c' == Put(c, id, c.rows[id].(status := PENDING, action := SSH_WAIT_QUEUED))
  {
    hide Leads;
    Interrupted(c, id);
    LeadsOn(c0, c, Interrupt(id));
    var c1 := Next(c, Interrupt(id));
    Queued(c1, id);
    LeadsOn(c0, c1, QueueWait(id, None));
    c' := Next(c1, QueueWait(id, None));
    hide Next, Decidable;
    PutAgain(c, id, c1.rows[id], c'.rows[id]);
  }

  lemma PutAgain(c: Chain, id: nat, row: IpOp, row': IpOp)
    ensures Put(Put(c, id, row), id, row') == Put(c, id, row')
  {
    assert c.rows[id := row][id := row'] == c.rows[id := row'];
  }

  lemma Interrupted(c: Chain, id: nat)
    requires Ready(c, id) && Resumable(c.rows[id])
    ensures var c' := Next(c, Interrupt(id));
            Ready(c', id) && c' == Put(c, id, c.rows[id].(status := DONE, action := SSH_UNREACHABLE))
  {
    assert c.rows == c.rows[id := c.rows[id]];
    hide NextDecide, NextCreate, NextInstall, NextClean;
  }

  lemma Queued(c: Chain, id: nat)
    requires Ready(c, id) && Undecided(c.rows[id])
    ensures var c' := Next(c, QueueWait(id, None));
            Ready(c', id) && c' == Put(c, id, c.rows[id].(status := PENDING, action := SSH_WAIT_QUEUED))
  {
    hide NextCreate, NextInstall, NextClean, NextOther;
  }

  /** A program has not begun to install a bought and current box. One that has found it reachable has nothing more to
      wait for: the row must still be waiting. */
  predicate MayStall(c: Chain, v: nat, id: nat) {
    && Ready(c, id) && v in c.installers && c.installers[v].id == id && Early(c.installers[v].pc)
    && (c.installers[v].pc.Reached? ==> Resumable(c.rows[id]))
  }

  /** A wait is queued beside the program. */
  lemma Stalls(c0: Chain, c: Chain, v: nat, id: nat) returns (c': Chain)
    requires Leads(c0, c) && MayStall(c, v, id)
    ensures Leads(c0, c') && Ready(c', id) && WaitQueued(c'.rows[id]) && c'.past.deployments == c.past.deployments
    ensures c'.installers.Keys == c.installers.Keys
    ensures v in c'.installers && c'.installers[v].id == id && Early(c'.installers[v].pc)
  {
    hide Leads, Next;
    var c1 := c;
    if c.installers[v].pc.Entering? {
      EnterGoes(c, v, id);
      LeadsOn(c0, c, Enter(v));
      c1 := Next(c, Enter(v));
    } else if !Resumable(c.rows[id]) {
      c1 := WaitsAnew(c0, c, v, id);
    }
    c' := WaitIsQueued(c0, c1, id);
  }

  /** The program gives the box up, and another one takes up the wait for it. */
  lemma WaitsAnew(c0: Chain, c: Chain, v: nat, id: nat) returns (c': Chain)
    requires Leads(c0, c) && At(c, v, id, Waiting) && Ready(c, id)
    ensures Leads(c0, c') && At(c', v, id, Entering) && Ready(c', id) && Resumable(c'.rows[id])
    ensures c'.past == c.past && c'.installers.Keys == c.installers.Keys
  {
    hide Leads, Next;
    GivesUp(c, v, id);
    LeadsOn(c0, c, Unreachable(v));
    var c1 := Next(c, Unreachable(v));
    Queued(c1, id);
    LeadsOn(c0, c1, QueueWait(id, None));
    var c2 := Next(c1, QueueWait(id, None));
    TakenUp(c2, id, v);
    LeadsOn(c0, c2, TakeWait(id, v, true));
    c' := Next(c2, TakeWait(id, v, true));
  }

  /** And it is taken up, so that two programs are about to install. */
  lemma Meets(c0: Chain, c: Chain, v: nat, w: nat, id: nat) returns (c': Chain)
    requires Leads(c0, c) && MayStall(c, v, id) && w !in c.installers
    ensures Leads(c0, c') && c'.past.deployments == c.past.deployments && v in c'.installers
    ensures At(c', v, id, c'.installers[v].pc) && Early(c'.installers[v].pc) && At(c', w, id, Entering) && v != w
  {
    hide Leads, Next, Decidable, Resumable;
    var c1 := Stalls(c0, c, v, id);
    TakenUp(c1, id, w);
    LeadsOn(c0, c1, TakeWait(id, w, true));
    c' := Next(c1, TakeWait(id, w, true));
  }

  lemma InstallsTwice(c0: Chain, c: Chain, v: nat, w: nat, id: nat) returns (c': Chain)
    requires Leads(c0, c) && MayStall(c, v, id) && w !in c.installers
    ensures Leads(c0, c') && c'.past.deployments == c.past.deployments + [id, id]
  {
    hide Leads, LeadsAlone, MayStall, At;
    var c1 := Meets(c0, c, v, w, id);
    c' := BothInstall(c1, v, w, id, c1.installers[v].pc);
    LeadsThen(c0, c1, c');
  }

  /** From every state with a program that has not begun to install a current box there is a run that installs twice. */
  lemma StalledProgramInstallsAgain(c: Chain, v: nat, w: nat, id: nat)
    requires MayStall(c, v, id) && w !in c.installers
    ensures exists c' :: Leads(c, c') && c'.past.deployments == c.past.deployments + [id, id]
  {
    hide Leads, MayStall;
    StaysPut(c);
    var c' := InstallsTwice(c, c, v, w, id);
  }

  /** And one that opens a decision over a box that was installed. */
  lemma StalledProgramReopensDecision(c: Chain, v: nat, w: nat, id: nat)
    requires MayStall(c, v, id) && w !in c.installers
    ensures exists c' :: Leads(c, c') && id in c'.rows && Undecided(c'.rows[id]) && c'.rows[id].apply != A_NOT_STARTED
  {
    hide Leads, LeadsAlone, MayStall, At;
    StaysPut(c);
    var c1 := Meets(c, c, v, w, id);
    var c' := SecondReopens(c1, v, w, id, c1.installers[v].pc);
    LeadsThen(c, c1, c');
  }

  /* ---------- and such a state is reached ---------- */

  /** The first operation alone, with its program. */
  predicate Alone(c0: Chain, c: Chain, row: IpOp, k: Creator) {
    && c.rows == map[1 := row] && c.creators == map[1 := k] && c.installers == map[] && c.desired == c0.desired
    && c.past.made == c0.past.made && c.past.deployments == []
  }

  /** A row at work for which nothing has been sent. */
  predicate Unsent(c0: Chain, row: IpOp) {
    && row.revision == c0.desired && row.published.None? && row.purchase == P_NOT_STARTED && row.apply == A_NOT_STARTED
    && row.makeMain == M_NOT_STARTED && row.newIpId == "" && row.newIp == "" && row.status == RUNNING
  }

  lemma Opening(c0: Chain) returns (c': Chain, row: IpOp, k: Creator)
    requires Initial(c0)
    ensures Leads(c0, c') && Alone(c0, c', row, k) && k.pc.Checking? && Unsent(c0, row)
  {
    StaysPut(c0);
    hide Leads;
    LeadsOn(c0, c0, Begin(None, None, None));
    var c1 := Next(c0, Begin(None, None, None));
    var row1 := UNBOUND_OP.(revision := c0.desired, ctx := NO_CONTEXT.(retained := map[]));
    assert Alone(c0, c1, row1, Creator(c0.box, c0.ip, Loading));
    Loaded(c0, c1, row1, Creator(c0.box, c0.ip, Loading));
    var c2 := Next(c1, Load(1));
    k := Creator(c0.box, c0.ip, Checking);
    LeadsOn(c0, c1, Load(1));
    hide Next;
    Noted(c0, c2, row1, k);
    LeadsOn(c0, c2, Note(1, "", ""));
    c', row := Next(c2, Note(1, "", "")), row1.(status := RUNNING, oldIp := "", oldIpId := "");
  }

  lemma Loaded(c0: Chain, c: Chain, row: IpOp, k: Creator)
    requires Alone(c0, c, row, k) && k.pc.Loading? && row.status == PENDING && !ExternalActionStarted(row)
    ensures Fits(c, Load(1)) && Alone(c0, Next(c, Load(1)), row, k.(pc := Checking))
  {
  }

  lemma Noted(c0: Chain, c: Chain, row: IpOp, k: Creator)
    requires Alone(c0, c, row, k) && k.pc.Checking?
    ensures Fits(c, Note(1, "", ""))
    ensures Alone(c0, Next(c, Note(1, "", "")), row.(status := RUNNING, oldIp := "", oldIpId := ""), k)
  {
  }

  lemma Saving(c0: Chain, c: Chain, row: IpOp, k: Creator) returns (c': Chain, row': IpOp)
    requires Leads(c0, c) && Alone(c0, c, row, k) && k.pc.Checking? && Unsent(c0, row)
    ensures Leads(c0, c') && Alone(c0, c', row', k.(pc := Saved)) && Unsent(c0, row')
  {
    hide Leads, Collection;
    LeadsOn(c0, c, Collect(1));
    var c1 := Next(c, Collect(1));
    var kept := row.ctx.retained + Collection(c, k);
    assert Alone(c0, c1, row, k.(pc := Collected(kept)));
    LeadsOn(c0, c1, Save(1, "m", ""));
    c', row' := Next(c1, Save(1, "m", "")), row.(ctx := Context(kept, "m", "", map[]));
  }

  lemma Ordering(c0: Chain, c: Chain, row: IpOp, k: Creator, n: string) returns (c': Chain, row': IpOp)
    requires Leads(c0, c) && Alone(c0, c, row, k) && k.pc.Saved? && Unsent(c0, row) && n !in c0.past.made && n != ""
    ensures Leads(c0, c') && n in c'.past.made && c'.past.made[n] == 1
    ensures Alone(c0.(past := c'.past), c', row', k.(pc := Answered))
    ensures row' == row.(purchase := P_SENDING, action := PURCHASE_SENDING)
  {
    hide Leads;
    LeadsOn(c0, c, Claim(1));
    var c1 := Next(c, Claim(1));
    row' := row.(purchase := P_SENDING, action := PURCHASE_SENDING);
    assert Alone(c0, c1, row', k.(pc := SprintChain.Ordering));
    LeadsOn(c0, c1, Order(1, Some(n), Told));
    c' := Next(c1, Order(1, Some(n), Told));
  }

  lemma Confirming(c0: Chain, c: Chain, row: IpOp, k: Creator, n: string, ip: string) returns (c': Chain)
    requires Leads(c0, c) && Alone(c0.(past := c.past), c, row, k) && k.pc.Answered? && n in c.past.made
    requires c.past.made[n] == 1
    requires Unsent(c0, row.(purchase := P_NOT_STARTED)) && n != "" && ip != ""
    ensures Leads(c0, c') && MayStall(c', 0, 1) && c'.installers.Keys == {0}
    ensures c'.past.deployments == []
  {
    hide Leads, Alone, Next, MayStall;
    Answering(c0, c, row, k);
    LeadsOn(c0, c, Answer(1));
    var c1 := Next(c, Answer(1));
    LastConfirmed(c0.(past := c.past), c1, row.(purchase := P_SENT, action := PURCHASE_SENT), k.(pc := Identifying), n, ip);
    LeadsOn(c0, c1, Confirm(1, n, ip, 0));
    c' := Next(c1, Confirm(1, n, ip, 0));
  }

  lemma Answering(c0: Chain, c: Chain, row: IpOp, k: Creator)
    requires Alone(c0.(past := c.past), c, row, k) && k.pc.Answered?
    ensures var c' := Next(c, Answer(1));
            && Alone(c0.(past := c.past), c', row.(purchase := P_SENT, action := PURCHASE_SENT), k.(pc := Identifying))
            && c'.past == c.past
  {
    hide NextDecide, NextInstall, NextClean, NextOther;
  }

  lemma LastConfirmed(c0: Chain, c: Chain, row: IpOp, k: Creator, n: string, ip: string)
    requires Alone(c0, c, row, k) && k.pc.Identifying? && n in c.past.made && c.past.made[n] == 1
    requires Unsent(c0, row.(purchase := P_NOT_STARTED)) && n != "" && ip != ""
    ensures Fits(c, Confirm(1, n, ip, 0))
    ensures var c' := Next(c, Confirm(1, n, ip, 0));
            MayStall(c', 0, 1) && c'.installers.Keys == {0} && c'.past.deployments == []
  {
    hide NextDecide, NextInstall, NextClean, NextOther;
  }

  /** So from every initial state, and for every name the provider may give the new box, there is a run in which the
      only operation is installed twice. */
  lemma InstallsTwiceInSomeRun(c0: Chain, n: string, ip: string)
    requires Initial(c0) && n != "" && n != c0.box && ip != ""
    ensures exists steps :: AllFit(c0, steps) && Run(c0, steps).past.deployments == [1, 1]
  {
    hide Leads, Alone, MayStall, Unsent;
    var c1, row1, k := Opening(c0);
    var c2, row2 := Saving(c0, c1, row1, k);
    var c3, row3 := Ordering(c0, c2, row2, k.(pc := Saved), n);
    UnsentAgain(c0, row2, row3);
    var c4 := Confirming(c0, c3, row3, k.(pc := Answered), n, ip);
    var c5 := InstallsTwice(c0, c4, 0, 1, 1);
    LeadsMeans(c0, c5);
  }

  lemma LeadsMeans(c0: Chain, c: Chain)
    requires Leads(c0, c)
    ensures exists steps :: AllFit(c0, steps) && Run(c0, steps) == c
  {
  }

  lemma UnsentAgain(c0: Chain, row: IpOp, row': IpOp)
    requires Unsent(c0, row) && row' == row.(purchase := P_SENDING, action := PURCHASE_SENDING)
    ensures Unsent(c0, row'.(purchase := P_NOT_STARTED))
  {
  }
}
