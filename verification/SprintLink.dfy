/** What the programs of a SprintBOX chain write is what the transactions on the database write, and it meets what
    holds and SSH decisions ask of the updates of workers. */
module SprintLink {
  import opened Tables
  import opened OperationRows
  import opened SprintChain
  import opened SprintPrograms
  import opened SprintConservation
  import opened SprintRuns
  import opened SprintStalls
  import opened SprintWrites
  import Capture
  import History
  import Leases
  import Decisions
  import SshDecisions

  /* ---------- the transactions ---------- */

  /** The step belongs to a program that is alive. */
  predicate Acts(c: Chain, s: Step) {
    if Creates(s) then Rotates(c, s.id) else if Installs(s) then Provisions(c, s.w) else Cleans(s) && CleansUp(c, s.id)
  }

  function RowWritten(c: Chain, s: Step): (id: nat)
    requires Acts(c, s)
    ensures id in c.rows
  {
    if Creates(s) then s.id else if Installs(s) then c.installers[s.w].id else s.id
  }

  ghost function WriteOf(c: Chain, s: Step): Write
    requires Acts(c, s)
  {
    if Creates(s) then CreateWrite(c, s, s.id) else if Installs(s) then InstallWrite(c, s, s.w) else CleanWrite(c, s, s.id)
  }

  lemma ActsOnRow(c: Chain, s: Step)
    requires Acts(c, s)
    ensures Next(c, s).rows == c.rows[RowWritten(c, s) := Written(c.rows[RowWritten(c, s)], WriteOf(c, s))]
    ensures WriteOf(c, s).TakeClaim?
        ==> c.rows[RowWritten(c, s)].purchase == P_NOT_STARTED && c.rows[RowWritten(c, s)].status == RUNNING
  {
    hide Decides, NextDecide, NextCreate, NextInstall, NextClean, NextOther, Written, CreateWrite,
         InstallWrite, CleanWrite;
    StepsApart(s);
    if Creates(s) {
      CreateWrites(c, s, s.id);
      ClaimIsFree(c, s, s.id);
    } else if Installs(s) {
      InstallWrites(c, s, s.w);
      OnlyCreatorsClaim(c, s);
    } else {
      CleanWrites(c, s, s.id);
      OnlyCreatorsClaim(c, s);
    }
  }

  lemma StepsApart(s: Step)
    ensures Creates(s) || Installs(s) || Cleans(s) ==> !Decides(s)
    ensures Installs(s) ==> !Creates(s)
    ensures Cleans(s) ==> !Creates(s) && !Installs(s)
  {
  }

  lemma ClaimIsFree(c: Chain, s: Step, id: nat)
    requires Rotates(c, id)
    ensures CreateWrite(c, s, id).TakeClaim? ==> c.rows[id].purchase == P_NOT_STARTED && c.rows[id].status == RUNNING
  {
    hide ExternalActionStarted;
  }

  lemma OnlyCreatorsClaim(c: Chain, s: Step)
    ensures Installs(s) && Provisions(c, s.w) ==> !InstallWrite(c, s, s.w).TakeClaim?
    ensures Cleans(s) && CleansUp(c, s.id) ==> !CleanWrite(c, s, s.id).TakeClaim?
  {
    hide NextClean;
  }

  /** The transaction that makes a write, other than the publication. */
  function EventOf(id: nat, w: Write, now: int): History.Event
    requires !w.Publication?
  {
    match w
    case Update(p) => History.IpUpdate(id, p, now)
    case TakeClaim => History.IpClaimPurchase(id)
    case SaveContext(ctx) => History.IpContext(id, ctx)
  }

  lemma WriteIsTheTransaction(env: Capture.Env, db: Db, id: nat, w: Write, now: int)
    requires id in db.ops.ip && !w.Publication?
    requires w.TakeClaim? ==> db.ops.ip[id].purchase == P_NOT_STARTED && db.ops.ip[id].status == RUNNING
    ensures History.Next(env, db, EventOf(id, w, now)).ops.ip == db.ops.ip[id := Written(db.ops.ip[id], w)]
  {
    hide Patched;
  }

  /** In every run: what a program of the chain does next to its row is one transaction, and it meets what
      HoldsAreResolvable asks of workers. */
  lemma EveryWriteIsATransaction(c0: Chain, steps: seq<Step>, s: Step, env: Capture.Env, db: Db, now: int)
    requires Initial(c0) && AllFit(c0, steps) && Fits(Run(c0, steps), s) && Acts(Run(c0, steps), s)
    requires var c := Run(c0, steps); var id := RowWritten(c, s);
             !WriteOf(c, s).Publication? && id in db.ops.ip && db.ops.ip[id] == c.rows[id]
    ensures var c := Run(c0, steps); var id := RowWritten(c, s); var e := EventOf(id, WriteOf(c, s), now);
            && id in Next(c, s).rows
            && History.Next(env, db, e).ops.ip == db.ops.ip[id := Next(c, s).rows[id]]
            && Decisions.PatchOk(db.ops, e)
  {
    hide Run, AllFit, Initial, ChainOk, Next, Fits, Acts, RowWritten, WriteOf, EventOf, History.Next, Decisions.PatchOk;
    InitialChain(c0);
    RunConserves(c0, steps);
    NextWriteIsATransaction(Run(c0, steps), s, env, db, now);
  }

  lemma NextWriteIsATransaction(c: Chain, s: Step, env: Capture.Env, db: Db, now: int)
    requires ChainOk(c) && Fits(c, s) && Acts(c, s) && !WriteOf(c, s).Publication?
    requires RowWritten(c, s) in db.ops.ip && db.ops.ip[RowWritten(c, s)] == c.rows[RowWritten(c, s)]
    ensures var id := RowWritten(c, s); var e := EventOf(id, WriteOf(c, s), now);
            && id in Next(c, s).rows && Next(c, s).rows[id] == Written(c.rows[id], WriteOf(c, s))
            && History.Next(env, db, e).ops.ip == db.ops.ip[id := Next(c, s).rows[id]]
            && Decisions.PatchOk(db.ops, e)
  {
    hide Conserved, Next, Fits, Acts, RowWritten, WriteOf, Written, EventOf, History.Next, Decisions.PatchOk, HoldOk,
         Patched;
    ActsOnRow(c, s);
    StepConserves(c, s);
    assert RowWritten(c, s) in Next(c, s).rows;
    RowIsOk(Next(c, s), RowWritten(c, s));
    hide Sound;
    WriteIsTheTransaction(env, db, RowWritten(c, s), WriteOf(c, s), now);
    HoldRuleIsMet(db.ops, RowWritten(c, s), WriteOf(c, s), now);
  }

  lemma HoldRuleIsMet(o: Ops, id: nat, write: Write, now: int)
    requires id in o.ip && !write.Publication? && HoldOk(Written(o.ip[id], write))
    ensures Decisions.PatchOk(o, EventOf(id, write, now))
  {
    hide HoldOk, Patched;
  }

  /** In every run in which no queued wait is taken up beside a program of its operation, it also meets what
      AtMostOneDecision asks. */
  lemma EveryWriteMeetsTheRules(c0: Chain, steps: seq<Step>, s: Step, env: Capture.Env, w: Leases.World, now: int)
    requires Initial(c0) && AllFit(c0, steps) && NoneJoins(c0, steps) && Fits(Run(c0, steps), s)
    requires Acts(Run(c0, steps), s)
    requires var c := Run(c0, steps); var id := RowWritten(c, s);
             && !WriteOf(c, s).Publication? && id in w.db.ops.ip && w.db.ops.ip[id] == c.rows[id]
    ensures var c := Run(c0, steps); SshDecisions.Calm(env, w, EventOf(RowWritten(c, s), WriteOf(c, s), now))
  {
    hide Run, AllFit, NoneJoins, Initial, ChainOk, Single, AllBare, Next, Fits, Acts, RowWritten, WriteOf, EventOf,
         SshDecisions.Calm;
    InitialIsBare(c0);
    RunBare(c0, steps);
    NextWriteMeetsTheRules(Run(c0, steps), s, env, w, now);
  }

  lemma NextWriteMeetsTheRules(c: Chain, s: Step, env: Capture.Env, w: Leases.World, now: int)
    requires ChainOk(c) && Single(c) && AllBare(c) && Fits(c, s) && Acts(c, s) && !WriteOf(c, s).Publication?
    requires RowWritten(c, s) in w.db.ops.ip && w.db.ops.ip[RowWritten(c, s)] == c.rows[RowWritten(c, s)]
    ensures SshDecisions.Calm(env, w, EventOf(RowWritten(c, s), WriteOf(c, s), now))
  {
    hide Conserved, Single, AllBare, Next, Fits, Acts, RowWritten, WriteOf, Written, EventOf, SshDecisions.Calm,
         SshDecisions.RowOk, Patched, RowOk, Bare;
    NextWriteIsATransaction(c, s, env, w.db, now);
    StepConserves(c, s);
    hide ChainOk;
    StepBare(c, s);
    BareRow(Next(c, s), RowWritten(c, s));
    DecisionRuleIsMet(env, w, RowWritten(c, s), WriteOf(c, s), now);
  }

  lemma BareRow(c: Chain, id: nat)
    requires Sound(c) && AllBare(c) && id in c.rows
    ensures SshDecisions.RowOk(c.rows[id])
  {
    RowIsOk(c, id);
    assert Bare(c.rows[id]);
    hide Sound, AllBare;
  }

  lemma DecisionRuleIsMet(env: Capture.Env, w: Leases.World, id: nat, write: Write, now: int)
    requires id in w.db.ops.ip && !write.Publication? && SshDecisions.RowOk(Written(w.db.ops.ip[id], write))
    ensures SshDecisions.Calm(env, w, EventOf(id, write, now))
  {
    hide SshDecisions.RowOk, Patched;
  }
}
