/** Every step of a SprintBOX chain conserves its boxes, and so does every run, with programs that stall, are taken
    over and wake up, with crashes, recoveries, and other operations begun in between. */
module SprintRuns {
  import opened Base
  import opened Tables
  import opened OperationRows
  import opened SprintChain
  import opened SprintPrograms
  import opened SprintConservation
  import opened SprintMildSteps
  import opened SprintMoves
  import opened SprintPublishes

  ghost predicate ChainOk(c: Chain) {
    Sound(c) && Conserved(c)
  }

  /* ---------- opening an attempt ---------- */

  lemma BeginFollows(c: Chain, ssh: Option<nat>, review: Option<nat>, taken: Option<nat>)
    requires MayBegin(c, ssh, review)
    ensures Followable(TakeOver(c, taken), ssh)
    ensures var c1 := TakeOver(c, taken);
            && (ssh.Some? ==> ssh.value in c1.rows && c1.rows[ssh.value].status == DONE && c1.rows[ssh.value].published.None?)
            && (review.Some? ==> review.value in c1.rows && c1.rows[review.value].status == DONE
                                 && c1.rows[review.value].published.Some?)
  {
    hide InterruptIp, OnHold, TakeOver;
    if ssh.Some? {
      ClosedStays(c, taken, ssh.value);
    }
    if review.Some? {
      ClosedStays(c, taken, review.value);
    }
  }

  /** The new attempt carries what it inherits. */
  lemma RetryHandsOn(c: Chain, ssh: Option<nat>)
    requires Struct(c) && Followable(c, ssh) && ssh.Some? && Enrolled(c, Enrol(c, ssh), c.nextId, Inherited(c, ssh))
    ensures HandsOn(Enrol(c, ssh), Retry(Enrol(c, ssh), ssh), ssh.value, c.nextId)
  {
    hide Struct, Enrol;
  }

  lemma ReviewedIsMild(c: Chain, review: Option<nat>)
    requires Sound(c)
    requires review.Some? ==> review.value in c.rows && c.rows[review.value].status == DONE
                              && c.rows[review.value].published.Some?
    ensures Mild(c, Retry(c, review))
  {
    UnchangedIsMild(c);
    if review.Some? {
      RowIsOk(c, review.value);
      RetriedRow(c.desired, c.rows[review.value]);
      QuietRowIsMild(c, review.value, c.rows[review.value], c.rows[review.value].(action := RETRY_REQUESTED));
      hide Mild, Sound, MildRow, MildCreator, RowOk, QuietRow;
      PutIsMild(c, Retry(c, review), review.value);
    }
  }

  lemma BeginConserved(c: Chain, ssh: Option<nat>, review: Option<nat>, taken: Option<nat>)
    requires ChainOk(c)
    ensures Conserved(AfterBegin(c, ssh, review, taken))
  {
    if MayBegin(c, ssh, review) {
      var c1 := TakeOver(c, taken);
      BeginFollows(c, ssh, review, taken);
      TakeOverIsMild(c, taken);
      hide MayBegin, Sound, Mild, TakeOver, Conserved, Followable;
      MildKeeps(c, c1);
      BegunConserved(c1, ssh, review);
    }
  }

  lemma BegunConserved(c: Chain, ssh: Option<nat>, review: Option<nat>)
    requires ChainOk(c) && Followable(c, ssh)
    requires ssh.Some? ==> ssh.value in c.rows && c.rows[ssh.value].status == DONE && c.rows[ssh.value].published.None?
    requires review.Some? ==> review.value in c.rows && c.rows[review.value].status == DONE
                              && c.rows[review.value].published.Some?
    ensures Conserved(Retry(Retry(Enrol(c, ssh), ssh), review))
  {
    var c2 := Enrol(c, ssh);
    var c3 := Retry(c2, ssh);
    EnrolConserved(c, ssh);
    EnrolKeeps(c, ssh);
    EnroledRows(c, c2, ssh, review);
    hide Sound, Conserved, Enrol;
    if ssh.Some? {
      RetryHandsOn(c, ssh);
      hide HandsOn, Enrolled, Followable;
      HandOnConserved(c2, c3, ssh.value, c.nextId);
    }
    RetryKeeps(c2, ssh);
    RetriedRows(c2, ssh, review);
    hide Retry, Mild, Enrolled, Followable;
    ReviewedIsMild(c3, review);
    MildKeeps(c3, Retry(c3, review));
  }

  lemma EnroledRows(c: Chain, c': Chain, ssh: Option<nat>, review: Option<nat>)
    requires Enrolled(c, c', c.nextId, Inherited(c, ssh))
    ensures forall id | id in c.rows :: id in c'.rows && c'.rows[id] == c.rows[id]
  {
  }

  lemma RetriedRows(c: Chain, ssh: Option<nat>, review: Option<nat>)
    ensures forall id | id in c.rows :: id in Retry(c, ssh).rows && Retry(c, ssh).rows[id].status == c.rows[id].status
                                        && Retry(c, ssh).rows[id].published == c.rows[id].published
  {
  }

  /* ---------- every step ---------- */

  lemma DecideConserved(c: Chain, s: Step)
    requires ChainOk(c)
    ensures Conserved(NextDecide(c, s))
  {
    hide Sound, Conserved, Mild, AfterBegin, AfterQueueWait, AfterQueueCleanup;
    match s
    case Begin(ssh, review, taken) => BeginConserved(c, ssh, review, taken);
    case QueueWait(id, taken) => QueueIsMild(c, id, taken); MildKeeps(c, NextDecide(c, s));
    case QueueCleanup(id, taken) => QueueIsMild(c, id, taken); MildKeeps(c, NextDecide(c, s));
    case _ =>
      if s.TakeWait? || s.LateLoad? || s.Cancel? || s.TakeCleanup? {
        DecisionIsMild(c, s);
        hide NextDecide;
        MildKeeps(c, NextDecide(c, s));
      }
  }

  lemma SaveStepConserved(c: Chain, id: nat, marker: string, keyPath: string)
    requires ChainOk(c) && Rotates(c, id)
    ensures Conserved(AfterSave(c, id, marker, keyPath))
  {
    hide Sound, Conserved, RowOk, CreatorOk;
    OnlyProgram(c, id);
    if c.creators[id].pc.Collected? && marker != "" {
      SaveConserved(c, AfterSave(c, id, marker, keyPath), id, Context(c.creators[id].pc.kept, marker, keyPath, map[]));
    }
  }

  lemma OrderConserved(c: Chain, id: nat, effect: Option<string>, reply: Reply)
    requires ChainOk(c) && Rotates(c, id)
    requires effect.Some? ==> effect.value !in c.past.made && effect.value != "" && !reply.Refusal?
    ensures Conserved(AfterOrder(c, id, effect, reply))
  {
    hide Sound, Conserved, Struct, Mild, Buys;
    ConservedGives(c);
    if effect.None? {
      OrderIsMild(c, id, reply);
      hide AfterOrder;
      MildKeeps(c, AfterOrder(c, id, effect, reply));
    } else if c.creators[id].pc.Ordering? {
      OrderBuys(c, id, effect.value, reply);
      BuyConserved(c, AfterOrder(c, id, effect, reply), id, effect.value);
    }
  }

  lemma ConservedGives(c: Chain)
    requires Conserved(c)
    ensures Struct(c) && c.nextId !in c.rows && "" !in c.past.made
  {
  }

  lemma CreateConserved(c: Chain, s: Step, id: nat)
    requires ChainOk(c) && Rotates(c, id) && Creates(s) && s.id == id && Fits(c, s)
    ensures Conserved(NextCreate(c, s, id))
  {
    hide Sound, Conserved, Rotates, Mild, AfterCollect, AfterSave, AfterOrder;
    if s.Collect? {
      CollectConserved(c, id);
    } else if s.Save? {
      SaveStepConserved(c, id, s.marker, s.keyPath);
    } else if s.Order? {
      OrderConserved(c, id, s.effect, s.reply);
    } else {
      hide NextCreate, Fits;
      CreateIsMild(c, s, id);
      MildKeeps(c, NextCreate(c, s, id));
    }
  }

  lemma CreateIsMild(c: Chain, s: Step, id: nat)
    requires ChainOk(c) && Rotates(c, id) && Creates(s) && s.id == id && Fits(c, s)
    requires !s.Collect? && !s.Save? && !s.Order?
    ensures Mild(c, NextCreate(c, s, id))
  {
    hide Sound, Conserved, Struct, Rotates, Mild, AfterLoad, AfterNote, AfterClaim, AfterReject, AfterAnswer,
         AfterIdentify, AfterConfirm, AfterFail;
    ConservedGives(c);
    if s.Identify? {
      IdentifyIsMild(c, id, s.name);
    } else if s.Confirm? {
      ConfirmIsMild(c, id, s.name, s.ip, s.w);
    } else {
      hide Fits;
      if s.Load? {
        LoadIsMild(c, id);
      } else if s.Note? {
        NoteIsMild(c, id, s.oldIp, s.oldIpId);
      } else if s.Claim? {
        ClaimIsMild(c, id);
      } else if s.Reject? {
        RejectIsMild(c, id);
      } else if s.Answer? {
        AnswerIsMild(c, id);
      } else {
        FailIsMild(c, id);
      }
    }
  }

  lemma InstallConserved(c: Chain, s: Step, w: nat)
    requires ChainOk(c) && Provisions(c, w)
    ensures Conserved(NextInstall(c, s, w))
  {
    hide Sound, Conserved, Mild;
    if !s.Publish? {
      InstallIsMild(c, s, w);
      hide NextInstall;
      MildKeeps(c, NextInstall(c, s, w));
    } else if AfterPublish(c, w) != c {
      PublishPublishes(c, w);
      hide AfterPublish, Publishes;
      PublishConserved(c, AfterPublish(c, w), c.installers[w].id);
    }
  }

  lemma CleanConserved(c: Chain, s: Step, id: nat)
    requires ChainOk(c) && CleansUp(c, id)
    ensures Conserved(NextClean(c, s, id))
  {
    hide Sound, Conserved, Mild;
    if !(s.Record? && IsGone(s.result)) {
      CleanIsMild(c, s, id);
      hide NextClean;
      MildKeeps(c, NextClean(c, s, id));
    } else if AfterRecord(c, id, s.name, s.result) != c {
      RecordRemoves(c, id, s.name, s.result);
      hide AfterRecord, Removes;
      RemoveConserved(c, AfterRecord(c, id, s.name, s.result), id, s.name);
    }
  }

  lemma OtherConserved(c: Chain, s: Step)
    requires ChainOk(c)
    ensures Conserved(NextOther(c, s))
  {
    if s.Configure? {
      assert forall x | x in c.rows :: RowOk(c.desired, c.rows[x]);
      if c.desired <= s.desired {
        hide Conserved, Sound;
        ConfigureConserved(c, s.desired);
      }
    } else {
      hide Sound, Conserved, Mild;
      OtherIsMild(c, s);
      hide NextOther;
      MildKeeps(c, NextOther(c, s));
    }
  }

  lemma ConserveStep(c: Chain, s: Step)
    requires ChainOk(c) && Fits(c, s)
    ensures Conserved(Next(c, s))
  {
    hide Sound, Conserved, NextDecide, NextCreate, NextInstall, NextClean, NextOther, Fits;
    if Decides(s) {
      DecideConserved(c, s);
    } else if Creates(s) {
      if Rotates(c, s.id) {
        CreateConserved(c, s, s.id);
      }
    } else if Installs(s) {
      if Provisions(c, s.w) {
        InstallConserved(c, s, s.w);
      }
    } else if Cleans(s) {
      if CleansUp(c, s.id) {
        CleanConserved(c, s, s.id);
      }
    } else {
      OtherConserved(c, s);
    }
  }

  /** Every step of every program and of everybody else, stalled programs included, keeps rows and programs in order and
      every box accounted for. */
  lemma StepConserves(c: Chain, s: Step)
    requires ChainOk(c) && Fits(c, s)
    ensures ChainOk(Next(c, s))
  {
    hide Sound, Conserved, Struct, Next, Fits;
    ConservedGives(c);
    StepKeepsRows(c, s);
    ConserveStep(c, s);
  }

  /* ---------- every run ---------- */

  lemma {:induction false} RunConserves(c: Chain, steps: seq<Step>)
    requires ChainOk(c) && AllFit(c, steps)
    ensures ChainOk(Run(c, steps))
    decreases |steps|
  {
    hide ChainOk, Next, Fits;
    if steps == [] {
    } else {
      StepConserves(c, steps[0]);
      RunConserves(Next(c, steps[0]), steps[1..]);
    }
  }

  lemma InitialChain(c: Chain)
    requires Initial(c)
    ensures ChainOk(c)
  {
  }

  /** In every state, whatever stalled, crashed or was given up: a bought box is the active one, retained by the
      operation that published it, gone, or charged to an attempt that is under way, waits for a decision, or was
      given up. */
  lemma NoBoxIsForgotten(c0: Chain, steps: seq<Step>, n: string)
    requires Initial(c0) && AllFit(c0, steps) && n in Run(c0, steps).past.made
    ensures Accounted(Run(c0, steps), n)
  {
    hide Run, AllFit, Struct, PublisherOk, GoneOk, Accounted, Sound;
    InitialChain(c0);
    RunConserves(c0, steps);
  }

  /** When no attempt is open, every box ever bought is the active one, or retained by the operation that published
      it, or gone. The retained set lists only bought boxes and not the active one; and unless a cleanup removed a box
      that something else still counted on, it is exactly what was bought, less the active box, less what is gone. */
  lemma BoxesAreConserved(c0: Chain, steps: seq<Step>)
    requires Initial(c0) && AllFit(c0, steps)
    requires forall id: nat :: !Open(Run(c0, steps), id)
    ensures var c := Run(c0, steps);
            && (forall n | n in c.past.made :: n == c.box || n in Kept(c) || n in c.past.gone)
            && (forall n | n in Kept(c) :: n in c.past.made && n != c.box)
            && (!c.past.overlapped ==> Kept(c).Keys == c.past.made.Keys - {c.box} - c.past.gone)
  {
    hide Run, AllFit, Sound;
    InitialChain(c0);
    RunConserves(c0, steps);
    ConservedSet(Run(c0, steps));
  }

  lemma ConservedSet(c: Chain)
    requires Conserved(c) && forall id: nat :: !Open(c, id)
    ensures forall n | n in c.past.made :: n == c.box || n in Kept(c) || n in c.past.gone
    ensures forall n | n in Kept(c) :: n in c.past.made && n != c.box
    ensures !c.past.overlapped ==> Kept(c).Keys == c.past.made.Keys - {c.box} - c.past.gone
  {
    ActiveBoxIsNotGone(c);
    hide Open;
    forall n | n in c.past.made ensures n == c.box || n in Kept(c) || n in c.past.gone {
      assert Accounted(c, n);
    }
    assert c.past.publisher.Some? && c.past.publisher.value in c.rows ==>
             AllBefore(c, c.past.publisher.value, c.rows[c.past.publisher.value].ctx.retained);
  }

  /** One order, one box: no two boxes were bought by the same operation. */
  lemma OneBoxPerOperation(c0: Chain, steps: seq<Step>, n: string, m: string)
    requires Initial(c0) && AllFit(c0, steps) && n in Run(c0, steps).past.made && m in Run(c0, steps).past.made
    requires Run(c0, steps).past.made[n] == Run(c0, steps).past.made[m]
    ensures n == m
  {
    hide Run, AllFit, Account, PublisherOk, GoneOk, Sound;
    InitialChain(c0);
    RunConserves(c0, steps);
  }
}
