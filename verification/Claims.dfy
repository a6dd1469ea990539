/** The compare-and-set claims over whole runs of the database: whoever runs, stalls, crashes or is invoked again,
    one operation is claimed for purchase at most once. */
module Claims {
  import opened Base
  import opened Tables
  import opened OperationRows
  import opened Capture
  import opened Operations
  import opened Snapshots
  import opened ConfigStore
  import opened History
  import opened RowMarks

  /** The row can still be claimed, now or after it has been created. */
  predicate Claimable(o: Ops, id: nat) {
    id >= o.nextIp || (id in o.ip && o.ip[id].purchase == P_NOT_STARTED)
  }

  predicate ClaimWins(o: Ops, e: Event, id: nat) {
    e == IpClaimPurchase(id) && ClaimPurchase(o, id).1
  }

  /** How often the claim of an operation is won in a run. */
  function Wins(env: Env, db: Db, es: seq<Event>, id: nat): nat
    decreases |es|
  {
    if es == [] then 0
    else (if ClaimWins(db.ops, es[0], id) then 1 else 0) + Wins(env, Next(env, db, es[0]), es[1..], id)
  }

  /** No program ever writes the purchase mark back to NOT_STARTED. */
  predicate Forward(e: Event) {
    e.IpUpdate? ==> e.patch.purchase != Some(P_NOT_STARTED)
  }

  ghost predicate AllForward(es: seq<Event>) {
    forall i | 0 <= i < |es| :: Forward(es[i])
  }

  /** What a transaction may do to the purchase marks. */
  ghost predicate MarksAdvance(o: Ops, o': Ops) {
    && o.nextIp <= o'.nextIp && (IdsBelow(o) ==> IdsBelow(o'))
    && (forall id: nat | id in o'.ip && id < o.nextIp ::
          id in o.ip && (o.ip[id].purchase != P_NOT_STARTED ==> o'.ip[id].purchase != P_NOT_STARTED))
  }

  lemma AdvancedStaysUnclaimable(o: Ops, o': Ops, id: nat)
    requires MarksAdvance(o, o') && !Claimable(o, id)
    ensures !Claimable(o', id)
  {
  }

  lemma EventAdvances(env: Env, db: Db, e: Event)
    requires Forward(e) && IdsBelow(db.ops)
    ensures MarksAdvance(db.ops, Next(env, db, e).ops)
  {
    hide MarksAdvance, UpdateIp, PublishIp, ResetServer;
    if e.IpUpdate? {
      UpdateAdvances(db.ops, e.id, e.patch, e.now);
    } else if e.IpPublish? {
      PublicationAdvances(db, e.id, e.ip, e.box, e.ts);
    } else if e.Reset? {
      ResetAdvances(db, e.ts);
    } else {
      hide Next;
      EventStays(env, db, e);
      StayingAdvances(db.ops, Next(env, db, e).ops);
    }
  }

  lemma UpdateAdvances(o: Ops, id: nat, patch: Patch, now: int)
    requires patch.purchase != Some(P_NOT_STARTED)
    ensures MarksAdvance(o, UpdateIp(o, id, patch, now))
  {
  }

  lemma PublicationAdvances(db: Db, id: nat, ip: string, box: Option<NewBox>, ts: string)
    ensures MarksAdvance(db.ops, PublishIp(db, id, ip, box, ts).Or(db).ops)
  {
    hide PublishConfig;
  }

  lemma ResetAdvances(db: Db, ts: string)
    ensures MarksAdvance(db.ops, ResetServer(db, ts).Or(db).ops)
  {
    hide ResetSettings;
  }

  lemma StayingAdvances(o: Ops, o': Ops)
    requires RowsStay(o, o') && IdsBelow(o)
    ensures MarksAdvance(o, o')
  {
  }

  lemma WinSpends(o: Ops, id: nat)
    requires ClaimPurchase(o, id).1 && id < o.nextIp
    ensures Claimable(o, id) && !Claimable(ClaimPurchase(o, id).0, id)
  {
  }

  /** Over every run, with any number of concurrent, stalled and repeated workers: the claim of one operation, which
      every box/add request needs, is won at most once. */
  lemma {:induction false} ClaimedAtMostOnce(env: Env, db: Db, es: seq<Event>, id: nat)
    requires AllForward(es) && IdsBelow(db.ops)
    ensures Wins(env, db, es, id) <= (if Claimable(db.ops, id) then 1 else 0)
    decreases |es|
  {
    hide Next, ClaimPurchase;
    if es == [] {
    } else {
      var db1 := Next(env, db, es[0]);
      EventAdvances(env, db, es[0]);
      assert AllForward(es[1..]);
      ClaimedAtMostOnce(env, db1, es[1..], id);
      if ClaimWins(db.ops, es[0], id) {
        WinMeans(env, db, id);
        WinSpends(db.ops, id);
      } else if !Claimable(db.ops, id) {
        AdvancedStaysUnclaimable(db.ops, db1.ops, id);
      }
    }
  }

  lemma WinMeans(env: Env, db: Db, id: nat)
    requires ClaimPurchase(db.ops, id).1
    ensures id in db.ops.ip && Next(env, db, IpClaimPurchase(id)).ops == ClaimPurchase(db.ops, id).0
  {
  }
}
