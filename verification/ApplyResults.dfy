/** Idempotent apply results (app/router_apply_results.py:276-432, app/router_api.py:530-635): a PUT is three
    transactions, and anything may happen between them. */
module ApplyResults {
  import opened Base
  import opened VpnConfig
  import opened Tables
  import opened Capture
  import opened ConfigStore
  import opened Snapshots
  import opened Addresses
  import opened ConfigSteps
  import opened OperationRows
  import opened Operations
  import opened History
  import opened RouterApi

  /** A validated request, and the router and client its credential stands for. */
  datatype Put = Put(credential: string, key: string, body: ResultBody, etag: Etag, router: string, client: nat) {
    function Slot(): (string, string) {
      (credential, key)
    }
  }

  /** Whether a stored row answers the request, and how it refuses otherwise. */
  function Replay(row: ResultRow, p: Put): Answer<ResultRow> {
    if row.body != BodyDigest(p.body) then Fails(IdempotencyConflict)
    else if row.etag != p.etag then Fails(EtagMismatch)
    else Is(row)
  }

  /** find_router_apply_result_replay: None when there is no row yet. */
  function FindReplay(api: Api, p: Put): Option<Answer<ResultRow>> {
    if p.Slot() in api.results then Some(Replay(api.results[p.Slot()], p)) else None
  }

  /** The checks of the second transaction: the view the ETag must match, and the revision the body must name. */
  function CheckView(decimal: nat -> string, db: Db, p: Put): Answer<()> {
    var applied := LoadApplied(db);
    if applied.Fails? then Fails(applied.error)
    else
      var plain, dual := View(decimal, db, p.router, p.client, false), View(decimal, db, p.router, p.client, true);
      if plain.Fails? then Fails(plain.error)
      else if dual.Fails? then Fails(dual.error)
      else if p.etag != EtagOfResponse(plain.value) && p.etag != EtagOfResponse(dual.value) then Fails(EtagMismatch)
      else if p.body.revision != applied.value.revision || p.body.sha != applied.value.row.sha
      then Fails(SnapshotConflict)
      else Is(())
  }

  predicate IsApplied(c: Cfg, revision: nat, sha: Digest<Payload>) {
    && c.applied == Some(revision) && revision in c.snapshots && c.snapshots[revision].lifecycle.APPLIED?
    && c.snapshots[revision].sha == sha
  }

  /** record_router_apply_result: the answer, and the tables after it. */
  function Record(db: Db, p: Put): (Answer<ResultRow>, Db) {
    if db.cfg.applied.None? then (Fails(NotReady), db)
    else if !IsApplied(db.cfg, p.body.revision, p.body.sha) then (Fails(SnapshotConflict), db)
    else if p.Slot() in db.api.results then (Replay(db.api.results[p.Slot()], p), db)
    else if p.credential !in db.api.credentials then (Fails(IdempotencyConflict), db)
    else
      var row := ResultRow(db.api.nextResult, BodyDigest(p.body), p.body.revision, p.body.sha, p.etag);
      (Is(row), db.(api := db.api.(results := db.api.results[p.Slot() := row], nextResult := db.api.nextResult + 1)))
  }

  /* ---------- whole runs ---------- */

  datatype ApiEvent =
    | Commits(e: Event)
    | Issue(credential: string, router: string)
    | Revoke(credential: string)
    | RecordPut(p: Put)

  /** ON DELETE CASCADE from routers to credentials and from credentials to results. */
  function Sweep(db: Db): Db {
    var credentials := map k | k in db.api.credentials && db.api.credentials[k].routerId in db.cfg.routers ::
      db.api.credentials[k];
    db.(api := db.api.(credentials := credentials,
                       results := map s | s in db.api.results && s.0 in credentials :: db.api.results[s]))
  }

  function ApiNext(env: Env, db: Db, a: ApiEvent): Db {
    match a
    case Commits(e) => Sweep(Next(env, db, e))
    case Issue(credential, router) =>
      if router !in db.cfg.routers || credential in db.api.credentials then db
      else db.(api := db.api.(credentials := db.api.credentials[credential := CredentialRow(router, true)]))
    case Revoke(credential) =>
      if credential !in db.api.credentials then db
      else
        var row := db.api.credentials[credential].(enabled := false);
        db.(api := db.api.(credentials := db.api.credentials[credential := row]))
    case RecordPut(p) => Record(db, p).1
  }

  function ApiRun(env: Env, db: Db, events: seq<ApiEvent>): Db
    decreases |events|
  {
    if events == [] then db else ApiRun(env, ApiNext(env, db, events[0]), events[1..])
  }

  ghost predicate ApiCallersOk(env: Env, db: Db, events: seq<ApiEvent>)
    decreases |events|
  {
    events == [] ||
    (&& (events[0].Commits? && events[0].e.Configure? ==> CallerOk(db.cfg, events[0].e.e))
     && ApiCallersOk(env, ApiNext(env, db, events[0]), events[1..]))
  }

  /** The row's revision and hash are those of a snapshot that was applied: it still is stored as APPLIED with that
      hash, and the applied revision is at least as late. */
  predicate Backed(c: Cfg, row: ResultRow) {
    && row.revision in c.snapshots && c.snapshots[row.revision].sha == row.sha
    && c.snapshots[row.revision].lifecycle.APPLIED? && c.applied.Some? && row.revision <= c.applied.value
    && row.body.of.revision == row.revision && row.body.of.sha == row.sha
  }

  /** One row for each credential and key, one number for each row. */
  ghost predicate ResultsOk(db: Db) {
    && (forall s | s in db.api.results ::
          && s.0 in db.api.credentials && db.api.results[s].id < db.api.nextResult && Backed(db.cfg, db.api.results[s]))
    && (forall s, t | s in db.api.results && t in db.api.results && db.api.results[s].id == db.api.results[t].id ::
          s == t)
  }

  /** No row is ever rewritten: one with an old number is the old row, in its old place. */
  ghost predicate NoRewrite(api: Api, api': Api) {
    && api.nextResult <= api'.nextResult
    && forall s | s in api'.results && api'.results[s].id < api.nextResult ::
         s in api.results && api.results[s] == api'.results[s]
  }

  lemma NoRewriteTransitive(a: Api, b: Api, c: Api)
    requires NoRewrite(a, b) && NoRewrite(b, c)
    ensures NoRewrite(a, c)
  {
  }

  lemma NextKeepsApi(env: Env, db: Db, e: Event)
    ensures Next(env, db, e).api == db.api
  {
    hide ConfigNext, EnsureSnapshot, PublishConfig, CompleteConfig, FailSnapshot, IsDecidable, IsReviewable, MayRotate,
         FollowUp, BindProvider, ResetSettings, Idle, Patched, InterruptIp;
  }

  lemma BackedStays(c: Cfg, c': Cfg, row: ResultRow)
    requires Backed(c, row) && Extends(c, c')
    ensures Backed(c', row)
  {
  }

  lemma OtherKeepsResults(env: Env, db: Db, e: Event)
    requires env.Ok() && DbInv(env, db) && ResultsOk(db) && (e.Configure? ==> CallerOk(db.cfg, e.e))
    ensures var db' := ApiNext(env, db, Commits(e));
            DbInv(env, db') && Extends(db.cfg, db'.cfg) && ResultsOk(db') && NoRewrite(db.api, db'.api)
  {
    hide Next, CallerOk, CfgInv, Extends;
    StepKept(env, db, e);
    NextKeepsApi(env, db, e);
    var db' := ApiNext(env, db, Commits(e));
    forall s | s in db'.api.results ensures Backed(db'.cfg, db'.api.results[s]) {
      BackedStays(db.cfg, db'.cfg, db.api.results[s]);
    }
  }

  /** An answer of the recording transaction is the stored row, and its revision and hash are the applied ones at that
      moment; nothing else in the tables changes, and a refusal changes nothing. */
  lemma RecordMeans(db: Db, p: Put)
    requires ResultsOk(db)
    ensures var (answer, db') := Record(db, p);
            && (answer.Is? ==>
                  && p.Slot() in db'.api.results && db'.api.results[p.Slot()] == answer.value
                  && IsApplied(db.cfg, answer.value.revision, answer.value.sha)
                  && answer.value.body == BodyDigest(p.body) && answer.value.etag == p.etag)
            && (answer.Fails? || p.Slot() in db.api.results ==> db' == db)
            && db'.cfg == db.cfg && db'.ops == db.ops && db'.api.credentials == db.api.credentials
  {
  }

  lemma RecordKeepsResults(db: Db, p: Put)
    requires ResultsOk(db) && (forall r | r in db.cfg.snapshots :: r <= db.cfg.desired)
    ensures ResultsOk(Record(db, p).1) && NoRewrite(db.api, Record(db, p).1.api)
    ensures Record(db, p).1.cfg == db.cfg
  {
    hide Replay;
    var db' := Record(db, p).1;
    forall s | s in db'.api.results ensures Backed(db.cfg, db'.api.results[s]) {
      assert s in db.api.results ==> Backed(db.cfg, db.api.results[s]);
    }
    hide Record, Backed;
    RecordGrows(db, p);
  }

  /** A new row takes the next number and an empty slot. */
  lemma RecordGrows(db: Db, p: Put)
    ensures var db' := Record(db, p).1;
            db' == db || (db'.cfg == db.cfg && p.Slot() !in db.api.results && p.credential in db.api.credentials
                          && db'.api.credentials == db.api.credentials && db'.api.nextResult == db.api.nextResult + 1
                          && p.Slot() in db'.api.results && db'.api.results[p.Slot()].id == db.api.nextResult
                          && db'.api.results == db.api.results[p.Slot() := db'.api.results[p.Slot()]])
  {
    hide Replay;
  }

  lemma ApiStepKeeps(env: Env, db: Db, a: ApiEvent)
    requires env.Ok() && DbInv(env, db) && ResultsOk(db) && (a.Commits? && a.e.Configure? ==> CallerOk(db.cfg, a.e.e))
    ensures var db' := ApiNext(env, db, a); DbInv(env, db') && ResultsOk(db') && NoRewrite(db.api, db'.api)
  {
    hide DbInv, ResultsOk, NoRewrite, CallerOk, Record, Extends;
    match a
    case Commits(e) => OtherKeepsResults(env, db, e);
    case RecordPut(p) => RecordStepKeeps(env, db, p);
    case _ => CredentialStepKeeps(env, db, a);
  }

  lemma RecordStepKeeps(env: Env, db: Db, p: Put)
    requires DbInv(env, db) && ResultsOk(db)
    ensures var db' := Record(db, p).1; DbInv(env, db') && ResultsOk(db') && NoRewrite(db.api, db'.api)
  {
    assert forall r | r in db.cfg.snapshots :: r <= db.cfg.desired by {
      hide Served, AddressesOk, DesiredIsCaptured;
    }
    RecordKeepsResults(db, p);
    RecordMeans(db, p);
    hide CfgInv, ResultsOk, NoRewrite, Record;
  }

  lemma CredentialStepKeeps(env: Env, db: Db, a: ApiEvent)
    requires DbInv(env, db) && ResultsOk(db) && (a.Issue? || a.Revoke?)
    ensures var db' := ApiNext(env, db, a); DbInv(env, db') && ResultsOk(db') && NoRewrite(db.api, db'.api)
  {
    hide CfgInv, Backed;
  }

  /** Over whole runs, with requests recorded between any other transactions: at most one row for each credential and
      key, each backed by the snapshot it names, and no row ever rewritten. */
  lemma {:induction false} ResultsAreImmutable(env: Env, db: Db, events: seq<ApiEvent>)
    requires env.Ok() && DbInv(env, db) && ResultsOk(db) && ApiCallersOk(env, db, events)
    ensures var db' := ApiRun(env, db, events); DbInv(env, db') && ResultsOk(db') && NoRewrite(db.api, db'.api)
    decreases |events|
  {
    hide ApiNext, DbInv, ResultsOk, NoRewrite, CallerOk;
    if events == [] {
      NoRewriteItself(db.api);
    } else {
      var db1 := ApiNext(env, db, events[0]);
      ApiStepKeeps(env, db, events[0]);
      ResultsAreImmutable(env, db1, events[1..]);
      NoRewriteTransitive(db.api, db1.api, ApiRun(env, db1, events[1..]).api);
    }
  }

  lemma NoRewriteItself(api: Api)
    ensures NoRewrite(api, api)
  {
  }

  /* ---------- replays ---------- */

  /** The credential of a request belongs to a router that is still there. */
  predicate Belongs(db: Db, credential: string, router: string) {
    && credential in db.api.credentials && db.api.credentials[credential].routerId == router
    && router in db.cfg.routers
  }

  ghost predicate RouterStays(env: Env, db: Db, events: seq<ApiEvent>, router: string)
    decreases |events|
  {
    router in db.cfg.routers && (events == [] || RouterStays(env, ApiNext(env, db, events[0]), events[1..], router))
  }

  lemma StepOutlived(env: Env, db: Db, a: ApiEvent, slot: (string, string), router: string)
    requires slot in db.api.results && Belongs(db, slot.0, router) && router in ApiNext(env, db, a).cfg.routers
    ensures var db' := ApiNext(env, db, a);
            slot in db'.api.results && db'.api.results[slot] == db.api.results[slot] && Belongs(db', slot.0, router)
  {
    hide Next;
    if a.Commits? {
      NextKeepsApi(env, db, a.e);
    }
  }

  /** A row is there for as long as its router is. */
  lemma {:induction false} RowOutlivesRevisions(env: Env, db: Db, events: seq<ApiEvent>, slot: (string, string),
                                                router: string)
    requires slot in db.api.results && Belongs(db, slot.0, router) && RouterStays(env, db, events, router)
    ensures var db' := ApiRun(env, db, events);
            slot in db'.api.results && db'.api.results[slot] == db.api.results[slot] && Belongs(db', slot.0, router)
    decreases |events|
  {
    hide ApiNext, Belongs;
    if events == [] {
    } else {
      assert router in ApiNext(env, db, events[0]).cfg.routers;
      StepOutlived(env, db, events[0], slot, router);
      RowOutlivesRevisions(env, ApiNext(env, db, events[0]), events[1..], slot, router);
    }
  }

  /** A whole request: its three transactions see three databases, with anything in between. */
  function PutAnswer(decimal: nat -> string, first: Db, second: Db, third: Db, p: Put): Answer<ResultRow> {
    var replay := FindReplay(first.api, p);
    if replay.Some? then replay.value
    else
      var checked := CheckView(decimal, second, p);
      if checked.Fails? then Fails(checked.error) else Record(third, p).0
  }

  /** The ETag is that of a response the router is served, and the body names the revision and hash of that response. */
  ghost predicate Acknowledges(decimal: nat -> string, db: Db, p: Put) {
    exists dual: bool :: AcknowledgesView(decimal, db, p, dual)
  }

  predicate AcknowledgesView(decimal: nat -> string, db: Db, p: Put, dual: bool) {
    var view := View(decimal, db, p.router, p.client, dual);
    && view.Is? && p.etag == EtagOfResponse(view.value)
    && p.body.revision == view.value.revision && p.body.sha == view.value.sha
  }

  /** The two responses are served or refused together. */
  lemma BothViewsAreServed(decimal: nat -> string, db: Db, router: string, id: nat)
    ensures View(decimal, db, router, id, true).Is? <==> View(decimal, db, router, id, false).Is?
  {
    hide LatestPublication, FromPayload;
  }

  lemma ViewIsChecked(decimal: nat -> string, db: Db, p: Put)
    ensures CheckView(decimal, db, p).Is? <==> Acknowledges(decimal, db, p)
  {
    hide View, LoadApplied;
    BothViewsAreServed(decimal, db, p.router, p.client);
    var plain, dual := View(decimal, db, p.router, p.client, false), View(decimal, db, p.router, p.client, true);
    if plain.Is? {
      ResponseFollowsSnapshot(decimal, db, p.router, p.client, false);
      ResponseFollowsSnapshot(decimal, db, p.router, p.client, true);
      ServedIsLoaded(decimal, db, p.router, p.client);
    }
    if CheckView(decimal, db, p).Is? {
      assert AcknowledgesView(decimal, db, p, false) || AcknowledgesView(decimal, db, p, true);
    }
  }

  lemma ServedIsLoaded(decimal: nat -> string, db: Db, router: string, id: nat)
    requires View(decimal, db, router, id, false).Is?
    ensures var a := LoadApplied(db);
            && a.Is? && db.cfg.applied == Some(a.value.revision) && a.value.revision in db.cfg.snapshots
            && a.value.row == db.cfg.snapshots[a.value.revision] && a.value.row.lifecycle.APPLIED?
  {
    hide LatestPublication, FromPayload, Build;
  }

  /** Exactly when the first request for a key is accepted, with anything between its three transactions: when at the
      second the ETag is that of a response that is served and the body names its revision and hash, and these are still
      the applied ones at the third. */
  lemma FirstPutIsAcceptedExactlyWhen(decimal: nat -> string, first: Db, second: Db, third: Db, p: Put)
    requires p.Slot() !in first.api.results && p.Slot() !in third.api.results && p.credential in third.api.credentials
    ensures PutAnswer(decimal, first, second, third, p).Is?
       <==> Acknowledges(decimal, second, p) && IsApplied(third.cfg, p.body.revision, p.body.sha)
  {
    ViewIsChecked(decimal, second, p);
    hide Acknowledges, CheckView;
  }

  lemma {:induction false} RunKeepsApi(env: Env, db: Db, es: seq<Event>)
    ensures Run(env, db, es).api == db.api
    decreases |es|
  {
    hide Next;
    if es != [] {
      NextKeepsApi(env, db, es[0]);
      RunKeepsApi(env, Next(env, db, es[0]), es[1..]);
    }
  }

  /** If nothing completes, publishes or resets in between, the first two transactions decide: such a request is
      accepted exactly when it acknowledges what is served, and then its stored ETag is that of a response which is
      still served. */
  lemma UndisturbedPut(env: Env, decimal: nat -> string, first: Db, db: Db, es: seq<Event>, p: Put)
    requires p.Slot() !in first.api.results && p.Slot() !in db.api.results && p.credential in db.api.credentials
    requires env.Ok() && DbInv(env, db) && CallersOk(env, db, es) && AllLeaveApplied(env, db, es)
    ensures var third := Run(env, db, es); var answer := PutAnswer(decimal, first, db, third, p);
            && (answer.Is? <==> Acknowledges(decimal, db, p))
            && (answer.Is? ==> answer.value.etag == p.etag && Acknowledges(decimal, third, p))
  {
    hide Run, CallersOk, AllLeaveApplied, DbInv, View, CheckView;
    var third := Run(env, db, es);
    RunKeepsApi(env, db, es);
    FirstPutIsAcceptedExactlyWhen(decimal, first, db, third, p);
    ViewIsIndependentOfDesiredState(env, db, es, decimal, p.router, p.client, false);
    ViewIsIndependentOfDesiredState(env, db, es, decimal, p.router, p.client, true);
    if dual: bool :| AcknowledgesView(decimal, db, p, dual) {
      assert AcknowledgesView(decimal, third, p, dual);
      BothViewsAreServed(decimal, third, p.router, p.client);
      ResponseFollowsSnapshot(decimal, third, p.router, p.client, dual);
      ServedIsLoaded(decimal, third, p.router, p.client);
    }
  }

  /** Once a request has been answered, any later request with the same credential and key, whatever revision is
      applied by then, is answered from the stored row alone: with that row exactly when body and ETag are the same,
      with an idempotency conflict for another body, and with an ETag mismatch for another ETag. */
  lemma LaterPutIsReplayed(env: Env, decimal: nat -> string, db: Db, p: Put, events: seq<ApiEvent>, second: Db,
                           third: Db, q: Put, router: string)
    requires ResultsOk(db) && Record(db, p).0.Is? && Belongs(db, p.credential, router)
    requires RouterStays(env, Record(db, p).1, events, router)
    requires q.Slot() == p.Slot()
    ensures var row := Record(db, p).0.value;
            var later := PutAnswer(decimal, ApiRun(env, Record(db, p).1, events), second, third, q);
            && (later == Is(row) <==> q.body == p.body && q.etag == p.etag)
            && (q.body != p.body ==> later == Fails(IdempotencyConflict))
            && (q.body == p.body && q.etag != p.etag ==> later == Fails(EtagMismatch))
  {
    hide Record, ApiRun, RouterStays, CheckView;
    RecordMeans(db, p);
    RowOutlivesRevisions(env, Record(db, p).1, events, p.Slot(), router);
  }

  /** Two requests with the same key that race each other, both past their lookup: the second to record is answered
      with the row of the first exactly when body and ETag agree and the applied revision has not moved on. */
  lemma RacingPuts(env: Env, db: Db, p: Put, events: seq<ApiEvent>, q: Put, router: string)
    requires ResultsOk(db) && Record(db, p).0.Is? && Belongs(db, p.credential, router)
    requires RouterStays(env, Record(db, p).1, events, router) && q.Slot() == p.Slot()
    ensures var third := ApiRun(env, Record(db, p).1, events);
            && Record(third, q).1 == third
            && (Record(third, q).0 == Is(Record(db, p).0.value)
                <==> q.body == p.body && q.etag == p.etag && IsApplied(third.cfg, q.body.revision, q.body.sha))
  {
    hide ApiRun, RouterStays;
    RecordMeans(db, p);
    RowOutlivesRevisions(env, Record(db, p).1, events, p.Slot(), router);
  }
}
