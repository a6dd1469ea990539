/** The two loops over a chain's boxes: collecting what the previous publication retained
    (app/sprintbox_review.py:62-76), and deleting it (app/sprintbox_rotation.py:274-339). */
module SprintCleanup {
  import opened Tables
  import SprintChain

  /* ---------- collecting ---------- */

  predicate SameOwner(a: Binding, b: Binding) {
    match (a, b)
    case (SprintBinding(login, credential, _, _, _), SprintBinding(login', credential', _, _, _)) =>
      login == login' && credential == credential'
    case _ => a == b
  }

  /** The set of the latest matching row of the same account. */
  function Inherited(rows: SprintChain.Rows, below: nat, name: string, ip: string, bound: Binding): map<string, string> {
    if below == 0 then map[]
    else if below - 1 in rows && SprintChain.Matches(rows[below - 1], name, ip) && SameOwner(rows[below - 1].bound, bound)
    then rows[below - 1].ctx.retained
    else Inherited(rows, below - 1, name, ip, bound)
  }

  /** retained_boxes: the rows from the newest on, until one of the same account. */
  method CollectRetained(rows: SprintChain.Rows, nextId: nat, name: string, ip: string, bound: Binding)
    returns (retained: map<string, string>)
    ensures retained == Inherited(rows, nextId, name, ip, bound)[name := ip]
  {
    retained := map[];
    var id := nextId;
    while id > 0
      invariant 0 <= id <= nextId && retained == map[]
      invariant Inherited(rows, nextId, name, ip, bound) == Inherited(rows, id, name, ip, bound)
    {
      id := id - 1;
      if id in rows && SprintChain.Matches(rows[id], name, ip) && SameOwner(rows[id].bound, bound) {
        retained := rows[id].ctx.retained;
        break;
      }
    }
    retained := retained[name := ip];
  }

  /** With one account it is the set the chain is proved to conserve. */
  lemma {:induction false} InheritedFromPublisher(rows: SprintChain.Rows, nextId: nat, name: string, ip: string,
                                                  bound: Binding)
    requires forall id | id in rows :: SameOwner(rows[id].bound, bound)
    ensures Inherited(rows, nextId, name, ip, bound)[name := ip] == SprintChain.RetainedBoxes(rows, nextId, name, ip)
  {
    if nextId > 0 && !(nextId - 1 in rows && SprintChain.Matches(rows[nextId - 1], name, ip)) {
      InheritedFromPublisher(rows, nextId - 1, name, ip, bound);
    }
  }

  /* ---------- deleting ---------- */

  /** How far the deletion of one box gets. An explicit API error is certain; anything else after the request is not. */
  datatype Fate =
    | StaleTarget | QueryFails | NotListed | OtherIp
    | DeleteRejected | DeleteLost | TaskRejected | TaskLost | StillListed | Deleted

  /** What is written or sent, in order. */
  datatype Trace = Save(ctx: Context) | Send(name: string)

  /** The requests among them. */
  function Sent(trace: seq<Trace>): (r: seq<string>)
  {
    if trace == [] then []
    else Sent(trace[..|trace| - 1]) + (if trace[|trace| - 1].Send? then [trace[|trace| - 1].name] else [])
  }

  lemma SentExtends(trace: seq<Trace>, last: Trace)
    ensures Sent(trace + [last]) == Sent(trace) + (if last.Send? then [last.name] else [])
  {
    assert (trace + [last])[..|trace|] == trace;
  }

  /** Before every request its mark has been saved. */
  ghost predicate WrittenAhead(trace: seq<Trace>) {
    forall i | 0 <= i < |trace| && trace[i].Send? ::
      && i > 0 && trace[i - 1].Save? && trace[i].name in trace[i - 1].ctx.results
      && trace[i - 1].ctx.results[trace[i].name] == D_SENDING
  }

  predicate IsGone(ctx: Context, name: string) {
    name in ctx.results && ctx.results[name] in {D_DELETED, D_ABSENT}
  }

  /** The outcome recorded for one box, once a request for it may have been sent. */
  function SentOutcome(fate: Fate): Deletion {
    match fate
    case DeleteLost | TaskLost | StillListed => D_AMBIGUOUS
    case Deleted => D_DELETED
    case _ => D_MANUAL
  }

  /** The writes and the request of one deletion: the mark, the request, and the task when it was accepted. */
  function Attempt(ctx: Context, name: string, fate: Fate): seq<Trace> {
    var marked := Save(ctx.(results := ctx.results[name := D_SENDING]));
    if fate.DeleteRejected? || fate.DeleteLost? then [marked, Send(name)]
    else [marked, Send(name), Save(ctx.(results := ctx.results[name := D_SENT]))]
  }

  lemma AttemptSends(ctx: Context, name: string, fate: Fate)
    ensures Sent(Attempt(ctx, name, fate)) == [name] && WrittenAhead(Attempt(ctx, name, fate))
  {
    var trace := Attempt(ctx, name, fate);
    SentExtends([], trace[0]);
    SentExtends([trace[0]], Send(name));
    assert trace[..2] == [trace[0]] + [Send(name)] && [trace[0]] == [] + [trace[0]];
    if |trace| == 3 {
      SentExtends(trace[..2], trace[2]);
      assert trace == trace[..2] + [trace[2]];
    } else {
      assert trace == trace[..2];
    }
  }

  lemma SaveSendsNothing(trace: seq<Trace>, ctx: Context)
    requires WrittenAhead(trace)
    ensures Sent(trace + [Save(ctx)]) == Sent(trace) && WrittenAhead(trace + [Save(ctx)])
  {
    SentExtends(trace, Save(ctx));
  }

  /** One turn of the loop of run_sprintbox_cleanup. */
  method DeleteOne(ctx: Context, active: string, name: string, fate: Fate)
    returns (ctx': Context, trace: seq<Trace>)
    requires name in ctx.retained
    ensures OneTurn(ctx, ctx', active, name, Sent(trace))
    ensures WrittenAhead(trace)
    ensures |trace| > 0 && trace[|trace| - 1] == Save(ctx')
  {
    hide Sent, WrittenAhead, Attempt;
    trace := [];
    assert WrittenAhead([]) && Sent([]) == [] by {
      NothingSent();
    }
    var outcome := D_MANUAL;
    if fate.StaleTarget? || name == active || fate.QueryFails? {
    } else if fate.NotListed? {
      outcome := D_ABSENT;
    } else if fate.OtherIp? || name in ctx.results {
    } else {
      trace := Attempt(ctx, name, fate);
      AttemptSends(ctx, name, fate);
      outcome := SentOutcome(fate);
    }
    ctx' := ctx.(results := ctx.results[name := outcome]);
    if outcome in {D_DELETED, D_ABSENT} {
      ctx' := ctx'.(retained := ctx'.retained - {name});
    }
    SaveSendsNothing(trace, ctx');
    trace := trace + [Save(ctx')];
  }

  lemma NothingSent()
    ensures WrittenAhead([]) && Sent([]) == []
  {
  }

  /** What one turn does to the context, and which request it sent, if any. */
  ghost predicate OneTurn(ctx: Context, ctx': Context, active: string, name: string, sent: seq<string>) {
    && (sent == [] || (sent == [name] && name != active && name !in ctx.results))
    && name in ctx'.results && ctx'.results == ctx.results[name := ctx'.results[name]]
    && ctx'.retained == (if IsGone(ctx', name) then ctx.retained - {name} else ctx.retained)
    && (ctx'.results[name] == D_DELETED ==> sent == [name])
  }

  /** What the turns for some of the boxes amount to. */
  ghost predicate Progress(ctx: Context, ctx': Context, active: string, done: set<string>, sent: seq<string>,
                           ambiguous: bool)
  {
    && (forall n | n in sent :: n in done && n != active && n !in ctx.results)
    && (forall i, j | 0 <= i < j < |sent| :: sent[i] != sent[j])
    && ctx'.results.Keys == ctx.results.Keys + done
    && (forall n | n in ctx.results && n !in done :: ctx'.results[n] == ctx.results[n])
    && ctx'.retained == (map n | n in ctx.retained && !(n in done && IsGone(ctx', n)) :: ctx.retained[n])
    && (forall n | n in done && ctx'.results[n] == D_DELETED :: n in sent)
    && (ambiguous <==> exists n | n in done :: ctx'.results[n] == D_AMBIGUOUS)
  }

  lemma ProgressTurn(ctx: Context, before: Context, after: Context, active: string, done: set<string>,
                     sent: seq<string>, ambiguous: bool, name: string, more: seq<string>)
    requires Progress(ctx, before, active, done, sent, ambiguous) && name !in done
    requires OneTurn(before, after, active, name, more)
    ensures Progress(ctx, after, active, done + {name}, sent + more, ambiguous || after.results[name] == D_AMBIGUOUS)
  {
    assert forall n | n in done :: after.results[n] == before.results[n];
    assert after.retained == map n | n in ctx.retained && !(n in done + {name} && IsGone(after, n)) :: ctx.retained[n];
    if ambiguous {
      var n :| n in done && before.results[n] == D_AMBIGUOUS;
      assert n in done + {name} && after.results[n] == D_AMBIGUOUS;
    }
    if after.results[name] == D_AMBIGUOUS {
      assert name in done + {name};
    }
  }

  lemma NotDoneIsRetained(ctx: Context, ctx': Context, active: string, done: set<string>, sent: seq<string>,
                          ambiguous: bool, name: string)
    requires Progress(ctx, ctx', active, done, sent, ambiguous) && name in ctx.retained && name !in done
    ensures name in ctx'.retained
  {
  }

  lemma ProgressStarts(ctx: Context, active: string)
    ensures Progress(ctx, ctx, active, {}, [], false)
  {
    assert ctx.retained == map n | n in ctx.retained :: ctx.retained[n];
  }

  /** The loop over the retained boxes as they were when the cleanup took up its work: it asks to delete members only,
      never the active box, none twice and none that was tried before; and what leaves the retained set is exactly what
      is recorded as deleted or absent. */
  method DeleteRetained(ctx: Context, active: string, names: seq<string>, fates: string -> Fate)
    returns (ctx': Context, sent: seq<string>, ambiguous: bool)
    requires forall n :: n in names <==> n in ctx.retained
    requires forall i, j | 0 <= i < j < |names| :: names[i] != names[j]
    ensures Progress(ctx, ctx', active, ctx.retained.Keys, sent, ambiguous)
  {
    hide Progress, Sent, WrittenAhead, IsGone;
    ctx', sent, ambiguous := ctx, [], false;
    ghost var done: set<string> := {};
    ProgressStarts(ctx, active);
    for i := 0 to |names|
      invariant done == set n | n in names[..i]
      invariant Progress(ctx, ctx', active, done, sent, ambiguous)
    {
      var name := names[i];
      assert names[..i + 1] == names[..i] + [name] && name !in names[..i];
      NotDoneIsRetained(ctx, ctx', active, done, sent, ambiguous, name);
      ghost var before := ctx';
      var trace;
      ctx', trace := DeleteOne(ctx', active, name, fates(name));
      ProgressTurn(ctx, before, ctx', active, done, sent, ambiguous, name, Sent(trace));
      sent := sent + Sent(trace);
      ambiguous := ambiguous || ctx'.results[name] == D_AMBIGUOUS;
      done := done + {name};
    }
    assert names[..|names|] == names;
    assert done == ctx.retained.Keys;
  }

  /** The context after a whole cleanup: the retained set loses exactly the boxes recorded as deleted or absent. */
  lemma CleanedSet(ctx: Context, ctx': Context, active: string, sent: seq<string>, ambiguous: bool)
    requires Progress(ctx, ctx', active, ctx.retained.Keys, sent, ambiguous)
    ensures ctx'.retained.Keys == ctx.retained.Keys - set n | n in ctx.retained && IsGone(ctx', n)
    ensures forall n | n in sent :: n in ctx.retained && n != active
    ensures forall n | n in ctx.retained && ctx'.results[n] == D_DELETED :: n in sent
  {
  }
}
