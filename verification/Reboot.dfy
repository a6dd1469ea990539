/** run_server_reboot as a step machine (app/server_operations.py:448-617): the request is sent once, and its outcome
    is never guessed. */
module Reboot {
  import opened Tables
  import opened OperationRows

  /** Where one invocation of the runner is. */
  datatype Pc =
    | Loading | StartStep | Querying | RecordStep | Marking
    | Sending | AnsweredStep | UnansweredStep | Polling(ambiguous: bool) | Closing(status: Status)
    | Failing | FailStep(maySent: bool)

  /** The operation row, the invocations that are running, and the reboot requests the provider received. */
  datatype State = State(row: ServerOp, workers: map<nat, Pc>, sent: nat, acknowledged: bool, lost: bool)

  datatype Reply = Fine | Lost | Again | Recovered(healthy: bool) | OutOfTime

  datatype Act =
    | Work(w: nat, r: Reply)
    | Invoke(w: nat)
    | Crash
    | Restart
    | TakeOver

  function Goto(s: State, w: nat, pc: Pc): State {
    s.(workers := s.workers[w := pc])
  }

  function Leave(s: State, w: nat): State {
    s.(workers := s.workers - {w})
  }

  function WorkNext(s: State, w: nat, r: Reply): State
    requires w in s.workers
  {
    match s.workers[w]
    case Loading =>
      if s.row.action == S_NOT_STARTED then Goto(s, w, StartStep)
      else if !s.row.status.Active() then Leave(s, w)
      else Leave(s.(row := s.row.(status := AMBIGUOUS, action := S_AMBIGUOUS)), w)
    case StartStep => Goto(s.(row := s.row.(status := RUNNING)), w, Querying)
    case Querying => Goto(s, w, if r.Fine? then RecordStep else Failing)
    case RecordStep => Goto(s, w, if r.Fine? then Marking else Failing)
    case Marking =>
      if s.row.status.Active() && s.row.action == S_NOT_STARTED
      then Goto(s.(row := s.row.(status := RUNNING, action := S_SENDING)), w, Sending)
      else Goto(s, w, Failing)
    case Sending =>
      if r.Fine? then Goto(s.(sent := s.sent + 1, acknowledged := true), w, AnsweredStep)
      else Goto(s.(sent := s.sent + 1, lost := true), w, UnansweredStep)
    case AnsweredStep => Goto(s.(row := s.row.(action := S_SENT)), w, Polling(false))
    case UnansweredStep => Goto(s.(row := s.row.(action := S_AMBIGUOUS)), w, Polling(true))
    case Polling(ambiguous) =>
      (match r
       case Recovered(healthy) =>
         Goto(s, w, Closing(if ambiguous then AMBIGUOUS else if healthy then DONE else FAILURE))
       case OutOfTime => Goto(s, w, Closing(if ambiguous then AMBIGUOUS else TIMED_OUT))
       case Lost => Goto(s, w, Failing)
       case _ => s)
    case Closing(status) => Leave(s.(row := s.row.(status := status)), w)
    case Failing => Goto(s, w, FailStep(s.row.action != S_NOT_STARTED))
    case FailStep(maySent) =>
      Leave(s.(row := if maySent then s.row.(status := AMBIGUOUS, action := S_AMBIGUOUS)
                      else s.row.(status := FAILURE, action := S_NOT_STARTED)), w)
  }

  function Next(s: State, a: Act): State {
    match a
    case Work(w, r) => if w in s.workers then WorkNext(s, w, r) else s
    case Invoke(w) => if w in s.workers then s else Goto(s, w, Loading)
    case Crash => s.(workers := map[])
    case Restart => s.(workers := map[], row := InterruptServer(s.row))
    case TakeOver => s.(row := InterruptServer(s.row))
  }

  function Run(s: State, acts: seq<Act>): State
    decreases |acts|
  {
    if acts == [] then s else Run(Next(s, acts[0]), acts[1..])
  }

  const QUEUED := State(ServerOp(REBOOT, PENDING, S_NOT_STARTED), map[], 0, false, false)

  /** One invocation at a time: a new one starts only when no other is running. */
  predicate OneByOne(s: State, a: Act) {
    a.Invoke? ==> s.workers == map[]
  }

  ghost predicate AllOneByOne(s: State, acts: seq<Act>)
    decreases |acts|
  {
    acts == [] || (OneByOne(s, acts[0]) && AllOneByOne(Next(s, acts[0]), acts[1..]))
  }

  ghost predicate Inv(s: State) {
    && (forall a, b | a in s.workers && b in s.workers :: a == b)
    && s.row.kind == REBOOT && s.sent <= 1
    && (s.row.action == S_NOT_STARTED ==> s.sent == 0)
    && (s.sent == 0 ==> !s.acknowledged && !s.lost) && !(s.acknowledged && s.lost)
    && (s.row.status == DONE || s.row.status == TIMED_OUT ==> s.acknowledged)
    && (s.lost ==> s.row.status.Active() || s.row.status == AMBIGUOUS)
    && (s.row.status == FAILURE ==> s.sent == 0 || s.acknowledged)
    && forall w | w in s.workers :: WorkerInv(s, s.workers[w])
  }

  predicate WorkerInv(s: State, pc: Pc) {
    match pc
    case Loading => true
    case StartStep | Querying | RecordStep | Marking => s.row.action == S_NOT_STARTED
    case Sending => s.row.action != S_NOT_STARTED && s.sent == 0 && !s.row.status.FAILURE?
    case AnsweredStep => s.row.action != S_NOT_STARTED && s.acknowledged
    case UnansweredStep => s.row.action != S_NOT_STARTED && s.lost
    case Polling(ambiguous) => s.row.action != S_NOT_STARTED && (if ambiguous then s.lost else s.acknowledged)
    case Closing(status) =>
      s.row.action != S_NOT_STARTED && !status.Active() && (status == AMBIGUOUS || s.acknowledged)
    case Failing => true
    case FailStep(maySent) => !maySent ==> s.row.action == S_NOT_STARTED
  }

  lemma WorkKeeps(s: State, w: nat, r: Reply)
    requires Inv(s) && w in s.workers
    ensures Inv(WorkNext(s, w, r))
  {
    var s' := WorkNext(s, w, r);
    forall x | x in s'.workers ensures x == w {
      assert x in s.workers;
    }
    assert WorkerInv(s, s.workers[w]);
  }

  lemma StepKeeps(s: State, a: Act)
    requires Inv(s) && OneByOne(s, a)
    ensures Inv(Next(s, a))
  {
    match a
    case Work(w, r) => if w in s.workers { WorkKeeps(s, w, r); }
    case TakeOver =>
      var s' := Next(s, a);
      forall w | w in s'.workers ensures WorkerInv(s', s'.workers[w]) {
        assert WorkerInv(s, s.workers[w]);
      }
    case _ =>
  }

  /** Over all crashes, recoveries, takeovers of the lease and later invocations one by one, at most one reboot request
      is sent. DONE and TIMED_OUT are reported only for an acknowledged request, and a request whose reply was lost
      stays open or ambiguous. */
  lemma {:induction false} RebootIsSentOnce(s: State, acts: seq<Act>)
    requires Inv(s) && AllOneByOne(s, acts)
    ensures var s' := Run(s, acts);
            && Inv(s') && s'.sent <= 1
            && (s'.row.status in {DONE, TIMED_OUT} ==> s'.acknowledged)
            && (s'.lost ==> s'.row.status.Active() || s'.row.status == AMBIGUOUS)
    decreases |acts|
  {
    hide Next, OneByOne, WorkerInv;
    if acts == [] {
    } else {
      StepKeeps(s, acts[0]);
      RebootIsSentOnce(Next(s, acts[0]), acts[1..]);
    }
  }

  lemma QueuedInv()
    ensures Inv(QUEUED) && MarkInv(QUEUED)
  {
  }

  /* ---------- several invocations at once ---------- */

  /** The last line of the exception handler writes NOT_STARTED although the row no longer says so: the handler read the
      row before somebody else marked it. */
  predicate Withdraws(s: State, a: Act) {
    a.Work? && a.w in s.workers && s.workers[a.w] == FailStep(false) && s.row.action != S_NOT_STARTED
  }

  ghost predicate NoneWithdraws(s: State, acts: seq<Act>)
    decreases |acts|
  {
    acts == [] || (!Withdraws(s, acts[0]) && NoneWithdraws(Next(s, acts[0]), acts[1..]))
  }

  /** Whoever holds the mark: nothing was sent without it, and nobody else is about to send. */
  ghost predicate MarkInv(s: State) {
    && s.row.kind == REBOOT && s.sent <= 1
    && (s.row.action == S_NOT_STARTED ==> s.sent == 0)
    && (forall w | w in s.workers && s.workers[w].Sending? :: s.sent == 0 && s.row.action != S_NOT_STARTED)
    && (forall a, b | a in s.workers && b in s.workers && s.workers[a].Sending? && s.workers[b].Sending? :: a == b)
  }

  lemma MarkKeeps(s: State, a: Act)
    requires MarkInv(s) && !Withdraws(s, a)
    ensures MarkInv(Next(s, a))
  {
    if a.Work? && a.w in s.workers {
      WorkMarkKeeps(s, a.w, a.r);
      hide WorkNext, MarkInv;
    }
  }

  predicate IsSending(s: State, w: nat) {
    w in s.workers && s.workers[w].Sending?
  }

  lemma WorkMarkKeeps(s: State, w: nat, r: Reply)
    requires MarkInv(s) && w in s.workers && !Withdraws(s, Work(w, r))
    ensures MarkInv(WorkNext(s, w, r))
  {
    hide WorkNext;
    WorkSends(s, w, r);
    OthersStay(s, w, r);
    var s' := WorkNext(s, w, r);
    assert forall x :: x != w ==> IsSending(s', x) == IsSending(s, x);
  }

  /** One turn of an invocation: it starts sending only over NOT_STARTED, and counts up only when it was sending. */
  lemma WorkSends(s: State, w: nat, r: Reply)
    requires w in s.workers && !Withdraws(s, Work(w, r))
    ensures var s' := WorkNext(s, w, r);
            && s'.row.kind == s.row.kind
            && (s'.row.action == S_NOT_STARTED ==> s.row.action == S_NOT_STARTED)
            && (IsSending(s', w) ==> s.row.action == S_NOT_STARTED && s'.row.action != S_NOT_STARTED)
            && (if IsSending(s, w) then s'.sent == s.sent + 1 && s'.row == s.row else s'.sent == s.sent)
  {
  }

  lemma OthersStay(s: State, w: nat, r: Reply)
    requires w in s.workers
    ensures forall x | x != w :: (x in WorkNext(s, w, r).workers <==> x in s.workers)
                                 && (x in s.workers ==> WorkNext(s, w, r).workers[x] == s.workers[x])
  {
    hide Goto, Leave, InterruptServer;
    GoingLeavesOthers(s, w);
  }

  lemma GoingLeavesOthers(s: State, w: nat)
    ensures forall s1: State, pc | s1.workers == s.workers :: Goto(s1, w, pc).workers == s.workers[w := pc]
    ensures forall s1: State | s1.workers == s.workers :: Leave(s1, w).workers == s.workers - {w}
  {
  }

  /** With any number of invocations at once, over all crashes, recoveries and takeovers: a second request needs a
      withdrawn mark. */
  lemma {:induction false} SecondNeedsWithdrawal(s: State, acts: seq<Act>)
    requires MarkInv(s) && NoneWithdraws(s, acts)
    ensures Run(s, acts).sent <= 1
    decreases |acts|
  {
    hide Next, Withdraws;
    if acts == [] {
    } else {
      MarkKeeps(s, acts[0]);
      SecondNeedsWithdrawal(Next(s, acts[0]), acts[1..]);
    }
  }

  /** And a withdrawn mark is enough: the next invocation sends again. */
  lemma WithdrawalSendsAgain(s: State, w: nat, next: nat)
    requires s.row.kind == REBOOT && Withdraws(s, Work(w, Fine)) && next !in s.workers
    ensures Sends(Next(s, Work(w, Fine)), next).sent == s.sent + 1
  {
    var s' := Next(s, Work(w, Fine));
    assert next !in s'.workers && s'.row.action == S_NOT_STARTED && s'.row.kind == REBOOT;
    hide Next, Sends;
    SendsOnce(s', next);
  }

  function Twice(s: State, w: nat): State {
    Next(Next(s, Work(w, Fine)), Work(w, Fine))
  }

  /** One invocation from its start to the sent request. */
  function Sends(s: State, w: nat): State {
    Twice(Twice(Twice(Next(s, Invoke(w)), w), w), w)
  }

  lemma SendsOnce(s: State, w: nat)
    requires w !in s.workers && s.row.kind == REBOOT && s.row.action == S_NOT_STARTED
    ensures Sends(s, w) == s.(row := s.row.(status := RUNNING, action := S_SENDING), sent := s.sent + 1,
                              acknowledged := true, workers := s.workers[w := AnsweredStep])
  {
    var s1 := Twice(Next(s, Invoke(w)), w);
    assert s1 == s.(row := s.row.(status := RUNNING), workers := s.workers[w := Querying]);
    var s2 := Twice(s1, w);
    assert s2 == s1.(workers := s.workers[w := Marking]);
    var s3 := Next(s2, Work(w, Fine));
    assert s3 == s2.(row := s2.row.(status := RUNNING, action := S_SENDING), workers := s.workers[w := Sending]);
  }

  /** It happens: one invocation whose status query failed has read NOT_STARTED; another one marks and sends; the first
      withdraws the mark, and a third sends again. */
  lemma TwoInvocationsSendTwice()
    ensures var failing := Next(Next(Twice(Next(QUEUED, Invoke(1)), 1), Work(1, Lost)), Work(1, Fine));
            var sent := Sends(failing, 2);
            Withdraws(sent, Work(1, Fine)) && sent.sent == 1 && Sends(Next(sent, Work(1, Fine)), 3).sent == 2
  {
    var first := Twice(Next(QUEUED, Invoke(1)), 1);
    assert first == QUEUED.(row := QUEUED.row.(status := RUNNING), workers := map[1 := Querying]);
    var failing := Next(Next(first, Work(1, Lost)), Work(1, Fine));
    assert failing == first.(workers := map[1 := FailStep(false)]);
    SendsOnce(failing, 2);
    hide Sends, Next, Twice;
    WithdrawalSendsAgain(Sends(failing, 2), 1, 3);
  }
}
