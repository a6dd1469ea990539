/** A chain of SprintBOX operations (app/sprintbox_rotation.py, app/sprintbox_review.py, app/vpn_state.py:116-193)
    with the programs that work on it. A program keeps its place when its row is taken over, and goes on writing to
    that row whenever it wakes up: update_operation does not ask who writes.

    The account, the active box and the published address are not edited by the operator in between. */
module SprintChain {
  import opened Base
  import opened Tables
  import opened OperationRows

  type Rows = map<nat, IpOp>

  /** Where run_sprintbox_rotation is until its box is confirmed, and what it remembers. One runs for each operation. */
  datatype Creator = Creator(box: string, ip: string, pc: CreatorPc)
  datatype CreatorPc =
    | Loading | Checking | Collected(kept: map<string, string>) | Saved
    | Ordering | Lost | Refused | Rejected | Answered | Identifying

  /** Where _provision_box is. An operation whose wait was queued again may have several of them. */
  datatype Installer = Installer(id: nat, name: string, ip: string, pc: InstallerPc)
  datatype InstallerPc = Entering | Waiting | Reached | Deploying | Deployed | Publishing | Closing

  /** Where run_sprintbox_cleanup is, with the context it read when it took up its work. */
  datatype Cleaner = Cleaner(ctx: Context, pc: CleanerPc)
  datatype CleanerPc = Choosing | Chosen(name: string) | Marked(name: string) | Asked(name: string)

  datatype Chain = Chain(
    rows: Rows, nextId: nat, desired: nat,
    box: string, ip: string,             // the active box and its address, from the settings
    creators: map<nat, Creator>,         // by operation
    installers: map<nat, Installer>,     // by a number of their own
    cleaners: map<nat, Cleaner>,         // by operation
    past: Past)

  /** What happened so far, at the provider and on the servers. */
  datatype Past = Past(
    publisher: Option<nat>,              // the operation that published the active box, if one did
    made: map<string, nat>,              // every box, by the operation that ordered it
    gone: set<string>,                   // boxes recorded DELETED or ABSENT
    follows: map<nat, nat>,              // SSH retries, by the operation they follow up
    orders: seq<nat>, deployments: seq<nat>, deletions: seq<(nat, string)>,
    cleaned: set<nat>,                   // operations whose cleanup was taken up
    repeated: set<nat>,                  // operations with a deployment marked over a mark
    overlapped: bool)                    // a cleanup removed a box that something else still carried

  /** The operation number of a box that was there before the chain began. */
  const BEFORE := 0

  datatype Reply = Told | NoReply | Refusal

  datatype Step =
    // prepare_ip_change_operation; `taken` is the operation whose expired lease it takes over
    | Begin(ssh: Option<nat>, review: Option<nat>, taken: Option<nat>)
    // run_sprintbox_rotation
    | Load(id: nat) | Note(id: nat, oldIp: string, oldIpId: string) | Collect(id: nat)
    | Save(id: nat, marker: string, keyPath: string) | Claim(id: nat)
    | Order(id: nat, effect: Option<string>, reply: Reply) | Reject(id: nat) | Answer(id: nat)
    | Identify(id: nat, name: string) | Confirm(id: nat, name: string, ip: string, w: nat) | Fail(id: nat)
    // _provision_box
    | Enter(w: nat) | Unreachable(w: nat) | Reach(w: nat) | MarkDeploy(w: nat) | Deploy(w: nat)
    | NoteInstall(w: nat) | Applied(w: nat) | Publish(w: nat) | Close(w: nat) | Break(w: nat)
    // the decision over a box that does not answer
    | QueueWait(id: nat, taken: Option<nat>) | TakeWait(id: nat, w: nat, resumes: bool) | LateLoad(id: nat)
    | Cancel(id: nat)
    // cleaning up
    | QueueCleanup(id: nat, taken: Option<nat>) | TakeCleanup(id: nat) | NoteCleanup(id: nat)
    | Choose(id: nat, name: string) | MarkDelete(id: nat) | Ask(id: nat) | MarkSent(id: nat)
    | Record(id: nat, name: string, result: Deletion) | EndCleanup(id: nat, action: IpAction)
    // everything else: recovery and takeovers by others, the operator, other changes, dying programs
    | Interrupt(id: nat) | Reconcile(id: nat) | Configure(desired: nat)
    | LoseCreator(id: nat) | LoseInstaller(w: nat) | LoseCleaner(id: nat)

  function Put(c: Chain, id: nat, row: IpOp): Chain {
    c.(rows := c.rows[id := row])
  }

  /** The row retained_boxes takes: the latest published one for this box and address (the account is the same). */
  function LatestPublished(rows: Rows, below: nat, name: string, ip: string): (r: Option<nat>)
    ensures r.Some? ==> r.value < below && r.value in rows && Matches(rows[r.value], name, ip)
    ensures forall id: nat | id in rows && id < below && Matches(rows[id], name, ip) :: r.Some? && id <= r.value
  {
    if below == 0 then None
    else if below - 1 in rows && Matches(rows[below - 1], name, ip) then Some(below - 1)
    else LatestPublished(rows, below - 1, name, ip)
  }

  predicate Matches(row: IpOp, name: string, ip: string) {
    row.newIpId == name && row.newIp == ip && row.published.Some?
  }

  /** retained_boxes */
  function RetainedBoxes(rows: Rows, nextId: nat, name: string, ip: string): map<string, string> {
    var latest := LatestPublished(rows, nextId, name, ip);
    (if latest.Some? then rows[latest.value].ctx.retained else map[])[name := ip]
  }

  /** What the program of an operation adds to the set it starts with. */
  function Collection(c: Chain, k: Creator): map<string, string> {
    if k.box != "" then RetainedBoxes(c.rows, c.nextId, k.box, k.ip) else map[]
  }

  /** validate_ssh_decision on a row, apart from account and settings */
  predicate Decidable(c: Chain, row: IpOp) {
    && row.revision == c.desired && row.published.None? && row.purchase == P_CONFIRMED && row.apply == A_NOT_STARTED
    && row.makeMain == M_NOT_STARTED && row.newIpId != "" && row.newIp != ""
  }

  /** validate_target: the operation published the box that is active. */
  predicate Target(c: Chain, id: nat) {
    id in c.rows && Matches(c.rows[id], c.box, c.ip)
  }

  predicate Reviewable(c: Chain, id: nat) {
    Target(c, id) && c.rows[id].status == DONE && c.rows[id].action == AWAITING_USER_REVIEW
  }

  /** The checks of prepare_ip_change_operation. They come before it takes a lease over. */
  predicate MayBegin(c: Chain, ssh: Option<nat>, review: Option<nat>) {
    && !(ssh.Some? && review.Some?)
    && (ssh.Some? ==> ssh.value in c.rows && Undecided(c.rows[ssh.value]) && Decidable(c, c.rows[ssh.value]))
    && (review.Some? ==> Reviewable(c, review.value))
    && (forall id | id in c.rows :: !OnHold(c.rows[id]) && (Undecided(c.rows[id]) ==> ssh == Some(id)))
  }

  /** What a takeover does to the operation that held the lease. Its programs do not notice. */
  function TakeOver(c: Chain, taken: Option<nat>): Chain {
    if taken.Some? && taken.value in c.rows then Put(c, taken.value, InterruptIp(c.rows[taken.value])) else c
  }

  function Retry(c: Chain, id: Option<nat>): Chain {
    if id.Some? && id.value in c.rows then Put(c, id.value, c.rows[id.value].(action := RETRY_REQUESTED)) else c
  }

  /** Entering a new attempt, with the boxes of the unreachable one it follows up. */
  function Enrol(c: Chain, ssh: Option<nat>): Chain {
    var kept := if ssh.Some? && ssh.value in c.rows then Abandoned(c.rows[ssh.value]) else map[];
    var id := c.nextId;
    c.(rows := c.rows[id := UNBOUND_OP.(revision := c.desired, ctx := NO_CONTEXT.(retained := kept))], nextId := id + 1,
       creators := c.creators[id := Creator(c.box, c.ip, Loading)],
       past := c.past.(follows := if ssh.Some? then c.past.follows[id := ssh.value] else c.past.follows))
  }

  /* ---------- decisions, reviews, and the operations they start ---------- */

  function AfterBegin(c: Chain, ssh: Option<nat>, review: Option<nat>, taken: Option<nat>): Chain {
    if !MayBegin(c, ssh, review) then c else Retry(Retry(Enrol(TakeOver(c, taken), ssh), ssh), review)
  }

  function SetStatus(c: Chain, id: nat, status: Status, action: IpAction): Chain {
    if id in c.rows then Put(c, id, c.rows[id].(status := status, action := action)) else c
  }

  function AfterQueueWait(c: Chain, id: nat, taken: Option<nat>): Chain {
    if id !in c.rows || !Undecided(c.rows[id]) || !Decidable(c, c.rows[id]) then c
    else SetStatus(TakeOver(c, taken), id, PENDING, SSH_WAIT_QUEUED)
  }

  predicate WaitQueued(row: IpOp) {
    row.status.PENDING? && row.action.SSH_WAIT_QUEUED?
  }

  function AfterTakeWait(c: Chain, id: nat, w: nat, resumes: bool): Chain {
    if id !in c.rows || !WaitQueued(c.rows[id]) || w in c.installers then c
    else if !resumes then SetStatus(c, id, DONE, SSH_UNREACHABLE)
    else if !Decidable(c, c.rows[id]) then c
    else
      SetStatus(c, id, RUNNING, WAITING_SSH).
        (installers := c.installers[w := Installer(id, c.rows[id].newIpId, c.rows[id].newIp, Entering)])
  }

  /** A runner that was queued for a wait and finds the row at work without it. */
  function AfterLateLoad(c: Chain, id: nat): Chain {
    if id !in c.rows || !c.rows[id].status.Active() || !ExternalActionStarted(c.rows[id]) then c
    else SetStatus(c, id, AMBIGUOUS, AMBIGUOUS_ACTION)
  }

  function AfterCancel(c: Chain, id: nat): Chain {
    if id !in c.rows || !Undecided(c.rows[id]) then c else SetStatus(c, id, DONE, CANCELLED)
  }

  function AfterQueueCleanup(c: Chain, id: nat, taken: Option<nat>): Chain {
    if !Reviewable(c, id) then c else SetStatus(TakeOver(c, taken), id, PENDING, CLEANUP_QUEUED)
  }

  function AfterTakeCleanup(c: Chain, id: nat): Chain {
    if id !in c.rows || !c.rows[id].status.PENDING? || !c.rows[id].action.CLEANUP_QUEUED? then c
    else
      SetStatus(c, id, RUNNING, CLEANUP_RUNNING).
        (cleaners := c.cleaners[id := Cleaner(c.rows[id].ctx, Choosing)], past := c.past.(cleaned := c.past.cleaned + {id}))
  }

  function NextDecide(c: Chain, s: Step): Chain {
    match s
    case Begin(ssh, review, taken) => AfterBegin(c, ssh, review, taken)
    case QueueWait(id, taken) => AfterQueueWait(c, id, taken)
    case TakeWait(id, w, resumes) => AfterTakeWait(c, id, w, resumes)
    case LateLoad(id) => AfterLateLoad(c, id)
    case Cancel(id) => AfterCancel(c, id)
    case QueueCleanup(id, taken) => AfterQueueCleanup(c, id, taken)
    case TakeCleanup(id) => AfterTakeCleanup(c, id)
    case _ => c
  }

  /* ---------- run_sprintbox_rotation up to the confirmed box ---------- */

  /** The program of the operation writes its row and goes on, or ends. */
  function Tell(c: Chain, id: nat, row: IpOp, k: Option<Creator>): Chain {
    c.(rows := c.rows[id := row], creators := if k.Some? then c.creators[id := k.value] else c.creators - {id})
  }

  /** The exception handler has something to report as uncertain. */
  predicate CreationStarted(pc: CreatorPc) {
    pc.Ordering? || pc.Lost? || pc.Refused? || pc.Answered? || pc.Identifying?
  }

  predicate Rotates(c: Chain, id: nat) {
    id in c.creators && id in c.rows
  }

  function AfterLoad(c: Chain, id: nat): Chain
    requires Rotates(c, id)
  {
    var row, k := c.rows[id], c.creators[id];
    if !k.pc.Loading? then c
    else if !row.status.Active() then Tell(c, id, row, None)
    else if ExternalActionStarted(row) then Tell(c, id, row.(status := AMBIGUOUS, action := AMBIGUOUS_ACTION), None)
    else Tell(c, id, row, Some(k.(pc := Checking)))
  }

  function AfterNote(c: Chain, id: nat, oldIp: string, oldIpId: string): Chain
    requires Rotates(c, id)
  {
    if c.creators[id].pc.Loading? then c
    else Tell(c, id, c.rows[id].(status := RUNNING, oldIp := oldIp, oldIpId := oldIpId), Some(c.creators[id]))
  }

  function AfterCollect(c: Chain, id: nat): Chain
    requires Rotates(c, id)
  {
    var row, k := c.rows[id], c.creators[id];
    if !k.pc.Checking? then c else Tell(c, id, row, Some(k.(pc := Collected(row.ctx.retained + Collection(c, k)))))
  }

  function AfterSave(c: Chain, id: nat, marker: string, keyPath: string): Chain
    requires Rotates(c, id)
  {
    var row, k := c.rows[id], c.creators[id];
    if !k.pc.Collected? || marker == "" then c
    else Tell(c, id, row.(ctx := Context(k.pc.kept, marker, keyPath, map[])), Some(k.(pc := Saved)))
  }

  /** The compare-and-set before box/add */
  function AfterClaim(c: Chain, id: nat): Chain
    requires Rotates(c, id)
  {
    var row, k := c.rows[id], c.creators[id];
    if !k.pc.Saved? then c
    else if row.purchase != P_NOT_STARTED || !row.status.RUNNING? then Tell(c, id, row, None)
    else Tell(c, id, row.(purchase := P_SENDING, action := PURCHASE_SENDING), Some(k.(pc := Ordering)))
  }

  /** box/add: its effect, if any, and its reply */
  function AfterOrder(c: Chain, id: nat, effect: Option<string>, reply: Reply): Chain
    requires Rotates(c, id)
  {
    if !c.creators[id].pc.Ordering? then c
    else
      var pc := if reply.Told? then Answered else if reply.NoReply? then Lost else Refused;
      var made := if effect.Some? then c.past.made[effect.value := id] else c.past.made;
      Tell(c, id, c.rows[id], Some(c.creators[id].(pc := pc))).(past := c.past.(orders := c.past.orders + [id], made := made))
  }

  function AfterReject(c: Chain, id: nat): Chain
    requires Rotates(c, id)
  {
    var row, k := c.rows[id], c.creators[id];
    if !k.pc.Refused? then c else Tell(c, id, row.(purchase := P_REJECTED), Some(k.(pc := Rejected)))
  }

  function AfterAnswer(c: Chain, id: nat): Chain
    requires Rotates(c, id)
  {
    var row, k := c.rows[id], c.creators[id];
    if !k.pc.Answered? then c
    else Tell(c, id, row.(purchase := P_SENT, action := PURCHASE_SENT), Some(k.(pc := Identifying)))
  }

  function AfterIdentify(c: Chain, id: nat, name: string): Chain
    requires Rotates(c, id)
  {
    if !c.creators[id].pc.Identifying? then c else Tell(c, id, c.rows[id].(newIpId := name), Some(c.creators[id]))
  }

  /** The box is confirmed, and the same program goes on to install. */
  function AfterConfirm(c: Chain, id: nat, name: string, ip: string, w: nat): Chain
    requires Rotates(c, id)
  {
    if !c.creators[id].pc.Identifying? || w in c.installers then c
    else
      Tell(c, id, c.rows[id].(newIpId := name, newIp := ip, purchase := P_CONFIRMED), None).
        (installers := c.installers[w := Installer(id, name, ip, Entering)])
  }

  /** The exception handler */
  function AfterFail(c: Chain, id: nat): Chain
    requires Rotates(c, id)
  {
    var row, k := c.rows[id], c.creators[id];
    if k.pc.Loading? || k.pc.Refused? then c
    else if CreationStarted(k.pc) then Tell(c, id, row.(status := AMBIGUOUS, action := AMBIGUOUS_ACTION), None)
    else Tell(c, id, row.(status := FAILURE, action := FAILED_ACTION), None)
  }

  function NextCreate(c: Chain, s: Step, id: nat): Chain
    requires Rotates(c, id)
  {
    match s
    case Load(_) => AfterLoad(c, id)
    case Note(_, oldIp, oldIpId) => AfterNote(c, id, oldIp, oldIpId)
    case Collect(_) => AfterCollect(c, id)
    case Save(_, marker, keyPath) => AfterSave(c, id, marker, keyPath)
    case Claim(_) => AfterClaim(c, id)
    case Order(_, effect, reply) => AfterOrder(c, id, effect, reply)
    case Reject(_) => AfterReject(c, id)
    case Answer(_) => AfterAnswer(c, id)
    case Identify(_, name) => AfterIdentify(c, id, name)
    case Confirm(_, name, ip, w) => AfterConfirm(c, id, name, ip, w)
    case Fail(_) => AfterFail(c, id)
    case _ => c
  }

  /* ---------- _provision_box, from waiting for SSH to the publication ---------- */

  predicate Provisions(c: Chain, w: nat) {
    w in c.installers && c.installers[w].id in c.rows
  }

  function RowOf(c: Chain, w: nat): IpOp
    requires Provisions(c, w)
  {
    c.rows[c.installers[w].id]
  }

  /** The program writes the row of its operation, whoever else works on it, and goes on or ends. */
  function Report(c: Chain, w: nat, row: IpOp, pc: Option<InstallerPc>): Chain
    requires Provisions(c, w)
  {
    c.(rows := c.rows[c.installers[w].id := row],
       installers := if pc.Some? then c.installers[w := c.installers[w].(pc := pc.value)] else c.installers - {w})
  }

  function AfterEnter(c: Chain, w: nat): Chain
    requires Provisions(c, w)
  {
    if !c.installers[w].pc.Entering? then c
    else Report(c, w, RowOf(c, w).(status := RUNNING, action := WAITING_SSH), Some(Waiting))
  }

  function AfterUnreachable(c: Chain, w: nat): Chain
    requires Provisions(c, w)
  {
    if !c.installers[w].pc.Waiting? then c
    else Report(c, w, RowOf(c, w).(status := DONE, action := SSH_UNREACHABLE), None)
  }

  function AfterReach(c: Chain, w: nat): Chain
    requires Provisions(c, w)
  {
    if !c.installers[w].pc.Waiting? then c else Report(c, w, RowOf(c, w), Some(Reached))
  }

  function AfterMarkDeploy(c: Chain, w: nat): Chain
    requires Provisions(c, w)
  {
    if !c.installers[w].pc.Reached? then c
    else
      Report(c, w, RowOf(c, w).(status := RUNNING, action := APPLYING, apply := A_RUNNING), Some(Deploying)).
        (past := if RowOf(c, w).apply == A_NOT_STARTED then c.past
                 else c.past.(repeated := c.past.repeated + {c.installers[w].id}))
  }

  /** The install script is sent. */
  function AfterDeploy(c: Chain, w: nat): Chain
    requires Provisions(c, w)
  {
    if !c.installers[w].pc.Deploying? then c
    else
      Report(c, w, RowOf(c, w), Some(Deployed)).
        (past := c.past.(deployments := c.past.deployments + [c.installers[w].id]))
  }

  function AfterNoteInstall(c: Chain, w: nat): Chain
    requires Provisions(c, w)
  {
    var pc := c.installers[w].pc;
    if pc.Entering? || pc.Waiting? || pc.Reached? then c
    else if pc.Deployed? then Report(c, w, RowOf(c, w).(status := RUNNING, apply := A_RUNNING), Some(pc))
    else Report(c, w, RowOf(c, w).(status := RUNNING), Some(pc))
  }

  function AfterApplied(c: Chain, w: nat): Chain
    requires Provisions(c, w)
  {
    if !c.installers[w].pc.Deployed? then c else Report(c, w, RowOf(c, w).(apply := A_APPLIED), Some(Publishing))
  }

  /** publish_ip_change commits only for the desired revision. */
  function AfterPublish(c: Chain, w: nat): Chain
    requires Provisions(c, w)
  {
    var k := c.installers[w];
    if !k.pc.Publishing? || RowOf(c, w).revision != c.desired then c
    else
      Report(c, w, PublishedRow(RowOf(c, w), ""), Some(Closing)).
        (box := k.name, ip := k.ip, desired := c.desired + 1, past := c.past.(publisher := Some(k.id)))
  }

  function AfterClose(c: Chain, w: nat): Chain
    requires Provisions(c, w)
  {
    if !c.installers[w].pc.Closing? then c
    else Report(c, w, RowOf(c, w).(status := DONE, action := AWAITING_USER_REVIEW), None)
  }

  /** The exception handler */
  function AfterBreak(c: Chain, w: nat): Chain
    requires Provisions(c, w)
  {
    Report(c, w, RowOf(c, w).(status := AMBIGUOUS, action := AMBIGUOUS_ACTION), None)
  }

  function NextInstall(c: Chain, s: Step, w: nat): Chain
    requires Provisions(c, w)
  {
    match s
    case Enter(_) => AfterEnter(c, w)
    case Unreachable(_) => AfterUnreachable(c, w)
    case Reach(_) => AfterReach(c, w)
    case MarkDeploy(_) => AfterMarkDeploy(c, w)
    case Deploy(_) => AfterDeploy(c, w)
    case NoteInstall(_) => AfterNoteInstall(c, w)
    case Applied(_) => AfterApplied(c, w)
    case Publish(_) => AfterPublish(c, w)
    case Close(_) => AfterClose(c, w)
    case Break(_) => AfterBreak(c, w)
    case _ => c
  }

  /* ---------- run_sprintbox_cleanup ---------- */

  predicate CleansUp(c: Chain, id: nat) {
    id in c.cleaners && id in c.rows
  }

  /** The cleanup saves its context after every change. */
  function SaveCleanup(c: Chain, id: nat, ctx: Context, pc: CleanerPc): Chain
    requires CleansUp(c, id)
  {
    c.(rows := c.rows[id := c.rows[id].(ctx := ctx)], cleaners := c.cleaners[id := Cleaner(ctx, pc)])
  }

  /** Something other than the operation that cleans up still counts on the box: the active publication, or an attempt
      that could still be published. */
  ghost predicate Carried(c: Chain, id: nat, name: string) {
    || (c.past.publisher != Some(id) && name in Kept(c))
    || exists x: nat :: Current(c, x) && CarriesBox(c, x, name)
  }

  predicate CarriesBox(c: Chain, x: nat, name: string) {
    || (x in c.rows && name in c.rows[x].ctx.retained)
    || (x in c.creators && c.creators[x].pc.Collected? && name in c.creators[x].pc.kept)
  }

  /** An attempt that is not published and not outdated. */
  predicate Current(c: Chain, x: nat) {
    x in c.rows && c.rows[x].published.None? && c.rows[x].revision == c.desired
  }

  /** What the publisher of the active box still retains. */
  function Kept(c: Chain): map<string, string> {
    var p := c.past.publisher;
    if p.Some? && p.value in c.rows then c.rows[p.value].ctx.retained else map[]
  }

  function AfterNoteCleanup(c: Chain, id: nat): Chain
    requires CleansUp(c, id)
  {
    Put(c, id, c.rows[id].(status := RUNNING))
  }

  /** The target is checked, and the box is not the active one. */
  function AfterChoose(c: Chain, id: nat, name: string): Chain
    requires CleansUp(c, id)
  {
    var k := c.cleaners[id];
    if !k.pc.Choosing? || !Target(c, id) || name !in k.ctx.retained || name == c.rows[id].newIpId then c
    else SaveCleanup(c, id, k.ctx, Chosen(name))
  }

  function AfterMarkDelete(c: Chain, id: nat): Chain
    requires CleansUp(c, id)
  {
    var k := c.cleaners[id];
    if !k.pc.Chosen? || k.pc.name in k.ctx.results then c
    else SaveCleanup(c, id, k.ctx.(results := k.ctx.results[k.pc.name := D_SENDING]), Marked(k.pc.name))
  }

  /** The deletion is sent. */
  function AfterAsk(c: Chain, id: nat): Chain
    requires CleansUp(c, id)
  {
    var k := c.cleaners[id];
    if !k.pc.Marked? then c
    else
      SaveCleanup(c, id, k.ctx, Asked(k.pc.name)).
        (past := c.past.(deletions := c.past.deletions + [(id, k.pc.name)]))
  }

  function AfterMarkSent(c: Chain, id: nat): Chain
    requires CleansUp(c, id)
  {
    var k := c.cleaners[id];
    if !k.pc.Asked? then c else SaveCleanup(c, id, k.ctx.(results := k.ctx.results[k.pc.name := D_SENT]), k.pc)
  }

  /** Which outcome can be recorded where. A box recorded DELETED was asked for, one recorded ABSENT was chosen. */
  predicate MayRecord(pc: CleanerPc, name: string, result: Deletion) {
    match pc
    case Choosing => result == D_MANUAL
    case Chosen(n) => n == name && result in {D_ABSENT, D_MANUAL}
    case Marked(n) => n == name && result == D_AMBIGUOUS
    case Asked(n) => n == name && result in {D_DELETED, D_AMBIGUOUS, D_MANUAL}
  }

  predicate IsGone(result: Deletion) {
    result in {D_DELETED, D_ABSENT}
  }

  ghost function AfterRecord(c: Chain, id: nat, name: string, result: Deletion): Chain
    requires CleansUp(c, id)
  {
    var k := c.cleaners[id];
    if name !in k.ctx.retained || !MayRecord(k.pc, name, result) then c
    else
      var ctx := k.ctx.(results := k.ctx.results[name := result]);
      if IsGone(result) then
        SaveCleanup(c, id, ctx.(retained := ctx.retained - {name}), Choosing).
          (past := c.past.(gone := c.past.gone + {name}, overlapped := c.past.overlapped || Carried(c, id, name)))
      else SaveCleanup(c, id, ctx, Choosing)
  }

  function AfterEndCleanup(c: Chain, id: nat, action: IpAction): Chain
    requires CleansUp(c, id)
  {
    if !c.cleaners[id].pc.Choosing? || action !in {FINISHED, CLEANUP_REJECTED, CLEANUP_AMBIGUOUS} then c
    else Put(c, id, c.rows[id].(status := DONE, action := action)).(cleaners := c.cleaners - {id})
  }

  ghost function NextClean(c: Chain, s: Step, id: nat): Chain
    requires CleansUp(c, id)
  {
    match s
    case NoteCleanup(_) => AfterNoteCleanup(c, id)
    case Choose(_, name) => AfterChoose(c, id, name)
    case MarkDelete(_) => AfterMarkDelete(c, id)
    case Ask(_) => AfterAsk(c, id)
    case MarkSent(_) => AfterMarkSent(c, id)
    case Record(_, name, result) => AfterRecord(c, id, name, result)
    case EndCleanup(_, action) => AfterEndCleanup(c, id, action)
    case _ => c
  }

  /** Everybody else. A restart is the death of every program and the interruption of every row. */
  function NextOther(c: Chain, s: Step): Chain {
    match s
    case Interrupt(id) => TakeOver(c, Some(id))
    case Reconcile(id) =>
      if id !in c.rows || !Reconcilable(c.rows[id]) then c else Put(c, id, c.rows[id].(action := Tables.RECONCILED))
    case Configure(desired) => if desired < c.desired then c else c.(desired := desired)
    case LoseCreator(id) => c.(creators := c.creators - {id})
    case LoseInstaller(w) => c.(installers := c.installers - {w})
    case LoseCleaner(id) => c.(cleaners := c.cleaners - {id})
    case _ => c
  }

  predicate Decides(s: Step) {
    s.Begin? || s.QueueWait? || s.TakeWait? || s.LateLoad? || s.Cancel? || s.QueueCleanup? || s.TakeCleanup?
  }

  predicate Creates(s: Step) {
    || s.Load? || s.Note? || s.Collect? || s.Save? || s.Claim? || s.Order? || s.Reject? || s.Answer? || s.Identify?
    || s.Confirm? || s.Fail?
  }

  predicate Installs(s: Step) {
    || s.Enter? || s.Unreachable? || s.Reach? || s.MarkDeploy? || s.Deploy? || s.NoteInstall? || s.Applied? || s.Publish?
    || s.Close? || s.Break?
  }

  predicate Cleans(s: Step) {
    s.NoteCleanup? || s.Choose? || s.MarkDelete? || s.Ask? || s.MarkSent? || s.Record? || s.EndCleanup?
  }

  ghost function Next(c: Chain, s: Step): Chain {
    if Decides(s) then NextDecide(c, s)
    else if Creates(s) then if Rotates(c, s.id) then NextCreate(c, s, s.id) else c
    else if Installs(s) then if Provisions(c, s.w) then NextInstall(c, s, s.w) else c
    else if Cleans(s) then if CleansUp(c, s.id) then NextClean(c, s, s.id) else c
    else NextOther(c, s)
  }

  ghost function Run(c: Chain, steps: seq<Step>): Chain
    decreases |steps|
  {
    if steps == [] then c else Run(Next(c, steps[0]), steps[1..])
  }

  /** What is assumed of the provider: names are new, a refused order has no effect, and only the box of an order
      carries the label of that order, so that nothing else is ever identified for it. */
  ghost predicate Fits(c: Chain, s: Step) {
    match s
    case Order(id, effect, reply) =>
      effect.Some? ==> effect.value !in c.past.made && effect.value != "" && !reply.Refusal?
    case Identify(id, name) => name in c.past.made && c.past.made[name] == id
    case Confirm(id, name, ip, _) => name in c.past.made && c.past.made[name] == id && ip != ""
    case _ => true
  }

  ghost predicate AllFit(c: Chain, steps: seq<Step>)
    decreases |steps|
  {
    steps == [] || (Fits(c, steps[0]) && AllFit(Next(c, steps[0]), steps[1..]))
  }

  ghost predicate Initial(c: Chain) {
    && c.rows == map[] && c.nextId == 1 && c.creators == map[] && c.installers == map[] && c.cleaners == map[]
    && c.past == Past(None, if c.box == "" then map[] else map[c.box := BEFORE], {}, map[], [], [], [], {}, {}, false)
  }
}
