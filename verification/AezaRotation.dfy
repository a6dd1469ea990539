/** run_ip_change as a step machine (app/ip_change.py:236-617). Between any two steps the process may crash, the
    lease may expire and be taken over, other transactions may move the desired revision, and the provider may gain
    addresses; every reply of the provider and of the server is chosen by the adversary. */
module AezaRotation {
  import opened Base
  import opened VpnConfig
  import opened Tables
  import opened OperationRows
  import opened AezaAddresses

  /** Where the program is: the step it takes next. */
  datatype Pc =
    | Idle | Loading
    // looking up the main address
    | Checking | ListStep | Listing | FindStep(items: seq<Item>) | OldFound
    // buying
    | CheckBeforeBuying | BuyStep | Buying | BuyLost | BuyAnswered | SettleStep | AppearStep | Appearing | Appeared
    // making it the main address
    | CheckBeforeMain | MainStep | SettingMain | MainLost | MainAnswered | ConfirmStep | Confirming | Confirmed
    | SshStep | AwaitingSsh | SshAnswered
    // applying the bound configuration through it
    | CheckBeforeApply | ApplyStep | Applying | ApplyLost | ApplyRefused | ApplyAnswered
    | CheckBeforeHealth | HealthStep | Checkup | CheckBeforePublish | PublishStep | Publishing
    // after the publication
    | AfterPublish | DeleteStep | Deleting | DeleteLost | DeleteAnswered | FinishStep
    // the exception handler
    | Handling | RollbackStep | RollingBack | RollbackLost | RollbackAnswered | Judging(rollbackLost: bool)
    | ClosingStep(ambiguous: bool)

  /** The variables of the running program. A crash loses them. */
  datatype Vars = Vars(
    oldId: string, oldIp: string, knownIds: set<string>, knownIps: set<string>, createdId: string, createdIp: string,
    newId: string, newIp: string, mainStarted: bool, cleanupAmbiguous: bool)

  const NO_VARS := Vars("", "", {}, {}, "", "", "", "", false, false)

  /** What is fixed for one operation: its bound configuration, and where the provider stood when it began. */
  datatype Job = Job(config: Config, hasService: bool, oldMain: string)

  /** The provider: every address by its id, the main one, the ids ever issued, and the requests it received. */
  datatype Provider = Provider(
    addrs: map<string, string>, main: string, issued: set<string>,
    purchases: nat, switches: nat, deletions: seq<string>)

  /** The program, its row and the two settings it depends on, the provider, and the last protocol checks that ran
      against the new address. */
  datatype State = State(
    pc: Pc, vars: Vars, row: IpOp, desired: nat, currentIp: string, at: Provider, health: map<string, bool>)

  /** How one action of the program turns out. */
  datatype Reply =
    | Fine                                        // it succeeds
    | Lost                                        // an error or timeout, and no effect
    | LostAfterEffect                             // an error or timeout although it took effect
    | Listed(items: seq<Item>)
    | Created(id: string, ip: string, shownId: string, shownIp: string)
    | CreatedUnseen(id: string, ip: string)       // bought, and the reply lost
    | Exit(ok: bool)
    | Checks(results: map<string, bool>)

  datatype Act =
    | Work(r: Reply)
    | Refuse                     // the database refuses what the program writes now
    | Invoke | Crash
    | Restart                    // startup recovery
    | TakeOver                   // another operation takes the expired lease, perhaps of a live worker
    | Settle                     // the operator reconciles the operation
    | OthersConfigure(desired: nat)
    | OthersAddress(id: string, ip: string)

  /* ---------- the program ---------- */

  /** One update_operation, and the program goes on. */
  function Tell(s: State, row: IpOp, pc: Pc): State {
    s.(row := row, pc := pc)
  }

  function Guard(s: State, ok: bool, pc: Pc): State {
    s.(pc := if ok then pc else Handling)
  }

  predicate Unsent(row: IpOp) {
    row.purchase == P_NOT_STARTED && row.makeMain == M_NOT_STARTED && row.apply == A_NOT_STARTED
  }

  predicate Current(k: Job, s: State) {
    s.desired == k.config.revision
  }

  /** From the start to the old address. */
  function WorkLookup(k: Job, s: State, r: Reply): State {
    match s.pc
    case Loading =>
      if !s.row.status.Active() then s.(pc := Idle)
      else if !Unsent(s.row) then Tell(s, s.row.(status := AMBIGUOUS, action := AMBIGUOUS_ACTION), Idle)
      else s.(pc := Checking, vars := NO_VARS)
    case Checking => Guard(s, k.hasService && Current(k, s), ListStep)
    case ListStep => Tell(s, s.row.(status := RUNNING), Listing)
    case Listing =>
      if r.Listed? then
        s.(pc := FindStep(r.items),
           vars := s.vars.(knownIds := set i | i in r.items :: i.id, knownIps := set i | i in r.items :: i.ip))
      else s.(pc := Handling)
    case FindStep(items) =>
      var found := FindMainIp(items, k.config.currentIp);
      if found.None? then Tell(s, s.row.(status := RUNNING), Handling)
      else Tell(s, s.row.(status := RUNNING), OldFound).(vars := s.vars.(oldId := found.value.id, oldIp := found.value.ip))
    case OldFound => Tell(s, s.row.(oldIp := s.vars.oldIp, oldIpId := s.vars.oldId), CheckBeforeBuying)
    case _ => s
  }

  function Bought(p: Provider, id: string, ip: string): Provider {
    p.(addrs := p.addrs[id := ip], issued := p.issued + {id}, purchases := p.purchases + 1)
  }

  function WorkBuy(k: Job, s: State, r: Reply): State {
    match s.pc
    case CheckBeforeBuying => Guard(s, Current(k, s), BuyStep)
    case BuyStep => Tell(s, s.row.(status := RUNNING, action := PURCHASE_SENDING, purchase := P_SENDING), Buying)
    case Buying =>
      (match r
       case Created(id, ip, shownId, shownIp) =>
         s.(at := Bought(s.at, id, ip), pc := BuyAnswered,
            vars := s.vars.(createdId := shownId, createdIp := shownIp))
       case CreatedUnseen(id, ip) => s.(at := Bought(s.at, id, ip), pc := BuyLost)
       case _ => s.(at := s.at.(purchases := s.at.purchases + 1), pc := BuyLost))
    case BuyLost => Tell(s, s.row.(action := AMBIGUOUS_ACTION, purchase := P_AMBIGUOUS), Handling)
    case BuyAnswered => Tell(s, s.row.(action := PURCHASE_SENT, purchase := P_SENT), SettleStep)
    case SettleStep => Tell(s, s.row.(status := RUNNING), AppearStep)
    case AppearStep => Tell(s, s.row.(status := RUNNING), Appearing)
    case Appearing =>
      if !r.Listed? then s.(pc := Handling)
      else
        var v := s.vars;
        var found := FindNewIp(r.items, v.oldId, v.oldIp, v.createdId, v.createdIp, v.knownIds, v.knownIps);
        if found.None? then s else s.(pc := Appeared, vars := v.(newId := found.value.id, newIp := found.value.ip))
    case Appeared =>
      Tell(s, s.row.(newIp := s.vars.newIp, newIpId := s.vars.newId, action := PURCHASE_CONFIRMED,
                    purchase := P_CONFIRMED), CheckBeforeMain)
    case _ => s
  }

  function WorkMain(k: Job, s: State, r: Reply): State {
    match s.pc
    case CheckBeforeMain => Guard(s, Current(k, s), MainStep).(vars := s.vars.(mainStarted := Current(k, s)))
    case MainStep => Tell(s, s.row.(status := RUNNING, action := MAKE_MAIN_SENDING, makeMain := M_SENDING), SettingMain)
    case SettingMain =>
      var sent := s.at.(switches := s.at.switches + 1);
      s.(pc := if r.Fine? then MainAnswered else MainLost,
         at := if r.Fine? || r.LostAfterEffect? then sent.(main := s.vars.newId) else sent)
    case MainLost => Tell(s, s.row.(action := AMBIGUOUS_ACTION, makeMain := M_AMBIGUOUS), Handling)
    case MainAnswered => Tell(s, s.row.(action := MAIN_CHANGED, makeMain := M_SENT), ConfirmStep)
    case ConfirmStep => Tell(s, s.row.(status := RUNNING), Confirming)
    case Confirming =>
      if !r.Listed? then s.(pc := Handling)
      else if Item(s.vars.newId, s.vars.newIp, true) in r.items then s.(pc := Confirmed)
      else s
    case Confirmed => Tell(s, s.row.(action := MAIN_CONFIRMED, makeMain := M_CONFIRMED), SshStep)
    case SshStep => Tell(s, s.row.(status := RUNNING), AwaitingSsh)
    case AwaitingSsh => Guard(s, r.Fine?, SshAnswered)
    case SshAnswered => Tell(s, s.row, CheckBeforeApply)
    case _ => s
  }

  /** The required checks of _verify_protocol_health: every enabled one is present and verified. */
  predicate Healthy(config: Config, results: map<string, bool>) {
    && (config.vless.protocol.enabled ==> "vless" in results && results["vless"])
    && (config.hysteria.protocol.enabled ==> "hysteria_salamander" in results && results["hysteria_salamander"])
  }

  function WorkApply(k: Job, s: State, r: Reply): State {
    match s.pc
    case CheckBeforeApply => Guard(s, Current(k, s), ApplyStep)
    case ApplyStep => Tell(s, s.row.(status := RUNNING, action := APPLYING, apply := A_RUNNING), Applying)
    case Applying => s.(pc := if !r.Exit? then ApplyLost else if r.ok then ApplyAnswered else ApplyRefused)
    case ApplyLost => Tell(s, s.row.(action := AMBIGUOUS_ACTION, apply := A_AMBIGUOUS), Handling)
    case ApplyRefused => Tell(s, s.row.(action := APPLY_FAILED, apply := A_FAILED), Handling)
    case ApplyAnswered => Tell(s, s.row.(action := APPLY_DONE, apply := A_APPLIED), CheckBeforeHealth)
    case CheckBeforeHealth => Guard(s, Current(k, s), HealthStep)
    case HealthStep => Tell(s, s.row.(status := RUNNING), Checkup)
    case Checkup =>
      if !r.Checks? then s.(pc := Handling)
      else s.(pc := if Healthy(k.config, r.results) then CheckBeforePublish else Handling, health := r.results)
    case CheckBeforePublish => Guard(s, Current(k, s), PublishStep)
    case PublishStep => Tell(s, s.row.(status := RUNNING), Publishing)
    case Publishing =>
      if s.row.revision != s.desired then s.(pc := Handling)
      else s.(row := PublishedRow(s.row, ""), desired := s.desired + 1, currentIp := s.vars.newIp, pc := AfterPublish)
    case _ => s
  }

  function WorkFinish(k: Job, s: State, r: Reply): State {
    match s.pc
    case AfterPublish => s.(pc := if k.config.amnezia.protocol.enabled then FinishStep else DeleteStep)
    case DeleteStep => Tell(s, s.row.(status := RUNNING, action := CLEANUP_SENDING), Deleting)
    case Deleting =>
      var sent := s.at.(deletions := s.at.deletions + [s.vars.oldId]);
      s.(pc := if r.Fine? then DeleteAnswered else DeleteLost,
         at := if r.Fine? || r.LostAfterEffect? then sent.(addrs := s.at.addrs - {s.vars.oldId}) else sent)
    case DeleteAnswered => Tell(s, s.row.(action := CLEANUP_CONFIRMED), FinishStep)
    case DeleteLost =>
      Tell(s, s.row.(action := CLEANUP_AMBIGUOUS), FinishStep).(vars := s.vars.(cleanupAmbiguous := true))
    case FinishStep =>
      Tell(s, s.row.(status := DONE, published := Some(k.config.revision + 1),
                    action := if k.config.amnezia.protocol.enabled then PUBLISHED_AWAITING_AWG_CHECK
                                   else if s.vars.cleanupAmbiguous then CLEANUP_AMBIGUOUS else FINISHED), Idle)
    case _ => s
  }

  /** The exception handler, with the compensation of _rollback_old_main. */
  function WorkHandle(k: Job, s: State, r: Reply): State {
    match s.pc
    case Handling => s.(pc := if s.vars.mainStarted && s.vars.oldId != "" then RollbackStep else Judging(false))
    case RollbackStep => Tell(s, s.row.(action := Tables.ROLLING_BACK, rollback := R_SENDING), RollingBack)
    case RollingBack =>
      s.(pc := if r.Fine? then RollbackAnswered else RollbackLost,
         at := if r.Fine? || r.LostAfterEffect? then s.at.(main := s.vars.oldId) else s.at)
    case RollbackLost =>
      Tell(s, s.row.(action := AMBIGUOUS_ACTION, rollback := R_AMBIGUOUS), Judging(true))
    case RollbackAnswered =>
      Tell(s, s.row.(action := ROLLED_BACK, rollback := RESTORED_OLD_MAIN), Judging(false))
    case Judging(lost) => s.(pc := ClosingStep(s.row.action == AMBIGUOUS_ACTION || lost))
    case ClosingStep(ambiguous) =>
      Tell(s, s.row.(status := if ambiguous then AMBIGUOUS else FAILURE,
                    action := if ambiguous then AMBIGUOUS_ACTION else FAILED_ACTION), Idle)
    case _ => s
  }

  /** The program writes here, within reach of the exception handler. */
  predicate WritesInTry(k: Job, pc: Pc) {
    || pc.ListStep? || pc.FindStep? || pc.OldFound? || pc.BuyStep? || pc.BuyLost? || pc.BuyAnswered? || pc.SettleStep?
    || pc.AppearStep? || pc.Appeared? || pc.MainStep? || pc.MainLost? || pc.MainAnswered? || pc.ConfirmStep?
    || pc.Confirmed? || pc.SshStep? || pc.SshAnswered? || pc.ApplyStep? || pc.ApplyLost? || pc.ApplyRefused?
    || pc.ApplyAnswered? || pc.HealthStep? || pc.PublishStep? || pc.Publishing? || Late(k, pc)
  }

  /** It writes here although it has published: a warning about the health check, an uncertain deletion, the end. */
  predicate Late(k: Job, pc: Pc) {
    (pc.AfterPublish? && k.config.amnezia.protocol.enabled) || pc.DeleteLost? || pc.FinishStep?
  }

  /** The update raises. The exception handler takes over, unless it is there already, or the deletion has its own. */
  function Refused(k: Job, s: State): State {
    if WritesInTry(k, s.pc) then s.(pc := Handling)
    else if s.pc.DeleteStep? || s.pc.DeleteAnswered? then s.(pc := DeleteLost)
    else if || s.pc.Loading? || s.pc.RollbackStep? || s.pc.RollbackLost? || s.pc.RollbackAnswered? || s.pc.Judging?
            || s.pc.ClosingStep? then s.(pc := Idle)
    else s
  }

  /* ---------- phases ---------- */

  predicate Looking(pc: Pc) {
    pc.Checking? || pc.ListStep? || pc.Listing? || pc.FindStep? || pc.OldFound? || pc.CheckBeforeBuying? || pc.BuyStep?
  }

  predicate Buys(pc: Pc) {
    || pc.Buying? || pc.BuyLost? || pc.BuyAnswered? || pc.SettleStep? || pc.AppearStep? || pc.Appearing?
    || pc.Appeared? || pc.CheckBeforeMain? || pc.MainStep?
  }

  predicate Switches(pc: Pc) {
    || pc.SettingMain? || pc.MainLost? || pc.MainAnswered? || pc.ConfirmStep? || pc.Confirming? || pc.Confirmed?
    || pc.SshStep? || pc.AwaitingSsh? || pc.SshAnswered?
  }

  predicate Applies(pc: Pc) {
    || pc.CheckBeforeApply? || pc.ApplyStep? || pc.Applying? || pc.ApplyLost? || pc.ApplyRefused? || pc.ApplyAnswered?
    || pc.CheckBeforeHealth? || pc.HealthStep? || pc.Checkup? || pc.CheckBeforePublish? || pc.PublishStep?
    || pc.Publishing?
  }

  predicate Finishes(pc: Pc) {
    pc.AfterPublish? || pc.DeleteStep? || pc.Deleting? || pc.DeleteLost? || pc.DeleteAnswered? || pc.FinishStep?
  }

  function WorkNext(k: Job, s: State, r: Reply): State {
    if s.pc.Idle? then s
    else if s.pc.Loading? || (Looking(s.pc) && !s.pc.CheckBeforeBuying? && !s.pc.BuyStep?) then WorkLookup(k, s, r)
    else if Looking(s.pc) || (Buys(s.pc) && !s.pc.CheckBeforeMain? && !s.pc.MainStep?) then WorkBuy(k, s, r)
    else if Buys(s.pc) || Switches(s.pc) then WorkMain(k, s, r)
    else if Applies(s.pc) then WorkApply(k, s, r)
    else if Finishes(s.pc) then WorkFinish(k, s, r)
    else WorkHandle(k, s, r)
  }

  function Next(k: Job, s: State, a: Act): State {
    match a
    case Work(r) => WorkNext(k, s, r)
    case Refuse => Refused(k, s)
    case Invoke => if s.pc.Idle? then s.(pc := Loading) else s
    case Crash => s.(pc := Idle, vars := NO_VARS)
    case Restart => s.(row := InterruptIp(s.row), pc := Idle, vars := NO_VARS)
    case TakeOver => s.(row := InterruptIp(s.row))
    case Settle => if Reconcilable(s.row) then s.(row := s.row.(action := Tables.RECONCILED)) else s
    case OthersConfigure(desired) => s.(desired := desired)
    case OthersAddress(id, ip) => s.(at := s.at.(addrs := s.at.addrs[id := ip], issued := s.at.issued + {id}))
  }

  /** What is assumed of the others: lists are true, ids are never issued twice, a reply shows what was issued or
      leaves it out, an address that is gone is not made the main one, and nobody else moves the main address or the
      published one. */
  ghost predicate Fits(s: State, a: Act) {
    match a
    case Work(Fine) => s.pc.RollingBack? ==> s.vars.oldId in s.at.addrs
    case Work(LostAfterEffect) => s.pc.RollingBack? ==> s.vars.oldId in s.at.addrs
    case Work(Listed(items)) => Truthful(items, s.at.addrs, s.at.main)
    case Work(Created(id, ip, shownId, shownIp)) =>
      id !in s.at.issued && id != "" && ip != "" && shownId in {"", id} && shownIp in {"", ip}
    case Work(CreatedUnseen(id, ip)) => id !in s.at.issued && id != "" && ip != ""
    case OthersConfigure(desired) => s.desired <= desired
    case OthersAddress(id, ip) => id !in s.at.issued && id != ""
    case _ => true
  }

  ghost predicate AllFit(k: Job, s: State, acts: seq<Act>)
    decreases |acts|
  {
    acts == [] || (Fits(s, acts[0]) && AllFit(k, Next(k, s, acts[0]), acts[1..]))
  }

  /** No write is refused after the publication, where the exception handler can still be reached. */
  ghost predicate NoneLate(k: Job, s: State, acts: seq<Act>)
    decreases |acts|
  {
    acts == [] || (!(acts[0].Refuse? && Late(k, s.pc)) && NoneLate(k, Next(k, s, acts[0]), acts[1..]))
  }

  function Run(k: Job, s: State, acts: seq<Act>): State
    decreases |acts|
  {
    if acts == [] then s else Run(k, Next(k, s, acts[0]), acts[1..])
  }

  ghost predicate Initial(k: Job, s: State) {
    && s.pc.Idle? && s.row == UNBOUND_OP.(revision := k.config.revision)
    && s.currentIp == k.config.currentIp && k.config.revision <= s.desired
    && s.at.main == k.oldMain && s.at.main in s.at.addrs && s.at.addrs.Keys <= s.at.issued && "" !in s.at.issued
    && s.at.purchases == 0 && s.at.switches == 0 && s.at.deletions == []
  }

  /* ---------- the invariant ---------- */

  /** The provider's side. */
  ghost predicate ProviderInv(k: Job, s: State) {
    && s.at.addrs.Keys <= s.at.issued && "" !in s.at.issued && k.oldMain in s.at.issued
    && (s.at.main == k.oldMain || s.at.main == s.row.newIpId)
    && s.at.purchases <= 1 && s.at.switches <= 1
    && (s.at.deletions == [] || (s.at.deletions == [k.oldMain] && s.row.published.Some? && !k.config.amnezia.protocol.enabled))
    && (s.row.published.None? ==> k.oldMain in s.at.addrs)
  }

  /** The write-ahead marks in the operation row. */
  ghost predicate RowInv(k: Job, s: State) {
    && s.row.revision == k.config.revision && HoldOk(s.row)
    && s.row.action !in {WAITING_SSH, SSH_WAIT_QUEUED, SSH_UNREACHABLE}
    && (s.row.purchase == P_NOT_STARTED ==> s.at.purchases == 0 && s.row.makeMain == M_NOT_STARTED)
    && (s.row.makeMain == M_NOT_STARTED ==>
          s.at.switches == 0 && s.at.main == k.oldMain && s.row.apply == A_NOT_STARTED && s.row.published.None?)
    && (s.row.published.None? ==> s.currentIp == k.config.currentIp && s.row.status != DONE)
    && (s.row.published.Some? ==> Published(k, s))
    && (s.row.status == FAILURE ==> s.row.published.None? && s.at.main == k.oldMain)
  }

  ghost predicate Published(k: Job, s: State) {
    && s.row.published == Some(k.config.revision + 1) && k.config.revision < s.desired
    && s.row.newIpId != k.oldMain && s.at.main == s.row.newIpId && s.currentIp == s.row.newIp
    && s.at.main in s.at.addrs && s.at.addrs[s.at.main] == s.currentIp
    && Healthy(k.config, s.health)
  }

  /** Once something was sent, the row is open or ambiguous for as long as the program runs. */
  predicate OpenOrAmbiguous(row: IpOp) {
    row.status == RUNNING || row.status == AMBIGUOUS
  }

  ghost predicate OldKnown(k: Job, s: State) {
    && s.vars.oldId == k.oldMain && k.oldMain in s.at.addrs && s.at.addrs[k.oldMain] == s.vars.oldIp
    && s.vars.oldId in s.vars.knownIds && s.vars.oldIp in s.vars.knownIps && s.vars.knownIds <= s.at.issued
  }

  ghost predicate NewKnown(k: Job, s: State) {
    s.vars.newId != k.oldMain && s.vars.newId in s.at.addrs && s.at.addrs[s.vars.newId] == s.vars.newIp
  }

  ghost predicate NewRecorded(k: Job, s: State) {
    NewKnown(k, s) && s.row.newIpId == s.vars.newId && s.row.newIp == s.vars.newIp
  }

  ghost predicate WhileLooking(k: Job, s: State) {
    && Unsent(s.row) && !s.vars.mainStarted
    && (s.pc.FindStep? ==>
          && Truthful(s.pc.items, s.at.addrs, s.at.main)
          && s.vars.knownIds == (set i | i in s.pc.items :: i.id) && s.vars.knownIps == (set i | i in s.pc.items :: i.ip))
    && (s.pc.OldFound? || s.pc.CheckBeforeBuying? || s.pc.BuyStep? ==> OldKnown(k, s))
  }

  ghost predicate WhileBuying(k: Job, s: State) {
    && OldKnown(k, s)
    && s.row.purchase != P_NOT_STARTED && s.row.makeMain == M_NOT_STARTED && OpenOrAmbiguous(s.row)
    && (s.pc.Buying? ==> s.at.purchases == 0) && (s.pc.MainStep? <==> s.vars.mainStarted)
    && (s.pc.BuyAnswered? || s.pc.SettleStep? || s.pc.AppearStep? || s.pc.Appearing? ==>
          s.vars.createdId !in s.vars.knownIds)
    && (s.pc.Appeared? ==> NewKnown(k, s))
    && (s.pc.CheckBeforeMain? || s.pc.MainStep? ==> NewRecorded(k, s))
  }

  ghost predicate WhileSwitched(k: Job, s: State) {
    && NewRecorded(k, s)
    && s.vars.mainStarted && s.vars.oldId == k.oldMain && s.row.purchase != P_NOT_STARTED
    && s.row.makeMain != M_NOT_STARTED && OpenOrAmbiguous(s.row) && s.row.published.None?
    && (s.pc.SettingMain? ==> s.at.switches == 0)
    && (!s.pc.SettingMain? && !s.pc.MainLost? ==> s.at.main == s.vars.newId)
    && (s.pc.CheckBeforePublish? || s.pc.PublishStep? || s.pc.Publishing? ==> Healthy(k.config, s.health))
  }

  ghost predicate WhileFinishing(k: Job, s: State) {
    && s.row.published.Some? && OpenOrAmbiguous(s.row) && s.vars.oldId == k.oldMain && s.vars.mainStarted
    && s.row.purchase != P_NOT_STARTED
    && (s.pc.AfterPublish? || s.pc.DeleteStep? || s.pc.Deleting? ==> s.at.deletions == [])
    && (s.pc.DeleteStep? || s.pc.Deleting? ==> !k.config.amnezia.protocol.enabled)
  }

  ghost predicate WhileHandling(k: Job, s: State) {
    && s.row.published.None? && (s.row.purchase != P_NOT_STARTED ==> OpenOrAmbiguous(s.row))
    && (s.vars.mainStarted ==> s.vars.oldId == k.oldMain && s.row.purchase != P_NOT_STARTED)
    && (!s.vars.mainStarted || s.pc.RollbackAnswered? || s.pc == Judging(false) || s.pc == ClosingStep(false)
        ==> s.at.main == k.oldMain)
    && (s.pc.RollbackStep? || s.pc.RollingBack? || s.pc.RollbackLost? || s.pc.RollbackAnswered? || s.pc == Judging(true)
        ==> s.vars.mainStarted)
  }

  ghost predicate ProgramInv(k: Job, s: State) {
    if s.pc.Idle? || s.pc.Loading? then true
    else if Looking(s.pc) then WhileLooking(k, s)
    else if Buys(s.pc) then WhileBuying(k, s)
    else if Switches(s.pc) || Applies(s.pc) then WhileSwitched(k, s)
    else if Finishes(s.pc) then WhileFinishing(k, s)
    else WhileHandling(k, s)
  }

  ghost predicate Inv(k: Job, s: State) {
    ProviderInv(k, s) && RowInv(k, s) && ProgramInv(k, s)
  }

  /** Most steps only report progress: they keep the write-ahead marks and what is known of the new address. */
  predicate OnlyReports(row: IpOp, row': IpOp) {
    && row'.revision == row.revision && row'.published == row.published
    && (row'.purchase == P_NOT_STARTED <==> row.purchase == P_NOT_STARTED)
    && (row'.makeMain == M_NOT_STARTED <==> row.makeMain == M_NOT_STARTED)
    && (row.makeMain == M_NOT_STARTED ==> row'.apply == row.apply)
    && (row.makeMain != M_NOT_STARTED ==> row'.newIpId == row.newIpId && row'.newIp == row.newIp)
    && HoldOk(row') && row'.action !in {WAITING_SSH, SSH_WAIT_QUEUED, SSH_UNREACHABLE}
    && (row'.status == row.status || OpenOrAmbiguous(row'))
  }

  lemma ReportKeeps(k: Job, s: State, s': State)
    requires ProviderInv(k, s) && RowInv(k, s) && OnlyReports(s.row, s'.row)
    requires s'.at == s.at && s'.desired == s.desired && s'.currentIp == s.currentIp
    requires s'.health == s.health || s.row.published.None?
    ensures ProviderInv(k, s') && RowInv(k, s')
  {
    hide Healthy;
  }

  lemma LoadingKeeps(k: Job, s: State, r: Reply)
    requires Inv(k, s) && (s.pc.Loading? || s.pc.Checking? || s.pc.ListStep? || s.pc.OldFound?)
    ensures Inv(k, WorkLookup(k, s, r))
  {
    hide RowInv, ProviderInv, Truthful, WhileSwitched, WhileFinishing;
    RowsHold(k, s);
    ReportKeeps(k, s, WorkLookup(k, s, r));
  }

  /** What the other lemmas take from the row invariant. */
  lemma RowsHold(k: Job, s: State)
    requires RowInv(k, s)
    ensures HoldOk(s.row) && s.row.action !in {WAITING_SSH, SSH_WAIT_QUEUED, SSH_UNREACHABLE}
    ensures s.row.makeMain == M_NOT_STARTED ==> s.at.main == k.oldMain && s.row.published.None?
    ensures s.row.published.Some? ==> s.row.makeMain != M_NOT_STARTED
    ensures s.row.purchase == P_NOT_STARTED ==> s.at.purchases == 0 && s.row.makeMain == M_NOT_STARTED
    ensures s.row.makeMain == M_NOT_STARTED ==> s.at.switches == 0
  {
  }

  lemma ListingKeeps(k: Job, s: State, r: Reply)
    requires Inv(k, s) && Fits(s, Work(r)) && s.pc.Listing?
    ensures Inv(k, WorkLookup(k, s, r))
  {
    hide RowInv, ProviderInv, Truthful, WhileSwitched, WhileFinishing, WhileBuying;
    RowsHold(k, s);
    ReportKeeps(k, s, WorkLookup(k, s, r));
  }

  lemma FindKeeps(k: Job, s: State, r: Reply)
    requires Inv(k, s) && s.pc.FindStep?
    ensures Inv(k, WorkLookup(k, s, r))
  {
    hide RowInv, FindMainIp, Truthful, WhileSwitched, WhileFinishing, WhileBuying;
    RowsHold(k, s);
    FindMainIpIsMain(s.pc.items, s.at.addrs, s.at.main, k.config.currentIp);
    MainIsKnown(s.pc.items, s.at.addrs, s.at.main);
    assert s.at.addrs.Keys <= s.at.issued;
    hide ProviderInv;
    ReportKeeps(k, s, WorkLookup(k, s, r));
  }

  lemma MainIsKnown(items: seq<Item>, addrs: map<string, string>, main: string)
    requires Truthful(items, addrs, main)
    ensures main in addrs && main in (set i | i in items :: i.id) && addrs[main] in (set i | i in items :: i.ip)
    ensures forall id | id in (set i | i in items :: i.id) :: id in addrs
  {
  }

  lemma BuyStepKeeps(k: Job, s: State, r: Reply)
    requires Inv(k, s) && (s.pc.CheckBeforeBuying? || s.pc.BuyStep?)
    ensures Inv(k, WorkBuy(k, s, r))
  {
    hide Healthy, Truthful, WhileSwitched, WhileFinishing;
  }

  lemma BuyingKeeps(k: Job, s: State, r: Reply)
    requires Inv(k, s) && Fits(s, Work(r)) && s.pc.Buying?
    ensures Inv(k, WorkBuy(k, s, r))
  {
    hide Healthy, Truthful, WhileSwitched, WhileFinishing, WhileHandling, WhileLooking;
  }

  lemma BoughtKeeps(k: Job, s: State, r: Reply)
    requires Inv(k, s) && (s.pc.BuyLost? || s.pc.BuyAnswered? || s.pc.SettleStep?)
    ensures Inv(k, WorkBuy(k, s, r))
  {
    hide RowInv, ProviderInv, Healthy, Truthful, WhileSwitched, WhileFinishing, WhileLooking;
    RowsHold(k, s);
    ReportKeeps(k, s, WorkBuy(k, s, r));
  }

  lemma AppearedKeeps(k: Job, s: State, r: Reply)
    requires Inv(k, s) && (s.pc.AppearStep? || s.pc.Appeared?)
    ensures Inv(k, WorkBuy(k, s, r))
  {
    hide Healthy, Truthful, WhileSwitched, WhileFinishing, WhileLooking;
  }

  lemma AppearingKeeps(k: Job, s: State, r: Reply)
    requires Inv(k, s) && Fits(s, Work(r)) && s.pc.Appearing?
    ensures Inv(k, WorkBuy(k, s, r))
  {
    hide RowInv, ProviderInv, FindNewIp, Truthful, WhileSwitched, WhileFinishing, WhileLooking;
    RowsHold(k, s);
    if r.Listed? {
      var v := s.vars;
      FindNewIpIsNew(r.items, s.at.addrs, s.at.main, v.oldId, v.oldIp, v.createdId, v.createdIp, v.knownIds, v.knownIps);
    }
    ReportKeeps(k, s, WorkBuy(k, s, r));
  }

  lemma MainStepKeeps(k: Job, s: State, r: Reply)
    requires Inv(k, s) && (s.pc.CheckBeforeMain? || s.pc.MainStep?)
    ensures Inv(k, WorkMain(k, s, r))
  {
    hide Healthy, Truthful, WhileFinishing, WhileLooking;
  }

  lemma SettingMainKeeps(k: Job, s: State, r: Reply)
    requires Inv(k, s) && s.pc.SettingMain?
    ensures Inv(k, WorkMain(k, s, r))
  {
    hide Healthy, Truthful, WhileFinishing, WhileLooking, WhileBuying, WhileHandling;
  }

  lemma MainLostKeeps(k: Job, s: State, r: Reply)
    requires Inv(k, s) && s.pc.MainLost?
    ensures Inv(k, WorkMain(k, s, r))
  {
    hide Healthy, Truthful, WhileBuying, WhileFinishing, WhileLooking;
  }

  lemma MainAnsweredKeeps(k: Job, s: State, r: Reply)
    requires Inv(k, s) && s.pc.MainAnswered?
    ensures Inv(k, WorkMain(k, s, r))
  {
    hide Healthy, Truthful, WhileBuying, WhileFinishing, WhileLooking;
  }

  lemma ConfirmingKeeps(k: Job, s: State, r: Reply)
    requires Inv(k, s) && (s.pc.ConfirmStep? || s.pc.Confirming?)
    ensures Inv(k, WorkMain(k, s, r))
  {
    hide Healthy, Truthful, WhileBuying, WhileFinishing, WhileLooking;
  }

  lemma ConfirmedKeeps(k: Job, s: State, r: Reply)
    requires Inv(k, s) && (s.pc.Confirmed? || s.pc.SshStep?)
    ensures Inv(k, WorkMain(k, s, r))
  {
    hide Healthy, Truthful, WhileBuying, WhileFinishing, WhileLooking;
  }

  lemma ReachedKeeps(k: Job, s: State, r: Reply)
    requires Inv(k, s) && (s.pc.AwaitingSsh? || s.pc.SshAnswered?)
    ensures Inv(k, WorkMain(k, s, r))
  {
    hide Healthy, Truthful, WhileBuying, WhileFinishing, WhileLooking;
  }

  lemma AppliesKeep(k: Job, s: State, r: Reply)
    requires Inv(k, s) && (s.pc.CheckBeforeApply? || s.pc.ApplyStep? || s.pc.Applying?)
    ensures Inv(k, WorkApply(k, s, r))
  {
    hide Healthy, Truthful, WhileBuying, WhileFinishing, WhileLooking;
  }

  lemma ApplyEndsKeep(k: Job, s: State, r: Reply)
    requires Inv(k, s) && (s.pc.ApplyLost? || s.pc.ApplyRefused?)
    ensures Inv(k, WorkApply(k, s, r))
  {
    hide Healthy, Truthful, WhileBuying, WhileFinishing, WhileLooking;
  }

  lemma ApplyAnsweredKeeps(k: Job, s: State, r: Reply)
    requires Inv(k, s) && s.pc.ApplyAnswered?
    ensures Inv(k, WorkApply(k, s, r))
  {
    hide Healthy, Truthful, WhileBuying, WhileFinishing, WhileLooking;
  }

  lemma HealthStepKeeps(k: Job, s: State, r: Reply)
    requires Inv(k, s) && (s.pc.CheckBeforeHealth? || s.pc.HealthStep? || s.pc.PublishStep?)
    ensures Inv(k, WorkApply(k, s, r))
  {
    hide RowInv, ProviderInv, Healthy, Truthful, WhileBuying, WhileFinishing, WhileLooking;
    RowsHold(k, s);
    ReportKeeps(k, s, WorkApply(k, s, r));
  }

  lemma CheckupKeeps(k: Job, s: State, r: Reply)
    requires Inv(k, s) && (s.pc.Checkup? || s.pc.CheckBeforePublish?)
    ensures Inv(k, WorkApply(k, s, r))
  {
    hide Healthy, Truthful, WhileBuying, WhileFinishing, WhileLooking;
  }

  lemma PublishingKeeps(k: Job, s: State, r: Reply)
    requires Inv(k, s) && s.pc.Publishing?
    ensures Inv(k, WorkApply(k, s, r))
  {
    hide Healthy, WhileBuying, WhileLooking;
  }

  lemma DeletingKeeps(k: Job, s: State, r: Reply)
    requires Inv(k, s) && s.pc.Deleting?
    ensures Inv(k, WorkFinish(k, s, r))
  {
    hide Healthy, WhileBuying, WhileSwitched, WhileLooking, WhileHandling;
  }

  lemma DeleteStepKeeps(k: Job, s: State, r: Reply)
    requires Inv(k, s) && (s.pc.AfterPublish? || s.pc.DeleteStep?)
    ensures Inv(k, WorkFinish(k, s, r))
  {
    hide RowInv, ProviderInv, Healthy, Truthful, WhileBuying, WhileSwitched, WhileHandling, WhileLooking;
    RowsHold(k, s);
    ReportKeeps(k, s, WorkFinish(k, s, r));
  }

  lemma DeletedKeeps(k: Job, s: State, r: Reply)
    requires Inv(k, s) && (s.pc.DeleteLost? || s.pc.DeleteAnswered?)
    ensures Inv(k, WorkFinish(k, s, r))
  {
    hide Healthy, Truthful, WhileBuying, WhileSwitched, WhileHandling, WhileLooking;
  }

  lemma FinishKeeps(k: Job, s: State, r: Reply)
    requires Inv(k, s) && s.pc.FinishStep?
    ensures Inv(k, WorkFinish(k, s, r))
  {
    hide Healthy, WhileBuying, WhileSwitched, WhileLooking, WhileHandling;
  }

  lemma RollingBackKeeps(k: Job, s: State, r: Reply)
    requires Inv(k, s) && s.pc.RollingBack?
    ensures Inv(k, WorkHandle(k, s, r))
  {
    hide Healthy, WhileBuying, WhileSwitched, WhileFinishing, WhileLooking;
  }

  lemma HandlingKeeps(k: Job, s: State, r: Reply)
    requires Inv(k, s) && (s.pc.Handling? || s.pc.RollbackStep?)
    ensures Inv(k, WorkHandle(k, s, r))
  {
    hide Healthy, Truthful, WhileBuying, WhileSwitched, WhileFinishing, WhileLooking;
  }

  lemma RollbackLostKeeps(k: Job, s: State, r: Reply)
    requires Inv(k, s) && s.pc.RollbackLost?
    ensures Inv(k, WorkHandle(k, s, r))
  {
    hide Healthy, Truthful, WhileBuying, WhileSwitched, WhileFinishing, WhileLooking;
  }

  lemma RollbackAnsweredKeeps(k: Job, s: State, r: Reply)
    requires Inv(k, s) && s.pc.RollbackAnswered?
    ensures Inv(k, WorkHandle(k, s, r))
  {
    hide Healthy, Truthful, WhileBuying, WhileSwitched, WhileFinishing, WhileLooking;
  }

  lemma JudgingKeeps(k: Job, s: State, r: Reply)
    requires Inv(k, s) && (s.pc.Judging?)
    ensures Inv(k, WorkHandle(k, s, r))
  {
    hide Healthy, Truthful, WhileBuying, WhileSwitched, WhileFinishing, WhileLooking;
  }

  lemma ClosingKeeps(k: Job, s: State, r: Reply)
    requires Inv(k, s) && s.pc.ClosingStep?
    ensures Inv(k, WorkHandle(k, s, r))
  {
    hide Healthy, WhileBuying, WhileSwitched, WhileFinishing, WhileLooking;
  }

  /** Interrupting never invents a decision over SSH here, so it marks ambiguity exactly when something was sent. */
  lemma InterruptKeeps(k: Job, s: State)
    requires Inv(k, s)
    ensures Inv(k, s.(row := InterruptIp(s.row)))
    ensures Inv(k, s.(row := InterruptIp(s.row), pc := Idle, vars := NO_VARS))
  {
    hide Healthy, Truthful;
    assert InterruptIp(s.row).action in {s.row.action, AMBIGUOUS_ACTION, NOT_STARTED};
  }

  lemma SettleKeeps(k: Job, s: State)
    requires Inv(k, s) && Reconcilable(s.row)
    ensures Inv(k, s.(row := s.row.(action := Tables.RECONCILED)))
  {
    hide Healthy, Truthful;
  }

  lemma OthersKeep(k: Job, s: State, a: Act)
    requires Inv(k, s) && Fits(s, a) && (a.OthersConfigure? || a.OthersAddress? || a.Crash? || a.Invoke?)
    ensures Inv(k, Next(k, s, a))
  {
    hide Healthy;
  }

  lemma WorkKeeps(k: Job, s: State, r: Reply)
    requires Inv(k, s) && Fits(s, Work(r))
    ensures Inv(k, WorkNext(k, s, r))
  {
    hide Inv, Fits, WorkLookup, WorkBuy, WorkMain, WorkApply, WorkFinish, WorkHandle;
    match s.pc
    case Idle =>
    case Loading | Checking | ListStep | OldFound => LoadingKeeps(k, s, r);
    case Listing => ListingKeeps(k, s, r);
    case FindStep(_) => FindKeeps(k, s, r);
    case CheckBeforeBuying | BuyStep => BuyStepKeeps(k, s, r);
    case Buying => BuyingKeeps(k, s, r);
    case BuyLost | BuyAnswered | SettleStep => BoughtKeeps(k, s, r);
    case AppearStep | Appeared => AppearedKeeps(k, s, r);
    case Appearing => AppearingKeeps(k, s, r);
    case CheckBeforeMain | MainStep => MainStepKeeps(k, s, r);
    case SettingMain => SettingMainKeeps(k, s, r);
    case MainLost => MainLostKeeps(k, s, r);
    case MainAnswered => MainAnsweredKeeps(k, s, r);
    case ConfirmStep | Confirming => ConfirmingKeeps(k, s, r);
    case Confirmed | SshStep => ConfirmedKeeps(k, s, r);
    case AwaitingSsh | SshAnswered => ReachedKeeps(k, s, r);
    case CheckBeforeApply | ApplyStep | Applying => AppliesKeep(k, s, r);
    case ApplyLost | ApplyRefused => ApplyEndsKeep(k, s, r);
    case ApplyAnswered => ApplyAnsweredKeeps(k, s, r);
    case CheckBeforeHealth | HealthStep | PublishStep => HealthStepKeeps(k, s, r);
    case Checkup | CheckBeforePublish => CheckupKeeps(k, s, r);
    case Publishing => PublishingKeeps(k, s, r);
    case Deleting => DeletingKeeps(k, s, r);
    case AfterPublish | DeleteStep => DeleteStepKeeps(k, s, r);
    case DeleteLost | DeleteAnswered => DeletedKeeps(k, s, r);
    case FinishStep => FinishKeeps(k, s, r);
    case RollingBack => RollingBackKeeps(k, s, r);
    case ClosingStep(_) => ClosingKeeps(k, s, r);
    case Handling | RollbackStep => HandlingKeeps(k, s, r);
    case RollbackLost => RollbackLostKeeps(k, s, r);
    case RollbackAnswered => RollbackAnsweredKeeps(k, s, r);
    case Judging(_) => JudgingKeeps(k, s, r);
  }

  lemma PcKeeps(k: Job, s: State, s': State)
    requires ProviderInv(k, s) && RowInv(k, s) && s' == s.(pc := s'.pc)
    ensures ProviderInv(k, s') && RowInv(k, s')
  {
    hide Healthy;
  }

  /** A write that is refused before the publication, or within the deletion, changes nothing that counts. */
  lemma RefuseKeeps(k: Job, s: State)
    requires Inv(k, s) && !Late(k, s.pc)
    ensures Inv(k, Refused(k, s))
  {
    hide ProviderInv, RowInv, Healthy, Truthful, Refused, WhileLooking, WhileBuying, WhileSwitched, WhileFinishing,
         WhileHandling;
    RefusedPlaces(k, s);
    PcKeeps(k, s, Refused(k, s));
    if Refused(k, s) == s {
    } else if Refused(k, s).pc.Handling? {
      TryFails(k, s);
    } else if Refused(k, s).pc.DeleteLost? {
      DeleteFails(k, s);
    }
  }

  lemma RefusedPlaces(k: Job, s: State)
    requires !Late(k, s.pc)
    ensures Refused(k, s) == s.(pc := Refused(k, s).pc)
    ensures var s' := Refused(k, s);
            || s' == s || s'.pc.Idle?
            || (s'.pc.Handling? && (Looking(s.pc) || Buys(s.pc) || Switches(s.pc) || Applies(s.pc)))
            || (s'.pc.DeleteLost? && (s.pc.DeleteStep? || s.pc.DeleteAnswered?))
  {
  }

  lemma TryFails(k: Job, s: State)
    requires Inv(k, s) && (Looking(s.pc) || Buys(s.pc) || Switches(s.pc) || Applies(s.pc))
    ensures WhileHandling(k, s.(pc := Handling))
  {
    hide ProviderInv, RowInv, Healthy, Truthful;
    RowsHold(k, s);
  }

  lemma DeleteFails(k: Job, s: State)
    requires Inv(k, s) && (s.pc.DeleteStep? || s.pc.DeleteAnswered?)
    ensures WhileFinishing(k, s.(pc := DeleteLost))
  {
    hide ProviderInv, RowInv, Healthy, Truthful;
  }

  lemma StepKeeps(k: Job, s: State, a: Act)
    requires Inv(k, s) && Fits(s, a) && !(a.Refuse? && Late(k, s.pc))
    ensures Inv(k, Next(k, s, a))
  {
    hide Inv, Fits, WorkNext, InterruptIp, Reconcilable, Refused, Late;
    match a
    case Work(r) => WorkKeeps(k, s, r);
    case Refuse => RefuseKeeps(k, s);
    case Restart => InterruptKeeps(k, s);
    case TakeOver => InterruptKeeps(k, s);
    case Settle => if Reconcilable(s.row) { SettleKeeps(k, s); }
    case _ => OthersKeep(k, s, a);
  }

  lemma {:induction false} RunKeeps(k: Job, s: State, acts: seq<Act>)
    requires Inv(k, s) && AllFit(k, s, acts) && NoneLate(k, s, acts)
    ensures Inv(k, Run(k, s, acts))
    decreases |acts|
  {
    hide Inv, Fits, Next, Late;
    if acts == [] {
    } else {
      StepKeeps(k, s, acts[0]);
      RunKeeps(k, Next(k, s, acts[0]), acts[1..]);
    }
  }

  lemma InitialInv(k: Job, s: State)
    requires Initial(k, s)
    ensures Inv(k, s)
  {
  }

  /* ---------- a write refused after the publication ---------- */

  predicate Handles(pc: Pc) {
    || pc.Handling? || pc.RollbackStep? || pc.RollingBack? || pc.RollbackLost? || pc.RollbackAnswered? || pc.Judging?
    || pc.ClosingStep?
  }

  /** The rollback was acknowledged, or is not looked at. */
  predicate BelievesInRollback(pc: Pc) {
    pc.RollbackAnswered? || pc == Judging(false) || pc == ClosingStep(false)
  }

  /** The operation has published, and its exception handler runs or has run all the same. */
  ghost predicate Undoing(k: Job, s: State) {
    && s.at.addrs.Keys <= s.at.issued && "" !in s.at.issued && k.oldMain in s.at.issued
    && s.at.purchases <= 1 && s.at.switches <= 1
    && (s.at.deletions == [] || (s.at.deletions == [k.oldMain] && !k.config.amnezia.protocol.enabled))
    && s.row.revision == k.config.revision < s.desired && s.row.published == Some(k.config.revision + 1)
    && s.row.purchase != P_NOT_STARTED && s.row.makeMain != M_NOT_STARTED && HoldOk(s.row) && s.row.status != DONE
    && s.row.action !in {WAITING_SSH, SSH_WAIT_QUEUED, SSH_UNREACHABLE}
    && s.row.newIpId != k.oldMain && s.currentIp == s.row.newIp && Healthy(k.config, s.health)
    && s.at.main in {k.oldMain, s.row.newIpId}
    && (s.row.status == FAILURE || BelievesInRollback(s.pc) ==> s.at.main == k.oldMain)
    && (k.oldMain !in s.at.addrs ==> s.at.main == s.row.newIpId)
    && (|| s.pc.Idle? || s.pc.Loading?
        || (Handles(s.pc) && s.vars.mainStarted && s.vars.oldId == k.oldMain && OpenOrAmbiguous(s.row)))
  }

  lemma LateBegins(k: Job, s: State)
    requires Inv(k, s) && Late(k, s.pc)
    ensures Undoing(k, Refused(k, s))
  {
    hide Healthy, Truthful, WhileSwitched, WhileBuying, WhileHandling, WhileLooking;
  }

  lemma UndoingWork(k: Job, s: State, r: Reply)
    requires Undoing(k, s) && Fits(s, Work(r))
    ensures Undoing(k, WorkNext(k, s, r))
  {
    hide Undoing, Healthy, WorkHandle, WorkLookup, WorkBuy, WorkMain, WorkApply, WorkFinish, Fits;
    UndoingPlaces(k, s);
    if s.pc.Loading? {
      UndoingLoads(k, s, r);
    } else if s.pc.Handling? || s.pc.RollbackStep? || s.pc.RollingBack? {
      UndoingRollsBack(k, s, r);
    } else if !s.pc.Idle? {
      UndoingCloses(k, s, r);
    }
  }

  lemma UndoingPlaces(k: Job, s: State)
    requires Undoing(k, s)
    ensures s.pc.Idle? || s.pc.Loading? || Handles(s.pc)
  {
    hide Healthy;
  }

  lemma UndoingLoads(k: Job, s: State, r: Reply)
    requires Undoing(k, s) && s.pc.Loading?
    ensures Undoing(k, WorkLookup(k, s, r))
  {
    hide Healthy;
  }

  lemma UndoingRollsBack(k: Job, s: State, r: Reply)
    requires Undoing(k, s) && Fits(s, Work(r)) && (s.pc.Handling? || s.pc.RollbackStep? || s.pc.RollingBack?)
    ensures Undoing(k, WorkHandle(k, s, r))
  {
    hide Healthy, Truthful;
  }

  lemma UndoingCloses(k: Job, s: State, r: Reply)
    requires Undoing(k, s) && (s.pc.RollbackLost? || s.pc.RollbackAnswered? || s.pc.Judging? || s.pc.ClosingStep?)
    ensures Undoing(k, WorkHandle(k, s, r))
  {
    hide Healthy, Truthful;
  }

  lemma UndoingKeeps(k: Job, s: State, a: Act)
    requires Undoing(k, s) && Fits(s, a)
    ensures Undoing(k, Next(k, s, a))
  {
    hide Undoing, Healthy, Truthful, WorkNext, InterruptIp, Reconcilable, Refused;
    match a
    case Work(r) => UndoingWork(k, s, r);
    case Refuse => UndoingRefused(k, s);
    case Restart => UndoingInterrupted(k, s);
    case TakeOver => UndoingInterrupted(k, s);
    case Settle => UndoingSettled(k, s);
    case _ => UndoingOthers(k, s, a);
  }

  lemma UndoingRefused(k: Job, s: State)
    requires Undoing(k, s)
    ensures Undoing(k, Refused(k, s))
  {
    hide Undoing;
    UndoingPlaces(k, s);
    UndoingEnds(k, s);
  }

  lemma UndoingEnds(k: Job, s: State)
    requires Undoing(k, s)
    ensures Undoing(k, s.(pc := Idle))
  {
    hide Healthy;
  }

  lemma UndoingInterrupted(k: Job, s: State)
    requires Undoing(k, s)
    ensures Undoing(k, s.(row := InterruptIp(s.row)))
    ensures Undoing(k, s.(row := InterruptIp(s.row), pc := Idle, vars := NO_VARS))
  {
    hide Healthy;
  }

  lemma UndoingSettled(k: Job, s: State)
    requires Undoing(k, s)
    ensures Reconcilable(s.row) ==> Undoing(k, s.(row := s.row.(action := Tables.RECONCILED)))
  {
    hide Healthy;
  }

  lemma UndoingOthers(k: Job, s: State, a: Act)
    requires Undoing(k, s) && Fits(s, a) && (a.OthersConfigure? || a.OthersAddress? || a.Crash? || a.Invoke?)
    ensures Undoing(k, Next(k, s, a))
  {
    hide Healthy;
  }

  lemma {:induction false} RunUndoes(k: Job, s: State, acts: seq<Act>)
    requires Undoing(k, s) && AllFit(k, s, acts)
    ensures Undoing(k, Run(k, s, acts))
    decreases |acts|
  {
    hide Undoing, Fits, Next;
    if acts == [] {
    } else {
      UndoingKeeps(k, s, acts[0]);
      RunUndoes(k, Next(k, s, acts[0]), acts[1..]);
    }
  }

  /** Whatever is refused, and whenever. */
  lemma {:induction false} RunKeepsOrUndoes(k: Job, s: State, acts: seq<Act>)
    requires Inv(k, s) && AllFit(k, s, acts)
    ensures Inv(k, Run(k, s, acts)) || Undoing(k, Run(k, s, acts))
    decreases |acts|
  {
    hide Inv, Undoing, Fits, Next, Late;
    if acts == [] {
    } else if acts[0].Refuse? && Late(k, s.pc) {
      LateBegins(k, s);
      RefusedIsNext(k, s);
      RunUndoes(k, Next(k, s, acts[0]), acts[1..]);
    } else {
      StepKeeps(k, s, acts[0]);
      RunKeepsOrUndoes(k, Next(k, s, acts[0]), acts[1..]);
    }
  }

  lemma RefusedIsNext(k: Job, s: State)
    ensures Next(k, s, Refuse) == Refused(k, s)
  {
    hide Refused;
  }

  /* ---------- the main results ---------- */

  /** DONE leaves the published address and the provider's main address at the new one, FAILED leaves both where they
      were, with nothing published. Only AMBIGUOUS says nothing. */
  ghost predicate Agrees(k: Job, s: State) {
    && (s.row.status == DONE ==>
          && s.at.main == s.row.newIpId && s.at.main != k.oldMain && s.at.main in s.at.addrs
          && s.currentIp == s.row.newIp == s.at.addrs[s.at.main])
    && (s.row.status == FAILURE ==>
          s.at.main == k.oldMain && s.currentIp == k.config.currentIp && s.row.published.None?)
  }

  lemma InvAgrees(k: Job, s: State)
    requires Inv(k, s)
    ensures Agrees(k, s)
  {
    hide Healthy, ProgramInv;
  }

  /** The published address and the provider's main address agree whenever an operation has ended for certain. Replies
      may be lost at any point, with or without effect, the process may crash anywhere, the lease of the running worker
      may be taken over, and the database may refuse any write but a late one. */
  lemma RotationAgrees(k: Job, s0: State, acts: seq<Act>)
    requires Initial(k, s0) && AllFit(k, s0, acts) && NoneLate(k, s0, acts)
    ensures Agrees(k, Run(k, s0, acts))
  {
    hide Initial, Inv, Run, AllFit, NoneLate, Agrees;
    InitialInv(k, s0);
    RunKeeps(k, s0, acts);
    InvAgrees(k, Run(k, s0, acts));
  }

  /** And exactly then: the refusal of a write can make the two disagree, in an operation that says FAILED, if and only if
      the write comes after the publication and the old address is still there. */
  lemma RefusalDisagreesExactlyWhen(k: Job, s: State)
    requires Inv(k, s)
    ensures (exists acts :: AllFit(k, Refused(k, s), acts) && NoneLate(k, Refused(k, s), acts)
                            && !Agrees(k, Run(k, Refused(k, s), acts)))
        <==> Late(k, s.pc) && k.oldMain in s.at.addrs
  {
    hide Inv, Undoing, Run, AllFit, NoneLate, Refused, Late;
    if Late(k, s.pc) && k.oldMain in s.at.addrs {
      var acts := LateDisagrees(k, s);
      assert !Agrees(k, Run(k, Refused(k, s), acts));
    } else {
      forall acts | AllFit(k, Refused(k, s), acts) && NoneLate(k, Refused(k, s), acts)
        ensures Agrees(k, Run(k, Refused(k, s), acts))
      {
        if Late(k, s.pc) {
          LateBegins(k, s);
          RefusedKeepsAddresses(k, s);
          RunStaysGone(k, Refused(k, s), acts);
          GoneAgrees(k, Run(k, Refused(k, s), acts));
        } else {
          RefuseKeeps(k, s);
          RunKeeps(k, Refused(k, s), acts);
          InvAgrees(k, Run(k, Refused(k, s), acts));
        }
      }
    }
  }

  lemma RefusedKeepsAddresses(k: Job, s: State)
    ensures Refused(k, s).at == s.at
  {
  }

  /** The handler switches the provider back, and the published address stays. */
  lemma LateDisagrees(k: Job, s: State) returns (acts: seq<Act>)
    requires Inv(k, s) && Late(k, s.pc) && k.oldMain in s.at.addrs
    ensures AllFit(k, Refused(k, s), acts) && NoneLate(k, Refused(k, s), acts)
    ensures var s' := Run(k, Refused(k, s), acts);
            && s'.row.status == FAILURE && s'.row.published.Some? && s'.at.main == k.oldMain
            && s'.currentIp == s'.row.newIp && s'.row.newIpId != k.oldMain
  {
    hide Inv, Undoing, Run, AllFit, NoneLate, Late;
    LateBegins(k, s);
    RefusedKeepsAddresses(k, s);
    LateIsHandled(k, s);
    acts := Undo(k, Refused(k, s));
    RunUndoes(k, Refused(k, s), acts);
    UndoneGives(k, Run(k, Refused(k, s), acts));
  }

  lemma LateIsHandled(k: Job, s: State)
    requires Late(k, s.pc)
    ensures Refused(k, s).pc.Handling?
  {
  }

  lemma UndoneGives(k: Job, s: State)
    requires Undoing(k, s) && s.row.status == FAILURE
    ensures s.row.published.Some? && s.at.main == k.oldMain && s.currentIp == s.row.newIp && s.row.newIpId != k.oldMain
  {
    hide Healthy;
  }

  /** How far the handler is from its end, when all goes well. */
  function Remaining(pc: Pc): nat {
    match pc
    case Handling => 6
    case RollbackStep => 5
    case RollingBack => 4
    case RollbackAnswered => 3
    case Judging(_) => 2
    case _ => 1
  }

  predicate UndoesWell(s: State) {
    || s.pc.Handling? || s.pc.RollbackStep? || s.pc.RollingBack? || s.pc.RollbackAnswered?
    || (s.pc == Judging(false) && s.row.action != AMBIGUOUS_ACTION) || s.pc == ClosingStep(false)
  }

  /** When nothing goes wrong any more, the handler reports FAILED. */
  lemma {:induction false} Undo(k: Job, s: State) returns (acts: seq<Act>)
    requires Undoing(k, s) && k.oldMain in s.at.addrs && UndoesWell(s)
    ensures AllFit(k, s, acts) && NoneLate(k, s, acts) && Run(k, s, acts).row.status == FAILURE
    decreases Remaining(s.pc)
  {
    hide Undoing, Fits, Next, AllFit, NoneLate, Run;
    UndoStep(k, s);
    var s' := Next(k, s, Work(Fine));
    if s.pc.ClosingStep? {
      NoActs(k, s');
      acts := Prepended(k, s, Work(Fine), []);
    } else {
      UndoingKeeps(k, s, Work(Fine));
      acts := Undo(k, s');
      acts := Prepended(k, s, Work(Fine), acts);
    }
  }

  lemma UndoStep(k: Job, s: State)
    requires Undoing(k, s) && k.oldMain in s.at.addrs && UndoesWell(s)
    ensures var s' := Next(k, s, Work(Fine));
            && Fits(s, Work(Fine)) && s'.at.addrs == s.at.addrs
            && (if s.pc.ClosingStep? then s'.row.status == FAILURE
                else UndoesWell(s') && Remaining(s'.pc) < Remaining(s.pc))
  {
    hide Undoing, WorkLookup, WorkBuy, WorkMain, WorkApply, WorkFinish, WorkHandle, Fits;
    UndoingKnows(k, s);
    if s.pc.Handling? || s.pc.RollbackStep? || s.pc.RollingBack? {
      RollsBackWell(k, s);
    } else {
      ClosesWell(k, s);
    }
  }

  lemma RollsBackWell(k: Job, s: State)
    requires s.vars.mainStarted && s.vars.oldId == k.oldMain && s.vars.oldId != "" && k.oldMain in s.at.addrs
    requires s.pc.Handling? || s.pc.RollbackStep? || s.pc.RollingBack?
    ensures var s' := WorkHandle(k, s, Fine);
            && Fits(s, Work(Fine)) && s'.at.addrs == s.at.addrs && UndoesWell(s') && Remaining(s'.pc) < Remaining(s.pc)
  {
  }

  lemma ClosesWell(k: Job, s: State)
    requires UndoesWell(s) && (s.pc.RollbackAnswered? || s.pc.Judging? || s.pc.ClosingStep?)
    ensures var s' := WorkHandle(k, s, Fine);
            && Fits(s, Work(Fine)) && s'.at.addrs == s.at.addrs
            && (if s.pc.ClosingStep? then s'.row.status == FAILURE
                else UndoesWell(s') && Remaining(s'.pc) < Remaining(s.pc))
  {
  }

  lemma UndoingKnows(k: Job, s: State)
    requires Undoing(k, s) && Handles(s.pc)
    ensures s.vars.mainStarted && s.vars.oldId == k.oldMain && s.vars.oldId != ""
  {
    hide Healthy;
  }

  lemma NoActs(k: Job, s: State)
    ensures AllFit(k, s, []) && NoneLate(k, s, []) && Run(k, s, []) == s
  {
  }

  lemma Prepended(k: Job, s: State, a: Act, rest: seq<Act>) returns (acts: seq<Act>)
    requires Fits(s, a) && !a.Refuse? && AllFit(k, Next(k, s, a), rest) && NoneLate(k, Next(k, s, a), rest)
    ensures AllFit(k, s, acts) && NoneLate(k, s, acts) && Run(k, s, acts) == Run(k, Next(k, s, a), rest)
  {
    hide Fits, Next;
    acts := [a] + rest;
    assert acts[0] == a && acts[1..] == rest;
  }

  /** An address that is gone does not come back, and is not made the main one. */
  lemma {:induction false} RunStaysGone(k: Job, s: State, acts: seq<Act>)
    requires Undoing(k, s) && AllFit(k, s, acts) && k.oldMain !in s.at.addrs
    ensures Undoing(k, Run(k, s, acts)) && k.oldMain !in Run(k, s, acts).at.addrs
    decreases |acts|
  {
    hide Undoing, Fits, Next;
    if acts == [] {
    } else {
      UndoingKeeps(k, s, acts[0]);
      StaysGone(k, s, acts[0]);
      RunStaysGone(k, Next(k, s, acts[0]), acts[1..]);
    }
  }

  lemma StaysGone(k: Job, s: State, a: Act)
    requires Undoing(k, s) && Fits(s, a) && k.oldMain !in s.at.addrs
    ensures k.oldMain !in Next(k, s, a).at.addrs
  {
    hide Undoing, Healthy, Truthful, WorkLookup, WorkBuy, WorkMain, WorkApply, WorkFinish, InterruptIp;
    UndoingPlaces(k, s);
    OldIsIssued(k, s);
    LookupOnlyReads(k, s);
  }

  lemma OldIsIssued(k: Job, s: State)
    requires Undoing(k, s)
    ensures k.oldMain in s.at.issued
  {
    hide Healthy;
  }

  lemma LookupOnlyReads(k: Job, s: State)
    ensures forall r :: WorkLookup(k, s, r).at == s.at
  {
    hide FindMainIp;
  }

  lemma GoneAgrees(k: Job, s: State)
    requires Undoing(k, s) && k.oldMain !in s.at.addrs
    ensures Agrees(k, s)
  {
    hide Healthy;
  }

  /** One purchase, one switch to the new address and one deletion per operation at most, over every sequence of
      crashes, recoveries, invocations and refused writes. */
  lemma ActsAtMostOnce(k: Job, s0: State, acts: seq<Act>)
    requires Initial(k, s0) && AllFit(k, s0, acts)
    ensures var s := Run(k, s0, acts); s.at.purchases <= 1 && s.at.switches <= 1 && |s.at.deletions| <= 1
  {
    InitialInv(k, s0);
    hide Run, AllFit, RowInv, ProgramInv, Initial;
    RunKeepsOrUndoes(k, s0, acts);
  }

  /** The only address ever deleted is the old main one, after the publication committed, after every enabled VLESS
      and Hysteria check passed on the new address, and never with AmneziaWG enabled. Unless a late write was refused, the
      new address is then the main one, and a run that fails has neither published nor deleted. */
  lemma DeletionIsSafe(k: Job, s0: State, acts: seq<Act>)
    requires Initial(k, s0) && AllFit(k, s0, acts)
    ensures var s := Run(k, s0, acts);
            && (s.at.deletions != [] ==>
                  && s.at.deletions == [k.oldMain] && s.row.published == Some(k.config.revision + 1)
                  && Healthy(k.config, s.health) && !k.config.amnezia.protocol.enabled)
            && (NoneLate(k, s0, acts) ==>
                  && (s.at.deletions != [] ==> s.at.main != k.oldMain)
                  && (s.row.status == FAILURE ==> s.row.published.None? && s.at.deletions == []))
  {
    InitialInv(k, s0);
    hide Run, AllFit, NoneLate, Healthy, Initial, ProgramInv;
    RunKeepsOrUndoes(k, s0, acts);
    if NoneLate(k, s0, acts) {
      RunKeeps(k, s0, acts);
    }
  }

  /** A row on hold can be reconciled, even when its lease was taken over from a live worker, or its writes are refused. */
  lemma HoldIsWellFormed(k: Job, s0: State, acts: seq<Act>)
    requires Initial(k, s0) && AllFit(k, s0, acts)
    ensures var row := Run(k, s0, acts).row; OnHold(row) && !row.status.Active() ==> Reconcilable(row)
  {
    InitialInv(k, s0);
    hide Run, AllFit, Healthy, ProgramInv, ProviderInv, Initial;
    RunKeepsOrUndoes(k, s0, acts);
  }

  /* ---------- a moved configuration forces failure ---------- */

  predicate SamePublication(s: State, s': State) {
    s'.row.published == s.row.published && s'.desired == s.desired
  }

  lemma LookupAndBuyKeepPublication(k: Job, s: State, r: Reply)
    ensures SamePublication(s, WorkLookup(k, s, r)) && SamePublication(s, WorkBuy(k, s, r))
  {
    hide FindNewIp, FindMainIp;
  }

  lemma MainKeepsPublication(k: Job, s: State, r: Reply)
    ensures SamePublication(s, WorkMain(k, s, r))
  {
  }

  lemma ApplyKeepsPublication(k: Job, s: State, r: Reply)
    requires !s.pc.Publishing? && !s.pc.FinishStep?
    ensures SamePublication(s, WorkApply(k, s, r)) && SamePublication(s, WorkFinish(k, s, r))
  {
    hide Healthy;
  }

  lemma HandleKeepsPublication(k: Job, s: State, r: Reply)
    ensures SamePublication(s, WorkHandle(k, s, r))
  {
  }

  /** Only two steps of the program write a published revision, and only the publication counts up. */
  lemma OnlyPublicationPublishes(k: Job, s: State, r: Reply)
    requires !s.pc.Publishing? && !s.pc.FinishStep?
    ensures SamePublication(s, WorkNext(k, s, r))
  {
    hide WorkLookup, WorkBuy, WorkMain, WorkApply, WorkFinish, WorkHandle;
    LookupAndBuyKeepPublication(k, s, r);
    MainKeepsPublication(k, s, r);
    ApplyKeepsPublication(k, s, r);
    HandleKeepsPublication(k, s, r);
  }

  lemma OutdatedStep(k: Job, s: State, a: Act)
    requires Inv(k, s) && Fits(s, a) && k.config.revision < s.desired && s.row.published.None?
    ensures Next(k, s, a).row.published.None? && k.config.revision < Next(k, s, a).desired
  {
    hide ProviderInv, WhileSwitched, WhileBuying, WhileHandling, WhileLooking;
    if a.Work? && !s.pc.Publishing? && !s.pc.FinishStep? {
      OnlyPublicationPublishes(k, s, a.r);
    }
  }

  /** Once the desired revision has moved from the bound one before publication, the operation never publishes,
      never deletes and never ends DONE, whatever happens. */
  lemma {:induction false} OutdatedNeverPublishes(k: Job, s: State, acts: seq<Act>)
    requires Inv(k, s) && AllFit(k, s, acts) && k.config.revision < s.desired && s.row.published.None?
    ensures var s' := Run(k, s, acts); s'.row.published.None? && s'.at.deletions == [] && s'.row.status != DONE
    decreases |acts|
  {
    hide Fits, Next, Healthy, WhileSwitched, WhileBuying, WhileHandling, WhileLooking;
    if acts == [] {
    } else {
      assert !Late(k, s.pc);
      StepKeeps(k, s, acts[0]);
      OutdatedStep(k, s, acts[0]);
      OutdatedNeverPublishes(k, Next(k, s, acts[0]), acts[1..]);
    }
  }
}
