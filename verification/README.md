# AutoVPN control plane, modelled and proved in Dafny

AutoVPN changes a live VPN server through APIs that may lose replies, and keeps what it did in one SQLite database.
This project models that database and the programs that write it, and proves what they keep over whole runs, with crashes
between any two transactions, startup recovery, expired leases, stalled workers and adversarial replies. Where a property
needs that a live worker is not taken over, or that a write is not refused, its lemma says so.

## How the model is built

- **Tables and transactions.** `Tables` holds the tables as values; `ConfigStore`, `Snapshots`, `Operations` and
  `ApplyResults` hold one function for each `with get_db()` block, from the tables before to the tables after, or to the
  exception it raises (`Tx`). `Tx.Or` is the rollback. `OperationRows` holds what concerns one operation row.
- **Mutable state.** `ConfigTables`, `OperationTables` and `Database` are the same transactions as classes whose methods
  write their fields step by step, loop over hosts, clients and active rows, and roll back when they raise. Each method is
  proved equal to the transaction function, so that what is proved of the functions holds of the step-by-step code.
- **Runs.** `History.Event` is any transaction by anybody. A crash is the absence of the transactions that would have
  followed. `History`, `Leases`, `Decisions`, `SshDecisions`, `Reachable`, `Claims`, `RouterApi` and `ApplyResults` prove
  invariants over every sequence of events; `DecisionRuns` shows that the empty database meets what they start from, and
  builds a run that behaves and still takes a cleanup up beside an open decision.
- **Protocols.** `AezaRotation`, `SprintChain` and `Reboot` are step machines: one step for each row update, provider
  request or check, with the outcome of each request chosen by an adversary, and a crash, a recovery or a takeover of
  the lease possible between any two steps. In `AezaRotation` the database may also refuse any write. Programs have a
  program counter of their own: one that is taken over goes on writing when it wakes up, because `update_operation` does
  not ask who writes. `AezaLink` and `SprintLink` prove that each write of a program is one database transaction, and
  that it meets what the run theorems ask of workers.
- **The SprintBOX chain.** `SprintChain` is the machine; `SprintPrograms` says what rows and programs always satisfy;
  `SprintConservation`, `SprintMildSteps`, `SprintMoves`, `SprintPublishes` and `SprintRuns` account for every box;
  `SprintRequests` and `SprintSending` count what is sent; `SprintWrites` says what is written; `SprintStalls` and
  `SprintSecondInstall` are about the second installation; `SprintSteps`, `SprintHeirs`, `SprintSoleHeirs`, `SprintStuck`,
  `SprintForgotten` and `SprintRescue` about the boxes of attempts that were not published; `SprintCleanup` holds the two
  loops.
- **Server side.** `RemoteApply` and `BackupPrune` model the rendered apply script, `DeployLoop` the deploy loop with a
  clock in `real`.

Lists that the source sorts by a unique key are maps. Settings keys are a datatype (`Tables.Key`, with `KeyName` giving
the text the prefix tests see). JSON text is the record it encodes; SHA-256 is an injective symbol (`Digest`). The bound
provider and the SprintBOX context of an operation, settings rows in the source, are columns of the operation. A soft
deletion is its revision. Where the code reads process-wide defaults they are constant in one `Env`. Provider ids are
fresh, a success reply means the request took effect, and an effect happens before its reply or timeout.

## Findings

Each names the input and the lemma with the exact condition.

- `set_setting` takes the empty text and an absent row for equal, the capture does not. A blank written to an absent
  protocol key breaks "one revision, one content" (`Snapshots.SetSettingIsSafeExactlyWhen`,
  `Snapshots.SetSettingsIsSafeExactlyWhen`, `Reachable.SilentWriteBreaksPreparation`). `app/main.py:590-592` keeps to the
  rule.
- `update_operation` has no guard: exactly a stalled worker that reports an active status revives its row
  (`Leases.UpdateIpKeepsLeaseExactlyWhen`).
- The checks of a new rotation and of a queued cleanup run before they take an expired lease over. So a rotation starts
  beside a hold, or beside an open SSH decision, exactly when that very takeover makes one
  (`Decisions.StartsBesideHoldExactlyWhen`, `SshDecisions.StartsBesideDecisionExactlyWhen`).
- `prepare_cleanup` does not ask whether an SSH decision is open, so a cleanup runs beside one exactly when one was open
  before or its takeover makes one (`SshDecisions.CleanupBesideDecisionExactlyWhen`). It happens in a run in which every
  worker and every caller keeps to its rules (`DecisionRuns.CleanupBesideDecision`).
- An Aeza operation can end FAILED with the new address published and the old one made main again: exactly when the
  database refuses a write that the program makes after the publication while the old address is still there
  (`AezaRotation.RefusalDisagreesExactlyWhen`). The handler asks whether the main address was switched, not whether it was
  published (`app/ip_change.py:533-595`).
- A SprintBOX operation can be installed twice, or a decision be open over an installed box, exactly when a queued wait
  begins to install beside a living program of the same operation (`SprintSecondInstall.FirstJoinDecides`). Every program
  that has not begun to install leads there when its lease is taken over
  (`SprintSecondInstall.StalledProgramInstallsAgain`, `SprintSecondInstall.StalledProgramReopensDecision`,
  `SprintSecondInstall.InstallsTwiceInSomeRun`), and nothing does as long as no operation is taken over while it is being
  installed (`SprintStalls.SparedInstallsOnce`).
- A box that is neither active nor retained nor gone comes to rest in some run exactly when an attempt that lists it can
  still be published (`SprintRescue.RestsInSomeRunExactlyWhen`); otherwise nothing ever counts on it again
  (`SprintForgotten.ForgottenForGood`). Three ways to get there: a change of the configuration, which outdates every
  unpublished attempt (`SprintForgotten.ChangeForgets`); an SSH retry that fails before it buys
  (`SprintForgotten.FailedRetryForgets`); and giving up. Cancelling names the boxes to the operator
  (`app/sprintbox_review.py:141-144`), the failing retry and the change do not. A retry that publishes or is itself
  followed up carries the box on (`SprintHeirs.RetryCarriesOn`).
- An install whose lease was taken over ends FAILED and not AMBIGUOUS
  (`DeployLoop.UncertainEndIsAmbiguousExactlyWhen`, `DeployLoop.TakenOverInstallEndsFailed`).
- A reboot is sent a second time only if the exception handler withdraws the mark of another invocation
  (`Reboot.SecondNeedsWithdrawal`), and then it can be (`Reboot.WithdrawalSendsAgain`, `Reboot.TwoInvocationsSendTwice`).
  No caller gets there: `app/main.py:1354-1359` schedules one runner for each operation.

## Model

| member | source | states |
|---|---|---|
| VpnConfig.DecodeEncode | app/vpn_config.py:270-328 | reading a stored snapshot gives back the captured configuration without its disabled clients |
| VpnConfig.EncodeDecode | app/vpn_config.py:270-328 | writing back what was read is the same record if and only if none of the historical gaps is in it |
| VpnConfig.RepublishedRecord | app/vpn_state.py:249-257 | a rotation publishes the record that a capture with the new address, time and revision would give |
| Capture.CaptureReads | app/vpn_config.py:123-131 | a capture succeeds only if every protocol and number parses, and holds those readings |
| Capture.CaptureFrame | app/vpn_config.py:157-248 | the capture depends on the named settings, live clients, served peers and desired revision alone |
| Snapshots.CapturedKeysAreVpn | app/db.py:156-166 | every captured key is recognised by the prefix test that decides on a revision bump |
| Snapshots.SilentWriteChangesRecord | app/db.py:385-391 | a silent blank changes the captured record or makes it unreadable, without a bump |
| Snapshots.SetSettingIsSafeExactlyWhen | app/db.py:385-391 | with the desired revision stored, a settings write keeps "one revision, one content" if and only if it is not a silent blank |
| Snapshots.SetSettingsKeeps | app/db.py:394-414 | a batch that keeps to the callers' rule keeps "one revision, one content", marked or not |
| Snapshots.SetSettingsIsSafeExactlyWhen | app/db.py:394-414 | a marked batch keeps it if and only if something in it counts as a change or nothing in it is a silent blank |
| Snapshots.ClientMutatorsBump | app/db.py:480-566 | every client mutator bumps the revision or leaves the capture as it was |
| Snapshots.ClientMutatorsShow | app/db.py:517-566 | enabling, renaming or deleting a client changes that one entry of the captured clients as named, and no other |
| Snapshots.NewClientShows | app/db.py:480-514 | a created client is captured under its new id, enabled and with its allocated address; the others are as before |
| Snapshots.PeerMutatorsBump | app/router_credentials.py:114-149 | creating a router, issuing a credential and adding a peer bump or leave the capture |
| Snapshots.RouterMutatorsBump | app/router_credentials.py:226-281 | enabling, disabling and deleting a router bump |
| Snapshots.RouterLeaves | app/router_credentials.py:226-281 | disabling or deleting a router takes its peer out of the capture, and no other |
| Snapshots.RouterReturns | app/router_credentials.py:226-246 | enabling a router captures its peer if and only if it has one and its client is live and enabled |
| Snapshots.RouterTitleKeepsCapture | app/router_credentials.py:249-262 | relabelling a router is not captured |
| Snapshots.InitBumpsOrKeeps | app/db.py:93-119 | generating missing secrets, client material and peers bumps exactly when something captured is generated |
| Snapshots.ResetBumpsOrKeeps | app/db.py:831-875 | the reset bumps or leaves the capture |
| Snapshots.PurgeKeepsCapture | app/db.py:569-583 | purging applied deletions with their cascades does not change the capture |
| Snapshots.PrepareKeeps | app/vpn_state.py:46-83 | preparing never finds different content, stores the capture, and never demotes APPLIED |
| Snapshots.CompleteKeeps | app/vpn_state.py:354-397 | completing applies the bound revision unless a later one is applied, and keeps the invariant |
| Snapshots.PublicationCapture | app/vpn_state.py:287-315 | what the rewritten tables capture as after a publication |
| Snapshots.PublishKeeps | app/vpn_state.py:216-316 | publishing commits if and only if the desired revision is the bound one, cannot collide, and leaves the new snapshot equal to the capture of the rewritten and purged tables |
| Addresses.FirstFreeIsLeast | app/db.py:335-356 | the host loop finds the least free host, and fails exactly when all are taken |
| Addresses.AllocateExactly | app/db.py:324-356 | the pool is exhausted exactly when all 253 hosts are reserved, and otherwise the least free one is returned |
| Addresses.AllocatedIsFree | app/db.py:335-376 | both ways of choosing an address return one that no client or peer reserves |
| Addresses.ClientRowKeeps | app/db.py:480-514 | a client row with a free or its own address keeps all reservations distinct |
| Addresses.PeerRowKeeps | app/db.py:261-297 | the same for an auxiliary peer |
| Addresses.ApplyKeepsServed | app/db.py:569-583 | applying a revision purges no client that it or a later stored revision serves |
| Addresses.PublishKeepsServed | app/vpn_state.py:249-316 | the same for a publication |
| Addresses.AppliedAddressIsNotReused | app/db.py:335-376 | an address the applied snapshot serves belongs to that client alone and is never allocated |
| ConfigSteps.FillClientsKeeps | app/db.py:219-249 | the backfill gives every client an address of its own |
| ConfigSteps.ConfigStepKeeps | app/db.py:385-583 | no configuration transaction breaks snapshots, reservations or the applied configuration |
| History.StartInstallKept | app/vpn_state.py:86-113 | preparing an install keeps the database invariant and can only fail on a bad setting or a busy lease |
| History.StartIpChangeKept | app/vpn_state.py:116-193 | preparing a rotation keeps it, and every way it can fail |
| History.PublishIpKept | app/vpn_state.py:216-333 | publishing keeps it, and commits if and only if the operation is bound to the desired revision |
| History.RecoverKept | app/operation_coordinator.py:211-229 | recovery keeps it and demotes no applied snapshot |
| History.StepKept | app/vpn_state.py:46-452 | no transaction at all breaks the invariant, changes a stored content, loses an APPLIED mark or moves a counter back |
| History.RunKept | app/vpn_state.py:46-452 | the same over every run |
| Reachable.ContentErrorsAreUnreachable | app/vpn_state.py:59-65 | in every reachable database the content error and the revision collision cannot occur, with the complete list of what can |
| Reachable.AppliedOnlyAdvances | app/vpn_state.py:364-386 | the applied revision is at most the desired one, names a stored APPLIED snapshot, and never goes back |
| Reachable.AppliedAddressesAreReserved | app/db.py:550-583 | over every run, no address of a client in the applied snapshot is handed to anybody else |
| Reachable.SilentWriteBreaksPreparation | app/db.py:388-390 | a run of three transactions after which preparing raises the content error, when the callers' rule is broken |
| Leases.RecoverLeavesNothingActive | app/operation_coordinator.py:211-229 | recovery leaves no active row and no lease, from any database |
| Leases.OnlyTheOwnerReleases | app/operation_coordinator.py:136-208 | only its owner releases the lease; another takes it if and only if it has expired |
| Leases.AcquireKeepsLease | app/operation_coordinator.py:136-170 | taking the lease over closes the old owner's row, so that exactly the new owner is active |
| Leases.UpdateIpKeepsLeaseExactlyWhen | app/db.py:720-736 | an update keeps the lease exclusive if and only if it comes from the owner or does not report an active status |
| Leases.StepKeepsLease | app/db.py:720-796 | every transaction keeps the lease exclusive when row updates come from the owner |
| Leases.LeaseIsExclusive | app/operation_coordinator.py:136-229 | over all runs without expiry of a live worker, at most one operation of the three tables is active and it is the lease owner |
| Decisions.ReconcilableExactlyWhen | app/db.py:672-697 | a closed row on hold is accepted by reconciliation if and only if its ambiguity is also its status |
| Decisions.HoldIsResolved | app/db.py:672-697 | reconciling ends the hold of that operation, changes nothing else and works once |
| Decisions.HoldsAreResolvable | app/vpn_state.py:134-150 | in every reachable state each closed row on hold can be reconciled and then stops matching, leases expiring or not, when no worker closes a row with the action AMBIGUOUS and another status; the two link lemmas show that the rotation programs do not |
| Decisions.NoRotationOnHold | app/vpn_state.py:116-150 | a rotation starts only with no hold and no other open decision at the start of its transaction |
| Decisions.StartsBesideHoldExactlyWhen | app/vpn_state.py:134-174 | whatever it follows up, it ends up beside a hold if and only if it takes over the lease of an operation that may have acted |
| SshDecisions.AtMostOneDecision | app/vpn_state.py:123-130 | over runs in which no starting rotation takes a waiting operation over, there is at most one open SSH decision, nothing is deployed or published for it, and only a cleanup can be active beside it |
| SshDecisions.DecisionIsNeeded | app/sprintbox_review.py:90-147 | wait, retry and cancel are refused without an open decision |
| SshDecisions.DecisionIsConsumed | app/sprintbox_review.py:90-147 | each of them closes the decision, whatever lease it takes over, so that it is taken once |
| SshDecisions.CleanupBesideDecisionExactlyWhen | app/sprintbox_review.py:79-87 | a queued cleanup is active beside an open decision if and only if one was open before or the lease it takes over makes one |
| SshDecisions.StartsBesideDecisionExactlyWhen | app/vpn_state.py:123-174 | a new rotation is active beside an open decision if and only if the lease it takes over makes one |
| DecisionRuns.RunsMayStart | app/migrations.py:53-235 | the empty database meets every invariant that the theorems about runs start from |
| DecisionRuns.CleanupBesideDecision | app/sprintbox_review.py:79-87 | a run from the empty database, by workers and callers that keep to their rules, after which a cleanup is active beside an open decision |
| Claims.ClaimedAtMostOnce | app/sprintbox_rotation.py:140-147 | over every run, concurrent and repeated workers included, the claim before box/add is won at most once per operation |
| RowMarks.EventStays | app/operation_coordinator.py:44-133 | no other transaction takes a purchase mark back or touches a publication |
| AezaAddresses.FindMainIpIsMain | app/ip_change.py:80-92 | with a true list, the main address is found if and only if it is the published one or none is published |
| AezaAddresses.FindNewIpIsNew | app/ip_change.py:95-122 | the address taken for the new one is listed and never the old one |
| AezaPolling.WaitForNewIp | app/ip_change.py:159-189 | the loop returns the first list that shows the new address, and stops at the first error or after its attempts |
| AezaPolling.WaitForMainIp | app/ip_change.py:192-215 | it confirms if and only if a list before any error and within the attempts shows the expected main address |
| AezaPolling.AttemptsSpanTimeout | app/ip_change.py:171-171 | the number of attempts covers the timeout and no more than one interval beyond |
| AezaPolling.OnlyNewAddressIsFound | app/ip_change.py:114-122 | without an id or address in the reply, the only unknown address of the list is found |
| AezaRotation.StepKeeps | app/ip_change.py:359-617 | the invariant that ties program, row, published address and provider is kept by every step, crash, takeover, reply and refused write, unless it is refused after the publication |
| AezaRotation.RotationAgrees | app/ip_change.py:327-617 | DONE leaves published and main address both at the new one, FAILED leaves both at the old one with nothing published, when no write is refused after the publication |
| AezaRotation.RefusalDisagreesExactlyWhen | app/ip_change.py:533-615 | a refused write can break that if and only if it comes after the publication and the old address is still there |
| AezaRotation.ActsAtMostOnce | app/ip_change.py:372-388 | one purchase, one switch to the new address and one deletion at most, over crashes, recoveries, later invocations and refused writes |
| AezaRotation.DeletionIsSafe | app/ip_change.py:523-570 | only the old address is deleted, after publication and the required checks, never with AmneziaWG; unless a late write was refused, a failed run neither published nor deleted |
| AezaRotation.OutdatedNeverPublishes | app/ip_change.py:141-146 | once the desired revision moves before publication, the operation never publishes, deletes or ends DONE |
| AezaRotation.HoldIsWellFormed | app/ip_change.py:595-615 | a rotation's row on hold can always be reconciled, takeovers of a live worker and refused writes included |
| AezaLink.PublicationIsTheTransaction | app/vpn_state.py:241-333 | the publication step is the publishing transaction seen from its operation |
| AezaLink.EveryUpdateMeetsTheRules | app/ip_change.py:359-617 | in every state of the machine the next write of the program is one update_operation, which meets what holds and SSH decisions ask of workers |
| SprintChain.LatestPublished | app/sprintbox_review.py:64-75 | the query takes the latest published row for that box and address |
| SprintPrograms.StepKeepsRows | app/sprintbox_rotation.py:88-271 | what rows and programs always satisfy, step by step, stalled and superseded programs included |
| SprintMoves.RetainedIsKept | app/sprintbox_review.py:62-76 | collecting finds exactly the publisher's set and adds the active box |
| SprintRuns.StepConserves | app/sprintbox_rotation.py:122-136 | every step of every program, stalled ones included, keeps every box accounted for |
| SprintConservation.OpenMeans | app/sprintbox_rotation.py:193-224 | an open attempt is under way, waits for a decision, or was given up: ambiguous, cancelled, or a failed SSH retry |
| SprintRuns.BoxesAreConserved | app/sprintbox_rotation.py:122-331 | with nothing under way or given up, the retained set is what was bought, less the active box, less what is gone |
| SprintRuns.NoBoxIsForgotten | app/vpn_state.py:176-185 | in every state a bought box is active, retained, gone, or charged to an attempt under way, undecided or given up |
| SprintSending.RequestsAreSentOnce | app/sprintbox_rotation.py:294-331 | one order for each operation; deletions are of older boxes, never of the active one, each once for each operation; programs stalling at will |
| SprintSending.SecondDeploymentNeedsRepeat | app/sprintbox_rotation.py:222-224 | an operation is installed twice only if a deployment was marked over the mark of another |
| SprintSending.RepeatDeploysAgain | app/sprintbox_rotation.py:222-224 | in every run, a program that has reached the box of an operation that was installed marks over the mark of that installation and sends the script again |
| SprintStalls.InstalledOnce | app/sprintbox_rotation.py:204-251 | no operation is installed twice in a run in which no queued wait begins to install beside a living program of the same operation |
| SprintStalls.SparedInstallsOnce | app/operation_coordinator.py:136-170 | nor is it when no lease is taken over while its operation is being installed |
| SprintSecondInstall.InstallsTwiceExactlyWhen | app/sprintbox_rotation.py:222-251 | while one program at a time installs, a step makes a second installation possible, without a further wait that joins a program, if and only if it is such a wait |
| SprintSecondInstall.ReopensExactlyWhen | app/sprintbox_rotation.py:210-217 | the same for a decision over a box that was installed |
| SprintSecondInstall.FirstJoinDecides | app/sprintbox_rotation.py:204-251 | both after every run in which no wait joined a program |
| SprintSecondInstall.StalledProgramInstallsAgain | app/sprintbox_rotation.py:210-224 | from every state with a program that has not begun to install a current box, a run installs twice, unless it has found the box and its row no longer waits |
| SprintSecondInstall.StalledProgramReopensDecision | app/sprintbox_rotation.py:210-217 | or it opens a decision over a box that was installed |
| SprintSecondInstall.InstallsTwiceInSomeRun | app/sprintbox_rotation.py:210-224 | such a run exists from every initial state |
| SprintRuns.OneBoxPerOperation | app/sprintbox_rotation.py:140-163 | no operation buys two boxes |
| SprintHeirs.RetryCarriesOn | app/vpn_state.py:176-185 | a retry has the boxes of the attempt it follows up in its set unless they are gone; as the publisher it retains them, and its own retry has them too |
| SprintSoleHeirs.OneAnswersForEachBox | app/vpn_state.py:176-185 | without the takeover of an operation that is being installed, exactly one open attempt answers for each box that is neither active, retained nor gone |
| SprintStuck.StepStays | app/sprintbox_review.py:90-112 | no step makes an attempt that cannot be published one that can: outdated, or without a program that buys or installs and without a decision |
| SprintForgotten.ForgottenExactlyWhen | app/vpn_state.py:176-185 | such a box is forgotten if and only if the attempt that answers for it cannot be published any more |
| SprintRescue.RestsInSomeRunExactlyWhen | app/vpn_state.py:176-185 | in every state, whatever stalled: a box that is neither active, retained nor gone becomes so in some run if and only if it is not forgotten |
| SprintForgotten.ChangeForgets | app/vpn_state.py:241-247 | a change of the configuration forgets every such box |
| SprintForgotten.ForgottenForGood | app/vpn_state.py:176-185 | in no later run, stalls and takeovers included, does anything count on it again |
| SprintForgotten.ForgottenIsNotAskedFor | app/sprintbox_rotation.py:294-331 | nor is its deletion asked for |
| SprintForgotten.FailedRetryForgets | app/vpn_state.py:176-185 | an SSH retry that fails on whatever path before its purchase loses the box it follows up for good |
| SprintLink.EveryWriteIsATransaction | app/sprintbox_rotation.py:88-331 | in every run, what a program of the chain does next to its row is one transaction, which meets what holds ask of workers |
| SprintLink.EveryWriteMeetsTheRules | app/sprintbox_rotation.py:204-217 | it meets what SSH decisions ask of workers in every run in which no wait joins a living program |
| SprintCleanup.CollectRetained | app/sprintbox_review.py:62-76 | the loop returns the set of the latest row of the same account, and the old box |
| SprintCleanup.InheritedFromPublisher | app/sprintbox_review.py:62-76 | with one account that is the set the chain conserves |
| SprintCleanup.DeleteOne | app/sprintbox_rotation.py:297-331 | one turn: a request only for a member that is neither active nor tried before, its mark saved first, its outcome saved last |
| SprintCleanup.DeleteRetained | app/sprintbox_rotation.py:294-331 | the whole loop: members only, never the active box, none twice, and what leaves the set is what is recorded gone |
| SprintCleanup.CleanedSet | app/sprintbox_rotation.py:326-329 | the retained set loses exactly the boxes recorded deleted or absent |
| Reboot.RebootIsSentOnce | app/server_operations.py:448-617 | with one invocation at a time at most one reboot is sent; DONE needs an acknowledged one; a lost reply stays open or ambiguous |
| Reboot.QueuedInv | app/server_operations.py:108-124 | a queued reboot meets the invariants |
| Reboot.SecondNeedsWithdrawal | app/server_operations.py:599-617 | with any number of invocations, crashes and takeovers at most one reboot is sent unless the handler withdraws the mark of another invocation |
| Reboot.WithdrawalSendsAgain | app/server_operations.py:599-617 | after such a withdrawal a further invocation sends again |
| Reboot.TwoInvocationsSendTwice | app/server_operations.py:599-617 | an interleaving in which this happens |
| RemoteApply.Host.PrepareBackup | app/remote_apply.py:357-396 | the backup is finished if and only if none of its commands fails, and is then a complete copy of the live files and of their absence |
| RemoteApply.Host.Rollback | app/remote_apply.py:451-464 | the files that are not restored are exactly those with a failing command among their own restore commands; every other one is as it was |
| RemoteApply.Host.SwitchFiles | app/remote_apply.py:502-515 | it succeeds if no command fails, and then each enabled protocol has its staged files and each disabled one none |
| RemoteApply.Host.SwitchServices | app/remote_apply.py:490-519 | it succeeds if every command succeeds and takes effect, and then every enabled service is active and every disabled one stopped and disabled |
| RemoteApply.Host.Apply | app/remote_apply.py:308-541 | the whole script: the flag is passed if and only if nothing before it fails; untouched before the flag; after it the unrestored files are exactly those whose restore commands fail; with no failure the wanted files and services |
| BackupPrune.PruneBackups | app/remote_apply.py:404-410 | the first ten of the sorted names are kept and the rest removed |
| BackupPrune.PaddedOrder | app/remote_apply.py:366-369 | for every revision the database can hold, padded revisions order as text as they do as numbers |
| BackupPrune.PruningKeepsTheHighest | app/remote_apply.py:404-410 | kept names are greater than removed ones, and no removed backup is of a higher revision than a kept one |
| DeployLoop.RunDeploy | app/eu_install.py:699-738 | the loop ends by its deadline, heartbeats at most an interval apart, and cannot lose a lease longer than that |
| DeployLoop.OnlyCleanExitApplies | app/eu_install.py:758-806 | only a clean exit applies the revision; any other end moves nothing that is applied |
| DeployLoop.UncertainEndIsAmbiguousExactlyWhen | app/vpn_state.py:427-452 | an uncertain end is recorded as ambiguous if and only if the operation is still open |
| DeployLoop.TakenOverInstallEndsFailed | app/eu_install.py:729-733 | after a takeover the heartbeat is refused and the install stays failed |
| RouterApi.PublicationIsStable | app/router_api.py:138-146 | the publication time found for a revision does not depend on later operations |
| RouterApi.ViewDependsOn | app/router_api.py:111-341 | the response depends on the applied snapshot and its publication alone |
| RouterApi.DualExtendsPlain | app/router_api.py:307-331 | the dual response adds to the plain one its schema number and, if and only if AmneziaWG is on and the snapshot has this router's peer, an auxiliary profile |
| RouterApi.ResponseFollowsSnapshot | app/router_api.py:268-304 | a profile is there if and only if its protocol was enabled when applied, and each points at the applied address |
| RouterApi.ViewIsIndependentOfDesiredState | app/router_api.py:111-341 | over any run without a completed install, a publication or a reset, response and ETag are unchanged |
| ApplyResults.RecordMeans | app/router_apply_results.py:276-370 | an answer is the stored row with the applied revision and hash of that moment; a refusal changes nothing |
| ApplyResults.ResultsAreImmutable | app/router_apply_results.py:276-370 | over runs: one row for each credential and key, backed by the snapshot it names, never rewritten |
| ApplyResults.RowOutlivesRevisions | app/router_apply_results.py:412-432 | a row is there for as long as its router, whatever revision is applied |
| ApplyResults.LaterPutIsReplayed | app/router_api.py:554-585 | a later request is answered from the stored row: with it if and only if body and ETag agree, else with the conflict named |
| ApplyResults.RacingPuts | app/router_api.py:604-635 | of two requests past their lookup, the second is answered with the first's row if and only if body and ETag agree and the revision has not moved |
| ApplyResults.FirstPutIsAcceptedExactlyWhen | app/router_api.py:554-635 | a first request is accepted if and only if at the second transaction its ETag and body name what is served, and at the third its revision and hash are still applied |
| ApplyResults.UndisturbedPut | app/router_api.py:554-635 | with nothing completed, published or reset in between the second transaction decides, and the stored ETag is of a response still served |
| ConfigTables.ConfigConnection.Set | app/db.py:385-391 | the write and the bump, as the whole transaction |
| ConfigTables.ConfigConnection.SetMany | app/db.py:394-414 | the loop over the batch, as one write with at most one bump |
| ConfigTables.ConfigConnection.AllocateAddress | app/db.py:335-356 | the loop over the hosts, as the allocator function |
| ConfigTables.ConfigConnection.AddClient | app/db.py:480-514 | creating a client, all or nothing |
| ConfigTables.ConfigConnection.EnableClient | app/db.py:517-531 | the flag and the bump; nothing for a missing, deleted or unchanged client |
| ConfigTables.ConfigConnection.RenameClient | app/db.py:534-547 | the name and the bump; nothing for a missing, deleted or unchanged client |
| ConfigTables.ConfigConnection.RemoveClient | app/db.py:550-566 | the soft deletion remembers the bumped revision |
| ConfigTables.ConfigConnection.PurgeDeletedClients | app/db.py:569-583 | the purge row by row, with its cascades |
| ConfigTables.ConfigConnection.AddRouter | app/router_credentials.py:114-149 | creating a router with its peer; a full pool leaves no trace |
| ConfigTables.ConfigConnection.EnableRouter | app/router_credentials.py:226-246 | the flag and the bump, refused for an unknown router |
| ConfigTables.ConfigConnection.RemoveRouter | app/router_credentials.py:265-281 | the router and its peer go with one bump |
| ConfigTables.ConfigConnection.EnsureRouterPeer | app/db.py:261-308 | a peer is added with a bump only where there is none |
| ConfigTables.ConfigConnection.FillMissing | app/db.py:219-249 | the backfill loop; a full pool undoes it |
| ConfigTables.ConfigConnection.Ensure | app/vpn_state.py:46-83 | storing or finding the desired snapshot |
| ConfigTables.ConfigConnection.Publish | app/vpn_state.py:241-316 | the configuration half of a publication |
| OperationTables.OperationConnection.Update | app/db.py:720-736 | the unguarded row update, then release or heartbeat |
| OperationTables.OperationConnection.ReconcileRow | app/db.py:672-697 | the reconciliation with its refusals |
| OperationTables.OperationConnection.Claim | app/sprintbox_rotation.py:140-145 | the compare-and-set |
| OperationTables.OperationConnection.MarkReboot | app/server_operations.py:156-174 | the compare-and-set before a reboot |
| OperationTables.OperationConnection.HeartbeatInstallRow | app/db.py:799-808 | the heartbeat of an open install, and its answer |
| Database.Connection.FailOperation | app/operation_coordinator.py:44-133 | closing an interrupted operation |
| Database.Connection.AcquireLease | app/operation_coordinator.py:136-170 | taking a free or expired lease |
| Database.Connection.StartInstall | app/vpn_state.py:86-113 | the install preparation, rolled back when the lease is busy |
| Database.Connection.StartIpChange | app/vpn_state.py:116-193 | the rotation preparation, rolled back when the lease is busy or the provider unknown |
| Database.Connection.FinishInstall | app/vpn_state.py:354-397 | completing an install |
| Database.Connection.AbandonInstall | app/vpn_state.py:400-424 | failing an install |
| Database.Connection.LeaveInstallUncertain | app/vpn_state.py:427-452 | marking an open install ambiguous |
| Database.Connection.ResumeWait | app/sprintbox_rotation.py:235-251 | taking a queued wait up, or giving the decision back with its lease |
| Database.Connection.StartServer | app/server_operations.py:108-124 | the status or reboot row and its lease, rolled back when the lease is busy |
| Database.Connection.Publish | app/vpn_state.py:216-333 | the publication of both halves |
| Database.Connection.RecordResult | app/router_apply_results.py:276-370 | recording an apply result |
| Database.Connection.RecoverIncomplete | app/operation_coordinator.py:211-229 | the three recovery loops, in any order of rows, as one recovery |

## Left out

- HTTP routes, templates, forms and the LuCI scripts: user interface; only what they say about callers is used.
- Network and SSH clients, health probes: adversarial replies.
- Key generation, password hashing, base64, zlib, SHA-256 internals, the JSON printer and parser: opaque values and records.
- Configuration text renderers, subscriptions, the install scripts, and the legacy AmneziaWG import text of a router response.
- Migrations and readiness checks: the initial state is a migrated, empty database.
- Timestamps, step names, messages and warnings of operations; token rotation, scopes and expiry of router credentials.
- Firewall rules and the restoration of services in the apply script: their errors are suppressed, so nothing is promised.
- The router-side programs.
- AezaRotation.RotationAgrees: nobody else moves the main address or the published one. A rotation that took the lease over from the live worker would, so the lease may be taken over here only by operations that do neither.
- AezaRotation.ActsAtMostOnce: is about one invocation of the runner at a time; only box/add has a compare-and-set that also covers two.
- Decisions.HoldsAreResolvable: that no worker closes a row with the action AMBIGUOUS and another status is assumed of each update; of the two rotation programs it is proved write by write (AezaLink.EveryUpdateMeetsTheRules, SprintLink.EveryWriteIsATransaction), not by running them inside the database runs.
- SshDecisions.AtMostOneDecision: what it asks of each update is proved of the two rotation programs in the same way (SprintLink.EveryWriteMeetsTheRules).
- SprintRuns.BoxesAreConserved: the account, the active box and the published address are not edited by the operator during the chain, and a reset ends it.
- SprintSending.RequestsAreSentOnce: run_sprintbox_rotation is scheduled once for each operation; a second invocation is refused by the claim (Claims.ClaimedAtMostOnce), which the chain machine does not repeat.
- SprintForgotten.FailedRetryForgets: a stalled program of the followed attempt could still publish its box; the run up to the failure is therefore one without such takeovers.
- SprintLink.EveryWriteIsATransaction: the publication is left to AezaLink.PublicationIsTheTransaction.
- SprintLink.EveryWriteMeetsTheRules: runs in which a wait joins a living program are excluded, because there a decision can open over an installed box (SprintSecondInstall.ReopensExactlyWhen).
- The second write of the SprintBOX context, which adds the number of the creation task and nothing that is read again.
- ApplyResults.RecordMeans: the recording transaction compares revision and hash, not the ETag, with the applied state of that moment; completing an install of the same revision again in between would change the applied time and so the ETag.
- Reset matches some operation keys by a LIKE pattern; the model tests the prefixes.
