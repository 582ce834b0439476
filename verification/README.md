# Durable actors, logs and restartable commands

A Dafny model of the parts of the system whose correctness depends on interleavings, crashes and
retries: the durable-actor runtime with its update log, mailbox migration and occurrence identity,
the wake coalescer, the self-development start and decision protocols, typed run admission, the
session workers of the capsule broker, and the two graph algorithms of doccheck.
`dafny verify dfyconfig.toml` checks everything.

How the pieces fit together:

- `Updates` is the update record, the update table and the replay order. `SQLiteLog` is the log object
  over its two tables, and `MailboxMigration` the boot-time migration that uses it.
- `ActorProtocol` is the runtime as a labelled step machine. Every region under the runtime mutex is one
  step; log appends, queries, handler results and marks are steps of their own. One label sequence is one
  interleaving; a label that is not enabled changes nothing. Handlers, log failures, evictions, panics,
  crashes and process restarts are labels. `ActorInvariants`, `ActorStepProofs` and `ActorGlobalProofs`
  prove the invariant; `ActorFrames` says what composite steps leave alone; `ActorTheorems`, `ActorRuns` and
  `ActorFates` hold the results over all runs, `ActorStranding` the runs in which the code abandons a row.
- `ActorLoop` is the goroutine as an imperative program (`loop`, `processBacklog`, `processOne`, the
  drains) against an arbitrary finite environment. It drives the step machine, so the theorems apply to
  it. `ActorRuntime` is the mutex-guarded object (`Send`, `Sweep`, `Evict`, `Stop`, `deregister`); each
  method is proved to be its step.
- `Identity`, `Coalescer`, `SelfDevStart`, `SelfDevDecision`, `RunAdmission`, `SessionWorkers`, `Texture`
  and `DocGraph` model one component each; `Texture` composes with the actor machine.

Conventions. Strings are byte strings. Digests are symbolic (equal digests mean equal preimages); that the
NUL-joined preimages determine their parts is proved for computer ids without a NUL byte (`IdentityJoin`,
`RequestJoin`). Signatures are
trusted: a receipt verifies exactly if it was issued. Clocks, timers, handlers, stores and the network are
nondeterministic answers in labels or parameters. A few state fields are history and never read by a step:
`owed`, `calls`, `received`, `folded`, `missed`, `overflow` in the actor machine, `issued` and `modes` in
the decision model, `cells` in the session model.

Where code and comments disagree the model follows the code:

- The comment on `processOne` (internal/actor/actor.go:563-566) says a failed update is caught by the next
  backlog query. After the cold drain there is none: `ColdDrainFailureStrands` gives the run.
  `PassivationLeavesExactly` is the exact condition per row; `MissedOnlyInColdDrain`,
  `DeferredOnlyByHandler` and `OwedOnlyByStranding` say which steps bring each of its cases about.
- A blocking Send that gives up after the lock (internal/actor/actor.go:268-277) returns "inbox full" and
  leaves its row to nobody, even with room in the channel: `TimeoutStrands`.
- `Wait` (internal/actor/coalesce.go:117-118) promises a batch always. Without a timeout and without events
  nothing is ever armed or sent (`NothingHeardNothingSent`, with `WaitYieldsIff` as the exact condition), and
  a started callback survives `Stop` (`StoppedFiresIff`).
- Quiescence is documented as a silent window (internal/actor/coalesce.go:14 and 26-27). A callback that
  had started before the last event still fires: `EarlyQuiescenceIff`.
- "Post-poison state is never trusted" (cmd/capsule-broker/session_worker.go:291-293 and 360-362) holds for
  requests of one activation that come one at a time (`ReuseIsClean`); `OverlapSoilsIff` says exactly which
  overlaps break it.
- A sweep is documented as the rule that re-wakes after an eviction (internal/actor/actor.go:290-291). It
  passes over an agent whose evicted activation has not deregistered yet: `SweepEnlivensIff`,
  `SweepSkipsEvicted`.
- The lookup behind idempotent admission is documented as immune to a full result window
  (internal/store/store.go:1367-1370). It takes the two rows updated last
  (internal/objectgraph/dolt_store.go:534) and drops projections afterwards, so two newer projections bury a
  run and a retry makes a second one: `AtMostOneIff`, `AtMostOneUpdatedIff`.
- A tombstone wake is documented for any failure; a failure released by silence or deadline is reported
  under that reason (`ReasonMeans`).
- The boot dispatch queue that `flushBootDispatches` drains is never filled: paused dispatches go to the log.
- An occurrence that resolves as pending is still acknowledged if the later reconcile step calls it invalid
  (internal/actorruntime/handler.go:302-306): `InvalidReconcileAcknowledges` gives the run,
  `NeverAcknowledgedEarly` and `VerdictIsExact` the exact statement.
- An approval consumes the armed mode before the operation is known to await it
  (internal/agentcore/api_self_development.go:808-905): such a request is refused and the mode spent all the
  same (`DecisionConverges`); the consumed receipt then carries a retry (`RetryAfterConsumption`).

## Model

| member | source | states |
|---|---|---|
| `Updates.OrderedUnique` | internal/actor/log_sqlite.go:59-63 | the replay order fixes the sequence: equal sets of rows have one ordered list |
| `Updates.BacklogUnique` | internal/actor/log_sqlite.go:58-77 | one table has exactly one backlog per agent |
| `Updates.OrderedIsChronological` | internal/actor/log_sqlite.go:59-64 | in plain terms the order puts the older row first and, at one instant, the id that is smaller at the first byte where the two differ, or ends there |
| `Updates.MergeOrdered` | internal/actor/log_sqlite.go:59-63 | the merge of two ordered backlogs with distinct ids is ordered |
| `Updates.MergeMembers` | internal/actor/log_sqlite.go:59-63 | the merge holds exactly the rows of both |
| `ActorGlobalProofs.StepKeepsInv` | internal/actor/actor.go:220-595 | every step of every goroutine keeps registry, delivery, coverage, fold and history invariants |
| `ActorGlobalProofs.ReachableInv` | internal/actor/actor.go:220-595 | the invariants hold after every interleaving, with evictions, panics, crashes and restarts |
| `ActorTheorems.SingleActivation` | internal/actor/actor.go:243-247 | a running, non-evicted activation is the registered one of its agent, there is at most one, and a positive cap is respected |
| `ActorTheorems.LeavingSparesOthers` | internal/actor/actor.go:490-501 | passivation and deregistration never remove another activation's entry |
| `ActorTheorems.SkipSetSound` | internal/actor/actor.go:532-559 | every skipped id is processed in the log, so skipping hides no work |
| `ActorTheorems.HeadOfLine` | internal/actor/actor.go:532-559 | inside a backlog pass a row is handled only when every earlier fetched row is processed |
| `ActorTheorems.MarkedAfterHandled` | internal/actor/actor.go:539-555 | a row is marked only after a successful handler call on that very update |
| `ActorTheorems.DeliveredOnce` | internal/actor/actor.go:229-235 | over the whole run an id enters at most one mailbox, at one position |
| `ActorTheorems.FoldedOnce` | internal/actor/actor.go:567-586 | one activation folds no id twice and its memory is the chain of its folded calls |
| `ActorTheorems.SnapshotIsFold` | internal/actor/actor.go:490-501 | every stored snapshot is one activation's fold over the memory it loaded |
| `ActorFates.MemoryIsInherited` | internal/actor/actor.go:439-442 | over every run each activation started from nothing or from the memory another activation of its agent passivated with |
| `ActorTheorems.PendingIsCovered` | internal/actor/actor.go:202-288 | in every run a pending row is in flight, parked, owed to a later activation, or covered by the resident one |
| `ActorTheorems.OwedOnlyByStranding` | internal/actor/actor.go:236-288 | the complete list of steps that leave a row to a later activation |
| `ActorFates.StepKeepsFates` | internal/actor/actor.go:236-288 | a row once received, overflowed or missed is its agent's own, no Send delivers it any more, and while its activation is registered nobody has given it up |
| `ActorFates.PassivationLeavesExactly` | internal/actor/actor.go:449-501 | per row: passivation abandons a pending row exactly if the activation missed it, it had been given up before, or the activation is deferred and no Send is delivering it |
| `ActorFates.MissedOnlyInColdDrain` | internal/actor/actor.go:449-459 | a row is missed only by a failed call or mark in the cold drain or by overflowing before its end |
| `ActorFates.DeferredOnlyByHandler` | internal/actor/actor.go:541-543 | an activation is deferred only by its handler's answer |
| `ActorTheorems.NoStrandedWake` | internal/actor/actor.go:220-288 | in calm runs a pending row of a cold agent belongs to a Send in flight; a waiting actor has it in its mailbox, in flight, or overflowed behind a non-empty mailbox |
| `ActorTheorems.QuiescentMeansDone` | internal/actor/actor.go:428-511 | a calm run at rest has processed every row |
| `ActorStranding.ColdDrainFailureStrands` | internal/actor/actor.go:449-459 | for any two updates of an agent, a reachable run in which one handler failure in the cold drain abandons the second |
| `ActorStranding.TimeoutStrands` | internal/actor/actor.go:260-278 | a reachable run in which a blocking Send gives up and the actor passivates over its row with nothing missed and nothing deferred |
| `ActorStranding.SweepSkipsEvicted` | internal/actor/actor.go:302-306 | a reachable run in which a sweep passes over an evicted entry that then deregisters and abandons its row |
| `ActorRuns.ForeignSpares` | internal/actor/actor.go:428-511 | no step of another goroutine moves an activation's program counter, memory, skip set or calls |
| `ActorRuns.DeferralWaitsForMail` | internal/actor/actor.go:444-488 | after a deferral no handler is called and nothing is folded until a further warm receive |
| `ActorRuns.LogIsDurable` | internal/actor/log_sqlite.go:42-85 | rows are never lost, rewritten or reopened over any run, crashes included |
| `ActorRuns.SnapshotIsLatest` | internal/actor/actor.go:490-501 | over any run, crashes included, a stored snapshot is the memory of its agent's latest passivation, which came from an activation that waited, unevicted, with an empty mailbox |
| `ActorRuns.LoadIsLatest` | internal/actor/actor.go:439-442 | an activation that loads starts from what its agent's latest passivation saved; from nothing if there was none or the load fails |
| `ActorRuns.AcceptedFrozen` | internal/actorruntime/adapter.go:378-404 | after delivery is released nothing more is accepted behind the sweep's back, over every run without a crash |
| `ActorRuns.AcceptedIff` | internal/actorruntime/adapter.go:378-404 | over every run the accepted dispatches are exactly the complete ones made while delivery was paused |
| `ActorRuns.ReleasedIff` | internal/actorruntime/adapter.go:378-404 | delivery is released exactly if Release came after the last crash |
| `ActorRuns.BacklogAnswer` | internal/actor/log_sqlite.go:102-118 | the sweep works on exactly the agents that have an unprocessed row |
| `ActorRuns.SweepActivatesAll` | internal/actor/actor.go:292-311 | with any cap, a sweep makes every listed agent resident exactly if it is not refused |
| `ActorRuns.SweepEnlivensIff` | internal/actor/actor.go:303-309 | an unrefused sweep leaves a listed agent with a live activation exactly if no evicted one was still registered |
| `ActorRuns.SweepReaches` | internal/actor/actor.go:292-311 | with any cap, every row in the log when an unrefused sweep queried is processed, its agent live, or its agent's evicted entry skipped |
| `ActorRuns.BootHandoff` | internal/actorruntime/adapter.go:378-404 | every dispatch accepted while paused is in the log, and after Start's sweep it is processed, its agent is live, or an evicted entry of it was skipped; without a crash none was accepted since |
| `ActorLoop.Activation.CallHandler` | internal/actor/actor.go:539-549 | the handler call succeeds to the mark, defers, fails back to its caller's place, or panics out of the loop |
| `ActorLoop.Activation.MarkUpdate` | internal/actor/actor.go:550-559 | memory and skip set change only with a successful mark |
| `ActorLoop.Activation.ProcessOne` | internal/actor/actor.go:567-586 | one channel update is folded, deferred or dropped, and the answer says whether it deferred |
| `ActorLoop.Activation.ScanBacklog` | internal/actor/actor.go:532-559 | one pass returns, or breaks off; undisturbed it folds the fetched rows in order and marks exactly those |
| `ActorLoop.Activation.ProcessBacklog` | internal/actor/actor.go:517-561 | terminates against every finite environment; returns empty only with no row pending or a cancelled context; undisturbed it folds exactly the ordered backlog |
| `ActorLoop.Activation.Drain` | internal/actor/actor.go:449-459 | both drains empty the mailbox; a deferred activation discards copies without touching memory |
| `ActorLoop.Activation.WarmRound` | internal/actor/actor.go:467-489 | a warm round that neither defers nor is cancelled ends with no pending row |
| `ActorLoop.Activation.Idle` | internal/actor/actor.go:490-509 | the idle branch saves and leaves, leaves unsaved when evicted, or waits on |
| `ActorLoop.Activation.SelectOnce` | internal/actor/actor.go:463-510 | one turn of the warm select uses up mail or environment, or ends the activation; alone with an empty mailbox it passivates |
| `ActorLoop.Activation.Loop` | internal/actor/actor.go:428-511 | an activation ends against every finite environment, panics included; left alone it saves the handler folded over its ordered backlog, marks exactly those rows and leaves |
| `ActorRuntime.Runtime.SendHead` | internal/actor/actor.go:220-235 | field by field: the recipient and the id are trimmed, a zero time becomes the current one, the rest is untouched; an empty id or recipient is refused, a failed append or a resend changes nothing |
| `ActorRuntime.Runtime.SendLocked` | internal/actor/actor.go:237-288 | the locked half is the delivery step; closed and cap refusals are exact and change nothing, a cold agent gets a fresh registered activation, a live one the update in its mailbox exactly if there is room and no blocking, with the answer of each mode |
| `ActorRuntime.Runtime.AwaitRoom` | internal/actor/actor.go:260-278 | the wait of a blocking Send is the delivery or the give-up step on the channel it took: the update is appended there, or nothing moves |
| `ActorRuntime.Runtime.ActivateLocked` | internal/actor/actor.go:314-330 | a new empty activation is registered exactly when the cap allows it, else nothing changes |
| `ActorRuntime.Runtime.SweepLocked` | internal/actor/actor.go:292-311 | the loop is the sweep step and succeeds exactly if it is neither closed nor refused; then every listed agent is resident; old entries stay and every new one is a fresh activation of a listed agent |
| `ActorRuntime.Runtime.EvictAgent` | internal/actor/actor.go:334-344 | eviction only flags the registered activation |
| `ActorRuntime.Runtime.StopAll` | internal/actor/actor.go:356-365 | exactly the registered activations are evicted and cancelled |
| `ActorRuntime.Runtime.Leave` | internal/actor/actor.go:589-595 | deregistration removes its own entry if it is still there, and nothing else |
| `SQLiteLog.Database.Insert` | internal/actor/log_sqlite.go:42-56 | idempotent append: the answer says whether the id was new, an existing row is untouched |
| `SQLiteLog.SelectBacklog` | internal/actor/log_sqlite.go:58-77 | exactly the pending rows of the agent, oldest first and by id bytes at one instant |
| `SQLiteLog.Database.Unprocessed` | internal/actor/log_sqlite.go:58-77 | the object answers with that backlog, in that order |
| `SQLiteLog.Database.SetProcessed` | internal/actor/log_sqlite.go:79-85 | marks the row if it is pending for that agent and nothing else |
| `SQLiteLog.Database.UpdateStatus` | internal/actor/log_sqlite.go:90-100 | reports existence and processing of one exact occurrence |
| `SQLiteLog.Database.AgentsWithBacklog` | internal/actor/log_sqlite.go:102-118 | exactly the agents with a pending row, each once |
| `SQLiteLog.Database.MailboxIdentities` | internal/actor/log_sqlite.go:122-142 | exactly the identities some row or snapshot carries, in ascending order |
| `SQLiteLog.Database.SaveSnapshot` | internal/actor/log_sqlite.go:144-150 | replaces one snapshot and nothing else |
| `SQLiteLog.Database.LoadSnapshot` | internal/actor/log_sqlite.go:152-160 | the stored memory, or nothing |
| `SQLiteLog.CheckPlan` | internal/actor/log_sqlite.go:177-191 | accepts exactly the valid plans |
| `SQLiteLog.RunPlan` | internal/actor/log_sqlite.go:215-244 | the rewriting pass; a change is reported exactly if some entry was active |
| `SQLiteLog.Database.RebindMailboxes` | internal/actor/log_sqlite.go:176-249 | one transaction: all of the active plan or, on any refusal or failure, nothing |
| `SQLiteLog.RebindRoutesRows` | internal/actor/log_sqlite.go:216-219 | every update keeps id, content and processed flag; only its recipient is routed |
| `SQLiteLog.RebindMergesSnapshots` | internal/actor/log_sqlite.go:220-234 | each scoped snapshot is the newer of the two, the existing one on a tie; no legacy one is left |
| `SQLiteLog.RebindMergesBacklogs` | internal/actor/log_sqlite.go:216-219 | each scoped backlog is the ordered merge of the two old ones |
| `SQLiteLog.NoLegacyLeft` | internal/actor/log_sqlite.go:215-244 | afterwards no row and no snapshot carries a legacy identity |
| `SQLiteLog.ActiveSuffices` | internal/actor/log_sqlite.go:198-213 | filtering the plan once up front equals running all of it |
| `SQLiteLog.RebindConverges` | internal/actor/log_sqlite.go:172-175 | a second run finds nothing active and changes nothing |
| `SQLiteLog.Database.PruneMailboxes` | internal/actor/log_sqlite.go:255-299 | one transaction: exactly the listed identities disappear, or nothing does |
| `MailboxMigration.Classify` | internal/actorruntime/adapter.go:453-471 | every unparsable identity becomes a plan entry or an orphan, or resolution failed |
| `MailboxMigration.PlanIsDisjoint` | internal/actorruntime/adapter.go:453-471 | with well-formed scopes no scoped id is a legacy id |
| `MailboxMigration.OnlyScopedLeft` | internal/actorruntime/adapter.go:472-498 | after pruning and rebinding every identity parses |
| `MailboxMigration.Migrate` | internal/actorruntime/adapter.go:448-499 | success means every identity parses; the closing check fails only for malformed scopes; early failures change nothing |
| `Identity.TrimSpaceTrims` | internal/actorruntime/adapter.go:218-223 | trimming leaves no Unicode white space at either end and is idempotent |
| `Identity.TrimSpaceDrops` | internal/actorruntime/adapter.go:218-223 | what trimming takes off either end is white space only |
| `Identity.SpaceIsWhiteSpace` | internal/actorruntime/adapter.go:218-223 | what counts as white space is the UTF-8 form of exactly the Unicode white space code points |
| `Identity.UvarintRoundTrip` | internal/actorruntime/adapter.go:248-251 | the length prefix decodes back, with anything following it |
| `Identity.FieldsRoundTrip` | internal/actorruntime/adapter.go:238-251 | the length-prefixed encoding decodes back to its fields for all byte strings |
| `Identity.EncodeFieldsInjective` | internal/actorruntime/adapter.go:236-251 | equal encodings have equal fields, whatever delimiters they contain |
| `Identity.BuildName` | internal/actorruntime/adapter.go:238-251 | the buffer loop builds that encoding |
| `Identity.DispatchUpdateId` | internal/actorruntime/adapter.go:218-252 | a dispatch with content gets a name exactly if it is an initial dispatch, a channel message, or a coagent result with trajectory and sender; the name decodes to the domain and the seven trimmed fields in order |
| `Identity.NameIsCanonicalDispatch` | internal/actorruntime/adapter.go:218-252 | two dispatches build one name exactly if all seven trimmed fields agree |
| `Identity.ParseOfScoped` | internal/actorruntime/handler.go:559-569 | parsing a scoped id returns the trimmed parts exactly if they are non-empty and NUL-free, and fails otherwise |
| `Identity.ParseSound` | internal/actorruntime/handler.go:563-569 | a parsed id is the join of its clean parts |
| `Identity.ScopedInjective` | internal/actorruntime/handler.go:559-561 | a scope with NUL-free trimmed parts shares its mailbox with no other scope |
| `Identity.SharedIff` | internal/actorruntime/handler.go:559-561 | a scope shares its mailbox with another exactly if its id has a second pair of NUL bytes around which all three pieces are trimmed |
| `Identity.NulCollides` | internal/actorruntime/handler.go:559-561 | a NUL between any two trimmed words of a part makes the scope share its mailbox with another |
| `Coalescer.FiresOnceExactly` | internal/actor/coalesce.go:152-177 | at most one batch; its parts are disjoint and are exactly the ids heard before it, tombstones exactly the failed ones |
| `Coalescer.BatchNamesLastCause` | internal/actor/coalesce.go:98-115 | the batch gives each failed id the cause of its last failure before it was sent |
| `Coalescer.FiredIsQuiet` | internal/actor/coalesce.go:152-177 | after the batch both timers are off, and the deadline callback starts at most once, and only with a timeout |
| `Coalescer.RepeatedSettlement` | internal/actor/coalesce.go:81-115 | completing a settled id again changes nothing; failing it replaces the cause and restarts the window |
| `Coalescer.ReasonMeans` | internal/actor/coalesce.go:98-115 | all-complete and tombstone wakes hold exactly `want` ids, without and with failures, and only they do |
| `Coalescer.WakeNeedsCause` | internal/actor/coalesce.go:62-78 | a timeout wake needs a timeout, a quiescence wake an event |
| `Coalescer.BatchIgnoresOrder` | internal/actor/coalesce.go:81-115 | runs that settle and fail the same children up to firing send the same ids, whatever timers and stops happen |
| `Coalescer.WakeIsPending` | internal/actor/coalesce.go:62-78 | without Stop an unfired coalescer has a timer or callback outstanding exactly if it has a timeout or heard an event |
| `Coalescer.WaitYieldsIff` | internal/actor/coalesce.go:117-121 | the exact condition for Wait's promise: a coalescer never stopped can still yield on its own exactly if it has a timeout or heard an event |
| `Coalescer.NothingHeardNothingSent` | internal/actor/coalesce.go:117-121 | without a timeout and without events nothing is ever sent, whatever timers, callbacks and stops happen |
| `Coalescer.StoppedFiresIff` | internal/actor/coalesce.go:124-133 | a stopped coalescer still yields in the silence that follows exactly if a callback had already started |
| `Coalescer.EarlyQuiescenceIff` | internal/actor/coalesce.go:139-150 | the exact condition for a silent window: over every run, after a settling event a quiescence wake can come before the window elapses exactly if a debounce callback had already started |
| `Coalescer.LateCallbackFires` | internal/actor/coalesce.go:139-150 | a witness: a blocked debounce callback fires although a newer event restarted the window |
| `Coalescer.Object.FireLocked` | internal/actor/coalesce.go:152-177 | the batch is sent once, with no id repeated |
| `Coalescer.Object.CompleteChild` | internal/actor/coalesce.go:81-93 | the method is the completion step and keeps the invariant |
| `Coalescer.Object.FailChild` | internal/actor/coalesce.go:98-115 | the method is the failure step and keeps the invariant |
| `Coalescer.Object.StopTimers` | internal/actor/coalesce.go:124-133 | the method is the stop step |
| `Coalescer.Object.RunCallback` | internal/actor/coalesce.go:146-150 | either timer callback, once it holds the mutex, is its step |
| `SelfDevStart.IdentityJoin` | internal/agentcore/api_self_development.go:271-274 | the identity preimage determines computer and key |
| `SelfDevStart.RequestJoin` | internal/agentcore/api_self_development.go:253-254 | the commitment preimage determines computer, key and prompt digest |
| `SelfDevStart.StepKeepsInv` | internal/agentcore/api_self_development.go:243-377 | every step of every concurrent request and every crash keeps the bindings, and the tables only grow |
| `SelfDevStart.OneStart` | internal/agentcore/api_self_development.go:251-362 | all successes under one key return one operation, whose ids are the halves of the identity digest, from one event and one prompt |
| `SelfDevStart.OtherPromptRefused` | internal/agentcore/api_self_development.go:255-262 | once a key is bound a different prompt never succeeds and never rebinds it |
| `SelfDevStart.UnauthorizedNeverStarts` | internal/agentcore/api_self_development.go:306-318 | if over a run no mode check of a key is answered as authorized, that key has no intent, event or operation, and none of its requests got past the check |
| `SelfDevStart.RetryConverges` | internal/agentcore/api_self_development.go:271-362 | from wherever crashes left the tables, an undisturbed retry succeeds exactly if nothing bound contradicts it and an operation or event is stored or the signed mode authorizes it; it appends one event, spelled out, only if none is stored; otherwise it is refused and changes nothing |
| `SelfDevStart.LostReportKeepsEvent` | internal/agentcore/api_self_development.go:318-355 | if only the report of the append is lost, the request fails with its intent bound and its event stored, and nothing else |
| `SelfDevStart.CrashEnds` | internal/agentcore/api_self_development.go:243-377 | a crash ends every unanswered request and keeps the three tables and the answers |
| `SelfDevStart.OnlyCompleteServed` | internal/agentcore/api_self_development.go:246-250 | only requests with a key and a prompt are ever served |
| `SelfDevDecision.StepKeepsInv` | internal/agentcore/api_self_development.go:702-900 | decisions, mode changes by anyone, crashes and retries keep every event authorized |
| `SelfDevDecision.EventsNameFrozen` | internal/agentcore/api_self_development.go:727-735 | every event, approval or rejection, names an existing operation, the bundle it is frozen with and one of its verifiers, and stands under its own operation and key |
| `SelfDevDecision.ForeignIsNeverServed` | internal/agentcore/api_self_development.go:727-735 | over every run a request naming another bundle or a foreign verifier consumes no mode and gets no event |
| `SelfDevDecision.ForeignIsRefused` | internal/agentcore/api_self_development.go:727-735 | from every reachable state such a request, undisturbed, is refused with no event and the register unchanged |
| `SelfDevDecision.ArmedInTime` | internal/platform/self_development_modes.go:123-200 | every armed mode was set before its expiry and for a named operation |
| `SelfDevDecision.ApprovalIsAuthorized` | internal/agentcore/api_self_development.go:1098-1128 | every approval event carries a genuine receipt that consumed, in time, a mode armed for exactly its operation, bundle, heads, pending ref, commitments and decision |
| `SelfDevDecision.AuthorizationIsSingleUse` | internal/platform/self_development_modes.go:123-200 | one armed generation yields at most one approval event |
| `SelfDevDecision.ReceiptFixesDecision` | internal/selfdevprotocol/control.go:39-64 | a consumed receipt answers for one decision, key, target, verifier and reason |
| `SelfDevDecision.RejectionConsumesNothing` | internal/agentcore/api_self_development.go:1089-1095 | a rejection never uses up an authorization |
| `SelfDevDecision.RetryAfterConsumption` | internal/agentcore/api_self_development.go:800-806 | after a crash between consumption and append the same approval completes with the consumed receipt |
| `SelfDevDecision.DecisionConverges` | internal/agentcore/api_self_development.go:736-960 | from every reachable state an undisturbed request is decided exactly if its event exists and agrees, or the operation awaits it and its receipt is consumed or the mode armed for it, by one event, which stands even if its report is lost; otherwise refused with none added, and the mode changes only if spent or lapsed |
| `SelfDevDecision.LapsedModeTurnsOff` | internal/platform/self_development_modes.go:88-118 | an undisturbed request that finds the mode armed past its expiry is refused and turns it off once, except when the key of that change was already used to arm it |
| `SelfDevDecision.CrashEnds` | internal/agentcore/api_self_development.go:702-900 | a crash ends every unanswered request and keeps register, receipts, events and answers |
| `SelfDevDecision.ArmedApprovalCompletes` | internal/agentcore/api_self_development.go:807-890 | an undisturbed approval of a mode armed once or by consensus consumes it, appends its event and leaves propose-only |
| `RunAdmission.AtMostOneIff` | internal/objectgraph/dolt_store.go:511-551 | at most one run per identity holds over every sequence of submissions exactly if no submittable identity has its run buried under two newer projections |
| `RunAdmission.AtMostOneUpdatedIff` | internal/objectgraph/dolt_store.go:534-535 | with row updates in between, which reorder the lookup, it holds exactly if no submittable identity has two projections |
| `RunAdmission.AtMostOneRun` | internal/agentcore/api.go:567-659 | with no run buried, over every sequence of submissions each typed identity has at most one run, none gets buried, and runs are never dropped |
| `RunAdmission.AcceptedRunIsOwn` | internal/agentcore/api.go:586-602 | an accepted typed submission is answered by a receipt with its own trimmed owner, profile, trimmed id and trimmed kind |
| `RunAdmission.DifferentIdentitiesDifferentRuns` | internal/agentcore/api.go:586-602 | submissions that differ in any of the four get different runs, whatever happens in between |
| `RunAdmission.FreshIsAdmitted` | internal/agentcore/api.go:639-659 | a well-formed submission of an unknown identity becomes a run, except a processor at capacity or a failing start |
| `RunAdmission.EarlyFaultFails` | internal/agentcore/api.go:590-605 | a failing fingerprint or lookup is a server error that stores nothing, reached by typed submissions only |
| `RunAdmission.AmbiguousIff` | internal/agentcore/api.go:602-610 | refused as ambiguous exactly if the two rows of the identity updated last are both runs |
| `RunAdmission.SameMeansRepeats` | internal/agentcore/api.go:90-130 | a stored fingerprint is met exactly by the same trimmed owner, the same prompt and, entry by entry, the same normalised metadata; without one, the contract entries decide |
| `RunAdmission.NewRunStores` | internal/agentcore/api.go:557-593 | a fresh row holds the submission with each normalised entry spelled out: profile name, defaulted role and source, trimmed id and kind, the rest as given |
| `RunAdmission.RetryIsDecided` | internal/agentcore/api.go:602-636 | wherever admission is unique, an existing identity is answered by its run exactly if the submission repeats it, at capacity or not, else conflict; includes runs without fingerprints |
| `RunAdmission.AdmissionIsIdempotent` | internal/agentcore/api.go:591-636 | wherever admission is unique, equal normalised submissions return the admitted run forever and unequal ones conflict |
| `RunAdmission.PrintIgnoresItself` | internal/agentcore/api.go:110-119 | the fingerprint entry never takes part in the fingerprint |
| `RunAdmission.ListHandoff` | internal/store/store.go:1371-1416 | the lookup: the two rows of the identity updated last, projections dropped afterwards |
| `RunAdmission.Handler.Submit` | internal/agentcore/api.go:519-660 | the handler computes the admission function, its failing calls included; it answers bad request exactly for a blank owner or prompt, another profile, or handoff fields that are not both present as non-blank strings |
| `SessionWorkers.SerialKeepsInv` | cmd/capsule-broker/session_worker.go:294-423 | runs whose requests are serial per activation keep the pool, map and request invariants |
| `SessionWorkers.ReuseIsClean` | cmd/capsule-broker/session_worker.go:368-423 | every cell ran on its own activation's worker after only successful or preserving cells |
| `SessionWorkers.DeadIsNeverReused` | cmd/capsule-broker/session_worker.go:294-311 | a request about to run holds a live, clean worker of its activation |
| `SessionWorkers.IntentsOnlyFromSuccess` | cmd/capsule-broker/session_worker.go:408-422 | however requests interleave, intents are returned only from cells without error, unchanged |
| `SessionWorkers.CellIsAnswered` | cmd/capsule-broker/session_worker.go:386-422 | over every run, a cell that ran without error is answered with its own intents, any other with none |
| `SessionWorkers.CellSettles` | cmd/capsule-broker/session_worker.go:386-422 | the cell reaches the worker; the answer comes at once exactly if it succeeded or failed preserving, else the worker is discarded first, and only a broken transport kills it itself |
| `SessionWorkers.AnswerHasCell` | cmd/capsule-broker/session_worker.go:386-422 | every typed result is that of a cell its request ran on a live worker |
| `SessionWorkers.InitStartsFresh` | cmd/capsule-broker/session_worker.go:331-345 | init answers with a session exactly if the spawn works, on a worker without cells, and all earlier workers of the activation are dead |
| `SessionWorkers.CloseLeavesNothing` | cmd/capsule-broker/session_worker.go:348-358 | after close no worker of the activation is live and the others are untouched |
| `SessionWorkers.AtRestClean` | cmd/capsule-broker/session_worker.go:315-327 | between requests an activation's worker is live and clean |
| `SessionWorkers.OverlapSoilsIff` | cmd/capsule-broker/session_worker.go:294-423 | after any serial run, an evaluation that overlaps an open request of its activation can run a cell after an unclean one exactly if that request is finding, running, or discarding a live worker |
| `SessionWorkers.ConcurrentReuseIsUnsafe` | cmd/capsule-broker/session_worker.go:386-418 | a witness: two overlapping requests of one activation run a cell on a poisoned worker |
| `SessionWorkers.Broker.SessionFor` | cmd/capsule-broker/session_worker.go:294-311 | the live worker or a new one; a dead one is replaced |
| `SessionWorkers.Broker.DropSession` | cmd/capsule-broker/session_worker.go:315-327 | the worker is forgotten and dead; idempotent |
| `SessionWorkers.Broker.InitSession` | cmd/capsule-broker/session_worker.go:331-345 | the old worker is dead, the new one unused, other activations keep theirs |
| `SessionWorkers.Broker.CloseSession` | cmd/capsule-broker/session_worker.go:348-358 | the activation has no worker, its old one is dead, others keep theirs |
| `SessionWorkers.Broker.GoEval` | cmd/capsule-broker/session_worker.go:368-423 | past the deadline nothing happens; otherwise the cell runs on the activation's live worker or a new one, is answered with its own outcome and, if it succeeded, its intents, and the worker stays exactly if the cell succeeded or was preserving |
| `Texture.VerdictIsExact` | internal/actorruntime/handler.go:272-335 | a call acknowledges exactly what it dismissed, what a pending occurrence's executed activation disposed of, or what reconcile called invalid; it is retried exactly if only its memory is missing; every other outcome defers |
| `Texture.EnvelopeDecides` | internal/actorruntime/handler.go:283-296 | for an undisposed occurrence, a row with no sender or the producer, or "owner:" and the owner for an owner's instruction, and no or its own trajectory is acknowledged only if carried out or called invalid; any other sender or trajectory is dismissed |
| `Texture.AcknowledgedAfterVerdict` | internal/actorruntime/handler.go:272-335 | over handler and actor loop, a marked Texture row had a call that dismissed it, carried it out, or found it pending and then invalid |
| `Texture.NeverAcknowledgedEarly` | internal/actorruntime/handler.go:272-335 | a row whose occurrence resolves as pending at every successful call is marked only after an activation disposed of it or a reconcile step called it invalid |
| `Texture.PendingInvalidExists` | internal/actorruntime/handler.go:302-306 | a Texture update and answers of that kind exist |
| `Texture.InvalidReconcileAcknowledges` | internal/actorruntime/handler.go:302-306 | for every such update and answer a reachable run that marks a pending occurrence's row with no activation executed |
| `DocGraph.FindGraphCycle` | cmd/doccheck/main.go:1105-1144 | empty exactly if the graph has no cycle; otherwise a closed walk of real edges repeating only its ends |
| `DocGraph.CycleFinder.Visit` | cmd/doccheck/main.go:1113-1136 | the recursion returns a cycle or marks the node visited, on ever fewer untouched nodes |
| `DocGraph.ReachableDocs` | cmd/doccheck/main.go:748-775 | exactly the paths some entry or authority root reaches; the worklist terminates |
| `DocGraph.ReachableIsLeast` | cmd/doccheck/main.go:748-775 | that set contains the roots, is closed under edges and is least |

## Left out

- Blocking Send liveness, exactly-once across activations, and a snapshot that reflects all processed updates: the code does not promise them.
- NoStrandedWake: stated for runs without eviction, panic, stop, crash, boot dispatch, cap refusal, deferral, blocking mode or cold-drain failure; `PendingIsCovered` and `OwedOnlyByStranding` cover the rest.
- Time values, backoff lengths and timer durations; timers fire whenever a label says so.
- SQLiteLog.RebindRoutesRows: plans in which a scoped id is another entry's legacy id are excluded, because their outcome depends on plan order.
- SelfDevStart.RetryConverges: serves one request to its end; under interference only the safety results apply.
- SelfDevStart.OneStart: computer ids that contain a NUL byte are taken to have distinct digests too; that two identity digests can agree in one half, and the run that `ensureSelfDevelopmentRun` starts, are not modelled.
- SelfDevDecision.ApprovalIsAuthorized: one computer; the reduction of a consensus bundle and the operation's later transition are answers of the environment.
- RunAdmission.AtMostOneRun: the running-processor count is an input, since the runtime reads it from a bounded listing; rows with equal update times stand in some fixed order.
- SessionWorkers.OverlapSoilsIff: one overlapping evaluation per activation; process groups, sockets and deadlines are reduced to the outcome of a cell.
- Texture recovery dispatch, Super and Researcher branches of the handler, and what an activation executes.
- Genesis and rollback handlers, HTTP decoding and routing, JSON, SHA and Ed25519 themselves, SQL text and WAL.
- The text scans of doccheck, the command-line tools, gateway, mail, desktop and frontend.
