# Verified models of the platform's stateful cores

This project models seven stateful cores of the platform in Dafny and proves what they
promise, for every input and every interleaving:

- **Terminal-event projector** (`Rollups`, `Projector`, `ProjectorProofs`, `ProjectorTheorems`,
  `ProjectorHandler`, `ProjectorStatus`, `ProjectorOrigins`). Messages are delivered at least once, handlers crash,
  acknowledgements are lost and a commit may land and still report an error. The step system has one
  step per awaited database call or acknowledgement, row and key locks, the archive sweep and the
  cancel endpoint.
- **Inference router** (`Routing`, `RouterCancel`, `RouterMetrics`, `RouterStream`,
  `RouterProtocol`, `RouterProofs`, `RouterTheorems`, `RouterFairness`, `RouterLimits`, `RouterAccounts`,
  `RouterRuns`, `RouterObjects`). Concurrent requests select, are admitted, register, are forwarded and end, against
  cancels, client disconnects and hot swaps of the replica table. Replicas have identity: a swap
  creates new objects and leaves the old ones to the requests that hold them.
- **Demo seeder** (`DemoSeeder`). Retry until no progress, purge and reset, as a least fixpoint.
- **Petri-net families and event replay** (`PetriNet`, `NetFamilies`, `EventLog`, `TokenLedger`, `Hydration`).
  Builders of parametric nets, what every firing schedule of them does, the bounded event store, and
  a replay that may stop anywhere.
- **Racing seeders** (`SeederRace`). Resolve, create, resolve again, by any number of boots against
  one unique path, on top of the two-phase create.
- **Runner grants** (`RunnerGrants`, `GrantTheorems`, `GrantMeaning`). Subject patterns with `*` and `>`.
- **Markdown blocks, invoices, ids** (`Markdown`, `MarkdownBlocks`, `MarkdownMeaning`, `MarkdownTests`,
  `Invoice`, `InvoiceMeaning`, `NetIds`).

`Wrappers`, `Folds` and `Text` hold shared definitions. `dafny verify dfyconfig.toml` checks
everything.

## What the proofs turned up

Where a promise does not hold of the code as it stands, the model keeps the code, gives the
input, and proves the exact condition.

- The cancel endpoint finishes an instance without folding it into the rollups
  (`service/src/handlers/instances.rs:1137-1149`). The rollups count every finished instance if and
  only if no cancel updated a running row (`ProjectorTheorems.CountsEveryFlipIff`).
- The same endpoint rewinds a status: it refuses only completed and cancelled rows, and reads before
  it updates. A net's status moves forward at every step of a run if and only if no cancel updates
  its row after it ended as something else (`ProjectorStatus.StatusOrderIff`); a completed, a failed
  and an archived row are each rewound in a run from the empty database (`ProjectorStatus.RewindsOccur`).
- Requests that are in flight together under one request id share a registry entry; the first to
  leave removes it and the other can no longer be cancelled (`RouterRuns.SharedIdLosesRegistration`).
  The registry names exactly the requests in flight, all the time, if and only if no request
  registers an id another one in flight carries (`RouterLimits.RegistryExactIff`); reusing the id of
  a finished request is fine.
- Admission is bounded per replica object, not per runner: after a swap, a runner with one slot holds
  two requests (`RouterRuns.SwapExceedsRunnerBudget`). A runner stays within its budget, the capacity
  of its newest object, if and only if no admission takes a free slot of one of its objects while all
  of them together already hold that many permits, and no poll lowers the budget below what is held
  (`RouterLimits.BudgetKeptIff`).
- A stream that breaks mid-body is counted as an upstream error and then also metered as completed
  (`router/src/proxy.rs:293-329`); the ledger equations state by how much the two differ.
- A request may be rejected beside a free replica of the table (`RouterRuns.LateSlotIsMissed`).
  A rejection means that every placeable replica is full if and only if every step since the selection
  that undercut the choice was followed by one that repaired it (`RouterFairness.RejectionHonestIff`);
  when admission follows selection at once it always does (`RouterFairness.BackToBackIsHonest`).
- Two demos that claim one coordinate make directory order visible; they commute if and only if
  neither blocks the other (`DemoSeeder.CommuteIff`). The comment at `service/src/demos.rs:2141-2143`
  says a reset always recreates from disk; a demo's row is the one its directory determines if and
  only if no row under its id survives the purge (`DemoSeeder.RecreatedIff`,
  `DemoSeeder.ResetKeepsUserRow`).
- Hydration re-applies events when delivery info could not be read from the last messages before
  it stopped (`engine/core-engine/src/hydration.rs:89-91`); it is exact if and only if no decodable
  message was delivered after the last one whose info was read (`Hydration.ResumeExactlyOnceIff`).
- Replay passes over a consumed token that is not there
  (`engine/core-engine/crates/domain/src/projection.rs:50-52`): after a log the tokens at a place are
  those put there less those taken if and only if every event found all it took
  (`TokenLedger.TokensBalance`).
- Racing boots: an id a boot returns can be rolled back later if and only if its creator is then still
  between its insert and its last write (`SeederRace.ReturnedIdVanishesIff`). The internal-pool
  resolver, which does not join the version row, can return a half-created row. The joined resolvers
  avoid that, but a benign race can surface as an error, although the comments call it already
  present: exactly when the loser looks again between the winner's two inserts
  (`SeederRace.JoinedErrsIff`).
- A boot can still return, if things go well, if and only if the table is not wedged: a row the
  resolver does not accept and nobody is at work on (`SeederRace.FreshBootReturnsIff`). A row of
  another type, with other axes or soft-deleted is one: the resolvers skip it, but the constraint
  `UNIQUE(workspace_id, path)` at `service/migrations/20240120000000_create_resources.sql:61` still
  counts it (`SeederRace.ForeignRowWedges`). From any other start only the joined resolvers get
  wedged, by a crash between the two inserts (`SeederRace.SelfWedgedIff`, `SeederRace.CrashWedges`).
- The paragraph branch of the Markdown parser is reached by exactly three kinds of block-boundary
  lines (`MarkdownBlocks.FallbackIff`).

## Model

| member | source | states |
|---|---|---|
| Rollups.OutcomeOfReading | service/src/lifecycle.rs:92-109 | Every event the listener hands on is stopped exactly when cancelled, and a success exactly when completed without an explicit failure |
| Rollups.ReadMeaning | service/src/lifecycle.rs:313-397 | A message is handed on exactly when its subject has five parts and ends in one of the three words; the event names the third part and carries exactly the exit code, the cancel reason or the failure reason of the payload |
| Rollups.KeyIff | service/src/lifecycle.rs:123-149 | A run goes into the cell of exactly its own template, version, mode and outcome, whose bucket is the multiple of 3,600,000 ms with the creation time within the hour |
| Rollups.CellMeaning | service/src/lifecycle.rs:123-149 | After any sequence of folds a cell holds the number of runs that belong to it, how many of them have a start and a completion time, and the sum of completion minus start over those, none below zero; a cell exists exactly when some run belongs to it |
| Rollups.UserMeaning | service/src/lifecycle.rs:151-168 | A user cell counts exactly that user's folded runs, and first and last run are the least and greatest creation times among them |
| Rollups.TemplateTotals | service/src/lifecycle.rs:115-168 | For every template, run counts summed over rollup cells equal those summed over users, and both equal the folded runs |
| Rollups.GrandTotal | service/src/lifecycle.rs:115-168 | The rollup's run counts add up to the number of folds |
| ProjectorProofs.NextKeepsInv | service/src/lifecycle.rs:171-274 | Every step of deliveries, transactions, crashes, lost acks, ambiguous commits, sweep and cancel keeps the invariant tying rows, both tables, open transactions and side effects to the commits so far |
| ProjectorProofs.RunInv | service/src/lifecycle.rs:171-274 | The invariant holds at the end of every run |
| ProjectorTheorems.ExactlyOnceAccounting | service/src/lifecycle.rs:115-262 | In every run no instance is folded twice, each cell's run count is the number of instances committed under its key, and the rows no longer running are exactly the committed ones plus the ones the cancel endpoint took |
| ProjectorTheorems.RollupsAgree | service/src/lifecycle.rs:123-168 | In every run the two rollups agree per template; duration sum and count are those of the committed runs of the cell that have both times, and a user's count and window those of the committed runs of that user and template |
| ProjectorTheorems.LedgerObserved | service/src/lifecycle.rs:214-262 | An instance is in the ledger exactly when some commit of the run took its row out of running, as an observer of the rows sees it |
| ProjectorTheorems.CancelsMeaning | service/src/handlers/instances.rs:1103-1152 | The cancel set of a run is empty exactly when no cancel update met a running row |
| ProjectorTheorems.CountsEveryFlipIff | service/src/handlers/instances.rs:1137-1149 | The rollup total equals the number of finished rows if and only if no cancel request updated a running row |
| ProjectorTheorems.CancelEndpointSkipsTheRollup | service/src/handlers/instances.rs:1137-1149 | A run in which a cancel finishes an instance and both rollups stay empty |
| ProjectorTheorems.StepFlips | service/src/lifecycle.rs:214-262 | A step takes a row out of running exactly when it commits a transaction for it or cancels it |
| ProjectorStatus.StepForwardIff | service/src/lifecycle.rs:203-218 | A step moves a status forward if and only if it is not a cancel update of a row that ended as something else |
| ProjectorStatus.StatusOrderIff | service/src/handlers/instances.rs:1119-1149 | In every run the status of a net moves forward at every step if and only if no cancel updates its row after it ended as something else |
| ProjectorStatus.FirstCommitWins | service/src/lifecycle.rs:203-218 | The result of an ended instance is never rewritten, its status moves forward unless a cancel of that net rewinds it, and without a cancel of that net the whole row stays, up to being archived |
| ProjectorStatus.CommittedRowStays | service/src/lifecycle.rs:203-252 | Until a cancel update of that net the row is the row of its committed flip, up to being archived |
| ProjectorStatus.RewindsOccur | service/src/handlers/instances.rs:1119-1149 | For each of completed, failed and archived there is a run from the empty database whose last step rewinds it to cancelled |
| ProjectorOrigins.FlipOrigin | service/src/lifecycle.rs:171-262 | Every run the rollups count was created by some step with the same identity, template, mode, creator and times, and ended by one message its handler held: status, result, completion time and outcome are that message's |
| ProjectorOrigins.ArchivedWasFinished | service/src/lifecycle.rs:447-504 | An archived instance was found completed, failed or cancelled, before the cutoff, by an earlier sweep |
| ProjectorOrigins.CancelWasAsked | service/src/handlers/instances.rs:1103-1152 | A pending cancel update was asked for while the row was neither completed nor cancelled |
| ProjectorTheorems.EffectsAtMostOnce | service/src/lifecycle.rs:254-274 | Waiters, subscriptions and triggers run at most once each per instance, only after a commit that landed and with the status that won |
| ProjectorTheorems.OrphanFoundNone | service/src/lifecycle.rs:214-233 | A handler in the orphan branch entered it by an update that found no running row, and has been in it since |
| ProjectorTheorems.NeverDroppedEarly | service/src/lifecycle.rs:214-233 | A terminal event is acknowledged only once it was applied with its status, or at delivery 10 or later, in the orphan phase the same worker entered by an update that found no running row and has not left since |
| ProjectorHandler.Transaction.RecordTerminalRollups | service/src/lifecycle.rs:115-168 | The two upserts leave exactly the tables the fold of this run determines |
| ProjectorHandler.Database.HandleTerminalEvent | service/src/lifecycle.rs:171-262 | The three tables change together exactly when the commit lands, otherwise not at all; the message is dropped exactly in the orphan case at the delivery bound |
| ProjectorHandler.Database.CleanupFinishedInstances | service/src/lifecycle.rs:447-504 | Exactly the finished rows past the cutoff whose update does not fail become archived |
| ProjectorHandler.HandlerIsSteps | service/src/lifecycle.rs:171-262 | However the database behaves, handling an event undisturbed is a path of the step system that ends in the rows, tables and phase of the handler |
| Routing.Select | router/src/routing.rs:82-111 | The result is the last placeable replica with the most free permits, or the exact reason there is none |
| Routing.SelectionUnique | router/src/routing.rs:82-111 | That description determines the result |
| Routing.Semaphore.TryAdmit | router/src/admission.rs:22-24 | A permit is taken exactly when there is one |
| Routing.ReplicaTable.FromConfig | router/src/routing.rs:69-78 | One fresh replica per entry, with its zone, models and address, called replica- and its index, and as many free slots as the entry's concurrency, or one |
| Routing.ReplicaTable.Refresh | router/src/inventory.rs:60-115 | A failed or empty poll keeps the table; any other replaces it by fresh objects, one per runner with its name, zone, models and concurrency, and touches no existing one |
| Routing.ReplicaTable.SelectAndAdmit | router/src/proxy.rs:91-143 | Back to back, a rejection means every placeable replica is full, and an admission takes one permit from one placeable replica |
| Routing.ReplicaTable.Snapshot | router/src/routing.rs:132-149 | In-flight is capacity minus free for every replica, and zero when free exceeds capacity |
| RouterObjects.SnapshotCountsHeld | router/src/routing.rs:132-149 | In a reachable state the snapshot counts exactly the permits requests hold on each listed object |
| RouterObjects.RegisterIsStep | router/src/cancel.rs:33-40 | Registering is the protocol's registration step: the registry goes on standing for the state's, and the fresh token for this request |
| RouterObjects.DeregisterIsStep | router/src/cancel.rs:42-82 | Dropping the guard is the protocol's step that removes the id, whoever holds it |
| RouterCancel.CancellationRegistry.Cancel | router/src/cancel.rs:47-55 | Exactly the token the id stands for is cancelled, and whether there was one is reported |
| RouterObjects.CancelIsStep | router/src/cancel.rs:47-55 | A cancel message marks exactly the request the state has registered under the id |
| RouterObjects.FromConfigIsInit | router/src/routing.rs:69-78 | A configured table is an initial state |
| RouterObjects.RefreshIsStep | router/src/inventory.rs:60-82 | One poll is the protocol's poll step; the objects already handed out stay as they are |
| RouterObjects.SelectAndAdmitIsSteps | router/src/proxy.rs:91-122 | Select and admit are the protocol's two steps, on the objects the state describes |
| RouterObjects.ReleaseIsStep | router/src/proxy.rs:112-122 | Dropping a permit is the protocol's step that gives it back |
| RouterObjects.StreamIsSteps | router/src/proxy.rs:293-329 | The body loop is a path of the protocol: one step per chunk, then the cancel, the break or the end it reports |
| RouterObjects.ObserveIsStep | router/src/metrics.rs:84-127 | Recording a terminal request is the protocol's observation step |
| RouterObjects.StarvedIsStep | router/src/metrics.rs:73-81 | A rejection that counts the model as starved is the protocol's admission step on a full replica |
| RouterMetrics.HistogramExact | router/src/metrics.rs:306-330 | For every sequence of observations the cumulative count at a bound is exactly the number of latencies not above it, the counts do not decrease, and the total count is the number of observations |
| RouterMetrics.Metrics.Observe | router/src/metrics.rs:100-127 | The model's meter becomes the one its observations determine |
| RouterTheorems.MetersOfRun | router/src/metrics.rs:84-127 | In every run a model's meter is the one its own metering records amount to, and exists exactly when there is one |
| RouterAccounts.RecordMeaning | router/src/metering.rs:48-76 | In every run a metering record was written by its own request with the tokens of the last usage it saw, the status its last turn decided, its replica and its times; a completion without usage is unmetered |
| RouterAccounts.MeterOfRecords | router/src/metrics.rs:84-127 | In every run a model's meter holds how many of its records ended in each way, the sums of their prompt and completion tokens and durations, and how many took at most each bound |
| RouterAccounts.CancelledWasAsked | router/src/cancel.rs:47-55 | No request is metered as cancelled unless a cancel message named its id while the registry had it for this request |
| RouterTheorems.HistogramOfRun | router/src/metrics.rs:306-330 | In every run the cumulative counts are exactly the recorded latencies up to each bound |
| RouterObjects.RenderOfRun | router/src/metrics.rs:306-316 | In every run the rendered series is, bound by bound, the number of that model's recorded latencies not above it |
| RouterStream.StreamBody | router/src/proxy.rs:293-329 | Exactly the chunks before the first other turn are forwarded; usage is that of the last chunk with any; the disposition is cancelled exactly when the cancel was seen, and a broken stream ends as completed |
| RouterProofs.NextKeepsInv | router/src/proxy.rs:65-338 | Every request, cancel, disconnect and poll step keeps permits, registry and ledger in balance |
| RouterProofs.RunInv | router/src/proxy.rs:65-338 | The invariant holds in every reachable state |
| RouterTheorems.CapacityAndRegistry | router/src/proxy.rs:112-338 | In every reachable state each replica object, old or current, has free + held = capacity >= 1; registry keys are ids of requests in flight, and exactly those when ids are distinct |
| RouterAccounts.PolledObject | router/src/inventory.rs:60-115 | In every run, from a poll on, in the table or replaced, the object of each runner has the runner's name, zone and models, and free and held slots add up to the runner's concurrency, or one |
| RouterAccounts.ConfiguredObject | router/src/routing.rs:69-78 | The same for the configured replicas |
| RouterAccounts.RejectedIff | router/src/admission.rs:22-24 | An admission is rejected if and only if as many requests hold a slot of its replica as the replica has |
| RouterAccounts.StarvedOfRun | router/src/metrics.rs:73-81 | In every run a model's starved counter is the number of its requests that no live replica served or whose replica was full |
| RouterLimits.StepExactIff | router/src/cancel.rs:33-82 | A step breaks an exact registry if and only if it registers an id another request in flight carries |
| RouterLimits.RegistryExactIff | router/src/proxy.rs:125-131 | In every run all requests in flight are cancellable by their ids all the time if and only if no such registration happens |
| RouterTheorems.IdleIsClean | router/src/proxy.rs:112-338 | With nothing in flight the registry is empty and every semaphore is full, whichever way requests ended |
| RouterRuns.SharedIdLosesRegistration | router/src/cancel.rs:33-82 | A run from a configured table in which a colliding registration leaves a request in flight without registration, and a cancel for it does nothing |
| RouterTheorems.LedgerEquations | router/src/metrics.rs:100-127 | At every moment of every run each total equals its per-model sum plus the requests between counter and record, plus for upstream errors the streams that broke; requests are counted once, one observation per record |
| RouterTheorems.LedgerBalances | router/src/metrics.rs:100-127 | So totals and sums balance whenever no request is between the two |
| RouterTheorems.ObjectWasSelected | router/src/proxy.rs:112-131 | A request's replica was selected from the table of that moment |
| RouterTheorems.ResidencyHolds | router/src/routing.rs:82-111 | A forwarded request's replica was live, served the model and lay in exactly the required zone when selected, whatever was swapped since, and the metering record carries the model, the id and the required zone |
| RouterFairness.StepFairIff | router/src/routing.rs:82-111 | A step makes another replica the better choice if and only if it takes a permit of the chosen one beside a rival, gives one back to a rival, or brings in a replica with more free permits |
| RouterFairness.StepRepairsIff | router/src/routing.rs:82-111 | A step makes the chosen replica the best one again if and only if it takes the one permit by which the only better replica was ahead, gives one back to the chosen replica when nothing is ahead by more than one, or brings in a table in which nothing outdoes it |
| RouterFairness.FairIff | router/src/routing.rs:82-111 | In every run a choice that was the best is the best at a later moment if and only if every undercut in between was followed by a repair |
| RouterFairness.RejectionHonestIff | router/src/proxy.rs:91-122 | In every run, when a request is rejected, every placeable replica of the table is full if and only if every step between its selection and its admission that undercut the choice was followed by a repair |
| RouterFairness.BackToBackIsHonest | router/src/proxy.rs:91-122 | A rejection right after the selection means every placeable replica of the table is full |
| RouterRuns.LateSlotIsMissed | router/src/proxy.rs:91-122 | A run in which a request is rejected beside a placeable replica of the current table with a free permit |
| RouterLimits.AdmitExceedsIff | router/src/admission.rs:22-24 | Within the budget before, an admission exceeds the runner's budget, the capacity of its newest object, if and only if it takes a free slot while what the runner's other objects hold and what this one holds reach the budget |
| RouterLimits.PollExceedsIff | router/src/routing.rs:114-116 | Within the budget before, a poll exceeds it if and only if it lowers the runner's capacity below what is held |
| RouterLimits.BudgetKeptIff | router/src/routing.rs:114-116 | In every run a runner stays within its budget, which may change with each poll, if and only if no such admission and no such poll happens |
| RouterRuns.SwapExceedsRunnerBudget | router/src/routing.rs:114-116 | A run in which a runner with a budget of one holds two requests, through its old and its new object |
| DemoSeeder.SeededIff | service/src/demos.rs:1696-1960 | A call seeds a demo if and only if its id is new, it loads, compiles and is owned as its visibility asks, its coordinate is free, a library node has a known category, and every child is a published, live row other than its own, unowned or owned by it |
| DemoSeeder.SeededIsUsable | service/src/demos.rs:1696-1960 | The row it writes, field by field; the next call finds it, and every other demo may embed it, or its owner alone when it is private |
| DemoSeeder.ProblemsStable | service/src/demos.rs:1749-1797 | Seeding other demos never blocks a demo, when no coordinates clash |
| DemoSeeder.SeedOneInProgress | service/src/demos.rs:1696-1960 | A call keeps the published ids inside every closed set |
| DemoSeeder.StuckIsClosed | service/src/demos.rs:1644-1690 | When every demo is published or fails, the published ids are the least fixpoint |
| DemoSeeder.PublishedIff | service/src/process/publish.rs:1598-1633 | After seeding, a new demo is published if and only if it was in order at the start and every child ended up as a published row it may embed |
| DemoSeeder.OrderIrrelevant | service/src/demos.rs:1631-1643 | Seeding the same demos in any two orders from the same rows ends in the same rows |
| DemoSeeder.CommuteIff | service/src/demos.rs:1756-1780 | Two ready demos commute if and only if neither row blocks the other's coordinate |
| DemoSeeder.Seeder.Pass | service/src/demos.rs:1645-1673 | A pass reports or keeps every pending demo exactly once, and changes nothing when it reports nothing |
| DemoSeeder.Seeder.SeedAll | service/src/demos.rs:1603-1692 | Publishes exactly the least fixpoint over the starting rows, changes no existing row, reports each success exactly once with the right outcome, every unreported demo still fails, and makes at most n(n+1)/2 calls; whatever it seeds has published children only, and a new demo is reported if and only if it is in order and all its children ended up published and usable |
| DemoSeeder.Seeder.PurgeSeeded | service/src/demos.rs:2054-2139 | Exactly the families with a seeder-authored row are deleted with their instances, and the report counts families and instances exactly |
| DemoSeeder.PurgeLeavesNoSeederRow | service/src/demos.rs:2054-2139 | A second purge finds nothing |
| DemoSeeder.SurvivesIff | service/src/demos.rs:2054-2139 | A row survives a purge if and only if no seeder-authored row belongs to its family |
| DemoSeeder.InstanceSurvivesIff | service/src/demos.rs:2054-2139 | An instance survives a purge if and only if its template does |
| DemoSeeder.RecreatedIff | service/src/demos.rs:2141-2158 | After a reset a published demo's row is the one its directory determines if and only if no row under its id survived the purge |
| DemoSeeder.ResetKeepsUserRow | service/src/demos.rs:2141-2158 | A row made by a user under a demo's id survives, and the reset leaves it as it is |
| DemoSeeder.PurgeKeepsChains | service/src/demos.rs:2054-2139 | Purging whole families leaves no dangling base reference |
| DemoSeeder.Seeder.ReseedAll | service/src/demos.rs:2144-2158 | The result is the least fixpoint over what the purge left, the reported count is exactly the number of rows added, and a published demo's row is recreated exactly when none under its id survived |
| DemoSeeder.ResetIsRepeatable | service/src/demos.rs:2144-2158 | Purging what a reset seeded gives back exactly the rows users own |
| DemoSeeder.SeededAddsUp | service/src/demos.rs:2149-2153 | The reported count is the number of rows added |
| PetriNet.EvaluationExists | engine/core-engine/crates/application/src/evaluation.rs:406-451 | Every net has an evaluation under every limit |
| PetriNet.MoveBinds | engine/README.md:32-37 | A one-in one-out transition is enabled exactly by a token at its source |
| NetFamilies.LinearChain | engine/bench/src/generators.rs:30-51 | The builder's loops produce the n-stage chain |
| NetFamilies.LinearChainEvaluates | engine/bench/src/generators.rs:21-51 | Under every schedule the token is at place i after i firings, there are exactly n firings or the limit, and it is quiescent exactly when n is below the limit |
| NetFamilies.ParallelBranches | engine/bench/src/generators.rs:62-82 | The builder's loops produce the k-way fan with its k tagged tokens |
| NetFamilies.ParallelEvaluates | engine/bench/src/generators.rs:53-82 | Under every schedule there are exactly k firings or the limit, all tokens move, and the payloads that arrived with the tokens that wait are the seeded multiset |
| NetFamilies.TokenFanin | engine/bench/src/generators.rs:90-107 | The builder produces the m-token funnel |
| NetFamilies.FaninEvaluates | engine/bench/src/generators.rs:84-107 | Under every schedule exactly m firings or the limit, and all m tokens moved |
| NetFamilies.SelfLoop | engine/bench/src/generators.rs:192-201 | The builder produces the loop |
| NetFamilies.LoopEvaluates | engine/bench/src/generators.rs:176-201 | The loop never becomes quiescent and fires exactly N times under limit N |
| NetFamilies.KeyInjective | engine/bench/src/generators.rs:162-171 | Printed keys determine place and token number |
| NetFamilies.GuardNeverHolds | engine/bench/src/generators.rs:138-149 | No tuple of the cross product satisfies the guard, for every arity and number of tokens |
| NetFamilies.BindingBuilder | engine/bench/src/generators.rs:129-174 | The builder's loops produce the binding net |
| NetFamilies.BindingNeverEnabled | engine/bench/src/generators.rs:111-174 | The net is quiescent from the start |
| NetFamilies.BindingEvaluates | engine/bench/src/generators.rs:111-174 | Every evaluation makes no firing |
| EventLog.ProjectMarking | engine/core-engine/crates/domain/src/projection.rs:13-19 | The loop computes the fold |
| TokenLedger.CreatedIs | engine/core-engine/crates/domain/src/projection.rs:27-31 | A created token is added behind the others at its place and nowhere else |
| TokenLedger.RemovedIs | engine/core-engine/crates/domain/src/projection.rs:57-64 | The first token with the id goes from its place and nothing else changes; without one nothing does |
| TokenLedger.UpdatedIs | engine/core-engine/crates/domain/src/projection.rs:65-72 | The first token with the id gets the new colour where it stands and nothing else changes |
| TokenLedger.MovedIs | engine/core-engine/crates/domain/src/projection.rs:32-56 | A firing takes its inputs out one after the other and puts its outputs behind what is left, place by place |
| TokenLedger.FailedIs | engine/core-engine/crates/domain/src/projection.rs:73-88 | A failed effect moves tokens exactly when it says it consumed them |
| TokenLedger.ApplyCounts | engine/core-engine/crates/domain/src/projection.rs:25-104 | For every event, place and id: the tokens left are those there less those taken, not below none, plus those put |
| TokenLedger.TokensBalance | engine/core-engine/crates/domain/src/projection.rs:13-104 | After any log a place holds as many tokens of an id as were put there less those taken, if and only if every event found all it took; never fewer |
| EventLog.ProjectSplit | engine/core-engine/crates/application/src/ports.rs:537-543 | Replaying in two stages is replaying at once |
| EventLog.MemoryEventStore.PushTail | engine/core-engine/crates/infrastructure/src/memory_event_store.rs:119-145 | Evicting down to the byte cap keeps the store equivalent to the whole log |
| EventLog.MemoryEventStore.LoadExistingEvent | engine/core-engine/crates/infrastructure/src/memory_event_store.rs:188-211 | The log grows by the event, sequence and stream position only move up |
| EventLog.MemoryEventStore.CurrentMarking | engine/core-engine/crates/infrastructure/src/memory_event_store.rs:218-224 | Base and tail still give the marking of everything ever loaded |
| EventLog.MemoryEventStore.ChainTip | engine/core-engine/crates/infrastructure/src/memory_event_store.rs:213-216 | The chain tip is the hash of the last event loaded |
| EventLog.ChainLog | engine/bench/src/synth_log.rs:37-79 | The loop produces the hash-chained ring log: numbering, events, links and digests |
| EventLog.RingReplay | engine/bench/src/synth_log.rs:37-79 | Every non-empty prefix leaves exactly one token, at place (n-1) mod 4 |
| EventLog.RingConsumesPresent | engine/bench/src/synth_log.rs:56-76 | Every firing consumes a token that is present |
| Hydration.LoadEvents | engine/core-engine/src/hydration.rs:83-121 | The store holds exactly the decodable messages delivered before the stop, in order, with the matching statistics |
| Hydration.ResumeExactlyOnceIff | engine/core-engine/src/hydration.rs:83-121 | Wherever it stopped, resuming after the reported sequence applies every decodable event exactly once in order, if and only if no decodable message followed the last one with readable info; otherwise exactly those are applied twice |
| Hydration.HydrateAndResume | engine/core-engine/src/hydration.rs:83-121 | Loading up to the stop and then everything after the reported sequence leaves the store holding the replayed log and its marking, which are the whole log and its marking if and only if nothing decodable was left uncovered |
| Hydration.ResumeInProgress | engine/core-engine/src/hydration.rs:83-121 | However far the second pass has come the store holds a prefix of the log |
| Hydration.ResumeIsExact | engine/core-engine/src/hydration.rs:11-19 | With readable info everywhere the state is that of folding the whole log |
| Hydration.UnreadableInfoDuplicates | engine/core-engine/src/hydration.rs:89-91 | One unreadable info at the stopping point applies an event twice |
| Hydration.RingLogSurvivesInterruption | engine/bench/src/synth_log.rs:37-79 | An interrupted and resumed replay of the ring log leaves its one token where it belongs |
| SeederRace.NextKeepsInv | service/src/internal_pool.rs:83-128 | Every step of every boot, failure and crash keeps the table and every boot's knowledge consistent |
| SeederRace.AtMostOneRow | service/src/handlers/resources.rs:1459-1489 | At most one row exists, however many boots race |
| SeederRace.ReturnedIdVanishesIff | service/src/internal_pool.rs:83-128 | A boot returns the id of the one row there is, and that row can be rolled back in some continuation if and only if its creator is then between its insert and its last write |
| SeederRace.VanishIff | service/src/handlers/resources.rs:1459-1512 | In every reachable state a row can still vanish if and only if its creator is at work on it |
| SeederRace.BootsAgree | service/src/worker_groups.rs:115-162 | When no create failed half-way, all boots that return agree on a row that is there |
| SeederRace.UnjoinedNeverErrs | service/src/internal_pool.rs:83-128 | Without faults the unjoined seeder never reports an error |
| SeederRace.JoinedRaceErrs | service/src/model_serving_group.rs:167-206 | With the joined resolvers a race without any fault can surface as an error |
| SeederRace.JoinedErrsIff | service/src/worker_groups.rs:115-162 | Without faults a losing boot reports an error if and only if it re-resolves while the winner is between its two inserts |
| SeederRace.UnjoinedOkCanDangle | service/src/internal_pool.rs:83-128 | A boot can return an id whose row is then rolled back |
| SeederRace.WedgedForever | service/src/worker_groups.rs:179-218 | Once the path holds a row the resolver does not accept and nobody is at work on it, no boot ever returns again |
| SeederRace.FreshBootReturnsIff | service/src/worker_groups.rs:115-162 | A boot about to look or to insert returns in some continuation if and only if the table is not wedged |
| SeederRace.ForeignRowWedges | service/migrations/20240120000000_create_resources.sql:30-61 | A row of another type, with other axes or soft-deleted wedges the path from the start |
| SeederRace.SelfWedgedIff | service/src/worker_groups.rs:115-162 | From any other start a run wedges the path if and only if the resolver is joined and a row without version is left whose creator is gone |
| SeederRace.CrashWedges | service/src/handlers/resources.rs:1459-1512 | One crash between the two inserts leads there |
| SeederRace.ResourceTable.Create | service/src/handlers/resources.rs:1459-1512 | All or nothing: the complete row exactly on success, the old table otherwise |
| SeederRace.ResourceTable.Ensure | service/src/model_serving_group.rs:103-151 | Undisturbed, the returned row is visible, an existing table is not changed, and an empty one gains exactly the new row |
| SeederRace.SoloIsEnsure | service/src/model_serving_group.rs:103-151 | The steps of one boot with nobody else acting end as the code does, for every way the two writes may go |
| RunnerGrants.JetstreamPullPubAllow | service/src/runners_nats.rs:654-684 | The loop builds exactly the pull-consumer grants of the three lanes and the dead-letter ones |
| RunnerGrants.JetstreamSharedStreamPubAllow | service/src/runners_nats.rs:697-715 | The loop builds exactly the shared-stream grants |
| RunnerGrants.MintRunner | service/src/runners_nats.rs:253-347 | Refusals exactly for a key that is not a user key or a pool that is not one safe token; otherwise the full allow-lists |
| GrantMeaning.PublishIff | service/src/runners_nats.rs:265-328 | The publish list allows exactly: reports, the own presence, the pool's claim, the three lanes and the dead letters, the shared and cancel streams, and inboxes |
| GrantMeaning.PresenceIsolated | service/src/runners_nats.rs:265-286 | A runner may announce its own presence and no other runner's |
| GrantMeaning.SubscribeIff | service/src/runners_nats.rs:335-347 | The subscribe list allows exactly the own control subjects, inboxes, cancellations and the own file reads |
| GrantMeaning.ControlIsolated | service/src/runners_nats.rs:335-347 | A command or file read addressed to a runner is received by that runner and by no other |
| GrantTheorems.JobGrantMatches | service/src/runners_nats.rs:656-670 | A lane grant matches exactly the subjects of its operation on that lane |
| GrantTheorems.LanesCovered | service/src/runners_nats.rs:656-670 | Every pull-consumer operation and acknowledgement on each lane is allowed to its runner |
| GrantTheorems.LaneStreamInfoCovered | service/src/runners_nats.rs:659 | Looking up each lane's stream is allowed |
| GrantTheorems.LaneSubjectsDisjoint | service/src/runners_nats.rs:656-670 | No subject is a lane operation of two runners |
| GrantTheorems.LanesIsolated | service/src/runners_nats.rs:265-347 | No lane subject of another runner is allowed by any grant of a runner, whatever the pool |
| GrantTheorems.StreamAdminIff | service/src/runners_nats.rs:697-750 | Beyond looking up, stream administration is allowed if and only if it is create or update of one of the four shared executor streams |
| GrantTheorems.JobStreamsUntouchable | service/src/runners_nats.rs:654-684 | No create, update, delete or purge of a runner-jobs stream is allowed |
| Markdown.EscapeIsSimultaneous | app/src/lib/mdsvex.ts:10-17 | The five passes equal one simultaneous substitution per character |
| Markdown.EscapeRoundTrip | app/src/lib/mdsvex.ts:10-17 | Escaping can be undone |
| Markdown.EscapeInjective | app/src/lib/mdsvex.ts:10-17 | Escaping is injective |
| Markdown.EscapedIsInert | app/src/lib/mdsvex.ts:10-17 | The output holds no angle bracket and no quote |
| MarkdownBlocks.Collect | app/src/lib/mdsvex.ts:115-118 | An inner loop takes the maximal run of lines its test accepts and keeps their pieces |
| MarkdownBlocks.NextBlock | app/src/lib/mdsvex.ts:102-261 | One turn takes the first branch that applies and consumes at least one line |
| MarkdownBlocks.RenderBlocks | app/src/lib/mdsvex.ts:95-264 | The loop ends and yields the block sequence |
| MarkdownBlocks.BlocksPartitionFrom | app/src/lib/mdsvex.ts:95-264 | Every line is consumed exactly once and in order |
| MarkdownBlocks.BlocksTouch | app/src/lib/mdsvex.ts:95-264 | Blocks touch, none is empty, and they span the input |
| MarkdownBlocks.ParagraphIs | app/src/lib/mdsvex.ts:250-260 | A paragraph is a maximal run of non-boundary lines, or one boundary line |
| MarkdownBlocks.FallbackIff | app/src/lib/mdsvex.ts:81-260 | The one-line fallback takes exactly pipe rows without a separator below, image openings that are no complete image, and heading marks whose text holds a line terminator |
| MarkdownBlocks.CodeIs | app/src/lib/mdsvex.ts:111-123 | A code block holds the raw lines up to the next fence and consumes the fence |
| MarkdownMeaning.LinesAreKept | app/src/lib/mdsvex.ts:158-260 | A block keeps a piece of each of its lines in order: a list item what follows its mark, trimmed; a quote what follows the sign and one white space; a table row or paragraph line the trimmed line |
| MarkdownMeaning.ExtentIs | app/src/lib/mdsvex.ts:158-248 | Quotes, lists and table rows are maximal runs of lines that pass their test; headings, rules, images and blanks are one line |
| MarkdownMeaning.BranchesExclude | app/src/lib/mdsvex.ts:102-248 | No line passes the tests of two branches |
| MarkdownMeaning.KindIff | app/src/lib/mdsvex.ts:102-248 | A branch takes exactly the lines that pass its own test, so the order of the branches does not matter |
| MarkdownTests.TestsAreTheExpressions | app/src/lib/mdsvex.ts:81-248 | Every line test is the regular expression of the source, under the declarative meaning of regular expressions |
| MarkdownTests.BoundaryIff | app/src/lib/mdsvex.ts:81-93 | A line ends a paragraph exactly when one of the source's expressions matches |
| MarkdownMeaning.NormalizeIs | app/src/lib/mdsvex.ts:98 | Exactly the two-character line endings become one character |
| MarkdownBlocks.SourceIsCovered | app/src/lib/mdsvex.ts:95-264 | What the blocks take, joined, is the source with normalised line endings |
| Invoice.ValidateTotals | engine/demos/invoice_processing/validate_invoice.py:97-143 | The anomalies are exactly the lines that do not multiply out, then subtotal, then total |
| Invoice.CheckPolicyLimits | engine/demos/invoice_processing/validate_invoice.py:189-211 | The flags in order, and an exception exactly for a null total, null items or a null amount |
| Invoice.ValidateInvoice | engine/demos/invoice_processing/validate_invoice.py:246-295 | The report of the checks in order, or the exception |
| Invoice.AddsUp | engine/demos/invoice_processing/validate_invoice.py:97-143 | Without total anomalies the lines, tax and total agree within 0.025 per line plus 0.05 |
| Invoice.CompliantMeans | engine/demos/invoice_processing/validate_invoice.py:214-243 | A compliant invoice has a line, adds up within 0.025 n + 0.05, has at most two flags and nothing missing |
| Invoice.CompliantIff | engine/demos/invoice_processing/validate_invoice.py:236-243 | Compliant if and only if no anomalies, an approved vendor and no more flags than its risk allows |
| Invoice.ScoreAntitone | engine/demos/invoice_processing/validate_invoice.py:214-233 | An added anomaly or flag never raises the score |
| InvoiceMeaning.ScoreIs | engine/demos/invoice_processing/validate_invoice.py:214-233 | The score is one less 0.15 per anomaly, 0.10 per flag and the vendor's share, not below zero; one more anomaly costs exactly 0.15 |
| InvoiceMeaning.VerdictIff | engine/demos/invoice_processing/validate_invoice.py:236-243 | Compliant with at most 20 points off, no anomaly and an approved vendor; non-compliant exactly with more than 50 points off or a flagged vendor |
| InvoiceMeaning.VendorDecides | engine/demos/invoice_processing/validate_invoice.py:160-187 | An unlisted vendor is never compliant and leaves 25 points; a listed one has its own status and risk |
| InvoiceMeaning.RaisedIff | engine/demos/invoice_processing/validate_invoice.py:246-295 | The check raises exactly on a null subtotal, tax, total, item list, line amount or looked-up vendor |
| InvoiceMeaning.FlagsAre | engine/demos/invoice_processing/validate_invoice.py:146-211 | A report lists each flag the invoice and the vendor raise once and no other |
| InvoiceMeaning.AnomaliesAre | engine/demos/invoice_processing/validate_invoice.py:97-143 | The totals check lists each anomaly once and no other |
| InvoiceMeaning.MissingIs | engine/demos/invoice_processing/validate_invoice.py:87-94 | A missing field is one anomaly in front of the others, naming exactly the missing fields |
| InvoiceMeaning.RoundsToCents | engine/demos/invoice_processing/validate_invoice.py:97-143 | Rounding gives the nearest cent and of two the even one |
| NetIds.NetRoundTrip | app/src/lib/utils.ts:57-62 | Parsing a workspace-scoped net id gives back the instance id |
| NetIds.LegacyNetRoundTrip | app/src/lib/utils.ts:57-62 | So does parsing a legacy net id |
| NetIds.ExecutionRoundTrip | app/src/lib/utils.ts:70-76 | Parsing an execution id gives back the instance id for every run string |
| NetIds.NetResultIs | app/src/lib/utils.ts:57-62 | The net parser returns exactly the end of the id that has five groups |

## Left out

- Projector assumptions: net ids are unique per instance, and instance rows are not deleted (the
  launcher's rollback, template deletion and the demo purge delete rows and are not steps here).
- Projector: hour buckets truncate a UTC timestamp in milliseconds; time zones are not modelled.
- Projector: what the waiters, subscriptions and triggers do; only that and when they are started.
- Router: header copying, response building, authentication and the text of the metrics page.
- Router: the biased `select!` of a turn is modelled as any turn that is possible, and the mutex is
  not poisoned.
- Router: `live_model_ids`, which only sorts and removes duplicates.
- DemoSeeder: compiling and uploading are one yes-or-no fact of the demo besides its
  children; folders, packs, triggers and bundled tests have no part in the result and are not modelled.
- DemoSeeder.Seeder.PurgeSeeded: engine nets, template tests, folder rows and triggers are not
  modelled, and database errors that stop it half-way are not.
- DemoSeeder.Seeder.SeedAll: the fixpoint statement asks for distinct ids and no coordinate clash;
  termination, the call bound and the untouched rows do not.
- NetFamilies: token schemas, arc weights other than one and the engine's choice among enabled
  transitions; every choice is allowed instead.
- EventLog.MemoryEventStore.PushTail: the deduplication seed kept beside the base marking.
- EventLog.ChainLog: token ids, the clock and the digest are parameters.
- Hydration: stream lookup and consumer creation errors before the loop.
- SeederRace: one path at a time; access grants, the audit text and the pool net of a created
  resource. A row soft-deleted by a user, or one of another type, is there from the start or not at all.
- RunnerGrants: signing, keys, seed files, the worker mint and the response permission.
- MarkdownBlocks: inline markup, table cells, callouts, slugs and the HTML text; headings, rules and
  images keep their trimmed line as content.
- Invoice: floating-point rounding; arithmetic is exact. Amounts given as strings, log lines and the
  written report file. The vendor list is a lookup function from the given name.
- The engine's executor, the compiler and publish pipeline, the user interface, deployment and
  configuration: I/O or easy members only.
