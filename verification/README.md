# fracta: a verified model of its stateful core

This project models, in Dafny, the parts of fracta whose correctness depends on interleavings, stale
reads, multi-step rewrites and pairs of structures that must agree:

- **Event watch** (`Ring`, `Watch`, `WatchProtocol`): the per-agent ring buffer, the SSE hub, the ring sink
  and the watch handler, and the protocol they form. The handler subscribes, catches up from the ring and
  then tails live with a dedup window that it throws away at the first new event.
- **Graph migration** (`PropertyGraph`, `Migration`, `MigrationPaths`, `MigrationTools`, `MigrationTheorems`,
  `MigrationLinks`, `MigrationStores`, `MigrationProvenance`, `MigrationIdempotence`, `MigrationClient`): the rewrite of the 3-tier into the 4-tier ontology as
  functions on a labelled property graph, and the client that runs them.
- **Gateway** (`Catalog`, `Gateway`, `Visibility`, `VisibilityRules`): tool policies, the cached visible set with its generation
  counter under concurrent builds, catalog reconciliation, and the list and call checks.
- **Admission** (`Admission`, `AdmissionRuns`, `AdmissionDecisions`, `AdmissionLate`): proposals, objective budgets, the circuit breaker, the
  mission forest, freezing and unfreezing.
- **Agent lifecycle** (`Lifecycle`, `LifecycleRuns`, `Snapshot`): compare-and-set transitions with event emission, the
  reaper's stale list, and the in-memory snapshot projected from events.
- **Configuration edits** (`ConfigApply`, `YamlEdit`): the multi-file apply with backups and rollback, and the
  ordered YAML tree editor.
- **Batching and paging** (`RemoteBus`, `PagedFetch`, `PythonList`): the remote bus with requeue and
  trimming, the paginated fetch loop, the quoted-list parser.

State that the program updates in place is a class whose methods are proved against pure functions. The
theorems are about those functions, and about runs of state machines that use them. Stores, the network,
clocks, the registry, the file system and the graph database appear as parameters, steps or recorded
choices. `dafny verify dfyconfig.toml` checks everything.

## Where the code does less than it says

Each of these is stated with its exact condition and with a concrete input or run where it fails.

- Exactly-once delivery needs the cursor event to have been broadcast before Subscribe
  (`WatchProtocol.ExactlyOnceIff`); otherwise the watcher gets it again (`WatchProtocol.CursorDeliveredAgain`).
- Listing and calling disagree while nothing is enforced and no visible set was built, and at the instant a
  scope expires (`Gateway.ListCallAgreement`, `Visibility.ListedNotCallable`, `Visibility.ListedAtExpiry`).
- A server keeps its catalog entry iff no other server's incoming tool has its key (`Catalog.OthersKept`); a
  dot in a server name can cost it the entry (`Catalog.DottedServersCollide`).
- A frozen objective gains no mission until it is unfrozen, and it is open again iff somebody unfreezes it
  (`AdmissionRuns.ReopensIffUnfrozen`). Approving does not look at a proposal's review, so when that happens
  during a pass, a proposal that the freeze rejected can be materialised
  (`AdmissionRuns.UnfrozenListMaterialises`).
- The comment in internal/admission/policy.go says the breaker trips above K times the findings. The code
  trips at K times the findings, and so does the model.
- A stale reap leaves an ended row alone under the condition of `LifecycleRuns.StaleReap`; without the lifecycle
  writer it overwrites a completed result (`LifecycleRuns.UnwiredReapOverwrites`).
- A sweep goes by the start time it loaded (`LifecycleRuns.ReapGoesByTheList`), so from a stale list it can
  stop an agent recorded a moment ago (`LifecycleRuns.StaleListStopsSuccessor`); from a fresh list it cannot
  (`LifecycleRuns.PromptReapIff`).
- Lifecycle events are on the bus in transition order iff every emission is of a notice equal to the one held
  longest (`LifecycleRuns.PrefixIffOldest`); the writer does not see to that (`LifecycleRuns.EmissionCanReorder`).
  The snapshot agrees with the durable row iff the notice emitted last announces what the last transition did
  (`Snapshot.SnapshotAgreesIff`), and a reordered run leaves it running beside a completed row
  (`Snapshot.SnapshotDisagrees`).
- Timeouts and convergence checks write back a whole objective from a list read earlier, so a late write can
  change an answer into a timeout and forget missions (`AdmissionLate.AnswerLostToLateReap`), exactly when
  `AdmissionLate.LateReapExact` says; the mission cap and the finality of an end survive it
  (`AdmissionLate.CapSurvivesLateWrites`, `AdmissionLate.EndedForGood`).
- The remote bus delivers in order under every schedule iff flushes never overlap
  (`RemoteBus.OrderIffOneFlush`), and nothing keeps them from overlapping (`RemoteBus.OverlapReorders`).
- A failed apply restores the files under the condition of `ConfigApply.FailureRestores`. It loses an earlier
  `.bak` file beside an edited target (`ConfigApply.OldBackupLost`), leaves a file that an edit created
  (`ConfigApply.CreatedFileStays`) and deletes a file that was overwritten (`ConfigApply.OverwrittenFileLost`).
- A legacy path survives the migration iff its tool is not displaced (`MigrationTheorems.LegacyPathMigrates`);
  a displaced tool passes on only its RETURNS_FIELD edges (`MigrationLinks.ConflictCarriesOnlyFields`,
  `MigrationLinks.DisplacedPathLost`). The documentation of the URI derivation speaks of a placeholder status;
  the code always leaves it empty, and so does the model.
- The links of a DataSource to its tools survive iff a server with exactly its key exists or is made
  (`MigrationLinks.FetchLinkIff`), although the store of a source that is not of type mcp is wired to the server named by its key's prefix.
- The quoted-list parser gives back what was printed under the condition of `PythonList.RoundTrip`; a value
  that ends in a backslash comes back changed (`PythonList.TrailingBackslashLost`).

## Model

| member | source | states |
|---|---|---|
| `Ring.AgentRing.Append` | internal/events/ring.go:30-39 | the retained events become the last cap of the history plus the new event, whatever the head position |
| `Ring.AgentRing.Recent` | internal/events/ring.go:43-63 | the last min(n, count) retained events in order, which is the last min(n, cap) of everything ever appended; nothing for n <= 0 |
| `Ring.AgentRing.Since` | internal/events/ring.go:68-106 | exactly the events after the first retained one with the id; nil iff the id is not retained |
| `Ring.ReplayIsLastN` | internal/events/ring.go:30-39 | for every history and capacity, appending event by event retains exactly the last cap of the whole history |
| `Ring.SinceOnHistory` | internal/events/ring.go:68-106 | with unique ids, Since on the retained part is the exact suffix of the whole history after the cursor, or nil iff it was evicted |
| `Ring.UnrollAppend` | internal/events/ring.go:34-38 | writing at the head and advancing appends to the unrolled buffer and drops the oldest element when full |
| `Ring.EventStore.Append` | internal/events/ring.go:144-154 | only the task's own ring changes |
| `Ring.EventStore.Cleanup` | internal/events/ring.go:197-210 | removes exactly the tasks that have been terminal for longer than the time to live |
| `Watch.SSEHub.Subscribe` | internal/events/ssehub.go:37-55 | adds one fresh empty channel to the receivers of the task (or of all tasks) |
| `Watch.SSEHub.Unsubscribe` | internal/events/ssehub.go:59-75 | closes the channel and removes it from the subscribers of the given name only; the hub stays consistent iff it was subscribed under no other name |
| `Watch.SSEHub.Broadcast` | internal/events/ssehub.go:79-102 | every receiver with room gets the event at the end of its channel, full ones are left as they are, other channels are untouched |
| `Watch.Handle` | internal/events/ringsink.go:24-41 | an event is appended to the ring and then broadcast; terminal events mark the task |
| `Watch.WatchHandler.CatchUp` | internal/cpapi/handler_watch.go:53-72 | writes the events after the cursor in order and remembers their ids |
| `Watch.WatchHandler.OnEvent` | internal/cpapi/handler_watch.go:84-99 | skips remembered ids; at the first other event forgets them all and writes it |
| `WatchProtocol.StepKeepsInv` | internal/cpapi/handler_watch.go:43-99 | every step of emitter and watcher keeps the invariant that ties ring, channel, dedup window and output to positions in the history |
| `WatchProtocol.ExactlyOnce` | internal/cpapi/handler_watch.go:43-99 | in every run without drops, with the cursor in the ring and broadcast before Subscribe, the output is a prefix of the events after the cursor: in order, no gap, no duplicate |
| `WatchProtocol.ExactlyOnceIff` | internal/cpapi/handler_watch.go:84-99 | the output of a live watcher is such a prefix if and only if the cursor was broadcast by Subscribe time or nothing was received live |
| `WatchProtocol.CursorDeliveredAgain` | internal/cpapi/handler_watch.go:43-99 | a run in which a watcher that resumes after an event is sent that event again |
| `WatchProtocol.LiveOutput` | internal/cpapi/handler_watch.go:84-99 | the exact output in both cases, as stretches of the history |
| `WatchProtocol.InOrderDespiteDrops` | internal/events/ssehub.go:84-101 | in every run, even with drops, the output of a live watcher without a cursor or with one broadcast by Subscribe is the history at strictly increasing positions |
| `WatchProtocol.OnlyDropsAreMissing` | internal/events/ssehub.go:84-101 | in every run, a broadcast event after the cursor or after Subscribe is missing from a live watcher's output if and only if it was not caught up and is still buffered or was dropped on a full channel |
| `WatchProtocol.NoDropIff` | internal/events/ssehub.go:84-101 | in every run, the no-drop guard of the delivery theorem holds iff no broadcast was dropped |
| `MigrationPaths.SplitRewritesPath` | internal/graph/migrate.go:124-244 | every legacy path through a gateway DataSource with a unique non-empty key becomes STORED_IN, QUERYABLE_VIA, PROVIDES after the split |
| `MigrationStores.EverySourceHasItsStore` | internal/graph/migrate.go:156-178 | after the split every DataSource with a non-empty key has a DataStore whose uri is spelled from its key, type and index pattern in the three cases |
| `MigrationStores.NewStoresAreOwn` | internal/graph/migrate.go:156-178 | every DataStore the split adds is the store of a DataSource, with the matching type and provenance |
| `MigrationStores.AddressesApart` | internal/graph/migrate.go:416-424 | sources whose types and keys have no slash share a uri only if key, pattern and store type agree: different keys never share a store |
| `MigrationStores.StoredInExactly` | internal/graph/migrate.go:209-219 | with unique keys a DomainSource is newly STORED_IN exactly the stores of the DataSources it could be queried via |
| `MigrationStores.StoresAreServed` | internal/graph/migrate.go:180-203 | the store of a DataSource is QUERYABLE_VIA every server that was there with its server key: its own key for type mcp, else the part before the first underscore |
| `MigrationStores.ServerKeySpelled` | internal/graph/migrate.go:456-462 | the server key, spelled out in both directions |
| `MigrationTheorems.LegacyPathMigrates` | internal/graph/migrate.go:27-61 | such a path survives the whole migration for every tool that is kept, and a tool is kept if and only if no tool already held its dotted name |
| `MigrationTheorems.ToolsMigrate` | internal/graph/migrate.go:301-383 | which tools survive the migration and under which name, for every sound graph |
| `MigrationTheorems.FieldsMigrate` | internal/graph/migrate.go:337-363 | no returned field is lost: afterwards a tool of the cleaned name returns it, also on a conflict, or the tool itself if it has no name |
| `MigrationProvenance.ProvenanceMigrates` | internal/graph/migrate.go:27-61 | every kept tool says where it comes from: the migration if cleaned up, else its old source, else the migration if it was an MCPSource, else manual:legacy |
| `MigrationProvenance.RenameStamps` | internal/graph/migrate.go:68-120 | a renamed node has its new label, the time, the label it came from, and its old source or the migration's |
| `MigrationProvenance.NewServerStamps` | internal/graph/migrate.go:143-154 | a server the split adds is of type mcp, has the record's key and comes from a DataSource |
| `MigrationProvenance.CleanupStamps` | internal/graph/migrate.go:365-380 | a cleaned-up tool has its dotted name and says when it was renamed and from what |
| `MigrationProvenance.MergeStamps` | internal/graph/migrate.go:143-178 | a node that a MERGE finds gets the update time and keeps its label and its other properties, and no other node changes |
| `MigrationProvenance.BackfillStamps` | internal/graph/migrate.go:387-397 | a tool or server without a source is marked manual:legacy, others are untouched |
| `MigrationLinks.ConflictCarriesOnlyFields` | internal/graph/migrate.go:337-363 | over the whole migration, a PROVIDES edge of a tool was there before or runs from the server of a DataSource that fetched via it, and a USES_TOOL edge was there before or comes from a reference to its own name: nothing comes from a tool it displaced |
| `MigrationLinks.DisplacedIsBare` | internal/graph/migrate.go:337-363 | a displaced tool keeps no edge, in or out |
| `MigrationLinks.DisplacedPathLost` | internal/graph/migrate.go:337-363 | a small graph whose legacy path is lost in every migration: the tool is gone and nothing provides the one that displaced it |
| `MigrationLinks.FetchLinkIff` | internal/graph/migrate.go:221-232 | after the split a server with a DataSource's non-empty key provides its tools iff a DataSource of type mcp has that key or such a server was there before; otherwise the links are gone |
| `MigrationLinks.FetchLinkMigrates` | internal/graph/migrate.go:27-61 | the same from the original graph to the migrated one, for every tool that is kept |
| `MigrationTheorems.StrategiesMigrate` | internal/graph/migrate.go:248-297 | a strategy that used a tool by reference uses every kept tool of that name directly |
| `MigrationTools.DottedInjective` | internal/graph/migrate.go:466-472 | two hyphenated names never become the same dotted name |
| `MigrationTools.ToolFate` | internal/graph/migrate.go:301-383 | the fate of one tool under the cleanup of a list of names, in any order |
| `MigrationIdempotence.MigrationSettles` | internal/graph/migrate.go:27-61 | when label removal takes effect, one migration leaves no MCPSource, LogSource, DataSource or ToolRef node, no name to clean and no missing provenance |
| `MigrationIdempotence.MigrationIdempotent` | internal/graph/migrate.go:27-61 | a second migration, at any time and under any choices of the database, changes nothing |
| `MigrationIdempotence.LabelLeft` | internal/graph/migrate.go:68-120 | after a rename the old label is on exactly the nodes the removal skipped |
| `MigrationIdempotence.LabelsLeft` | internal/graph/migrate.go:68-120 | after any migration only nodes that the removal skipped have a legacy label |
| `MigrationClient.GraphClient.BatchRemoveLabel` | internal/graph/migrate.go:430-451 | if the full REMOVE does nothing, the batch fallback leaves exactly max(0, n - 1000) labelled nodes, else none |
| `MigrationClient.GraphClient.SplitDataSources` | internal/graph/migrate.go:124-244 | the loop over the rows computes the split for some enumeration of the DataSource nodes |
| `MigrationClient.GraphClient.CleanupHyphenatedNames` | internal/graph/migrate.go:301-383 | the loop over the rows computes the cleanup of the eligible names in some order |
| `MigrationClient.GraphClient.MigrateGraph` | internal/graph/migrate.go:27-61 | the six steps in order are a migration in the sense of the theorems, and exactly max(0, n - 1000) or no nodes keep each legacy label |
| `MigrationClient.GraphClient.MigrateTwice` | internal/graph/migrate.go:27-61 | where a full REMOVE works, running the program twice gives what running it once gives, with nothing left to do |
| `MigrationClient.GraphClient.MigrateRepeatedly` | internal/graph/migrate.go:27-61 | each further run takes up to 1000 more labels of either kind (all where a full REMOVE works), and from the first run after which none can be left the graph is settled |
| `MigrationClient.RemainingIs` | internal/graph/migrate.go:430-451 | the bound in closed form: n - 1000 for every run made, never below zero |
| `Catalog.ReconciledExact` | internal/gateway/gateway.go:660-764 | after reconciling, the server's entries are exactly the incoming tools, the last of each name |
| `Catalog.OthersKept` | internal/gateway/gateway.go:660-764 | another server's entry is untouched if and only if no incoming tool has its key, and none is added |
| `Catalog.OthersUntouched` | internal/gateway/gateway.go:660-764 | with dotless server names all other entries are untouched |
| `Catalog.DottedServersCollide` | internal/gateway/gateway.go:704-741 | a dotted server name can lose its entry to another server |
| `Catalog.ParseKey` | internal/gateway/gateway.go:796-802 | parsing a key gives back server and tool if and only if the server has no dot |
| `Catalog.KeyParse` | internal/gateway/gateway.go:796-802 | a dotted name is the key of what it parses to |
| `Catalog.RegisteredAt` | internal/gateway/gateway.go:342-386 | registering never replaces an entry and adds exactly the free keys |
| `Catalog.RegisteredFirst` | internal/gateway/gateway.go:349-377 | of several tools with one free name the first is registered |
| `Gateway.Gateway.RegisterServer` | internal/gateway/gateway.go:342-386 | registrations match the catalog, native tools are untouched, and the count is the catalog's growth |
| `Gateway.Gateway.UnregisterServer` | internal/gateway/gateway.go:637-655 | exactly the server's entries and their proxies are gone, every other entry is as it was |
| `Gateway.Gateway.ReconcileServer` | internal/gateway/gateway.go:660-764 | the reconciled catalog with matching registrations, then a rebuilt visible set; an error and no change without an MCP server |
| `Gateway.MatchesAny` | internal/gateway/policy.go:64-74 | true iff some pattern is the name, is a star, or is a prefix with a star |
| `Gateway.CheckPolicy` | internal/gateway/policy.go:49-60 | allowed iff there is no policy, or the allow list is empty or matches and the deny list does not match |
| `Gateway.Compute` | internal/gateway/gateway.go:150-194 | the set a build computes: an entry per catalogued tool, enabled (last registry record, default true) and allowed; none when the read fails |
| `Gateway.Gateway.Publish` | internal/gateway/gateway.go:197-202 | publishes only if no newer build has started |
| `Gateway.Gateway.BuildVisibleSet` | internal/gateway/gateway.go:138-213 | a build without interference publishes what it computed, or keeps the old set when the read fails |
| `Gateway.Gateway.FilterToolsForAgent` | internal/gateway/gateway.go:249-291 | the listed tools are exactly those passing the per-tool list check, in order |
| `Gateway.Gateway.RegisterScope` | internal/gateway/scope.go:26-41 | an empty list registers nothing; otherwise the scope holds exactly the listed tools until now + ttl |
| `Gateway.ListCallAgreement` | internal/gateway/gateway.go:226-291 | the exact condition under which a catalogued tool is listed if and only if it may be called; callable always implies listed |
| `Gateway.NativesListed` | internal/gateway/gateway.go:275-279 | tools that are not in the catalog are always listed |
| `Gateway.ListedMembers` | internal/gateway/gateway.go:274-290 | the list keeps exactly the tools that pass the per-tool check |
| `Visibility.OnlyTheLatestPublishes` | internal/gateway/gateway.go:197-202 | in every interleaving a build publishes exactly when it is the one started last |
| `Visibility.PublicationsIncrease` | internal/gateway/gateway.go:138-213 | published generations strictly increase, each was the newest of its time, and there is a set iff there was a publication |
| `Visibility.FailedReadEnds` | internal/gateway/gateway.go:160-166 | a build whose registry read fails publishes nothing and is over |
| `Visibility.EntriesExact` | internal/gateway/gateway.go:168-194 | every entry of the visible set is enabled and allowed over the published build's own snapshot, and every tool of it has an entry |
| `VisibilityRules.PublishedExactly` | internal/gateway/policy.go:49-74 | in every run every published set says true for a tool of its snapshot iff no deny entry covers its name, the allow list, if any, does, and the last registry record, if any, enables it, with the patterns spelled out |
| `VisibilityRules.ForbiddenNeverCallable` | internal/gateway/gateway.go:226-242 | in every run a tool that the last published snapshot denies or leaves out of its allow list is callable by nobody |
| `VisibilityRules.DenyingHides` | internal/gateway/policy.go:49-60 | adding a deny entry never makes a tool visible |
| `VisibilityRules.AllowedSpelled` | internal/gateway/policy.go:49-74 | the policy test is: covered by no deny entry, and covered by an allow entry if there is any |
| `VisibilityRules.EnabledSpelled` | internal/gateway/gateway.go:159-186 | enabled iff the last record of the key, if there is one, says so |
| `Visibility.PublishedStays` | internal/gateway/gateway.go:134-137 | once published the set is never nil again, and later publications are of no older build |
| `Visibility.OvertakenNeverPublishes` | internal/gateway/gateway.go:197-202 | a build that was overtaken never publishes, however the run goes on |
| `Visibility.AgreementOnceBuilt` | internal/gateway/gateway.go:391-414 | after the first publication, away from a scope's expiry, listed if and only if callable, whatever happens afterwards |
| `Visibility.ListedNotCallable` | internal/gateway/gateway.go:259-261 | a run before any build in which a tool outside the agent's scope is listed and cannot be called |
| `Visibility.ListedAtExpiry` | internal/gateway/gateway.go:266-272 | a run after a build in which a visible tool outside the scope is listed and not callable exactly at the instant the scope expires |
| `Visibility.CallableWasAdmitted` | internal/gateway/gateway.go:226-242 | a callable tool is catalogued now and was enabled and allowed in the last published snapshot |
| `Admission.Controller.EvaluateProposal` | internal/admission/controller.go:115-155 | one evaluation: rejection when objective or parent is missing, else what the policy decides |
| `Admission.Controller.PendingProposals` | internal/proposal/pgstore.go:64-82 | exactly the waiting proposals, each once, by priority and then age |
| `Admission.Controller.EvaluatePending` | internal/admission/controller.go:102-112 | a pass evaluates exactly the proposals waiting when it starts, by priority and then age, each once and in the state the previous one left |
| `Admission.Controller.RejectAllPending` | internal/proposal/pgstore.go:147-157 | exactly the waiting proposals of the objective are rejected, and counted |
| `Admission.Controller.CheckObjectiveConvergence` | internal/admission/controller.go:308-341 | the closing status by budget, runtime and exhaustion in that order, with waiting proposals rejected |
| `Admission.Controller.CountActiveChildren` | internal/admission/reader.go:64-74 | counts the pending and claimed children |
| `Admission.Controller.UnfreezeObjective` | internal/cpapi/local_client.go:830-855 | reopens exactly the frozen objectives |
| `AdmissionRuns.BudgetsHold` | internal/admission/policy.go:62-133 | in every run the mission counter is the number of materialised missions, at most the cap, and at most K times the findings (times one before any) for K >= 1 |
| `AdmissionDecisions.MaterialisesIff` | internal/admission/policy.go:62-133 | a judgement adds a mission iff the proposal is within every limit (status, cap, depth, live children, runtime, evidence), the breaker does not trip and the enqueue succeeds; and what the mission is |
| `AdmissionDecisions.FreezesIff` | internal/admission/controller.go:265-292 | a judgement closes an open objective iff the proposal is within every limit and the breaker trips; it is then frozen and exactly its waiting proposals are rejected |
| `AdmissionDecisions.RejectsIff` | internal/admission/controller.go:252-261 | a proposal outside some limit is rejected and nothing else changes |
| `AdmissionDecisions.MissionsNeedApproval` | internal/admission/controller.go:158-249 | in every run, whatever step adds a child mission is a judgement of a proposal within every limit of that moment |
| `AdmissionDecisions.CheckCloses` | internal/admission/controller.go:308-341 | a convergence check closes as budget-exhausted, timed out or exhausted, in that order and exactly then, and rejects the waiting proposals |
| `AdmissionDecisions.ReapCloses` | internal/controlplane/reaper.go:282-310 | the reaper times an objective out iff its runtime is exceeded, and changes nothing else |
| `AdmissionDecisions.ObjectiveGraph` | internal/objective/objective.go:75-93 | which step can take an objective from which status to which |
| `AdmissionDecisions.ChildrenCounted` | internal/admission/reader.go:64-74 | the count of active children is the number of pending and claimed ones |
| `AdmissionDecisions.WaitingCounted` | internal/proposal/pgstore.go:147-157 | the number of rejected proposals is the number of waiting ones |
| `AdmissionRuns.ForestHolds` | internal/admission/controller.go:190-203 | in every run parents are earlier missions, depth is the length of the parent chain, and no materialised mission is deeper than its objective allows |
| `AdmissionRuns.BranchingHolds` | internal/admission/policy.go:90-97 | in every run, if all children of a mission belong to objectives that allow at most b children, at most b are active |
| `AdmissionRuns.SharedObjectiveBranching` | internal/admission/policy.go:90-97 | in particular the objective's own limit when the children share it |
| `AdmissionRuns.ClosedGainsNothing` | internal/objective/objective.go:75-93 | from every reachable state of prompt steps, a terminal objective never gains a mission or changes status again; a frozen one not until it is unfrozen |
| `AdmissionRuns.ReopensIffUnfrozen` | internal/cpapi/local_client.go:830-855 | a frozen objective is open at some moment of a run if and only if the run unfreezes it |
| `AdmissionRuns.PassDecides` | internal/admission/controller.go:102-112 | a pass leaves no proposal of its list undecided |
| `AdmissionRuns.StaleListIsHarmless` | internal/admission/controller.go:102-155 | once an objective has left open during a pass, no later proposal on the list is materialised for it |
| `AdmissionRuns.UnfrozenListMaterialises` | internal/proposal/pgstore.go:84-96 | a run from the initial state in which a proposal that a freeze rejected is materialised after an unfreeze during the pass |
| `AdmissionLate.LateReapExact` | internal/controlplane/reaper.go:282-310 | exactly when a timeout written from a listed copy leaves the verdict, the mission counter and the row alone |
| `AdmissionLate.CurrentCopyIsPrompt` | internal/admission/controller.go:295-341 | from a copy that is still the row, a late timeout or convergence check is a prompt one |
| `AdmissionLate.CapSurvivesLateWrites` | internal/objective/pgstore.go:85-94 | in every run, with lists as stale as can be, no objective gets more missions than its cap, and until it ends its counter is exact and within the breaker's ratio |
| `AdmissionLate.EndedForGood` | internal/objective/pgstore.go:85-94 | a late write may change which end an objective came to, but an ended one stays ended and never gains a mission |
| `AdmissionLate.AnswerLostToLateReap` | internal/controlplane/reaper.go:282-310 | a run in which an answer becomes a timeout and the counter forgets a mission |
| `Lifecycle.Writer.CheckSpawnAllowed` | internal/controlplane/reaper.go:109-126 | allowed iff there is no limit or fewer agents than the limit are running |
| `Lifecycle.Writer.RecordAgentStarted` | internal/agentlifecycle/writer.go:86-115 | refused without effect at the limit; otherwise the row and the event, with the limit respected afterwards |
| `Lifecycle.Writer.Transition` | internal/agentlifecycle/writer.go:120-221 | applied iff the status is an expected one; then exactly the row, field by field as each transition sets it, and its announced event change |
| `Lifecycle.Writer.Reap` | internal/controlplane/reaper.go:164-252 | the rows after a sweep over a list loaded earlier, with the writer wired, and one stopped event per row it stops |
| `Lifecycle.SweepOutcome` | internal/controlplane/reaper.go:164-252 | after a sweep, task by task: listed terminal queued agents are gone, ended rows are as they were, listed expired ones are stopped, the rest is untouched |
| `Lifecycle.SweepAnnounces` | internal/controlplane/reaper.go:164-252 | a sweep announces a stop for exactly the live rows listed as expired |
| `LifecycleRuns.OneEnding` | internal/agentlifecycle/writer.go:170-252 | in every interleaving at most one terminal event per incarnation is emitted |
| `LifecycleRuns.TerminalAbsorbs` | internal/controlplane/reaper.go:368-385 | with the writer wired, an ended row keeps status and result until it is replaced, however late transitions and reaps arrive |
| `LifecycleRuns.StaleReap` | internal/controlplane/reaper.go:164-252 | exactly when a reap from a stale entry leaves an ended row alone |
| `LifecycleRuns.UnwiredReapOverwrites` | internal/controlplane/reaper.go:369-377 | without the writer a completed result is lost to a stale reap |
| `LifecycleRuns.StatusesAdvance` | internal/agentlifecycle/writer.go:120-221 | within an incarnation of a wired run every status follows from the one before along Queued to Running, Running to and from Idle, live to an end (Queued only to Failed or Stopped), or is the same |
| `LifecycleRuns.StatusesFollowGraph` | internal/controlplane/reaper.go:368-385 | in every run, wired or not, a status that changes within an incarnation follows that graph; unwired a reap may also turn Completed or Failed into Stopped |
| `LifecycleRuns.GraphExact` | internal/agentlifecycle/writer.go:120-221 | from any row some transition leads to another status if and only if the graph has that edge |
| `LifecycleRuns.UnwiredExtraEdge` | internal/controlplane/reaper.go:369-377 | a run from the initial state takes each of the two extra edges |
| `LifecycleRuns.CompletedRan` | internal/agentlifecycle/writer.go:170-185 | in every run a completed row was running or idle earlier in the same incarnation |
| `LifecycleRuns.StartTimeIsLastStart` | internal/agentlifecycle/writer.go:86-133 | in every run the start time of a live agent is that of its last claim or recording |
| `LifecycleRuns.PromptReapIff` | internal/controlplane/reaper.go:164-252 | in every run a sweep from a fresh list stops a live agent iff more than maxAge has passed since its last claim or recording and it is running or an idle stream agent; otherwise the row stays |
| `LifecycleRuns.ReapGoesByTheList` | internal/controlplane/reaper.go:164-252 | from a stale list the same goes by the start time and status that were loaded |
| `LifecycleRuns.StaleListStopsSuccessor` | internal/controlplane/reaper.go:164-252 | a run in which a stale list stops an agent recorded at the very time of the sweep |
| `LifecycleRuns.MovesTrackRow` | internal/agentlifecycle/writer.go:120-221 | the last announced transition is the status of the row whenever it is running, idle or ended |
| `LifecycleRuns.PrefixIffOldest` | internal/agentlifecycle/writer.go:223-252 | in every run, wired or not, the emitted events are a beginning of the transitions throughout if and only if every emission is of a notice equal to the one held longest |
| `LifecycleRuns.EmittedIsPrefix` | internal/agentlifecycle/writer.go:223-252 | always emitting the notice held longest is one way to achieve it |
| `LifecycleRuns.EmissionCanReorder` | internal/agentlifecycle/writer.go:170-185 | nothing forces that order: an ending can be emitted before its start |
| `Snapshot.SnapshotStore.HandleEvent` | internal/events/snapshotsink.go:32-107 | projects the event onto the task's own snapshot, creating one unless the event is terminal |
| `Snapshot.StatusProjected` | internal/events/snapshotsink.go:62-88 | the status each action sets, and that no other action changes it |
| `Snapshot.TimesProjected` | internal/events/snapshotsink.go:41-88 | only heartbeats move the heartbeat time, a start sets the start time once, an ending sets the terminal time |
| `Snapshot.PhaseProjected` | internal/events/snapshotsink.go:53-98 | the phase each action sets; a heartbeat changes only a coarse one |
| `Snapshot.ToolProjected` | internal/events/snapshotsink.go:112-127 | the tool is set by a tool's start, cleared by its end and the agent's, and never cleared by a heartbeat |
| `Snapshot.ExcerptProjected` | internal/events/snapshotsink.go:130-142 | the excerpt is the first 256 characters of a message's preview or detail, and only a message with text changes it |
| `Snapshot.PlaceProjected` | internal/events/snapshotsink.go:62-73 | a start sets the backend and pod it names, nothing else does |
| `Snapshot.EveryEventCorrelates` | internal/events/snapshotsink.go:41-51 | every event leaves its time, and its mission and objective when it carries them |
| `Snapshot.SnapshotStore.CheckUnresponsive` | internal/events/snapshotsink.go:147-167 | marks the task iff its snapshot exists, is not terminal, is not marked yet and its heartbeat is overdue; an absent snapshot is created empty |
| `Snapshot.CheckMarks` | internal/events/snapshotsink.go:147-167 | a check marks a snapshot that has not ended when its last heartbeat is over three intervals old |
| `Snapshot.SnapshotStore.CleanUp` | internal/events/snapshot.go:123-135 | removes exactly the snapshots that have been terminal for longer than the time to live |
| `Snapshot.CleanupDrops` | internal/events/snapshot.go:123-135 | a cleanup drops a snapshot iff it ended at a known time more than the time to live ago |
| `Snapshot.StatusSinceCreation` | internal/events/snapshotsink.go:32-107 | after any operations the status is that of the last lifecycle event projected since creation, none if there was none |
| `Snapshot.TerminalNeverCreates` | internal/events/snapshotsink.go:100-104 | a terminal event leaves the existence of the snapshot as it was |
| `Snapshot.TerminalIsDated` | internal/events/snapshotsink.go:74-88 | a terminal snapshot's time is that of the last lifecycle event, so cleanup is decided by it |
| `Snapshot.SnapshotAgrees` | internal/events/snapshotsink.go:32-107 | in every wired run with events in transition order, a snapshot kept since some lifecycle.started has the durable status whenever that is running or terminal |
| `Snapshot.SnapshotAgreesIff` | internal/events/snapshotsink.go:32-107 | in every wired run, whatever the order of emission, once everything has arrived the two agree if and only if the notice emitted last announces what the last transition did |
| `Snapshot.SnapshotDisagrees` | internal/events/snapshotsink.go:57-79 | a reordered run whose row is Completed and whose snapshot is Running |
| `ConfigApply.Workspace.RollBack` | cmd/config_mcp_add.go:524-540 | restores the backups latest first, then deletes the new files |
| `ConfigApply.Workspace.Try` | cmd/config_mcp_add.go:542-564 | one action: backup, body, bookkeeping, and at an error the rollback of everything before it |
| `ConfigApply.Workspace.Apply` | cmd/config_mcp_add.go:504-568 | the whole apply: normalisation, the first failing action and what is left then, or the written files without backups |
| `ConfigApply.NewFilesAbsent` | cmd/config_mcp_add.go:461-470 | without force the plan is accepted iff no file it would create exists |
| `ConfigApply.RollbackUndoes` | cmd/config_mcp_add.go:524-540 | rolling back a successful run undoes it action by action, up to exactly what each kind of action leaves |
| `ConfigApply.FailureRestores` | cmd/config_mcp_add.go:504-568 | whichever action fails, the files are as they were if and only if every earlier action was undoable and the failing one neither lost nor left a backup file |
| `ConfigApply.OldBackupLost` | cmd/config_mcp_add.go:524-540 | a failed apply that loses the backup file an edited target had before |
| `ConfigApply.CreatedFileStays` | cmd/config_mcp_add.go:542-560 | a failed apply that leaves the file an edit created |
| `ConfigApply.OverwrittenFileLost` | cmd/config_mcp_add.go:535-539 | a failed apply that deletes a file it had overwritten |
| `ConfigApply.AllOrNothing` | cmd/config_mcp_add.go:504-568 | for plans with existing edit targets, absent new files and no backup files around, every failure restores the files |
| `ConfigApply.SuccessInstalls` | cmd/config_mcp_add.go:566-568 | on success every written target holds its content, no backup of an edited target remains, and every other path is as it was |
| `YamlEdit.MappingGet` | internal/mcpcatalog/localcfg.go:214-224 | the value of the first entry with the key |
| `YamlEdit.MappingSet` | internal/mcpcatalog/localcfg.go:228-239 | replaces the first entry's value in place or appends an entry |
| `YamlEdit.MappingDelete` | internal/mcpcatalog/localcfg.go:242-253 | removes the first entry with the key and reports whether there was one |
| `YamlEdit.GetSet` | internal/mcpcatalog/localcfg.go:214-239 | setting a key is seen by reading that key and by no other read |
| `YamlEdit.DeleteSet` | internal/mcpcatalog/localcfg.go:228-253 | deleting undoes setting if and only if the key was new |
| `YamlEdit.KeysSet` | internal/mcpcatalog/localcfg.go:228-239 | keys keep their order and a new one goes last |
| `YamlEdit.UpsertProblem` | internal/mcpcatalog/localcfg.go:259-282 | exactly when an upsert is refused and with which error |
| `YamlEdit.UpsertLookup` | internal/mcpcatalog/localcfg.go:259-282 | after a successful upsert, lookup gives the block |
| `YamlEdit.UpsertFrame` | internal/mcpcatalog/localcfg.go:177-211 | successful or not, the node at every diverging path is as it was |
| `YamlEdit.UpsertKeys` | internal/mcpcatalog/localcfg.go:177-211 | on the way down every mapping keeps its keys in order and gains at most the next one, last |
| `YamlEdit.UpsertUnique` | internal/mcpcatalog/localcfg.go:259-282 | no mapping of the tree gets a key twice |
| `YamlEdit.UpsertIdempotent` | internal/mcpcatalog/localcfg.go:259-282 | repeating a forced upsert changes nothing more |
| `YamlEdit.RemoveUndoes` | internal/mcpcatalog/localcfg.go:306-331 | removing after adding gives the servers mapping back if and only if the mode was new and the entry absent or non-empty, and the whole tree iff the servers mapping also existed |
| `YamlEdit.RemoveEntryUndoes` | internal/mcpcatalog/localcfg.go:438-452 | the same for a compose service: if and only if it was new |
| `YamlEdit.RemoveLookup` | internal/mcpcatalog/localcfg.go:306-331 | with unique keys the removed mode is gone, whatever the nodes on the way are |
| `YamlEdit.RemoveFrame` | internal/mcpcatalog/localcfg.go:306-331 | with unique keys every path diverging from the server is as it was |
| `YamlEdit.AddThenRemove` | internal/mcpcatalog/localcfg.go:259-331 | the same for whole files, empty ones included |
| `YamlEdit.RemovedFromFile` | internal/mcpcatalog/localcfg.go:306-331 | in a file with unique keys nothing is left at mcp_servers.servers.<id>.<mode>, and every path diverging from the server is as it was |
| `YamlEdit.ServiceRemovedFromFile` | internal/mcpcatalog/localcfg.go:438-452 | in a file with unique keys nothing is left at services.<name> |
| `YamlEdit.YamlFile.UpsertMcpServer` | internal/mcpcatalog/localcfg.go:259-282 | the edited tree or the error, for every mode and name; on success the block is at mcp_servers.servers.<id>.local or .remote |
| `YamlEdit.YamlFile.RemoveMcpServer` | internal/mcpcatalog/localcfg.go:306-331 | the tree without the mode, and without the server when nothing else is left |
| `YamlEdit.YamlFile.UpsertComposeService` | internal/mcpcatalog/localcfg.go:417-434 | the edited tree or the error; on success the block is at services.<name> |
| `YamlEdit.YamlFile.RemoveComposeService` | internal/mcpcatalog/localcfg.go:438-452 | the tree without the service |
| `RemoteBus.RemoteBus.Emit` | internal/events/remotebus.go:79-92 | a stopped bus ignores the event; otherwise it is appended, and a flush is due when the batch is full |
| `RemoteBus.RemoteBus.FlushFailed` | internal/events/remotebus.go:134-151 | on an open bus batch and pending stay, all of them while they fit in 2 * maxBatchSize and else exactly the newest that many; after Close the batch is lost |
| `RemoteBus.FailedFlushKeeps` | internal/events/remotebus.go:140-148 | the same in the protocol: nothing is trimmed while there is room, and else only the oldest events |
| `RemoteBus.TrimmedOnlyWhenFull` | internal/events/remotebus.go:140-148 | in every run events are trimmed only by a failed flush of an open bus that leaves exactly 2 * maxBatchSize pending |
| `RemoteBus.EventsConserved` | internal/events/remotebus.go:79-152 | in every run with any number of overlapping flushes, each accepted event is in exactly one of delivered, in flight, pending, trimmed or lost after Close |
| `RemoteBus.OrderKept` | internal/events/remotebus.go:124-152 | with one flush at a time, delivered, in-flight and pending events together are an in-order subsequence of the emitted ones |
| `RemoteBus.OrderIffOneFlush` | internal/events/remotebus.go:124-152 | for every run over distinct events, flushes never overlap if and only if at every moment every order in which the posts in flight can succeed delivers in order |
| `RemoteBus.OverlapReorders` | internal/events/remotebus.go:124-152 | two overlapping flushes can deliver events out of order |
| `PagedFetch.FetchPaginated` | internal/loaders/mcp_fetcher.go:213-404 | for any tool at most ceil(maxRows/pageSize) calls and maxRows rows, and after a first page a failure is a partial result; over an honest server exactly the first min(size, maxRows) rows, and a partial result is a prefix with the right count |
| `PagedFetch.AdvanceServed` | internal/loaders/mcp_fetcher.go:310-395 | one reply of an honest server keeps the rows a prefix and stops only when they are complete |
| `PythonList.ParsePythonList` | internal/loaders/response_adapters.go:199-228 | the index loop computes the recursive scan |
| `PythonList.RoundTrip` | internal/loaders/response_adapters.go:199-228 | parsing undoes printing, for any choice of quotes and with embedded commas and quotes, if and only if the list is non-empty and every value is trimmed and does not end in a backslash |
| `PythonList.ParsePlain` | internal/loaders/response_adapters.go:199-228 | without quotes the parser splits at the commas and trims every piece |
| `PythonList.PiecesJoin` | internal/loaders/response_adapters.go:199-228 | those pieces are the string cut at its commas |
| `Strings.TrimCuts` | internal/loaders/response_adapters.go:199-228 | trimming cuts off white space at both ends, and all of it |
| `PythonList.TrailingBackslashLost` | internal/loaders/response_adapters.go:199-228 | the literal list with a trailing backslash that comes back changed |

## Left out

- The database fallback of the watch handler and the snapshot message it sends: a ring miss ends the delivery claim.
- Two concurrent emitters for one task: the bus takes no lock, and the delivery claim is for one emitter at a time.
- Ring.EventStore: holds the contents of each ring (which `Ring.AgentRing` refines), not the ring objects, so their sharing is not captured.
- Errors of the graph client in the middle of a migration, parallel edges of one type between two nodes, and Cypher text.
- Graph writes of the gateway, tool call forwarding, `VisibleToolsForAgent`, and the wrap-around of the 64-bit generation counter.
- Interleavings inside `ReconcileServer`: it is modelled as running alone, and builds are what interleaves.
- Failures of `IncrementMissionCount` and of `Update`: counters and statuses are taken to be written.
- Stale writes of an objective other than from the lists of the reaper and the convergence check: evaluations, verdicts and unfreezing read and write in one step.
- PagedFetch.FetchPaginated: a page is written whole or not at all; a write or flush that fails half way is not modelled.
- Dedupe keys: an enqueue may fail for any reason, so the unique index is covered but not stated.
- Unconditional status updates by other components (`say`, the worker's fallback, start-up recovery): only the writer, the queue and the reaper act on rows.
- The order in which file writes reach the disk, unreadable files, and failures of the rollback's own writes; temp-file cleanup.
- YAML style, comments, anchors and lexing: a tree of nodes with mappings as key/value pairs. The editor's pointers into the tree are modelled as a rewritten tree, so aliasing of nodes is not captured.
- `AppendEnvExample` and `NormalizeFractaYAML` beyond their effect on the file map.
- Killing pods and cancelling missions in the reaper: a failed kill skips the agent, which is a run without that step.
- `CheckAllUnresponsive`, `PolicySummary`, `parseTabularTextIndexed` and the other response adapters: they would only add easy members.
- HTTP, command line, OAuth, process supervision, rendering, connection pooling: plumbing.
