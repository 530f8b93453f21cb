# NexusDock: verified models of its stateful cores

NexusDock is a hub between language-model clients and AgentDock nodes. This project models the parts of its Go server that
keep state across calls, and proves what they promise over whole runs:

* **Work continuation** (`Continuation*.dfy`): a durable document per WorkSession with wakes, dispatch attempts, a controller
  endpoint, budgets, and a receipt table that retrying nodes feed. Requests are functions on values
  (`ContinuationSpec`); a class whose methods assign the fields step by step is proved equal to them
  (`ContinuationDocument`, `ContinuationStore`); the results are about every sequence of requests and node batches
  (`ContinuationRuns`, `ContinuationDispatch`, `ContinuationEndpoint`, `ContinuationUndercut`, `ContinuationPermits`,
  `ContinuationFates`, `ContinuationReports`, `ContinuationRetention`, with `Moments`); when each request is accepted and what it
  leaves is said in stored fields alone (`ContinuationLaws`).
* **Fleet tool catalogue** (`Schema*.dfy`, `FleetTools`, `FleetLaws`, `Catalogue`, `CatalogueListing`, `CatalogueServer`, `Folding`, `Names`): the recursive merge
  of JSON schemas with its semantic normal form and its meaning (which values a schema accepts), and the catalogue that is
  maintained incrementally while nodes come and go.
* **OAuth token families** (`OAuth*.dfy`): codes, grants, rotation history, replay revocation, pruning.
* **Node connection hub** (`Hub*.dfy`): handshakes, updates, disconnects, read loops, calls and an administrator's changes of a node's
  row, interleaved at lock granularity.
* **Artifact relay** (`ArtifactRelay`), **workflow publication** (`WorkflowRegistry`, `WorkflowLaws`), **embedding placement**
  (`WorkflowVectors`), **keyed lock** (`KeyedLock`), **fixed-window limiter** (`Limiter`).

Conventions: identifiers and secrets are fresh natural numbers, 0 is the blank string, a digest keeps what was digested (so it is
injective), times are integers, SQL tables are maps or sequences, a transaction is one step. Where a request is modelled twice, the
function is the specification and the class method is proved to return and leave exactly what it says.

Properties that one might assume but the code does not have are stated with the exact condition under which they hold, and each
with a run in which they fail:

* rounds used may exceed the round limit, exactly when an `enable` asked for a limit below what was used and no recovery followed
  (`OverLimitExactly`, `LimitUndercutExample`);
* a tool announced under a name with white space around it stays listed after its node leaves (`StaleToolExactly`,
  `PaddedNameExample`);
* overlapping changes of the Apps switch may leave the server on the earlier setting (`CrossedSwitches`, `CrossedSwitchesExample`);
  `ServerRightExactly` says for every run and every name when the server is right;
* a handshake or update that is stored but cannot be read back or confirmed leaves the node's row ahead of the catalogue
  (`LostReadyDiverges`, `LostUpdateDiverges`, `LostReadyExample`);
* a registered node is published except when its row was disabled at the moment a handshake or update read it back, and this may
  outlast the disabling (`PublishedExactlyWhenAdmitted`, `HiddenAsReadBack`, `DisabledMeanwhileExample`);
* a disabled node is disconnected unless the update that disabled it could not read the row back (`DisabledIsDisconnected`,
  `AbandonedExample`);
* a fresh authorization code does not survive a client registration when its client has been idle too long
  (`CodeSurvivesRegistration`, `LiveCodeLostExample`);
* an aborted download of an empty artifact has nothing missing (`EmptyAborts`, `EmptyAbortExample`).

## Model

| member | source | states |
|---|---|---|
| ContinuationRuns.OutcomesArePlacedOnce | internal/project/continuation.go:682-756 | over every run of requests, retried node batches and retention, a command outcome is placed in at most one wake ever |
| ContinuationRuns.AcknowledgedAndAwaitedKept | internal/project/continuation.go:758-850 | every acknowledged event has a committed receipt, and every stored result that is still awaited sits in an unsettled wake |
| ContinuationRuns.HeldNeverLapses | internal/project/continuation.go:892-900 | retention never clears a result that an unsettled wake holds |
| ContinuationRuns.RunKeepsOnce | internal/core/schema.go:261-273 | both uniqueness constraints of the receipt table and the placement invariant hold in every reachable state |
| ContinuationDispatch.DispatchedAndConsumedAtMostOnce | internal/project/continuation.go:566-636 | over every run, prepare returns the automatic message at most once per wake and consume succeeds at most once per wake |
| ContinuationDispatch.ConsumptionMatchesDispatch | internal/project/continuation.go:644-680 | consume hands over exactly the outcome list that an earlier prepare of the same wake validated |
| ContinuationDispatch.EnvelopeAcceptedExactlyWhileOpen | internal/project/continuation.go:644-680 | an envelope that was ever handed out is accepted if and only if its wake still awaits consumption in a current context |
| ContinuationDispatch.BudgetsAccounted | internal/project/continuation.go:206-252 | rounds used are the prepares since the last recovery and at most 100; failures are 0 without an unresolved dispatch and at most 2 |
| ContinuationDispatch.SingleUnresolvedDispatch | internal/project/continuation.go:506-606 | at most one wake is outside pending and settled; its latest attempt carries the same state and a prepared time exactly from prepared onward |
| ContinuationDispatch.UnsettledCarryCurrentEndpoint | internal/project/continuation.go:432-466 | every unsettled wake carries the current endpoint id and controller generation |
| ContinuationFates.DispatchWarranted | internal/project/continuation.go:566-606 | over every run a dispatch is prepared only under an enabling nobody has paused since and a consent nobody has taken back since, with the secret of the latest presentation and a running lease, within both budgets, with nothing unresolved, for the view's own claim of current outcomes |
| ContinuationFates.PausedDispatchesNothing | internal/project/continuation.go:348-350 | over every run, after an accepted pause by owner or view, nothing is acquired, prepared or dispatched until an accepted enable or recovery |
| ContinuationFates.EnabledAcquires | internal/project/continuation.go:327-347 | an enable within the limits makes a current pending wake acquirable for a known, consenting view |
| ContinuationFates.RejectedNeverConsumed | internal/project/continuation.go:607-636 | a wake whose first report, before consumption, was a rejected delivery is never consumed, whatever follows |
| ContinuationFates.ConsumedOnlyAsHandedOut | internal/project/continuation.go:644-680 | over every run an accepted consume request carries exactly an envelope that an earlier prepare handed out, and receives its outcomes |
| ContinuationFates.OnlyTheOwnerIsHeard | internal/project/continuation.go:67-93 | only the owner of a WorkSession is heard, refused requests change nothing, and no request touches another session |
| ContinuationPermits.EnabledMeans | internal/project/continuation.go:327-350 | an enabled document was enabled or recovered by an accepted request and not paused since |
| ContinuationPermits.PausedMeans | internal/project/continuation.go:348-350 | a document paused by anybody is disabled until an accepted enable or recovery |
| ContinuationPermits.ConsentExactly | internal/project/continuation.go:489-504 | there is consent if and only if a view has bound with it, and no presentation, view pause or other view's binding followed |
| ContinuationPermits.SecretExactly | internal/project/continuation.go:432-478 | the stored digest is that of a secret if and only if the latest presentation answered with it |
| ContinuationReports.NoWakeOutgrowsItsBatch | internal/project/continuation.go:712-756 | over every run no wake holds more than 32 outcomes, or more than one MiB of several |
| ContinuationEndpoint.GenerationsAdvance | internal/project/continuation.go:432-466 | a step keeps the endpoint or moves to a strictly later generation, and never moves it while a dispatch is unresolved |
| ContinuationEndpoint.LimitHoldsUnlessUndercut | internal/project/continuation.go:327-347 | a request keeps rounds used within the limit if and only if it is not an enable with a limit below the rounds used |
| ContinuationEndpoint.OverLimitExactly | internal/project/continuation.go:327-378 | over every run a stored document has used more rounds than its limit if and only if an accepted enable asked for a limit below the rounds used and no accepted recovery followed |
| ContinuationUndercut.LimitUndercutExample | internal/project/continuation.go:334-339 | a run of requests and reports from the empty store with two of eight rounds used, and an enable that is accepted and sets the limit to one |
| ContinuationExpiry.ExpiryIsStable | internal/project/continuation.go:214-252 | expiring at t and then at a later t' equals expiring once at t', apart from update stamps |
| ContinuationExpiry.ReadRefinesLocked | internal/project/continuation.go:130-160 | the lock-free read answers as the locked read would, apart from its update stamp, and falls back to the lock exactly when something is due |
| ContinuationSaving.CompactionKeepsHistory | internal/project/continuation.go:853-888 | compaction keeps all unsettled wakes in order and exactly the newest 32 settled ones |
| ContinuationSaving.KeptLookup | internal/project/continuation.go:853-888 | compaction changes no latest-attempt lookup of a kept wake |
| ContinuationRuns.HandleKeeps | internal/project/continuation.go:320-680 | every request keeps the document invariant and moves wakes forward only: a fenced wake is never dispatchable again, taken-over work never handed over again |
| ContinuationPlacement.MergeAllGrows | internal/project/continuation.go:682-756 | merging stored outcomes places every awaited one, each once, and adds nothing else |
| ContinuationLaws.AcquireExactly | internal/project/continuation.go:506-565 | a claim is made if and only if the known view holds its lease, work is enabled, consented to and within both budgets, nothing is claimed or unresolved, and the first pending wake is current |
| ContinuationLaws.ClaimLeaves | internal/project/continuation.go:540-565 | the first pending wake is claimed with a new attempt of this view for 30 seconds, and nothing else changes |
| ContinuationLaws.OwnClaimReturned | internal/project/continuation.go:520-540 | a view that asks again gets the claim it already has, and nothing changes |
| ContinuationLaws.PrepareExactly | internal/project/continuation.go:566-590 | a dispatch is prepared if and only if the known view asks for its own unprepared claim, work is allowed, nothing is unresolved and all outcomes are current |
| ContinuationLaws.PreparedLeaves | internal/project/continuation.go:590-606 | a fresh credential is handed out and stored, one round used, 45 seconds given to the dispatch and 90 to the view |
| ContinuationLaws.FinishExactly | internal/project/continuation.go:607-621 | a report is accepted if and only if the known view reports one of the three results about the latest, prepared attempt of the wake |
| ContinuationLaws.FirstReportLeaves | internal/project/continuation.go:622-636 | the first report before consumption puts wake and attempt in the reported state; a result other than acceptance counts one failure, opens the circuit at the limit and otherwise calls for attention |
| ContinuationLaws.OtherReportLeaves | internal/project/continuation.go:618-636 | a repeated report changes nothing, a late one leaves its time on the attempt and nothing else |
| ContinuationLaws.ConsumeExactly | internal/project/continuation.go:644-668 | an envelope is accepted if and only if it matches endpoint, generation, latest attempt and stored credential of a dispatched wake that is not taken over and whose outcomes are current |
| ContinuationLaws.ConsumedLeaves | internal/project/continuation.go:668-680 | consumption takes the wake over, voids its credential and hands over its outcomes |
| ContinuationLaws.BindExactly | internal/project/continuation.go:489-498 | a view takes the endpoint if and only if it knows it and no other view's lease runs; consent is its own |
| ContinuationLaws.HeartbeatExactly | internal/project/continuation.go:500-501 | a heartbeat of the leased view renews its lease for 90 seconds and nothing else |
| ContinuationLaws.ViewPauseExactly | internal/project/continuation.go:502-505 | a pause by the leased view disables the document and takes the consent back |
| ContinuationLaws.EnableExactly | internal/project/continuation.go:327-347 | enabling needs a confirmation, budgets that are not spent and limits in range, and sets exactly these |
| ContinuationLaws.PauseExactly | internal/project/continuation.go:348-350 | a pause is never refused and disables the document |
| ContinuationLaws.RecoverExactly | internal/project/continuation.go:351-378 | recovery needs a confirmation, a checkpoint for a wake it names and nothing unresolved besides that wake, which it settles; it resets both budgets |
| ContinuationLaws.AwaitExactly | internal/project/continuation.go:379-401 | awaiting needs an enabled session and one to 32 distinct current sources none of whose results has lapsed |
| ContinuationLaws.SettleExactly | internal/project/continuation.go:402-418 | settling needs a wake that was consumed, and a checkpoint |
| ContinuationLaws.SettledLeaves | internal/project/continuation.go:418-428 | settling closes wake and attempt and clears the failures, and nothing else changes |
| ContinuationLaws.PresentExactly | internal/project/continuation.go:432-466 | presenting needs a recovery flag for a second endpoint and nothing unresolved; the new secret is fresh, consent is gone, and undispatched wakes follow |
| ContinuationLaws.MergeExactly | internal/project/continuation.go:712-756 | an awaited outcome that no wake holds goes to the end of the first wake that takes it, or into a new last wake |
| ContinuationLaws.ExpiryExactly | internal/project/continuation.go:214-252 | expiry moves every wake as its own lease or consumption time says, and nothing else about it |
| ContinuationLaws.ExpiryBudget | internal/project/continuation.go:206-252 | a dispatch that times out counts one failure, overdue work calls for attention, and nothing else changes the budget |
| ContinuationLaws.ReplyShows | internal/project/continuation.go:254-282 | an answer shows the first wake that is neither pending nor settled, else the first pending one, with its newest attempt |
| ContinuationLaws.ReplyTells | internal/project/continuation.go:254-282 | an answer shows state and endpoint as stored, and no secret or message |
| ContinuationReports.RecordExactly | internal/project/continuation.go:758-830 | a terminal outcome is recorded if and only if it is complete, not too long, from the node that serves its live Target, and the one recorded for its event or new in event and command |
| ContinuationReports.RecordLeaves | internal/project/continuation.go:800-850 | a new outcome is appended, with its payload only for a live Target whose document takes it; a known one changes nothing; both are acknowledged |
| ContinuationReports.CollectExactly | internal/project/continuation.go:758-772 | a batch is taken if and only if it is a named node's, of at most 32 reports, within its size, and every report is recorded |
| ContinuationReports.StoredInOrder | internal/project/continuation.go:682-710 | stored outcomes are read once each, by the time they were received and then by event |
| ContinuationRetention.RetentionExactly | internal/project/continuation.go:892-900 | a pass clears exactly the node's eligible rows that nobody awaits or carries and that are older than thirty days or have at least 1024 newer eligible rows of the node; every other row stays |
| ContinuationRetention.NewestStay | internal/project/continuation.go:892-900 | of two unprotected rows of a node the newer one is never cleared while the older one stays |
| ContinuationRetention.FewAndYoungStay | internal/project/continuation.go:892-900 | with at most 1024 eligible rows, none older than thirty days, nothing changes |
| ContinuationRetention.NewestClearedOnlyByAge | internal/project/continuation.go:892-900 | the newest eligible row of a node is cleared only when it is too old |
| ContinuationDocument.Document.ExpireContinuation | internal/project/continuation.go:214-252 | the loop over wakes leaves the document that the expiry function gives |
| ContinuationDocument.Document.MergeOutcome | internal/project/continuation.go:712-756 | an awaited outcome not yet held is put in order into the first pending or claimed wake with room, or into a new wake |
| ContinuationDocument.Document.MergeStoredOutcomes | internal/project/continuation.go:682-710 | the stored outcomes of the awaited sources are merged in row order |
| ContinuationDocument.Document.ControlContinuation | internal/project/continuation.go:320-430 | enable, pause, recover, await and settle answer and change the document as their functions say, with every error case; the `ContinuationLaws` rows say when and how |
| ContinuationDocument.Document.PresentContinuation | internal/project/continuation.go:432-466 | presenting gives a new endpoint with the next generation and restamps unsettled wakes, or refuses |
| ContinuationDocument.Document.ControllerContinuation | internal/project/continuation.go:480-642 | bind, state, heartbeat, pause, acquire, prepare and finish answer and change the document as their functions say |
| ContinuationDocument.Document.AcquireClaim | internal/project/continuation.go:506-565 | claims the first pending wake in order, returns the view's own claim, or refuses |
| ContinuationDocument.Document.PrepareMessage | internal/project/continuation.go:566-606 | crosses the dispatch fence once: wake, attempt, credential, lease and round change together |
| ContinuationDocument.Document.FinishDelivery | internal/project/continuation.go:607-636 | the first delivery report moves the wake to the reported state; a late or repeated one only leaves its receipt (`FirstReportLeaves`, `OtherReportLeaves`) |
| ContinuationDocument.Document.ConsumeWorkWake | internal/project/continuation.go:644-680 | consumption checks endpoint, generation, attempt and credential, and hands the outcomes over |
| ContinuationDocument.Document.CompactContinuation | internal/project/continuation.go:853-888 | the two filtering loops leave the compacted document |
| ContinuationStore.Store.SaveContinuation | internal/project/continuation.go:95-105 | clears the receipts of settled wakes, compacts, stamps and stores the document |
| ContinuationStore.Store.Change | internal/project/continuation.go:107-128 | one write transaction takes exactly one step of the modelled system, or changes nothing on error |
| ContinuationStore.Store.RecordOutcome | internal/project/continuation.go:758-850 | one reported outcome: new receipt and placement, a repeated one acknowledged, a conflicting one refused |
| ContinuationStore.Store.RecordCommandOutcomes | internal/project/continuation.go:758-850 | a batch commits as a whole and acknowledges exactly its terminal events, or changes nothing |
| ContinuationStore.AckIdsExactly | internal/project/continuation.go:765-850 | a batch acknowledges the events of its terminal outcomes, and no others |
| ContinuationStore.Store.ExpireUnawaitedReceipts | internal/project/continuation.go:892-900 | of a node's unawaited results, those older than 30 days or beyond the newest 1024 lose their payload |
| ContinuationStore.CollectNodeCommandOutcomes | internal/httpx/command_outcomes.go:80-100 | read, commit, then acknowledge, whatever the node answers: an outcome stays pending on the node or has a committed acknowledged receipt; when all three steps succeed exactly the acknowledged events have left the node, otherwise none has |
| SchemaAlgebra.SemIdempotent | internal/httpx/mcp_tool_contract.go:113-180 | normalising a schema twice is normalising it once |
| SchemaAcceptance.SemKeepsAcceptance | internal/httpx/mcp_tool_contract.go:113-180 | normalising a schema never changes which values it accepts |
| SchemaMeaning.AkinIsSameForm | internal/httpx/mcp_tool_contract.go:113-180 | two schemas have the same normal form if and only if they are equal up to title and description, an empty required, and the order of required and enum, at every depth the keywords reach |
| SchemaMeaning.EnumMeans | internal/httpx/mcp_tool_contract.go:130-180 | a schema of this keyword alone accepts exactly a listed value, whatever its place |
| SchemaMeaning.RequiredMeans | internal/httpx/mcp_tool_contract.go:130-180 | a schema of this keyword alone accepts exactly an object with all the names |
| SchemaMeaning.PropertiesMean | internal/httpx/mcp_tool_contract.go:130-180 | a schema of this keyword alone accepts exactly an object whose named members are accepted |
| SchemaMeaning.PatternPropertiesMean | internal/httpx/mcp_tool_contract.go:130-180 | a schema of this keyword alone accepts exactly an object whose matching members are accepted |
| SchemaMeaning.DependentSchemasMean | internal/httpx/mcp_tool_contract.go:130-180 | a schema of this keyword alone accepts exactly an object that the schemas of its members accept |
| SchemaMeaning.DefinitionsMean | internal/httpx/mcp_tool_contract.go:130-180 | a schema of this keyword alone accepts exactly everything: definitions assert nothing |
| SchemaMeaning.ItemsMean | internal/httpx/mcp_tool_contract.go:130-180 | a schema of this keyword alone accepts exactly an array whose items are accepted |
| SchemaMeaning.ContainsMeans | internal/httpx/mcp_tool_contract.go:130-180 | a schema of this keyword alone accepts exactly an array one of whose items is accepted |
| SchemaMeaning.NotMeans | internal/httpx/mcp_tool_contract.go:130-180 | a schema of this keyword alone accepts exactly what the schema does not accept |
| SchemaMeaning.PropertyNamesMean | internal/httpx/mcp_tool_contract.go:130-180 | a schema of this keyword alone accepts exactly an object whose names are accepted |
| SchemaMeaning.AdditionalPropertiesMean | internal/httpx/mcp_tool_contract.go:130-180 | a schema of this keyword alone accepts exactly an object whose members are accepted |
| SchemaMeaning.ConditionMeans | internal/httpx/mcp_tool_contract.go:130-180 | a schema of this keyword alone accepts exactly what the chosen branch of a condition accepts |
| SchemaMeaning.PrefixItemsMean | internal/httpx/mcp_tool_contract.go:130-180 | a schema of this keyword alone accepts exactly an array whose first items are accepted one by one |
| SchemaMeaning.AllOfMeans | internal/httpx/mcp_tool_contract.go:130-180 | a schema of this keyword alone accepts exactly what all schemas accept |
| SchemaMeaning.AnyOfMeans | internal/httpx/mcp_tool_contract.go:130-180 | a schema of this keyword alone accepts exactly what some schema accepts |
| SchemaMeaning.OneOfMeans | internal/httpx/mcp_tool_contract.go:130-180 | a schema of this keyword alone accepts exactly what exactly one schema accepts |
| SchemaMeaning.ItemsAfterPrefix | internal/httpx/mcp_tool_contract.go:130-180 | two keywords together judge exactly items behind the prefix by `items` |
| SchemaMeaning.AdditionalAfterProperties | internal/httpx/mcp_tool_contract.go:130-180 | two keywords together judge exactly undeclared members by `additionalProperties` |
| SchemaOrder.MergeCongruent | internal/httpx/mcp_tool_contract.go:542-644 | the merge depends on its inputs only through their normal forms |
| SchemaOrder.MergeCommutes | internal/httpx/mcp_tool_contract.go:542-644 | merging is commutative up to normal form, including whether it fails |
| SchemaOrder.MergeAssociates | internal/httpx/mcp_tool_contract.go:542-644 | merging is associative up to normal form, including whether it fails |
| SchemaOrder.MergeIgnoresOrder | internal/httpx/mcp_tool_contract.go:524-644 | whether any number of well-formed schemas merge, and the normal form of the result, does not depend on their order |
| SchemaMeaning.AkinMerge | internal/httpx/mcp_tool_contract.go:542-644 | two schemas that say the same merge if and only if their required and properties can be read at every level |
| SchemaMeaning.MergeExactly | internal/httpx/mcp_tool_contract.go:542-644 | two schemas merge if and only if both can be read, require the same names, agree in every ordinary keyword, and every property is mergeable or on one side only and not required |
| SchemaMeaning.MergedExactly | internal/httpx/mcp_tool_contract.go:542-644 | the merge requires the same names, keeps the first side's keywords, and has the properties of both, merged where both have them |
| SchemaWidening.MergeAccepts | internal/httpx/mcp_tool_contract.go:542-644 | for closed schemas, a value either side accepts is accepted by the merge, and the required names stay the same |
| SchemaWidening.PublishedAcceptsAll | internal/httpx/mcp_tool_contract.go:356-417 | a value that any one of any number of providers accepts is accepted by the published schema |
| Folding.FoldIgnoresOrder | internal/httpx/mcp_tool_contract.go:384-399 | folding a list with an operation that is commutative and associative up to sameness does not depend on the order |
| FleetTools.VisibilityKept | internal/httpx/mcp_tool_contract.go:400-416 | the published tool is visible on exactly the surfaces every provider declares, even when display metadata are dropped |
| FleetTools.PublishedExactlyWhen | internal/httpx/mcp_tool_contract.go:356-417 | a tool is published if and only if names, execution metadata and visibility agree and both schemas merge |
| FleetTools.PublicationIgnoresOrder | internal/httpx/mcp_tool_contract.go:356-417 | publication and the normal forms of both published schemas do not depend on the order of the providers |
| FleetTools.DisplayIgnoresOrder | internal/httpx/mcp_tool_contract.go:419-510 | merged metadata and safety hints do not depend on the order of the providers |
| FleetLaws.VisibilityMeans | internal/httpx/mcp_tool_visibility.go:11-47 | without a declaration a tool is for model and Apps; a declaration has to be a list of these names and says it exactly |
| FleetLaws.SameContract | internal/httpx/mcp_tool_contract.go:39-84 | two tools have the same contract if and only if their schemas say the same, on the same surfaces, with the same other metadata |
| FleetLaws.PublishedFor | internal/httpx/mcp_tool_contract.go:356-417 | a tool is published if and only if all nodes announce it under one name, for the same surfaces, with the same other metadata, and both kinds of schemas merge; exactly the providers' contracts are accepted |
| FleetLaws.HintsExactly | internal/httpx/mcp_tool_contract.go:441-510 | read-only and idempotent only when every provider says so, destructive and open-world unless every provider denies it; other annotations when all share them |
| FleetLaws.MetaExactly | internal/httpx/mcp_tool_contract.go:400-439 | display metadata stay if and only if all providers share them, and a restricted visibility stays |
| FleetLaws.ListedExactly | internal/httpx/mcp_gateway.go:185-223 | a tool is listed if and only if its surfaces are known and the switch is on or the model is among them, with the same surfaces and without App bindings when the switch is off |
| FleetLaws.SnapshotExactly | internal/httpx/mcp_tool_contract.go:234-262 | a snapshot holds exactly the last descriptor of every announced trimmed name that may be reconciled |
| FleetLaws.InOrderExactly | internal/httpx/mcp_tool_contract.go:276-291 | the offers of a name are listed by ascending node id, each once |
| Catalogue.CatalogueAgrees | internal/httpx/mcp_tool_contract.go:231-354 | in every interleaving, a name nobody still has to reconcile is published exactly when recomputing from the live snapshots succeeds, and with that result |
| CatalogueListing.ServerExactly | internal/httpx/mcp_gateway.go:139-183 | after every run, with any names and overlapping switch changes, a tool is listed under its announced spelling as the switch stood at its last registration, and any other spelling exactly when it was given up while listed and its trimmed name has not been retired since |
| CatalogueListing.ServerRightExactly | internal/httpx/mcp_gateway.go:139-183 | after every settled run the server is right about a name if and only if its tool was last registered under the present setting or looks the same under both, and, for a spelling no tool has, none was left behind |
| CatalogueListing.SameEitherWayMeans | internal/httpx/mcp_gateway.go:139-167 | a tool looks the same under both settings if and only if it has no UI metadata, cannot be shown at all, or its UI metadata say just that it is for the model |
| CatalogueListing.RegisterAllAt | internal/httpx/mcp_gateway.go:155-165 | re-registering touches the announced spellings of the published tools and no other entry, in whatever order the map is walked |
| Catalogue.FleetCatalogue | internal/httpx/mcp_tool_contract.go:308-341 | when everything has settled, published and listed tools are those of the descriptor merge in node order |
| Catalogue.RegisterAllShows | internal/httpx/mcp_gateway.go:155-165 | re-registering every published tool leaves exactly the visible ones, in whatever order the map is walked |
| Catalogue.CrossedSwitches | internal/httpx/mcp_gateway.go:139-167 | after two overlapping switch changes the server is right if and only if no published tool looks different under the two settings |
| CatalogueListing.CrossedSwitchesExample | internal/httpx/mcp_gateway.go:139-167 | a run after which nothing is outstanding, the switch is on, and a tool for Apps alone is not listed |
| Catalogue.StaleToolExactly | internal/httpx/mcp_tool_visibility.go:49-55 | a visit by the only provider leaves the server unchanged if and only if the announced name is trimmed or the tool was never listed |
| CatalogueListing.PaddedNameExample | internal/httpx/mcp_tool_contract.go:343-354 | a run after which no node and no published tool is left and the server still lists one |
| CatalogueServer.Server.ReplaceLiveNodeToolSnapshot | internal/httpx/mcp_tool_contract.go:231-262 | records the node's snapshot keyed by trimmed name, the last descriptor of a name winning, and reports every name that may have changed |
| CatalogueServer.Server.RemoveLiveNodeToolSnapshot | internal/httpx/mcp_tool_contract.go:264-274 | drops the node's snapshot and reports its names |
| CatalogueServer.Server.LiveNodeToolDescriptors | internal/httpx/mcp_tool_contract.go:276-291 | the loop over sorted node ids collects the offers in node order |
| CatalogueServer.Server.ReconcileFleetNodeTool | internal/httpx/mcp_tool_contract.go:308-341 | publishes what the live descriptors merge to, or withdraws the name |
| CatalogueServer.Server.RetireNodeTool | internal/httpx/mcp_tool_contract.go:343-354 | withdraws a name from catalogue and server |
| CatalogueServer.Server.RegisterNodeTool | internal/httpx/mcp_tool_visibility.go:49-55 | lists a visible tool under its own name and removes an invisible one |
| CatalogueServer.Server.ReconcileNodeToolContracts | internal/httpx/mcp_tool_contract.go:726-744 | every listed name that can be reconciled is recomputed, every other entry stays, and the server keeps showing the catalogue |
| CatalogueServer.Server.HandleAgentDockDisconnect | internal/httpx/mcp_tool_contract.go:293-295 | a disconnect leaves the catalogue equal to recomputation without the node |
| CatalogueServer.Server.RegisterNodeTools | internal/httpx/mcp_gateway.go:174-183 | a Hello leaves the catalogue equal to recomputation with the new snapshot, or without the node when it is not admitted |
| CatalogueServer.Server.SetMCPAppsEnabled | internal/httpx/mcp_gateway.go:139-167 | a change of the switch leaves exactly the tools visible under the new setting |
| OAuthFamilies.StepKeeps | internal/auth/oauth.go:107-456 | every request keeps the invariant that ties codes, grants and history to the log of issued pairs |
| OAuthResults.IssueIsLogged | internal/auth/oauth.go:261-397 | the log of issued pairs is complete: tokens are handed out exactly when one entry with those tokens is added |
| OAuthResults.SingleUse | internal/auth/oauth.go:261-397 | over every run a code yields at most one grant and a refresh token rotates at most once |
| OAuthResults.CodeReplayKills | internal/auth/oauth.go:290-304 | a used code presented again with every check passing is refused and revokes the grant it was exchanged for |
| OAuthResults.RefreshReplayKills | internal/auth/oauth.go:342-363 | a rotated refresh token presented again before its deadline by its client for its resource is refused and revokes its grant |
| OAuthResults.ReplayedFamilyIsDead | internal/auth/oauth.go:261-418 | after such a replay, whatever follows, no token of that grant authenticates or refreshes and none is issued |
| OAuthResults.AtMostOneUsable | internal/auth/oauth.go:366-418 | at most one access token and one refresh token of a grant are usable at a time |
| OAuthResults.FamilyDeadline | internal/auth/oauth.go:366-396 | nothing is issued for a family from 90 days after its code exchange on, and nothing authenticates from 90 days and one hour after it on |
| OAuthResults.DeadlineFixed | internal/auth/oauth.go:383-396 | no request moves a grant's refresh deadline or its client, user, resource or scope |
| OAuthResults.PruningIsInvisible | internal/auth/oauth.go:151-162 | deleting expired codes and history at any moment changes no later answer, no later token and no later authentication |
| OAuthResults.IdleClientsHaveNoUsableTokens | internal/auth/oauth.go:151-156 | dropping idle clients deletes only grants whose access and refresh tokens have both expired |
| OAuthResults.CodeSurvivesRegistration | internal/auth/oauth.go:151-156 | a live code survives a registration if and only if its client was used within the idle time |
| OAuthResults.LiveCodeLostExample | internal/auth/oauth.go:151-156 | a run in which a registration deletes a code one second after it was issued |
| OAuthResults.ClientsBounded | internal/auth/oauth.go:164-176 | the client table never exceeds 1000 entries |
| OAuthWarrants.AuthorizeExactly | internal/auth/oauth.go:230-259 | over every run a code is given if and only if the user exists and the client, still there, was registered by an accepted request that named this redirect, with a well-formed challenge and a resource |
| OAuthWarrants.ExchangeExactly | internal/auth/oauth.go:261-322 | over every run tokens are issued for a code if and only if it is stored and unused and the request shows client, redirect, equivalent resource and the PKCE proof of the authorization that was given this code less than ten minutes before; they carry its user, client, resource and scope |
| OAuthWarrants.RefreshExactly | internal/auth/oauth.go:324-397 | over every run a refresh is answered with tokens if and only if the token is the current one of a live grant, for the authorized client and resource, less than 90 days after the exchange |
| OAuthWarrants.RefreshedFor | internal/auth/oauth.go:366-397 | refreshed tokens are for the authorized user, client, resource and scope, and the deadline stays |
| OAuthWarrants.AuthenticateExactly | internal/auth/oauth.go:399-418 | over every run an access token is accepted if and only if it is the current one of a live grant of an existing active user, for the authorized resource, less than an hour after it was issued |
| OAuthWarrants.AuthenticatedAs | internal/auth/oauth.go:399-418 | an accepted token speaks for the authorized user, client, resource and scope |
| OAuthWarrants.RevokedUserIsOut | internal/auth/oauth.go:420-430 | after a user's grants are revoked, no token issued before for this user authenticates or refreshes, whatever follows |
| OAuthWarrants.RevokedOnlyBy | internal/auth/oauth.go:290-430 | a live grant is revoked by nothing but its user's revocation and a replay of a spent code or token of its own |
| OAuthWarrants.RevocationTimeKept | internal/auth/oauth.go:420-430 | a grant is revoked at the time of the request and keeps that time |
| OAuthWarrants.RegisterExactly | internal/auth/oauth.go:107-183 | a client is registered if and only if its redirects are in order and fewer than 1000 clients were used within 180 days; exactly those stay |
| OAuthWarrants.UsersExactly | internal/auth/oauth.go:399-411 | a user exists and is active as the latest request about it says |
| OAuthWarrants.PkceAlphabet | internal/auth/oauth.go:459-459 | a PKCE value consists of the unreserved characters of section 4.1 of RFC 7636 |
| OAuthService.Service.RegisterClient | internal/auth/oauth.go:107-183 | registration prunes and inserts, or rolls everything back at the limit |
| OAuthService.Service.IssueAuthorizationCode | internal/auth/oauth.go:230-259 | stores a fresh code for a registered redirect, or refuses |
| OAuthService.Service.ExchangeAuthorizationCode | internal/auth/oauth.go:261-322 | a first complete exchange issues one grant, a complete replay revokes it, anything else changes nothing |
| OAuthService.Service.RefreshTokens | internal/auth/oauth.go:324-397 | rotates the pair of the live grant, revokes on a matching replay, changes nothing otherwise |
| OAuthService.Service.AuthenticateAccess | internal/auth/oauth.go:399-418 | accepts exactly the current access token of a live grant of an active user, for its resource and before its expiry |
| OAuthService.Service.RevokeUserGrants | internal/auth/oauth.go:420-430 | revokes every grant of a user, keeping the first revocation time |
| Hub.AtMostOneSend | internal/agentdock/connections.go:362-386 | in every interleaving each reply channel is sent on at most once, so that a send to its one slot never blocks |
| Hub.NothingPendingAfterClose | internal/agentdock/connections.go:346-386 | nothing is pending on a closed connection, and a waiting call is pending on an open one or has its answer under way |
| Hub.ClosedForGood | internal/agentdock/connections.go:372-386 | a closed connection stays closed |
| Hub.PublishedExactlyWhenAdmitted | internal/agentdock/connections.go:149-195 | whenever its snapshot lock is free, a node is published exactly when it is registered and its row was enabled when it was read back for its last snapshot, and with the snapshot its connection announced last |
| Hub.HiddenAsReadBack | internal/httpx/mcp_gateway.go:174-183 | a registered node loses or regains its tools in this way only when a snapshot is handed over, and as the row was read back |
| Hub.DisabledIsDisconnected | internal/httpx/agentdock_nodes.go:117-139 | with the lock free and no update of the row outstanding, a disabled node is neither registered nor published, except exactly where an update disabled it and could not read the row back |
| HubExamples.DisabledMeanwhileExample | internal/agentdock/nodes.go:236-301 | a run after which an enabled node is registered with its snapshot stored, nothing is outstanding, and none of its tools is published |
| HubExamples.AbandonedExample | internal/httpx/agentdock_nodes.go:131-138 | a run after which a disabled node is registered and published with nothing outstanding |
| Hub.SupersededIsClosed | internal/agentdock/connections.go:171-182 | a connection that lost its node is closed whenever the node's lock is free |
| Hub.LoopSparesSuccessor | internal/agentdock/connections.go:250-268 | the read loop of a superseded connection neither removes its successor nor publishes over it |
| HubOutcomes.HandshakeServes | internal/agentdock/connections.go:149-195 | from any state, a handshake of an enabled node that nothing interrupts leaves the new connection registered, stored and published, and the old one closed |
| HubOutcomes.DisconnectClears | internal/agentdock/connections.go:80-109 | from any state with the lock free, a disconnect leaves the node unregistered and unpublished and its connection closed |
| HubOutcomes.OtherVersionClears | internal/agentdock/connections.go:151-160 | a handshake of another version leaves the node unregistered and unpublished and its connection closed |
| Hub.RegisteredHasLoop | internal/agentdock/connections.go:250-268 | a registered connection is inside the handshake that holds its node's lock, or, with the lock free, its read loop can leave and takes node, tools and connection away |
| Hub.StoredIsPublished | internal/agentdock/connections.go:276-318 | unless a handshake or update failed after being stored, the stored snapshot is the one announced last, and it is published unless the row was read back disabled |
| Hub.LostReadyDiverges | internal/agentdock/connections.go:160-170 | a handshake that is stored but not read back or confirmed changes neither registration nor catalogue, and leaves stored and published snapshots equal if and only if they were the same |
| Hub.LostUpdateDiverges | internal/agentdock/connections.go:307-318 | the same of an update that is stored but not read back, whose read loop is over then |
| HubExamples.LostReadyExample | internal/agentdock/connections.go:164-170 | a run after which a node is registered with one snapshot while its row holds another |
| HubRegistry.NextKeeps | internal/agentdock/connections.go:87-195 | every step of a handshake, update, disconnect, loop end or administrator keeps the registry invariant |
| HubReplies.NextKeeps | internal/agentdock/connections.go:206-248 | every step of a call, reply or close keeps the reply invariant |
| HubObjects.NodeConnection.AddPending | internal/agentdock/connections.go:346-354 | enters the channel, or refuses on a closed connection |
| HubObjects.NodeConnection.RemovePending | internal/agentdock/connections.go:356-360 | takes the returning call's channel out of the table |
| HubObjects.NodeConnection.Resolve | internal/agentdock/connections.go:362-370 | takes the channel of a pending request out, at most once |
| HubObjects.NodeConnection.Close | internal/agentdock/connections.go:372-386 | the first close takes every pending channel, later ones none |
| HubObjects.Hub.Register | internal/agentdock/connections.go:171-182 | a confirmed handshake replaces the registered connection and names it for closing |
| HubObjects.Hub.Unregister | internal/agentdock/connections.go:95-109 | a disconnect removes whatever connection the node has |
| HubObjects.Hub.UnregisterOwn | internal/agentdock/connections.go:250-268 | a read loop removes the node only while its own connection is registered |
| ArtifactRelay.ServePublicArtifact | internal/httpx/artifacts.go:143-210 | refused exactly when the first answer may not be announced; otherwise the parts are what the node sent, answer after answer, and the ending is the one its answers, the digest, the client's writes and the request limit call for; a good node is relayed whole |
| ArtifactRelay.ExplainedMeans | internal/httpx/artifacts.go:143-210 | normal completion wrote exactly the announced bytes with the announced digest; any other ending wrote a strict prefix, or nothing of an empty artifact; full chunks never hit the request limit |
| ArtifactRelay.EndingDetermined | internal/httpx/artifacts.go:143-210 | what the node answers and the client takes leave one possible ending, one byte string on the wire and one list of parts |
| ArtifactRelay.EmptyAborts | internal/httpx/artifacts.go:202-205 | an empty artifact is aborted with nothing missing if and only if the announced digest is not the one of no bytes |
| ArtifactRelay.EmptyAbortExample | internal/httpx/artifacts.go:202-205 | for every digest function and every valid digest other than the one of no bytes, a node whose download ends so |
| ArtifactRelay.AnnouncesExactly | internal/httpx/artifacts.go:143-163 | a download begins if and only if the first answer is about the wanted artifact, file and expiry, of at most 512 MiB, and brings the first bytes |
| ArtifactRelay.ContinuesExactly | internal/httpx/artifacts.go:176-192 | it goes on if and only if the next answer is about the same, with size and digest of the first, and brings the next bytes |
| ArtifactRelay.RelayedAnswers | internal/httpx/artifacts.go:143-210 | every relayed part comes from such an answer at the offset where the parts before it end |
| ArtifactRelay.ReadNext | internal/httpx/artifacts.go:218-253 | an answer is used if and only if it continues the download: same artifact, size and digest, the right offsets, a payload of that length |
| ArtifactRelay.EnoughRequests | internal/httpx/artifacts.go:26-33 | as many full chunks as the request limit cover the largest artifact |
| WorkflowRegistry.OnlyNewVersionActive | internal/httpx/workflow_template_registry.go:374-439 | after a publication the new version is the only active one of its id, and every other template keeps all but its retirement |
| WorkflowRegistry.PublishedKeepsOneActive | internal/httpx/workflow_template_registry.go:374-439 | publishing keeps at most one active version per id |
| WorkflowLaws.LifecycleIgnored | internal/httpx/workflow_template_registry.go:151-181 | templates that differ only in life-cycle data are accepted alike and published as the same file |
| WorkflowLaws.PathsDiffer | internal/httpx/workflow_template_registry.go:120-122 | valid ids and versions make different paths for different templates |
| WorkflowRegistry.Registry.RetireActive | internal/httpx/workflow_template_registry.go:393-439 | retires exactly the other active versions of the id if and only if none of its operations fails; after a failure whose write-backs take effect nothing has changed, and in any case each file holds its old or its retired form |
| WorkflowRegistry.Registry.Publish | internal/httpx/workflow_template_registry.go:374-391 | with operations failing before or after taking effect: success, exactly when none fails, publishes and retires; a failure whose rollback takes effect leaves the registry exactly as it was, and no failure loses or alters an old file beyond its retirement |
| WorkflowRegistry.Registry.PublishTemplate | internal/httpx/workflow_template_registry.go:151-181 | refused, failed or published exactly as the request, the files and the failing operations say; a published version is never overwritten, also on failure, life-cycle data of the caller are ignored, one active version per id is kept |
| WorkflowRegistry.Registry.RetireTemplate | internal/httpx/workflow_template_registry.go:183-209 | retires one active version exactly when the request names one and no operation fails; otherwise nothing changes, except that a failing write may already have taken effect |
| WorkflowVectors.ParseWorkflowEmbeddingResponse | internal/httpx/workflow_template_registry.go:735-784 | succeeds if and only if all or no items carry an index, the indices are in range and distinct; every vector lands where its item says |
| WorkflowVectors.NothingMissing | internal/httpx/workflow_template_registry.go:778-782 | when no index is repeated no position can be missing, so the check that follows the placement never fails |
| KeyedLock.MutualExclusion | internal/httpx/server.go:130-153 | in every interleaving with cancellation at most one caller holds a key |
| KeyedLock.EntryExactlyWhileUsed | internal/httpx/server.go:130-162 | a key has an entry exactly while somebody waits for, holds or leaves it; all share its lock, and its count is their number |
| KeyedLock.NothingIsLost | internal/httpx/server.go:142-162 | a waiting caller can take a key nobody holds, and the table is empty when nobody is left |
| KeyedLock.Operations.AcquireOperation | internal/httpx/server.go:130-141 | finds or makes the lock of a key and raises its count |
| KeyedLock.Operations.ReleaseOperation | internal/httpx/server.go:155-162 | lowers the count and removes the entry when the last caller leaves |
| Limiter.AtMostTwiceTheMaximum | internal/httpx/oauth.go:81-108 | no key is admitted more than twice the maximum in any interval of one window length, both ends included, and the table never exceeds 4096 entries |
| Limiter.EvictionIsInvisible | internal/httpx/oauth.go:87-96 | evicting stale entries at any moment, all or some of them, changes no later decision |
| Limiter.DecidesByLive | internal/httpx/oauth.go:81-108 | a call is admitted exactly according to the entries whose window still runs |
| Limiter.RefusedExactly | internal/httpx/oauth.go:81-108 | after any calls a call is refused if and only if its key has used up a window that still runs, or the table is full of 4096 other keys whose windows run |
| Limiter.FixedWindowLimiter.Allow | internal/httpx/oauth.go:81-108 | one call decides and updates the table as specified |
| Limiter.FixedWindowLimiter.EvictStale | internal/httpx/oauth.go:88-92 | the eviction loop removes exactly the entries whose window has passed |

## Left out

- HTTP handlers, routing, cookies, pages, the web front end and the Python scripts: plumbing and user interface.
- SQL text, locking, JSON encoding and their failures: tables are maps or sequences, a transaction is one step, time is an integer.
- WebSocket framing, the MCP server library, SHA-256, HMAC, base64 and random generation: parameters, injective functions or fresh numbers.
- The Project store outside `continuation.go` (work sessions, deployments): whether a target is valid is an input of each request, and a target's node does not change; deleting a project with its receipts (`internal/project/store.go`) is not modelled.
- Constants of the protocol package, which is not part of this model: the outcome size limit is a flag of the outcome, the batch byte limit a flag of the batch, the chunk size a positive parameter; the limits of 32 outcomes and one MiB are those its documentation names.
- ContinuationRuns.OutcomesArePlacedOnce: session owners are a fixed map, and a document is stored under the session that asked for it.
- SchemaAcceptance.SemKeepsAcceptance: the meaning of `$ref`, `unevaluatedProperties` and keywords unknown to the normal form is a parameter, taken to be unaffected by normalising an `unevaluatedProperties` schema.
- SchemaOrder.MergeIgnoresOrder: both sorts of the normal form use one total order of encoded values; schemas are taken to have object or boolean property schemas.
- FleetTools.PublicationIgnoresOrder: the projection of result schemas by the `mcpresult` package is a parameter.
- Catalogue.CatalogueAgrees: node ids are numbers in sort order; the start-up reset of the catalogue and the copy of published contracts in the database are not modelled.
- CatalogueListing.ServerExactly: the part of a listed tool that other packages derive from its descriptor is represented by the descriptor; central tools are a fixed set of names.
- OAuthFamilies.StepKeeps: redirect, grant-type and name normalisation of a registration is one input that may be refused; identifiers have no white space around them; times are integers, not the text the database compares.
- Hub.PublishedExactlyWhenAdmitted: which tools a published snapshot yields is the catalogue's business; that every registered node is published, which the code does not keep, is not promised.
- Hub.StoredIsPublished: deleting a node's row is not modelled; of failing database calls, the readings back after a commit are steps, and the others are refusals.
- Hub.AtMostOneSend: request ids are taken to be fresh, as their random generation intends.
- ArtifactRelay.ServePublicArtifact: URL signatures, the HEAD request, time limits and the per-node download counter are left out; a failed or late read is one case.
- WorkflowRegistry.Registry.Publish: a write replaces a file whole, as its rename does; foreign or unreadable files in the directory are a failed read.
- Limiter.AtMostTwiceTheMaximum: for a maximum of at least one and a clock that does not run backwards; the nil limiter admits everything.
- WorkflowVectors.ParseWorkflowEmbeddingResponse: the plain `embeddings` form and the numbers themselves are left out.
- Matching, scoring, embedding calls, cosine scores, checkpoint settings, pagination, version comparison, private notes and the other project handlers: easy members, input and output, or floating point.
