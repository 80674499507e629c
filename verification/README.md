# Verification of the workflow kernel

The kernel stores workflow instances as immutable facts (context revisions, node visits, submissions and
events) together with a three-column projection, and validates the workflow definitions that instances run
on. This project models both halves in Dafny and proves what the kernel is built to guarantee.

`dafny verify dfyconfig.toml` checks the whole project.

## The definition half

- `DefinitionModel`, `GraphErrors`: nodes, transitions, graphs, one constructor per validation error code.
- `GraphReachability`, `PrimaryTrunk`: the graph algorithms, as loops: stack DFS, cycle detection in the primary
  map for any iteration order, and the trunk walk.
- `GraphRules`, `GraphValidation`: what each error code means, and the validator's passes, proved to report
  exactly these findings.
- `GraphProgress`: the rules as a mathematical statement (`WellFormed`), equivalent to acceptance, and the progress
  along primary transitions that the runtime relies on.
- `KeySort`, `CanonicalDigest`: the canonical document of a graph and the sort inside it. The digest is the document
  itself: serialization and SHA-256 are taken as injective.
- `DraftGraph`: the replacement command, which resolves keys to generated ids. `DraftRows`: which commands can be built, and what is
  built from them, column by column.
- `Publish`: the definition tables as a class whose methods are the transactions, and a state machine in which any
  number of publications, replacements and lifecycle changes interleave. A publication reads nodes and transitions in two
  separate steps, without a lock. `PublishLaw`: when these transactions commit, and what they then store.

## The runtime half

- `RuntimeModel`, `KernelState`: the rows, the constraints of the tables, and the writes a transaction can commit.
- `Commands`: for create, import, revise, transition, the combined command, override and rebuild, the checks in the order in
  which the transaction makes them, and the rows it writes.
- `Pipeline`: one request as a function: receipt gate, checks, write, receipt. `KernelDatabase.Database` is the same as a
  class that inserts row by row and rolls back; its `Handle` is proved equal to the function.
- `EventReplay`: the class `Replay`, whose fields the fold updates event by event, and the function that specifies it.
  `Snapshot`: the snapshot validators and the reconstruction of a projection from facts.
- `Agreement`, `WriterAgreement`, `KernelRuns`: the inductive invariant that ties every stored fact, the replay state and
  the projection together, its preservation by each command, and the theorems about runs. A run starts from empty tables; its actions
  are requests of all kinds on all instances, and arbitrary changes of everything else that commands read (principals, domains,
  role bindings, version status).
- `ReplayMeaning`: what acceptance by the replay says about arbitrary stored facts, written by nobody in particular. `ReplayLaw`: exactly
  which facts are accepted, said of the rows and of each event against the events before it.
- `Rules`: the kernel's rules in their own words, over rows and without a function of any command: who is who in the directory, whom a
  node's rule designates, which steps and submissions are lawful. `Resolution` ties the commands' lookups to them.
- `Admission`, `Effects`, `Refusals`: for every command when it executes, what it leaves when it does, and what its error says when it
  does not, in terms of `Rules` and of the command.
- `QueryConsistency`: the weaker checker in front of every query. `ReadSide`, `Pagination`, `TimelinePages`: what queries return.
- `RebuildRepair`, `Fusion`, `RunLength`, `Idempotency`, `ReceiptEvents`, `Concurrency`, `Authority`, `Commits`, `Availability`: the properties that
  span commands.
- `Visitability`, `Walks`: which nodes instances visit, and runs that exist: every open instance can be closed.
- `Composition`: a run of the definition tables beside a run of the kernel that reads them. `Divergences`: two disagreements of the
  code with itself, as general statements and as runs of one small catalog.

UUIDs are integers of which only equality (and, for the page cursor, order) matters. Ids that a transaction generates are
parameters without any freshness assumption: a clash is a constraint violation that rolls the transaction back. Versions and
counters are 32-bit as in the source: the unchecked increment is `Inc32`, which wraps, and the table's check then refuses the row.
Payload digests are constructors over what they digest, and event data is one constructor per key set that the replay accepts.
JSON Schema conformance and serialized size are function parameters of the catalog.

## Where the code and its documentation disagree

- The comment at `src/domain/definition/graph/validation.rs:23` announces unique node keys. No pass checks keys at all:
  `GraphProgress.VerdictIgnoresKeys`, and `GraphProgress.ShortcutWithSharedKey` gives an accepted graph in which two nodes share one. Keys are
  unique by the indexes of the tables, and the model has that as a property of stored rows.
- The trunk walk (`src/domain/definition/graph/transition_validation.rs:208-237`) guards only against a self edge. It does not end on a
  primary cycle of two or more nodes. `DraftGraph.TwoNodeCycleNeverHalts` gives a replacement command on which validation never ends, and
  `GraphRules.ValidationHaltsIff` the exact condition.
- Reachability follows every transition, while the runtime executes an ADVANCE only if it is primary. So not every node of an accepted
  graph can be visited: `Visitability.AcceptedNodeNeverVisited` gives one that cannot. The exact condition is reachability from DRAFT along
  executable transitions (`Walks.VisitableIffExecutable`).
- An absent JSON value and JSON null have the same canonical form, so definitions that differ only there share a digest:
  `CanonicalDigest.AbsentAndNullShareADigest` gives such a pair for every graph. Equal digests mean equality up to this, ids and row order
  (`CanonicalDigest.DigestIsFaithful`).
- The query blocks a transition whose target falls to a disabled creator; the runtime executes it. `ReadSide.UnblockedIffAccepted` states the
  agreement with exactly this exception, and `Divergences.ReturnToDisabledCreator` reaches a state where they differ.
- A repeated request is meant to return the first answer. Every failure that create, transition, the combined command, override and
  rebuild store reads back as the error that was returned. Of the failures that revise stores, those of its version and status guards do;
  that of a caller who is not the creator reads back as a storage error, and a schema violation loses its text. Of the failures that an
  import stores, those without a text do. `Idempotency.StoredFailureRoundTripsIff` states for every command exactly which guards these are,
  and `Divergences.ForeignRevisionIsMisread` reaches a state where the answers differ.
- The combined command's decoder (`src/application/workflow_instance/revise_and_transition.rs:87-131`) has no arm for a missing principal
  (`Idempotency.MissingPrincipalDoesNotRoundTrip`). Its check before the transaction keeps that failure from being stored, so no repeated
  request meets the gap.

## Model

| member | source | states |
|---|---|---|
| `GraphReachability.ComputeDirectedReachable` | src/domain/definition/graph_helpers.rs:24-54 | The stack DFS ends on every edge list, with cycles, duplicates and dangling targets, and returns exactly the ids joined to the start by a directed path. |
| `GraphValidation.ValidateDirectedReachability` | src/domain/definition/graph/validation.rs:87-108 | NODE_NOT_REACHABLE is added for exactly the nodes that no path from the DRAFT node reaches. |
| `GraphValidation.ValidateNodeRules` | src/domain/definition/graph/validation.rs:23-84 | The errors about node counts, DRAFT and TERMINAL nodes and duplicate order indexes are exactly those the nodes deserve. |
| `GraphValidation.ValidateAssigneeRules` | src/domain/definition/graph/assignee_validation.rs:22-113 | The assignee errors are exactly those some node deserves. |
| `PrimaryTrunk.ValidatePrimaryAcyclic` | src/domain/definition/graph/transition_validation.rs:155-205 | For every iteration order, ends and adds one PRIMARY_CYCLE per distinct cycle of the primary map, naming that cycle's nodes. |
| `PrimaryTrunk.AdvancingHasNoCycle` | src/domain/definition/graph/transition_validation.rs:105-116 | A primary map whose targets exist and have larger order indexes has no cycle. |
| `PrimaryTrunk.ValidateTrunkReachesTerminal` | src/domain/definition/graph/transition_validation.rs:208-237 | When the walk ends, it adds its error exactly if the chain gets stuck on a node that is neither terminal nor has a primary. |
| `PrimaryTrunk.TrunkHaltsIff` | src/domain/definition/graph/transition_validation.rs:208-237 | The walk ends if and only if the chain from its start does not run into a cycle of two or more nodes. |
| `DraftGraph.TwoNodeCycleNeverHalts` | src/domain/definition/graph/transition_validation.rs:215-227 | A replacement command that builds a graph with unique rows and resolving references on which validation, which precedes the transaction, never ends. |
| `DraftGraph.MutualPrimariesNeverHalt` | src/domain/definition/graph/transition_validation.rs:208-237 | Validation ends on no graph whose DRAFT node and another node are each other's primary targets. |
| `GraphRules.ValidationHaltsIff` | src/domain/definition/graph/transition_validation.rs:208-237 | The validator as a whole returns exactly on the graphs whose DRAFT node does not run into such a cycle. |
| `GraphValidation.ValidateGraph` | src/domain/definition/graph/mod.rs:21-83 | The verdict is "valid" exactly when no rule finds fault, and every reported error is a finding and every finding reported. |
| `GraphProgress.AcceptsIffWellFormed` | src/domain/definition/graph/mod.rs:21-83 | Under primary keys, acceptance is equivalent to the publication rules stated without reference to the passes. |
| `GraphProgress.ProgressInAcceptedGraphs` | src/domain/definition/graph/transition_validation.rs:78-143 | In an accepted graph the primary chain from every node exists, strictly rises in order, and reaches a TERMINAL node within one step less than the number of nodes. |
| `GraphProgress.TrunkWalkStopsAtTerminal` | src/domain/definition/graph/transition_validation.rs:208-237 | In an accepted graph the trunk walk takes exactly this chain from the DRAFT node and stops at its TERMINAL end. |
| `GraphProgress.VerdictIgnoresKeys` | src/domain/definition/graph/mod.rs:21-83 | Graphs that differ only in the keys of nodes and transitions get the same verdict. |
| `KeySort.SortByKeySorts` | src/domain/definition/digest.rs:117-144 | The in-place sort of the canonical rows orders them by key and permutes them. |
| `CanonicalDigest.DigestIsFaithful` | src/domain/definition/digest.rs:75-168 | Canonical documents are equal if and only if the graphs are the same up to renaming ids and permuting rows. |
| `CanonicalDigest.SameDigestSameVerdict` | src/domain/definition/digest.rs:75-168 | Graphs with equal canonical documents get the same verdict from the validator. |
| `DraftGraph.BuildDraftGraph` | src/application/definition/draft_graph.rs:24-208 | The loops that fill the key maps, build the rows and patch the primaries compute the specified graph, or the error of the first bad row. |
| `DraftRows.BuildsIffLegal` | src/application/definition/draft_graph.rs:24-208 | A command can be built if and only if every node row has a known type and the assignee that its type asks for, and every transition row a known effect between keys of the command. |
| `DraftRows.BuiltRowsAreCommandRows` | src/application/definition/draft_graph.rs:24-208 | What is built is the command, row by row and column by column: type, assignee and every other column as sent, ends resolved to the last row of their key, a primary to the last transition of the key that the node key's first row names. |
| `DraftRows.BuildErrorsNameFaults` | src/application/definition/draft_graph.rs:24-208 | The error of a command that cannot be built names a row by its key and what is wrong with it. |
| `DraftGraph.BuiltReferencesResolve` | src/application/definition/draft_graph.rs:24-208 | Every reference of a graph built from a command resolves inside it. |
| `DraftGraph.KeysRoundTrip` | src/application/definition/draft_graph.rs:24-208 | Keys resolved to ids by the command and back to keys by the digest are the command's own keys. |
| `DraftGraph.DigestIgnoresGeneratedIds` | src/domain/definition/digest.rs:86-156 | The digest of a replaced graph does not depend on the generated ids. |
| `Publish.DefinitionRepository.ReplaceDraftGraph` | src/store/postgres/definition_repository/graph_write.rs:21-138 | Deletes and inserts row by row under the lock; leaves the specified tables, or on any error the tables as they were. |
| `Publish.DefinitionRepository.AtomicPublish` | src/store/postgres/definition_repository/lifecycle_transactions.rs:114-252 | Publishes only a DRAFT whose stored graph has the expected digest, and stores that digest. |
| `PublishLaw.ReplacementCommitsIff` | src/store/postgres/definition_repository/graph_write.rs:21-138 | A built command commits if and only if the version is a DRAFT, no two rows share a key or position, and the generated ids are new; then the version holds the command's rows and the schema that its patch leaves, no other row changes, and otherwise the error says which it was. |
| `PublishLaw.CommitPublishesIff` | src/store/postgres/definition_repository/lifecycle_transactions.rs:114-252 | In every state of every run, the commit of a validated session publishes if and only if the version is still a DRAFT, domain and owner are enabled, and the graph now stored is the validated one up to ids and row order; otherwise the error says why. |
| `PublishLaw.AcceptableDraftIsPublished` | src/application/definition/lifecycle/publish.rs:25-105 | From any state, the undisturbed steps of a publication of an acceptable draft, in an enabled domain of an enabled owner, lead to the state in which it is published with its digest. |
| `PublishLaw.StatusChangesIff` | src/store/postgres/definition_repository/lifecycle_transactions.rs:259-440 | Deprecation is possible exactly from PUBLISHED and revocation exactly from PUBLISHED or DEPRECATED, for an enabled owner of an enabled domain, and changes the status only. |
| `Publish.PublishedVersionsAreCertified` | src/application/definition/lifecycle/publish.rs:25-105 | In every interleaving, with torn reads, every version that left DRAFT stores a graph that the validator accepts, legal schemas, and that graph's digest. |
| `Publish.PublishedVersionsAreFrozen` | src/store/postgres/definition_repository/lifecycle_transactions.rs:114-440 | From the moment a version leaves DRAFT its row never changes again, except to a later status. |
| `EventReplay.Replay.ApplyEvent` | src/store/postgres/admin_recovery_repository/event_replay.rs:412-435 | One event updates the fold's fields to the specified next state, or is refused and counts for nothing. |
| `EventReplay.ReplayEvents` | src/store/postgres/admin_recovery_repository/event_replay.rs:454-482 | The loop over all events returns the specified projection, or refuses. |
| `Snapshot.ValidateContexts` | src/store/postgres/admin_recovery_repository/snapshot.rs:211-232 | Accepts exactly the contexts that form one linked chain numbered from 1 with intact digests. |
| `Snapshot.ReconstructProjection` | src/store/postgres/admin_recovery_repository/snapshot.rs:73-118 | Validators, import linkage and replay in sequence compute the specified reconstruction. |
| `KernelDatabase.Database.AppendRows` | src/store/postgres/workflow_instance_repository/combined_helpers.rs:69-228 | Row by row inserts succeed exactly when the whole entry fits the constraints, and then append exactly it. |
| `KernelDatabase.Database.Handle` | src/store/postgres/workflow_instance_repository/transition_transaction.rs:38-500 | A request changes the tables and answers as the specified transaction does, including every rollback. |
| `WriterAgreement.CreateIsCoherent` | src/store/postgres/workflow_instance_repository/create_transaction.rs:51-403 | A new instance's facts replay to exactly its projection. |
| `WriterAgreement.ImportIsCoherent` | src/store/postgres/legacy_import_repository/transaction.rs:61-172 | An imported instance's facts replay to exactly its projection. |
| `WriterAgreement.ReviseKeepsCoherence` | src/store/postgres/workflow_instance_repository/revise_transaction.rs:205-439 | What a revision appends is what the replay expects next, and the projection it sets is the replay's. |
| `WriterAgreement.TransitionKeepsCoherence` | src/store/postgres/workflow_instance_repository/transition_transaction.rs:365-457 | The same for a transition, including visit numbering and the optional submission. |
| `WriterAgreement.CombinedKeepsCoherence` | src/store/postgres/workflow_instance_repository/combined_transaction.rs:139-376 | The same for the combined command. |
| `WriterAgreement.OverrideKeepsCoherence` | src/store/postgres/admin_recovery_repository/override_transaction.rs:341-476 | The same for an override, including the snapshot digest that its event embeds. |
| `KernelRuns.WritersAndReplayAgree` | src/store/postgres/admin_recovery_repository/event_replay.rs:412-482 | In every state of every run, for every instance, validators, linkage and replay accept the stored facts and return exactly the stored projection. |
| `KernelRuns.QueriesAcceptEveryRun` | src/store/postgres/workflow_instance_repository/query_visibility.rs:243-359 | In every state of every run, every instance passes both checks that guard queries. |
| `ReplayMeaning.AcceptanceMeans` | src/store/postgres/admin_recovery_repository/event_replay.rs:84-260 | For arbitrary stored facts, acceptance means: only the first event is initial, contexts are one chain in event order, each node's visits are numbered from 1 in event order, every fact is introduced exactly once, and visits walk along transitions except at overrides. |
| `ReplayLaw.RecoveryIffLawful` | src/store/postgres/admin_recovery_repository/event_replay.rs:84-482 | For arbitrary stored facts with unique ids, reconstruction accepts if and only if the rows fit each other and their digests, every event is lawful against the events before it (columns, data, digest, numbering, links), the events introduce every fact, and an import has its completed receipt; the projection is then the last context, the last visit and the number of the events. |
| `QueryConsistency.QueriesAcceptIffUnbroken` | src/store/postgres/workflow_instance_repository/query_visibility.rs:243-359 | For arbitrary stored rows with unique ids, the checks pass if and only if none of their ten errors is the case, and otherwise report one that is. |
| `QueryConsistency.ReplayImpliesQueryAcceptance` | src/store/postgres/workflow_instance_repository/query_visibility.rs:243-359 | For arbitrary stored facts, whatever validators and replay accept with a matching projection and domain, the query checks accept. |
| `RebuildRepair.ReconstructIgnoresProjection` | src/store/postgres/admin_recovery_repository/snapshot.rs:73-118 | Reconstruction never looks at the projection columns. |
| `RebuildRepair.RebuildRepairsDamage` | src/store/postgres/admin_recovery_repository/rebuild_transaction.rs:92-242 | After arbitrary damage to an instance's projection in a reachable state, an executed rebuild restores the exact earlier values, touches no fact, and reports truthfully whether it changed anything. |
| `RebuildRepair.RebuildAcceptsDamage` | src/store/postgres/admin_recovery_repository/rebuild_transaction.rs:92-242 | Without an expected digest, damage never makes a rebuild fail: its checks pass if and only if the version of the instance has a status and the principal is an enabled human or agent with an enabled workflow-admin binding in the instance's domain. |
| `RebuildRepair.EveryDamageIsRepairable` | src/store/postgres/admin_recovery_repository/rebuild_transaction.rs:92-242 | Whatever the damage to an instance of a reachable state, the rebuild of such an administrator under an unused key executes, and every instance is as it was before. |
| `RebuildRepair.DamageUnnoticedIff` | src/store/postgres/workflow_instance_repository/query_visibility.rs:243-359 | In every state of every run, the queries pass over a damaged projection if and only if the damage only points to another visit of the same instance. |
| `RebuildRepair.SecondRebuildIsIdle` | src/store/postgres/admin_recovery_repository/rebuild_transaction.rs:177-213 | From any state at all, a rebuild right after a rebuild reports no change and changes no instance. |
| `Fusion.CombinedIsReviseThenAdvance` | src/store/postgres/workflow_instance_repository/combined_transaction.rs:19-387 | In every state of every run with room for two versions, the combined command executes if and only if its revision executes, then its transition with submission executes, and that transition is an ADVANCE; both ways leave the same contexts, visits, submissions and pointers, with one version and one event fewer for the combined command, and touch no other instance. |
| `RunLength.RunLengthBound` | src/store/postgres/workflow_instance_repository/transition_transaction.rs:177-320 | In every state of every run, an instance of a validated definition without overrides and with `k` returns has fewer than `(k + 1)` times the number of nodes transitions. |
| `Visitability.VisitsFollowExecutablePaths` | src/store/postgres/workflow_instance_repository/transition_transaction.rs:229-320 | In every state of every run every visit of an instance without overrides is at a node reached from its first visit's node by executable transitions (primary ADVANCE, RETURN, TERMINATE); created instances start at DRAFT. |
| `Visitability.AcceptedNodeNeverVisited` | src/domain/definition/graph/validation.rs:87-108 | A storable graph that the validator accepts, and a node of it that no created instance visits in any run without an override. |
| `Walks.TakenIffExecutable` | src/store/postgres/workflow_instance_repository/transition_transaction.rs:159-363 | In every state of every run, for a validated definition, an enabled actor and a fitting payload, a transition from the current node passes the checks if and only if it is executable, the actor is the assignee, the version is usable and the target's assignee resolves. |
| `Walks.VisitableIffExecutable` | src/store/postgres/workflow_instance_repository/transition_transaction.rs:229-320 | For a validated definition with enabled principals behind its rules and payloads that its transitions take, some run without an override brings a created instance to a node if and only if executable transitions reach the node from DRAFT. |
| `Walks.OpenInstanceCanBeClosed` | src/domain/definition/graph/transition_validation.rs:78-143 | From every state of every run, an instance of a validated definition, with enabled principals behind its rules, payloads that its primary transitions take and versions left, can be brought to a terminal node without an override, by fewer requests than the definition has nodes. |
| `Composition.InstancesRunOnCertifiedDefinitions` | src/store/postgres/workflow_instance_repository/definition_lookup.rs:34-75 | Beside every interleaving of publications, replacements and lifecycle changes, in every kernel state every instance runs on a graph that the validator accepts, with unique rows, legal schemas and the stored digest. |
| `Composition.EveryRunIsBounded` | src/store/postgres/workflow_instance_repository/transition_transaction.rs:177-320 | The bound on transitions, without assuming that the definition is validated. |
| `Idempotency.StoredFailureRoundTripsIff` | src/application/workflow_instance/revise.rs:78-109 | A failure that any command stores decodes to the very error that was returned if and only if the failing guard is a readable one: for create, transition, combined, override and rebuild every guard; for revise, with the creator as caller, the version and status guards; for import the guards without a text. |
| `Idempotency.RepeatsReturnTheSame` | src/store/postgres/workflow_instance_repository/transition_helpers.rs:40-154 | In every run, a request of any kind that repeats principal, key and hash of one with a committed receipt changes nothing. Unless it is denied before its receipt is looked at, it returns the first result, and the first error if and only if that guard is readable. |
| `Refusals.RepeatsAreRechecked` | src/store/postgres/admin_recovery_repository/rebuild_transaction.rs:92-176 | From any state, a request whose key owns a receipt writes nothing, and is denied before the receipt is looked at if and only if it fails the checks before the transaction or its administrator or migration service is not entitled now; the error is then the case. |
| `Idempotency.OtherHashConflicts` | src/store/postgres/workflow_instance_repository/command_receipt.rs:67-123 | In every run, another hash under such a key changes nothing and, unless denied before, is a conflict; for all but the administrative commands and imports it names the first command and hash. |
| `Idempotency.RevisionByAnotherIsMisread` | src/store/postgres/workflow_instance_repository/revise_transaction.rs:205-224 | Every revision by a principal who did not create the instance fails with "principal not found", and its repetition with a storage error. |
| `Divergences.ForeignRevisionIsMisread` | src/application/workflow_instance/revise.rs:78-109 | A run of a concrete catalog in which this happens. |
| `ReceiptEvents.ReceiptsAndEventsCorrespond` | src/store/postgres/workflow_instance_repository/transition_transaction.rs:438-482 | In every state of every run all receipts are complete, and successful receipts of fact-writing commands and events correspond one to one by command id, each stored response naming the event's version, sequence, visits, context and submission. |
| `Concurrency.SuccessAdvancesByOne` | src/store/postgres/workflow_instance_repository/transition_transaction.rs:411-427 | A success found the expected version, raises it by exactly one, appends one event with that sequence, and touches no other instance. |
| `Concurrency.AtMostOneWinner` | src/store/postgres/workflow_instance_repository/combined_helpers.rs:106-147 | In a run, at most one revise, transition, combined or override with the same instance and expected version succeeds. |
| `Concurrency.VersionCountsEvents` | src/store/postgres/workflow_instance_repository/transition_helpers.rs:231-345 | In every state of every run the version is the number of events, which carry the sequence numbers 1, 2, 3 and so on. |
| `Resolution.ResolutionIsDesignation` | src/store/postgres/workflow_instance_repository/transition_validation.rs:184-264 | Assignee resolution succeeds if and only if the target is terminal or its rule finds someone (the creator; the active fixed principal; the first enabled owner, if active), and then the directory lets the rule designate exactly that assignee. |
| `Resolution.AdministratorAdmitted` | src/store/postgres/admin_recovery_repository/authorization.rs:12-70 | An administrator is let in if and only if the instance exists, its version has a status, and the principal is enabled, not a service, and holds an enabled workflow-admin binding of the instance's domain. |
| `Admission.ExecutesIffLawful` | src/store/postgres/workflow_instance_repository/transition_transaction.rs:38-500 | In every state of every run, a request of any of the seven kinds, with an unused key, unused ids and a version that can still rise, executes if and only if its command meets its rules, which are stated over the rows. |
| `Admission.OverrideIsNeverBlockedByFacts` | src/store/postgres/admin_recovery_repository/override_transaction.rs:147-366 | In every state of every run an override passes if and only if an administrator asks, with a bounded payload, at the right version and digest, for a move that fits its target and finds someone there; replay, projection comparison and pointer checks never stand in the way. |
| `Effects.ExecutedLeaves` | src/store/postgres/workflow_instance_repository/combined_transaction.rs:139-387 | From any state, whatever a request of any kind executes leaves what its command says: the context and the submission that its response names hold the payloads that were sent, the new visit is at the target of the transition or of the override and has a designated assignee, the event names its actor, nodes and data, the receipt holds the response, and nothing else changes. |
| `Effects.EveryVisitWasDesignated` | src/store/postgres/workflow_instance_repository/transition_validation.rs:184-264 | In every state of every run each visit was added by a step whose directory let its node's rule designate exactly its assignee: the creator, the enabled fixed principal, or an enabled principal with an enabled owner binding in the instance's domain; nobody at a terminal node. |
| `Refusals.FailuresAreTrue` | src/store/postgres/workflow_instance_repository/transition_validation.rs:19-455 | In every state of every run a request with an unused key that does not execute changes no instance, its error is the case in the rows (or the transaction was rolled back for an id in use or an exhausted version), and exactly the failures that its command stores leave a receipt with the error's status and body. |
| `Authority.EveryFactIsRightful` | src/store/postgres/workflow_instance_repository/transition_transaction.rs:159-363 | In every state of every run each event's actor is the one that the facts require (the creator, the assignee of the visit it leaves, a service for an import, no service for an override), each visit is assigned by its node's rule, and every context and submission conforms to its schema and its size limit. |
| `Authority.EveryActorWasEntitled` | src/store/postgres/admin_recovery_repository/authorization.rs:35-70 | In every state of every run each event was added by a step whose directory held its actor enabled and gave it the role in the instance's domain: membership for a creation, the only enabled migration binding for an import (src/store/postgres/legacy_import_repository/validation.rs:182-241), an enabled workflow-admin binding for an override. |
| `Commits.PassedChecksCommit` | src/store/postgres/workflow_instance_repository/transition_helpers.rs:157-345 | In every state of every run, a request with an unused key and unused ids, and a version that can still rise, executes if and only if its checks pass: no unique index or table check ever refuses its rows. |
| `Commits.FoldLeavesSources` | src/store/postgres/admin_recovery_repository/event_replay.rs:262-363 | In every accepted history each submission stems from a visit that is no longer current, so the current visit can always take one. |
| `Availability.CreationSucceedsIff` | src/domain/definition/graph/assignee_validation.rs:22-113 | On a validated definition a creation passes if and only if its payloads fit and its principal may create: DRAFT lookup and assignee resolution are total, and the creator gets the first visit. |
| `Availability.OpenInstanceCanAdvance` | src/store/postgres/workflow_instance_repository/transition_transaction.rs:229-260 | In every state of every run, an open instance of a validated, usable definition has a primary step to a later node that its enabled assignee can take with any fitting payload, once the target's assignee resolves. |
| `ReadSide.LoadOutgoing` | src/store/postgres/workflow_instance_repository/query_detail.rs:25-124 | The loop computes, in the order in which the rows come, the specified list of outgoing transitions with their blocking reasons. |
| `ReadSide.UnblockedIffAccepted` | src/store/postgres/workflow_instance_repository/query_detail.rs:54-124 | On a validated graph, for an enabled actor and a fitting payload, the query leaves a transition unblocked if and only if the command passes every runtime check and its target does not fall to a disabled creator. |
| `ReadSide.OffersNeverOverPromise` | src/store/postgres/workflow_instance_repository/query_detail.rs:25-124 | In every state of every run the query succeeds, lists exactly the transitions that leave the current node, each once in the order of the rows, shows for each the first reason that applies, and each item's verdict agrees with the runtime as above. |
| `Divergences.OnlyTheQueryBlocks` | src/store/postgres/workflow_instance_repository/query_detail.rs:86-124 | In every state of every run, when an executable transition leads to a node of a disabled creator, the query shows it to the assignee as unavailable and the runtime's checks pass the assignee's command. |
| `Divergences.ReturnToDisabledCreator` | src/store/postgres/workflow_instance_repository/query_detail.rs:86-124 | A run of a concrete catalog that ends in such a state, where some request for the command executes. |
| `Pagination.PaginationIsLossless` | src/store/postgres/workflow_instance_repository/query_detail.rs:189-252 | Following the cursors from the start, with any legal limits, ends and yields exactly the visible rows, in strictly ascending key order, each once. |
| `Pagination.PageIsFull` | src/store/postgres/workflow_instance_repository/query_detail.rs:15-23 | A limit outside 1 to 100 is refused; otherwise a page holds the first `limit` remaining rows in ascending order (50 if no limit is given), all of them if there are fewer, and a cursor exactly if rows remain behind it. |
| `Pagination.HistoryIsLossless` | src/store/postgres/workflow_instance_repository/query_detail.rs:315-360 | The same for the lexicographic cursor of creation time and id, however many rows share a time. |
| `TimelinePages.TimelinePageIsFull` | src/store/postgres/workflow_instance_repository/query_detail.rs:178-252 | The same for a timeline page, whose missing cursor counts as 0 and whose negative cursor is refused. |
| `TimelinePages.TimelineIsLossless` | src/store/postgres/workflow_instance_repository/query_detail.rs:178-252 | In every state of every run, paging through a timeline returns exactly the visible events in the order in which they were written. |

## Left out

- HTTP layer, authentication, configuration and health checks.
- JSON Schema compilation, canonical JSON serialization and SHA-256: a predicate, and injective constructors.
- SQL text, isolation levels and lock order: a committed transaction is one atomic step that keeps the tables' constraints. Deadlocks are not covered.
- Audit tables: append-only side tables that no modelled step reads.
- The strings, dates and sizes inside a legacy snapshot: an import command carries the outcome of these checks (well shaped, ill shaped, too large). Its timestamp is not modelled.
- An idempotency key that spells out the key of an import: in the model the two kinds of key never meet.
- An import that repeats its key answers from its receipt; the source first compares the stored facts once more.
- Texts inside errors, for example those of the schema library, are constructors of `Detail`.
- Maximum row lengths of names and reasons, except the bounds on an override's reason and references.
- The check at publication that fixed principals still exist.
- Where a query takes any one row (`LIMIT 1` for a domain owner), the model takes the first binding.
- Registration, update and read queries of definitions, and the work lists.
- The visibility rule of timelines and histories is a parameter of the pagination theorems; the hiding of an override's data from partial viewers is left out.
- `ReadSide.LoadOutgoing`: takes the rows in the order in which the database returns them, because the order by key depends on its collation.
- `GraphValidation.ValidateGraph`: says which errors are reported and leaves open in which order and, but for PRIMARY_CYCLE, how often, because the verdict depends on neither.
- `ReplayMeaning.AcceptanceMeans`: is one-way, because its conclusion leaves out digests, event data and linkage; `ReplayLaw.RecoveryIffLawful` is the exact law.
- `Refusals.FailuresAreTrue`: leaves open which error is returned when several are the case, because that is the order of the checks, and takes the status and body of each error from a table.
- `DraftRows.BuildErrorsNameFaults`: leaves open which of several faulty rows is named.
- `Fusion.CombinedIsReviseThenAdvance`: assumes room for two more versions, because the two-step way needs one version more than the combined one.
