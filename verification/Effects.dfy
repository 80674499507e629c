/**
 What an executed request leaves: for each command, the rows that its response names and what they hold,
 in terms of the command alone, and everything that stays as it was.
 */
module Effects {
  import opened Prelude
  import opened DefinitionModel
  import opened GraphRules
  import opened GraphProgress
  import opened RuntimeModel
  import opened KernelState
  import opened EventReplay
  import opened Snapshot
  import opened Commands
  import opened Pipeline
  import opened Agreement
  import opened WriterAgreement
  import opened KernelRuns
  import opened Concurrency
  import opened Rules
  import opened Resolution
  import opened Admission

  // ----- Rows added -----

  predicate AddsContext(before: seq<ContextFact>, after: seq<ContextFact>, id: Uuid, payload: Json, author: Uuid) {
    && |after| == |before| + 1 && after[..|before|] == before
    && var c := after[|before|];
    c.contextRevisionId == id && c.payload == payload && c.createdByPrincipalId == author
  }

  predicate AddsVisit(before: seq<VisitFact>, after: seq<VisitFact>, id: Uuid, nodeId: Uuid, enteredBy: Option<Uuid>) {
    && |after| == |before| + 1 && after[..|before|] == before
    && var v := after[|before|];
    v.nodeVisitId == id && v.nodeId == nodeId && v.enteredByTransitionId == enteredBy
  }

  /** A submission is added exactly when one was sent, and it holds what was sent. */
  predicate AddsSubmission(before: seq<SubmissionFact>, after: seq<SubmissionFact>, id: Option<Uuid>, payload: Option<Json>,
                           author: Uuid, visitId: Uuid, contextId: Uuid, transitionId: Uuid)
  {
    if payload.None? then id.None? && after == before
    else
      && id.Some? && |after| == |before| + 1 && after[..|before|] == before
      && var s := after[|before|];
      && s.submissionId == id.value && s.payload == payload.value && s.authorPrincipalId == author
      && s.sourceNodeVisitId == visitId && s.contextRevisionId == contextId && s.transitionId == transitionId
  }

  predicate AddsEventOf(catalog: Catalog, before: seq<EventFact>, after: seq<EventFact>, eventType: EventType, actor: Uuid,
                        sequence: int, fromNodeId: Option<Uuid>, toNodeId: Option<Uuid>)
  {
    && |after| == |before| + 1 && after[..|before|] == before
    && var e := after[|before|];
    && e.eventType == eventType && e.actorPrincipalId == actor && HasType(catalog, actor, e.actorPrincipalType)
    && e.eventSequence == sequence
    && e.fromNodeId == fromNodeId && e.toNodeId == toNodeId
  }

  /** Only the one instance changes, and of its row only the projection. */
  predicate ChangesOnly(st: DbState, st': DbState, id: Uuid, projection: Projection) {
    && st'.directory == st.directory
    && id in st.ledgers && id in st'.ledgers && st'.ledgers == st.ledgers[id := st'.ledgers[id]]
    && st'.ledgers[id].instance == st.ledgers[id].instance.(projection := projection)
  }

  /** Only the one new instance is added. */
  predicate AddsOnly(st: DbState, st': DbState, id: Uuid) {
    && st'.directory == st.directory
    && id !in st.ledgers && id in st'.ledgers && st'.ledgers == st.ledgers[id := st'.ledgers[id]]
  }

  /** The digest of the row as it is stored. */
  function RowDigest(row: InstanceRow): Digest {
    OfSnapshot(BeforeSnapshot(row.workflowInstanceId, row.domainId, row.definitionVersionId, row.createdByPrincipalId,
                              row.projection))
  }

  /** The directory lets the rule of the visit's node designate the visit's assignee. */
  ghost predicate IsDesignated(catalog: Catalog, d: Directory, row: InstanceRow, v: VisitFact) {
    exists n: NodeDefinition ::
      && IsNodeOf(GraphOf(catalog, row.definitionVersionId), n, v.nodeId)
      && Designates(d, n, row.createdByPrincipalId, row.domainId, v.assigneePrincipalId)
  }

  // ----- What each command leaves -----

  ghost predicate CreationLeaves(catalog: Catalog, st: DbState, st': DbState, cmd: CreateCommand, body: ResponseBody) {
    && body.CreateBody? && AddsOnly(st, st', body.workflowInstanceId)
    && body.workflowStateVersion == body.eventSequence == 1
    && var l := st'.ledgers[body.workflowInstanceId];
    && HasType(catalog, cmd.principalId, l.instance.createdByPrincipalType)
    && l.instance == InstanceRow(body.workflowInstanceId, cmd.domainId, cmd.definitionVersionId, cmd.principalId,
                                 l.instance.createdByPrincipalType, cmd.externalReference,
                                 Projection(Some(body.currentContextRevisionId), Some(body.currentNodeVisitId), 1))
    && AddsContext([], l.contexts, body.currentContextRevisionId, cmd.contextPayload, cmd.principalId)
    && (exists n: NodeDefinition ::
          && IsDraftOf(GraphOf(catalog, cmd.definitionVersionId), n)
          && AddsVisit([], l.visits, body.currentNodeVisitId, n.nodeId, None)
          && Designates(st.directory, n, cmd.principalId, cmd.domainId, l.visits[0].assigneePrincipalId))
    && l.submissions == []
    && AddsEventOf(catalog, [], l.events, INSTANCE_CREATED, cmd.principalId, 1, None, None)
  }

  ghost predicate ImportLeaves(catalog: Catalog, st: DbState, st': DbState, cmd: ImportCommand, body: ResponseBody) {
    && body.ImportBody? && AddsOnly(st, st', body.workflowInstanceId)
    && body.workflowStateVersion == body.eventSequence == 1
    && body.legacySnapshotDigest == OfLegacySnapshot(cmd.legacySnapshot)
    && var l := st'.ledgers[body.workflowInstanceId];
    && var creatorId := l.instance.createdByPrincipalId;
    && IsImportCreator(catalog, st.directory, cmd, creatorId)
    && (body.creatorResolution.LEGACY_CREATOR?
        <==> cmd.legacyCreatorId.Some? && CanOwnWork(catalog, st.directory, cmd.legacyCreatorId.value))
    && HasType(catalog, creatorId, l.instance.createdByPrincipalType)
    && l.instance == InstanceRow(body.workflowInstanceId, cmd.domainId, cmd.definitionVersionId, creatorId,
                                 l.instance.createdByPrincipalType, Some(MigrationKey(cmd.legacyRecordId)),
                                 Projection(Some(body.currentContextRevisionId), Some(body.currentNodeVisitId), 1))
    && AddsContext([], l.contexts, body.currentContextRevisionId, cmd.contextPayload, creatorId)
    && AddsVisit([], l.visits, body.currentNodeVisitId, cmd.importedNodeId, None)
    && l.visits[0].assigneePrincipalId == cmd.legacyAssigneeId && l.submissions == []
    && IsDesignated(catalog, st.directory, l.instance, l.visits[0])
    && AddsEventOf(catalog, [], l.events, WORKFLOW_INSTANCE_IMPORTED, cmd.principalId, 1, None, None)
    && l.events[0].eventId == body.eventId
    && l.events[0].eventData == Some(ImportedData(cmd.legacyRecordId, OfLegacySnapshot(cmd.legacySnapshot), cmd.importedNodeId,
                                                  body.creatorResolution))
  }

  predicate RevisionLeaves(catalog: Catalog, st: DbState, st': DbState, cmd: ReviseCommand, body: ResponseBody) {
    var id := cmd.workflowInstanceId;
    && body.ReviseBody? && body.workflowInstanceId == id
    && ChangesOnly(st, st', id, Projection(Some(body.currentContextRevisionId), Some(body.currentNodeVisitId),
                                           body.workflowStateVersion))
    && var l, l' := st.ledgers[id], st'.ledgers[id];
    && body.workflowStateVersion == body.eventSequence == l.instance.projection.workflowStateVersion + 1
    && l.instance.projection.currentNodeVisitId == Some(body.currentNodeVisitId)
    && AddsContext(l.contexts, l'.contexts, body.currentContextRevisionId, cmd.contextPayload, cmd.principalId)
    && l'.visits == l.visits && l'.submissions == l.submissions
    && AddsEventOf(catalog, l.events, l'.events, CONTEXT_REVISED, cmd.principalId, body.eventSequence, None, None)
  }

  /** `t` is the transition that the command names, from the current node. */
  predicate IsTaken(catalog: Catalog, l: Ledger, transitionId: Uuid, t: TransitionDefinition) {
    && t in GraphOf(catalog, l.instance.definitionVersionId).transitions && t.transitionId == transitionId
    && exists v :: v in l.visits && IsCurrentVisit(l, v) && v.nodeId == t.sourceNodeId
  }

  /** The instance stood at the source of `t` and now stands at its target, with a designated assignee. */
  predicate TakesStep(catalog: Catalog, d: Directory, l: Ledger, l': Ledger, transitionId: Uuid, visitId: Uuid,
                      eventType: EventType, actor: Uuid, sequence: int, t: TransitionDefinition, target: NodeDefinition)
  {
    && IsTaken(catalog, l, transitionId, t)
    && IsNodeOf(GraphOf(catalog, l.instance.definitionVersionId), target, t.targetNodeId)
    && AddsVisit(l.visits, l'.visits, visitId, t.targetNodeId, Some(transitionId))
    && Designates(d, target, l.instance.createdByPrincipalId, l.instance.domainId, l'.visits[|l.visits|].assigneePrincipalId)
    && AddsEventOf(catalog, l.events, l'.events, eventType, actor, sequence, Some(t.sourceNodeId), Some(t.targetNodeId))
    && l'.events[|l.events|].transitionEffect == Some(t.transitionEffect)
  }

  ghost predicate TransitionLeaves(catalog: Catalog, st: DbState, st': DbState, cmd: TransitionCommand, body: ResponseBody) {
    var id := cmd.workflowInstanceId;
    && body.TransitionBody? && body.workflowInstanceId == id
    && ChangesOnly(st, st', id, Projection(Some(body.currentContextRevisionId), Some(body.currentNodeVisitId),
                                           body.workflowStateVersion))
    && var l, l' := st.ledgers[id], st'.ledgers[id];
    && body.workflowStateVersion == body.eventSequence == l.instance.projection.workflowStateVersion + 1
    && l.instance.projection.currentNodeVisitId == Some(body.sourceNodeVisitId)
    && l.instance.projection.currentContextRevisionId == Some(body.currentContextRevisionId) && l'.contexts == l.contexts
    && AddsSubmission(l.submissions, l'.submissions, body.submissionId, cmd.submissionPayload, cmd.principalId,
                      body.sourceNodeVisitId, body.currentContextRevisionId, cmd.transitionId)
    && exists t: TransitionDefinition, target: NodeDefinition ::
         TakesStep(catalog, st.directory, l, l', cmd.transitionId, body.currentNodeVisitId, WORKFLOW_TRANSITION_COMMITTED,
                   cmd.principalId, body.eventSequence, t, target)
  }

  ghost predicate CombinationLeaves(catalog: Catalog, st: DbState, st': DbState, cmd: CombinedCommand, body: ResponseBody) {
    var id := cmd.workflowInstanceId;
    && body.TransitionBody? && body.workflowInstanceId == id
    && ChangesOnly(st, st', id, Projection(Some(body.currentContextRevisionId), Some(body.currentNodeVisitId),
                                           body.workflowStateVersion))
    && var l, l' := st.ledgers[id], st'.ledgers[id];
    && body.workflowStateVersion == body.eventSequence == l.instance.projection.workflowStateVersion + 1
    && l.instance.projection.currentNodeVisitId == Some(body.sourceNodeVisitId)
    && AddsContext(l.contexts, l'.contexts, body.currentContextRevisionId, cmd.contextPayload, cmd.principalId)
    && AddsSubmission(l.submissions, l'.submissions, body.submissionId, Some(cmd.submissionPayload), cmd.principalId,
                      body.sourceNodeVisitId, body.currentContextRevisionId, cmd.transitionId)
    && exists t: TransitionDefinition, target: NodeDefinition ::
         TakesStep(catalog, st.directory, l, l', cmd.transitionId, body.currentNodeVisitId,
                   WORKFLOW_CONTEXT_REVISED_AND_TRANSITION_COMMITTED, cmd.principalId, body.eventSequence, t, target)
  }

  /** The instance stood at the visit and now stands at the command's target, with a designated assignee. */
  predicate MovesTo(catalog: Catalog, d: Directory, l: Ledger, l': Ledger, cmd: OverrideCommand, visitId: Uuid, sequence: int,
                    v: VisitFact, target: NodeDefinition)
  {
    && IsCurrentVisit(l, v)
    && IsNodeOf(GraphOf(catalog, l.instance.definitionVersionId), target, cmd.targetNodeId)
    && (cmd.operation.TERMINATE_INSTANCE? <==> target.nodeType.TERMINAL?)
    && AddsVisit(l.visits, l'.visits, visitId, cmd.targetNodeId, None)
    && Designates(d, target, l.instance.createdByPrincipalId, l.instance.domainId, l'.visits[|l.visits|].assigneePrincipalId)
    && AddsEventOf(catalog, l.events, l'.events, ADMIN_EMERGENCY_OVERRIDE_COMMITTED, cmd.principalId, sequence, Some(v.nodeId),
                   Some(cmd.targetNodeId))
  }

  ghost predicate OverrideLeaves(catalog: Catalog, st: DbState, st': DbState, cmd: OverrideCommand, body: ResponseBody) {
    var id := cmd.workflowInstanceId;
    && body.OverrideBody? && body.workflowInstanceId == id && id in st.ledgers
    && var l := st.ledgers[id];
    && ChangesOnly(st, st', id, l.instance.projection.(currentNodeVisitId := Some(body.currentNodeVisitId),
                                                       workflowStateVersion := body.workflowStateVersion))
    && var l' := st'.ledgers[id];
    && body.workflowStateVersion == body.eventSequence == l.instance.projection.workflowStateVersion + 1
    && l.instance.projection.currentNodeVisitId == Some(body.sourceNodeVisitId)
    && l'.contexts == l.contexts && l'.submissions == l.submissions
    && body.beforeSnapshotDigest == RowDigest(l.instance)
    && |l'.events| == |l.events| + 1
    && l'.events[|l.events|].eventData
       == Some(AdminData(cmd.operation, cmd.reason, cmd.relatedReferences, body.beforeSnapshotDigest))
    && exists v: VisitFact, target: NodeDefinition ::
         MovesTo(catalog, st.directory, l, l', cmd, body.currentNodeVisitId, body.eventSequence, v, target)
  }

  /** The response tells both projections as they are stored before and after, and whether they differ. */
  predicate RebuildLeaves(catalog: Catalog, st: DbState, st': DbState, cmd: RebuildCommand, body: ResponseBody) {
    var id := cmd.workflowInstanceId;
    && body.RebuildBody? && body.workflowInstanceId == id
    && ChangesOnly(st, st', id, body.afterProjection)
    && var l := st.ledgers[id];
    && st'.ledgers[id] == l.(instance := st'.ledgers[id].instance)
    && body.beforeProjection == l.instance.projection
    && body.beforeSnapshotDigest == RowDigest(l.instance)
    && Reconstruct(catalog, st.receipts, l) == Some(body.afterProjection)
    && (body.changed <==> body.beforeProjection != body.afterProjection)
  }

  ghost predicate Leaves(catalog: Catalog, st: DbState, st': DbState, call: Call, body: ResponseBody) {
    match call
    case Create(c) => CreationLeaves(catalog, st, st', c, body)
    case Import(c) => ImportLeaves(catalog, st, st', c, body)
    case Revise(c) => RevisionLeaves(catalog, st, st', c, body)
    case Transition(c) => TransitionLeaves(catalog, st, st', c, body)
    case Combined(c) => CombinationLeaves(catalog, st, st', c, body)
    case Override(c) => OverrideLeaves(catalog, st, st', c, body)
    case Rebuild(c) => RebuildLeaves(catalog, st, st', c, body)
  }

  /** The request's receipt is added, complete and successful, with the response and its digest. */
  predicate AddsReceipt(st: DbState, st': DbState, r: Request, ids: FreshIds, body: ResponseBody) {
    && |st'.receipts| == |st.receipts| + 1 && st'.receipts[..|st.receipts|] == st.receipts
    && st'.receipts[|st.receipts|]
       == Receipt(ids.commandId, PrincipalOf(r.call), KeyOf(r), TypeOf(r.call), HashOf(r), COMPLETED, Some(200), Some(body),
                  Some(OfBody(body)))
  }

  // ----- The decisions -----

  /** The state after a decided write. */
  function After(st: DbState, w: Write): DbState
    requires WriteFits(st.ledgers, w)
  {
    st.(ledgers := ApplyWrite(st.ledgers, w))
  }

  /** What the decision of a command writes, once it fits, and the body that goes with it. */
  ghost predicate Decided(env: Env, st: DbState, call: Call, ids: FreshIds, plan: Plan) {
    Decide(env, st, call, ids) == Go(plan) && WriteFits(st.ledgers, plan.write)
  }

  lemma CreationDecided(env: Env, st: DbState, cmd: CreateCommand, ids: FreshIds, plan: Plan)
    requires KeyedCatalog(env.catalog) && Decided(env, st, Create(cmd), ids, plan) && st.directory == env.directory
    ensures CreationLeaves(env.catalog, st, After(st, plan.write), cmd, plan.body)
  {
    hide CheckCreate, Designates, ContextInsertable, VisitInsertable, EventInsertable, IsDraftOf, KeyedCatalog;
    var checked := CheckCreate(env, cmd).value;
    CreatePlanFacts(env, cmd, checked);
    CreationDesignates(env, cmd, checked);
    var l := CreatedLedger(env, cmd, checked, ids);
    assert AddsVisit([], l.visits, plan.body.currentNodeVisitId, checked.node.nodeId, None);
  }

  lemma CreationDesignates(env: Env, cmd: CreateCommand, plan: CreatePlan)
    requires KeyedCatalog(env.catalog) && CheckCreate(env, cmd) == Go(plan)
    ensures IsDraftOf(GraphOf(env.catalog, cmd.definitionVersionId), plan.node)
    ensures Designates(env.directory, plan.node, cmd.principalId, cmd.domainId, Some(plan.assigneeId))
  {
    CreatePlanFacts(env, cmd, plan);
    CreationResolves(env, cmd, plan);
    hide CheckCreate, Designates, ResolveAssignee, UniqueNodeIds, UniqueTransitionIds;
    ResolutionIsDesignation(env.directory, plan.node, cmd.principalId, cmd.domainId);
    DraftIsOnlyDraft(GraphOf(env.catalog, cmd.definitionVersionId));
  }

  lemma CreationResolves(env: Env, cmd: CreateCommand, plan: CreatePlan)
    requires CheckCreate(env, cmd) == Go(plan)
    ensures ResolveAssignee(env.directory, plan.node, cmd.principalId, cmd.domainId) == Go(Some(plan.assigneeId))
  {
    hide ConformsTo, GraphOf, IsMember, PublishedVersion, FirstHolder, OfType;
  }

  lemma ImportDecided(env: Env, st: DbState, cmd: ImportCommand, ids: FreshIds, plan: Plan)
    requires Decided(env, st, Import(cmd), ids, plan) && st.directory == env.directory
    ensures ImportLeaves(env.catalog, st, After(st, plan.write), cmd, plan.body)
  {
    hide CheckImport, IsImportCreator, CanOwnWork, Designates, GraphOf, ContextInsertable, VisitInsertable, EventInsertable;
    var checked := CheckImport(env, st.ledgers, cmd).value;
    ImportPlanFacts(env, st.ledgers, cmd, checked);
    ImportResolution(env, st.ledgers, cmd, checked);
    assert IsNodeOf(GraphOf(env.catalog, cmd.definitionVersionId), checked.node, cmd.importedNodeId);
  }

  lemma ImportResolution(env: Env, ledgers: map<Uuid, Ledger>, cmd: ImportCommand, plan: ImportPlan)
    requires CheckImport(env, ledgers, cmd) == Go(plan)
    ensures IsImportCreator(env.catalog, env.directory, cmd, plan.creatorId) && plan.assigneeId == cmd.legacyAssigneeId
    ensures Designates(env.directory, plan.node, plan.creatorId, cmd.domainId, plan.assigneeId)
    ensures IsNodeOf(GraphOf(env.catalog, cmd.definitionVersionId), plan.node, cmd.importedNodeId)
    ensures plan.resolution.LEGACY_CREATOR?
       <==> cmd.legacyCreatorId.Some? && CanOwnWork(env.catalog, env.directory, cmd.legacyCreatorId.value)
  {
    ImportPlanFacts(env, ledgers, cmd, plan);
    hide CheckImportAccess, ImportCreator, ImportAssignee, IsImportCreator, IsImportAssignee, ReferenceUsed, GraphOf, Designates,
         CanOwnWork, ConformsTo;
    ImportCreatorIs(env, cmd, plan.creatorId);
    ImportAssigneeIs(env, cmd, plan.node, plan.creatorId);
  }

  lemma FittingEntryRises(ledgers: map<Uuid, Ledger>, l: Ledger, e: Entry)
    requires EntryInsertable(ledgers, l, e)
    ensures e.event.eventSequence == e.event.newWorkflowStateVersion == e.event.oldWorkflowStateVersion + 1
  {
    hide ContextInsertable, VisitInsertable, SubmissionInsertable;
  }

  lemma RevisionDecided(env: Env, st: DbState, cmd: ReviseCommand, ids: FreshIds, plan: Plan)
    requires Decided(env, st, Revise(cmd), ids, plan)
    ensures RevisionLeaves(env.catalog, st, After(st, plan.write), cmd, plan.body)
  {
    hide CheckRevise, CurrentVisit, CurrentContext, EntryInsertable;
    var checked := CheckRevise(env, st.ledgers, cmd).value;
    RevisePlanFacts(env, st.ledgers, cmd, checked);
    FittingEntryRises(st.ledgers, checked.ledger, plan.write.entry);
    CurrentIsNamed(checked.ledger, checked.visit);
  }

  lemma CurrentIsNamed(l: Ledger, v: VisitFact)
    requires CurrentVisit(l) == Some(v)
    ensures IsCurrentVisit(l, v)
  {
    hide VisitsById;
  }

  lemma TransitionDecided(env: Env, st: DbState, cmd: TransitionCommand, ids: FreshIds, plan: Plan)
    requires Decided(env, st, Transition(cmd), ids, plan) && st.directory == env.directory
    ensures TransitionLeaves(env.catalog, st, After(st, plan.write), cmd, plan.body)
  {
    hide CheckTransition, CurrentVisit, EntryInsertable, Designates, NodeOf, TransitionOf,
         GraphOf, MaxVisitNumber;
    var checked := CheckTransition(env, st.ledgers, cmd).value;
    TransitionPlanFacts(env, st.ledgers, cmd, checked);
    TransitionDesignates(env, st.ledgers, cmd, checked);
    FittingEntryRises(st.ledgers, checked.ledger, plan.write.entry);
    CurrentIsNamed(checked.ledger, checked.visit);
    assert TakesStep(env.catalog, env.directory, checked.ledger, After(st, plan.write).ledgers[cmd.workflowInstanceId],
                     cmd.transitionId, ids.visitId, WORKFLOW_TRANSITION_COMMITTED, cmd.principalId, plan.body.eventSequence,
                     checked.transition, checked.target);
  }

  lemma TransitionDesignates(env: Env, ledgers: map<Uuid, Ledger>, cmd: TransitionCommand, plan: TransitionPlan)
    requires CheckTransition(env, ledgers, cmd) == Go(plan)
    ensures Designates(env.directory, plan.target, plan.ledger.instance.createdByPrincipalId, plan.ledger.instance.domainId,
                       plan.assigneeId)
  {
    hide VersionUsable, CurrentVisit, GraphOf, NodeOf, TransitionOf, ResolveAssignee, EffectFits, TargetFits,
         SubmissionFitsSchema, PrincipalEnabled, Designates;
    ResolutionIsDesignation(env.directory, plan.target, plan.ledger.instance.createdByPrincipalId, plan.ledger.instance.domainId);
  }

  lemma CombinationDecided(env: Env, st: DbState, cmd: CombinedCommand, ids: FreshIds, plan: Plan)
    requires Decided(env, st, Combined(cmd), ids, plan) && st.directory == env.directory
    ensures CombinationLeaves(env.catalog, st, After(st, plan.write), cmd, plan.body)
  {
    hide CheckCombined, CurrentVisit, CurrentContext, EntryInsertable, Designates, NodeOf,
         TransitionOf, GraphOf, MaxVisitNumber;
    var checked := CheckCombined(env, st.ledgers, cmd).value;
    CombinedPlanFacts(env, st.ledgers, cmd, checked);
    CombinationDesignates(env, st.ledgers, cmd, checked);
    FittingEntryRises(st.ledgers, checked.ledger, plan.write.entry);
    CurrentIsNamed(checked.ledger, checked.visit);
    assert TakesStep(env.catalog, env.directory, checked.ledger, After(st, plan.write).ledgers[cmd.workflowInstanceId],
                     cmd.transitionId, ids.visitId, WORKFLOW_CONTEXT_REVISED_AND_TRANSITION_COMMITTED, cmd.principalId,
                     plan.body.eventSequence, checked.transition, checked.target);
  }

  lemma CombinationDesignates(env: Env, ledgers: map<Uuid, Ledger>, cmd: CombinedCommand, plan: CombinedPlan)
    requires CheckCombined(env, ledgers, cmd) == Go(plan)
    ensures Designates(env.directory, plan.target, plan.ledger.instance.createdByPrincipalId, plan.ledger.instance.domainId,
                       plan.assigneeId)
  {
    hide VersionUsable, CurrentVisit, CurrentContext, GraphOf, NodeOf, TransitionOf, ResolveAssignee, PrincipalEnabled, Designates;
    ResolutionIsDesignation(env.directory, plan.target, plan.ledger.instance.createdByPrincipalId, plan.ledger.instance.domainId);
  }

  lemma OverrideDecided(env: Env, st: DbState, cmd: OverrideCommand, ids: FreshIds, plan: Plan)
    requires Decided(env, st, Override(cmd), ids, plan) && st.directory == env.directory
    ensures OverrideLeaves(env.catalog, st, After(st, plan.write), cmd, plan.body)
  {
    hide CheckOverride, CurrentVisit, EntryInsertable, AdminPayloadBounded, Reconstruct, Designates, NodeOf, GraphOf,
         MaxVisitNumber;
    var checked := CheckOverride(env, st, cmd).value;
    OverridePlanFacts(env, st, cmd, checked);
    OverrideDesignates(env, st, cmd, checked);
    FittingEntryRises(st.ledgers, checked.ledger, plan.write.entry);
    CurrentIsNamed(checked.ledger, checked.visit);
    assert MovesTo(env.catalog, env.directory, checked.ledger, After(st, plan.write).ledgers[cmd.workflowInstanceId], cmd,
                   ids.visitId, plan.body.eventSequence, checked.visit, checked.target);
  }

  lemma OverrideDesignates(env: Env, st: DbState, cmd: OverrideCommand, plan: OverridePlan)
    requires CheckOverride(env, st, cmd) == Go(plan)
    ensures Designates(env.directory, plan.target, plan.ledger.instance.createdByPrincipalId, plan.ledger.instance.domainId,
                       plan.assigneeId)
    ensures cmd.operation.TERMINATE_INSTANCE? <==> plan.target.nodeType.TERMINAL?
  {
    hide CheckAdmin, CurrentVisit, NodeOf, Reconstruct, AdminPayloadBounded, ExpectDigest, AdminTarget, MaxVisitNumber, Designates;
    MoveAgrees(env, plan.ledger, cmd.operation, plan.target);
  }

  lemma RebuildDecided(env: Env, st: DbState, cmd: RebuildCommand, ids: FreshIds, plan: Plan)
    requires Decided(env, st, Rebuild(cmd), ids, plan)
    ensures RebuildLeaves(env.catalog, st, After(st, plan.write), cmd, plan.body)
  {
    hide CheckRebuild, Reconstruct;
    var checked := CheckRebuild(env, st, cmd).value;
    RebuildPlanFacts(env, st, cmd, checked);
    assert st.ledgers[cmd.workflowInstanceId := st.ledgers[cmd.workflowInstanceId]] == st.ledgers;
  }

  lemma ExecutedPlan(catalog: Catalog, st: DbState, r: Request, ids: FreshIds)
    requires Execute(catalog, st, r, ids).1.Executed?
    ensures var env := Env(catalog, st.directory);
      && Decide(env, st, r.call, ids).Go?
      && var plan := Decide(env, st, r.call, ids).value;
      && Decided(env, st, r.call, ids, plan) && Execute(catalog, st, r, ids).1.body == plan.body
      && Execute(catalog, st, r, ids).0.ledgers == After(st, plan.write).ledgers
      && Execute(catalog, st, r, ids).0.directory == st.directory
      && Execute(catalog, st, r, ids).0.receipts == st.receipts + [Completed(OpenReceipt(r, ids), 200, plan.body)]
  {
    hide Decide, FindReceipt, FindCommand, Precheck, Access, WriteFits, ApplyWrite;
  }

  lemma ExecutedReceipt(catalog: Catalog, st: DbState, r: Request, ids: FreshIds)
    requires Execute(catalog, st, r, ids).1.Executed?
    ensures AddsReceipt(st, Execute(catalog, st, r, ids).0, r, ids, Execute(catalog, st, r, ids).1.body)
  {
    hide Decide, Execute, Decided;
    ExecutedPlan(catalog, st, r, ids);
    var env := Env(catalog, st.directory);
    BodyIsNoFailure(env, st, r.call, ids);
  }

  lemma BodyIsNoFailure(env: Env, st: DbState, call: Call, ids: FreshIds)
    requires Decide(env, st, call, ids).Go?
    ensures !Decide(env, st, call, ids).value.body.FailureBody?
  {
    hide CheckCreate, CheckImport, CheckRevise, CheckTransition, CheckCombined, CheckOverride, CheckRebuild;
  }

  /** Whatever the state, an executed request leaves what its command says, and its receipt. */
  lemma ExecutedLeaves(catalog: Catalog, st: DbState, r: Request, ids: FreshIds)
    requires KeyedCatalog(catalog)
    ensures Execute(catalog, st, r, ids).1.Executed? ==>
              && Leaves(catalog, st, Execute(catalog, st, r, ids).0, r.call, Execute(catalog, st, r, ids).1.body)
              && AddsReceipt(st, Execute(catalog, st, r, ids).0, r, ids, Execute(catalog, st, r, ids).1.body)
  {
    hide KeyedCatalog, Leaves, Decide, Execute, Decided, WriteFits, ApplyWrite, AddsReceipt;
    var env := Env(catalog, st.directory);
    if Execute(catalog, st, r, ids).1.Executed? {
      ExecutedReceipt(catalog, st, r, ids);
      ExecutedPlan(catalog, st, r, ids);
      var plan := Decide(env, st, r.call, ids).value;
      DecidedFits(env, st, r.call, ids, plan);
      DecidedLeaves(env, st, r.call, ids, plan);
      ReceiptsDoNotMatter(catalog, st, After(st, plan.write), Execute(catalog, st, r, ids).0, r.call, plan.body);
    }
  }

  lemma DecidedLeaves(env: Env, st: DbState, call: Call, ids: FreshIds, plan: Plan)
    requires KeyedCatalog(env.catalog) && Decided(env, st, call, ids, plan) && st.directory == env.directory
    ensures Leaves(env.catalog, st, After(st, plan.write), call, plan.body)
  {
    hide KeyedCatalog, Decided, CreationLeaves, ImportLeaves, RevisionLeaves, TransitionLeaves, CombinationLeaves, OverrideLeaves,
         RebuildLeaves;
    assert WriteFits(st.ledgers, plan.write) by {
      DecidedFits(env, st, call, ids, plan);
    }
    match call
    case Create(c) => CreationDecided(env, st, c, ids, plan);
    case Import(c) => ImportDecided(env, st, c, ids, plan);
    case Revise(c) => RevisionDecided(env, st, c, ids, plan);
    case Transition(c) => TransitionDecided(env, st, c, ids, plan);
    case Combined(c) => CombinationDecided(env, st, c, ids, plan);
    case Override(c) => OverrideDecided(env, st, c, ids, plan);
    case Rebuild(c) => RebuildDecided(env, st, c, ids, plan);
  }

  lemma DecidedFits(env: Env, st: DbState, call: Call, ids: FreshIds, plan: Plan)
    requires Decided(env, st, call, ids, plan)
    ensures WriteFits(st.ledgers, plan.write)
  {
  }

  /** What is left does not speak of receipts. */
  lemma ReceiptsDoNotMatter(catalog: Catalog, st: DbState, a: DbState, b: DbState, call: Call, body: ResponseBody)
    requires a.ledgers == b.ledgers && a.directory == b.directory
    ensures Leaves(catalog, st, a, call, body) ==> Leaves(catalog, st, b, call, body)
  {
    hide AddsContext, AddsVisit, AddsSubmission, AddsEventOf, Designates, IsDesignated, IsDraftOf, IsImportCreator, CanOwnWork,
         IsTaken, IsNodeOf, IsCurrentVisit, Reconstruct, RowDigest, GraphOf;
  }

  // ----- Who was designated when -----

  /** What a command leaves: an instance keeps its row, and each visit is an old one or has a designated assignee. */
  lemma LeavesDesignated(catalog: Catalog, st: DbState, st': DbState, call: Call, body: ResponseBody, id: Uuid, v: VisitFact)
    requires Leaves(catalog, st, st', call, body) && id in st'.ledgers && v in st'.ledgers[id].visits
    ensures var row := st'.ledgers[id].instance;
      && (id in st.ledgers ==> row == st.ledgers[id].instance.(projection := row.projection))
      && ((id in st.ledgers && v in st.ledgers[id].visits) || IsDesignated(catalog, st.directory, row, v))
  {
    hide AddsContext, AddsSubmission, AddsEventOf, Designates, IsImportCreator, CanOwnWork, IsTaken, IsCurrentVisit, Reconstruct,
         RowDigest, GraphOf;
    match call
    case Create(c) =>
      if id == body.workflowInstanceId {
        var n: NodeDefinition :|
          && IsDraftOf(GraphOf(catalog, c.definitionVersionId), n)
          && AddsVisit([], st'.ledgers[id].visits, body.currentNodeVisitId, n.nodeId, None)
          && Designates(st.directory, n, c.principalId, c.domainId, st'.ledgers[id].visits[0].assigneePrincipalId);
        assert IsNodeOf(GraphOf(catalog, c.definitionVersionId), n, v.nodeId);
      }
    case Import(c) =>
    case Revise(c) =>
    case Transition(c) =>
      if id == c.workflowInstanceId {
        LastIsNew(st.ledgers[id].visits, st'.ledgers[id].visits, v);
      }
    case Combined(c) =>
      if id == c.workflowInstanceId {
        LastIsNew(st.ledgers[id].visits, st'.ledgers[id].visits, v);
      }
    case Override(c) =>
      if id == c.workflowInstanceId {
        LastIsNew(st.ledgers[id].visits, st'.ledgers[id].visits, v);
      }
    case Rebuild(c) =>
  }

  lemma LastIsNew(before: seq<VisitFact>, after: seq<VisitFact>, v: VisitFact)
    requires |after| == |before| + 1 && after[..|before|] == before && v in after
    ensures v in before || v == after[|before|]
  {
    assert after == before + [after[|before|]];
  }

  /** The visit was added by a step `j` of the run, whose directory let its node's rule designate its assignee. */
  ghost predicate AddedWhenDesignated(catalog: Catalog, run: seq<DbState>, i: nat, id: Uuid, v: VisitFact, j: nat)
    requires j < i < |run| && id in run[i].ledgers
  {
    && !(id in run[j].ledgers && v in run[j].ledgers[id].visits)
    && id in run[j + 1].ledgers && v in run[j + 1].ledgers[id].visits
    && IsDesignated(catalog, run[j].directory, run[i].ledgers[id].instance, v)
  }

  lemma StepDesignates(catalog: Catalog, st: DbState, a: Action, id: Uuid, v: VisitFact)
    requires KeyedCatalog(catalog) && id in Next(catalog, st, a).ledgers && v in Next(catalog, st, a).ledgers[id].visits
    ensures var row := Next(catalog, st, a).ledgers[id].instance;
      && (id in st.ledgers ==> row == st.ledgers[id].instance.(projection := row.projection))
      && ((id in st.ledgers && v in st.ledgers[id].visits) || IsDesignated(catalog, st.directory, row, v))
  {
    hide KeyedCatalog, Execute, Leaves, IsDesignated;
    if a.Command? {
      if Execute(catalog, st, a.request, a.ids).1.Executed? {
        ExecutedLeaves(catalog, st, a.request, a.ids);
        LeavesDesignated(catalog, st, Next(catalog, st, a), a.request.call, Execute(catalog, st, a.request, a.ids).1.body, id, v);
      } else {
        UnexecutedKeepsLedgers(catalog, st, a.request, a.ids);
      }
    }
  }

  /**
   In every state of every run each visit was added by a step whose directory let its node's rule designate
   exactly its assignee: the creator, the active fixed principal, or an active principal with an enabled
   owner binding in the instance's domain; nobody at a terminal node.
   */
  lemma {:induction false} EveryVisitWasDesignated(catalog: Catalog, run: seq<DbState>, actions: seq<Action>, i: nat, id: Uuid,
                                                   v: VisitFact)
    requires KeyedCatalog(catalog) && IsRun(catalog, run, actions) && i < |run|
    requires id in run[i].ledgers && v in run[i].ledgers[id].visits
    ensures exists j :: 0 <= j < i && AddedWhenDesignated(catalog, run, i, id, v, j)
  {
    hide Next, KeyedCatalog, Designates, GraphOf;
    if i > 0 {
      StepDesignates(catalog, run[i - 1], actions[i - 1], id, v);
      if id in run[i - 1].ledgers && v in run[i - 1].ledgers[id].visits {
        EveryVisitWasDesignated(catalog, run, actions, i - 1, id, v);
        var j :| 0 <= j < i - 1 && AddedWhenDesignated(catalog, run, i - 1, id, v, j);
        assert AddedWhenDesignated(catalog, run, i, id, v, j);
      } else {
        assert AddedWhenDesignated(catalog, run, i, id, v, i - 1);
      }
    }
  }
}
