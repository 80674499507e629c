/**
 The commands of the runtime: for each, the checks in the order in which its transaction makes them,
 and the write it commits when all of them pass.
 */
module Commands {
  import opened Prelude
  import opened DefinitionModel
  import opened GraphRules
  import opened RuntimeModel
  import opened KernelState
  import opened EventReplay
  import opened Snapshot

  datatype Env = Env(catalog: Catalog, directory: Directory)

  datatype CreateCommand = CreateCommand(
    principalId: Uuid, domainId: Uuid, definitionVersionId: Uuid, contextPayload: Json, metadata: Json,
    externalReference: Option<Key>)

  datatype ReviseCommand = ReviseCommand(
    principalId: Uuid, workflowInstanceId: Uuid, expectedVersion: int, contextPayload: Json)

  datatype TransitionCommand = TransitionCommand(
    principalId: Uuid, workflowInstanceId: Uuid, expectedVersion: int, transitionId: Uuid,
    submissionPayload: Option<Json>)

  datatype CombinedCommand = CombinedCommand(
    principalId: Uuid, workflowInstanceId: Uuid, expectedVersion: int, transitionId: Uuid,
    contextPayload: Json, submissionPayload: Json)

  datatype OverrideCommand = OverrideCommand(
    principalId: Uuid, workflowInstanceId: Uuid, expectedVersion: int, operation: AdminOperation,
    targetNodeId: Uuid, reason: string, relatedReferences: seq<RelatedReference>,
    expectedBeforeSnapshotDigest: Option<Digest>)

  datatype RebuildCommand = RebuildCommand(
    principalId: Uuid, workflowInstanceId: Uuid, expectedBeforeSnapshotDigest: Option<Digest>)

  /** The outcome of the checks of a legacy snapshot's strings, dates and sizes. */
  datatype SnapshotShape = WellShaped | IllShaped | Oversized

  datatype ImportCommand = ImportCommand(
    principalId: Uuid, domainId: Uuid, definitionVersionId: Uuid, importedNodeId: Uuid, legacyRecordId: Uuid,
    legacyCreatorId: Option<Uuid>, legacyAssigneeId: Option<Uuid>, contextPayload: Json, legacySnapshot: int,
    expectedSnapshotDigest: Digest, domainKey: string, currentStep: string, shape: SnapshotShape)

  /** The ids that a transaction generates. */
  datatype FreshIds = FreshIds(
    commandId: Uuid, instanceId: Uuid, contextId: Uuid, visitId: Uuid, submissionId: Uuid, eventId: Uuid)

  const MIB: nat := 1024 * 1024

  // ----- Shared checks -----

  function FindLedger(ledgers: map<Uuid, Ledger>, id: Uuid): Verdict<Ledger> {
    if id in ledgers then Go(ledgers[id]) else Refuse(InstanceNotFound)
  }

  /** The row decoder of the command transactions needs both pointers. */
  predicate HasPointers(l: Ledger) {
    l.instance.projection.currentContextRevisionId.Some? && l.instance.projection.currentNodeVisitId.Some?
  }

  function LockInstance(ledgers: map<Uuid, Ledger>, id: Uuid): (r: Verdict<Ledger>)
    ensures r.Go? ==> id in ledgers && r.value == ledgers[id] && HasPointers(r.value)
  {
    var l :- FindLedger(ledgers, id);
    if HasPointers(l) then Go(l) else Abort(StorageError(ConstraintViolation))
  }

  function ExpectVersion(expected: int, l: Ledger): Verdict<()> {
    var actual := l.instance.projection.workflowStateVersion;
    Require(expected == actual, WorkflowStateVersionConflict(expected, actual))
  }

  function ReadCurrentVisit(l: Ledger): (r: Verdict<VisitFact>)
    ensures r.Go? ==> CurrentVisit(l) == Some(r.value)
  {
    match CurrentVisit(l)
    case None => Refuse(CurrentVisitNotFound)
    case Some(v) => Go(v)
  }

  function PrincipalEnabled(d: Directory, principalId: Uuid): Verdict<()> {
    if principalId !in d.principals then Refuse(PrincipalNotFound)
    else Require(d.principals[principalId], PrincipalDisabled)
  }

  function VersionUsable(d: Directory, versionId: Uuid): Verdict<()> {
    if versionId !in d.versionStatus then Abort(InternalConsistency(MissingVersion))
    else
      match d.versionStatus[versionId]
      case Revoked => Refuse(DefinitionVersionRevoked)
      case Draft => Refuse(DefinitionVersionDraft)
      case _ => Go(())
  }

  function ReadNode(catalog: Catalog, versionId: Uuid, nodeId: Uuid): (r: Verdict<NodeDefinition>)
    ensures r.Go? ==> NodeOf(catalog, versionId, nodeId) == Some(r.value)
  {
    match NodeOf(catalog, versionId, nodeId)
    case None => Abort(InternalConsistency(MissingNode))
    case Some(n) => Go(n)
  }

  function ReadTransition(catalog: Catalog, versionId: Uuid, transitionId: Uuid): (r: Verdict<TransitionDefinition>)
    ensures r.Go? ==> TransitionOf(catalog, versionId, transitionId) == Some(r.value)
  {
    match TransitionOf(catalog, versionId, transitionId)
    case None => Refuse(TransitionNotApplicable(UnknownTransition))
    case Some(t) => Go(t)
  }

  function ConformsTo(catalog: Catalog, schema: Option<Json>, payload: Json): bool {
    schema.None? || catalog.conforms(schema.value, payload)
  }

  /** The principal that an assignee rule designates, disabled or not. */
  function AssigneeCandidate(directory: Directory, rule: Option<AssigneeRef>, creatorId: Uuid, domainId: Uuid)
    : Verdict<Uuid>
  {
    if rule.None? then Refuse(AssigneeResolutionFailed(NoAssigneeRule))
    else
      match rule.value.refType
      case WORKFLOW_CREATOR => Go(creatorId)
      case DOMAIN_OWNER =>
        (match FirstHolder(BindingsOf(directory, domainId), DOMAIN_OWNER_ROLE)
         case None => Refuse(AssigneeResolutionFailed(NoOwner))
         case Some(b) => Go(b.principalId))
      case FIXED_PRINCIPAL =>
        (match rule.value.fixedPrincipalId
         case None => Refuse(AssigneeResolutionFailed(NoFixedPrincipal))
         case Some(id) => Go(id))
  }

  /** Assignee resolution of create, transition and combined: only a creator may be disabled. */
  function ResolveRule(directory: Directory, rule: Option<AssigneeRef>, creatorId: Uuid, domainId: Uuid): Verdict<Uuid> {
    var candidate :- AssigneeCandidate(directory, rule, creatorId, domainId);
    if rule.value.refType.WORKFLOW_CREATOR? || IsEnabled(directory, candidate) then Go(candidate)
    else Refuse(AssigneeResolutionFailed(AssigneeUnavailable))
  }

  function ResolveAssignee(directory: Directory, target: NodeDefinition, creatorId: Uuid, domainId: Uuid)
    : (r: Verdict<Option<Uuid>>)
    ensures r.Go? ==> (target.nodeType.TERMINAL? <==> r.value.None?)
  {
    if target.nodeType.TERMINAL? then Go(None)
    else
      var id :- ResolveRule(directory, target.assigneeRef, creatorId, domainId);
      Go(Some(id))
  }

  // ----- Rows -----

  function VisitRow(l: InstanceRow, id: Uuid, n: NodeDefinition, number: int, assignee: Option<Uuid>, enteredBy: Option<Uuid>)
    : VisitFact
  {
    VisitFact(id, l.workflowInstanceId, n.nodeId, number, assignee, enteredBy, l.definitionVersionId, n.nodeType,
              if n.assigneeRef.Some? then Some(n.assigneeRef.value.refType) else None)
  }

  function ContextRow(l: InstanceRow, id: Uuid, number: int, previous: Option<Uuid>, payload: Json, author: Uuid): ContextFact {
    ContextFact(id, l.workflowInstanceId, number, previous, payload, OfJson(payload), author)
  }

  function SubmissionRow(l: InstanceRow, id: Uuid, visitId: Uuid, contextId: Uuid, author: Uuid, transitionId: Uuid,
                         payload: Json): SubmissionFact
  {
    SubmissionFact(id, l.workflowInstanceId, visitId, contextId, author, transitionId, payload, OfJson(payload))
  }

  /** An event row; old and new state versions are `version` and its 32-bit successor. */
  function EventRow(catalog: Catalog, l: InstanceRow, ids: FreshIds, eventType: EventType, data: EventData, actor: Uuid,
                    version: int): EventFact
  {
    EventFact(ids.eventId, l.workflowInstanceId, Inc32(version), V1, eventType, None, None, None, None, None,
              Some(data), Some(OfEventData(data)), Some(ids.commandId), actor, PrincipalTypeOf(catalog, actor),
              None, None, version, Inc32(version))
  }

  // ----- Create -----

  datatype CreatePlan = CreatePlan(node: NodeDefinition, rule: AssigneeRef, assigneeId: Uuid)

  predicate IsMember(d: Directory, domainId: Uuid, principalId: Uuid) {
    exists b :: b in BindingsOf(d, domainId) && b.principalId == principalId && b.enabled
  }

  function DomainEnabled(d: Directory, domainId: Uuid): Verdict<()> {
    if domainId !in d.domains then Refuse(DomainNotFound) else Require(d.domains[domainId], DomainDisabled)
  }

  function PublishedVersion(env: Env, versionId: Uuid, domainId: Uuid): Verdict<()> {
    if versionId !in env.catalog.versions then Refuse(DefinitionVersionNotFound)
    else if env.catalog.versions[versionId].domainId != domainId then Refuse(CrossDomainViolation)
    else
      Require(versionId in env.directory.versionStatus && env.directory.versionStatus[versionId].Published?,
              VersionNotPublished)
  }

  function ReadDraftNode(catalog: Catalog, versionId: Uuid): (r: Verdict<NodeDefinition>)
    ensures r.Go? ==> r.value.nodeType.DRAFT? && r.value.assigneeRef.Some?
    ensures r.Go? ==> OfType(GraphOf(catalog, versionId).nodes, DRAFT) == [r.value]
  {
    var drafts := OfType(GraphOf(catalog, versionId).nodes, DRAFT);
    if |drafts| != 1 then Abort(InternalConsistency(MissingNode))
    else
      assert drafts[0] in drafts;
      if drafts[0].assigneeRef.None? then Abort(StorageError(ConstraintViolation)) else Go(drafts[0])
  }

  function CheckCreate(env: Env, cmd: CreateCommand): Verdict<CreatePlan> {
    var _ :- Require(env.catalog.sizeOf(cmd.contextPayload) <= MIB, SizeLimitExceeded(TooLarge));
    var _ :- Require(env.catalog.sizeOf(cmd.metadata) <= 64 * 1024, SizeLimitExceeded(TooLarge));
    var _ :- PublishedVersion(env, cmd.definitionVersionId, cmd.domainId);
    var _ :- DomainEnabled(env.directory, cmd.domainId);
    var _ :- PrincipalEnabled(env.directory, cmd.principalId);
    var _ :- Require(IsMember(env.directory, cmd.domainId, cmd.principalId), DomainMembershipRequired);
    var node :- ReadDraftNode(env.catalog, cmd.definitionVersionId);
    var assigneeId :- ResolveRule(env.directory, node.assigneeRef, cmd.principalId, cmd.domainId);
    var _ :- Require(ConformsTo(env.catalog, GraphOf(env.catalog, cmd.definitionVersionId).contextSchema,
                                cmd.contextPayload), ContextValidationFailed(SchemaViolation));
    Go(CreatePlan(node, node.assigneeRef.value, assigneeId))
  }

  function CreatedLedger(env: Env, cmd: CreateCommand, plan: CreatePlan, ids: FreshIds): Ledger {
    var row := InstanceRow(ids.instanceId, cmd.domainId, cmd.definitionVersionId, cmd.principalId,
                           PrincipalTypeOf(env.catalog, cmd.principalId), cmd.externalReference,
                           Projection(Some(ids.contextId), Some(ids.visitId), 1));
    var digest := DefinitionDigest(env.catalog, cmd.definitionVersionId);
    var data := CreatedData(cmd.definitionVersionId, if digest.Some? then digest.value else EmptyDigest,
                            plan.node.nodeId, plan.rule.refType);
    var event := EventRow(env.catalog, row, ids, INSTANCE_CREATED, data, cmd.principalId, 0);
    Ledger(row,
           [ContextRow(row, ids.contextId, 1, None, cmd.contextPayload, cmd.principalId)],
           [VisitRow(row, ids.visitId, plan.node, 1, Some(plan.assigneeId), None)],
           [],
           [event.(targetNodeVisitId := Some(ids.visitId), contextRevisionId := Some(ids.contextId))])
  }

  // ----- Import -----

  datatype ImportPlan = ImportPlan(node: NodeDefinition, creatorId: Uuid, resolution: CreatorResolution,
                                   assigneeId: Option<Uuid>)

  predicate IsWorker(env: Env, principalId: Uuid) {
    IsEnabled(env.directory, principalId) && !PrincipalTypeOf(env.catalog, principalId).SERVICE?
  }

  function Holders(bindings: seq<Binding>, role: Role): seq<Binding> {
    if bindings == [] then []
    else (if bindings[0].enabled && bindings[0].role == role then [bindings[0]] else []) + Holders(bindings[1..], role)
  }

  /** The only enabled owner, if there is exactly one and it is an enabled human or agent. */
  function SoleOwner(env: Env, domainId: Uuid): (r: Verdict<Uuid>)
    ensures r.Go? ==> IsWorker(env, r.value)
  {
    var owners := Holders(BindingsOf(env.directory, domainId), DOMAIN_OWNER_ROLE);
    if |owners| == 1 && IsWorker(env, owners[0].principalId) then Go(owners[0].principalId)
    else Refuse(CreatorResolutionFailed(NoOwner))
  }

  function CheckSnapshot(cmd: ImportCommand): Verdict<()> {
    var expected, actual := cmd.expectedSnapshotDigest, OfLegacySnapshot(cmd.legacySnapshot);
    var _ :- Require(!cmd.shape.IllShaped? && IsHexDigest(expected), InvalidInput(BadInput));
    var _ :- Require(!cmd.shape.Oversized?, SizeLimitExceeded(TooLarge));
    Require(expected == actual, SnapshotDigestMismatch(expected, actual))
  }

  function CheckDomainKey(catalog: Catalog, cmd: ImportCommand): Verdict<()> {
    Require(cmd.domainId in catalog.domainKeys && catalog.domainKeys[cmd.domainId] == cmd.domainKey, InvalidInput(BadInput))
  }

  /** The only enabled migration binding of the domain belongs to the principal. */
  predicate IsSoleMigrator(d: Directory, domainId: Uuid, principalId: Uuid) {
    var migration := Holders(BindingsOf(d, domainId), WORKFLOW_MIGRATION);
    |migration| == 1 && migration[0].principalId == principalId
  }

  /** The checks between the domain key and the imported node's key. */
  function ReadImportedNode(env: Env, cmd: ImportCommand): Verdict<NodeDefinition> {
    var _ :- PrincipalEnabled(env.directory, cmd.principalId);
    var _ :- Require(PrincipalTypeOf(env.catalog, cmd.principalId).SERVICE?, PrincipalTypeNotAllowed);
    var _ :- Require(IsSoleMigrator(env.directory, cmd.domainId, cmd.principalId), MigrationBindingInvalid);
    var _ :- Require(cmd.definitionVersionId in env.catalog.versions, DefinitionVersionNotFound);
    var _ :- Require(env.catalog.versions[cmd.definitionVersionId].domainId == cmd.domainId, PermissionDenied);
    var _ :- PublishedVersion(env, cmd.definitionVersionId, cmd.domainId);
    match NodeOf(env.catalog, cmd.definitionVersionId, cmd.importedNodeId)
    case None => Refuse(ImportedNodeNotFound)
    case Some(n) => Go(n)
  }

  function CheckImportAccess(env: Env, cmd: ImportCommand): Verdict<NodeDefinition> {
    var _ :- CheckSnapshot(cmd);
    var _ :- DomainEnabled(env.directory, cmd.domainId);
    var _ :- CheckDomainKey(env.catalog, cmd);
    var node :- ReadImportedNode(env, cmd);
    var _ :- Require(node.nodeKey == cmd.currentStep, InvalidInput(BadInput));
    Go(node)
  }

  function ImportCreator(env: Env, cmd: ImportCommand): (r: Verdict<(Uuid, CreatorResolution)>)
    ensures r.Go? ==> IsWorker(env, r.value.0)
  {
    if cmd.legacyCreatorId.Some? && IsWorker(env, cmd.legacyCreatorId.value)
    then Go((cmd.legacyCreatorId.value, LEGACY_CREATOR))
    else
      var owner :- SoleOwner(env, cmd.domainId);
      Go((owner, DOMAIN_OWNER_FALLBACK))
  }

  function ImportAssignee(env: Env, cmd: ImportCommand, node: NodeDefinition, creatorId: Uuid): (r: Verdict<Option<Uuid>>)
    ensures r.Go? ==> (node.nodeType.TERMINAL? <==> r.value.None?)
  {
    if node.nodeType.TERMINAL? then
      if cmd.legacyAssigneeId.Some? then Refuse(AssigneeResolutionFailed(BadInput)) else Go(None)
    else
      var expected :- ImportCandidate(env, cmd, node, creatorId);
      if !IsEnabled(env.directory, expected) || cmd.legacyAssigneeId != Some(expected)
      then Refuse(AssigneeResolutionFailed(AssigneeUnavailable))
      else Go(Some(expected))
  }

  function ImportCandidate(env: Env, cmd: ImportCommand, node: NodeDefinition, creatorId: Uuid): Verdict<Uuid> {
    if node.assigneeRef.Some? && node.assigneeRef.value.refType.DOMAIN_OWNER? then SoleOwner(env, cmd.domainId)
    else AssigneeCandidate(env.directory, node.assigneeRef, creatorId, cmd.domainId)
  }

  predicate ReferenceUsed(ledgers: map<Uuid, Ledger>, reference: Key) {
    exists k :: k in ledgers && ledgers[k].instance.externalReference == Some(reference)
  }

  function CheckImport(env: Env, ledgers: map<Uuid, Ledger>, cmd: ImportCommand): Verdict<ImportPlan> {
    var node :- CheckImportAccess(env, cmd);
    var _ :- Require(ConformsTo(env.catalog, GraphOf(env.catalog, cmd.definitionVersionId).contextSchema,
                                cmd.contextPayload), ContextValidationFailed(SchemaViolation));
    var creator :- ImportCreator(env, cmd);
    var assigneeId :- ImportAssignee(env, cmd, node, creator.0);
    var _ :- Require(!ReferenceUsed(ledgers, MigrationKey(cmd.legacyRecordId)), ExternalReferenceConflict);
    Go(ImportPlan(node, creator.0, creator.1, assigneeId))
  }

  function ImportedLedger(env: Env, cmd: ImportCommand, plan: ImportPlan, ids: FreshIds): Ledger {
    var row := InstanceRow(ids.instanceId, cmd.domainId, cmd.definitionVersionId, plan.creatorId,
                           PrincipalTypeOf(env.catalog, plan.creatorId), Some(MigrationKey(cmd.legacyRecordId)),
                           Projection(Some(ids.contextId), Some(ids.visitId), 1));
    var data := ImportedData(cmd.legacyRecordId, OfLegacySnapshot(cmd.legacySnapshot), plan.node.nodeId, plan.resolution);
    var event := EventRow(env.catalog, row, ids, WORKFLOW_INSTANCE_IMPORTED, data, cmd.principalId, 0);
    Ledger(row,
           [ContextRow(row, ids.contextId, 1, None, cmd.contextPayload, plan.creatorId)],
           [VisitRow(row, ids.visitId, plan.node, 1, plan.assigneeId, None)],
           [],
           [event.(targetNodeVisitId := Some(ids.visitId), contextRevisionId := Some(ids.contextId))])
  }

  // ----- Revise -----

  datatype RevisePlan = RevisePlan(ledger: Ledger, visit: VisitFact, context: ContextFact)

  /** Failures past the version check leave no receipt, except a payload that breaks its schema. */
  function AbortUnless(condition: bool, error: CommandError): Verdict<()> {
    if condition then Go(()) else Abort(error)
  }

  function CheckRevise(env: Env, ledgers: map<Uuid, Ledger>, cmd: ReviseCommand): Verdict<RevisePlan> {
    var _ :- AbortUnless(cmd.workflowInstanceId in ledgers, InstanceNotFound);
    var l :- LockInstance(ledgers, cmd.workflowInstanceId);
    var _ :- Require(l.instance.createdByPrincipalId == cmd.principalId, PrincipalNotFound);
    var _ :- PrincipalEnabled(env.directory, cmd.principalId);
    var _ :- ExpectVersion(cmd.expectedVersion, l);
    var _ :- ReviseVersionUsable(env.directory, l.instance.definitionVersionId);
    var _ :- AbortUnless(CurrentVisit(l).Some?, CurrentVisitNotFound);
    var visit := CurrentVisit(l).value;
    var _ :- AbortUnless(visit.nodeType.DRAFT?, CurrentNodeNotDraft);
    var _ :- AbortUnless(CurrentContext(l).Some?, InternalConsistency(MissingContext));
    var _ :- Require(ConformsTo(env.catalog, GraphOf(env.catalog, l.instance.definitionVersionId).contextSchema,
                                cmd.contextPayload), ContextValidationFailed(SchemaViolation));
    Go(RevisePlan(l, visit, CurrentContext(l).value))
  }

  /** Here a missing version row is a stored failure. */
  function ReviseVersionUsable(d: Directory, versionId: Uuid): Verdict<()> {
    if versionId !in d.versionStatus then Refuse(InternalConsistency(MissingVersion)) else VersionUsable(d, versionId)
  }

  function ReviseEntry(env: Env, cmd: ReviseCommand, plan: RevisePlan, ids: FreshIds): Entry {
    var row := plan.ledger.instance;
    var version := row.projection.workflowStateVersion;
    var context := ContextRow(row, ids.contextId, Inc32(plan.context.revisionNumber),
                              Some(plan.context.contextRevisionId), cmd.contextPayload, cmd.principalId);
    var data := RevisedData(plan.context.contextRevisionId, ids.contextId, plan.context.payloadDigest,
                            context.payloadDigest, plan.visit.nodeId);
    var event := EventRow(env.catalog, row, ids, CONTEXT_REVISED, data, cmd.principalId, version);
    Entry(Some(context), None, None,
          event.(sourceNodeVisitId := row.projection.currentNodeVisitId,
                 targetNodeVisitId := row.projection.currentNodeVisitId,
                 contextRevisionId := Some(ids.contextId)),
          Projection(Some(ids.contextId), row.projection.currentNodeVisitId, Inc32(version)))
  }

  // ----- Transition -----

  datatype TransitionPlan = TransitionPlan(
    ledger: Ledger, visit: VisitFact, source: NodeDefinition, transition: TransitionDefinition,
    target: NodeDefinition, assigneeId: Option<Uuid>)

  function EffectFits(source: NodeDefinition, t: TransitionDefinition): Verdict<()> {
    var primary := source.primaryAdvanceTransitionId;
    if t.transitionEffect.ADVANCE? then
      if primary.None? then Abort(InternalConsistency(NoPrimary))
      else Require(primary == Some(t.transitionId), TransitionNotApplicable(NotPrimary))
    else Require(primary != Some(t.transitionId), TransitionNotApplicable(PrimaryMisuse))
  }

  function TargetFits(source: NodeDefinition, t: TransitionDefinition, target: NodeDefinition): Verdict<()> {
    match t.transitionEffect
    case ADVANCE => Go(())
    case RETURN =>
      if target.nodeType.TERMINAL? then Refuse(TransitionNotApplicable(TargetTerminal))
      else Require(target.orderIndex < source.orderIndex, TransitionNotApplicable(TargetNotEarlier))
    case TERMINATE => Require(target.nodeType.TERMINAL?, TransitionNotApplicable(TargetNotTerminal))
  }

  /** The references of a RETURN payload name a visit and submissions of this instance. */
  predicate ReturnReferencesHold(l: Ledger, payload: Json) {
    && payload.Object?
    && "rootCauseNodeVisitId" in payload.fields
    && var root := payload.fields["rootCauseNodeVisitId"];
    && root.IdText? && root.id in VisitsById(l.visits)
    && ("relatedSubmissionIds" in payload.fields && payload.fields["relatedSubmissionIds"].Array? ==>
          forall entry :: entry in payload.fields["relatedSubmissionIds"].items ==>
            entry.IdText? && entry.id in SubmissionsById(l.submissions))
    && "reasonCode" in payload.fields
    && "reason" in payload.fields
  }

  function SubmissionFitsSchema(catalog: Catalog, l: Ledger, t: TransitionDefinition, payload: Option<Json>): Verdict<()> {
    if payload.None? then Require(t.submissionSchema.None?, SubmissionRequired)
    else
      var _ :- Require(catalog.sizeOf(payload.value) <= MIB, SizeLimitExceeded(TooLarge));
      var _ :- Require(ConformsTo(catalog, t.submissionSchema, payload.value), SubmissionValidationFailed(SchemaViolation));
      if t.transitionEffect.RETURN? then
        Require(ReturnReferencesHold(l, payload.value), InvalidReturnReferences(BadReferences))
      else Go(())
  }

  function CheckTransition(env: Env, ledgers: map<Uuid, Ledger>, cmd: TransitionCommand): Verdict<TransitionPlan> {
    var l :- LockInstance(ledgers, cmd.workflowInstanceId);
    var version := l.instance.definitionVersionId;
    var _ :- ExpectVersion(cmd.expectedVersion, l);
    var visit :- ReadCurrentVisit(l);
    var _ :- Require(!visit.nodeType.TERMINAL?, SourceNodeTerminal);
    var _ :- PrincipalEnabled(env.directory, cmd.principalId);
    var _ :- Require(visit.assigneePrincipalId == Some(cmd.principalId), PrincipalNotAssignee);
    var _ :- VersionUsable(env.directory, version);
    var source :- ReadNode(env.catalog, version, visit.nodeId);
    var t :- ReadTransition(env.catalog, version, cmd.transitionId);
    var _ :- Require(t.sourceNodeId == visit.nodeId, TransitionNotApplicable(SourceMismatch));
    var _ :- EffectFits(source, t);
    var target :- ReadNode(env.catalog, version, t.targetNodeId);
    var _ :- TargetFits(source, t, target);
    var _ :- SubmissionFitsSchema(env.catalog, l, t, cmd.submissionPayload);
    var assigneeId :- ResolveAssignee(env.directory, target, l.instance.createdByPrincipalId, l.instance.domainId);
    Go(TransitionPlan(l, visit, source, t, target, assigneeId))
  }

  function StepOf(visit: VisitFact, t: TransitionDefinition, target: NodeDefinition, targetVisitId: Uuid): StepData {
    StepData(t.transitionId, t.transitionKey, t.transitionEffect, visit.nodeId, target.nodeId, visit.nodeVisitId, targetVisitId)
  }

  /** The event columns that a step from one visit to the next fills in. */
  function StepEvent(e: EventFact, visit: VisitFact, t: TransitionDefinition, target: NodeDefinition, targetVisitId: Uuid,
                     contextId: Option<Uuid>, submissionId: Option<Uuid>): EventFact
  {
    e.(transitionEffect := Some(t.transitionEffect),
       sourceNodeVisitId := Some(visit.nodeVisitId), targetNodeVisitId := Some(targetVisitId),
       contextRevisionId := contextId, submissionId := submissionId,
       fromNodeId := Some(visit.nodeId), toNodeId := Some(target.nodeId))
  }

  function TransitionEntry(env: Env, cmd: TransitionCommand, plan: TransitionPlan, ids: FreshIds): Entry
    requires plan.ledger.instance.projection.currentContextRevisionId.Some?
  {
    var row, l := plan.ledger.instance, plan.ledger;
    var version := row.projection.workflowStateVersion;
    var contextId := row.projection.currentContextRevisionId.value;
    var submission :=
      if cmd.submissionPayload.None? then None
      else Some(SubmissionRow(row, ids.submissionId, plan.visit.nodeVisitId, contextId, cmd.principalId,
                              plan.transition.transitionId, cmd.submissionPayload.value));
    var visit := VisitRow(row, ids.visitId, plan.target, MaxVisitNumber(l.visits, plan.target.nodeId) + 1,
                          plan.assigneeId, Some(plan.transition.transitionId));
    var data := TransitionData(StepOf(plan.visit, plan.transition, plan.target, ids.visitId), contextId,
                               if submission.None? then None else Some(submission.value.payloadDigest));
    var event := EventRow(env.catalog, row, ids, WORKFLOW_TRANSITION_COMMITTED, data, cmd.principalId, version);
    Entry(None, submission, Some(visit),
          StepEvent(event, plan.visit, plan.transition, plan.target, ids.visitId, Some(contextId),
                    if submission.None? then None else Some(ids.submissionId)),
          Projection(Some(contextId), Some(ids.visitId), Inc32(version)))
  }

  // ----- Combined -----

  datatype CombinedPlan = CombinedPlan(
    ledger: Ledger, visit: VisitFact, context: ContextFact, transition: TransitionDefinition,
    target: NodeDefinition, assigneeId: Option<Uuid>)

  /** In this command every failure but a storage error leaves a receipt. */
  function Stored<T>(v: Verdict<T>): Verdict<T> {
    if v.Abort? && !v.error.StorageError? then Refuse(v.error) else v
  }

  function ReadContext(l: Ledger): (r: Verdict<ContextFact>)
    ensures r.Go? ==> CurrentContext(l) == Some(r.value)
  {
    match CurrentContext(l)
    case None => Refuse(InternalConsistency(MissingContext))
    case Some(c) => Go(c)
  }

  function CheckCombined(env: Env, ledgers: map<Uuid, Ledger>, cmd: CombinedCommand): Verdict<CombinedPlan> {
    var l :- LockInstance(ledgers, cmd.workflowInstanceId);
    var version := l.instance.definitionVersionId;
    var _ :- Stored(VersionUsable(env.directory, version));
    var _ :- ExpectVersion(cmd.expectedVersion, l);
    var visit :- ReadCurrentVisit(l);
    var _ :- Require(l.instance.createdByPrincipalId == cmd.principalId, PrincipalNotCreator);
    var _ :- Require(visit.assigneePrincipalId == Some(cmd.principalId), PrincipalNotAssignee);
    var _ :- Require(visit.nodeType.DRAFT?, CurrentNodeNotDraft);
    var _ :- PrincipalEnabled(env.directory, cmd.principalId);
    var context :- ReadContext(l);
    var source :- Stored(ReadNode(env.catalog, version, visit.nodeId));
    var t :- ReadTransition(env.catalog, version, cmd.transitionId);
    var _ :- Require(t.sourceNodeId == visit.nodeId, TransitionNotApplicable(SourceMismatch));
    var _ :- Require(t.transitionEffect.ADVANCE? && source.primaryAdvanceTransitionId == Some(t.transitionId),
                     TransitionNotApplicable(NotPrimary));
    var target :- Stored(ReadNode(env.catalog, version, t.targetNodeId));
    var _ :- Require(env.catalog.sizeOf(cmd.contextPayload) <= MIB, SizeLimitExceeded(TooLarge));
    var _ :- Require(env.catalog.sizeOf(cmd.submissionPayload) <= MIB, SizeLimitExceeded(TooLarge));
    var _ :- Require(ConformsTo(env.catalog, GraphOf(env.catalog, version).contextSchema, cmd.contextPayload),
                     ContextValidationFailed(SchemaViolation));
    var _ :- Require(ConformsTo(env.catalog, t.submissionSchema, cmd.submissionPayload),
                     SubmissionValidationFailed(SchemaViolation));
    var assigneeId :- ResolveAssignee(env.directory, target, l.instance.createdByPrincipalId, l.instance.domainId);
    Go(CombinedPlan(l, visit, context, t, target, assigneeId))
  }

  function CombinedEntry(env: Env, cmd: CombinedCommand, plan: CombinedPlan, ids: FreshIds): Entry {
    var row, l := plan.ledger.instance, plan.ledger;
    var version := row.projection.workflowStateVersion;
    var context := ContextRow(row, ids.contextId, Inc32(plan.context.revisionNumber),
                              Some(plan.context.contextRevisionId), cmd.contextPayload, cmd.principalId);
    var submission := SubmissionRow(row, ids.submissionId, plan.visit.nodeVisitId, ids.contextId, cmd.principalId,
                                    plan.transition.transitionId, cmd.submissionPayload);
    var visit := VisitRow(row, ids.visitId, plan.target, MaxVisitNumber(l.visits, plan.target.nodeId) + 1,
                          plan.assigneeId, Some(plan.transition.transitionId));
    var data := CombinedData(plan.context.contextRevisionId, ids.contextId, plan.context.payloadDigest,
                             context.payloadDigest, StepOf(plan.visit, plan.transition, plan.target, ids.visitId),
                             submission.payloadDigest);
    var event := EventRow(env.catalog, row, ids, WORKFLOW_CONTEXT_REVISED_AND_TRANSITION_COMMITTED, data,
                          cmd.principalId, version);
    Entry(Some(context), Some(submission), Some(visit),
          StepEvent(event, plan.visit, plan.transition, plan.target, ids.visitId, Some(ids.contextId),
                    Some(ids.submissionId)).(transitionEffect := Some(ADVANCE)),
          Projection(Some(ids.contextId), Some(ids.visitId), Inc32(version)))
  }

  // ----- Override and rebuild -----

  /** An enabled human or agent that holds the workflow-admin role of the instance's domain. */
  function CheckAdmin(env: Env, ledgers: map<Uuid, Ledger>, instanceId: Uuid, principalId: Uuid): (r: Verdict<Ledger>)
    ensures r.Go? ==> instanceId in ledgers && r.value == ledgers[instanceId]
  {
    var _ :- Require(instanceId in ledgers, PermissionDenied);
    var l := ledgers[instanceId];
    var _ :- AbortUnless(l.instance.definitionVersionId in env.directory.versionStatus, InternalConsistency(MissingVersion));
    var _ :- PrincipalEnabled(env.directory, principalId);
    var _ :- Require(!PrincipalTypeOf(env.catalog, principalId).SERVICE?, PrincipalTypeNotAllowed);
    var _ :- Require(exists b :: b in BindingsOf(env.directory, l.instance.domainId) && b.principalId == principalId
                                 && b.role == WORKFLOW_ADMIN && b.enabled, PermissionDenied);
    Go(l)
  }

  function SnapshotDigest(l: Ledger): Digest {
    OfSnapshot(SnapshotOf(l.instance, l.instance.projection))
  }

  function ExpectDigest(expected: Option<Digest>, actual: Digest): Verdict<()> {
    if expected.None? then Go(())
    else
      var _ :- Require(IsHexDigest(expected.value), InvalidInput(BadInput));
      Require(expected.value == actual, BeforeSnapshotDigestMismatch(expected.value, actual))
  }

  datatype OverridePlan = OverridePlan(ledger: Ledger, visit: VisitFact, target: NodeDefinition, assigneeId: Option<Uuid>)

  /** The replacement for an administrator: every candidate must be enabled, and the first enabled owner counts. */
  function AdminCandidate(env: Env, rule: Option<AssigneeRef>, creatorId: Uuid, domainId: Uuid): Verdict<Uuid> {
    if rule.Some? && rule.value.refType.DOMAIN_OWNER? then
      match FirstHolder(EnabledHolders(env.directory, BindingsOf(env.directory, domainId)), DOMAIN_OWNER_ROLE)
      case None => Refuse(AssigneeResolutionFailed(NoOwner))
      case Some(b) => Go(b.principalId)
    else AssigneeCandidate(env.directory, rule, creatorId, domainId)
  }

  function EnabledHolders(d: Directory, bindings: seq<Binding>): seq<Binding> {
    if bindings == [] then []
    else (if IsEnabled(d, bindings[0].principalId) then [bindings[0]] else []) + EnabledHolders(d, bindings[1..])
  }

  function AdminTarget(env: Env, l: Ledger, operation: AdminOperation, target: NodeDefinition): (r: Verdict<Option<Uuid>>)
    ensures r.Go? ==> (target.nodeType.TERMINAL? <==> r.value.None?)
    ensures r.Go? ==> (operation.TERMINATE_INSTANCE? <==> target.nodeType.TERMINAL?)
  {
    if operation.TERMINATE_INSTANCE? then
      if target.nodeType.TERMINAL? then Go(None) else Refuse(InvalidTarget(TargetNotTerminal))
    else if target.nodeType.TERMINAL? then Refuse(InvalidTarget(TargetTerminal))
    else
      var candidate :- AdminCandidate(env, target.assigneeRef, l.instance.createdByPrincipalId, l.instance.domainId);
      if IsEnabled(env.directory, candidate) then Go(Some(candidate))
      else Refuse(AssigneeResolutionFailed(AssigneeUnavailable))
  }

  function CheckOverride(env: Env, st: DbState, cmd: OverrideCommand): Verdict<OverridePlan> {
    var l :- CheckAdmin(env, st.ledgers, cmd.workflowInstanceId, cmd.principalId);
    var _ :- Require(AdminPayloadBounded(cmd.reason, cmd.relatedReferences), InvalidInput(BadInput));
    var _ :- Require(l.instance.definitionVersionId in env.directory.versionStatus
                     && !env.directory.versionStatus[l.instance.definitionVersionId].Draft?, InvalidTarget(DraftVersion));
    var reconstructed := Reconstruct(env.catalog, st.receipts, l);
    var _ :- Require(reconstructed.Some?, InvalidImmutableFacts(FactsRejected));
    var _ :- Require(reconstructed == Some(l.instance.projection), InvalidImmutableFacts(ProjectionMismatch));
    var _ :- ExpectVersion(cmd.expectedVersion, l);
    var _ :- ExpectDigest(cmd.expectedBeforeSnapshotDigest, SnapshotDigest(l));
    var _ :- Require(HasPointers(l), InternalConsistency(MissingContext));
    var _ :- Require(CurrentVisit(l).Some?, InternalConsistency(MissingVisit));
    var target := NodeOf(env.catalog, l.instance.definitionVersionId, cmd.targetNodeId);
    var _ :- Require(target.Some?, InvalidTarget(MissingNode));
    var assigneeId :- AdminTarget(env, l, cmd.operation, target.value);
    var _ :- Require(MaxVisitNumber(l.visits, target.value.nodeId) < I32_MAX, InternalConsistency(Overflow));
    var _ :- Require(l.instance.projection.workflowStateVersion < I32_MAX, InternalConsistency(Overflow));
    Go(OverridePlan(l, CurrentVisit(l).value, target.value, assigneeId))
  }

  function OverrideEntry(env: Env, cmd: OverrideCommand, plan: OverridePlan, ids: FreshIds): Entry {
    var row, l := plan.ledger.instance, plan.ledger;
    var version := row.projection.workflowStateVersion;
    var visit := VisitRow(row, ids.visitId, plan.target, MaxVisitNumber(l.visits, plan.target.nodeId) + 1,
                          plan.assigneeId, None);
    var data := AdminData(cmd.operation, cmd.reason, cmd.relatedReferences, SnapshotDigest(l));
    var event := EventRow(env.catalog, row, ids, ADMIN_EMERGENCY_OVERRIDE_COMMITTED, data, cmd.principalId, version);
    Entry(None, None, Some(visit),
          event.(transitionEffect := Some(AdminEffect(cmd.operation)),
                 sourceNodeVisitId := row.projection.currentNodeVisitId, targetNodeVisitId := Some(ids.visitId),
                 contextRevisionId := row.projection.currentContextRevisionId,
                 fromNodeId := Some(plan.visit.nodeId), toNodeId := Some(plan.target.nodeId)),
          Projection(row.projection.currentContextRevisionId, Some(ids.visitId), Inc32(version)))
  }

  datatype RebuildPlan = RebuildPlan(ledger: Ledger, projection: Projection)

  function CheckRebuild(env: Env, st: DbState, cmd: RebuildCommand): Verdict<RebuildPlan> {
    var l :- CheckAdmin(env, st.ledgers, cmd.workflowInstanceId, cmd.principalId);
    var _ :- ExpectDigest(cmd.expectedBeforeSnapshotDigest, SnapshotDigest(l));
    match Reconstruct(env.catalog, st.receipts, l)
    case None => Refuse(InvalidImmutableFacts(FactsRejected))
    case Some(projection) => Go(RebuildPlan(l, projection))
  }
}
