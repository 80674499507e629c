/** The rows of the runtime tables, as the command transactions write them and the recovery code reads them. */
module RuntimeModel {
  import opened Prelude
  import opened DefinitionModel
  import opened CanonicalDigest

  datatype PrincipalType = HUMAN | AGENT | SERVICE

  /** An external reference or an idempotency key. The import writes `migration:adc:<record>:v1` as both. */
  datatype Key = MigrationKey(recordId: Uuid) | PlainKey(text: string)

  datatype AdminOperation = MOVE_TO_NODE | TERMINATE_INSTANCE

  datatype RelatedReference = RelatedReference(resourceType: string, resourceId: string)

  datatype CreatorResolution = LEGACY_CREATOR | DOMAIN_OWNER_FALLBACK

  datatype Projection = Projection(
    currentContextRevisionId: Option<Uuid>,
    currentNodeVisitId: Option<Uuid>,
    workflowStateVersion: int)

  datatype BeforeSnapshot = BeforeSnapshot(
    workflowInstanceId: Uuid,
    domainId: Uuid,
    definitionVersionId: Uuid,
    createdByPrincipalId: Uuid,
    projection: Projection)

  /** A SHA-256 digest, modelled by what it digests. `EmptyDigest` is the empty string. */
  datatype Digest =
    | EmptyDigest
    | OfJson(value: Json)
    | OfSnapshot(snapshot: BeforeSnapshot)
    | OfDefinition(document: CanonicalDocument)
    | OfLegacySnapshot(legacy: int)
    | OfEventData(data: EventData)
    | OfBody(body: ResponseBody)
    | OfLabel(responseLabel: Label)

  /** Event data: one constructor for each key set that the replay accepts; anything else is OtherData. */
  datatype EventData =
    | CreatedData(definitionVersionId: Uuid, definitionDigest: Digest, initialNodeId: Uuid,
                  assigneeResolutionType: AssigneeRefType)
    | ImportedData(legacyRecordId: Uuid, legacySnapshotDigest: Digest, importedNodeId: Uuid,
                   creatorResolution: CreatorResolution)
    | RevisedData(previousContextRevisionId: Uuid, newContextRevisionId: Uuid, previousPayloadDigest: Digest,
                  newPayloadDigest: Digest, currentNodeId: Uuid)
    | TransitionData(step: StepData, contextRevisionId: Uuid, transitionSubmissionDigest: Option<Digest>)
    | CombinedData(previousContextRevisionId: Uuid, newContextRevisionId: Uuid, previousPayloadDigest: Digest,
                   newPayloadDigest: Digest, step: StepData, submissionPayloadDigest: Digest)
    | AdminData(operation: AdminOperation, reason: string, relatedReferences: seq<RelatedReference>,
                beforeSnapshotDigest: Digest)
    | OtherData(json: Json)

  /** The part of the event data that names a transition and its two visits. */
  datatype StepData = StepData(
    transitionDefinitionId: Uuid,
    transitionKey: string,
    transitionEffect: TransitionEffect,
    sourceNodeId: Uuid,
    targetNodeId: Uuid,
    sourceNodeVisitId: Uuid,
    targetNodeVisitId: Uuid)

  datatype EventType =
    | INSTANCE_CREATED
    | WORKFLOW_INSTANCE_CREATED
    | WORKFLOW_INSTANCE_IMPORTED
    | CONTEXT_REVISED
    | WORKFLOW_CONTEXT_REVISED
    | WORKFLOW_TRANSITION_COMMITTED
    | WORKFLOW_CONTEXT_REVISED_AND_TRANSITION_COMMITTED
    | ADMIN_EMERGENCY_OVERRIDE_COMMITTED
    | UNSUPPORTED_EVENT

  datatype SchemaVersion = V1 | OtherSchema

  datatype InstanceRow = InstanceRow(
    workflowInstanceId: Uuid,
    domainId: Uuid,
    definitionVersionId: Uuid,
    createdByPrincipalId: Uuid,
    createdByPrincipalType: PrincipalType,
    externalReference: Option<Key>,
    projection: Projection)

  datatype ContextFact = ContextFact(
    contextRevisionId: Uuid,
    workflowInstanceId: Uuid,
    revisionNumber: int,
    previousRevisionId: Option<Uuid>,
    payload: Json,
    payloadDigest: Digest,
    createdByPrincipalId: Uuid)

  /** A node visit joined with its node definition. */
  datatype VisitFact = VisitFact(
    nodeVisitId: Uuid,
    workflowInstanceId: Uuid,
    nodeId: Uuid,
    visitNumber: int,
    assigneePrincipalId: Option<Uuid>,
    enteredByTransitionId: Option<Uuid>,
    definitionVersionId: Uuid,
    nodeType: NodeType,
    assigneeRefType: Option<AssigneeRefType>)

  datatype SubmissionFact = SubmissionFact(
    submissionId: Uuid,
    workflowInstanceId: Uuid,
    sourceNodeVisitId: Uuid,
    contextRevisionId: Uuid,
    authorPrincipalId: Uuid,
    transitionId: Uuid,
    payload: Json,
    payloadDigest: Digest)

  datatype TransitionFact = TransitionFact(
    transitionId: Uuid,
    definitionVersionId: Uuid,
    transitionKey: string,
    sourceNodeId: Uuid,
    targetNodeId: Uuid,
    transitionEffect: TransitionEffect)

  datatype EventFact = EventFact(
    eventId: Uuid,
    workflowInstanceId: Uuid,
    eventSequence: int,
    eventSchemaVersion: SchemaVersion,
    eventType: EventType,
    transitionEffect: Option<TransitionEffect>,
    sourceNodeVisitId: Option<Uuid>,
    targetNodeVisitId: Option<Uuid>,
    contextRevisionId: Option<Uuid>,
    submissionId: Option<Uuid>,
    eventData: Option<EventData>,
    eventDataDigest: Option<Digest>,
    commandId: Option<Uuid>,
    actorPrincipalId: Uuid,
    actorPrincipalType: PrincipalType,
    fromNodeId: Option<Uuid>,
    toNodeId: Option<Uuid>,
    oldWorkflowStateVersion: int,
    newWorkflowStateVersion: int)

  /** One instance row with its facts, each list in the order in which the recovery code loads it. */
  datatype Ledger = Ledger(
    instance: InstanceRow,
    contexts: seq<ContextFact>,
    visits: seq<VisitFact>,
    submissions: seq<SubmissionFact>,
    events: seq<EventFact>)

  // ----- Command receipts -----

  datatype CommandType =
    | CREATE_WORKFLOW_INSTANCE
    | REVISE_WORKFLOW_CONTEXT
    | EXECUTE_WORKFLOW_TRANSITION
    | REVISE_CONTEXT_AND_TRANSITION
    | ADMIN_EMERGENCY_OVERRIDE
    | REBUILD_PROJECTION
    | IMPORT_LEGACY_WORKFLOW_INSTANCE

  /** The digest of the command envelope: it covers the command type and everything but the key. */
  datatype RequestHash = RequestHash(commandType: CommandType, envelope: int)

  /** Why a command failed, where the source carries a text. */
  datatype Detail =
    | SourceMismatch | NotPrimary | PrimaryMisuse | TargetTerminal | TargetNotEarlier | TargetNotTerminal
    | UnknownTransition | NoPrimary | MissingVersion | MissingNode | MissingContext | MissingVisit
    | SchemaViolation | TooLarge | BadReferences | NoOwner | NoFixedPrincipal | AssigneeUnavailable | NoAssigneeRule
    | ConstraintViolation | MalformedReceipt | UnrecognisedFailure | LabelText | ReplayedText | Overflow | FactsRejected
    | ProjectionMismatch | BadInput | DraftVersion
    | Unspecified

  datatype CommandError =
    | PrincipalNotFound
    | PrincipalDisabled
    | PrincipalTypeNotAllowed
    | PermissionDenied
    | PrincipalNotCreator
    | PrincipalNotAssignee
    | DomainNotFound
    | DomainDisabled
    | DomainMembershipRequired
    | CrossDomainViolation
    | DefinitionVersionNotFound
    | VersionNotPublished
    | DefinitionVersionRevoked
    | DefinitionVersionDraft
    | InstanceNotFound
    | CurrentVisitNotFound
    | CurrentNodeNotDraft
    | SourceNodeTerminal
    | WorkflowStateVersionConflict(expected: int, actual: int)
    | BeforeSnapshotDigestMismatch(expectedDigest: Digest, actualDigest: Digest)
    | SnapshotDigestMismatch(expectedDigest: Digest, actualDigest: Digest)
    | TransitionNotApplicable(detail: Detail)
    | SubmissionRequired
    | SubmissionValidationFailed(detail: Detail)
    | ContextValidationFailed(detail: Detail)
    | SizeLimitExceeded(detail: Detail)
    | InvalidReturnReferences(detail: Detail)
    | AssigneeResolutionFailed(detail: Detail)
    | InvalidInput(detail: Detail)
    | InvalidTarget(detail: Detail)
    | InvalidImmutableFacts(detail: Detail)
    | MigrationBindingInvalid
    | ImportedNodeNotFound
    | CreatorResolutionFailed(detail: Detail)
    | ExternalReferenceConflict
    | IdempotencyConflict(originalCommandId: Uuid, originalRequestHash: RequestHash)
    | IdempotencyKeyConflict
    | CommandStillProcessing
    | InternalConsistency(detail: Detail)
    | StorageError(detail: Detail)

  /** The `error` field of a stored failure body, one constructor per label. */
  datatype Label =
    | PRINCIPAL_NOT_FOUND | PRINCIPAL_DISABLED | INSTANCE_NOT_FOUND | CURRENT_VISIT_NOT_FOUND
    | PRINCIPAL_NOT_ASSIGNEE | SOURCE_NODE_TERMINAL | DEFINITION_VERSION_REVOKED | DEFINITION_VERSION_DRAFT
    | WORKFLOW_STATE_VERSION_CONFLICT | TRANSITION_NOT_APPLICABLE | SUBMISSION_REQUIRED
    | SUBMISSION_VALIDATION_FAILED | SIZE_LIMIT_EXCEEDED | INVALID_RETURN_REFERENCES | ASSIGNEE_RESOLUTION_FAILED
    | DOMAIN_NOT_FOUND | DOMAIN_DISABLED | DOMAIN_MEMBERSHIP_REQUIRED | CROSS_DOMAIN_VIOLATION
    | DEFINITION_VERSION_NOT_FOUND | VERSION_NOT_PUBLISHED | CONTEXT_VALIDATION_FAILED | VALIDATION_ERROR
    | PRINCIPAL_NOT_CREATOR | CURRENT_NODE_NOT_DRAFT | INTERNAL_CONSISTENCY_ERROR | PRINCIPAL_TYPE_NOT_ALLOWED
    | PERMISSION_DENIED | INVALID_INPUT | BEFORE_SNAPSHOT_DIGEST_MISMATCH | INVALID_IMMUTABLE_FACTS | INVALID_TARGET
    | MIGRATION_BINDING_INVALID | IMPORTED_NODE_NOT_FOUND | SNAPSHOT_DIGEST_MISMATCH | CREATOR_RESOLUTION_FAILED
    | EXTERNAL_REFERENCE_CONFLICT | OTHER_LABEL

  /** What a completed receipt stores as the response. */
  datatype ResponseBody =
    | CreateBody(workflowInstanceId: Uuid, workflowStateVersion: int, currentContextRevisionId: Uuid,
                 currentNodeVisitId: Uuid, eventSequence: int)
    | ReviseBody(workflowInstanceId: Uuid, workflowStateVersion: int, currentContextRevisionId: Uuid,
                 currentNodeVisitId: Uuid, eventSequence: int)
    | TransitionBody(workflowInstanceId: Uuid, workflowStateVersion: int, currentContextRevisionId: Uuid,
                     sourceNodeVisitId: Uuid, currentNodeVisitId: Uuid, submissionId: Option<Uuid>, eventSequence: int)
    | OverrideBody(commandId: Uuid, workflowInstanceId: Uuid, sourceNodeVisitId: Uuid, currentNodeVisitId: Uuid,
                   workflowStateVersion: int, eventSequence: int, beforeSnapshotDigest: Digest)
    | RebuildBody(commandId: Uuid, workflowInstanceId: Uuid, beforeProjection: Projection,
                  afterProjection: Projection, beforeSnapshotDigest: Digest, changed: bool)
    | ImportBody(commandId: Uuid, workflowInstanceId: Uuid, currentContextRevisionId: Uuid, currentNodeVisitId: Uuid,
                 eventId: Uuid, workflowStateVersion: int, eventSequence: int, legacySnapshotDigest: Digest,
                 creatorResolution: CreatorResolution)
    | FailureBody(errorLabel: Label, expected: Option<int>, actual: Option<int>, failureDetail: Option<Detail>)
    | DigestFailureBody(errorLabel: Label, expectedDigest: Digest, actualDigest: Digest)

  datatype ReceiptStatus = PROCESSING | COMPLETED

  datatype Receipt = Receipt(
    commandId: Uuid,
    principalId: Uuid,
    key: Key,
    commandType: CommandType,
    requestHash: RequestHash,
    status: ReceiptStatus,
    responseStatus: Option<int>,
    responseBody: Option<ResponseBody>,
    responseDigest: Option<Digest>)

  // ----- Lookups -----

  function Lookup<T>(m: map<Uuid, T>, id: Option<Uuid>): Option<T> {
    if id.Some? && id.value in m then Some(m[id.value]) else None
  }

  /** The facts keyed by id; ids are primary keys, and a later duplicate would replace an earlier one. */
  function ContextsById(facts: seq<ContextFact>): (m: map<Uuid, ContextFact>)
    ensures forall id :: id in m ==> m[id] in facts && m[id].contextRevisionId == id
    ensures forall c :: c in facts ==> c.contextRevisionId in m
  {
    if facts == [] then map[]
    else ContextsById(facts[..|facts| - 1])[facts[|facts| - 1].contextRevisionId := facts[|facts| - 1]]
  }

  function VisitsById(facts: seq<VisitFact>): (m: map<Uuid, VisitFact>)
    ensures forall id :: id in m ==> m[id] in facts && m[id].nodeVisitId == id
    ensures forall v :: v in facts ==> v.nodeVisitId in m
  {
    if facts == [] then map[]
    else VisitsById(facts[..|facts| - 1])[facts[|facts| - 1].nodeVisitId := facts[|facts| - 1]]
  }

  function SubmissionsById(facts: seq<SubmissionFact>): (m: map<Uuid, SubmissionFact>)
    ensures forall id :: id in m ==> m[id] in facts && m[id].submissionId == id
    ensures forall s :: s in facts ==> s.submissionId in m
  {
    if facts == [] then map[]
    else SubmissionsById(facts[..|facts| - 1])[facts[|facts| - 1].submissionId := facts[|facts| - 1]]
  }
}
