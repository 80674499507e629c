/** At most once: a key that owns a receipt answers from it for ever, and writes nothing again. */
module Idempotency {
  import opened Prelude
  import opened RuntimeModel
  import opened DefinitionModel
  import opened KernelState
  import opened EventReplay
  import opened Snapshot
  import opened Commands
  import opened Pipeline
  import opened KernelRuns
  import opened Rules
  import opened Resolution

  // ----- Stored failures decode to the error they encode -----

  function DetailOf(body: ResponseBody): Detail
    requires body.FailureBody?
  {
    if body.failureDetail.Some? then body.failureDetail.value else Unspecified
  }

  function NumberOr0(n: Option<int>): int {
    if n.Some? then n.value else 0
  }

  /** What a replayed transition failure is turned into. */
  function TransitionReplayedError(status: int, body: ResponseBody): CommandError {
    if !body.FailureBody? then StorageError(UnrecognisedFailure)
    else
      match body.errorLabel
      case PRINCIPAL_NOT_FOUND => if status == 404 then PrincipalNotFound else StorageError(UnrecognisedFailure)
      case INSTANCE_NOT_FOUND => if status == 404 then InstanceNotFound else StorageError(UnrecognisedFailure)
      case PRINCIPAL_DISABLED => if status == 403 then PrincipalDisabled else StorageError(UnrecognisedFailure)
      case CURRENT_VISIT_NOT_FOUND => if status == 404 then CurrentVisitNotFound else StorageError(UnrecognisedFailure)
      case PRINCIPAL_NOT_ASSIGNEE => if status == 403 then PrincipalNotAssignee else StorageError(UnrecognisedFailure)
      case SOURCE_NODE_TERMINAL => if status == 409 then SourceNodeTerminal else StorageError(UnrecognisedFailure)
      case DEFINITION_VERSION_REVOKED =>
        if status == 409 then DefinitionVersionRevoked else StorageError(UnrecognisedFailure)
      case DEFINITION_VERSION_DRAFT => if status == 500 then DefinitionVersionDraft else StorageError(UnrecognisedFailure)
      case WORKFLOW_STATE_VERSION_CONFLICT =>
        if status == 409 then WorkflowStateVersionConflict(NumberOr0(body.expected), NumberOr0(body.actual))
        else StorageError(UnrecognisedFailure)
      case TRANSITION_NOT_APPLICABLE =>
        if status == 409 then TransitionNotApplicable(DetailOf(body)) else StorageError(UnrecognisedFailure)
      case SUBMISSION_REQUIRED => if status == 422 then SubmissionRequired else StorageError(UnrecognisedFailure)
      case SUBMISSION_VALIDATION_FAILED =>
        if status == 422 then SubmissionValidationFailed(DetailOf(body)) else StorageError(UnrecognisedFailure)
      case SIZE_LIMIT_EXCEEDED =>
        if status == 413 then SizeLimitExceeded(DetailOf(body)) else StorageError(UnrecognisedFailure)
      case INVALID_RETURN_REFERENCES =>
        if status == 422 then InvalidReturnReferences(DetailOf(body)) else StorageError(UnrecognisedFailure)
      case ASSIGNEE_RESOLUTION_FAILED =>
        if status == 422 then AssigneeResolutionFailed(DetailOf(body)) else StorageError(UnrecognisedFailure)
      case _ => StorageError(UnrecognisedFailure)
  }

  /** What a replayed creation failure is turned into. */
  function CreateReplayedError(status: int, body: ResponseBody): CommandError {
    if !body.FailureBody? then StorageError(UnrecognisedFailure)
    else
      match body.errorLabel
      case DOMAIN_NOT_FOUND => if status == 404 then DomainNotFound else StorageError(UnrecognisedFailure)
      case DOMAIN_DISABLED => if status == 403 then DomainDisabled else StorageError(UnrecognisedFailure)
      case PRINCIPAL_NOT_FOUND => if status == 404 then PrincipalNotFound else StorageError(UnrecognisedFailure)
      case PRINCIPAL_DISABLED => if status == 403 then PrincipalDisabled else StorageError(UnrecognisedFailure)
      case DOMAIN_MEMBERSHIP_REQUIRED =>
        if status == 403 then DomainMembershipRequired else StorageError(UnrecognisedFailure)
      case CROSS_DOMAIN_VIOLATION => if status == 403 then CrossDomainViolation else StorageError(UnrecognisedFailure)
      case DEFINITION_VERSION_NOT_FOUND =>
        if status == 404 then DefinitionVersionNotFound else StorageError(UnrecognisedFailure)
      case VERSION_NOT_PUBLISHED => if status == 409 then VersionNotPublished else StorageError(UnrecognisedFailure)
      case CONTEXT_VALIDATION_FAILED =>
        if status == 422 then ContextValidationFailed(DetailOf(body)) else StorageError(UnrecognisedFailure)
      case SIZE_LIMIT_EXCEEDED =>
        if status == 413 then SizeLimitExceeded(DetailOf(body)) else StorageError(UnrecognisedFailure)
      case ASSIGNEE_RESOLUTION_FAILED =>
        if status == 422 then AssigneeResolutionFailed(DetailOf(body)) else StorageError(UnrecognisedFailure)
      case _ => StorageError(UnrecognisedFailure)
  }

  /** What a replayed revision failure is turned into: the stored label stands in for a lost text. */
  function ReviseReplayedError(status: int, body: ResponseBody): CommandError {
    if !body.FailureBody? then StorageError(UnrecognisedFailure)
    else
      match body.errorLabel
      case INSTANCE_NOT_FOUND => if status == 404 then InstanceNotFound else StorageError(UnrecognisedFailure)
      case PRINCIPAL_DISABLED => if status == 403 then PrincipalDisabled else StorageError(UnrecognisedFailure)
      case CURRENT_VISIT_NOT_FOUND => if status == 404 then CurrentVisitNotFound else StorageError(UnrecognisedFailure)
      case CURRENT_NODE_NOT_DRAFT => if status == 409 then CurrentNodeNotDraft else StorageError(UnrecognisedFailure)
      case DEFINITION_VERSION_REVOKED =>
        if status == 409 then DefinitionVersionRevoked else StorageError(UnrecognisedFailure)
      case DEFINITION_VERSION_DRAFT => if status == 500 then DefinitionVersionDraft else StorageError(UnrecognisedFailure)
      case WORKFLOW_STATE_VERSION_CONFLICT =>
        if status == 409 then WorkflowStateVersionConflict(NumberOr0(body.expected), NumberOr0(body.actual))
        else StorageError(UnrecognisedFailure)
      case CONTEXT_VALIDATION_FAILED =>
        if status == 422 then ContextValidationFailed(LabelText) else StorageError(UnrecognisedFailure)
      case SIZE_LIMIT_EXCEEDED => if status == 413 then SizeLimitExceeded(LabelText) else StorageError(UnrecognisedFailure)
      case _ => StorageError(UnrecognisedFailure)
  }

  /** What a replayed failure of the combined command is turned into. */
  function CombinedReplayedError(status: int, body: ResponseBody): CommandError {
    if !body.FailureBody? then StorageError(UnrecognisedFailure)
    else
      match body.errorLabel
      case INSTANCE_NOT_FOUND => if status == 404 then InstanceNotFound else StorageError(UnrecognisedFailure)
      case CURRENT_VISIT_NOT_FOUND => if status == 404 then CurrentVisitNotFound else StorageError(UnrecognisedFailure)
      case PRINCIPAL_DISABLED => if status == 403 then PrincipalDisabled else StorageError(UnrecognisedFailure)
      case PRINCIPAL_NOT_CREATOR => if status == 403 then PrincipalNotCreator else StorageError(UnrecognisedFailure)
      case PRINCIPAL_NOT_ASSIGNEE => if status == 403 then PrincipalNotAssignee else StorageError(UnrecognisedFailure)
      case CURRENT_NODE_NOT_DRAFT => if status == 409 then CurrentNodeNotDraft else StorageError(UnrecognisedFailure)
      case DEFINITION_VERSION_REVOKED =>
        if status == 409 then DefinitionVersionRevoked else StorageError(UnrecognisedFailure)
      case DEFINITION_VERSION_DRAFT => if status == 500 then DefinitionVersionDraft else StorageError(UnrecognisedFailure)
      case WORKFLOW_STATE_VERSION_CONFLICT =>
        if status == 409 then WorkflowStateVersionConflict(NumberOr0(body.expected), NumberOr0(body.actual))
        else StorageError(UnrecognisedFailure)
      case TRANSITION_NOT_APPLICABLE =>
        if status == 409 then TransitionNotApplicable(DetailOf(body)) else StorageError(UnrecognisedFailure)
      case CONTEXT_VALIDATION_FAILED =>
        if status == 422 then ContextValidationFailed(DetailOf(body)) else StorageError(UnrecognisedFailure)
      case SUBMISSION_VALIDATION_FAILED =>
        if status == 422 then SubmissionValidationFailed(DetailOf(body)) else StorageError(UnrecognisedFailure)
      case SIZE_LIMIT_EXCEEDED =>
        if status == 413 then SizeLimitExceeded(DetailOf(body)) else StorageError(UnrecognisedFailure)
      case ASSIGNEE_RESOLUTION_FAILED =>
        if status == 422 then AssigneeResolutionFailed(DetailOf(body)) else StorageError(UnrecognisedFailure)
      case INTERNAL_CONSISTENCY_ERROR =>
        if status == 500 then InternalConsistency(DetailOf(body)) else StorageError(UnrecognisedFailure)
      case _ => StorageError(UnrecognisedFailure)
  }

  /** The detail of a stored administrative failure, or the text that stands for a missing one. */
  function RecoveryDetail(body: ResponseBody): Detail {
    if body.FailureBody? && body.failureDetail.Some? then body.failureDetail.value else ReplayedText
  }

  /** What a replayed override or rebuild failure is turned into; the status is not looked at. */
  function RecoveryReplayedError(body: ResponseBody): CommandError {
    if body.DigestFailureBody? then
      if body.errorLabel.BEFORE_SNAPSHOT_DIGEST_MISMATCH?
      then BeforeSnapshotDigestMismatch(body.expectedDigest, body.actualDigest)
      else InternalConsistency(ReplayedText)
    else if !body.FailureBody? then InternalConsistency(ReplayedText)
    else
      match body.errorLabel
      case PRINCIPAL_DISABLED => PrincipalDisabled
      case PRINCIPAL_TYPE_NOT_ALLOWED => PrincipalTypeNotAllowed
      case PERMISSION_DENIED => PermissionDenied
      case INSTANCE_NOT_FOUND => InstanceNotFound
      case INVALID_INPUT => InvalidInput(RecoveryDetail(body))
      case BEFORE_SNAPSHOT_DIGEST_MISMATCH => BeforeSnapshotDigestMismatch(EmptyDigest, EmptyDigest)
      case WORKFLOW_STATE_VERSION_CONFLICT => WorkflowStateVersionConflict(NumberOr0(body.expected), NumberOr0(body.actual))
      case INVALID_IMMUTABLE_FACTS => InvalidImmutableFacts(RecoveryDetail(body))
      case INVALID_TARGET => InvalidTarget(RecoveryDetail(body))
      case ASSIGNEE_RESOLUTION_FAILED => AssigneeResolutionFailed(RecoveryDetail(body))
      case _ => InternalConsistency(RecoveryDetail(body))
  }

  /** What a replayed import failure is turned into: every text is replaced by a fixed one. */
  function ImportReplayedError(status: int, body: ResponseBody): CommandError {
    if body.DigestFailureBody? then
      if body.errorLabel.SNAPSHOT_DIGEST_MISMATCH? && status == 409
         && IsHexDigest(body.expectedDigest) && IsHexDigest(body.actualDigest)
      then SnapshotDigestMismatch(body.expectedDigest, body.actualDigest)
      else InternalConsistency(UnrecognisedFailure)
    else if !body.FailureBody? then InternalConsistency(UnrecognisedFailure)
    else
      match body.errorLabel
      case PRINCIPAL_NOT_FOUND => if status == 404 then PrincipalNotFound else InternalConsistency(UnrecognisedFailure)
      case PRINCIPAL_DISABLED => if status == 403 then PrincipalDisabled else InternalConsistency(UnrecognisedFailure)
      case PRINCIPAL_TYPE_NOT_ALLOWED =>
        if status == 403 then PrincipalTypeNotAllowed else InternalConsistency(UnrecognisedFailure)
      case MIGRATION_BINDING_INVALID =>
        if status == 403 then MigrationBindingInvalid else InternalConsistency(UnrecognisedFailure)
      case PERMISSION_DENIED => if status == 403 then PermissionDenied else InternalConsistency(UnrecognisedFailure)
      case DOMAIN_NOT_FOUND => if status == 404 then DomainNotFound else InternalConsistency(UnrecognisedFailure)
      case DOMAIN_DISABLED => if status == 403 then DomainDisabled else InternalConsistency(UnrecognisedFailure)
      case DEFINITION_VERSION_NOT_FOUND =>
        if status == 404 then DefinitionVersionNotFound else InternalConsistency(UnrecognisedFailure)
      case VERSION_NOT_PUBLISHED => if status == 409 then VersionNotPublished else InternalConsistency(UnrecognisedFailure)
      case IMPORTED_NODE_NOT_FOUND =>
        if status == 404 then ImportedNodeNotFound else InternalConsistency(UnrecognisedFailure)
      case INVALID_INPUT => if status == 422 then InvalidInput(ReplayedText) else InternalConsistency(UnrecognisedFailure)
      case CREATOR_RESOLUTION_FAILED =>
        if status == 422 then CreatorResolutionFailed(ReplayedText) else InternalConsistency(UnrecognisedFailure)
      case ASSIGNEE_RESOLUTION_FAILED =>
        if status == 422 then AssigneeResolutionFailed(ReplayedText) else InternalConsistency(UnrecognisedFailure)
      case CONTEXT_VALIDATION_FAILED =>
        if status == 422 then ContextValidationFailed(ReplayedText) else InternalConsistency(UnrecognisedFailure)
      case SIZE_LIMIT_EXCEEDED =>
        if status == 413 then SizeLimitExceeded(ReplayedText) else InternalConsistency(UnrecognisedFailure)
      case EXTERNAL_REFERENCE_CONFLICT =>
        if status == 409 then ExternalReferenceConflict else InternalConsistency(UnrecognisedFailure)
      case _ => InternalConsistency(UnrecognisedFailure)
  }

  function ReplayedError(call: Call, status: int, body: ResponseBody): CommandError {
    match call
    case Create(_) => CreateReplayedError(status, body)
    case Import(_) => ImportReplayedError(status, body)
    case Revise(_) => ReviseReplayedError(status, body)
    case Transition(_) => TransitionReplayedError(status, body)
    case Combined(_) => CombinedReplayedError(status, body)
    case Override(_) => RecoveryReplayedError(body)
    case Rebuild(_) => RecoveryReplayedError(body)
  }

  /** What the caller sees. */
  function PublicResult(call: Call, outcome: Outcome): Result<ResponseBody, CommandError> {
    match outcome
    case Executed(body) => Ok(body)
    case Replayed(body) => Ok(body)
    case ReplayedFailure(status, body) => Err(ReplayedError(call, status, body))
    case Failed(e) => Err(e)
  }

  // ----- Which stored failures decode to the error that was returned -----

  /** The stored form of the error decodes to the error. */
  predicate RoundTrips(call: Call, e: CommandError) {
    ReplayedError(call, StatusCode(e), FailureBodyOf(call, e)) == e
  }

  /**
   A failed revision is read back when its caller is the creator and the failing guard is the one on the
   version or on the definition's status. The failures of the other guards are not.
   */
  predicate RevisionFailureReadable(env: Env, ledgers: map<Uuid, Ledger>, cmd: ReviseCommand) {
    && cmd.workflowInstanceId in ledgers
    && var l := ledgers[cmd.workflowInstanceId];
    && l.instance.createdByPrincipalId == cmd.principalId
    && (|| cmd.expectedVersion != l.instance.projection.workflowStateVersion
        || (l.instance.definitionVersionId in env.directory.versionStatus
            && var status := env.directory.versionStatus[l.instance.definitionVersionId];
            status.Revoked? || status.Draft?))
  }

  /**
   A failed import is read back when the failing guard has no text: the snapshot's digest, the domain,
   the principal, its binding, the definition, the node, or the external reference.
   */
  ghost predicate ImportFailureReadable(env: Env, cmd: ImportCommand) {
    && cmd.shape.WellShaped? && !cmd.expectedSnapshotDigest.EmptyDigest?
    && (|| cmd.expectedSnapshotDigest != OfLegacySnapshot(cmd.legacySnapshot)
        || !IsOpenDomain(env.directory, cmd.domainId)
        || (&& cmd.domainId in env.catalog.domainKeys && env.catalog.domainKeys[cmd.domainId] == cmd.domainKey
            && forall n :: ReachesNode(env, cmd, n) ==> n.nodeKey == cmd.currentStep && FillsNode(env, cmd, n)))
  }

  /** Everything between the domain's key and the node's key is in order, and the node is this one. */
  predicate ReachesNode(env: Env, cmd: ImportCommand, n: NodeDefinition) {
    && IsMigrationService(env.catalog, env.directory, cmd.domainId, cmd.principalId)
    && cmd.definitionVersionId in env.catalog.versions && env.catalog.versions[cmd.definitionVersionId].domainId == cmd.domainId
    && IsPublishedVersion(env.directory, cmd.definitionVersionId)
    && NodeOf(env.catalog, cmd.definitionVersionId, cmd.importedNodeId) == Some(n)
  }

  /** The payload conforms, and creator and assignee are found: the guards of an import that fail with a text. */
  ghost predicate FillsNode(env: Env, cmd: ImportCommand, n: NodeDefinition) {
    && Satisfies(env.catalog, GraphOf(env.catalog, cmd.definitionVersionId).contextSchema, cmd.contextPayload)
    && exists creatorId: Uuid ::
         IsImportCreator(env.catalog, env.directory, cmd, creatorId)
         && IsImportAssignee(env.catalog, env.directory, cmd, n, creatorId)
  }

  /** Whether a stored failure of the call reads back as the error that the call returned. */
  ghost predicate FailureReadable(env: Env, st: DbState, call: Call) {
    match call
    case Revise(c) => RevisionFailureReadable(env, st.ledgers, c)
    case Import(c) => ImportFailureReadable(env, c)
    case _ => true
  }

  /** The kinds of failure that each command stores, and which of them read back. */
  predicate IsStored(call: Call, e: CommandError) {
    match call
    case Create(_) =>
      || e.PrincipalNotFound? || e.PrincipalDisabled? || e.DomainNotFound? || e.DomainDisabled?
      || e.DomainMembershipRequired? || e.DefinitionVersionNotFound? || e.VersionNotPublished?
      || e.CrossDomainViolation? || e.ContextValidationFailed? || e.SizeLimitExceeded? || e.AssigneeResolutionFailed?
    case Import(_) =>
      IsTextless(e) || (HasText(e) && e.detail != ReplayedText)
    case Revise(_) =>
      || e.PrincipalNotFound? || e.DefinitionVersionRevoked? || e.DefinitionVersionDraft?
      || e.WorkflowStateVersionConflict? || e.ContextValidationFailed? || e.InternalConsistency?
    case Transition(_) =>
      || e.PrincipalNotFound? || e.PrincipalDisabled? || e.InstanceNotFound? || e.CurrentVisitNotFound?
      || e.PrincipalNotAssignee? || e.SourceNodeTerminal? || e.DefinitionVersionRevoked? || e.DefinitionVersionDraft?
      || e.WorkflowStateVersionConflict? || e.TransitionNotApplicable? || e.SubmissionRequired?
      || e.SubmissionValidationFailed? || e.SizeLimitExceeded? || e.InvalidReturnReferences?
      || e.AssigneeResolutionFailed?
    case Combined(_) =>
      || e.PrincipalDisabled? || e.InstanceNotFound? || e.CurrentVisitNotFound? || e.PrincipalNotCreator?
      || e.PrincipalNotAssignee? || e.CurrentNodeNotDraft? || e.DefinitionVersionRevoked? || e.DefinitionVersionDraft?
      || e.WorkflowStateVersionConflict? || e.TransitionNotApplicable? || e.ContextValidationFailed?
      || e.SubmissionValidationFailed? || e.SizeLimitExceeded? || e.AssigneeResolutionFailed? || e.InternalConsistency?
    case _ =>
      || e.PrincipalDisabled? || e.PrincipalTypeNotAllowed? || e.PermissionDenied? || e.InvalidInput?
      || e.BeforeSnapshotDigestMismatch? || e.WorkflowStateVersionConflict? || e.InvalidImmutableFacts?
      || e.InvalidTarget? || e.AssigneeResolutionFailed? || e.InternalConsistency?
  }

  predicate IsTextless(e: CommandError) {
    || e.PrincipalDisabled? || e.PrincipalTypeNotAllowed? || e.MigrationBindingInvalid? || e.PermissionDenied?
    || e.DomainNotFound? || e.DomainDisabled? || e.DefinitionVersionNotFound? || e.VersionNotPublished?
    || e.ImportedNodeNotFound? || e.ExternalReferenceConflict?
    || (e.SnapshotDigestMismatch? && IsHexDigest(e.expectedDigest) && IsHexDigest(e.actualDigest))
  }

  predicate HasText(e: CommandError) {
    || e.InvalidInput? || e.CreatorResolutionFailed? || e.AssigneeResolutionFailed? || e.ContextValidationFailed?
    || e.SizeLimitExceeded?
  }

  predicate ReadsBack(call: Call, e: CommandError) {
    match call
    case Import(_) => IsTextless(e)
    case Revise(_) => e.DefinitionVersionRevoked? || e.DefinitionVersionDraft? || e.WorkflowStateVersionConflict?
    case _ => true
  }

  lemma FailuresAreNot200(e: CommandError)
    ensures StatusCode(e) != 200
  {
  }

  lemma CreateKindsRoundTripIff(call: Call, e: CommandError)
    requires call.Create? && IsStored(call, e)
    ensures RoundTrips(call, e) <==> ReadsBack(call, e)
  {
    hide ImportReplayedError, ImportFailureBody, ReviseReplayedError, ReviseFailureBody, TransitionReplayedError,
         TransitionFailureBody, CombinedReplayedError, CombinedFailureBody, RecoveryReplayedError, RecoveryFailureBody;
  }

  lemma RefusedMigratorReadsBack(call: Call, e: CommandError)
    requires call.Import?
    requires e.PrincipalDisabled? || e.PrincipalTypeNotAllowed? || e.MigrationBindingInvalid? || e.PermissionDenied?
    ensures RoundTrips(call, e)
  {
    hide CreateReplayedError, CreateFailureBody, ReviseReplayedError, ReviseFailureBody, TransitionReplayedError,
         TransitionFailureBody, CombinedReplayedError, CombinedFailureBody, RecoveryReplayedError, RecoveryFailureBody;
  }

  lemma RefusedTargetReadsBack(call: Call, e: CommandError)
    requires call.Import?
    requires e.DomainNotFound? || e.DomainDisabled? || e.DefinitionVersionNotFound? || e.VersionNotPublished?
    ensures RoundTrips(call, e)
  {
    hide CreateReplayedError, CreateFailureBody, ReviseReplayedError, ReviseFailureBody, TransitionReplayedError,
         TransitionFailureBody, CombinedReplayedError, CombinedFailureBody, RecoveryReplayedError, RecoveryFailureBody;
  }

  lemma TextlessImportFailure(call: Call, e: CommandError)
    requires call.Import? && IsTextless(e)
    ensures RoundTrips(call, e)
  {
    hide CreateReplayedError, CreateFailureBody, ReviseReplayedError, ReviseFailureBody, TransitionReplayedError,
         TransitionFailureBody, CombinedReplayedError, CombinedFailureBody, RecoveryReplayedError, RecoveryFailureBody;
    if e.PrincipalDisabled? || e.PrincipalTypeNotAllowed? || e.MigrationBindingInvalid? || e.PermissionDenied? {
      hide RoundTrips;
      RefusedMigratorReadsBack(call, e);
    } else if e.DomainNotFound? || e.DomainDisabled? || e.DefinitionVersionNotFound? || e.VersionNotPublished? {
      hide RoundTrips;
      RefusedTargetReadsBack(call, e);
    }
  }

  lemma TextImportFailure(call: Call, e: CommandError)
    requires call.Import? && HasText(e) && e.detail != ReplayedText
    ensures !RoundTrips(call, e)
  {
    hide CreateReplayedError, CreateFailureBody, ReviseReplayedError, ReviseFailureBody, TransitionReplayedError,
         TransitionFailureBody, CombinedReplayedError, CombinedFailureBody, RecoveryReplayedError, RecoveryFailureBody;
  }

  lemma ImportKindsRoundTripIff(call: Call, e: CommandError)
    requires call.Import? && IsStored(call, e)
    ensures RoundTrips(call, e) <==> ReadsBack(call, e)
  {
    hide RoundTrips, IsTextless, HasText;
    if IsTextless(e) {
      TextlessImportFailure(call, e);
    } else {
      TextImportFailure(call, e);
    }
  }

  lemma ReviseKindsRoundTripIff(call: Call, e: CommandError)
    requires call.Revise? && IsStored(call, e)
    requires e.ContextValidationFailed? ==> e.detail != LabelText
    ensures RoundTrips(call, e) <==> ReadsBack(call, e)
  {
    hide CreateReplayedError, CreateFailureBody, ImportReplayedError, ImportFailureBody, TransitionReplayedError,
         TransitionFailureBody, CombinedReplayedError, CombinedFailureBody, RecoveryReplayedError, RecoveryFailureBody;
  }

  lemma TransitionKindsRoundTripIff(call: Call, e: CommandError)
    requires call.Transition? && IsStored(call, e)
    ensures RoundTrips(call, e) <==> ReadsBack(call, e)
  {
    hide CreateReplayedError, CreateFailureBody, ImportReplayedError, ImportFailureBody, ReviseReplayedError,
         ReviseFailureBody, CombinedReplayedError, CombinedFailureBody, RecoveryReplayedError, RecoveryFailureBody;
  }

  lemma RefusedCallerReadsBack(call: Call, e: CommandError)
    requires call.Combined?
    requires || e.PrincipalDisabled? || e.InstanceNotFound? || e.CurrentVisitNotFound? || e.PrincipalNotCreator?
             || e.PrincipalNotAssignee? || e.CurrentNodeNotDraft? || e.DefinitionVersionRevoked? || e.DefinitionVersionDraft?
    ensures RoundTrips(call, e)
  {
    hide CreateReplayedError, CreateFailureBody, ImportReplayedError, ImportFailureBody, ReviseReplayedError,
         ReviseFailureBody, TransitionReplayedError, TransitionFailureBody, RecoveryReplayedError, RecoveryFailureBody;
  }

  lemma CombinedKindsRoundTripIff(call: Call, e: CommandError)
    requires call.Combined? && IsStored(call, e)
    ensures RoundTrips(call, e) <==> ReadsBack(call, e)
  {
    hide CreateReplayedError, CreateFailureBody, ImportReplayedError, ImportFailureBody, ReviseReplayedError,
         ReviseFailureBody, TransitionReplayedError, TransitionFailureBody, RecoveryReplayedError, RecoveryFailureBody;
    if || e.PrincipalDisabled? || e.InstanceNotFound? || e.CurrentVisitNotFound? || e.PrincipalNotCreator?
       || e.PrincipalNotAssignee? || e.CurrentNodeNotDraft? || e.DefinitionVersionRevoked? || e.DefinitionVersionDraft? {
      hide RoundTrips;
      RefusedCallerReadsBack(call, e);
    }
  }

  lemma RefusedAdminReadsBack(call: Call, e: CommandError)
    requires call.Override? || call.Rebuild?
    requires || e.PrincipalDisabled? || e.PrincipalTypeNotAllowed? || e.PermissionDenied?
             || e.BeforeSnapshotDigestMismatch? || e.WorkflowStateVersionConflict?
    ensures RoundTrips(call, e)
  {
    hide CreateReplayedError, CreateFailureBody, ImportReplayedError, ImportFailureBody, ReviseReplayedError,
         ReviseFailureBody, TransitionReplayedError, TransitionFailureBody, CombinedReplayedError, CombinedFailureBody;
  }

  lemma RecoveryKindsRoundTrip(call: Call, e: CommandError)
    requires (call.Override? || call.Rebuild?) && IsStored(call, e)
    ensures RoundTrips(call, e)
  {
    hide CreateReplayedError, CreateFailureBody, ImportReplayedError, ImportFailureBody, ReviseReplayedError,
         ReviseFailureBody, TransitionReplayedError, TransitionFailureBody, CombinedReplayedError, CombinedFailureBody;
    if || e.PrincipalDisabled? || e.PrincipalTypeNotAllowed? || e.PermissionDenied?
       || e.BeforeSnapshotDigestMismatch? || e.WorkflowStateVersionConflict? {
      hide RoundTrips;
      RefusedAdminReadsBack(call, e);
    }
  }

  lemma StoredCreateKinds(env: Env, cmd: CreateCommand)
    requires CheckCreate(env, cmd).Refuse?
    ensures IsStored(Create(cmd), CheckCreate(env, cmd).error)
  {
    hide ConformsTo, FirstHolder, BindingsOf, IsEnabled, GraphOf, IsMember;
  }

  lemma StoredTransitionKinds(env: Env, ledgers: map<Uuid, Ledger>, cmd: TransitionCommand)
    requires CheckTransition(env, ledgers, cmd).Refuse?
    ensures IsStored(Transition(cmd), CheckTransition(env, ledgers, cmd).error)
  {
    hide HasPointers, CurrentVisit, NodeOf, TransitionOf, ConformsTo, ReturnReferencesHold, FirstHolder, BindingsOf, IsEnabled;
  }

  lemma StoredReviseKinds(env: Env, ledgers: map<Uuid, Ledger>, cmd: ReviseCommand)
    requires CheckRevise(env, ledgers, cmd).Refuse? && IsEnabled(env.directory, cmd.principalId)
    ensures var e := CheckRevise(env, ledgers, cmd).error;
      && IsStored(Revise(cmd), e) && (e.ContextValidationFailed? ==> e.detail == SchemaViolation)
      && (ReadsBack(Revise(cmd), e) <==> RevisionFailureReadable(env, ledgers, cmd))
  {
    hide HasPointers, CurrentVisit, CurrentContext, GraphOf, ConformsTo;
  }

  lemma StoredCombinedKinds(env: Env, ledgers: map<Uuid, Ledger>, cmd: CombinedCommand)
    requires CheckCombined(env, ledgers, cmd).Refuse? && cmd.principalId in env.directory.principals
    ensures IsStored(Combined(cmd), CheckCombined(env, ledgers, cmd).error)
  {
    hide HasPointers, CurrentVisit, CurrentContext, NodeOf, TransitionOf, ConformsTo, FirstHolder, BindingsOf, IsEnabled, GraphOf;
  }

  lemma StoredAdminKinds(env: Env, ledgers: map<Uuid, Ledger>, instanceId: Uuid, principalId: Uuid, call: Call)
    requires CheckAdmin(env, ledgers, instanceId, principalId).Refuse? && principalId in env.directory.principals
    requires call.Override? || call.Rebuild?
    ensures IsStored(call, CheckAdmin(env, ledgers, instanceId, principalId).error)
  {
    hide BindingsOf, PrincipalTypeOf;
  }

  lemma StoredOverrideKinds(env: Env, st: DbState, cmd: OverrideCommand)
    requires CheckOverride(env, st, cmd).Refuse? && cmd.principalId in env.directory.principals
    ensures IsStored(Override(cmd), CheckOverride(env, st, cmd).error)
  {
    hide CheckAdmin, HasPointers, CurrentVisit, NodeOf, FirstHolder, BindingsOf, IsEnabled, Reconstruct, AdminPayloadBounded,
         MaxVisitNumber, EnabledHolders, SnapshotDigest;
    if CheckAdmin(env, st.ledgers, cmd.workflowInstanceId, cmd.principalId).Refuse? {
      StoredAdminKinds(env, st.ledgers, cmd.workflowInstanceId, cmd.principalId, Override(cmd));
    }
  }

  lemma StoredRebuildKinds(env: Env, st: DbState, cmd: RebuildCommand)
    requires CheckRebuild(env, st, cmd).Refuse? && cmd.principalId in env.directory.principals
    ensures IsStored(Rebuild(cmd), CheckRebuild(env, st, cmd).error)
  {
    hide CheckAdmin, Reconstruct, SnapshotDigest;
    if CheckAdmin(env, st.ledgers, cmd.workflowInstanceId, cmd.principalId).Refuse? {
      StoredAdminKinds(env, st.ledgers, cmd.workflowInstanceId, cmd.principalId, Rebuild(cmd));
    }
  }

  lemma ImportedNodeKinds(env: Env, cmd: ImportCommand)
    requires cmd.principalId in env.directory.principals
    ensures !ReadImportedNode(env, cmd).Abort?
    ensures ReadImportedNode(env, cmd).Refuse? ==> IsTextless(ReadImportedNode(env, cmd).error)
  {
    hide NodeOf, PrincipalTypeOf, IsSoleMigrator;
  }

  lemma ImportTextKinds(env: Env, cmd: ImportCommand, node: NodeDefinition)
    ensures !ImportCreator(env, cmd).Abort?
    ensures ImportCreator(env, cmd).Refuse? ==>
              HasText(ImportCreator(env, cmd).error) && ImportCreator(env, cmd).error.detail != ReplayedText
    ensures forall creatorId :: !ImportAssignee(env, cmd, node, creatorId).Abort?
    ensures forall creatorId :: ImportAssignee(env, cmd, node, creatorId).Refuse? ==>
              && HasText(ImportAssignee(env, cmd, node, creatorId).error)
              && ImportAssignee(env, cmd, node, creatorId).error.detail != ReplayedText
  {
    hide FirstHolder, BindingsOf, IsEnabled, PrincipalTypeOf, Holders;
  }

  lemma StoredImportKinds(env: Env, ledgers: map<Uuid, Ledger>, cmd: ImportCommand)
    requires CheckImport(env, ledgers, cmd).Refuse? && cmd.principalId in env.directory.principals
    ensures IsStored(Import(cmd), CheckImport(env, ledgers, cmd).error)
    ensures ReadsBack(Import(cmd), CheckImport(env, ledgers, cmd).error) <==> ImportFailureReadable(env, cmd)
  {
    hide ReadImportedNode, ImportCreator, ImportAssignee, GraphOf, ConformsTo, ReferenceUsed, ReachesNode, FillsNode;
    ImportedNodeKinds(env, cmd);
    ReadNodeIsReached(env, cmd);
    if ReadImportedNode(env, cmd).Go? {
      ImportTextKinds(env, cmd, ReadImportedNode(env, cmd).value);
      NodeIsFilled(env, cmd, ReadImportedNode(env, cmd).value);
    }
  }

  lemma ReadNodeIsReached(env: Env, cmd: ImportCommand)
    ensures forall n :: ReachesNode(env, cmd, n) <==> ReadImportedNode(env, cmd) == Go(n)
  {
    hide NodeOf, Holders, IsSole;
    OneHolder(DomainBindings(env.directory, cmd.domainId), cmd.principalId, WORKFLOW_MIGRATION);
  }

  lemma NodeIsFilled(env: Env, cmd: ImportCommand, n: NodeDefinition)
    ensures FillsNode(env, cmd, n) <==>
      && ConformsTo(env.catalog, GraphOf(env.catalog, cmd.definitionVersionId).contextSchema, cmd.contextPayload)
      && ImportCreator(env, cmd).Go? && ImportAssignee(env, cmd, n, ImportCreator(env, cmd).value.0).Go?
  {
    hide ImportCreator, ImportAssignee, IsImportCreator, IsImportAssignee, GraphOf;
    if ImportCreator(env, cmd).Go? {
      ImportCreatorIs(env, cmd, ImportCreator(env, cmd).value.0);
      ImportAssigneeIs(env, cmd, n, ImportCreator(env, cmd).value.0);
    }
    if FillsNode(env, cmd, n) {
      var creatorId: Uuid :| IsImportCreator(env.catalog, env.directory, cmd, creatorId)
                             && IsImportAssignee(env.catalog, env.directory, cmd, n, creatorId);
      ImportCreatorIs(env, cmd, creatorId);
      ImportAssigneeIs(env, cmd, n, creatorId);
    }
  }

  // ----- Receipts stay -----

  /** The receipt that the request's key owns, if any. */
  function Owned(st: DbState, r: Request): Option<Receipt> {
    FindReceipt(st.receipts, PrincipalOf(r.call), KeyOf(r))
  }

  lemma FindReceiptSnoc(receipts: seq<Receipt>, r: Receipt, principalId: Uuid, key: Key)
    ensures FindReceipt(receipts + [r], principalId, key)
         == if r.principalId == principalId && r.key == key then Some(r) else FindReceipt(receipts, principalId, key)
  {
    assert (receipts + [r])[..|receipts|] == receipts;
  }

  /** A request either leaves the receipts alone, or its key had none and now owns the new one. */
  lemma ReceiptsGrowByOwner(catalog: Catalog, st: DbState, r: Request, ids: FreshIds)
    ensures var after := Execute(catalog, st, r, ids).0;
      || after == st
      || (Owned(st, r).None? && |after.receipts| == |st.receipts| + 1
          && after.receipts[..|st.receipts|] == st.receipts
          && after.receipts[|st.receipts|].principalId == PrincipalOf(r.call)
          && after.receipts[|st.receipts|].key == KeyOf(r))
  {
    hide Decide, FindReceipt, FindCommand, Precheck, StatusCode, FailureBodyOf, WriteFits, Answer, ApplyWrite;
  }

  lemma ReceiptStays(catalog: Catalog, st: DbState, a: Action, principalId: Uuid, key: Key)
    requires FindReceipt(st.receipts, principalId, key).Some?
    ensures FindReceipt(Next(catalog, st, a).receipts, principalId, key) == FindReceipt(st.receipts, principalId, key)
  {
    hide Execute, FindReceipt;
    if a.Command? {
      ReceiptsGrowByOwner(catalog, st, a.request, a.ids);
      var after := Next(catalog, st, a);
      if after != st {
        var added := after.receipts[|st.receipts|];
        assert after.receipts == st.receipts + [added];
        FindReceiptSnoc(st.receipts, added, principalId, key);
      }
    }
  }

  lemma {:induction false} ReceiptStaysInRuns(catalog: Catalog, run: seq<DbState>, actions: seq<Action>, i: nat, j: nat,
                                              principalId: Uuid, key: Key)
    requires IsRun(catalog, run, actions) && i <= j < |run| && FindReceipt(run[i].receipts, principalId, key).Some?
    ensures FindReceipt(run[j].receipts, principalId, key) == FindReceipt(run[i].receipts, principalId, key)
  {
    hide Next, FindReceipt;
    if i < j {
      ReceiptStaysInRuns(catalog, run, actions, i, j - 1, principalId, key);
      ReceiptStays(catalog, run[j - 1], actions[j - 1], principalId, key);
    }
  }

  /** Every stored failure: what its status is, and exactly when it reads back as the error returned. */
  lemma StoredFailureRoundTripsIff(env: Env, st: DbState, call: Call, ids: FreshIds)
    requires Precheck(env, call).None? && Decide(env, st, call, ids).Refuse?
    ensures RoundTrips(call, Decide(env, st, call, ids).error) <==> FailureReadable(env, st, call)
    ensures StatusCode(Decide(env, st, call, ids).error) != 200
  {
    hide CheckCreate, CheckImport, CheckRevise, CheckTransition, CheckCombined, CheckOverride, CheckRebuild, RoundTrips,
         RevisionFailureReadable, ImportFailureReadable, HasPointers, IsStored, StatusCode;
    var e := Decide(env, st, call, ids).error;
    FailuresAreNot200(e);
    match call {
      case Create(c) => StoredCreateKinds(env, c); CreateKindsRoundTripIff(call, e);
      case Import(c) => StoredImportKinds(env, st.ledgers, c); ImportKindsRoundTripIff(call, e);
      case Revise(c) => StoredReviseKinds(env, st.ledgers, c); ReviseKindsRoundTripIff(call, e);
      case Transition(c) => StoredTransitionKinds(env, st.ledgers, c); TransitionKindsRoundTripIff(call, e);
      case Combined(c) => StoredCombinedKinds(env, st.ledgers, c); CombinedKindsRoundTripIff(call, e);
      case Override(c) => StoredOverrideKinds(env, st, c); RecoveryKindsRoundTrip(call, e);
      case Rebuild(c) => StoredRebuildKinds(env, st, c); RecoveryKindsRoundTrip(call, e);
    }
  }

  lemma DecidedBodyIsReadable(env: Env, st: DbState, call: Call, ids: FreshIds)
    requires Decide(env, st, call, ids).Go?
    ensures Readable(call, Decide(env, st, call, ids).value.body)
  {
    hide CheckCreate, CheckImport, CheckRevise, CheckTransition, CheckCombined, CheckOverride, CheckRebuild;
  }

  /** What the first call that owns a receipt leaves in it, and what it returns. */
  lemma FirstCallStoresItsResult(catalog: Catalog, st: DbState, r: Request, ids: FreshIds)
    requires Execute(catalog, st, r, ids).0.receipts != st.receipts
    ensures Owned(st, r).None? && Owned(Execute(catalog, st, r, ids).0, r).Some?
    ensures var env, receipt := Env(catalog, st.directory), Owned(Execute(catalog, st, r, ids).0, r).value;
      && receipt.commandId == ids.commandId && receipt.requestHash == HashOf(r) && receipt.status.COMPLETED?
      && receipt.responseStatus.Some? && receipt.responseBody.Some?
      && var first := PublicResult(r.call, Execute(catalog, st, r, ids).1);
         if receipt.responseStatus.value == 200 then
           first == Ok(receipt.responseBody.value) && Readable(r.call, receipt.responseBody.value)
         else
           first.Err? && (ReplayedError(r.call, receipt.responseStatus.value, receipt.responseBody.value) == first.error
                          <==> FailureReadable(env, st, r.call))
  {
    hide Decide, FindReceipt, FindCommand, Precheck, StatusCode, FailureBodyOf, WriteFits, Answer, ApplyWrite, ReplayedError,
         FailureReadable, Readable;
    var env, after := Env(catalog, st.directory), Execute(catalog, st, r, ids).0;
    var added := after.receipts[|st.receipts|];
    assert after.receipts == st.receipts + [added];
    FindReceiptSnoc(st.receipts, added, PrincipalOf(r.call), KeyOf(r));
    match Decide(env, st, r.call, ids)
    case Refuse(e) => StoredFailureRoundTripsIff(env, st, r.call, ids);
    case Go(plan) => DecidedBodyIsReadable(env, st, r.call, ids);
  }

  /** A later request with the same principal, key and hash. */
  predicate Repeats(r: Request, again: Request) {
    PrincipalOf(again.call) == PrincipalOf(r.call) && KeyOf(again) == KeyOf(r) && HashOf(again) == HashOf(r)
  }

  /** Same principal and key, another hash. */
  predicate Conflicts(r: Request, other: Request) {
    PrincipalOf(other.call) == PrincipalOf(r.call) && KeyOf(other) == KeyOf(r) && HashOf(other) != HashOf(r)
  }

  /** What a request is refused with before its receipt is looked at, whatever the receipt holds. */
  function DeniedNow(catalog: Catalog, st: DbState, r: Request): Option<CommandError> {
    var env := Env(catalog, st.directory);
    if Precheck(env, r.call).Some? then Precheck(env, r.call) else Access(env, st, r.call)
  }

  /** A request whose key owns a receipt writes nothing. */
  lemma OwnedKeyWritesNothing(catalog: Catalog, st: DbState, r: Request, ids: FreshIds)
    requires Owned(st, r).Some?
    ensures Execute(catalog, st, r, ids).0 == st
    ensures DeniedNow(catalog, st, r).Some? ==> Execute(catalog, st, r, ids).1 == Failed(DeniedNow(catalog, st, r).value)
    ensures DeniedNow(catalog, st, r).None? ==>
              Execute(catalog, st, r, ids).1 == Answer(Env(catalog, st.directory), st, r, Owned(st, r).value)
  {
    hide FindReceipt, Precheck, Access, Decide;
  }

  lemma SameKindAnswers(a: Call, b: Call, status: int, body: ResponseBody)
    requires TypeOf(a) == TypeOf(b)
    ensures Readable(a, body) <==> Readable(b, body)
    ensures ReplayedError(a, status, body) == ReplayedError(b, status, body)
  {
    hide TransitionReplayedError, CreateReplayedError, ReviseReplayedError, CombinedReplayedError, RecoveryReplayedError,
         ImportReplayedError;
  }

  /**
   At most once: a request that repeats principal, key and hash of an earlier one that committed a
   receipt changes nothing. Unless it is denied before the receipt is looked at, it returns the result of
   a success, and the error of a failure exactly when the failing guard was one whose failure reads back.
   */
  lemma RepeatsReturnTheSame(catalog: Catalog, run: seq<DbState>, actions: seq<Action>, i: nat, j: nat)
    requires IsRun(catalog, run, actions) && i < j < |actions| && actions[i].Command? && actions[j].Command?
    requires run[i + 1].receipts != run[i].receipts && Repeats(actions[i].request, actions[j].request)
    ensures run[j + 1] == run[j]
    ensures var r, again := actions[i].request, actions[j].request;
      var first := PublicResult(r.call, Execute(catalog, run[i], r, actions[i].ids).1);
      var second := PublicResult(again.call, Execute(catalog, run[j], again, actions[j].ids).1);
      && (DeniedNow(catalog, run[j], again).Some? ==> second == Err(DeniedNow(catalog, run[j], again).value))
      && (DeniedNow(catalog, run[j], again).None? && first.Ok? ==> second == first)
      && (DeniedNow(catalog, run[j], again).None? && first.Err? ==>
            (second == first <==> FailureReadable(Env(catalog, run[i].directory), run[i], r.call)))
  {
    hide FindReceipt, ExecuteOwned, Decide, IsRun, ReplayedError, Readable, Precheck, Access, FailureReadable, DeniedNow;
    var r, again := actions[i].request, actions[j].request;
    RunStep(catalog, run, actions, i);
    RunStep(catalog, run, actions, j);
    FirstCallStoresItsResult(catalog, run[i], r, actions[i].ids);
    ReceiptStaysInRuns(catalog, run, actions, i + 1, j, PrincipalOf(r.call), KeyOf(r));
    OwnedKeyWritesNothing(catalog, run[j], again, actions[j].ids);
    var receipt := Owned(run[j], again).value;
    SameKindAnswers(again.call, r.call, receipt.responseStatus.value, receipt.responseBody.value);
    AnswerAfterDenial(Env(catalog, run[j].directory), run[j], again, receipt);
  }

  /** Once a request is not denied, the gate answers from the receipt. */
  lemma AnswerAfterDenial(env: Env, st: DbState, r: Request, receipt: Receipt)
    requires receipt.status.COMPLETED? && receipt.responseStatus.Some? && receipt.responseBody.Some?
    ensures DeniedNow(env.catalog, st.(directory := env.directory), r).None? && st.directory == env.directory ==>
              Answer(env, st, r, receipt)
              == if receipt.requestHash != HashOf(r) then
                   Failed(ConflictError(r.call, receipt.commandId, receipt.requestHash))
                 else if receipt.responseStatus.value != 200 then
                   ReplayedFailure(receipt.responseStatus.value, receipt.responseBody.value)
                 else if Readable(r.call, receipt.responseBody.value) then Replayed(receipt.responseBody.value)
                 else Failed(StorageError(MalformedReceipt))
  {
    hide Precheck, Access, Readable;
  }

  lemma RunStep(catalog: Catalog, run: seq<DbState>, actions: seq<Action>, i: nat)
    requires IsRun(catalog, run, actions) && i < |actions|
    ensures i + 1 < |run| && run[i + 1] == Next(catalog, run[i], actions[i])
  {
    hide Next;
  }

  /**
   Another hash under a key that owns a receipt changes nothing and is a conflict, unless the request is
   denied before the receipt is looked at. All commands but the administrative ones and imports name the
   first command and its hash.
   */
  lemma OtherHashConflicts(catalog: Catalog, run: seq<DbState>, actions: seq<Action>, i: nat, j: nat)
    requires IsRun(catalog, run, actions) && i < j < |actions| && actions[i].Command? && actions[j].Command?
    requires run[i + 1].receipts != run[i].receipts && Conflicts(actions[i].request, actions[j].request)
    ensures run[j + 1] == run[j]
    ensures var r, other := actions[i].request, actions[j].request;
      Execute(catalog, run[j], other, actions[j].ids).1
      == Failed(if DeniedNow(catalog, run[j], other).Some? then DeniedNow(catalog, run[j], other).value
                else if other.call.Override? || other.call.Rebuild? || other.call.Import? then IdempotencyKeyConflict
                else IdempotencyConflict(actions[i].ids.commandId, HashOf(r)))
  {
    hide FindReceipt, ExecuteOwned, Decide, IsRun, ReplayedError, Readable, Precheck, Access, DeniedNow, FailureReadable;
    var r, other := actions[i].request, actions[j].request;
    RunStep(catalog, run, actions, i);
    RunStep(catalog, run, actions, j);
    FirstCallStoresItsResult(catalog, run[i], r, actions[i].ids);
    ReceiptStaysInRuns(catalog, run, actions, i + 1, j, PrincipalOf(r.call), KeyOf(r));
    OwnedKeyWritesNothing(catalog, run[j], other, actions[j].ids);
    AnswerAfterDenial(Env(catalog, run[j].directory), run[j], other, Owned(run[j], other).value);
  }

  // ----- Failures that do not read back -----

  /** The combined command has no arm for a missing principal; prechecks keep it from being stored. */
  lemma MissingPrincipalDoesNotRoundTrip(c: CombinedCommand)
    ensures ReplayedError(Combined(c), StatusCode(PrincipalNotFound), FailureBodyOf(Combined(c), PrincipalNotFound))
         == StorageError(UnrecognisedFailure)
  {
  }

  /** A revision by an enabled principal who is not the creator stores a failure that reads back as another error. */
  lemma RevisionByAnotherIsMisread(catalog: Catalog, run: seq<DbState>, actions: seq<Action>, i: nat, j: nat)
    requires IsRun(catalog, run, actions) && i < j < |actions| && actions[i].Command? && actions[j].Command?
    requires var r, again := actions[i].request, actions[j].request;
      && r.call.Revise? && Repeats(r, again)
      && Owned(run[i], r).None? && FindCommand(run[i].receipts, actions[i].ids.commandId).None?
      && Precheck(Env(catalog, run[i].directory), r.call).None? && Precheck(Env(catalog, run[j].directory), again.call).None?
      && var c := r.call.revise;
      && c.workflowInstanceId in run[i].ledgers && HasPointers(run[i].ledgers[c.workflowInstanceId])
      && run[i].ledgers[c.workflowInstanceId].instance.createdByPrincipalId != c.principalId
    ensures PublicResult(actions[i].request.call, Execute(catalog, run[i], actions[i].request, actions[i].ids).1)
         == Err(PrincipalNotFound)
    ensures PublicResult(actions[j].request.call, Execute(catalog, run[j], actions[j].request, actions[j].ids).1)
         == Err(StorageError(UnrecognisedFailure))
  {
    hide FindReceipt, FindCommand, IsRun, Precheck;
    var r, again := actions[i].request, actions[j].request;
    RunStep(catalog, run, actions, i);
    RunStep(catalog, run, actions, j);
    assert Decide(Env(catalog, run[i].directory), run[i], r.call, actions[i].ids) == Refuse(PrincipalNotFound) by {
      RefusedForeignRevision(Env(catalog, run[i].directory), run[i].ledgers, r.call.revise);
    }
    hide Decide, CheckRevise;
    var added := Completed(OpenReceipt(r, actions[i].ids), 404, LabelOnly(PRINCIPAL_NOT_FOUND));
    assert run[i + 1].receipts == run[i].receipts + [added];
    FindReceiptSnoc(run[i].receipts, added, PrincipalOf(r.call), KeyOf(r));
    ReceiptStaysInRuns(catalog, run, actions, i + 1, j, PrincipalOf(r.call), KeyOf(r));
    OwnedKeyWritesNothing(catalog, run[j], again, actions[j].ids);
  }

  lemma RefusedForeignRevision(env: Env, ledgers: map<Uuid, Ledger>, c: ReviseCommand)
    requires c.workflowInstanceId in ledgers && HasPointers(ledgers[c.workflowInstanceId])
    requires ledgers[c.workflowInstanceId].instance.createdByPrincipalId != c.principalId
    ensures CheckRevise(env, ledgers, c) == Refuse(PrincipalNotFound)
  {
    hide CurrentVisit, CurrentContext;
  }
}
