/** One command transaction as a function: the idempotency gate, the checks, the write and the receipt. */
module Pipeline {
  import opened Prelude
  import opened DefinitionModel
  import opened RuntimeModel
  import opened KernelState
  import opened EventReplay
  import opened Snapshot
  import opened Commands

  datatype Call =
    | Create(create: CreateCommand)
    | Import(legacy: ImportCommand)
    | Revise(revise: ReviseCommand)
    | Transition(transition: TransitionCommand)
    | Combined(combined: CombinedCommand)
    | Override(override: OverrideCommand)
    | Rebuild(rebuild: RebuildCommand)

  /** A command with its idempotency key and the number that stands for the rest of its envelope. */
  datatype Request = Request(call: Call, plainKey: string, envelope: int)

  datatype Outcome =
    | Executed(body: ResponseBody)
    | Replayed(body: ResponseBody)
    | ReplayedFailure(status: int, failure: ResponseBody)
    | Failed(error: CommandError)

  /** What a transaction writes and answers when all its checks pass. */
  datatype Plan = Plan(write: Write, body: ResponseBody)

  function PrincipalOf(call: Call): Uuid {
    match call
    case Create(c) => c.principalId
    case Import(c) => c.principalId
    case Revise(c) => c.principalId
    case Transition(c) => c.principalId
    case Combined(c) => c.principalId
    case Override(c) => c.principalId
    case Rebuild(c) => c.principalId
  }

  function TypeOf(call: Call): CommandType {
    match call
    case Create(_) => CREATE_WORKFLOW_INSTANCE
    case Import(_) => IMPORT_LEGACY_WORKFLOW_INSTANCE
    case Revise(_) => REVISE_WORKFLOW_CONTEXT
    case Transition(_) => EXECUTE_WORKFLOW_TRANSITION
    case Combined(_) => REVISE_CONTEXT_AND_TRANSITION
    case Override(_) => ADMIN_EMERGENCY_OVERRIDE
    case Rebuild(_) => REBUILD_PROJECTION
  }

  /** An import is keyed by the external reference that it will write. */
  function KeyOf(r: Request): Key {
    if r.call.Import? then MigrationKey(r.call.legacy.legacyRecordId) else PlainKey(r.plainKey)
  }

  function HashOf(r: Request): RequestHash {
    RequestHash(TypeOf(r.call), r.envelope)
  }

  // ----- Failures -----

  function StatusCode(e: CommandError): int {
    match e
    case PrincipalNotFound => 404
    case DomainNotFound => 404
    case DefinitionVersionNotFound => 404
    case InstanceNotFound => 404
    case CurrentVisitNotFound => 404
    case ImportedNodeNotFound => 404
    case PrincipalDisabled => 403
    case PrincipalTypeNotAllowed => 403
    case PermissionDenied => 403
    case PrincipalNotCreator => 403
    case PrincipalNotAssignee => 403
    case DomainDisabled => 403
    case DomainMembershipRequired => 403
    case CrossDomainViolation => 403
    case MigrationBindingInvalid => 403
    case VersionNotPublished => 409
    case DefinitionVersionRevoked => 409
    case CurrentNodeNotDraft => 409
    case SourceNodeTerminal => 409
    case WorkflowStateVersionConflict(_, _) => 409
    case BeforeSnapshotDigestMismatch(_, _) => 409
    case SnapshotDigestMismatch(_, _) => 409
    case TransitionNotApplicable(_) => 409
    case ExternalReferenceConflict => 409
    case IdempotencyConflict(_, _) => 409
    case IdempotencyKeyConflict => 409
    case SizeLimitExceeded(_) => 413
    case SubmissionRequired => 422
    case SubmissionValidationFailed(_) => 422
    case ContextValidationFailed(_) => 422
    case InvalidReturnReferences(_) => 422
    case AssigneeResolutionFailed(_) => 422
    case InvalidInput(_) => 422
    case InvalidTarget(_) => 422
    case CreatorResolutionFailed(_) => 422
    case CommandStillProcessing => 425
    case DefinitionVersionDraft => 500
    case InvalidImmutableFacts(_) => 500
    case InternalConsistency(_) => 500
    case StorageError(_) => 500
  }

  function LabelOnly(errorLabel: Label): ResponseBody {
    FailureBody(errorLabel, None, None, None)
  }

  /** The stored failure body of a transition. */
  function TransitionFailureBody(e: CommandError): ResponseBody {
    match e
    case WorkflowStateVersionConflict(expected, actual) =>
      FailureBody(WORKFLOW_STATE_VERSION_CONFLICT, Some(expected), Some(actual), None)
    case SubmissionValidationFailed(d) => FailureBody(SUBMISSION_VALIDATION_FAILED, None, None, Some(d))
    case TransitionNotApplicable(d) => FailureBody(TRANSITION_NOT_APPLICABLE, None, None, Some(d))
    case SizeLimitExceeded(d) => FailureBody(SIZE_LIMIT_EXCEEDED, None, None, Some(d))
    case InvalidReturnReferences(d) => FailureBody(INVALID_RETURN_REFERENCES, None, None, Some(d))
    case AssigneeResolutionFailed(d) => FailureBody(ASSIGNEE_RESOLUTION_FAILED, None, None, Some(d))
    case PrincipalNotFound => LabelOnly(PRINCIPAL_NOT_FOUND)
    case PrincipalDisabled => LabelOnly(PRINCIPAL_DISABLED)
    case InstanceNotFound => LabelOnly(INSTANCE_NOT_FOUND)
    case CurrentVisitNotFound => LabelOnly(CURRENT_VISIT_NOT_FOUND)
    case PrincipalNotAssignee => LabelOnly(PRINCIPAL_NOT_ASSIGNEE)
    case SourceNodeTerminal => LabelOnly(SOURCE_NODE_TERMINAL)
    case DefinitionVersionRevoked => LabelOnly(DEFINITION_VERSION_REVOKED)
    case DefinitionVersionDraft => LabelOnly(DEFINITION_VERSION_DRAFT)
    case SubmissionRequired => LabelOnly(SUBMISSION_REQUIRED)
    case _ => LabelOnly(OTHER_LABEL)
  }

  /** The stored failure body of a creation. */
  function CreateFailureBody(e: CommandError): ResponseBody {
    match e
    case SizeLimitExceeded(d) => FailureBody(SIZE_LIMIT_EXCEEDED, None, None, Some(d))
    case ContextValidationFailed(d) => FailureBody(CONTEXT_VALIDATION_FAILED, None, None, Some(d))
    case AssigneeResolutionFailed(d) => FailureBody(ASSIGNEE_RESOLUTION_FAILED, None, None, Some(d))
    case DomainNotFound => LabelOnly(DOMAIN_NOT_FOUND)
    case DomainDisabled => LabelOnly(DOMAIN_DISABLED)
    case PrincipalNotFound => LabelOnly(PRINCIPAL_NOT_FOUND)
    case PrincipalDisabled => LabelOnly(PRINCIPAL_DISABLED)
    case DomainMembershipRequired => LabelOnly(DOMAIN_MEMBERSHIP_REQUIRED)
    case CrossDomainViolation => LabelOnly(CROSS_DOMAIN_VIOLATION)
    case DefinitionVersionNotFound => LabelOnly(DEFINITION_VERSION_NOT_FOUND)
    case VersionNotPublished => LabelOnly(VERSION_NOT_PUBLISHED)
    case _ => LabelOnly(VALIDATION_ERROR)
  }

  /** The stored failure body of a revision: the label, and for a version conflict both versions. */
  function ReviseFailureBody(e: CommandError): ResponseBody {
    match e
    case WorkflowStateVersionConflict(expected, actual) =>
      FailureBody(WORKFLOW_STATE_VERSION_CONFLICT, Some(expected), Some(actual), None)
    case PrincipalNotFound => LabelOnly(PRINCIPAL_NOT_FOUND)
    case PrincipalDisabled => LabelOnly(PRINCIPAL_DISABLED)
    case InstanceNotFound => LabelOnly(INSTANCE_NOT_FOUND)
    case CurrentVisitNotFound => LabelOnly(CURRENT_VISIT_NOT_FOUND)
    case CurrentNodeNotDraft => LabelOnly(CURRENT_NODE_NOT_DRAFT)
    case DefinitionVersionRevoked => LabelOnly(DEFINITION_VERSION_REVOKED)
    case DefinitionVersionDraft => LabelOnly(DEFINITION_VERSION_DRAFT)
    case ContextValidationFailed(_) => LabelOnly(CONTEXT_VALIDATION_FAILED)
    case SizeLimitExceeded(_) => LabelOnly(SIZE_LIMIT_EXCEEDED)
    case InternalConsistency(_) => LabelOnly(INTERNAL_CONSISTENCY_ERROR)
    case _ => LabelOnly(OTHER_LABEL)
  }

  /** The stored failure body of the combined command. */
  function CombinedFailureBody(e: CommandError): ResponseBody {
    match e
    case WorkflowStateVersionConflict(expected, actual) =>
      FailureBody(WORKFLOW_STATE_VERSION_CONFLICT, Some(expected), Some(actual), None)
    case TransitionNotApplicable(d) => FailureBody(TRANSITION_NOT_APPLICABLE, None, None, Some(d))
    case ContextValidationFailed(d) => FailureBody(CONTEXT_VALIDATION_FAILED, None, None, Some(d))
    case SubmissionValidationFailed(d) => FailureBody(SUBMISSION_VALIDATION_FAILED, None, None, Some(d))
    case SizeLimitExceeded(d) => FailureBody(SIZE_LIMIT_EXCEEDED, None, None, Some(d))
    case AssigneeResolutionFailed(d) => FailureBody(ASSIGNEE_RESOLUTION_FAILED, None, None, Some(d))
    case InternalConsistency(d) => FailureBody(INTERNAL_CONSISTENCY_ERROR, None, None, Some(d))
    case PrincipalNotFound => LabelOnly(PRINCIPAL_NOT_FOUND)
    case PrincipalDisabled => LabelOnly(PRINCIPAL_DISABLED)
    case InstanceNotFound => LabelOnly(INSTANCE_NOT_FOUND)
    case CurrentVisitNotFound => LabelOnly(CURRENT_VISIT_NOT_FOUND)
    case PrincipalNotCreator => LabelOnly(PRINCIPAL_NOT_CREATOR)
    case PrincipalNotAssignee => LabelOnly(PRINCIPAL_NOT_ASSIGNEE)
    case CurrentNodeNotDraft => LabelOnly(CURRENT_NODE_NOT_DRAFT)
    case DefinitionVersionRevoked => LabelOnly(DEFINITION_VERSION_REVOKED)
    case DefinitionVersionDraft => LabelOnly(DEFINITION_VERSION_DRAFT)
    case _ => LabelOnly(OTHER_LABEL)
  }

  /** The stored failure body of an override or a rebuild. */
  function RecoveryFailureBody(e: CommandError): ResponseBody {
    match e
    case BeforeSnapshotDigestMismatch(expected, actual) =>
      DigestFailureBody(BEFORE_SNAPSHOT_DIGEST_MISMATCH, expected, actual)
    case WorkflowStateVersionConflict(expected, actual) =>
      FailureBody(WORKFLOW_STATE_VERSION_CONFLICT, Some(expected), Some(actual), None)
    case InvalidInput(d) => FailureBody(INVALID_INPUT, None, None, Some(d))
    case InvalidImmutableFacts(d) => FailureBody(INVALID_IMMUTABLE_FACTS, None, None, Some(d))
    case InvalidTarget(d) => FailureBody(INVALID_TARGET, None, None, Some(d))
    case AssigneeResolutionFailed(d) => FailureBody(ASSIGNEE_RESOLUTION_FAILED, None, None, Some(d))
    case InternalConsistency(d) => FailureBody(INTERNAL_CONSISTENCY_ERROR, None, None, Some(d))
    case PrincipalNotFound => LabelOnly(PRINCIPAL_NOT_FOUND)
    case PrincipalDisabled => LabelOnly(PRINCIPAL_DISABLED)
    case PrincipalTypeNotAllowed => LabelOnly(PRINCIPAL_TYPE_NOT_ALLOWED)
    case PermissionDenied => LabelOnly(PERMISSION_DENIED)
    case InstanceNotFound => LabelOnly(INSTANCE_NOT_FOUND)
    case _ => LabelOnly(OTHER_LABEL)
  }

  /** The stored failure body of an import: the label alone, but for a digest mismatch. */
  function ImportFailureBody(e: CommandError): ResponseBody {
    match e
    case SnapshotDigestMismatch(expected, actual) => DigestFailureBody(SNAPSHOT_DIGEST_MISMATCH, expected, actual)
    case PrincipalNotFound => LabelOnly(PRINCIPAL_NOT_FOUND)
    case PrincipalDisabled => LabelOnly(PRINCIPAL_DISABLED)
    case PrincipalTypeNotAllowed => LabelOnly(PRINCIPAL_TYPE_NOT_ALLOWED)
    case MigrationBindingInvalid => LabelOnly(MIGRATION_BINDING_INVALID)
    case PermissionDenied => LabelOnly(PERMISSION_DENIED)
    case DomainNotFound => LabelOnly(DOMAIN_NOT_FOUND)
    case DomainDisabled => LabelOnly(DOMAIN_DISABLED)
    case DefinitionVersionNotFound => LabelOnly(DEFINITION_VERSION_NOT_FOUND)
    case VersionNotPublished => LabelOnly(VERSION_NOT_PUBLISHED)
    case ImportedNodeNotFound => LabelOnly(IMPORTED_NODE_NOT_FOUND)
    case InvalidInput(_) => LabelOnly(INVALID_INPUT)
    case CreatorResolutionFailed(_) => LabelOnly(CREATOR_RESOLUTION_FAILED)
    case AssigneeResolutionFailed(_) => LabelOnly(ASSIGNEE_RESOLUTION_FAILED)
    case ContextValidationFailed(_) => LabelOnly(CONTEXT_VALIDATION_FAILED)
    case SizeLimitExceeded(_) => LabelOnly(SIZE_LIMIT_EXCEEDED)
    case ExternalReferenceConflict => LabelOnly(EXTERNAL_REFERENCE_CONFLICT)
    case _ => LabelOnly(OTHER_LABEL)
  }

  function FailureBodyOf(call: Call, e: CommandError): ResponseBody {
    match call
    case Create(_) => CreateFailureBody(e)
    case Import(_) => ImportFailureBody(e)
    case Revise(_) => ReviseFailureBody(e)
    case Transition(_) => TransitionFailureBody(e)
    case Combined(_) => CombinedFailureBody(e)
    case Override(_) => RecoveryFailureBody(e)
    case Rebuild(_) => RecoveryFailureBody(e)
  }

  // ----- Decisions -----

  /** Checks before the transaction: a receipt needs an existing principal. */
  function Precheck(env: Env, call: Call): Option<CommandError> {
    if PrincipalOf(call) !in env.directory.principals then Some(PrincipalNotFound)
    else if call.Revise? && !env.directory.principals[PrincipalOf(call)] then Some(PrincipalDisabled)
    else if call.Revise? && env.catalog.sizeOf(call.revise.contextPayload) > MIB then Some(SizeLimitExceeded(TooLarge))
    else None
  }

  function DecideCreate(env: Env, cmd: CreateCommand, ids: FreshIds): Verdict<Plan> {
    var plan :- CheckCreate(env, cmd);
    Go(Plan(CreateLedger(CreatedLedger(env, cmd, plan, ids)),
            CreateBody(ids.instanceId, 1, ids.contextId, ids.visitId, 1)))
  }

  function DecideImport(env: Env, ledgers: map<Uuid, Ledger>, cmd: ImportCommand, ids: FreshIds): Verdict<Plan> {
    var plan :- CheckImport(env, ledgers, cmd);
    Go(Plan(CreateLedger(ImportedLedger(env, cmd, plan, ids)),
            ImportBody(ids.commandId, ids.instanceId, ids.contextId, ids.visitId, ids.eventId, 1, 1,
                       OfLegacySnapshot(cmd.legacySnapshot), plan.resolution)))
  }

  function DecideRevise(env: Env, ledgers: map<Uuid, Ledger>, cmd: ReviseCommand, ids: FreshIds): Verdict<Plan> {
    var plan :- CheckRevise(env, ledgers, cmd);
    var version := Inc32(plan.ledger.instance.projection.workflowStateVersion);
    Go(Plan(AppendEntry(cmd.workflowInstanceId, ReviseEntry(env, cmd, plan, ids)),
            ReviseBody(cmd.workflowInstanceId, version, ids.contextId, plan.visit.nodeVisitId, version)))
  }

  function DecideTransition(env: Env, ledgers: map<Uuid, Ledger>, cmd: TransitionCommand, ids: FreshIds): Verdict<Plan> {
    var plan :- CheckTransition(env, ledgers, cmd);
    var version := Inc32(plan.ledger.instance.projection.workflowStateVersion);
    if !HasPointers(plan.ledger) then Abort(StorageError(ConstraintViolation))
    else
      Go(Plan(AppendEntry(cmd.workflowInstanceId, TransitionEntry(env, cmd, plan, ids)),
              TransitionBody(cmd.workflowInstanceId, version,
                             plan.ledger.instance.projection.currentContextRevisionId.value, plan.visit.nodeVisitId,
                             ids.visitId, if cmd.submissionPayload.Some? then Some(ids.submissionId) else None, version)))
  }

  function DecideCombined(env: Env, ledgers: map<Uuid, Ledger>, cmd: CombinedCommand, ids: FreshIds): Verdict<Plan> {
    var plan :- CheckCombined(env, ledgers, cmd);
    var version := Inc32(plan.ledger.instance.projection.workflowStateVersion);
    Go(Plan(AppendEntry(cmd.workflowInstanceId, CombinedEntry(env, cmd, plan, ids)),
            TransitionBody(cmd.workflowInstanceId, version, ids.contextId, plan.visit.nodeVisitId, ids.visitId,
                           Some(ids.submissionId), version)))
  }

  function DecideOverride(env: Env, st: DbState, cmd: OverrideCommand, ids: FreshIds): Verdict<Plan> {
    var plan :- CheckOverride(env, st, cmd);
    var version := Inc32(plan.ledger.instance.projection.workflowStateVersion);
    Go(Plan(AppendEntry(cmd.workflowInstanceId, OverrideEntry(env, cmd, plan, ids)),
            OverrideBody(ids.commandId, cmd.workflowInstanceId, plan.visit.nodeVisitId, ids.visitId, version, version,
                         SnapshotDigest(plan.ledger))))
  }

  function DecideRebuild(env: Env, st: DbState, cmd: RebuildCommand, ids: FreshIds): Verdict<Plan> {
    var plan :- CheckRebuild(env, st, cmd);
    var before := plan.ledger.instance.projection;
    var changed := before != plan.projection;
    Go(Plan(if changed then SetProjection(cmd.workflowInstanceId, plan.projection) else NoWrite,
            RebuildBody(ids.commandId, cmd.workflowInstanceId, before, plan.projection, SnapshotDigest(plan.ledger), changed)))
  }

  function Decide(env: Env, st: DbState, call: Call, ids: FreshIds): Verdict<Plan> {
    match call
    case Create(c) => DecideCreate(env, c, ids)
    case Import(c) => DecideImport(env, st.ledgers, c, ids)
    case Revise(c) => DecideRevise(env, st.ledgers, c, ids)
    case Transition(c) => DecideTransition(env, st.ledgers, c, ids)
    case Combined(c) => DecideCombined(env, st.ledgers, c, ids)
    case Override(c) => DecideOverride(env, st, c, ids)
    case Rebuild(c) => DecideRebuild(env, st, c, ids)
  }

  // ----- The idempotency gate -----

  /** Administrative commands and imports check access again before they answer from a receipt. */
  function Access(env: Env, st: DbState, call: Call): Option<CommandError> {
    match call
    case Override(c) => ErrorOf(CheckAdmin(env, st.ledgers, c.workflowInstanceId, c.principalId))
    case Rebuild(c) => ErrorOf(CheckAdmin(env, st.ledgers, c.workflowInstanceId, c.principalId))
    case Import(c) => ErrorOf(CheckImportAccess(env, c))
    case _ => None
  }

  function ErrorOf<T>(v: Verdict<T>): Option<CommandError> {
    if v.Go? then None else Some(v.error)
  }

  /** The stored body is one that the command's replay can read back. */
  predicate Readable(call: Call, body: ResponseBody) {
    match call
    case Create(_) => body.CreateBody?
    case Import(_) => body.ImportBody?
    case Revise(_) => body.ReviseBody?
    case Transition(_) => body.TransitionBody?
    case Combined(_) => body.TransitionBody?
    case Override(_) => body.OverrideBody?
    case Rebuild(_) => body.RebuildBody?
  }

  predicate RechecksAccess(call: Call) {
    call.Override? || call.Rebuild? || call.Import?
  }

  /** Another hash under an owned key. Administrative commands and imports do not name the first command. */
  function ConflictError(call: Call, originalCommandId: Uuid, originalHash: RequestHash): CommandError {
    if RechecksAccess(call) then IdempotencyKeyConflict else IdempotencyConflict(originalCommandId, originalHash)
  }

  /** The answer to a request whose key already has a receipt. It never writes. */
  function Answer(env: Env, st: DbState, r: Request, receipt: Receipt): Outcome {
    var denied := Access(env, st, r.call);
    if denied.Some? then Failed(denied.value)
    else if receipt.status.PROCESSING? && (!RechecksAccess(r.call) || receipt.requestHash == HashOf(r))
    then Failed(CommandStillProcessing)
    else if receipt.requestHash != HashOf(r) then Failed(ConflictError(r.call, receipt.commandId, receipt.requestHash))
    else if receipt.responseStatus.None? || receipt.responseBody.None? then Failed(StorageError(MalformedReceipt))
    else if receipt.responseStatus.value != 200 then
      ReplayedFailure(receipt.responseStatus.value, receipt.responseBody.value)
    else if !Readable(r.call, receipt.responseBody.value) then Failed(StorageError(MalformedReceipt))
    else Replayed(receipt.responseBody.value)
  }

  function OpenReceipt(r: Request, ids: FreshIds): Receipt {
    Receipt(ids.commandId, PrincipalOf(r.call), KeyOf(r), TypeOf(r.call), HashOf(r), PROCESSING, None, None, None)
  }

  /** The digest beside a stored response. A failed revision digests only its label. */
  function ResponseDigest(commandType: CommandType, body: ResponseBody): Digest {
    if commandType.REVISE_WORKFLOW_CONTEXT? && body.FailureBody? then OfLabel(body.errorLabel) else OfBody(body)
  }

  function Completed(receipt: Receipt, status: int, body: ResponseBody): Receipt {
    receipt.(status := COMPLETED, responseStatus := Some(status), responseBody := Some(body),
             responseDigest := Some(ResponseDigest(receipt.commandType, body)))
  }

  // ----- The transaction -----

  /** The transaction of a request that owns a new receipt. */
  function ExecuteOwned(catalog: Catalog, st: DbState, r: Request, ids: FreshIds): (DbState, Outcome) {
    var open := OpenReceipt(r, ids);
    match Decide(Env(catalog, st.directory), st, r.call, ids)
    case Abort(e) => (st, Failed(e))
    case Refuse(e) =>
      (st.(receipts := st.receipts + [Completed(open, StatusCode(e), FailureBodyOf(r.call, e))]), Failed(e))
    case Go(plan) =>
      if !WriteFits(st.ledgers, plan.write) then (st, Failed(StorageError(ConstraintViolation)))
      else
        (st.(ledgers := ApplyWrite(st.ledgers, plan.write),
             receipts := st.receipts + [Completed(open, 200, plan.body)]),
         Executed(plan.body))
  }

  function Execute(catalog: Catalog, st: DbState, r: Request, ids: FreshIds): (DbState, Outcome) {
    var env := Env(catalog, st.directory);
    var early := Precheck(env, r.call);
    if early.Some? then (st, Failed(early.value))
    else
      match FindReceipt(st.receipts, PrincipalOf(r.call), KeyOf(r))
      case Some(receipt) => (st, Answer(env, st, r, receipt))
      case None =>
        if FindCommand(st.receipts, ids.commandId).Some? then (st, Failed(StorageError(ConstraintViolation)))
        else ExecuteOwned(catalog, st, r, ids)
  }
}
