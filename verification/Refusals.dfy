/**
 Why a request fails: for each command what each of its errors says is wrong, over the rows of the state, and
 which failures leave a receipt. In every reachable state a failure names something that really is wrong.
 */
module Refusals {
  import opened Prelude
  import opened DefinitionModel
  import opened GraphRules
  import opened RuntimeModel
  import opened KernelState
  import opened EventReplay
  import opened Snapshot
  import opened Commands
  import opened Pipeline
  import opened Agreement
  import opened WriterAgreement
  import opened ReplayMeaning
  import opened KernelRuns
  import opened Idempotency
  import opened Concurrency
  import opened Fusion
  import opened Commits
  import opened Rules
  import opened Resolution
  import opened Admission
  import opened Effects

  // ----- What an error says -----

  predicate HasStatus(d: Directory, versionId: Uuid, status: VersionStatus) {
    versionId in d.versionStatus && d.versionStatus[versionId] == status
  }

  /** Why the rule finds no active assignee. */
  predicate FindsNobody(d: Directory, rule: Option<AssigneeRef>, domainId: Uuid, detail: Detail) {
    || (detail.NoAssigneeRule? && rule.None?)
    || (detail.NoFixedPrincipal? && rule.Some? && rule.value.refType.FIXED_PRINCIPAL? && rule.value.fixedPrincipalId.None?)
    || (detail.NoOwner? && rule.Some? && rule.value.refType.DOMAIN_OWNER?
        && forall b :: b in DomainBindings(d, domainId) ==> !Gives(b, DOMAIN_OWNER_ROLE))
    || (detail.AssigneeUnavailable? && rule.Some? && !rule.value.refType.WORKFLOW_CREATOR? && !Resolves(d, rule, domainId))
  }

  /** The same for an administrator. */
  predicate FindsNobodyForAdmin(d: Directory, rule: Option<AssigneeRef>, creatorId: Uuid, domainId: Uuid, detail: Detail) {
    || (detail.NoAssigneeRule? && rule.None?)
    || (detail.NoFixedPrincipal? && rule.Some? && rule.value.refType.FIXED_PRINCIPAL? && rule.value.fixedPrincipalId.None?)
    || (detail.NoOwner? && rule.Some? && rule.value.refType.DOMAIN_OWNER? && !ResolvesForAdmin(d, rule, creatorId, domainId))
    || (detail.AssigneeUnavailable? && rule.Some? && !rule.value.refType.DOMAIN_OWNER?
        && !ResolvesForAdmin(d, rule, creatorId, domainId))
  }

  predicate PrincipalFault(d: Directory, principalId: Uuid, e: CommandError) {
    || (e.PrincipalNotFound? && principalId !in d.principals)
    || (e.PrincipalDisabled? && principalId in d.principals && !d.principals[principalId])
  }

  predicate DomainFault(d: Directory, domainId: Uuid, e: CommandError) {
    || (e.DomainNotFound? && domainId !in d.domains)
    || (e.DomainDisabled? && domainId in d.domains && !d.domains[domainId])
  }

  predicate VersionFault(d: Directory, versionId: Uuid, e: CommandError) {
    || (e.DefinitionVersionRevoked? && HasStatus(d, versionId, Revoked))
    || (e.DefinitionVersionDraft? && HasStatus(d, versionId, Draft))
    || (e == InternalConsistency(MissingVersion) && versionId !in d.versionStatus)
  }

  ghost predicate CreationFault(catalog: Catalog, d: Directory, cmd: CreateCommand, e: CommandError) {
    var versionId, g := cmd.definitionVersionId, GraphOf(catalog, cmd.definitionVersionId);
    || PrincipalFault(d, cmd.principalId, e) || DomainFault(d, cmd.domainId, e)
    || (e.SizeLimitExceeded? && (catalog.sizeOf(cmd.contextPayload) > ONE_MIB || catalog.sizeOf(cmd.metadata) > 0x1_0000))
    || (e.DefinitionVersionNotFound? && versionId !in catalog.versions)
    || (e.CrossDomainViolation? && versionId in catalog.versions && catalog.versions[versionId].domainId != cmd.domainId)
    || (e.VersionNotPublished? && !HasStatus(d, versionId, Published))
    || (e.DomainMembershipRequired? && !BelongsTo(d, cmd.domainId, cmd.principalId))
    || (e.InternalConsistency? && forall n :: !IsDraftOf(g, n))
    || (e.StorageError? && exists n :: IsDraftOf(g, n) && n.assigneeRef.None?)
    || (e.AssigneeResolutionFailed? && exists n :: IsDraftOf(g, n) && FindsNobody(d, n.assigneeRef, cmd.domainId, e.detail))
    || (e.ContextValidationFailed? && !Satisfies(catalog, g.contextSchema, cmd.contextPayload))
  }

  /** What is wrong with the legacy snapshot, or with the names that come with it. */
  ghost predicate SnapshotFault(catalog: Catalog, cmd: ImportCommand, e: CommandError) {
    var g := GraphOf(catalog, cmd.definitionVersionId);
    || (e.InvalidInput?
        && (|| cmd.shape.IllShaped? || cmd.expectedSnapshotDigest.EmptyDigest?
            || cmd.domainId !in catalog.domainKeys || catalog.domainKeys[cmd.domainId] != cmd.domainKey
            || exists n :: IsNodeOf(g, n, cmd.importedNodeId) && n.nodeKey != cmd.currentStep))
    || (e.SizeLimitExceeded? && cmd.shape.Oversized?)
    || (e.SnapshotDigestMismatch? && cmd.expectedSnapshotDigest == e.expectedDigest != e.actualDigest
        && e.actualDigest == OfLegacySnapshot(cmd.legacySnapshot))
  }

  ghost predicate ImportFault(catalog: Catalog, st: DbState, cmd: ImportCommand, e: CommandError) {
    var d, versionId, g := st.directory, cmd.definitionVersionId, GraphOf(catalog, cmd.definitionVersionId);
    || PrincipalFault(d, cmd.principalId, e) || DomainFault(d, cmd.domainId, e) || SnapshotFault(catalog, cmd, e)
    || (e.PrincipalTypeNotAllowed? && IsHumanOrAgent(catalog, cmd.principalId))
    || (e.MigrationBindingInvalid? && !IsSole(DomainBindings(d, cmd.domainId), cmd.principalId, WORKFLOW_MIGRATION))
    || (e.DefinitionVersionNotFound? && versionId !in catalog.versions)
    || (e.PermissionDenied? && versionId in catalog.versions && catalog.versions[versionId].domainId != cmd.domainId)
    || (e.VersionNotPublished? && !HasStatus(d, versionId, Published))
    || (e.ImportedNodeNotFound? && forall n :: !IsNodeOf(g, n, cmd.importedNodeId))
    || (e.ContextValidationFailed? && !Satisfies(catalog, g.contextSchema, cmd.contextPayload))
    || (e.CreatorResolutionFailed?
        && forall p :: !(IsSole(DomainBindings(d, cmd.domainId), p, DOMAIN_OWNER_ROLE) && CanOwnWork(catalog, d, p)))
    || (e.AssigneeResolutionFailed?
        && exists n: NodeDefinition, p: Uuid ::
             IsNodeOf(g, n, cmd.importedNodeId) && IsImportCreator(catalog, d, cmd, p) && !IsImportAssignee(catalog, d, cmd, n, p))
    || (e.ExternalReferenceConflict?
        && exists k :: k in st.ledgers && st.ledgers[k].instance.externalReference == Some(MigrationKey(cmd.legacyRecordId)))
  }

  /** The command expected another version of the instance than it has. */
  predicate IsConflict(l: Ledger, expectedVersion: int, e: CommandError) {
    && e.WorkflowStateVersionConflict? && e.expected == expectedVersion && e.actual == l.instance.projection.workflowStateVersion
    && e.expected != e.actual
  }

  ghost predicate RevisionFault(catalog: Catalog, st: DbState, cmd: ReviseCommand, e: CommandError) {
    || PrincipalFault(st.directory, cmd.principalId, e)
    || (e.SizeLimitExceeded? && catalog.sizeOf(cmd.contextPayload) > ONE_MIB)
    || (e.InstanceNotFound? && cmd.workflowInstanceId !in st.ledgers)
    || (cmd.workflowInstanceId in st.ledgers
        && RevisionFaultOf(catalog, st.directory, st.ledgers[cmd.workflowInstanceId], cmd, e))
  }

  /** A revision by another principal than the creator is told that the principal does not exist. */
  ghost predicate RevisionFaultOf(catalog: Catalog, d: Directory, l: Ledger, cmd: ReviseCommand, e: CommandError) {
    || (e.PrincipalNotFound? && l.instance.createdByPrincipalId != cmd.principalId)
    || IsConflict(l, cmd.expectedVersion, e) || VersionFault(d, l.instance.definitionVersionId, e)
    || (e.CurrentNodeNotDraft? && exists v :: IsCurrentVisit(l, v) && !v.nodeType.DRAFT?)
    || (e.ContextValidationFailed?
        && !Satisfies(catalog, GraphOf(catalog, l.instance.definitionVersionId).contextSchema, cmd.contextPayload))
  }

  /** What is wrong with `t` as a step from the visit. */
  ghost predicate IsUnfit(g: WorkflowGraph, v: VisitFact, t: TransitionDefinition, detail: Detail) {
    || (detail.SourceMismatch? && t.sourceNodeId != v.nodeId)
    || (t.sourceNodeId == v.nodeId
        && exists source :: IsNodeOf(g, source, v.nodeId) && IsUnfitFrom(g, source, t, detail))
  }

  ghost predicate IsUnfitFrom(g: WorkflowGraph, source: NodeDefinition, t: TransitionDefinition, detail: Detail) {
    || (detail.NotPrimary? && t.transitionEffect.ADVANCE? && source.primaryAdvanceTransitionId != Some(t.transitionId))
    || (detail.PrimaryMisuse? && !t.transitionEffect.ADVANCE? && source.primaryAdvanceTransitionId == Some(t.transitionId))
    || (exists target :: IsNodeOf(g, target, t.targetNodeId) && IsUnfitTo(source, t, target, detail))
  }

  predicate IsUnfitTo(source: NodeDefinition, t: TransitionDefinition, target: NodeDefinition, detail: Detail) {
    || (detail.TargetTerminal? && t.transitionEffect.RETURN? && target.nodeType.TERMINAL?)
    || (detail.TargetNotEarlier? && t.transitionEffect.RETURN? && target.orderIndex >= source.orderIndex)
    || (detail.TargetNotTerminal? && t.transitionEffect.TERMINATE? && !target.nodeType.TERMINAL?)
  }

  /** What is wrong with the submission for `t`. */
  predicate SubmissionFault(catalog: Catalog, l: Ledger, t: TransitionDefinition, payload: Option<Json>, e: CommandError) {
    || (e.SubmissionRequired? && payload.None? && t.submissionSchema.Some?)
    || (e.SizeLimitExceeded? && payload.Some? && catalog.sizeOf(payload.value) > ONE_MIB)
    || (e.SubmissionValidationFailed? && payload.Some? && !Satisfies(catalog, t.submissionSchema, payload.value))
    || (e.InvalidReturnReferences? && payload.Some? && t.transitionEffect.RETURN? && !IsLawfulReturn(l, payload.value))
  }

  /** What is wrong with taking `t` from the visit with the submission. */
  ghost predicate StepFault(catalog: Catalog, d: Directory, l: Ledger, v: VisitFact, t: TransitionDefinition, payload: Option<Json>,
                            e: CommandError)
  {
    var g := GraphOf(catalog, l.instance.definitionVersionId);
    || (e.TransitionNotApplicable? && IsUnfit(g, v, t, e.detail)) || SubmissionFault(catalog, l, t, payload, e)
    || (e == InternalConsistency(NoPrimary) && t.transitionEffect.ADVANCE?
        && exists source :: IsNodeOf(g, source, v.nodeId) && source.primaryAdvanceTransitionId.None?)
    || (e == InternalConsistency(MissingNode) && forall target :: !IsNodeOf(g, target, t.targetNodeId))
    || (e.AssigneeResolutionFailed?
        && exists target :: IsNodeOf(g, target, t.targetNodeId) && !target.nodeType.TERMINAL?
                            && FindsNobody(d, target.assigneeRef, l.instance.domainId, e.detail))
  }

  /** The transition that the command names is missing, or taking it is wrong. */
  ghost predicate NamedStepFault(catalog: Catalog, d: Directory, l: Ledger, v: VisitFact, transitionId: Uuid, payload: Option<Json>,
                                 e: CommandError)
  {
    var transitions := GraphOf(catalog, l.instance.definitionVersionId).transitions;
    || (e == TransitionNotApplicable(UnknownTransition) && forall t :: t in transitions ==> t.transitionId != transitionId)
    || exists t :: t in transitions && t.transitionId == transitionId && StepFault(catalog, d, l, v, t, payload, e)
  }

  ghost predicate TransitionFault(catalog: Catalog, st: DbState, cmd: TransitionCommand, e: CommandError) {
    || PrincipalFault(st.directory, cmd.principalId, e)
    || (e.InstanceNotFound? && cmd.workflowInstanceId !in st.ledgers)
    || (cmd.workflowInstanceId in st.ledgers
        && TransitionFaultOf(catalog, st.directory, st.ledgers[cmd.workflowInstanceId], cmd, e))
  }

  ghost predicate TransitionFaultOf(catalog: Catalog, d: Directory, l: Ledger, cmd: TransitionCommand, e: CommandError) {
    || IsConflict(l, cmd.expectedVersion, e) || VersionFault(d, l.instance.definitionVersionId, e)
    || exists v :: IsCurrentVisit(l, v)
         && (|| (e.SourceNodeTerminal? && v.nodeType.TERMINAL?)
             || (e.PrincipalNotAssignee? && v.assigneePrincipalId != Some(cmd.principalId))
             || NamedStepFault(catalog, d, l, v, cmd.transitionId, cmd.submissionPayload, e))
  }

  ghost predicate CombinationFault(catalog: Catalog, st: DbState, cmd: CombinedCommand, e: CommandError) {
    || PrincipalFault(st.directory, cmd.principalId, e)
    || (e.InstanceNotFound? && cmd.workflowInstanceId !in st.ledgers)
    || (e.SizeLimitExceeded?
        && (catalog.sizeOf(cmd.contextPayload) > ONE_MIB || catalog.sizeOf(cmd.submissionPayload) > ONE_MIB))
    || (cmd.workflowInstanceId in st.ledgers
        && CombinationFaultOf(catalog, st.directory, st.ledgers[cmd.workflowInstanceId], cmd, e))
  }

  /** Here only an ADVANCE along the primary transition will do. */
  ghost predicate CombinationFaultOf(catalog: Catalog, d: Directory, l: Ledger, cmd: CombinedCommand, e: CommandError) {
    var g := GraphOf(catalog, l.instance.definitionVersionId);
    || IsConflict(l, cmd.expectedVersion, e) || VersionFault(d, l.instance.definitionVersionId, e)
    || (e.PrincipalNotCreator? && l.instance.createdByPrincipalId != cmd.principalId)
    || (e.ContextValidationFailed? && !Satisfies(catalog, g.contextSchema, cmd.contextPayload))
    || exists v :: IsCurrentVisit(l, v) && CombinationFaultAt(catalog, d, l, v, cmd, e)
  }

  ghost predicate CombinationFaultAt(catalog: Catalog, d: Directory, l: Ledger, v: VisitFact, cmd: CombinedCommand,
                                     e: CommandError)
  {
    || (e.CurrentNodeNotDraft? && !v.nodeType.DRAFT?)
    || (e.PrincipalNotAssignee? && v.assigneePrincipalId != Some(cmd.principalId))
    || (e == TransitionNotApplicable(NotPrimary)
        && IsNotPrimary(GraphOf(catalog, l.instance.definitionVersionId), v, cmd.transitionId))
    || NamedStepFault(catalog, d, l, v, cmd.transitionId, Some(cmd.submissionPayload), e)
  }

  ghost predicate IsNotPrimary(g: WorkflowGraph, v: VisitFact, transitionId: Uuid) {
    exists t: TransitionDefinition, source: NodeDefinition ::
      && t in g.transitions && t.transitionId == transitionId && IsNodeOf(g, source, v.nodeId)
      && !(t.transitionEffect.ADVANCE? && source.primaryAdvanceTransitionId == Some(transitionId))
  }

  /** Why an administrator is not let in, or expects another snapshot than there is. */
  predicate AdministrationFault(catalog: Catalog, st: DbState, id: Uuid, principalId: Uuid, expected: Option<Digest>,
                                e: CommandError)
  {
    || PrincipalFault(st.directory, principalId, e)
    || (e.PrincipalTypeNotAllowed? && !IsHumanOrAgent(catalog, principalId))
    || (e.PermissionDenied?
        && (id !in st.ledgers || !HasRole(st.directory, st.ledgers[id].instance.domainId, principalId, WORKFLOW_ADMIN)))
    || (e == InternalConsistency(MissingVersion) && id in st.ledgers
        && st.ledgers[id].instance.definitionVersionId !in st.directory.versionStatus)
    || (e.InvalidInput? && expected == Some(EmptyDigest))
    || (e.BeforeSnapshotDigestMismatch? && id in st.ledgers && Some(e.expectedDigest) == expected
        && e.expectedDigest != e.actualDigest == RowDigest(st.ledgers[id].instance))
  }

  ghost predicate OverrideFault(catalog: Catalog, st: DbState, cmd: OverrideCommand, e: CommandError) {
    || AdministrationFault(catalog, st, cmd.workflowInstanceId, cmd.principalId, cmd.expectedBeforeSnapshotDigest, e)
    || (e.InvalidInput? && !(IsBoundedReason(cmd.reason) && AreBoundedReferences(cmd.relatedReferences)))
    || (cmd.workflowInstanceId in st.ledgers && MoveFault(catalog, st.directory, st.ledgers[cmd.workflowInstanceId], cmd, e))
  }

  /** What is wrong with the move that the command asks for. */
  ghost predicate MoveFault(catalog: Catalog, d: Directory, l: Ledger, cmd: OverrideCommand, e: CommandError) {
    var g := GraphOf(catalog, l.instance.definitionVersionId);
    || IsConflict(l, cmd.expectedVersion, e)
    || (e == InternalConsistency(Overflow) && l.instance.projection.workflowStateVersion == I32_MAX)
    || (e == InvalidTarget(DraftVersion) && HasStatus(d, l.instance.definitionVersionId, Draft))
    || (e == InvalidTarget(MissingNode) && forall target :: !IsNodeOf(g, target, cmd.targetNodeId))
    || exists target :: IsNodeOf(g, target, cmd.targetNodeId)
         && (|| (e == InvalidTarget(TargetNotTerminal) && cmd.operation.TERMINATE_INSTANCE? && !target.nodeType.TERMINAL?)
             || (e == InvalidTarget(TargetTerminal) && cmd.operation.MOVE_TO_NODE? && target.nodeType.TERMINAL?)
             || (e.AssigneeResolutionFailed? && !target.nodeType.TERMINAL?
                 && FindsNobodyForAdmin(d, target.assigneeRef, l.instance.createdByPrincipalId, l.instance.domainId, e.detail)))
  }

  ghost predicate IsFault(catalog: Catalog, st: DbState, call: Call, e: CommandError) {
    match call
    case Create(c) => CreationFault(catalog, st.directory, c, e)
    case Import(c) => ImportFault(catalog, st, c, e)
    case Revise(c) => RevisionFault(catalog, st, c, e)
    case Transition(c) => TransitionFault(catalog, st, c, e)
    case Combined(c) => CombinationFault(catalog, st, c, e)
    case Override(c) => OverrideFault(catalog, st, c, e)
    case Rebuild(c) => AdministrationFault(catalog, st, c.workflowInstanceId, c.principalId, c.expectedBeforeSnapshotDigest, e)
  }

  /** The failures that are stored as a receipt; the others roll everything back. */
  predicate LeavesReceipt(call: Call, e: CommandError) {
    match call
    case Create(_) => !e.InternalConsistency? && !e.StorageError?
    case Import(_) => !e.StorageError?
    case Revise(_) => !e.StorageError? && !e.InstanceNotFound? && !e.CurrentNodeNotDraft?
    case Transition(_) => !e.StorageError? && !e.InternalConsistency?
    case Combined(_) => !e.StorageError?
    case Override(_) => !e.StorageError? && e != InternalConsistency(MissingVersion)
    case Rebuild(_) => !e.StorageError? && e != InternalConsistency(MissingVersion)
  }

  /** What fails before the transaction begins, and leaves no receipt either. */
  predicate EndsEarly(catalog: Catalog, d: Directory, call: Call) {
    || PrincipalOf(call) !in d.principals
    || (call.Revise?
        && (!Active(d, call.revise.principalId) || catalog.sizeOf(call.revise.contextPayload) > ONE_MIB))
  }

  /** The receipt of the request, completed with the failure. */
  predicate IsFailureReceipt(receipt: Receipt, r: Request, ids: FreshIds, e: CommandError) {
    && receipt.commandId == ids.commandId && receipt.principalId == PrincipalOf(r.call) && receipt.key == KeyOf(r)
    && receipt.commandType == TypeOf(r.call) && receipt.requestHash == HashOf(r) && receipt.status.COMPLETED?
    && receipt.responseStatus == Some(StatusCode(e)) && receipt.responseBody == Some(FailureBodyOf(r.call, e))
    && receipt.responseDigest.Some?
    && receipt.responseDigest.value
       == if r.call.Revise? && receipt.responseBody.value.FailureBody? then OfLabel(receipt.responseBody.value.errorLabel)
          else OfBody(receipt.responseBody.value)
  }

  // ----- Lookups that find nothing -----

  lemma NoNode(catalog: Catalog, versionId: Uuid, nodeId: Uuid)
    ensures NodeOf(catalog, versionId, nodeId).None? ==> forall n :: !IsNodeOf(GraphOf(catalog, versionId), n, nodeId)
    ensures NodeOf(catalog, versionId, nodeId).Some? ==>
              IsNodeOf(GraphOf(catalog, versionId), NodeOf(catalog, versionId, nodeId).value, nodeId)
  {
    hide NodesById, GraphOf;
  }

  lemma NoTransition(catalog: Catalog, versionId: Uuid, transitionId: Uuid)
    ensures TransitionOf(catalog, versionId, transitionId).None? ==>
              forall t :: t in GraphOf(catalog, versionId).transitions ==> t.transitionId != transitionId
  {
    hide TransitionsById, GraphOf;
  }

  lemma NobodyFound(d: Directory, target: NodeDefinition, creatorId: Uuid, domainId: Uuid)
    ensures var v := ResolveAssignee(d, target, creatorId, domainId);
      !v.Go? ==>
        && !target.nodeType.TERMINAL? && v.Refuse? && v.error.AssigneeResolutionFailed?
        && FindsNobody(d, target.assigneeRef, domainId, v.error.detail)
  {
    hide FirstHolder, FirstOwnerIsActive;
    FirstHolderIsFirst(d, BindingsOf(d, domainId));
  }

  // ----- Command by command -----

  lemma CreationRefused(catalog: Catalog, st: DbState, cmd: CreateCommand)
    requires KeyedCatalog(catalog)
    ensures var v := CheckCreate(Env(catalog, st.directory), cmd);
      !v.Go? ==>
        && CreationFault(catalog, st.directory, cmd, v.error)
        && (v.Refuse? <==> !v.error.InternalConsistency? && !v.error.StorageError?)
  {
    hide OfType, FirstHolder, FirstOwnerIsActive, UniqueNodeIds, UniqueTransitionIds, IsDraftOf, FindsNobody, ResolveRule;
    var env := Env(catalog, st.directory);
    if cmd.definitionVersionId in catalog.versions {
      var g := catalog.versions[cmd.definitionVersionId].graph;
      DraftIsOnlyDraft(g);
      if |OfType(g.nodes, DRAFT)| == 1 {
        var n := OfType(g.nodes, DRAFT)[0];
        assert IsDraftOf(g, n) && n.nodeType.DRAFT? by { DraftIsDraft(g, n); }
        NobodyFound(st.directory, n, cmd.principalId, cmd.domainId);
      }
    }
  }

  lemma DraftIsDraft(g: WorkflowGraph, n: NodeDefinition)
    requires |OfType(g.nodes, DRAFT)| == 1 && n == OfType(g.nodes, DRAFT)[0] && UniqueNodeIds(g.nodes)
    ensures IsDraftOf(g, n) && n.nodeType.DRAFT?
  {
    DraftIsOnlyDraft(g);
  }

  lemma RevisionRefused(catalog: Catalog, st: DbState, cmd: ReviseCommand)
    requires KeyedCatalog(catalog) && Inv(catalog, st)
    ensures var v := CheckRevise(Env(catalog, st.directory), st.ledgers, cmd);
      !v.Go? ==>
        && RevisionFault(catalog, st, cmd, v.error)
        && (v.Refuse? <==> !v.error.InstanceNotFound? && !v.error.CurrentNodeNotDraft?)
  {
    hide KeyedCatalog, Inv, CurrentVisit, CurrentContext, UniqueIds, GraphOf, IsCurrentVisit;
    if cmd.workflowInstanceId in st.ledgers {
      StoredInstance(catalog, st, cmd.workflowInstanceId);
    }
  }

  /** The checks on the instance and its current visit pass. */
  predicate ReachesStep(d: Directory, cmd: TransitionCommand, l: Ledger, v: VisitFact) {
    && HasPointers(l) && CurrentVisit(l) == Some(v) && cmd.expectedVersion == l.instance.projection.workflowStateVersion
    && !v.nodeType.TERMINAL? && IsEnabled(d, cmd.principalId) && v.assigneePrincipalId == Some(cmd.principalId)
    && VersionUsable(d, l.instance.definitionVersionId).Go?
  }

  lemma EffectRefused(g: WorkflowGraph, v: VisitFact, source: NodeDefinition, t: TransitionDefinition)
    requires IsNodeOf(g, source, v.nodeId) && t.sourceNodeId == v.nodeId
    ensures var r := EffectFits(source, t);
      !r.Go? ==>
        || (r.Refuse? && r.error.TransitionNotApplicable? && IsUnfit(g, v, t, r.error.detail))
        || (r == Abort(InternalConsistency(NoPrimary)) && t.transitionEffect.ADVANCE? && source.primaryAdvanceTransitionId.None?)
  {
    hide IsNodeOf;
  }

  lemma TargetRefused(g: WorkflowGraph, v: VisitFact, source: NodeDefinition, t: TransitionDefinition, target: NodeDefinition)
    requires IsNodeOf(g, source, v.nodeId) && IsNodeOf(g, target, t.targetNodeId) && t.sourceNodeId == v.nodeId
    ensures var r := TargetFits(source, t, target);
      !r.Go? ==> r.Refuse? && r.error.TransitionNotApplicable? && IsUnfit(g, v, t, r.error.detail)
  {
    hide IsNodeOf;
    var r := TargetFits(source, t, target);
    if !r.Go? {
      assert IsUnfitTo(source, t, target, r.error.detail);
    }
  }

  lemma SubmissionRefused(catalog: Catalog, l: Ledger, t: TransitionDefinition, payload: Option<Json>)
    ensures var r := SubmissionFitsSchema(catalog, l, t, payload);
      !r.Go? ==> r.Refuse? && !r.error.InternalConsistency? && SubmissionFault(catalog, l, t, payload, r.error)
  {
    hide ReturnReferencesHold, IsLawfulReturn;
    if payload.Some? {
      ReturnsAgree(l, payload.value);
    }
  }

  lemma StepRefused(env: Env, ledgers: map<Uuid, Ledger>, cmd: TransitionCommand, v: VisitFact)
    requires cmd.workflowInstanceId in ledgers && ReachesStep(env.directory, cmd, ledgers[cmd.workflowInstanceId], v)
    requires NodeOf(env.catalog, ledgers[cmd.workflowInstanceId].instance.definitionVersionId, v.nodeId).Some?
    ensures var r, l := CheckTransition(env, ledgers, cmd), ledgers[cmd.workflowInstanceId];
      !r.Go? ==>
        && NamedStepFault(env.catalog, env.directory, l, v, cmd.transitionId, cmd.submissionPayload, r.error)
        && (r.Refuse? <==> !r.error.InternalConsistency?)
  {
    hide NodeOf, TransitionOf, GraphOf, CurrentVisit, VersionUsable, ResolveAssignee, FindsNobody, IsNodeOf, EffectFits, TargetFits,
         SubmissionFitsSchema, SubmissionFault, IsUnfitFrom;
    var l := ledgers[cmd.workflowInstanceId];
    var catalog, version := env.catalog, l.instance.definitionVersionId;
    var g := GraphOf(catalog, version);
    NoNode(catalog, version, v.nodeId);
    NoTransition(catalog, version, cmd.transitionId);
    var named := TransitionOf(catalog, version, cmd.transitionId);
    if named.Some? && named.value.sourceNodeId == v.nodeId {
      var source, t := NodeOf(catalog, version, v.nodeId).value, named.value;
      NoNode(catalog, version, t.targetNodeId);
      EffectRefused(g, v, source, t);
      SubmissionRefused(catalog, l, t, cmd.submissionPayload);
      hide IsUnfit;
      if NodeOf(catalog, version, t.targetNodeId).Some? {
        var target := NodeOf(catalog, version, t.targetNodeId).value;
        TargetRefused(g, v, source, t, target);
        NobodyFound(env.directory, target, l.instance.createdByPrincipalId, l.instance.domainId);
      }
    }
  }

  lemma StepNotReached(env: Env, st: DbState, cmd: TransitionCommand, v: VisitFact)
    requires env.directory == st.directory && cmd.workflowInstanceId in st.ledgers
    requires var l := st.ledgers[cmd.workflowInstanceId];
      HasPointers(l) && CurrentVisit(l) == Some(v) && IsCurrentVisit(l, v) && !ReachesStep(env.directory, cmd, l, v)
    ensures var r := CheckTransition(env, st.ledgers, cmd);
      !r.Go? && TransitionFault(env.catalog, st, cmd, r.error) && (r.Refuse? <==> !r.error.InternalConsistency?)
  {
    hide NodeOf, TransitionOf, EffectFits, TargetFits, SubmissionFitsSchema, ResolveAssignee, NamedStepFault, IsCurrentVisit,
         CurrentVisit;
  }

  lemma TransitionRefused(catalog: Catalog, st: DbState, cmd: TransitionCommand)
    requires KeyedCatalog(catalog) && Inv(catalog, st)
    ensures var v := CheckTransition(Env(catalog, st.directory), st.ledgers, cmd);
      !v.Go? ==> TransitionFault(catalog, st, cmd, v.error) && (v.Refuse? <==> !v.error.InternalConsistency?)
  {
    hide KeyedCatalog, Inv, CurrentVisit, CurrentContext, UniqueIds, GraphOf, IsCurrentVisit, NodeOf, CheckTransition, NamedStepFault,
         ReachesStep;
    var env := Env(catalog, st.directory);
    if cmd.workflowInstanceId in st.ledgers {
      StoredInstance(catalog, st, cmd.workflowInstanceId);
      var l := st.ledgers[cmd.workflowInstanceId];
      if ReachesStep(st.directory, cmd, l, CurrentVisit(l).value) {
        StepRefused(env, st.ledgers, cmd, CurrentVisit(l).value);
      } else {
        StepNotReached(env, st, cmd, CurrentVisit(l).value);
      }
    } else {
      MissingInstance(env, st.ledgers, cmd);
    }
  }

  // ----- The combined command -----

  /** The checks on the instance, its current visit and its creator pass. */
  predicate ReachesCombination(d: Directory, cmd: CombinedCommand, l: Ledger, v: VisitFact) {
    && HasPointers(l) && CurrentVisit(l) == Some(v) && CurrentContext(l).Some?
    && VersionUsable(d, l.instance.definitionVersionId).Go?
    && cmd.expectedVersion == l.instance.projection.workflowStateVersion && l.instance.createdByPrincipalId == cmd.principalId
    && v.assigneePrincipalId == Some(cmd.principalId) && v.nodeType.DRAFT? && IsEnabled(d, cmd.principalId)
  }

  lemma CombinationStepRefused(env: Env, st: DbState, cmd: CombinedCommand, v: VisitFact)
    requires env.directory == st.directory && cmd.workflowInstanceId in st.ledgers
    requires var l := st.ledgers[cmd.workflowInstanceId];
      && ReachesCombination(env.directory, cmd, l, v) && IsCurrentVisit(l, v)
      && NodeOf(env.catalog, l.instance.definitionVersionId, v.nodeId).Some?
    ensures var r := CheckCombined(env, st.ledgers, cmd);
      !r.Go? ==> CombinationFault(env.catalog, st, cmd, r.error) && r.Refuse?
  {
    hide NodeOf, TransitionOf, GraphOf, CurrentVisit, CurrentContext, VersionUsable, ResolveAssignee, FindsNobody, IsNodeOf,
         IsUnfitFrom, IsCurrentVisit;
    var l := st.ledgers[cmd.workflowInstanceId];
    var catalog, version := env.catalog, l.instance.definitionVersionId;
    NoNode(catalog, version, v.nodeId);
    NoTransition(catalog, version, cmd.transitionId);
    if TransitionOf(catalog, version, cmd.transitionId).Some? {
      var t := TransitionOf(catalog, version, cmd.transitionId).value;
      NoNode(catalog, version, t.targetNodeId);
      if NodeOf(catalog, version, t.targetNodeId).Some? {
        NobodyFound(env.directory, NodeOf(catalog, version, t.targetNodeId).value, l.instance.createdByPrincipalId,
                    l.instance.domainId);
      }
    }
  }

  lemma CombinationNotReached(env: Env, st: DbState, cmd: CombinedCommand, v: VisitFact)
    requires env.directory == st.directory && cmd.workflowInstanceId in st.ledgers
    requires var l := st.ledgers[cmd.workflowInstanceId];
      && HasPointers(l) && CurrentVisit(l) == Some(v) && CurrentContext(l).Some? && IsCurrentVisit(l, v)
      && !ReachesCombination(env.directory, cmd, l, v)
    ensures var r := CheckCombined(env, st.ledgers, cmd);
      !r.Go? && CombinationFault(env.catalog, st, cmd, r.error) && r.Refuse?
  {
    hide NodeOf, TransitionOf, ResolveAssignee, NamedStepFault, IsNotPrimary, IsCurrentVisit, CurrentVisit, CurrentContext, GraphOf,
         Satisfies;
  }

  lemma CombinationRefused(catalog: Catalog, st: DbState, cmd: CombinedCommand)
    requires KeyedCatalog(catalog) && Inv(catalog, st)
    ensures var v := CheckCombined(Env(catalog, st.directory), st.ledgers, cmd);
      !v.Go? ==> CombinationFault(catalog, st, cmd, v.error) && v.Refuse?
  {
    hide KeyedCatalog, Inv, CurrentVisit, CurrentContext, UniqueIds, GraphOf, IsCurrentVisit, NodeOf, CheckCombined,
         ReachesCombination, CombinationFaultOf;
    var env := Env(catalog, st.directory);
    if cmd.workflowInstanceId in st.ledgers {
      StoredInstance(catalog, st, cmd.workflowInstanceId);
      var l := st.ledgers[cmd.workflowInstanceId];
      if ReachesCombination(st.directory, cmd, l, CurrentVisit(l).value) {
        CombinationStepRefused(env, st, cmd, CurrentVisit(l).value);
      } else {
        CombinationNotReached(env, st, cmd, CurrentVisit(l).value);
      }
    } else {
      MissingCombined(env, st.ledgers, cmd);
    }
  }

  // ----- Administration -----

  lemma AdministratorRefused(env: Env, st: DbState, id: Uuid, principalId: Uuid, expected: Option<Digest>)
    requires env.directory == st.directory
    ensures var v := CheckAdmin(env, st.ledgers, id, principalId);
      !v.Go? ==>
        AdministrationFault(env.catalog, st, id, principalId, expected, v.error)
        && (v.Refuse? <==> v.error != InternalConsistency(MissingVersion))
  {
    hide RowDigest;
  }

  lemma DigestRefused(env: Env, st: DbState, id: Uuid, principalId: Uuid, expected: Option<Digest>)
    requires id in st.ledgers
    ensures var v := ExpectDigest(expected, SnapshotDigest(st.ledgers[id]));
      !v.Go? ==>
        AdministrationFault(env.catalog, st, id, principalId, expected, v.error) && v.Refuse? && !v.error.InternalConsistency?
  {
  }

  lemma RebuildRefused(catalog: Catalog, st: DbState, cmd: RebuildCommand)
    requires Inv(catalog, st)
    ensures var v := CheckRebuild(Env(catalog, st.directory), st, cmd);
      !v.Go? ==>
        AdministrationFault(catalog, st, cmd.workflowInstanceId, cmd.principalId, cmd.expectedBeforeSnapshotDigest, v.error)
        && (v.Refuse? <==> v.error != InternalConsistency(MissingVersion))
  {
    hide Inv, Coherent, LinkageHolds, Reconstruct, CheckAdmin, ExpectDigest, SnapshotDigest, AdministrationFault;
    var env := Env(catalog, st.directory);
    AdministratorRefused(env, st, cmd.workflowInstanceId, cmd.principalId, cmd.expectedBeforeSnapshotDigest);
    if CheckAdmin(env, st.ledgers, cmd.workflowInstanceId, cmd.principalId).Go? {
      AdministeredLedger(env, st.ledgers, cmd.workflowInstanceId, cmd.principalId);
      DigestRefused(env, st, cmd.workflowInstanceId, cmd.principalId, cmd.expectedBeforeSnapshotDigest);
      CoherentAt(catalog, st, cmd.workflowInstanceId);
      CoherentReconstructs(catalog, st.receipts, st.ledgers[cmd.workflowInstanceId]);
    }
  }

  lemma AdminTargetRefused(env: Env, l: Ledger, cmd: OverrideCommand, target: NodeDefinition)
    requires IsNodeOf(GraphOf(env.catalog, l.instance.definitionVersionId), target, cmd.targetNodeId)
    ensures var v := AdminTarget(env, l, cmd.operation, target);
      !v.Go? ==> MoveFault(env.catalog, env.directory, l, cmd, v.error) && v.Refuse? && !v.error.InternalConsistency?
  {
    hide FirstHolder, EnabledHolders, GraphOf, IsNodeOf;
    EnabledHoldersAre(env.directory, BindingsOf(env.directory, l.instance.domainId));
  }

  /** Where the checks of an override can end, once the administrator is let in. */
  lemma OverrideStages(env: Env, st: DbState, cmd: OverrideCommand, l: Ledger)
    requires CheckAdmin(env, st.ledgers, cmd.workflowInstanceId, cmd.principalId) == Go(l) && HasPointers(l)
    requires CurrentVisit(l).Some? && Reconstruct(env.catalog, st.receipts, l) == Some(l.instance.projection)
    requires l.instance.definitionVersionId in env.directory.versionStatus
    ensures var v := CheckOverride(env, st, cmd);
      var digest, target := ExpectDigest(cmd.expectedBeforeSnapshotDigest, SnapshotDigest(l)),
                            NodeOf(env.catalog, l.instance.definitionVersionId, cmd.targetNodeId);
      !v.Go? ==>
        || (v == Refuse(InvalidInput(BadInput)) && !AdminPayloadBounded(cmd.reason, cmd.relatedReferences))
        || (v == Refuse(InvalidTarget(DraftVersion)) && HasStatus(env.directory, l.instance.definitionVersionId, Draft))
        || (v.Refuse? && IsConflict(l, cmd.expectedVersion, v.error))
        || (!digest.Go? && v.error == digest.error && (v.Refuse? <==> digest.Refuse?))
        || (v == Refuse(InvalidTarget(MissingNode)) && target.None?)
        || (target.Some?
            && var move := AdminTarget(env, l, cmd.operation, target.value);
               !move.Go? && v.error == move.error && (v.Refuse? <==> move.Refuse?))
        || (v == Refuse(InternalConsistency(Overflow))
            && (MaxVisitNumber(l.visits, cmd.targetNodeId) >= I32_MAX || l.instance.projection.workflowStateVersion >= I32_MAX))
  {
    hide Reconstruct, CurrentVisit, NodeOf, AdminTarget, AdminPayloadBounded, MaxVisitNumber, CheckAdmin, ExpectDigest,
         SnapshotDigest;
  }

  lemma OverrideRefused(catalog: Catalog, st: DbState, cmd: OverrideCommand)
    requires KeyedCatalog(catalog) && Inv(catalog, st)
    ensures var v := CheckOverride(Env(catalog, st.directory), st, cmd);
      !v.Go? ==> OverrideFault(catalog, st, cmd, v.error) && (v.Refuse? <==> v.error != InternalConsistency(MissingVersion))
  {
    hide KeyedCatalog, Inv, Coherent, LinkageHolds, Reconstruct, CheckAdmin, CheckOverride, ExpectDigest, SnapshotDigest,
         AdministrationFault, NodeOf, GraphOf, AdminTarget, AdminPayloadBounded, IsBoundedReason, AreBoundedReferences,
         MaxVisitNumber, CurrentVisit, CurrentContext, UniqueIds, IsNodeOf, IsCurrentVisit, FindsNobodyForAdmin;
    var env, id := Env(catalog, st.directory), cmd.workflowInstanceId;
    AdministratorRefused(env, st, id, cmd.principalId, cmd.expectedBeforeSnapshotDigest);
    if CheckAdmin(env, st.ledgers, id, cmd.principalId).Go? {
      AdministeredLedger(env, st.ledgers, id, cmd.principalId);
      var l := st.ledgers[id];
      DigestRefused(env, st, id, cmd.principalId, cmd.expectedBeforeSnapshotDigest);
      CoherentAt(catalog, st, id);
      CoherentReconstructs(catalog, st.receipts, l);
      StoredInstance(catalog, st, id);
      OverrideStages(env, st, cmd, l);
      CountersBelowVersion(catalog, l, cmd.targetNodeId);
      VersionBounded(catalog, l);
      PayloadBoundsAgree(cmd.reason, cmd.relatedReferences);
      NoNode(catalog, l.instance.definitionVersionId, cmd.targetNodeId);
      if NodeOf(catalog, l.instance.definitionVersionId, cmd.targetNodeId).Some? {
        AdminTargetRefused(env, l, cmd, NodeOf(catalog, l.instance.definitionVersionId, cmd.targetNodeId).value);
      }
    } else {
      AdminErrorEnds(env, st, cmd);
    }
  }

  lemma AdminErrorEnds(env: Env, st: DbState, cmd: OverrideCommand)
    requires !CheckAdmin(env, st.ledgers, cmd.workflowInstanceId, cmd.principalId).Go?
    ensures var v, admin := CheckOverride(env, st, cmd), CheckAdmin(env, st.ledgers, cmd.workflowInstanceId, cmd.principalId);
      !v.Go? && v.error == admin.error && (v.Refuse? <==> admin.Refuse?)
  {
    hide CheckAdmin, Reconstruct, CurrentVisit, NodeOf, AdminTarget, AdminPayloadBounded, MaxVisitNumber, ExpectDigest;
  }

  // ----- Import -----

  lemma SnapshotRefused(catalog: Catalog, cmd: ImportCommand)
    ensures var v := CheckSnapshot(cmd); !v.Go? ==> SnapshotFault(catalog, cmd, v.error) && v.Refuse?
    ensures var v := CheckDomainKey(catalog, cmd); !v.Go? ==> SnapshotFault(catalog, cmd, v.error) && v.Refuse?
  {
    hide GraphOf, IsNodeOf;
  }

  lemma ImportAccessRefused(env: Env, st: DbState, cmd: ImportCommand)
    requires env.directory == st.directory
    ensures var v := CheckImportAccess(env, cmd); !v.Go? ==> ImportFault(env.catalog, st, cmd, v.error) && v.Refuse?
    ensures CheckImportAccess(env, cmd).Go? ==>
              IsNodeOf(GraphOf(env.catalog, cmd.definitionVersionId), CheckImportAccess(env, cmd).value, cmd.importedNodeId)
  {
    hide NodeOf, IsSole, Holders, GraphOf, IsNodeOf, CheckSnapshot, CheckDomainKey, IsImportAssignee, IsImportCreator;
    SnapshotRefused(env.catalog, cmd);
    OneHolder(DomainBindings(env.directory, cmd.domainId), cmd.principalId, WORKFLOW_MIGRATION);
    NoNode(env.catalog, cmd.definitionVersionId, cmd.importedNodeId);
  }

  lemma OwnerRefused(env: Env, domainId: Uuid)
    ensures var v := SoleOwner(env, domainId);
      !v.Go? ==>
        && v.Refuse? && v.error.CreatorResolutionFailed?
        && forall p ::
             !(IsSole(DomainBindings(env.directory, domainId), p, DOMAIN_OWNER_ROLE) && CanOwnWork(env.catalog, env.directory, p))
  {
    hide IsSole, SoleOwner, CanOwnWork;
    forall p: Uuid
      ensures SoleOwner(env, domainId) == Go(p)
         <==> IsSole(DomainBindings(env.directory, domainId), p, DOMAIN_OWNER_ROLE) && CanOwnWork(env.catalog, env.directory, p)
    {
      SoleOwnerIs(env, domainId, p);
    }
    OwnerErrors(env, domainId);
  }

  lemma OwnerErrors(env: Env, domainId: Uuid)
    ensures !SoleOwner(env, domainId).Go? ==> SoleOwner(env, domainId) == Refuse(CreatorResolutionFailed(NoOwner))
  {
    hide Holders;
  }

  lemma ImportRefused(catalog: Catalog, st: DbState, cmd: ImportCommand)
    ensures var v := CheckImport(Env(catalog, st.directory), st.ledgers, cmd);
      !v.Go? ==> ImportFault(catalog, st, cmd, v.error) && v.Refuse?
  {
    hide CheckImportAccess, GraphOf, IsNodeOf, SoleOwner, IsSole, IsImportAssignee, IsImportCreator, SnapshotFault, CanOwnWork,
         ImportCreator, ImportAssignee, IsHumanOrAgent;
    var env := Env(catalog, st.directory);
    ImportAccessRefused(env, st, cmd);
    OwnerRefused(env, cmd.domainId);
    ImportOwnersRefused(env, cmd);
    if CheckImportAccess(env, cmd).Go? && ImportCreator(env, cmd).Go? {
      var n, p := CheckImportAccess(env, cmd).value, ImportCreator(env, cmd).value.0;
      ImportCreatorIs(env, cmd, p);
      ImportAssigneeIs(env, cmd, n, p);
      ImportAssigneeRefused(env, cmd, n, p);
    }
  }

  lemma ImportOwnersRefused(env: Env, cmd: ImportCommand)
    ensures !ImportCreator(env, cmd).Go? ==>
              ImportCreator(env, cmd) == Refuse(CreatorResolutionFailed(NoOwner)) && !SoleOwner(env, cmd.domainId).Go?
  {
    hide SoleOwner;
    OwnerErrors(env, cmd.domainId);
  }

  lemma ImportAssigneeRefused(env: Env, cmd: ImportCommand, n: NodeDefinition, creatorId: Uuid)
    ensures var v := ImportAssignee(env, cmd, n, creatorId);
      !v.Go? ==>
        && v.Refuse?
        && (v.error.AssigneeResolutionFailed?
            || (v.error == CreatorResolutionFailed(NoOwner) && !SoleOwner(env, cmd.domainId).Go?))
  {
    hide SoleOwner, FirstHolder;
    OwnerErrors(env, cmd.domainId);
  }

  // ----- Every command -----

  lemma NoStorageFault(catalog: Catalog, st: DbState, call: Call, e: CommandError)
    requires IsFault(catalog, st, call, e) && !call.Create?
    ensures !e.StorageError?
  {
    hide IsUnfit, FindsNobody, FindsNobodyForAdmin, IsLawfulReturn, HasRole, IsHumanOrAgent, RowDigest, IsSole, CanOwnWork,
         IsImportCreator, IsImportAssignee, IsNodeOf, IsCurrentVisit, GraphOf, IsNotPrimary, IsBoundedReason, AreBoundedReferences;
  }

  lemma DecisionRefused(catalog: Catalog, st: DbState, call: Call, ids: FreshIds)
    requires KeyedCatalog(catalog) && Inv(catalog, st)
    ensures var v := Decide(Env(catalog, st.directory), st, call, ids);
      !v.Go? ==> IsFault(catalog, st, call, v.error) && (v.Refuse? <==> LeavesReceipt(call, v.error))
  {
    hide KeyedCatalog, Inv, CheckCreate, CheckImport, CheckRevise, CheckTransition, CheckCombined, CheckOverride, CheckRebuild,
         CreationFault, ImportFault, RevisionFault, TransitionFault, CombinationFault, OverrideFault, AdministrationFault;
    match call {
      case Create(c) => CreationRefused(catalog, st, c);
      case Import(c) => ImportRefused(catalog, st, c);
      case Revise(c) => RevisionRefused(catalog, st, c);
      case Transition(c) =>
        TransitionRefused(catalog, st, c);
        TransitionHasPointers(Env(catalog, st.directory), st, c);
      case Combined(c) => CombinationRefused(catalog, st, c);
      case Override(c) => OverrideRefused(catalog, st, c);
      case Rebuild(c) => RebuildRefused(catalog, st, c);
    }
    var v := Decide(Env(catalog, st.directory), st, call, ids);
    if !v.Go? && !call.Create? {
      NoStorageFault(catalog, st, call, v.error);
    }
  }

  lemma PrecheckRefused(catalog: Catalog, st: DbState, call: Call)
    ensures var early := Precheck(Env(catalog, st.directory), call);
      && (early.Some? <==> EndsEarly(catalog, st.directory, call))
      && (early.Some? ==> IsFault(catalog, st, call, early.value))
  {
    hide CreationFault, ImportFault, RevisionFaultOf, TransitionFault, CombinationFault, OverrideFault, AdministrationFault;
    if PrincipalOf(call) !in st.directory.principals {
      PrincipalsRefused(catalog, st, call, PrincipalNotFound);
    }
  }

  lemma PrincipalsRefused(catalog: Catalog, st: DbState, call: Call, e: CommandError)
    requires PrincipalFault(st.directory, PrincipalOf(call), e)
    ensures IsFault(catalog, st, call, e)
  {
    hide RevisionFaultOf, TransitionFaultOf, CombinationFaultOf, MoveFault, SnapshotFault, RowDigest;
  }

  /** How a request with an unused key fails: early, by a rollback, or with a stored refusal. */
  lemma FailedExecution(catalog: Catalog, st: DbState, r: Request, ids: FreshIds)
    requires Unused(st, r, ids) && !Execute(catalog, st, r, ids).1.Executed?
    ensures var env, done := Env(catalog, st.directory), Execute(catalog, st, r, ids);
      var early, v := Precheck(env, r.call), Decide(env, st, r.call, ids);
      && done.1.Failed?
      && if early.Some? then done == (st, Failed(early.value))
         else if v.Go? then done == (st, Failed(StorageError(ConstraintViolation)))
         else if v.Abort? then done == (st, Failed(v.error))
         else
           && done.1.error == v.error && done.0.ledgers == st.ledgers && done.0.directory == st.directory
           && |done.0.receipts| == |st.receipts| + 1 && done.0.receipts[..|st.receipts|] == st.receipts
           && IsFailureReceipt(done.0.receipts[|st.receipts|], r, ids, v.error)
  {
    hide Decide, FindReceipt, FindCommand, Precheck, StatusCode, FailureBodyOf, WriteFits, ApplyWrite, FreshEvent;
  }

  /**
   Failures are true: in every state of every run, a request with an unused key that does not execute changes no
   instance, and its error is the case: it names a rule that the rows of the state break, or the transaction was
   rolled back for an id that is in use or a version counter at its end. Exactly the failures told above are
   stored as a receipt.
   */
  lemma FailuresAreTrue(catalog: Catalog, run: seq<DbState>, actions: seq<Action>, i: nat, r: Request, ids: FreshIds)
    requires KeyedCatalog(catalog) && IsRun(catalog, run, actions) && i < |run| && Unused(run[i], r, ids)
    ensures var st, (after, outcome) := run[i], Execute(catalog, run[i], r, ids);
      !outcome.Executed? ==>
        && outcome.Failed? && after.ledgers == st.ledgers && after.directory == st.directory
        && (IsFault(catalog, st, r.call, outcome.error)
            || (outcome.error == StorageError(ConstraintViolation)
                && !(RowIdsUnused(st.ledgers, ids) && HasNextVersion(st, r.call))))
        && if !EndsEarly(catalog, st.directory, r.call) && LeavesReceipt(r.call, outcome.error)
           then
             && |after.receipts| == |st.receipts| + 1 && after.receipts[..|st.receipts|] == st.receipts
             && IsFailureReceipt(after.receipts[|st.receipts|], r, ids, outcome.error)
           else after.receipts == st.receipts
  {
    hide KeyedCatalog, IsRun, Inv, Execute, Decide, Precheck, Unused, RowIdsUnused, HasNextVersion, IsFault, LeavesReceipt,
         EndsEarly, IsFailureReceipt;
    if !Execute(catalog, run[i], r, ids).1.Executed? {
      RunKeepsInv(catalog, run, actions, i);
      FailedExecution(catalog, run[i], r, ids);
      PrecheckRefused(catalog, run[i], r.call);
      DecisionRefused(catalog, run[i], r.call, ids);
      NoRollbackReceipt(r.call);
      if RowIdsUnused(run[i].ledgers, ids) && HasNextVersion(run[i], r.call) {
        PassedChecksCommit(catalog, run, actions, i, r, ids);
      }
    }
  }

  lemma NoRollbackReceipt(call: Call)
    ensures !LeavesReceipt(call, StorageError(ConstraintViolation))
  {
  }

  // ----- Repeats -----

  /** The import's snapshot, names and service are in order: everything before its payload. */
  ghost predicate LawfulImportAccess(catalog: Catalog, d: Directory, cmd: ImportCommand) {
    && LawfulSnapshot(catalog, cmd) && IsOpenDomain(d, cmd.domainId)
    && IsMigrationService(catalog, d, cmd.domainId, cmd.principalId)
    && cmd.definitionVersionId in catalog.versions && catalog.versions[cmd.definitionVersionId].domainId == cmd.domainId
    && IsPublishedVersion(d, cmd.definitionVersionId)
    && exists n :: IsNodeOf(GraphOf(catalog, cmd.definitionVersionId), n, cmd.importedNodeId) && n.nodeKey == cmd.currentStep
  }

  /** Who is answered from an old receipt: administrators and migration services have to be entitled still. */
  ghost predicate MayAskAgain(catalog: Catalog, st: DbState, call: Call) {
    && !EndsEarly(catalog, st.directory, call)
    && match call
       case Override(c) => LawfulAdministration(catalog, st.directory, st.ledgers, c.workflowInstanceId, c.principalId)
       case Rebuild(c) => LawfulAdministration(catalog, st.directory, st.ledgers, c.workflowInstanceId, c.principalId)
       case Import(c) => LawfulImportAccess(catalog, st.directory, c)
       case _ => true
  }

  lemma ImportAccessIff(catalog: Catalog, d: Directory, cmd: ImportCommand)
    requires KeyedCatalog(catalog)
    ensures CheckImportAccess(Env(catalog, d), cmd).Go? <==> LawfulImportAccess(catalog, d, cmd)
  {
    hide KeyedCatalog, CheckImportAccess, NodeOf, LawfulSnapshot, IsMigrationService, IsOpenDomain;
    ImportAccessAdmitted(Env(catalog, d), cmd);
    NoNode(catalog, cmd.definitionVersionId, cmd.importedNodeId);
    forall n | IsNodeOf(GraphOf(catalog, cmd.definitionVersionId), n, cmd.importedNodeId)
      ensures NodeOf(catalog, cmd.definitionVersionId, cmd.importedNodeId) == Some(n)
    {
      NodeIsLookup(catalog, cmd.definitionVersionId, n);
    }
  }

  /**
   A request whose key owns a receipt is denied before the receipt is looked at exactly if it ends early or its
   administrator or migration service is not entitled now; the error then is the case.
   */
  lemma RepeatsAreRechecked(catalog: Catalog, st: DbState, r: Request, ids: FreshIds)
    requires KeyedCatalog(catalog) && Owned(st, r).Some?
    ensures DeniedNow(catalog, st, r).None? <==> MayAskAgain(catalog, st, r.call)
    ensures Execute(catalog, st, r, ids).0 == st
    ensures !MayAskAgain(catalog, st, r.call) ==>
              var outcome := Execute(catalog, st, r, ids).1; outcome.Failed? && IsFault(catalog, st, r.call, outcome.error)
  {
    hide KeyedCatalog, Execute, Owned, Precheck, EndsEarly, CheckAdmin, CheckImportAccess, LawfulAdministration, LawfulImportAccess,
         ImportFault, AdministrationFault, MoveFault;
    OwnedKeyWritesNothing(catalog, st, r, ids);
    PrecheckRefused(catalog, st, r.call);
    match r.call
    case Override(c) =>
      AdministratorAdmitted(Env(catalog, st.directory), st.ledgers, c.workflowInstanceId, c.principalId);
      AdministratorRefused(Env(catalog, st.directory), st, c.workflowInstanceId, c.principalId, c.expectedBeforeSnapshotDigest);
    case Rebuild(c) =>
      AdministratorAdmitted(Env(catalog, st.directory), st.ledgers, c.workflowInstanceId, c.principalId);
      AdministratorRefused(Env(catalog, st.directory), st, c.workflowInstanceId, c.principalId, c.expectedBeforeSnapshotDigest);
    case Import(c) =>
      ImportAccessIff(catalog, st.directory, c);
      ImportAccessRefused(Env(catalog, st.directory), st, c);
    case _ =>
  }
}
