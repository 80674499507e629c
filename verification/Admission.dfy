/**
 When a request executes: for each command the rules that it has to meet, over the rows that it reads,
 and in every reachable state the request executes exactly when it meets them.
 */
module Admission {
  import opened Prelude
  import opened DefinitionModel
  import opened GraphRules
  import opened GraphProgress
  import opened RuntimeModel
  import opened KernelState
  import opened EventReplay
  import opened Snapshot
  import opened Commands
  import opened Pipeline
  import opened Agreement
  import opened WriterAgreement
  import opened ReplayMeaning
  import opened QueryConsistency
  import opened KernelRuns
  import opened ReadSide
  import opened Availability
  import opened Idempotency
  import opened Concurrency
  import opened Fusion
  import opened Commits
  import opened Rules
  import opened Resolution

  // ----- Rows and lookups -----

  lemma NodeIsLookup(catalog: Catalog, versionId: Uuid, n: NodeDefinition)
    requires KeyedCatalog(catalog)
    ensures IsNodeOf(GraphOf(catalog, versionId), n, n.nodeId) <==> NodeOf(catalog, versionId, n.nodeId) == Some(n)
  {
    hide NodesById;
    var nodes := GraphOf(catalog, versionId).nodes;
    if n in nodes {
      NodeIsItsLookup(nodes, n);
    }
  }

  lemma TransitionIsLookup(catalog: Catalog, versionId: Uuid, t: TransitionDefinition)
    requires KeyedCatalog(catalog)
    ensures t in GraphOf(catalog, versionId).transitions <==> TransitionOf(catalog, versionId, t.transitionId) == Some(t)
  {
    hide TransitionsById;
    var transitions := GraphOf(catalog, versionId).transitions;
    if t in transitions {
      TransitionIsItsLookup(transitions, t);
    }
  }

  lemma VisitIsLookup(l: Ledger, v: VisitFact)
    requires UniqueIds(l)
    ensures CurrentVisit(l) == Some(v) <==> IsCurrentVisit(l, v)
  {
    hide VisitsById;
    if IsCurrentVisit(l, v) {
      var found := VisitsById(l.visits)[v.nodeVisitId];
      var i, j :| 0 <= i < |l.visits| && l.visits[i] == v && 0 <= j < |l.visits| && l.visits[j] == found;
    }
  }

  // ----- Create -----

  ghost predicate LawfulCreation(catalog: Catalog, d: Directory, cmd: CreateCommand) {
    && catalog.sizeOf(cmd.contextPayload) <= ONE_MIB && catalog.sizeOf(cmd.metadata) <= 0x1_0000
    && cmd.definitionVersionId in catalog.versions && catalog.versions[cmd.definitionVersionId].domainId == cmd.domainId
    && IsPublishedVersion(d, cmd.definitionVersionId) && IsOpenDomain(d, cmd.domainId)
    && Active(d, cmd.principalId) && BelongsTo(d, cmd.domainId, cmd.principalId)
    && var g := catalog.versions[cmd.definitionVersionId].graph;
    && Satisfies(catalog, g.contextSchema, cmd.contextPayload)
    && exists n :: IsDraftOf(g, n) && Resolves(d, n.assigneeRef, cmd.domainId)
  }

  lemma CreationAdmitted(env: Env, cmd: CreateCommand)
    requires KeyedCatalog(env.catalog)
    ensures CheckCreate(env, cmd).Go? <==> LawfulCreation(env.catalog, env.directory, cmd)
  {
    hide OfType, FirstHolder, FirstOwnerIsActive, UniqueNodeIds, UniqueTransitionIds;
    if cmd.definitionVersionId in env.catalog.versions {
      var nodes := env.catalog.versions[cmd.definitionVersionId].graph.nodes;
      DraftIsOnlyDraft(env.catalog.versions[cmd.definitionVersionId].graph);
      if |OfType(nodes, DRAFT)| == 1 {
        ResolutionIsDesignation(env.directory, OfType(nodes, DRAFT)[0], cmd.principalId, cmd.domainId);
      }
    }
  }

  lemma DraftIsOnlyDraft(g: WorkflowGraph)
    requires UniqueNodeIds(g.nodes)
    ensures |OfType(g.nodes, DRAFT)| == 1 ==> forall n :: IsDraftOf(g, n) <==> n == OfType(g.nodes, DRAFT)[0]
    ensures |OfType(g.nodes, DRAFT)| != 1 ==> forall n :: !IsDraftOf(g, n)
  {
    var drafts := OfType(g.nodes, DRAFT);
    DraftCount(g.nodes);
    if |drafts| == 1 {
      assert drafts[0] in drafts;
    }
    if exists n :: IsDraftOf(g, n) {
      var n :| IsDraftOf(g, n);
      assert IsOnlyDraft(g.nodes, n);
    }
  }

  // ----- Revise -----

  predicate LawfulRevision(catalog: Catalog, st: DbState, cmd: ReviseCommand) {
    && cmd.workflowInstanceId in st.ledgers
    && var l := st.ledgers[cmd.workflowInstanceId];
    && l.instance.createdByPrincipalId == cmd.principalId && Active(st.directory, cmd.principalId)
    && cmd.expectedVersion == l.instance.projection.workflowStateVersion
    && IsLiveVersion(st.directory, l.instance.definitionVersionId)
    && (exists v :: v in l.visits && IsCurrentVisit(l, v) && v.nodeType.DRAFT?)
    && catalog.sizeOf(cmd.contextPayload) <= ONE_MIB
    && Satisfies(catalog, GraphOf(catalog, l.instance.definitionVersionId).contextSchema, cmd.contextPayload)
  }

  /** What a stored instance offers in every reachable state. */
  lemma StoredInstance(catalog: Catalog, st: DbState, id: Uuid)
    requires Inv(catalog, st) && id in st.ledgers
    ensures var l := st.ledgers[id];
      && HasPointers(l) && UniqueIds(l)
      && CurrentVisit(l).Some? && IsCurrentVisit(l, CurrentVisit(l).value) && CurrentContext(l).Some?
      && NodeOf(catalog, l.instance.definitionVersionId, CurrentVisit(l).value.nodeId).Some?
      && NodeOf(catalog, l.instance.definitionVersionId, CurrentVisit(l).value.nodeId).value.nodeType
         == CurrentVisit(l).value.nodeType
  {
    hide Coherent, LinkageHolds, Inv, NodeOf, UniqueIds, ContextsById, VisitsById;
    var l := st.ledgers[id];
    CoherentAt(catalog, st, id);
    PointersStand(catalog, st, id);
    CurrentContextOf(catalog, l);
    CurrentVisitIsStored(l, CurrentVisit(l).value);
    StoredVisitJoins(catalog, l, CurrentVisit(l).value);
  }

  lemma StoredVisitJoins(catalog: Catalog, l: Ledger, v: VisitFact)
    requires Coherent(catalog, l) && v in l.visits
    ensures VisitJoins(catalog, l.instance, v)
  {
    hide FactsValid, Fold, Coupled, VisitJoins;
  }

  lemma RevisionAdmitted(catalog: Catalog, st: DbState, cmd: ReviseCommand)
    requires Inv(catalog, st)
    ensures var env := Env(catalog, st.directory);
      Precheck(env, Revise(cmd)).None? && CheckRevise(env, st.ledgers, cmd).Go? <==> LawfulRevision(catalog, st, cmd)
  {
    hide Inv, CurrentVisit, CurrentContext, UniqueIds, GraphOf;
    if cmd.workflowInstanceId in st.ledgers {
      var l := st.ledgers[cmd.workflowInstanceId];
      StoredInstance(catalog, st, cmd.workflowInstanceId);
      forall v | v in l.visits ensures CurrentVisit(l) == Some(v) <==> IsCurrentVisit(l, v) {
        VisitIsLookup(l, v);
      }
    }
  }

  // ----- Transition and the combined command -----

  /** A step from the visit, named by its transition, for which someone is designated. */
  ghost predicate LawfulStepFrom(catalog: Catalog, d: Directory, l: Ledger, v: VisitFact, t: TransitionDefinition) {
    var g := GraphOf(catalog, l.instance.definitionVersionId);
    && t in g.transitions && t.sourceNodeId == v.nodeId
    && exists source: NodeDefinition, target: NodeDefinition ::
         && IsNodeOf(g, source, v.nodeId) && IsNodeOf(g, target, t.targetNodeId) && IsLawfulStep(t, source, target)
         && (target.nodeType.TERMINAL? || Resolves(d, target.assigneeRef, l.instance.domainId))
  }

  ghost predicate LawfulTransition(catalog: Catalog, st: DbState, cmd: TransitionCommand) {
    && cmd.workflowInstanceId in st.ledgers
    && var l := st.ledgers[cmd.workflowInstanceId];
    && cmd.expectedVersion == l.instance.projection.workflowStateVersion
    && Active(st.directory, cmd.principalId) && IsLiveVersion(st.directory, l.instance.definitionVersionId)
    && exists v: VisitFact, t: TransitionDefinition ::
         && IsCurrentVisit(l, v) && !v.nodeType.TERMINAL? && v.assigneePrincipalId == Some(cmd.principalId)
         && t.transitionId == cmd.transitionId && LawfulStepFrom(catalog, st.directory, l, v, t)
         && IsLawfulSubmission(catalog, l, t, cmd.submissionPayload)
  }

  ghost predicate LawfulCombination(catalog: Catalog, st: DbState, cmd: CombinedCommand) {
    && cmd.workflowInstanceId in st.ledgers
    && var l := st.ledgers[cmd.workflowInstanceId];
    && cmd.expectedVersion == l.instance.projection.workflowStateVersion && l.instance.createdByPrincipalId == cmd.principalId
    && Active(st.directory, cmd.principalId) && IsLiveVersion(st.directory, l.instance.definitionVersionId)
    && catalog.sizeOf(cmd.contextPayload) <= ONE_MIB && catalog.sizeOf(cmd.submissionPayload) <= ONE_MIB
    && Satisfies(catalog, GraphOf(catalog, l.instance.definitionVersionId).contextSchema, cmd.contextPayload)
    && exists v: VisitFact, t: TransitionDefinition ::
         && IsCurrentVisit(l, v) && v.nodeType.DRAFT? && v.assigneePrincipalId == Some(cmd.principalId)
         && t.transitionId == cmd.transitionId && t.transitionEffect.ADVANCE?
         && LawfulStepFrom(catalog, st.directory, l, v, t)
         && Satisfies(catalog, t.submissionSchema, cmd.submissionPayload)
  }

  /** The step that the checks read is the lawful one. */
  lemma StepIsRead(catalog: Catalog, d: Directory, l: Ledger, v: VisitFact, source: NodeDefinition, t: TransitionDefinition,
                   target: NodeDefinition)
    requires KeyedCatalog(catalog)
    requires var version := l.instance.definitionVersionId;
      && NodeOf(catalog, version, v.nodeId) == Some(source) && NodeOf(catalog, version, t.targetNodeId) == Some(target)
      && TransitionOf(catalog, version, t.transitionId) == Some(t) && t.sourceNodeId == v.nodeId
    ensures LawfulStepFrom(catalog, d, l, v, t)
      <==> (&& EffectFits(source, t).Go? && TargetFits(source, t, target).Go?
            && ResolveAssignee(d, target, l.instance.createdByPrincipalId, l.instance.domainId).Go?)
  {
    hide KeyedCatalog, GraphOf, NodeOf, TransitionOf, ResolveAssignee, Resolves;
    var version := l.instance.definitionVersionId;
    var g := GraphOf(catalog, version);
    StepsAgree(t, source, target);
    ResolutionIsDesignation(d, target, l.instance.createdByPrincipalId, l.instance.domainId);
    NodeIsLookup(catalog, version, source);
    NodeIsLookup(catalog, version, target);
    forall n | n in g.nodes
      ensures n.nodeId == v.nodeId ==> n == source
      ensures n.nodeId == t.targetNodeId ==> n == target
    {
      NodeIsLookup(catalog, version, n);
    }
  }

  /** A lawful step is read as it is. */
  lemma LawfulStepIsRead(catalog: Catalog, d: Directory, l: Ledger, v: VisitFact, t: TransitionDefinition)
    requires KeyedCatalog(catalog) && LawfulStepFrom(catalog, d, l, v, t)
    ensures var version := l.instance.definitionVersionId;
      && NodeOf(catalog, version, v.nodeId).Some? && NodeOf(catalog, version, t.targetNodeId).Some?
      && TransitionOf(catalog, version, t.transitionId) == Some(t)
  {
    hide KeyedCatalog, GraphOf, NodeOf, TransitionOf, Resolves, IsLawfulStep;
    var version := l.instance.definitionVersionId;
    var g := GraphOf(catalog, version);
    TransitionIsLookup(catalog, version, t);
    var source: NodeDefinition, target: NodeDefinition :|
      IsNodeOf(g, source, v.nodeId) && IsNodeOf(g, target, t.targetNodeId) && IsLawfulStep(t, source, target);
    NodeIsLookup(catalog, version, source);
    NodeIsLookup(catalog, version, target);
  }

  /** What the checks of a transition pass, in terms of the rows that they read. */
  lemma TransitionChecks(env: Env, ledgers: map<Uuid, Ledger>, cmd: TransitionCommand, l: Ledger, v: VisitFact)
    requires cmd.workflowInstanceId in ledgers && ledgers[cmd.workflowInstanceId] == l && HasPointers(l)
    requires CurrentVisit(l) == Some(v)
    ensures CheckTransition(env, ledgers, cmd).Go? <==>
      var version := l.instance.definitionVersionId;
      && cmd.expectedVersion == l.instance.projection.workflowStateVersion && !v.nodeType.TERMINAL?
      && IsEnabled(env.directory, cmd.principalId) && v.assigneePrincipalId == Some(cmd.principalId)
      && VersionUsable(env.directory, version).Go?
      && var source, t := NodeOf(env.catalog, version, v.nodeId), TransitionOf(env.catalog, version, cmd.transitionId);
      && source.Some? && t.Some? && t.value.sourceNodeId == v.nodeId
      && var target := NodeOf(env.catalog, version, t.value.targetNodeId);
      && target.Some?
      && EffectFits(source.value, t.value).Go? && TargetFits(source.value, t.value, target.value).Go?
      && SubmissionFitsSchema(env.catalog, l, t.value, cmd.submissionPayload).Go?
      && ResolveAssignee(env.directory, target.value, l.instance.createdByPrincipalId, l.instance.domainId).Go?
  {
    hide CurrentVisit, NodeOf, TransitionOf, EffectFits, TargetFits, SubmissionFitsSchema, ResolveAssignee, VersionUsable;
  }

  lemma TransitionAdmitted(catalog: Catalog, st: DbState, cmd: TransitionCommand)
    requires KeyedCatalog(catalog) && Inv(catalog, st)
    ensures var env := Env(catalog, st.directory);
      CheckTransition(env, st.ledgers, cmd).Go? <==> LawfulTransition(catalog, st, cmd)
  {
    hide KeyedCatalog, Inv, CheckTransition, CurrentVisit, CurrentContext, UniqueIds, GraphOf, NodeOf, TransitionOf, EffectFits,
         TargetFits, SubmissionFitsSchema, ResolveAssignee, LawfulStepFrom, IsLawfulSubmission, IsCurrentVisit;
    var env, id := Env(catalog, st.directory), cmd.workflowInstanceId;
    if id !in st.ledgers {
      MissingInstance(env, st.ledgers, cmd);
      return;
    }
    var l := st.ledgers[id];
    var version := l.instance.definitionVersionId;
    StoredInstance(catalog, st, id);
    var v := CurrentVisit(l).value;
    TransitionChecks(env, st.ledgers, cmd, l, v);
    if CheckTransition(env, st.ledgers, cmd).Go? {
      var source, t := NodeOf(catalog, version, v.nodeId).value, TransitionOf(catalog, version, cmd.transitionId).value;
      StepIsRead(catalog, st.directory, l, v, source, t, NodeOf(catalog, version, t.targetNodeId).value);
      SubmissionsAgree(catalog, l, t, cmd.submissionPayload);
    }
    if LawfulTransition(catalog, st, cmd) {
      var v': VisitFact, t: TransitionDefinition :|
                   && IsCurrentVisit(l, v') && !v'.nodeType.TERMINAL? && v'.assigneePrincipalId == Some(cmd.principalId)
                   && t.transitionId == cmd.transitionId && LawfulStepFrom(catalog, st.directory, l, v', t)
                   && IsLawfulSubmission(catalog, l, t, cmd.submissionPayload);
      VisitIsLookup(l, v');
      LawfulStepIsRead(catalog, st.directory, l, v, t);
      StepIsSource(catalog, st.directory, l, v, t);
      StepIsRead(catalog, st.directory, l, v, NodeOf(catalog, version, v.nodeId).value, t,
                 NodeOf(catalog, version, t.targetNodeId).value);
      SubmissionsAgree(catalog, l, t, cmd.submissionPayload);
    }
  }

  lemma StepIsSource(catalog: Catalog, d: Directory, l: Ledger, v: VisitFact, t: TransitionDefinition)
    requires LawfulStepFrom(catalog, d, l, v, t)
    ensures t.sourceNodeId == v.nodeId
  {
  }

  lemma MissingInstance(env: Env, ledgers: map<Uuid, Ledger>, cmd: TransitionCommand)
    requires cmd.workflowInstanceId !in ledgers
    ensures CheckTransition(env, ledgers, cmd) == Refuse(InstanceNotFound)
  {
  }

  lemma CombinedChecks(env: Env, ledgers: map<Uuid, Ledger>, cmd: CombinedCommand, l: Ledger, v: VisitFact)
    requires cmd.workflowInstanceId in ledgers && ledgers[cmd.workflowInstanceId] == l && HasPointers(l)
    requires CurrentVisit(l) == Some(v) && CurrentContext(l).Some?
    ensures CheckCombined(env, ledgers, cmd).Go? <==>
      var version := l.instance.definitionVersionId;
      && VersionUsable(env.directory, version).Go? && cmd.expectedVersion == l.instance.projection.workflowStateVersion
      && l.instance.createdByPrincipalId == cmd.principalId && v.assigneePrincipalId == Some(cmd.principalId)
      && v.nodeType.DRAFT? && IsEnabled(env.directory, cmd.principalId)
      && var source, t := NodeOf(env.catalog, version, v.nodeId), TransitionOf(env.catalog, version, cmd.transitionId);
      && source.Some? && t.Some? && t.value.sourceNodeId == v.nodeId && t.value.transitionEffect.ADVANCE?
      && EffectFits(source.value, t.value).Go?
      && var target := NodeOf(env.catalog, version, t.value.targetNodeId);
      && target.Some?
      && env.catalog.sizeOf(cmd.contextPayload) <= MIB && env.catalog.sizeOf(cmd.submissionPayload) <= MIB
      && ConformsTo(env.catalog, GraphOf(env.catalog, version).contextSchema, cmd.contextPayload)
      && ConformsTo(env.catalog, t.value.submissionSchema, cmd.submissionPayload)
      && ResolveAssignee(env.directory, target.value, l.instance.createdByPrincipalId, l.instance.domainId).Go?
  {
    hide CurrentVisit, CurrentContext, NodeOf, TransitionOf, ResolveAssignee, VersionUsable, GraphOf;
  }

  lemma CombinationAdmitted(catalog: Catalog, st: DbState, cmd: CombinedCommand)
    requires KeyedCatalog(catalog) && Inv(catalog, st)
    ensures var env := Env(catalog, st.directory);
      CheckCombined(env, st.ledgers, cmd).Go? <==> LawfulCombination(catalog, st, cmd)
  {
    hide KeyedCatalog, Inv, CheckCombined, CurrentVisit, CurrentContext, UniqueIds, GraphOf, NodeOf, TransitionOf, EffectFits,
         ResolveAssignee, LawfulStepFrom, IsCurrentVisit;
    var env, id := Env(catalog, st.directory), cmd.workflowInstanceId;
    if id !in st.ledgers {
      MissingCombined(env, st.ledgers, cmd);
      return;
    }
    var l := st.ledgers[id];
    var version := l.instance.definitionVersionId;
    StoredInstance(catalog, st, id);
    var v := CurrentVisit(l).value;
    CombinedChecks(env, st.ledgers, cmd, l, v);
    if CheckCombined(env, st.ledgers, cmd).Go? {
      var source, t := NodeOf(catalog, version, v.nodeId).value, TransitionOf(catalog, version, cmd.transitionId).value;
      StepIsRead(catalog, st.directory, l, v, source, t, NodeOf(catalog, version, t.targetNodeId).value);
    }
    if LawfulCombination(catalog, st, cmd) {
      var v': VisitFact, t: TransitionDefinition :|
                   && IsCurrentVisit(l, v') && v'.nodeType.DRAFT? && v'.assigneePrincipalId == Some(cmd.principalId)
                   && t.transitionId == cmd.transitionId && t.transitionEffect.ADVANCE?
                   && LawfulStepFrom(catalog, st.directory, l, v', t)
                   && Satisfies(catalog, t.submissionSchema, cmd.submissionPayload);
      VisitIsLookup(l, v');
      LawfulStepIsRead(catalog, st.directory, l, v, t);
      StepIsSource(catalog, st.directory, l, v, t);
      StepIsRead(catalog, st.directory, l, v, NodeOf(catalog, version, v.nodeId).value, t,
                 NodeOf(catalog, version, t.targetNodeId).value);
    }
  }

  lemma MissingCombined(env: Env, ledgers: map<Uuid, Ledger>, cmd: CombinedCommand)
    requires cmd.workflowInstanceId !in ledgers
    ensures CheckCombined(env, ledgers, cmd) == Refuse(InstanceNotFound)
  {
  }

  // ----- Override and rebuild -----

  predicate LawfulRebuild(catalog: Catalog, st: DbState, cmd: RebuildCommand) {
    && LawfulAdministration(catalog, st.directory, st.ledgers, cmd.workflowInstanceId, cmd.principalId)
    && ExpectsSnapshot(st.ledgers[cmd.workflowInstanceId], cmd.expectedBeforeSnapshotDigest)
  }

  lemma RebuildAdmitted(catalog: Catalog, st: DbState, cmd: RebuildCommand)
    requires Inv(catalog, st)
    ensures CheckRebuild(Env(catalog, st.directory), st, cmd).Go? <==> LawfulRebuild(catalog, st, cmd)
  {
    hide Inv, Coherent, LinkageHolds, Reconstruct, CheckAdmin, LawfulAdministration, ExpectDigest, ExpectsSnapshot;
    AdministratorAdmitted(Env(catalog, st.directory), st.ledgers, cmd.workflowInstanceId, cmd.principalId);
    if CheckAdmin(Env(catalog, st.directory), st.ledgers, cmd.workflowInstanceId, cmd.principalId).Go? {
      AdministeredLedger(Env(catalog, st.directory), st.ledgers, cmd.workflowInstanceId, cmd.principalId);
      var l := st.ledgers[cmd.workflowInstanceId];
      ExpectationAgrees(l, cmd.expectedBeforeSnapshotDigest);
      CoherentAt(catalog, st, cmd.workflowInstanceId);
      CoherentReconstructs(catalog, st.receipts, l);
    }
  }

  ghost predicate LawfulOverride(catalog: Catalog, st: DbState, cmd: OverrideCommand) {
    && LawfulAdministration(catalog, st.directory, st.ledgers, cmd.workflowInstanceId, cmd.principalId)
    && var l := st.ledgers[cmd.workflowInstanceId];
    && IsBoundedReason(cmd.reason) && AreBoundedReferences(cmd.relatedReferences)
    && !st.directory.versionStatus[l.instance.definitionVersionId].Draft?
    && cmd.expectedVersion == l.instance.projection.workflowStateVersion < I32_MAX
    && ExpectsSnapshot(l, cmd.expectedBeforeSnapshotDigest)
    && exists target: NodeDefinition ::
         && IsNodeOf(GraphOf(catalog, l.instance.definitionVersionId), target, cmd.targetNodeId)
         && LawfulMove(st.directory, l, cmd.operation, target)
  }

  lemma OverrideChecks(env: Env, st: DbState, cmd: OverrideCommand, l: Ledger)
    requires CheckAdmin(env, st.ledgers, cmd.workflowInstanceId, cmd.principalId) == Go(l) && HasPointers(l)
    requires CurrentVisit(l).Some? && Reconstruct(env.catalog, st.receipts, l) == Some(l.instance.projection)
    requires l.instance.definitionVersionId in env.directory.versionStatus
    ensures CheckOverride(env, st, cmd).Go? <==>
      && AdminPayloadBounded(cmd.reason, cmd.relatedReferences)
      && !env.directory.versionStatus[l.instance.definitionVersionId].Draft?
      && cmd.expectedVersion == l.instance.projection.workflowStateVersion < I32_MAX
      && ExpectDigest(cmd.expectedBeforeSnapshotDigest, SnapshotDigest(l)).Go?
      && var target := NodeOf(env.catalog, l.instance.definitionVersionId, cmd.targetNodeId);
      && target.Some? && AdminTarget(env, l, cmd.operation, target.value).Go?
      && MaxVisitNumber(l.visits, cmd.targetNodeId) < I32_MAX
  {
    hide Reconstruct, CurrentVisit, NodeOf, AdminTarget, AdminPayloadBounded, MaxVisitNumber, CheckAdmin, ExpectDigest;
  }

  lemma OverrideAdmitted(catalog: Catalog, st: DbState, cmd: OverrideCommand)
    requires KeyedCatalog(catalog) && Inv(catalog, st)
    ensures CheckOverride(Env(catalog, st.directory), st, cmd).Go? <==> LawfulOverride(catalog, st, cmd)
  {
    hide KeyedCatalog, Inv, Coherent, LinkageHolds, Reconstruct, CheckAdmin, CheckOverride, LawfulAdministration, ExpectDigest,
         ExpectsSnapshot, NodeOf, GraphOf, AdminTarget, LawfulMove, AdminPayloadBounded, IsBoundedReason, AreBoundedReferences,
         MaxVisitNumber, CurrentVisit, UniqueIds,
         CurrentContext, IsCurrentVisit;
    var env, id := Env(catalog, st.directory), cmd.workflowInstanceId;
    AdministratorAdmitted(env, st.ledgers, id, cmd.principalId);
    if CheckAdmin(env, st.ledgers, id, cmd.principalId).Go? {
      AdministeredLedger(env, st.ledgers, id, cmd.principalId);
      var l := st.ledgers[id];
      var version := l.instance.definitionVersionId;
      ExpectationAgrees(l, cmd.expectedBeforeSnapshotDigest);
      CoherentAt(catalog, st, id);
      CoherentReconstructs(catalog, st.receipts, l);
      StoredInstance(catalog, st, id);
      CountersBelowVersion(catalog, l, cmd.targetNodeId);
      OverrideChecks(env, st, cmd, l);
      PayloadBoundsAgree(cmd.reason, cmd.relatedReferences);
      if NodeOf(catalog, version, cmd.targetNodeId).Some? {
        NodeIsLookup(catalog, version, NodeOf(catalog, version, cmd.targetNodeId).value);
        MoveAgrees(env, l, cmd.operation, NodeOf(catalog, version, cmd.targetNodeId).value);
      }
      forall n | n in GraphOf(catalog, version).nodes && n.nodeId == cmd.targetNodeId
        ensures NodeOf(catalog, version, cmd.targetNodeId) == Some(n)
      {
        NodeIsLookup(catalog, version, n);
      }
    } else {
      NotAdministered(env, st, cmd);
    }
  }

  /**
   In every state of every run an override passes exactly when the administrator's demands are met: the
   replay, the projection comparison and the pointer checks before it never stand in the way.
   */
  lemma OverrideIsNeverBlockedByFacts(catalog: Catalog, run: seq<DbState>, actions: seq<Action>, i: nat, cmd: OverrideCommand)
    requires KeyedCatalog(catalog) && IsRun(catalog, run, actions) && i < |run|
    ensures CheckOverride(Env(catalog, run[i].directory), run[i], cmd).Go? <==> LawfulOverride(catalog, run[i], cmd)
  {
    hide KeyedCatalog, IsRun, Inv, CheckOverride, LawfulOverride;
    RunKeepsInv(catalog, run, actions, i);
    OverrideAdmitted(catalog, run[i], cmd);
  }

  lemma NotAdministered(env: Env, st: DbState, cmd: OverrideCommand)
    requires !CheckAdmin(env, st.ledgers, cmd.workflowInstanceId, cmd.principalId).Go?
    ensures !CheckOverride(env, st, cmd).Go?
  {
    hide CheckAdmin, Reconstruct, CurrentVisit, NodeOf, AdminTarget, AdminPayloadBounded, MaxVisitNumber, ExpectDigest;
  }

  // ----- Import -----

  ghost predicate LawfulImport(catalog: Catalog, st: DbState, cmd: ImportCommand) {
    && LawfulSnapshot(catalog, cmd) && IsOpenDomain(st.directory, cmd.domainId)
    && IsMigrationService(catalog, st.directory, cmd.domainId, cmd.principalId)
    && cmd.definitionVersionId in catalog.versions && catalog.versions[cmd.definitionVersionId].domainId == cmd.domainId
    && IsPublishedVersion(st.directory, cmd.definitionVersionId)
    && var g := catalog.versions[cmd.definitionVersionId].graph;
    && Satisfies(catalog, g.contextSchema, cmd.contextPayload)
    && (forall k :: k in st.ledgers ==> st.ledgers[k].instance.externalReference != Some(MigrationKey(cmd.legacyRecordId)))
    && exists n: NodeDefinition, creatorId: Uuid ::
         && IsNodeOf(g, n, cmd.importedNodeId) && n.nodeKey == cmd.currentStep
         && IsImportCreator(catalog, st.directory, cmd, creatorId)
         && IsImportAssignee(catalog, st.directory, cmd, n, creatorId)
  }

  /** The node that an import reads: everything before the payload. */
  lemma ImportAccessAdmitted(env: Env, cmd: ImportCommand)
    requires KeyedCatalog(env.catalog)
    ensures CheckImportAccess(env, cmd).Go? <==>
      && LawfulSnapshot(env.catalog, cmd) && IsOpenDomain(env.directory, cmd.domainId)
      && IsMigrationService(env.catalog, env.directory, cmd.domainId, cmd.principalId)
      && cmd.definitionVersionId in env.catalog.versions && env.catalog.versions[cmd.definitionVersionId].domainId == cmd.domainId
      && IsPublishedVersion(env.directory, cmd.definitionVersionId)
      && NodeOf(env.catalog, cmd.definitionVersionId, cmd.importedNodeId).Some?
      && NodeOf(env.catalog, cmd.definitionVersionId, cmd.importedNodeId).value.nodeKey == cmd.currentStep
    ensures CheckImportAccess(env, cmd).Go? ==>
              NodeOf(env.catalog, cmd.definitionVersionId, cmd.importedNodeId) == Some(CheckImportAccess(env, cmd).value)
  {
    hide NodeOf, IsSole, Holders, KeyedCatalog;
    OneHolder(DomainBindings(env.directory, cmd.domainId), cmd.principalId, WORKFLOW_MIGRATION);
  }

  lemma ImportAdmitted(catalog: Catalog, st: DbState, cmd: ImportCommand)
    requires KeyedCatalog(catalog)
    ensures CheckImport(Env(catalog, st.directory), st.ledgers, cmd).Go? <==> LawfulImport(catalog, st, cmd)
  {
    hide KeyedCatalog, CheckImportAccess, NodeOf, ImportCreator, ImportAssignee, IsImportCreator, IsImportAssignee, LawfulSnapshot,
         IsMigrationService, IsOpenDomain;
    var env, version := Env(catalog, st.directory), cmd.definitionVersionId;
    ImportAccessAdmitted(env, cmd);
    if NodeOf(catalog, version, cmd.importedNodeId).Some? {
      var n := NodeOf(catalog, version, cmd.importedNodeId).value;
      NodeIsLookup(catalog, version, n);
      if ImportCreator(env, cmd).Go? {
        ImportCreatorIs(env, cmd, ImportCreator(env, cmd).value.0);
        ImportAssigneeIs(env, cmd, n, ImportCreator(env, cmd).value.0);
      }
    }
    if LawfulImport(catalog, st, cmd) {
      var g := catalog.versions[version].graph;
      var n: NodeDefinition, creatorId: Uuid :|
        && IsNodeOf(g, n, cmd.importedNodeId) && n.nodeKey == cmd.currentStep
        && IsImportCreator(catalog, st.directory, cmd, creatorId) && IsImportAssignee(catalog, st.directory, cmd, n, creatorId);
      NodeIsLookup(catalog, version, n);
      ImportCreatorIs(env, cmd, creatorId);
      ImportAssigneeIs(env, cmd, n, creatorId);
    }
  }

  // ----- Every command -----

  /** The rules of the command, over the rows of the state. */
  ghost predicate IsLawful(catalog: Catalog, st: DbState, call: Call) {
    match call
    case Create(c) => LawfulCreation(catalog, st.directory, c)
    case Import(c) => LawfulImport(catalog, st, c)
    case Revise(c) => LawfulRevision(catalog, st, c)
    case Transition(c) => LawfulTransition(catalog, st, c)
    case Combined(c) => LawfulCombination(catalog, st, c)
    case Override(c) => LawfulOverride(catalog, st, c)
    case Rebuild(c) => LawfulRebuild(catalog, st, c)
  }

  /** In a state of the invariant the decision goes on exactly for lawful commands. */
  lemma DecisionIsLawful(catalog: Catalog, st: DbState, call: Call, ids: FreshIds)
    requires KeyedCatalog(catalog) && Inv(catalog, st)
    ensures var env := Env(catalog, st.directory);
      Precheck(env, call).None? && Decide(env, st, call, ids).Go? <==> IsLawful(catalog, st, call)
  {
    hide KeyedCatalog, Inv, CheckCreate, CheckImport, CheckRevise, CheckTransition, CheckCombined, CheckOverride, CheckRebuild,
         LawfulCreation, LawfulImport, LawfulRevision, LawfulTransition, LawfulCombination, LawfulOverride, LawfulRebuild;
    var env := Env(catalog, st.directory);
    match call
    case Create(c) =>
      CreationAdmitted(env, c);
      CreationNeedsPrincipal(catalog, st.directory, c);
    case Import(c) =>
      ImportAdmitted(catalog, st, c);
      ImportNeedsPrincipal(catalog, st, c);
    case Revise(c) =>
      RevisionAdmitted(catalog, st, c);
    case Transition(c) =>
      TransitionAdmitted(catalog, st, c);
      TransitionNeedsPrincipal(catalog, st, c);
      TransitionHasPointers(env, st, c);
    case Combined(c) =>
      CombinationAdmitted(catalog, st, c);
      CombinationNeedsPrincipal(catalog, st, c);
    case Override(c) =>
      OverrideAdmitted(catalog, st, c);
      OverrideNeedsPrincipal(catalog, st, c);
    case Rebuild(c) =>
      RebuildAdmitted(catalog, st, c);
      RebuildNeedsPrincipal(catalog, st, c);
  }

  lemma CreationNeedsPrincipal(catalog: Catalog, d: Directory, cmd: CreateCommand)
    ensures LawfulCreation(catalog, d, cmd) ==> cmd.principalId in d.principals
  {
  }

  lemma ImportNeedsPrincipal(catalog: Catalog, st: DbState, cmd: ImportCommand)
    ensures LawfulImport(catalog, st, cmd) ==> cmd.principalId in st.directory.principals
  {
  }

  lemma TransitionNeedsPrincipal(catalog: Catalog, st: DbState, cmd: TransitionCommand)
    ensures LawfulTransition(catalog, st, cmd) ==> cmd.principalId in st.directory.principals
  {
    hide LawfulStepFrom, IsLawfulSubmission;
  }

  lemma TransitionHasPointers(env: Env, st: DbState, cmd: TransitionCommand)
    ensures CheckTransition(env, st.ledgers, cmd).Go? ==> HasPointers(CheckTransition(env, st.ledgers, cmd).value.ledger)
  {
    hide CheckTransition;
    if CheckTransition(env, st.ledgers, cmd).Go? {
      TransitionPlanFacts(env, st.ledgers, cmd, CheckTransition(env, st.ledgers, cmd).value);
    }
  }

  lemma CombinationNeedsPrincipal(catalog: Catalog, st: DbState, cmd: CombinedCommand)
    ensures LawfulCombination(catalog, st, cmd) ==> cmd.principalId in st.directory.principals
  {
    hide LawfulStepFrom;
  }

  lemma OverrideNeedsPrincipal(catalog: Catalog, st: DbState, cmd: OverrideCommand)
    ensures LawfulOverride(catalog, st, cmd) ==> cmd.principalId in st.directory.principals
  {
    hide LawfulMove, IsBoundedReason, AreBoundedReferences;
  }

  lemma RebuildNeedsPrincipal(catalog: Catalog, st: DbState, cmd: RebuildCommand)
    ensures LawfulRebuild(catalog, st, cmd) ==> cmd.principalId in st.directory.principals
  {
  }

  /**
   Admission: in every state of every run, a request with an unused key and unused ids, for an instance
   whose version can still rise, executes exactly when its command meets its rules.
   */
  lemma ExecutesIffLawful(catalog: Catalog, run: seq<DbState>, actions: seq<Action>, i: nat, r: Request, ids: FreshIds)
    requires KeyedCatalog(catalog) && IsRun(catalog, run, actions) && i < |run|
    requires Unused(run[i], r, ids) && RowIdsUnused(run[i].ledgers, ids) && HasNextVersion(run[i], r.call)
    ensures Execute(catalog, run[i], r, ids).1.Executed? <==> IsLawful(catalog, run[i], r.call)
  {
    hide KeyedCatalog, IsRun, Inv, Execute, Decide, Precheck, Unused, RowIdsUnused, HasNextVersion, IsLawful;
    RunKeepsInv(catalog, run, actions, i);
    PassedChecksCommit(catalog, run, actions, i, r, ids);
    DecisionIsLawful(catalog, run[i], r.call, ids);
  }
}
