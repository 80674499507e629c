/**
 What cannot go wrong: on validated definitions creation fails only for its own inputs, and in reachable
 states every open instance has a primary step to take.
 */
module Availability {
  import opened Prelude
  import opened DefinitionModel
  import opened GraphRules
  import opened GraphProgress
  import opened RuntimeModel
  import opened KernelState
  import opened EventReplay
  import opened Snapshot
  import opened Commands
  import opened Pipeline
  import opened Agreement
  import opened WriterAgreement
  import opened ReplayMeaning
  import opened QueryConsistency
  import opened KernelRuns
  import opened ReadSide
  import opened Rules
  import opened Resolution

  // ----- Create -----

  /** The payloads are small enough and the context conforms. */
  predicate PayloadsFit(catalog: Catalog, cmd: CreateCommand) {
    && catalog.sizeOf(cmd.contextPayload) <= ONE_MIB && catalog.sizeOf(cmd.metadata) <= 0x1_0000
    && Satisfies(catalog, GraphOf(catalog, cmd.definitionVersionId).contextSchema, cmd.contextPayload)
  }

  /** The principal may create instances of the definition in the domain. */
  predicate MayCreate(env: Env, cmd: CreateCommand) {
    && cmd.definitionVersionId in env.catalog.versions
    && env.catalog.versions[cmd.definitionVersionId].domainId == cmd.domainId
    && IsPublishedVersion(env.directory, cmd.definitionVersionId) && IsOpenDomain(env.directory, cmd.domainId)
    && Active(env.directory, cmd.principalId) && BelongsTo(env.directory, cmd.domainId, cmd.principalId)
  }

  /** A validated graph has exactly one DRAFT node, and its assignee is the creator. */
  lemma ValidatedDraft(g: WorkflowGraph)
    requires Validated(g)
    ensures |OfType(g.nodes, DRAFT)| == 1
    ensures OfType(g.nodes, DRAFT)[0].assigneeRef == Some(AssigneeRef(WORKFLOW_CREATOR, None))
  {
    hide Accepts, NodesById, OfType;
    AcceptedShape(g);
    DraftCount(g.nodes);
    var draft := OfType(g.nodes, DRAFT)[0];
    assert draft in OfType(g.nodes, DRAFT);
    AcceptedNode(g, draft);
  }

  /** Nothing about a validated graph can make a creation fail, and the creator gets the first visit. */
  lemma CreationSucceedsIff(env: Env, cmd: CreateCommand)
    requires Validated(GraphOf(env.catalog, cmd.definitionVersionId))
    ensures CheckCreate(env, cmd).Go? <==> PayloadsFit(env.catalog, cmd) && MayCreate(env, cmd)
    ensures CheckCreate(env, cmd).Go? ==> CheckCreate(env, cmd).value.assigneeId == cmd.principalId
  {
    hide Validated, GraphOf, OfType;
    ValidatedDraft(GraphOf(env.catalog, cmd.definitionVersionId));
  }

  // ----- Pointers -----

  lemma PointersStand(catalog: Catalog, st: DbState, id: Uuid)
    requires Inv(catalog, st) && id in st.ledgers
    ensures HasPointers(st.ledgers[id]) && CurrentVisit(st.ledgers[id]).Some?
  {
    hide FactsValid, Fold, NodeOf, Reconstruct, LinkageHolds, Coupled, ValidateAllFacts, VisitsById, UniqueIds, AllVisitsJoin;
    CoherentAt(catalog, st, id);
    CoherentReconstructs(catalog, st.receipts, st.ledgers[id]);
    ReplayImpliesQueryAcceptance(catalog, st.receipts, st.ledgers[id]);
  }

  // ----- Progress -----

  /** `t` is a primary step from the instance's current node to a later node. */
  ghost predicate IsWayOn(catalog: Catalog, l: Ledger, s: Standing, t: TransitionDefinition, target: NodeDefinition) {
    var g := GraphOf(catalog, l.instance.definitionVersionId);
    && t in g.transitions && t.sourceNodeId == s.node.nodeId && t.transitionEffect.ADVANCE?
    && NodeOf(catalog, l.instance.definitionVersionId, t.targetNodeId) == Some(target)
    && s.node.orderIndex < target.orderIndex
  }

  /** The current assignee can take the step, with any fitting payload, whenever the target's assignee resolves. */
  ghost predicate CanTake(env: Env, ledgers: map<Uuid, Ledger>, l: Ledger, actor: Uuid, t: TransitionDefinition,
                          target: NodeDefinition)
  {
    forall payload ::
      IsLawfulSubmission(env.catalog, l, t, payload)
      && (target.nodeType.TERMINAL? || Resolves(env.directory, target.assigneeRef, l.instance.domainId))
      ==> CheckTransition(env, ledgers, CommandFor(l, actor, t, payload)).Go?
  }

  lemma PrimaryOfOpenNode(catalog: Catalog, l: Ledger, s: Standing) returns (t: TransitionDefinition, target: NodeDefinition)
    requires Validated(GraphOf(catalog, l.instance.definitionVersionId)) && !s.node.nodeType.TERMINAL?
    requires s.node in GraphOf(catalog, l.instance.definitionVersionId).nodes
    ensures IsWayOn(catalog, l, s, t, target) && s.node.primaryAdvanceTransitionId == Some(t.transitionId)
    ensures TransitionOf(catalog, l.instance.definitionVersionId, t.transitionId) == Some(t)
    ensures target in GraphOf(catalog, l.instance.definitionVersionId).nodes && t.targetNodeId == target.nodeId
  {
    hide Accepts, GraphOf, UniqueNodeIds, UniqueTransitionIds, NodesById, TransitionsById;
    var g := GraphOf(catalog, l.instance.definitionVersionId);
    AcceptedPrimary(g, s.node);
    target :| target in g.nodes && IsPrimaryEdge(g.transitions, s.node, target);
    t :| t in g.transitions && IsPrimaryStep(s.node, t, target);
    NodeIsItsLookup(g.nodes, target);
    TransitionIsItsLookup(g.transitions, t);
  }

  /**
   No dead ends: in every state of every run, an open instance of a validated definition that is neither
   revoked nor a draft has a primary step to a later node, which its current assignee, if enabled, can
   take. That such steps bring it to a terminal node is `Walks.OpenInstanceCanBeClosed`.
   */
  lemma OpenInstanceCanAdvance(catalog: Catalog, run: seq<DbState>, actions: seq<Action>, i: nat, id: Uuid)
    requires KeyedCatalog(catalog) && IsRun(catalog, run, actions) && i < |run| && id in run[i].ledgers
    requires Validated(GraphOf(catalog, run[i].ledgers[id].instance.definitionVersionId))
    requires run[i].ledgers[id].instance.definitionVersionId in run[i].directory.versionStatus
    ensures var env, l := Env(catalog, run[i].directory), run[i].ledgers[id];
      && StandingOf(env, l).Ok?
      && var s := StandingOf(env, l).value;
         !s.node.nodeType.TERMINAL? && !s.status.Revoked? && !s.status.Draft?
         && s.visit.assigneePrincipalId.Some? && IsEnabled(env.directory, s.visit.assigneePrincipalId.value) ==>
           exists t, target :: IsWayOn(catalog, l, s, t, target)
                               && CanTake(env, run[i].ledgers, l, s.visit.assigneePrincipalId.value, t, target)
  {
    hide KeyedCatalog, IsRun, Inv, Validated, StandingOf, Coherent, LinkageHolds, IsWayOn, CheckTransition, NodeOf, TransitionOf,
         GraphOf, ResolveAssignee, SubmissionFitsSchema, IsEnabled, CurrentVisit, UniqueIds;
    var env, l := Env(catalog, run[i].directory), run[i].ledgers[id];
    RunKeepsInv(catalog, run, actions, i);
    CoherentAt(catalog, run[i], id);
    StandingExists(catalog, run[i], id);
    var s := StandingOf(env, l).value;
    if !s.node.nodeType.TERMINAL? && !s.status.Revoked? && !s.status.Draft?
       && s.visit.assigneePrincipalId.Some? && IsEnabled(env.directory, s.visit.assigneePrincipalId.value) {
      CoherentStanding(env, l, s);
      var t, target := PrimaryOfOpenNode(catalog, l, s);
      WayIsOpen(env, run[i].ledgers, l, s, t, target);
    }
  }

  lemma WayIsOpen(env: Env, ledgers: map<Uuid, Ledger>, l: Ledger, s: Standing, t: TransitionDefinition, target: NodeDefinition)
    requires l.instance.workflowInstanceId in ledgers && ledgers[l.instance.workflowInstanceId] == l && HasPointers(l)
    requires StandingOf(env, l) == Ok(s) && IsWayOn(env.catalog, l, s, t, target)
    requires s.node.primaryAdvanceTransitionId == Some(t.transitionId) && s.visit.nodeType == s.node.nodeType
    requires TransitionOf(env.catalog, l.instance.definitionVersionId, t.transitionId) == Some(t)
    requires !s.node.nodeType.TERMINAL? && !s.status.Revoked? && !s.status.Draft?
    requires s.visit.assigneePrincipalId.Some? && IsEnabled(env.directory, s.visit.assigneePrincipalId.value)
    ensures CanTake(env, ledgers, l, s.visit.assigneePrincipalId.value, t, target)
  {
    hide StandingOf, CheckTransition, NodeOf, TransitionOf, GraphOf, ResolveAssignee, SubmissionFitsSchema, IsEnabled, CurrentVisit,
         IsLawfulSubmission, Resolves;
    var actor := s.visit.assigneePrincipalId.value;
    ResolutionIsDesignation(env.directory, target, l.instance.createdByPrincipalId, l.instance.domainId);
    forall payload | IsLawfulSubmission(env.catalog, l, t, payload)
                     && (target.nodeType.TERMINAL? || Resolves(env.directory, target.assigneeRef, l.instance.domainId))
      ensures CheckTransition(env, ledgers, CommandFor(l, actor, t, payload)).Go?
    {
      SubmissionsAgree(env.catalog, l, t, payload);
      ChecksOf(env, ledgers, l, s, t, target, actor, payload);
    }
  }
}
