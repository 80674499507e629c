/**
 Who may act, and on what: in every state of every run each stored event was caused by a principal
 with the right to cause it, each visit is assigned by its node's rule, and each stored payload
 conforms to the schema that governs it.
 */
module Authority {
  import opened Prelude
  import opened DefinitionModel
  import opened GraphRules
  import opened RuntimeModel
  import opened KernelState
  import opened EventReplay
  import opened Snapshot
  import opened Commands
  import opened Pipeline
  import opened Agreement
  import opened WriterAgreement
  import opened KernelRuns
  import opened ReceiptEvents
  import opened Rules
  import opened Resolution

  // ----- What is rightful -----

  /** The principal was the assignee of the visit, and the visit was open. */
  predicate HeldVisit(l: Ledger, visitId: Option<Uuid>, actor: Uuid) {
    var visit := Lookup(VisitsById(l.visits), visitId);
    visit.Some? && visit.value.assigneePrincipalId == Some(actor) && !visit.value.nodeType.TERMINAL?
  }

  predicate AtDraft(l: Ledger, visitId: Option<Uuid>) {
    var visit := Lookup(VisitsById(l.visits), visitId);
    visit.Some? && visit.value.nodeType.DRAFT?
  }

  /** A submission that the event carries: by the actor, for the visit that the event leaves. */
  predicate CarriesOwnSubmission(l: Ledger, e: EventFact) {
    e.submissionId.Some? ==>
      var s := Lookup(SubmissionsById(l.submissions), e.submissionId);
      && s.Some? && s.value.authorPrincipalId == e.actorPrincipalId && Some(s.value.sourceNodeVisitId) == e.sourceNodeVisitId
      && (e.transitionEffect == Some(RETURN) ==> ReturnReferencesHold(l, s.value.payload))
  }

  predicate IsRightful(l: Ledger, e: EventFact) {
    match e.eventType
    case INSTANCE_CREATED => e.actorPrincipalId == l.instance.createdByPrincipalId
    case WORKFLOW_INSTANCE_IMPORTED => e.actorPrincipalType.SERVICE? && !l.instance.createdByPrincipalType.SERVICE?
    case CONTEXT_REVISED => e.actorPrincipalId == l.instance.createdByPrincipalId && AtDraft(l, e.sourceNodeVisitId)
    case WORKFLOW_TRANSITION_COMMITTED => HeldVisit(l, e.sourceNodeVisitId, e.actorPrincipalId) && CarriesOwnSubmission(l, e)
    case WORKFLOW_CONTEXT_REVISED_AND_TRANSITION_COMMITTED =>
      && e.actorPrincipalId == l.instance.createdByPrincipalId && AtDraft(l, e.sourceNodeVisitId)
      && HeldVisit(l, e.sourceNodeVisitId, e.actorPrincipalId) && e.submissionId.Some? && CarriesOwnSubmission(l, e)
    case ADMIN_EMERGENCY_OVERRIDE_COMMITTED => !e.actorPrincipalType.SERVICE?
    case _ => false
  }

  /** The assignee is the one that the node's rule designates; an owner is whoever owned the domain then. */
  predicate AssignedByRule(n: NodeDefinition, creatorId: Uuid, assignee: Option<Uuid>) {
    if n.nodeType.TERMINAL? then assignee.None?
    else
      && assignee.Some? && n.assigneeRef.Some?
      && (n.assigneeRef.value.refType.WORKFLOW_CREATOR? ==> assignee == Some(creatorId))
      && (n.assigneeRef.value.refType.FIXED_PRINCIPAL? ==> assignee == n.assigneeRef.value.fixedPrincipalId)
  }

  predicate VisitAssigned(catalog: Catalog, l: InstanceRow, v: VisitFact) {
    var n := NodeOf(catalog, l.definitionVersionId, v.nodeId);
    n.Some? && AssignedByRule(n.value, l.createdByPrincipalId, v.assigneePrincipalId)
  }

  predicate ContextConforms(catalog: Catalog, l: InstanceRow, c: ContextFact) {
    ConformsTo(catalog, GraphOf(catalog, l.definitionVersionId).contextSchema, c.payload)
  }

  predicate SubmissionConforms(catalog: Catalog, l: InstanceRow, s: SubmissionFact) {
    var t := TransitionOf(catalog, l.definitionVersionId, s.transitionId);
    && t.Some? && ConformsTo(catalog, t.value.submissionSchema, s.payload)
    && catalog.sizeOf(s.payload) <= MIB
  }

  /** A transition that took no submission has no schema for one. */
  predicate OmitsLawfully(catalog: Catalog, l: InstanceRow, e: EventFact) {
    e.eventType.WORKFLOW_TRANSITION_COMMITTED? && e.submissionId.None? ==>
      && e.eventData.Some? && e.eventData.value.TransitionData?
      && var t := TransitionOf(catalog, l.definitionVersionId, e.eventData.value.step.transitionDefinitionId);
         t.Some? && t.value.submissionSchema.None?
  }

  ghost predicate Rightful(catalog: Catalog, l: Ledger) {
    && (forall e :: e in l.events ==> IsRightful(l, e) && OmitsLawfully(catalog, l.instance, e))
    && (forall v :: v in l.visits ==> VisitAssigned(catalog, l.instance, v))
    && (forall c :: c in l.contexts ==> ContextConforms(catalog, l.instance, c))
    && (forall s :: s in l.submissions ==> SubmissionConforms(catalog, l.instance, s))
  }

  ghost predicate AllRightful(catalog: Catalog, st: DbState) {
    forall id :: id in st.ledgers ==> Rightful(catalog, st.ledgers[id])
  }

  // ----- Rights survive later facts -----

  lemma ReferencesSurvive(l: Ledger, e: Entry, payload: Json)
    requires FreshIn(l, e) && ReturnReferencesHold(l, payload)
    ensures ReturnReferencesHold(Append(l, e), payload)
  {
    hide ContextsById, VisitsById, SubmissionsById;
    AppendedMaps(l, e);
  }

  lemma VisitsSurvive(l: Ledger, e: Entry, visitId: Option<Uuid>, actor: Uuid)
    requires FreshIn(l, e)
    ensures HeldVisit(l, visitId, actor) ==> HeldVisit(Append(l, e), visitId, actor)
    ensures AtDraft(l, visitId) ==> AtDraft(Append(l, e), visitId)
  {
    hide ContextsById, VisitsById, SubmissionsById;
    AppendedMaps(l, e);
  }

  lemma SubmissionSurvives(l: Ledger, e: Entry, past: EventFact)
    requires FreshIn(l, e) && CarriesOwnSubmission(l, past)
    ensures CarriesOwnSubmission(Append(l, e), past)
  {
    hide ContextsById, VisitsById, SubmissionsById, ReturnReferencesHold;
    AppendedMaps(l, e);
    var s := Lookup(SubmissionsById(l.submissions), past.submissionId);
    if s.Some? && ReturnReferencesHold(l, s.value.payload) {
      ReferencesSurvive(l, e, s.value.payload);
    }
  }

  lemma RightsSurvive(l: Ledger, e: Entry, past: EventFact)
    requires FreshIn(l, e) && IsRightful(l, past)
    ensures IsRightful(Append(l, e), past)
  {
    hide HeldVisit, AtDraft, CarriesOwnSubmission, FreshIn;
    VisitsSurvive(l, e, past.sourceNodeVisitId, past.actorPrincipalId);
    if CarriesOwnSubmission(l, past) {
      SubmissionSurvives(l, e, past);
    }
  }

  lemma AppendKeepsRightful(catalog: Catalog, l: Ledger, e: Entry)
    requires Rightful(catalog, l) && FreshIn(l, e)
    requires IsRightful(Append(l, e), e.event) && OmitsLawfully(catalog, l.instance, e.event)
    requires e.visit.Some? ==> VisitAssigned(catalog, l.instance, e.visit.value)
    requires e.context.Some? ==> ContextConforms(catalog, l.instance, e.context.value)
    requires e.submission.Some? ==> SubmissionConforms(catalog, l.instance, e.submission.value)
    ensures Rightful(catalog, Append(l, e))
  {
    hide IsRightful, VisitAssigned, ContextConforms, SubmissionConforms, FreshIn;
    var l' := Append(l, e);
    forall x | x in l'.events
      ensures IsRightful(l', x) && OmitsLawfully(catalog, l'.instance, x)
    {
      assert x in l.events || x == e.event;
      if x in l.events {
        RightsSurvive(l, e, x);
      }
    }
    AppendedKindsConform(catalog, l, e);
  }

  lemma AppendedKindsConform(catalog: Catalog, l: Ledger, e: Entry)
    requires Rightful(catalog, l)
    requires e.visit.Some? ==> VisitAssigned(catalog, l.instance, e.visit.value)
    requires e.context.Some? ==> ContextConforms(catalog, l.instance, e.context.value)
    requires e.submission.Some? ==> SubmissionConforms(catalog, l.instance, e.submission.value)
    ensures forall v :: v in Append(l, e).visits ==> VisitAssigned(catalog, Append(l, e).instance, v)
    ensures forall c :: c in Append(l, e).contexts ==> ContextConforms(catalog, Append(l, e).instance, c)
    ensures forall s :: s in Append(l, e).submissions ==> SubmissionConforms(catalog, Append(l, e).instance, s)
  {
    hide NodeOf, TransitionOf, AssignedByRule, ConformsTo, IsRightful;
    assert forall v :: v in l.visits ==> VisitAssigned(catalog, l.instance, v);
    assert forall c :: c in l.contexts ==> ContextConforms(catalog, l.instance, c);
    assert forall s :: s in l.submissions ==> SubmissionConforms(catalog, l.instance, s);
  }

  // ----- Assignee resolution follows the rule -----

  lemma ResolutionFollowsRule(d: Directory, target: NodeDefinition, creatorId: Uuid, domainId: Uuid)
    requires ResolveAssignee(d, target, creatorId, domainId).Go?
    ensures AssignedByRule(target, creatorId, ResolveAssignee(d, target, creatorId, domainId).value)
  {
    hide FirstHolder, BindingsOf;
  }

  lemma AdminTargetFollowsRule(env: Env, l: Ledger, operation: AdminOperation, target: NodeDefinition)
    requires AdminTarget(env, l, operation, target).Go?
    ensures AssignedByRule(target, l.instance.createdByPrincipalId, AdminTarget(env, l, operation, target).value)
  {
    hide FirstHolder, BindingsOf, EnabledHolders;
  }

  lemma ImportFollowsRule(env: Env, cmd: ImportCommand, node: NodeDefinition, creatorId: Uuid)
    requires ImportAssignee(env, cmd, node, creatorId).Go?
    ensures AssignedByRule(node, creatorId, ImportAssignee(env, cmd, node, creatorId).value)
  {
    hide FirstHolder, BindingsOf, SoleOwner;
  }

  // ----- What the checks of each command establish -----

  lemma CreateRights(env: Env, cmd: CreateCommand, plan: CreatePlan)
    requires CheckCreate(env, cmd) == Go(plan)
    ensures AssignedByRule(plan.node, cmd.principalId, Some(plan.assigneeId))
    ensures ConformsTo(env.catalog, GraphOf(env.catalog, cmd.definitionVersionId).contextSchema, cmd.contextPayload)
  {
    hide PrincipalEnabled, DomainEnabled, ConformsTo, GraphOf, IsMember, FirstHolder, BindingsOf, PublishedVersion;
    CreatePlanFacts(env, cmd, plan);
    assert ResolveRule(env.directory, plan.node.assigneeRef, cmd.principalId, cmd.domainId) == Go(plan.assigneeId);
    assert ResolveAssignee(env.directory, plan.node, cmd.principalId, cmd.domainId) == Go(Some(plan.assigneeId));
    ResolutionFollowsRule(env.directory, plan.node, cmd.principalId, cmd.domainId);
  }

  lemma ImportRights(env: Env, ledgers: map<Uuid, Ledger>, cmd: ImportCommand, plan: ImportPlan)
    requires CheckImport(env, ledgers, cmd) == Go(plan)
    ensures AssignedByRule(plan.node, plan.creatorId, plan.assigneeId)
    ensures ConformsTo(env.catalog, GraphOf(env.catalog, cmd.definitionVersionId).contextSchema, cmd.contextPayload)
  {
    hide CheckImportAccess, ConformsTo, GraphOf, ImportCreator, ImportAssignee, ReferenceUsed;
    ImportFollowsRule(env, cmd, plan.node, plan.creatorId);
  }

  lemma ReviseRights(env: Env, ledgers: map<Uuid, Ledger>, cmd: ReviseCommand, plan: RevisePlan)
    requires CheckRevise(env, ledgers, cmd) == Go(plan)
    ensures ConformsTo(env.catalog, GraphOf(env.catalog, plan.ledger.instance.definitionVersionId).contextSchema, cmd.contextPayload)
  {
    hide PrincipalEnabled, ReviseVersionUsable, CurrentVisit, CurrentContext, GraphOf, ConformsTo;
  }

  lemma TransitionRights(env: Env, ledgers: map<Uuid, Ledger>, cmd: TransitionCommand, plan: TransitionPlan)
    requires CheckTransition(env, ledgers, cmd) == Go(plan)
    ensures AssignedByRule(plan.target, plan.ledger.instance.createdByPrincipalId, plan.assigneeId)
    ensures cmd.submissionPayload.Some? ==>
              && env.catalog.sizeOf(cmd.submissionPayload.value) <= MIB
              && (plan.transition.transitionEffect.RETURN? ==> ReturnReferencesHold(plan.ledger, cmd.submissionPayload.value))
    ensures cmd.submissionPayload.None? ==> plan.transition.submissionSchema.None?
  {
    hide PrincipalEnabled, VersionUsable, CurrentVisit, GraphOf, NodeOf, TransitionOf, ResolveAssignee, EffectFits, TargetFits,
         ReturnReferencesHold, ConformsTo, AssignedByRule;
    ResolutionFollowsRule(env.directory, plan.target, plan.ledger.instance.createdByPrincipalId, plan.ledger.instance.domainId);
  }

  lemma CombinedRights(env: Env, ledgers: map<Uuid, Ledger>, cmd: CombinedCommand, plan: CombinedPlan)
    requires CheckCombined(env, ledgers, cmd) == Go(plan)
    ensures AssignedByRule(plan.target, plan.ledger.instance.createdByPrincipalId, plan.assigneeId)
    ensures ConformsTo(env.catalog, GraphOf(env.catalog, plan.ledger.instance.definitionVersionId).contextSchema, cmd.contextPayload)
    ensures ConformsTo(env.catalog, plan.transition.submissionSchema, cmd.submissionPayload)
    ensures env.catalog.sizeOf(cmd.submissionPayload) <= MIB
  {
    hide PrincipalEnabled, VersionUsable, CurrentVisit, CurrentContext, GraphOf, NodeOf, TransitionOf, ResolveAssignee, ConformsTo,
         AssignedByRule;
    ResolutionFollowsRule(env.directory, plan.target, plan.ledger.instance.createdByPrincipalId, plan.ledger.instance.domainId);
  }

  lemma OverrideRights(env: Env, st: DbState, cmd: OverrideCommand, plan: OverridePlan)
    requires CheckOverride(env, st, cmd) == Go(plan)
    ensures AssignedByRule(plan.target, plan.ledger.instance.createdByPrincipalId, plan.assigneeId)
    ensures !PrincipalTypeOf(env.catalog, cmd.principalId).SERVICE?
  {
    hide PrincipalEnabled, CurrentVisit, NodeOf, Reconstruct, AdminPayloadBounded, ExpectDigest, AdminTarget, MaxVisitNumber,
         BindingsOf, AssignedByRule, PrincipalTypeOf;
    AdminTargetFollowsRule(env, plan.ledger, cmd.operation, plan.target);
  }

  // ----- What each command leaves -----

  lemma NewLedgerRightful(catalog: Catalog, l: Ledger)
    requires |l.contexts| == |l.visits| == |l.events| == 1 && l.submissions == []
    requires IsRightful(l, l.events[0]) && OmitsLawfully(catalog, l.instance, l.events[0])
    requires VisitAssigned(catalog, l.instance, l.visits[0]) && ContextConforms(catalog, l.instance, l.contexts[0])
    ensures Rightful(catalog, l)
  {
    hide IsRightful, VisitAssigned, ContextConforms, SubmissionConforms;
  }

  lemma CreateLeavesRightful(env: Env, cmd: CreateCommand, plan: CreatePlan, ids: FreshIds)
    requires CheckCreate(env, cmd) == Go(plan) && KeyedCatalog(env.catalog)
    ensures Rightful(env.catalog, CreatedLedger(env, cmd, plan, ids))
  {
    hide CheckCreate, AssignedByRule, ConformsTo;
    CreatePlanFacts(env, cmd, plan);
    CreateRights(env, cmd, plan);
    DraftIsNode(env, cmd, plan);
    NewLedgerRightful(env.catalog, CreatedLedger(env, cmd, plan, ids));
  }

  lemma DraftIsNode(env: Env, cmd: CreateCommand, plan: CreatePlan)
    requires CheckCreate(env, cmd) == Go(plan) && KeyedCatalog(env.catalog)
    ensures NodeOf(env.catalog, cmd.definitionVersionId, plan.node.nodeId) == Some(plan.node)
  {
    hide CheckCreate;
    CreatePlanFacts(env, cmd, plan);
    var nodes := GraphOf(env.catalog, cmd.definitionVersionId).nodes;
    assert plan.node in OfType(nodes, DRAFT);
    NodeIsItsLookup(nodes, plan.node);
  }

  lemma ImportLeavesRightful(env: Env, ledgers: map<Uuid, Ledger>, cmd: ImportCommand, plan: ImportPlan, ids: FreshIds)
    requires CheckImport(env, ledgers, cmd) == Go(plan)
    ensures Rightful(env.catalog, ImportedLedger(env, cmd, plan, ids))
  {
    hide CheckImport, AssignedByRule, ConformsTo, NodeOf, PrincipalTypeOf;
    ImportPlanFacts(env, ledgers, cmd, plan);
    ImportRights(env, ledgers, cmd, plan);
    NewLedgerRightful(env.catalog, ImportedLedger(env, cmd, plan, ids));
  }

  lemma ReviseLeavesRightful(env: Env, ledgers: map<Uuid, Ledger>, cmd: ReviseCommand, plan: RevisePlan, ids: FreshIds)
    requires CheckRevise(env, ledgers, cmd) == Go(plan) && Rightful(env.catalog, plan.ledger)
    requires FreshIn(plan.ledger, ReviseEntry(env, cmd, plan, ids))
    ensures Rightful(env.catalog, Append(plan.ledger, ReviseEntry(env, cmd, plan, ids)))
  {
    hide CheckRevise, Rightful, ContextsById, VisitsById, SubmissionsById, ConformsTo;
    RevisePlanFacts(env, ledgers, cmd, plan);
    ReviseRights(env, ledgers, cmd, plan);
    AppendedMaps(plan.ledger, ReviseEntry(env, cmd, plan, ids));
    AppendKeepsRightful(env.catalog, plan.ledger, ReviseEntry(env, cmd, plan, ids));
  }

  /** The event of a step, in the ledger that holds its rows. */
  lemma StepIsRightful(l: Ledger, e: Entry, visit: VisitFact)
    requires CurrentVisit(l) == Some(visit) && FreshIn(l, e)
    requires e.event.sourceNodeVisitId == Some(visit.nodeVisitId)
    requires visit.assigneePrincipalId == Some(e.event.actorPrincipalId) && !visit.nodeType.TERMINAL?
    requires e.event.submissionId == if e.submission.Some? then Some(e.submission.value.submissionId) else None
    requires e.submission.Some? ==>
               && e.submission.value.authorPrincipalId == e.event.actorPrincipalId
               && e.submission.value.sourceNodeVisitId == visit.nodeVisitId
               && (e.event.transitionEffect == Some(RETURN) ==> ReturnReferencesHold(l, e.submission.value.payload))
    ensures HeldVisit(Append(l, e), e.event.sourceNodeVisitId, e.event.actorPrincipalId)
    ensures CarriesOwnSubmission(Append(l, e), e.event)
    ensures visit.nodeType.DRAFT? ==> AtDraft(Append(l, e), e.event.sourceNodeVisitId)
  {
    hide ContextsById, VisitsById, SubmissionsById;
    AppendedMaps(l, e);
    if e.submission.Some? && e.event.transitionEffect == Some(RETURN) {
      ReferencesSurvive(l, e, e.submission.value.payload);
    }
  }

  lemma TransitionLeavesRightful(env: Env, ledgers: map<Uuid, Ledger>, cmd: TransitionCommand, plan: TransitionPlan, ids: FreshIds)
    requires CheckTransition(env, ledgers, cmd) == Go(plan) && Rightful(env.catalog, plan.ledger) && HasPointers(plan.ledger)
    requires FreshIn(plan.ledger, TransitionEntry(env, cmd, plan, ids))
    ensures Rightful(env.catalog, Append(plan.ledger, TransitionEntry(env, cmd, plan, ids)))
  {
    hide CheckTransition, Rightful, ConformsTo, FreshIn, CurrentVisit, ReturnReferencesHold, HeldVisit, CarriesOwnSubmission,
         AtDraft, MaxVisitNumber, NodeOf, TransitionOf, AssignedByRule, Append;
    var e := TransitionEntry(env, cmd, plan, ids);
    TransitionPlanFacts(env, ledgers, cmd, plan);
    TransitionRights(env, ledgers, cmd, plan);
    CurrentVisitIdOf(plan.ledger, plan.visit);
    StepIsRightful(plan.ledger, e, plan.visit);
    AppendKeepsRightful(env.catalog, plan.ledger, e);
  }

  lemma CurrentVisitIdOf(l: Ledger, visit: VisitFact)
    requires CurrentVisit(l) == Some(visit)
    ensures l.instance.projection.currentNodeVisitId == Some(visit.nodeVisitId)
  {
    hide VisitsById;
  }

  lemma CombinedLeavesRightful(env: Env, ledgers: map<Uuid, Ledger>, cmd: CombinedCommand, plan: CombinedPlan, ids: FreshIds)
    requires CheckCombined(env, ledgers, cmd) == Go(plan) && Rightful(env.catalog, plan.ledger)
    requires FreshIn(plan.ledger, CombinedEntry(env, cmd, plan, ids))
    ensures Rightful(env.catalog, Append(plan.ledger, CombinedEntry(env, cmd, plan, ids)))
  {
    hide CheckCombined, Rightful, ConformsTo, FreshIn, CurrentVisit, ReturnReferencesHold, HeldVisit, CarriesOwnSubmission,
         AtDraft, MaxVisitNumber, NodeOf, TransitionOf, AssignedByRule;
    var e := CombinedEntry(env, cmd, plan, ids);
    CombinedPlanFacts(env, ledgers, cmd, plan);
    CombinedRights(env, ledgers, cmd, plan);
    StepIsRightful(plan.ledger, e, plan.visit);
    AppendKeepsRightful(env.catalog, plan.ledger, e);
  }

  lemma OverrideLeavesRightful(env: Env, st: DbState, cmd: OverrideCommand, plan: OverridePlan, ids: FreshIds)
    requires CheckOverride(env, st, cmd) == Go(plan) && Rightful(env.catalog, plan.ledger)
    requires FreshIn(plan.ledger, OverrideEntry(env, cmd, plan, ids))
    ensures Rightful(env.catalog, Append(plan.ledger, OverrideEntry(env, cmd, plan, ids)))
  {
    hide CheckOverride, Rightful, FreshIn, CurrentVisit, MaxVisitNumber, NodeOf, AssignedByRule, Append, PrincipalTypeOf,
         Reconstruct, SnapshotDigest;
    var e := OverrideEntry(env, cmd, plan, ids);
    OverridePlanFacts(env, st, cmd, plan);
    OverrideRights(env, st, cmd, plan);
    AppendKeepsRightful(env.catalog, plan.ledger, e);
  }

  // ----- Every run -----

  lemma DecisionKeepsRights(env: Env, st: DbState, call: Call, ids: FreshIds, plan: Plan)
    requires KeyedCatalog(env.catalog) && Inv(env.catalog, st) && AllRightful(env.catalog, st)
    requires Decide(env, st, call, ids) == Go(plan) && WriteFits(st.ledgers, plan.write)
    ensures AllRightful(env.catalog, st.(ledgers := ApplyWrite(st.ledgers, plan.write)))
  {
    hide KeyedCatalog, Inv, Rightful, CheckCreate, CheckImport, CheckRevise, CheckTransition, CheckCombined, CheckOverride,
         CheckRebuild, CreatedLedger, ImportedLedger, ReviseEntry, TransitionEntry, CombinedEntry, OverrideEntry,
         EntryInsertable, LedgerInsertable, Append, FreshIn, Coherent, CurrentVisit, NodeOf, TransitionOf, Reconstruct;
    if plan.write.AppendEntry? {
      InsertableIsFresh(st.ledgers, plan.write.instanceId, plan.write.entry);
    }
    match call
    case Create(c) => CreateLeavesRightful(env, c, CheckCreate(env, c).value, ids);
    case Import(c) => ImportLeavesRightful(env, st.ledgers, c, CheckImport(env, st.ledgers, c).value, ids);
    case Revise(c) =>
      RevisePlanFacts(env, st.ledgers, c, CheckRevise(env, st.ledgers, c).value);
      ReviseLeavesRightful(env, st.ledgers, c, CheckRevise(env, st.ledgers, c).value, ids);
    case Transition(c) =>
      TransitionPlanFacts(env, st.ledgers, c, CheckTransition(env, st.ledgers, c).value);
      TransitionLeavesRightful(env, st.ledgers, c, CheckTransition(env, st.ledgers, c).value, ids);
    case Combined(c) =>
      CombinedPlanFacts(env, st.ledgers, c, CheckCombined(env, st.ledgers, c).value);
      CombinedLeavesRightful(env, st.ledgers, c, CheckCombined(env, st.ledgers, c).value, ids);
    case Override(c) =>
      OverridePlanFacts(env, st, c, CheckOverride(env, st, c).value);
      OverrideLeavesRightful(env, st, c, CheckOverride(env, st, c).value, ids);
    case Rebuild(c) => RebuildChangesNothing(env, st, c, ids, plan);
  }

  lemma ActionKeepsRights(catalog: Catalog, st: DbState, a: Action)
    requires KeyedCatalog(catalog) && Inv(catalog, st) && AllRightful(catalog, st)
    ensures AllRightful(catalog, Next(catalog, st, a))
  {
    hide Inv, KeyedCatalog, Decide, WriteFits, ApplyWrite, Answer, FindReceipt, FindCommand, Precheck, StatusCode,
         FailureBodyOf, Rightful;
    if a.Command? {
      var env := Env(catalog, st.directory);
      var decision := Decide(env, st, a.request.call, a.ids);
      if decision.Go? && WriteFits(st.ledgers, decision.value.write) {
        DecisionKeepsRights(env, st, a.request.call, a.ids, decision.value);
      }
    }
  }

  /**
   In every state of every run, of every instance: each event was caused by its rightful principal, each
   visit is assigned by its node's rule, and each context and submission conforms to its schema.
   */
  lemma {:induction false} EveryFactIsRightful(catalog: Catalog, run: seq<DbState>, actions: seq<Action>, i: nat)
    requires KeyedCatalog(catalog) && IsRun(catalog, run, actions) && i < |run|
    ensures AllRightful(catalog, run[i])
  {
    hide Next, KeyedCatalog, Inv, Rightful;
    if i > 0 {
      EveryFactIsRightful(catalog, run, actions, i - 1);
      RunKeepsInv(catalog, run, actions, i - 1);
      ActionKeepsRights(catalog, run[i - 1], actions[i - 1]);
    }
  }

  // ----- Who was entitled when -----

  /** The directory gives the actor the right that the event needs, beside the rights that the facts show. */
  predicate Entitles(catalog: Catalog, d: Directory, row: InstanceRow, e: EventFact) {
    && Active(d, e.actorPrincipalId)
    && (e.eventType.INSTANCE_CREATED? ==> BelongsTo(d, row.domainId, e.actorPrincipalId))
    && (e.eventType.WORKFLOW_INSTANCE_IMPORTED? ==> IsMigrationService(catalog, d, row.domainId, e.actorPrincipalId))
    && (e.eventType.ADMIN_EMERGENCY_OVERRIDE_COMMITTED? ==> IsAdministrator(catalog, d, row.domainId, e.actorPrincipalId))
  }

  /** The row of the instance that a write adds an event to. */
  function WrittenRow(st: DbState, w: Write): Option<InstanceRow> {
    match w
    case CreateLedger(l) => Some(l.instance)
    case AppendEntry(id, _) => if id in st.ledgers then Some(st.ledgers[id].instance) else None
    case _ => None
  }

  lemma CreateEntitles(env: Env, cmd: CreateCommand, plan: CreatePlan, ids: FreshIds)
    requires CheckCreate(env, cmd) == Go(plan)
    ensures var l := CreatedLedger(env, cmd, plan, ids); Entitles(env.catalog, env.directory, l.instance, l.events[0])
  {
    hide ConformsTo, GraphOf, FirstHolder, PublishedVersion, OfType;
  }

  lemma ImportEntitles(env: Env, ledgers: map<Uuid, Ledger>, cmd: ImportCommand, plan: ImportPlan, ids: FreshIds)
    requires CheckImport(env, ledgers, cmd) == Go(plan)
    ensures var l := ImportedLedger(env, cmd, plan, ids); Entitles(env.catalog, env.directory, l.instance, l.events[0])
  {
    hide ConformsTo, GraphOf, ImportCreator, ImportAssignee, ReferenceUsed, NodeOf, PublishedVersion, Holders, IsSole;
    OneHolder(DomainBindings(env.directory, cmd.domainId), cmd.principalId, WORKFLOW_MIGRATION);
  }

  lemma TransitionEntitles(env: Env, ledgers: map<Uuid, Ledger>, cmd: TransitionCommand, plan: TransitionPlan)
    requires CheckTransition(env, ledgers, cmd) == Go(plan)
    ensures Active(env.directory, cmd.principalId)
  {
    hide VersionUsable, CurrentVisit, GraphOf, NodeOf, TransitionOf, ResolveAssignee, EffectFits, TargetFits,
         SubmissionFitsSchema;
  }

  lemma CombinedEntitles(env: Env, ledgers: map<Uuid, Ledger>, cmd: CombinedCommand, plan: CombinedPlan)
    requires CheckCombined(env, ledgers, cmd) == Go(plan)
    ensures Active(env.directory, cmd.principalId)
  {
    hide VersionUsable, CurrentVisit, CurrentContext, GraphOf, NodeOf, TransitionOf, ResolveAssignee, ConformsTo;
  }

  lemma ReviseEntitles(env: Env, ledgers: map<Uuid, Ledger>, cmd: ReviseCommand, plan: RevisePlan)
    requires CheckRevise(env, ledgers, cmd) == Go(plan)
    ensures Active(env.directory, cmd.principalId)
  {
    hide ReviseVersionUsable, CurrentVisit, CurrentContext, GraphOf, ConformsTo;
  }

  lemma OverrideEntitles(env: Env, st: DbState, cmd: OverrideCommand, plan: OverridePlan)
    requires CheckOverride(env, st, cmd) == Go(plan)
    ensures Active(env.directory, cmd.principalId)
    ensures IsAdministrator(env.catalog, env.directory, plan.ledger.instance.domainId, cmd.principalId)
  {
    hide CheckAdmin, CurrentVisit, NodeOf, Reconstruct, AdminPayloadBounded, ExpectDigest, AdminTarget, MaxVisitNumber, HasRole;
    AdministratorAdmitted(env, st.ledgers, cmd.workflowInstanceId, cmd.principalId);
  }

  /** Every decision that adds an event is entitled by the directory that it read. */
  lemma DecisionIsEntitled(env: Env, st: DbState, call: Call, ids: FreshIds, plan: Plan)
    requires Decide(env, st, call, ids) == Go(plan) && NewEvent(plan.write).Some?
    ensures WrittenRow(st, plan.write).Some?
    ensures Entitles(env.catalog, env.directory, WrittenRow(st, plan.write).value, NewEvent(plan.write).value.1)
    ensures WrittenRow(st, plan.write).value.workflowInstanceId == NewEvent(plan.write).value.0 || plan.write.AppendEntry?
  {
    hide CheckCreate, CheckImport, CheckRevise, CheckTransition, CheckCombined, CheckOverride, CheckRebuild, MaxVisitNumber,
         BelongsTo, IsMigrationService, IsAdministrator, Active, CurrentVisit, NodeOf, TransitionOf, Reconstruct;
    match call
    case Create(c) => CreateEntitles(env, c, CheckCreate(env, c).value, ids);
    case Import(c) => ImportEntitles(env, st.ledgers, c, CheckImport(env, st.ledgers, c).value, ids);
    case Revise(c) =>
      RevisePlanFacts(env, st.ledgers, c, CheckRevise(env, st.ledgers, c).value);
      ReviseEntitles(env, st.ledgers, c, CheckRevise(env, st.ledgers, c).value);
    case Transition(c) =>
      TransitionPlanFacts(env, st.ledgers, c, CheckTransition(env, st.ledgers, c).value);
      TransitionEntitles(env, st.ledgers, c, CheckTransition(env, st.ledgers, c).value);
    case Combined(c) =>
      CombinedPlanFacts(env, st.ledgers, c, CheckCombined(env, st.ledgers, c).value);
      CombinedEntitles(env, st.ledgers, c, CheckCombined(env, st.ledgers, c).value);
    case Override(c) =>
      OverridePlanFacts(env, st, c, CheckOverride(env, st, c).value);
      OverrideEntitles(env, st, c, CheckOverride(env, st, c).value);
    case Rebuild(c) =>
  }

  /** The event was added by a step `j` of the run, whose directory entitled its actor. */
  ghost predicate AddedWhenEntitled(catalog: Catalog, run: seq<DbState>, i: nat, id: Uuid, e: EventFact, j: nat)
    requires j < i < |run| && id in run[i].ledgers
  {
    && !(id in run[j].ledgers && e in run[j].ledgers[id].events)
    && id in run[j + 1].ledgers && e in run[j + 1].ledgers[id].events
    && Entitles(catalog, run[j].directory, run[i].ledgers[id].instance, e)
  }

  /** A step keeps an instance's domain, and its events are the old ones or the one of an entitled decision. */
  lemma StepIsEntitled(catalog: Catalog, st: DbState, a: Action, id: Uuid, e: EventFact)
    requires Inv(catalog, st) && id in Next(catalog, st, a).ledgers && e in Next(catalog, st, a).ledgers[id].events
    ensures id in st.ledgers ==> Next(catalog, st, a).ledgers[id].instance.domainId == st.ledgers[id].instance.domainId
    ensures || (id in st.ledgers && e in st.ledgers[id].events)
            || Entitles(catalog, st.directory, Next(catalog, st, a).ledgers[id].instance, e)
  {
    hide Inv, Decide, WriteFits, Answer, FindReceipt, FindCommand, Precheck, StatusCode, FailureBodyOf, Entitles;
    if a.Command? {
      var env := Env(catalog, st.directory);
      var decision := Decide(env, st, a.request.call, a.ids);
      if decision.Go? && WriteFits(st.ledgers, decision.value.write) {
        if NewEvent(decision.value.write).Some? {
          DecisionIsEntitled(env, st, a.request.call, a.ids, decision.value);
        }
        if id in ApplyWrite(st.ledgers, decision.value.write) && e in ApplyWrite(st.ledgers, decision.value.write)[id].events {
          WriteAddsOneEvent(catalog, st, decision.value.write, id, e);
        }
      }
    }
  }

  lemma WriteAddsOneEvent(catalog: Catalog, st: DbState, w: Write, id: Uuid, e: EventFact)
    requires WriteFits(st.ledgers, w) && id in ApplyWrite(st.ledgers, w) && e in ApplyWrite(st.ledgers, w)[id].events
    ensures id in st.ledgers ==> ApplyWrite(st.ledgers, w)[id].instance.domainId == st.ledgers[id].instance.domainId
    ensures var row := ApplyWrite(st.ledgers, w)[id].instance;
      || (id in st.ledgers && e in st.ledgers[id].events)
      || (&& NewEvent(w).Some? && NewEvent(w).value.1 == e && WrittenRow(st, w).Some?
          && forall d :: Entitles(catalog, d, WrittenRow(st, w).value, e) <==> Entitles(catalog, d, row, e))
  {
    hide ContextInsertable, VisitInsertable, SubmissionInsertable, EventInsertable, Active, BelongsTo, IsMigrationService,
         IsAdministrator;
  }

  /**
   In every state of every run each event of each instance was added by a step whose directory held the
   actor enabled and, where the event needs one, gave the actor the role in the instance's domain:
   membership to create, the only migration binding to import, administration to override.
   */
  lemma {:induction false} EveryActorWasEntitled(catalog: Catalog, run: seq<DbState>, actions: seq<Action>, i: nat, id: Uuid,
                                                 e: EventFact)
    requires KeyedCatalog(catalog) && IsRun(catalog, run, actions) && i < |run|
    requires id in run[i].ledgers && e in run[i].ledgers[id].events
    ensures exists j :: 0 <= j < i && AddedWhenEntitled(catalog, run, i, id, e, j)
  {
    hide Next, KeyedCatalog, Inv, Active, BelongsTo, IsMigrationService, IsAdministrator;
    if i > 0 {
      RunKeepsInv(catalog, run, actions, i - 1);
      StepIsEntitled(catalog, run[i - 1], actions[i - 1], id, e);
      if id in run[i - 1].ledgers && e in run[i - 1].ledgers[id].events {
        EveryActorWasEntitled(catalog, run, actions, i - 1, id, e);
        var j :| 0 <= j < i - 1 && AddedWhenEntitled(catalog, run, i - 1, id, e, j);
        assert AddedWhenEntitled(catalog, run, i, id, e, j);
      } else {
        assert AddedWhenEntitled(catalog, run, i, id, e, i - 1);
      }
    }
  }
}
