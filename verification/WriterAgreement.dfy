/** Each command keeps its ledger coherent: what it appends is what the replay expects next. */
module WriterAgreement {
  import opened Prelude
  import opened DefinitionModel
  import opened GraphRules
  import opened RuntimeModel
  import opened KernelState
  import opened EventReplay
  import opened Snapshot
  import opened Commands
  import opened Agreement

  ghost function FoldedState(catalog: Catalog, l: Ledger): ReplayState
    requires Coherent(catalog, l)
  {
    Fold(FactsOf(catalog, l), l.events).value
  }

  lemma CurrentContextOf(catalog: Catalog, l: Ledger)
    requires Coherent(catalog, l)
    ensures CurrentContext(l) == Some(l.contexts[|l.contexts| - 1])
    ensures l.contexts[|l.contexts| - 1].revisionNumber == |l.contexts|
  {
    hide Fold, Coupled, VisitsValid, SubmissionsValid, AllVisitsJoin;
    assert ContextValid(l.instance, l.contexts, |l.contexts| - 1);
  }

  /** Where the replay of a coherent ledger stands. */
  lemma FoldedFacts(catalog: Catalog, l: Ledger)
    requires Coherent(catalog, l)
    ensures var s := FoldedState(catalog, l);
      && Coupled(l, s)
      && s.version == |l.events| == l.instance.projection.workflowStateVersion
      && s.currentContext == l.instance.projection.currentContextRevisionId
      && s.currentVisit == l.instance.projection.currentNodeVisitId
  {
  }

  lemma {:induction false} FoldBounded(f: Facts, events: seq<EventFact>)
    requires Fold(f, events).Some?
    ensures |events| <= I32_MAX
  {
    if events != [] {
      hide Apply;
    }
  }

  lemma VersionBounded(catalog: Catalog, l: Ledger)
    requires Coherent(catalog, l)
    ensures 1 <= l.instance.projection.workflowStateVersion == |l.events| <= I32_MAX
  {
    FoldBounded(FactsOf(catalog, l), l.events);
  }

  lemma {:induction false} FoldNumbers(f: Facts, events: seq<EventFact>, i: nat)
    requires Fold(f, events).Some? && i < |events|
    ensures events[i].eventSequence == i + 1
  {
    hide ApplyInitial, ApplyContextRevision, ApplyTransition, ApplyCombined, ApplyAdmin;
    if i < |events| - 1 {
      FoldNumbers(f, events[..|events| - 1], i);
    }
  }

  lemma SequenceIsPosition(catalog: Catalog, l: Ledger, i: nat)
    requires Coherent(catalog, l) && i < |l.events|
    ensures l.events[i].eventSequence == i + 1
  {
    FoldNumbers(FactsOf(catalog, l), l.events, i);
  }

  /** What an appended event must satisfy beside its own type's checks. */
  lemma HeaderOfNext(catalog: Catalog, l: Ledger, e: Entry)
    requires Coherent(catalog, l)
    requires e.event.workflowInstanceId == l.instance.workflowInstanceId && e.event.eventSchemaVersion.V1?
    requires e.event.oldWorkflowStateVersion == l.instance.projection.workflowStateVersion
    requires e.event.eventSequence == e.event.newWorkflowStateVersion == |l.events| + 1
    ensures HeaderFits(FactsOf(catalog, Append(l, e)), FoldedState(catalog, l), e.event, |l.events| + 1)
  {
    hide FactsValid, AllVisitsJoin, Fold;
  }

  lemma CountsAfterVisit(l: Ledger, e: Entry, s: ReplayState)
    requires Coupled(l, s) && e.visit.Some?
    requires e.visit.value.visitNumber == MaxVisitNumber(l.visits, e.visit.value.nodeId) + 1
    requires IsPositiveI32(e.visit.value.visitNumber) && e.visit.value.nodeVisitId !in VisitsById(l.visits)
    ensures IntroduceVisit(s, e.visit.value).Some?
    ensures forall node :: VisitCount(IntroduceVisit(s, e.visit.value).value.visitCounts, node)
                        == MaxVisitNumber(Append(l, e).visits, node)
  {
    var v := e.visit.value;
    assert VisitCount(s.visitCounts, v.nodeId) == MaxVisitNumber(l.visits, v.nodeId);
    forall node
      ensures VisitCount(IntroduceVisit(s, v).value.visitCounts, node) == MaxVisitNumber(Append(l, e).visits, node)
    {
      MaxVisitNumberSnoc(l.visits, v, node);
      assert VisitCount(s.visitCounts, node) == MaxVisitNumber(l.visits, node);
    }
  }

  lemma NoNewVisit(l: Ledger, e: Entry)
    requires e.visit.None?
    ensures Append(l, e).visits == l.visits
  {
  }

  lemma AllVisitsStillJoin(catalog: Catalog, l: Ledger, e: Entry)
    requires AllVisitsJoin(catalog, l) && (e.visit.Some? ==> VisitJoins(catalog, l.instance, e.visit.value))
    ensures AllVisitsJoin(catalog, Append(l, e))
  {
    forall v | v in Append(l, e).visits
      ensures VisitJoins(catalog, Append(l, e).instance, v)
    {
      assert v in l.visits || e.visit == Some(v);
      assert VisitJoins(catalog, l.instance, v);
    }
  }

  lemma LastAfterAppend(l: Ledger, e: Entry)
    requires CurrentContextIsLast(l)
    requires e.projection.currentContextRevisionId
             == if e.context.Some? then Some(e.context.value.contextRevisionId)
                else l.instance.projection.currentContextRevisionId
    ensures CurrentContextIsLast(Append(l, e))
  {
  }

  // ----- Revise -----

  lemma RevisePlanFacts(env: Env, ledgers: map<Uuid, Ledger>, cmd: ReviseCommand, plan: RevisePlan)
    requires CheckRevise(env, ledgers, cmd) == Go(plan)
    ensures cmd.workflowInstanceId in ledgers && plan.ledger == ledgers[cmd.workflowInstanceId]
    ensures HasPointers(plan.ledger)
    ensures CurrentVisit(plan.ledger) == Some(plan.visit) && plan.visit.nodeType.DRAFT?
    ensures CurrentContext(plan.ledger) == Some(plan.context)
    ensures plan.ledger.instance.createdByPrincipalId == cmd.principalId
    ensures cmd.expectedVersion == plan.ledger.instance.projection.workflowStateVersion
  {
    hide PrincipalEnabled, ReviseVersionUsable, CurrentVisit, CurrentContext, GraphOf;
  }

  lemma ReviseEventFits(env: Env, cmd: ReviseCommand, plan: RevisePlan, ids: FreshIds)
    requires Coherent(env.catalog, plan.ledger)
    requires HasPointers(plan.ledger)
    requires CurrentVisit(plan.ledger) == Some(plan.visit) && plan.visit.nodeType.DRAFT?
    requires CurrentContext(plan.ledger) == Some(plan.context)
    requires FreshIn(plan.ledger, ReviseEntry(env, cmd, plan, ids))
    requires ReviseEntry(env, cmd, plan, ids).context.value.revisionNumber == plan.context.revisionNumber + 1
    requires Inc32(plan.ledger.instance.projection.workflowStateVersion) == |plan.ledger.events| + 1
    ensures EventFits(env.catalog, plan.ledger, ReviseEntry(env, cmd, plan, ids))
  {
    hide FactsValid, AllVisitsJoin, Fold, ContextsById, VisitsById, SubmissionsById, TransitionFacts, MaxVisitNumber;
    var l, e := plan.ledger, ReviseEntry(env, cmd, plan, ids);
    var f' := FactsOf(env.catalog, Append(l, e));
    var s := FoldedState(env.catalog, l);
    FoldedFacts(env.catalog, l);
    HeaderOfNext(env.catalog, l, e);
    AppendedMaps(l, e);
    NoNewVisit(l, e);
    assert Lookup(f'.contexts, e.event.contextRevisionId) == e.context;
    assert Lookup(f'.contexts, s.currentContext) == Some(plan.context);
    assert Lookup(f'.visits, e.event.sourceNodeVisitId) == Some(plan.visit);
  }

  lemma ReviseKeepsCoherence(env: Env, ledgers: map<Uuid, Ledger>, cmd: ReviseCommand, plan: RevisePlan, ids: FreshIds)
    requires CheckRevise(env, ledgers, cmd) == Go(plan) && Coherent(env.catalog, plan.ledger)
    requires cmd.workflowInstanceId in ledgers
    requires EntryInsertable(ledgers, ledgers[cmd.workflowInstanceId], ReviseEntry(env, cmd, plan, ids))
    ensures Coherent(env.catalog, Append(plan.ledger, ReviseEntry(env, cmd, plan, ids)))
  {
    hide FactsValid, AllVisitsJoin, Fold, Coupled, EventFits, CheckRevise, VisitInsertable, SubmissionInsertable;
    var l, e := plan.ledger, ReviseEntry(env, cmd, plan, ids);
    RevisePlanFacts(env, ledgers, cmd, plan);
    InsertableIsFresh(ledgers, cmd.workflowInstanceId, e);
    CurrentContextOf(env.catalog, l);
    VersionBounded(env.catalog, l);
    ReviseEventFits(env, cmd, plan, ids);
    AllVisitsStillJoin(env.catalog, l, e);
    LastAfterAppend(l, e);
    AppendedFactsValid(env.catalog, l, e);
    AppendIsCoherent(env.catalog, l, e);
  }

  /** The three validators at once. */
  lemma AppendedFactsValid(catalog: Catalog, l: Ledger, e: Entry)
    requires FactsValid(FactsOf(catalog, l), l) && FreshIn(l, e)
    requires e.context.Some? ==>
               var c := e.context.value;
               && c.workflowInstanceId == l.instance.workflowInstanceId
               && c.revisionNumber == |l.contexts| + 1
               && c.previousRevisionId == Some(l.contexts[|l.contexts| - 1].contextRevisionId)
               && c.payloadDigest == OfJson(c.payload)
    requires e.visit.Some? ==>
               VisitValid(l.instance, e.visit.value, FactsOf(catalog, l).transitions)
    requires e.submission.Some? ==>
               var f := FactsOf(catalog, Append(l, e));
               SubmissionValid(f.instance, f.contexts, f.visits, e.submission.value, f.transitions)
    ensures FactsValid(FactsOf(catalog, Append(l, e)), Append(l, e))
  {
    hide VisitValid, SubmissionValid, FreshIn;
    ContextsStayValid(l, e);
    VisitsStayValid(l, e, FactsOf(catalog, l).transitions);
    SubmissionsStayValid(catalog, l, e);
  }

  // ----- Transition -----

  lemma TransitionPlanFacts(env: Env, ledgers: map<Uuid, Ledger>, cmd: TransitionCommand, plan: TransitionPlan)
    requires CheckTransition(env, ledgers, cmd) == Go(plan)
    ensures cmd.workflowInstanceId in ledgers && plan.ledger == ledgers[cmd.workflowInstanceId]
    ensures HasPointers(plan.ledger) && CurrentVisit(plan.ledger) == Some(plan.visit)
    ensures !plan.visit.nodeType.TERMINAL? && plan.visit.assigneePrincipalId == Some(cmd.principalId)
    ensures cmd.expectedVersion == plan.ledger.instance.projection.workflowStateVersion
    ensures var version := plan.ledger.instance.definitionVersionId;
      && NodeOf(env.catalog, version, plan.visit.nodeId) == Some(plan.source)
      && TransitionOf(env.catalog, version, cmd.transitionId) == Some(plan.transition)
      && NodeOf(env.catalog, version, plan.transition.targetNodeId) == Some(plan.target)
    ensures plan.transition.sourceNodeId == plan.visit.nodeId
    ensures EffectFits(plan.source, plan.transition).Go? && TargetFits(plan.source, plan.transition, plan.target).Go?
    ensures plan.target.nodeType.TERMINAL? <==> plan.assigneeId.None?
    ensures cmd.submissionPayload.Some? ==>
              ConformsTo(env.catalog, plan.transition.submissionSchema, cmd.submissionPayload.value)
  {
    hide PrincipalEnabled, VersionUsable, CurrentVisit, GraphOf, NodeOf, TransitionOf, ResolveRule, EffectFits, TargetFits,
         ReturnReferencesHold;
  }

  /** The transition of a plan is among the facts that the replay loads. */
  lemma TransitionIsLoaded(catalog: Catalog, l: Ledger, id: Uuid, t: TransitionDefinition)
    requires TransitionOf(catalog, l.instance.definitionVersionId, id) == Some(t)
    ensures t.transitionId in FactsOf(catalog, l).transitions
    ensures FactsOf(catalog, l).transitions[t.transitionId] == FactOf(l.instance.definitionVersionId, t)
  {
    hide TransitionsById, ContextsById, VisitsById, SubmissionsById;
  }

  /** What an appended target visit, reached by a transition, satisfies. */
  predicate TargetVisitFits(catalog: Catalog, l: Ledger, t: TransitionDefinition, target: NodeDefinition, v: VisitFact) {
    && v == VisitRow(l.instance, v.nodeVisitId, target, MaxVisitNumber(l.visits, target.nodeId) + 1, v.assigneePrincipalId,
                     Some(t.transitionId))
    && (target.nodeType.TERMINAL? <==> v.assigneePrincipalId.None?)
  }

  lemma TargetVisitIsValid(catalog: Catalog, l: Ledger, id: Uuid, t: TransitionDefinition, target: NodeDefinition, v: VisitFact)
    requires TransitionOf(catalog, l.instance.definitionVersionId, id) == Some(t)
    requires NodeOf(catalog, l.instance.definitionVersionId, t.targetNodeId) == Some(target)
    requires TargetVisitFits(catalog, l, t, target, v) && v.visitNumber >= 1
    ensures VisitValid(l.instance, v, FactsOf(catalog, l).transitions) && VisitJoins(catalog, l.instance, v)
  {
    hide NodeOf, TransitionOf, MaxVisitNumber, FactsOf;
    TransitionIsLoaded(catalog, l, id, t);
  }

  lemma SubmissionIsValid(catalog: Catalog, l: Ledger, e: Entry, visit: VisitFact, t: TransitionDefinition, id: Uuid)
    requires FreshIn(l, e) && e.submission.Some?
    requires TransitionOf(catalog, l.instance.definitionVersionId, id) == Some(t) && t.sourceNodeId == visit.nodeId
    requires CurrentVisit(l) == Some(visit)
    requires var s := e.submission.value;
      && s.workflowInstanceId == l.instance.workflowInstanceId && s.payloadDigest == OfJson(s.payload)
      && s.transitionId == t.transitionId && s.sourceNodeVisitId == visit.nodeVisitId
      && s.contextRevisionId in FactsOf(catalog, Append(l, e)).contexts
    ensures var f := FactsOf(catalog, Append(l, e));
      SubmissionValid(f.instance, f.contexts, f.visits, e.submission.value, f.transitions)
  {
    hide ContextsById, VisitsById, SubmissionsById, TransitionFacts, TransitionOf;
    AppendedMaps(l, e);
    assert FactsOf(catalog, Append(l, e)).transitions == FactsOf(catalog, l).transitions;
    TransitionIsLoaded(catalog, l, id, t);
  }

  /** What the replay looks up for a step, and that the step fits. */
  lemma StepLoads(catalog: Catalog, l: Ledger, e: Entry, visit: VisitFact, t: TransitionDefinition, target: NodeDefinition,
                  id: Uuid)
    requires Coherent(catalog, l) && CurrentVisit(l) == Some(visit) && FreshIn(l, e) && e.visit.Some?
    requires TransitionOf(catalog, l.instance.definitionVersionId, id) == Some(t)
    requires t.sourceNodeId == visit.nodeId && t.targetNodeId == target.nodeId
    requires e.visit.value.nodeId == target.nodeId && e.visit.value.enteredByTransitionId == Some(t.transitionId)
    requires e.event == StepEvent(e.event, visit, t, target, e.visit.value.nodeVisitId, e.event.contextRevisionId,
                                  e.event.submissionId)
    ensures var f', s, step := FactsOf(catalog, Append(l, e)), FoldedState(catalog, l),
                               StepOf(visit, t, target, e.visit.value.nodeVisitId);
      && Lookup(f'.visits, e.event.sourceNodeVisitId) == Some(visit)
      && Lookup(f'.visits, e.event.targetNodeVisitId) == e.visit
      && t.transitionId in f'.transitions && f'.transitions[t.transitionId] == FactOf(l.instance.definitionVersionId, t)
      && StepFits(s, e.event, step, visit, e.visit.value, f'.transitions[t.transitionId])
  {
    hide FactsValid, AllVisitsJoin, Fold, ContextsById, VisitsById, SubmissionsById, TransitionFacts, TransitionOf,
         MaxVisitNumber, VisitCount;
    FoldedFacts(catalog, l);
    AppendedMaps(l, e);
    TransitionIsLoaded(catalog, l, id, t);
    assert FactsOf(catalog, Append(l, e)).transitions == FactsOf(catalog, l).transitions;
  }

  lemma TransitionEventFits(env: Env, cmd: TransitionCommand, plan: TransitionPlan, ids: FreshIds)
    requires Coherent(env.catalog, plan.ledger) && HasPointers(plan.ledger)
    requires CurrentVisit(plan.ledger) == Some(plan.visit)
    requires TransitionOf(env.catalog, plan.ledger.instance.definitionVersionId, cmd.transitionId) == Some(plan.transition)
    requires plan.transition.sourceNodeId == plan.visit.nodeId && plan.transition.targetNodeId == plan.target.nodeId
    requires FreshIn(plan.ledger, TransitionEntry(env, cmd, plan, ids))
    requires IsPositiveI32(TransitionEntry(env, cmd, plan, ids).visit.value.visitNumber)
    requires Inc32(plan.ledger.instance.projection.workflowStateVersion) == |plan.ledger.events| + 1
    ensures EventFits(env.catalog, plan.ledger, TransitionEntry(env, cmd, plan, ids))
  {
    hide FactsValid, AllVisitsJoin, Fold, ContextsById, VisitsById, SubmissionsById, TransitionFacts, MaxVisitNumber,
         TransitionOf, IntroduceVisit, VisitCount, StepFits;
    var l, e := plan.ledger, TransitionEntry(env, cmd, plan, ids);
    var f' := FactsOf(env.catalog, Append(l, e));
    var s := FoldedState(env.catalog, l);
    FoldedFacts(env.catalog, l);
    HeaderOfNext(env.catalog, l, e);
    AppendedMaps(l, e);
    StepLoads(env.catalog, l, e, plan.visit, plan.transition, plan.target, cmd.transitionId);
    var t := f'.transitions[plan.transition.transitionId];
    var data := e.event.eventData.value;
    assert e.submission.Some? ==> Lookup(f'.submissions, e.event.submissionId) == e.submission;
    var s1 := ApplyOptionalSubmission(f', s, e.event, data, t).value;
    assert s1 == s.(introducedSubmissions := s1.introducedSubmissions);
    assert s1.introducedSubmissions == SubmissionsById(Append(l, e).submissions).Keys;
    CountsAfterVisit(l, e, s);
    IntroduceVisitFrame(s, s1, e.visit.value);
  }

  /** Introducing a visit looks only at the visit fields of the state. */
  lemma IntroduceVisitFrame(s: ReplayState, s1: ReplayState, v: VisitFact)
    requires s1.introducedVisits == s.introducedVisits && s1.visitCounts == s.visitCounts
    requires IntroduceVisit(s, v).Some?
    ensures IntroduceVisit(s1, v).Some?
    ensures IntroduceVisit(s1, v).value
         == s1.(introducedVisits := s.introducedVisits + {v.nodeVisitId},
                visitCounts := IntroduceVisit(s, v).value.visitCounts)
  {
  }

  lemma TransitionKeepsCoherence(env: Env, ledgers: map<Uuid, Ledger>, cmd: TransitionCommand, plan: TransitionPlan,
                                 ids: FreshIds)
    requires CheckTransition(env, ledgers, cmd) == Go(plan) && Coherent(env.catalog, plan.ledger)
    requires cmd.workflowInstanceId in ledgers && HasPointers(plan.ledger)
    requires EntryInsertable(ledgers, ledgers[cmd.workflowInstanceId], TransitionEntry(env, cmd, plan, ids))
    ensures Coherent(env.catalog, Append(plan.ledger, TransitionEntry(env, cmd, plan, ids)))
  {
    hide FactsValid, AllVisitsJoin, Fold, Coupled, EventFits, CheckTransition, ContextInsertable, SubmissionInsertable,
         VisitValid, VisitJoins, SubmissionValid, TransitionOf, NodeOf, MaxVisitNumber, ContextsById, VisitsById,
         SubmissionsById, TransitionFacts;
    var l, e := plan.ledger, TransitionEntry(env, cmd, plan, ids);
    TransitionPlanFacts(env, ledgers, cmd, plan);
    InsertableIsFresh(ledgers, cmd.workflowInstanceId, e);
    VersionBounded(env.catalog, l);
    TransitionEventFits(env, cmd, plan, ids);
    TargetVisitIsValid(env.catalog, l, cmd.transitionId, plan.transition, plan.target, e.visit.value);
    if e.submission.Some? {
      CurrentContextOf(env.catalog, l);
      AppendedMaps(l, e);
      SubmissionIsValid(env.catalog, l, e, plan.visit, plan.transition, cmd.transitionId);
    }
    AllVisitsStillJoin(env.catalog, l, e);
    LastAfterAppend(l, e);
    AppendedFactsValid(env.catalog, l, e);
    AppendIsCoherent(env.catalog, l, e);
  }

  // ----- Combined -----

  lemma CombinedPlanFacts(env: Env, ledgers: map<Uuid, Ledger>, cmd: CombinedCommand, plan: CombinedPlan)
    requires CheckCombined(env, ledgers, cmd) == Go(plan)
    ensures cmd.workflowInstanceId in ledgers && plan.ledger == ledgers[cmd.workflowInstanceId]
    ensures HasPointers(plan.ledger) && CurrentVisit(plan.ledger) == Some(plan.visit)
    ensures CurrentContext(plan.ledger) == Some(plan.context)
    ensures plan.visit.nodeType.DRAFT? && plan.visit.assigneePrincipalId == Some(cmd.principalId)
    ensures plan.ledger.instance.createdByPrincipalId == cmd.principalId
    ensures cmd.expectedVersion == plan.ledger.instance.projection.workflowStateVersion
    ensures var version := plan.ledger.instance.definitionVersionId;
      && NodeOf(env.catalog, version, plan.visit.nodeId).Some?
      && NodeOf(env.catalog, version, plan.visit.nodeId).value.primaryAdvanceTransitionId == Some(plan.transition.transitionId)
      && TransitionOf(env.catalog, version, cmd.transitionId) == Some(plan.transition)
      && NodeOf(env.catalog, version, plan.transition.targetNodeId) == Some(plan.target)
    ensures plan.transition.sourceNodeId == plan.visit.nodeId && plan.transition.transitionEffect.ADVANCE?
    ensures plan.target.nodeType.TERMINAL? <==> plan.assigneeId.None?
  {
    hide PrincipalEnabled, VersionUsable, CurrentVisit, CurrentContext, GraphOf, NodeOf, TransitionOf, ResolveRule, ConformsTo;
  }

  /** The contexts and the submission that the replay loads for the event of a combined command. */
  lemma CombinedLoads(env: Env, cmd: CombinedCommand, plan: CombinedPlan, ids: FreshIds)
    requires Coherent(env.catalog, plan.ledger)
    requires CurrentContext(plan.ledger) == Some(plan.context) && FreshIn(plan.ledger, CombinedEntry(env, cmd, plan, ids))
    requires CombinedEntry(env, cmd, plan, ids).context.value.revisionNumber == plan.context.revisionNumber + 1
    ensures var e, s := CombinedEntry(env, cmd, plan, ids), FoldedState(env.catalog, plan.ledger);
      var f' := FactsOf(env.catalog, Append(plan.ledger, e));
      && Lookup(f'.contexts, s.currentContext) == Some(plan.context)
      && Lookup(f'.contexts, e.event.contextRevisionId) == e.context
      && Lookup(f'.submissions, e.event.submissionId) == e.submission
      && CombinedContextFits(s, e.event, e.event.eventData.value, plan.context, e.context.value)
  {
    hide Coherent, ContextsById, VisitsById, SubmissionsById, TransitionFacts, MaxVisitNumber, Fold;
    FoldedFacts(env.catalog, plan.ledger);
    AppendedMaps(plan.ledger, CombinedEntry(env, cmd, plan, ids));
  }

  /** The combined event passes its checks, so that what is left is to introduce its rows. */
  lemma CombinedApplies(env: Env, cmd: CombinedCommand, plan: CombinedPlan, ids: FreshIds)
    requires Coherent(env.catalog, plan.ledger) && HasPointers(plan.ledger)
    requires CurrentVisit(plan.ledger) == Some(plan.visit) && CurrentContext(plan.ledger) == Some(plan.context)
    requires TransitionOf(env.catalog, plan.ledger.instance.definitionVersionId, cmd.transitionId) == Some(plan.transition)
    requires plan.transition.sourceNodeId == plan.visit.nodeId && plan.transition.targetNodeId == plan.target.nodeId
    requires plan.transition.transitionEffect.ADVANCE?
    requires FreshIn(plan.ledger, CombinedEntry(env, cmd, plan, ids))
    requires CombinedEntry(env, cmd, plan, ids).context.value.revisionNumber == plan.context.revisionNumber + 1
    ensures var e, s := CombinedEntry(env, cmd, plan, ids), FoldedState(env.catalog, plan.ledger);
      ApplyCombined(FactsOf(env.catalog, Append(plan.ledger, e)), s, e.event)
      == IntroduceAll(s, e.context.value, e.submission.value, e.visit.value)
  {
    hide FactsOf, Append, Fold, Coherent, MaxVisitNumber, TransitionOf, IntroduceAll, StepFits, CombinedContextFits, CurrentVisit,
         CurrentContext, FreshIn, PrincipalTypeOf;
    var l, e := plan.ledger, CombinedEntry(env, cmd, plan, ids);
    StepLoads(env.catalog, l, e, plan.visit, plan.transition, plan.target, cmd.transitionId);
    CombinedLoads(env, cmd, plan, ids);
  }

  /** Introducing a context, a submission and a visit at once keeps the replay coupled with the stored rows. */
  lemma AllIntroduced(l: Ledger, e: Entry, s: ReplayState)
    requires Coupled(l, s) && FreshIn(l, e) && e.context.Some? && e.submission.Some? && e.visit.Some?
    requires e.visit.value.visitNumber == MaxVisitNumber(l.visits, e.visit.value.nodeId) + 1
    requires IsPositiveI32(e.visit.value.visitNumber)
    requires e.projection == Projection(Some(e.context.value.contextRevisionId), Some(e.visit.value.nodeVisitId), |l.events| + 1)
    ensures var r := IntroduceAll(s, e.context.value, e.submission.value, e.visit.value);
      r.Some? && Coupled(Append(l, e), r.value.(version := |l.events| + 1))
  {
    hide ContextsById, VisitsById, SubmissionsById, MaxVisitNumber, IntroduceVisit, VisitCount;
    AppendedMaps(l, e);
    CountsAfterVisit(l, e, s);
    var s2 := IntroduceSubmission(IntroduceContext(s, e.context.value).value, e.submission.value).value;
    IntroduceVisitFrame(s, s2, e.visit.value);
  }

  lemma CombinedEventFits(env: Env, cmd: CombinedCommand, plan: CombinedPlan, ids: FreshIds)
    requires Coherent(env.catalog, plan.ledger) && HasPointers(plan.ledger)
    requires CurrentVisit(plan.ledger) == Some(plan.visit) && CurrentContext(plan.ledger) == Some(plan.context)
    requires TransitionOf(env.catalog, plan.ledger.instance.definitionVersionId, cmd.transitionId) == Some(plan.transition)
    requires plan.transition.sourceNodeId == plan.visit.nodeId && plan.transition.targetNodeId == plan.target.nodeId
    requires plan.transition.transitionEffect.ADVANCE?
    requires FreshIn(plan.ledger, CombinedEntry(env, cmd, plan, ids))
    requires IsPositiveI32(CombinedEntry(env, cmd, plan, ids).visit.value.visitNumber)
    requires CombinedEntry(env, cmd, plan, ids).context.value.revisionNumber == plan.context.revisionNumber + 1
    requires Inc32(plan.ledger.instance.projection.workflowStateVersion) == |plan.ledger.events| + 1
    ensures EventFits(env.catalog, plan.ledger, CombinedEntry(env, cmd, plan, ids))
  {
    hide FactsValid, FactsOf, AllVisitsJoin, Fold, MaxVisitNumber, TransitionOf, IntroduceAll, Coupled, Append, Coherent,
         ApplyInitial, ApplyContextRevision, ApplyTransition, ApplyCombined, ApplyAdmin, PrincipalTypeOf, FreshIn;
    var l, e := plan.ledger, CombinedEntry(env, cmd, plan, ids);
    FoldedFacts(env.catalog, l);
    HeaderOfNext(env.catalog, l, e);
    CombinedApplies(env, cmd, plan, ids);
    AllIntroduced(l, e, FoldedState(env.catalog, l));
  }

  lemma CombinedKeepsCoherence(env: Env, ledgers: map<Uuid, Ledger>, cmd: CombinedCommand, plan: CombinedPlan, ids: FreshIds)
    requires CheckCombined(env, ledgers, cmd) == Go(plan) && Coherent(env.catalog, plan.ledger)
    requires cmd.workflowInstanceId in ledgers
    requires EntryInsertable(ledgers, ledgers[cmd.workflowInstanceId], CombinedEntry(env, cmd, plan, ids))
    ensures Coherent(env.catalog, Append(plan.ledger, CombinedEntry(env, cmd, plan, ids)))
  {
    hide FactsValid, AllVisitsJoin, Fold, Coupled, EventFits, CheckCombined, SubmissionInsertable,
         VisitValid, VisitJoins, SubmissionValid, TransitionOf, NodeOf, MaxVisitNumber, ContextsById, VisitsById,
         SubmissionsById, TransitionFacts;
    var l, e := plan.ledger, CombinedEntry(env, cmd, plan, ids);
    CombinedPlanFacts(env, ledgers, cmd, plan);
    InsertableIsFresh(ledgers, cmd.workflowInstanceId, e);
    CurrentContextOf(env.catalog, l);
    VersionBounded(env.catalog, l);
    CombinedEventFits(env, cmd, plan, ids);
    TargetVisitIsValid(env.catalog, l, cmd.transitionId, plan.transition, plan.target, e.visit.value);
    AppendedMaps(l, e);
    SubmissionIsValid(env.catalog, l, e, plan.visit, plan.transition, cmd.transitionId);
    AllVisitsStillJoin(env.catalog, l, e);
    LastAfterAppend(l, e);
    AppendedFactsValid(env.catalog, l, e);
    AppendIsCoherent(env.catalog, l, e);
  }

  // ----- Override -----

  lemma OverridePlanFacts(env: Env, st: DbState, cmd: OverrideCommand, plan: OverridePlan)
    requires CheckOverride(env, st, cmd) == Go(plan)
    ensures cmd.workflowInstanceId in st.ledgers && plan.ledger == st.ledgers[cmd.workflowInstanceId]
    ensures HasPointers(plan.ledger) && CurrentVisit(plan.ledger) == Some(plan.visit)
    ensures cmd.expectedVersion == plan.ledger.instance.projection.workflowStateVersion < I32_MAX
    ensures NodeOf(env.catalog, plan.ledger.instance.definitionVersionId, cmd.targetNodeId) == Some(plan.target)
    ensures cmd.operation.TERMINATE_INSTANCE? <==> plan.target.nodeType.TERMINAL?
    ensures plan.target.nodeType.TERMINAL? <==> plan.assigneeId.None?
    ensures AdminPayloadBounded(cmd.reason, cmd.relatedReferences)
    ensures Reconstruct(env.catalog, st.receipts, plan.ledger) == Some(plan.ledger.instance.projection)
  {
    hide PrincipalEnabled, CurrentVisit, NodeOf, Reconstruct, AdminPayloadBounded, ExpectDigest, AdminTarget, MaxVisitNumber,
         BindingsOf;
  }

  lemma OverrideEventFits(env: Env, cmd: OverrideCommand, plan: OverridePlan, ids: FreshIds)
    requires Coherent(env.catalog, plan.ledger) && HasPointers(plan.ledger)
    requires CurrentVisit(plan.ledger) == Some(plan.visit)
    requires cmd.operation.TERMINATE_INSTANCE? <==> plan.target.nodeType.TERMINAL?
    requires AdminPayloadBounded(cmd.reason, cmd.relatedReferences)
    requires FreshIn(plan.ledger, OverrideEntry(env, cmd, plan, ids))
    requires IsPositiveI32(OverrideEntry(env, cmd, plan, ids).visit.value.visitNumber)
    requires Inc32(plan.ledger.instance.projection.workflowStateVersion) == |plan.ledger.events| + 1
    ensures EventFits(env.catalog, plan.ledger, OverrideEntry(env, cmd, plan, ids))
  {
    hide FactsValid, AllVisitsJoin, Fold, ContextsById, VisitsById, SubmissionsById, TransitionFacts, MaxVisitNumber,
         IntroduceVisit, VisitCount, AdminPayloadBounded;
    var l, e := plan.ledger, OverrideEntry(env, cmd, plan, ids);
    var f' := FactsOf(env.catalog, Append(l, e));
    var s := FoldedState(env.catalog, l);
    FoldedFacts(env.catalog, l);
    HeaderOfNext(env.catalog, l, e);
    AppendedMaps(l, e);
    assert Lookup(f'.visits, e.event.sourceNodeVisitId) == Some(plan.visit);
    assert Lookup(f'.visits, e.event.targetNodeVisitId) == e.visit;
    assert AdminFits(f', s, e.event, e.event.eventData.value, plan.visit, e.visit.value);
    CountsAfterVisit(l, e, s);
    IntroduceVisitFrame(s, s, e.visit.value);
  }

  lemma OverrideKeepsCoherence(env: Env, st: DbState, cmd: OverrideCommand, plan: OverridePlan, ids: FreshIds)
    requires CheckOverride(env, st, cmd) == Go(plan) && Coherent(env.catalog, plan.ledger)
    requires cmd.workflowInstanceId in st.ledgers
    requires EntryInsertable(st.ledgers, st.ledgers[cmd.workflowInstanceId], OverrideEntry(env, cmd, plan, ids))
    ensures Coherent(env.catalog, Append(plan.ledger, OverrideEntry(env, cmd, plan, ids)))
  {
    hide FactsValid, AllVisitsJoin, Fold, Coupled, EventFits, CheckOverride, ContextInsertable, SubmissionInsertable,
         NodeOf, MaxVisitNumber, ContextsById, VisitsById, SubmissionsById, TransitionFacts;
    var l, e := plan.ledger, OverrideEntry(env, cmd, plan, ids);
    OverridePlanFacts(env, st, cmd, plan);
    InsertableIsFresh(st.ledgers, cmd.workflowInstanceId, e);
    VersionBounded(env.catalog, l);
    OverrideEventFits(env, cmd, plan, ids);
    AllVisitsStillJoin(env.catalog, l, e);
    LastAfterAppend(l, e);
    AppendedFactsValid(env.catalog, l, e);
    AppendIsCoherent(env.catalog, l, e);
  }

  // ----- Create and import -----

  /** A ledger of one context, one visit and one initial event that the replay accepts. */
  lemma InitialIsCoherent(catalog: Catalog, l: Ledger)
    requires |l.contexts| == |l.visits| == |l.events| == 1 && l.submissions == []
    requires var row, c, v, e := l.instance, l.contexts[0], l.visits[0], l.events[0];
      && c == ContextFact(c.contextRevisionId, row.workflowInstanceId, 1, None, c.payload, OfJson(c.payload),
                          c.createdByPrincipalId)
      && v.workflowInstanceId == row.workflowInstanceId && v.definitionVersionId == row.definitionVersionId
      && v.visitNumber == 1 && v.enteredByTransitionId.None?
      && (v.nodeType.TERMINAL? <==> v.assigneePrincipalId.None?)
      && VisitJoins(catalog, row, v)
      && row.projection == Projection(Some(c.contextRevisionId), Some(v.nodeVisitId), 1)
      && e.workflowInstanceId == row.workflowInstanceId && e.eventSchemaVersion.V1?
      && e.eventSequence == e.newWorkflowStateVersion == 1 && e.oldWorkflowStateVersion == 0
      && e.contextRevisionId == Some(c.contextRevisionId) && e.targetNodeVisitId == Some(v.nodeVisitId)
      && (e.eventType.INSTANCE_CREATED? || e.eventType.WORKFLOW_INSTANCE_IMPORTED?)
      && IntactData(e).Some?
      && InitialFits(FactsOf(catalog, l), START, e, IntactData(e).value, c, v)
    ensures Coherent(catalog, l)
  {
    hide InitialFits, VisitJoins, TransitionFacts, NodeOf;
    var row, c, v, e := l.instance, l.contexts[0], l.visits[0], l.events[0];
    var f := FactsOf(catalog, l);
    SingletonMaps(l);
    assert l.events == [e] && l.events[..0] == [];
    assert Fold(f, l.events) == Apply(f, START, e, 1);
    forall node
      ensures VisitCount(map[v.nodeId := 1], node) == MaxVisitNumber(l.visits, node)
    {
      assert l.visits == [] + [v];
      MaxVisitNumberSnoc([], v, node);
    }
  }

  lemma SingletonMaps(l: Ledger)
    requires |l.contexts| == |l.visits| == 1 && l.submissions == []
    ensures ContextsById(l.contexts) == map[l.contexts[0].contextRevisionId := l.contexts[0]]
    ensures VisitsById(l.visits) == map[l.visits[0].nodeVisitId := l.visits[0]]
    ensures SubmissionsById(l.submissions) == map[]
  {
    assert l.contexts[..0] == [] && l.visits[..0] == [];
  }

  lemma CreatePlanFacts(env: Env, cmd: CreateCommand, plan: CreatePlan)
    requires CheckCreate(env, cmd) == Go(plan)
    ensures plan.node.nodeType.DRAFT? && plan.node.assigneeRef == Some(plan.rule)
    ensures OfType(GraphOf(env.catalog, cmd.definitionVersionId).nodes, DRAFT) == [plan.node]
    ensures cmd.definitionVersionId in env.catalog.versions
    ensures env.catalog.versions[cmd.definitionVersionId].domainId == cmd.domainId
  {
    hide PrincipalEnabled, DomainEnabled, ResolveRule, ConformsTo, GraphOf, IsMember;
  }

  lemma CreateIsCoherent(env: Env, cmd: CreateCommand, plan: CreatePlan, ids: FreshIds)
    requires CheckCreate(env, cmd) == Go(plan)
    requires UniqueNodeIds(GraphOf(env.catalog, cmd.definitionVersionId).nodes)
    ensures Coherent(env.catalog, CreatedLedger(env, cmd, plan, ids))
  {
    hide CheckCreate, NodesById, TransitionFacts, Coherent;
    CreatePlanFacts(env, cmd, plan);
    var nodes := GraphOf(env.catalog, cmd.definitionVersionId).nodes;
    assert plan.node in OfType(nodes, DRAFT);
    NodeIsItsLookup(nodes, plan.node);
    InitialIsCoherent(env.catalog, CreatedLedger(env, cmd, plan, ids));
  }

  lemma ImportPlanFacts(env: Env, ledgers: map<Uuid, Ledger>, cmd: ImportCommand, plan: ImportPlan)
    requires CheckImport(env, ledgers, cmd) == Go(plan)
    ensures NodeOf(env.catalog, cmd.definitionVersionId, cmd.importedNodeId) == Some(plan.node)
    ensures PrincipalTypeOf(env.catalog, cmd.principalId).SERVICE?
    ensures !PrincipalTypeOf(env.catalog, plan.creatorId).SERVICE?
    ensures plan.node.nodeType.TERMINAL? <==> plan.assigneeId.None?
    ensures cmd.definitionVersionId in env.catalog.versions
    ensures env.catalog.versions[cmd.definitionVersionId].domainId == cmd.domainId
    ensures !ReferenceUsed(ledgers, MigrationKey(cmd.legacyRecordId))
  {
    hide PrincipalEnabled, DomainEnabled, ConformsTo, GraphOf, NodeOf, ReferenceUsed, Holders, ImportCandidate, SoleOwner,
         PrincipalTypeOf;
  }

  lemma ImportIsCoherent(env: Env, ledgers: map<Uuid, Ledger>, cmd: ImportCommand, plan: ImportPlan, ids: FreshIds)
    requires CheckImport(env, ledgers, cmd) == Go(plan)
    ensures Coherent(env.catalog, ImportedLedger(env, cmd, plan, ids))
  {
    hide CheckImport, NodeOf, TransitionFacts, Coherent, PrincipalTypeOf;
    ImportPlanFacts(env, ledgers, cmd, plan);
    InitialIsCoherent(env.catalog, ImportedLedger(env, cmd, plan, ids));
  }

  // ----- Rebuild -----

  /** On a coherent ledger a rebuild finds nothing to change. */
  lemma RebuildKeepsCoherence(env: Env, st: DbState, cmd: RebuildCommand, plan: RebuildPlan)
    requires CheckRebuild(env, st, cmd) == Go(plan) && Coherent(env.catalog, plan.ledger)
    requires LinkageHolds(st.receipts, FactsOf(env.catalog, plan.ledger), plan.ledger.events)
    ensures cmd.workflowInstanceId in st.ledgers && plan.ledger == st.ledgers[cmd.workflowInstanceId]
    ensures plan.projection == plan.ledger.instance.projection
  {
    hide Coherent, Reconstruct, LinkageHolds, PrincipalEnabled, BindingsOf;
    CoherentReconstructs(env.catalog, st.receipts, plan.ledger);
  }
}
