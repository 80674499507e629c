/**
 Which stored facts the recovery accepts, said of the rows and of each event against the events before it,
 without the replay's state; and the projection that it recomputes from them.
 */
module ReplayLaw {
  import opened Prelude
  import opened DefinitionModel
  import opened RuntimeModel
  import opened KernelState
  import opened EventReplay
  import opened Snapshot
  import opened KeySort
  import opened ReplayMeaning
  import opened Rules
  import opened Resolution

  // ----- One event against its past -----

  /** The context in force after these events. */
  function ContextAfter(past: seq<EventFact>): Option<Uuid> {
    LastOf(ContextOrder(past))
  }

  /** The visit at which the instance stands after these events. */
  function VisitAfter(past: seq<EventFact>): Option<Uuid> {
    LastOf(VisitOrder(past))
  }

  predicate Stored<T>(m: map<Uuid, T>, id: Option<Uuid>) {
    id.Some? && id.value in m
  }

  /** The event belongs to the instance, has the known schema, and numbers the state after it. */
  predicate HasHeader(f: Facts, past: seq<EventFact>, e: EventFact) {
    && e.workflowInstanceId == f.instance.workflowInstanceId && e.eventSchemaVersion.V1?
    && e.eventSequence == e.newWorkflowStateVersion == |past| + 1 && e.oldWorkflowStateVersion == |past|
  }

  /** The event carries these data, and their digest. */
  predicate Carries(e: EventFact, data: EventData) {
    e.eventData == Some(data) && e.eventDataDigest == Some(OfEventData(data))
  }

  /** The event names no transition and no submission. */
  predicate TakesNoStep(e: EventFact) {
    e.submissionId.None? && e.transitionEffect.None? && e.fromNodeId.None? && e.toNodeId.None?
  }

  /** The event names a new context, numbered by its position and linked to the context in force. */
  predicate AddsNextContext(f: Facts, past: seq<EventFact>, e: EventFact) {
    var id, order := e.contextRevisionId, ContextOrder(past);
    && Stored(f.contexts, id) && id.value !in order
    && f.contexts[id.value].revisionNumber == |order| + 1
    && f.contexts[id.value].previousRevisionId == LastOf(order)
  }

  /** The event names a new target visit, numbered among the visits of its node. */
  predicate EntersNextVisit(f: Facts, past: seq<EventFact>, e: EventFact) {
    var id, order := e.targetNodeVisitId, VisitOrder(past);
    && Stored(f.visits, id) && id.value !in order
    && f.visits[id.value].visitNumber == CountOfNode(f.visits, order, f.visits[id.value].nodeId) + 1
  }

  /** The event leaves the visit at which the instance stands, and its columns name both nodes. */
  predicate LeavesCurrentVisit(f: Facts, past: seq<EventFact>, e: EventFact)
    requires Stored(f.visits, e.targetNodeVisitId)
  {
    && Stored(f.visits, e.sourceNodeVisitId) && e.sourceNodeVisitId == VisitAfter(past)
    && e.fromNodeId == Some(f.visits[e.sourceNodeVisitId.value].nodeId)
    && e.toNodeId == Some(f.visits[e.targetNodeVisitId.value].nodeId)
  }

  /** A creation at the DRAFT node, or an import by a service other than the human or agent who owns the instance. */
  predicate IsBirth(f: Facts, past: seq<EventFact>, e: EventFact) {
    && past == [] && TakesNoStep(e) && e.sourceNodeVisitId.None?
    && AddsNextContext(f, past, e) && EntersNextVisit(f, past, e)
    && var c, v := f.contexts[e.contextRevisionId.value], f.visits[e.targetNodeVisitId.value];
    && v.enteredByTransitionId.None?
    && if e.eventType.WORKFLOW_INSTANCE_IMPORTED? then IsImportOf(f.instance, e, c, v)
       else
         && v.nodeType.DRAFT? && v.assigneePrincipalId.Some? && v.assigneeRefType.Some?
         && Carries(e, CreatedData(f.instance.definitionVersionId,
                                   if f.definitionDigest.Some? then f.definitionDigest.value else EmptyDigest,
                                   v.nodeId, v.assigneeRefType.value))
  }

  predicate IsImportOf(row: InstanceRow, e: EventFact, c: ContextFact, v: VisitFact) {
    && e.eventData.Some? && e.eventData.value.ImportedData? && Carries(e, e.eventData.value)
    && e.eventData.value.importedNodeId == v.nodeId && !e.eventData.value.legacySnapshotDigest.EmptyDigest?
    && row.externalReference == Some(MigrationKey(e.eventData.value.legacyRecordId))
    && !row.createdByPrincipalType.SERVICE? && e.actorPrincipalType.SERVICE?
    && c.createdByPrincipalId == row.createdByPrincipalId != e.actorPrincipalId
    && (v.nodeType.TERMINAL? <==> v.assigneePrincipalId.None?)
  }

  /** A revision at a DRAFT visit, which it does not leave. */
  predicate IsRevisionOf(f: Facts, past: seq<EventFact>, e: EventFact) {
    var previous := ContextAfter(past);
    && TakesNoStep(e) && e.sourceNodeVisitId == e.targetNodeVisitId == VisitAfter(past)
    && Stored(f.visits, e.sourceNodeVisitId) && Stored(f.contexts, previous) && AddsNextContext(f, past, e)
    && f.visits[e.sourceNodeVisitId.value].nodeType.DRAFT?
    && Carries(e, RevisedData(previous.value, e.contextRevisionId.value, f.contexts[previous.value].payloadDigest,
                              f.contexts[e.contextRevisionId.value].payloadDigest,
                              f.visits[e.sourceNodeVisitId.value].nodeId))
  }

  /** The step of the event, along the transition by which its target visit was entered. */
  predicate TakesTransition(f: Facts, past: seq<EventFact>, e: EventFact) {
    && EntersNextVisit(f, past, e) && LeavesCurrentVisit(f, past, e)
    && var source, target := f.visits[e.sourceNodeVisitId.value], f.visits[e.targetNodeVisitId.value];
    && Stored(f.transitions, target.enteredByTransitionId)
    && var t := f.transitions[target.enteredByTransitionId.value];
    && t.sourceNodeId == source.nodeId && t.targetNodeId == target.nodeId
    && e.transitionEffect == Some(t.transitionEffect)
  }

  function StepTaken(f: Facts, e: EventFact): StepData
    requires Stored(f.visits, e.sourceNodeVisitId) && Stored(f.visits, e.targetNodeVisitId)
    requires Stored(f.transitions, f.visits[e.targetNodeVisitId.value].enteredByTransitionId)
  {
    var source, target := f.visits[e.sourceNodeVisitId.value], f.visits[e.targetNodeVisitId.value];
    var t := f.transitions[target.enteredByTransitionId.value];
    StepData(t.transitionId, t.transitionKey, t.transitionEffect, source.nodeId, target.nodeId, source.nodeVisitId,
             target.nodeVisitId)
  }

  /** The event names a new submission, made at its source visit, in the context, for its transition. */
  predicate AddsSubmissionAt(f: Facts, past: seq<EventFact>, e: EventFact, contextId: Option<Uuid>, transitionId: Option<Uuid>) {
    && Stored(f.submissions, e.submissionId) && e.submissionId.value !in SubmissionOrder(past)
    && var s := f.submissions[e.submissionId.value];
    && Some(s.sourceNodeVisitId) == e.sourceNodeVisitId && Some(s.contextRevisionId) == contextId
    && Some(s.transitionId) == transitionId
  }

  /** A step in the context in force, with at most one submission. */
  predicate IsTransitionOf(f: Facts, past: seq<EventFact>, e: EventFact) {
    var context := ContextAfter(past);
    && TakesTransition(f, past, e) && e.contextRevisionId == context && context.Some?
    && var transitionId := f.visits[e.targetNodeVisitId.value].enteredByTransitionId;
    && (e.submissionId.Some? ==> AddsSubmissionAt(f, past, e, context, transitionId))
    && Carries(e, TransitionData(StepTaken(f, e), context.value,
                                 if e.submissionId.None? then None
                                 else Some(f.submissions[e.submissionId.value].payloadDigest)))
  }

  /** A revision and an ADVANCE step at once, with a submission in the new context. */
  predicate IsCombinationOf(f: Facts, past: seq<EventFact>, e: EventFact) {
    var previous := ContextAfter(past);
    && TakesTransition(f, past, e) && e.transitionEffect == Some(ADVANCE)
    && Stored(f.contexts, previous) && AddsNextContext(f, past, e)
    && AddsSubmissionAt(f, past, e, e.contextRevisionId, f.visits[e.targetNodeVisitId.value].enteredByTransitionId)
    && Carries(e, CombinedData(previous.value, e.contextRevisionId.value, f.contexts[previous.value].payloadDigest,
                               f.contexts[e.contextRevisionId.value].payloadDigest, StepTaken(f, e),
                               f.submissions[e.submissionId.value].payloadDigest))
  }

  /** A move without a transition, whose data give the reason and the digest of the row before it. */
  predicate IsOverrideOf(f: Facts, past: seq<EventFact>, e: EventFact) {
    && EntersNextVisit(f, past, e) && LeavesCurrentVisit(f, past, e)
    && e.contextRevisionId == ContextAfter(past) && e.submissionId.None?
    && e.eventData.Some? && e.eventData.value.AdminData? && Carries(e, e.eventData.value)
    && var data, target := e.eventData.value, f.visits[e.targetNodeVisitId.value];
    && target.enteredByTransitionId.None?
    && (data.operation.TERMINATE_INSTANCE? <==> target.nodeType.TERMINAL?)
    && e.transitionEffect == Some(if data.operation.TERMINATE_INSTANCE? then TERMINATE else ADVANCE)
    && IsBoundedReason(data.reason) && AreBoundedReferences(data.relatedReferences)
    && data.beforeSnapshotDigest
       == OfSnapshot(BeforeSnapshot(f.instance.workflowInstanceId, f.instance.domainId, f.instance.definitionVersionId,
                                    f.instance.createdByPrincipalId,
                                    Projection(ContextAfter(past), VisitAfter(past), |past|)))
  }

  predicate IsLawfulEvent(f: Facts, past: seq<EventFact>, e: EventFact) {
    && HasHeader(f, past, e)
    && match e.eventType
       case INSTANCE_CREATED => IsBirth(f, past, e)
       case WORKFLOW_INSTANCE_CREATED => IsBirth(f, past, e)
       case WORKFLOW_INSTANCE_IMPORTED => IsBirth(f, past, e)
       case CONTEXT_REVISED => IsRevisionOf(f, past, e)
       case WORKFLOW_CONTEXT_REVISED => IsRevisionOf(f, past, e)
       case WORKFLOW_TRANSITION_COMMITTED => IsTransitionOf(f, past, e)
       case WORKFLOW_CONTEXT_REVISED_AND_TRANSITION_COMMITTED => IsCombinationOf(f, past, e)
       case ADMIN_EMERGENCY_OVERRIDE_COMMITTED => IsOverrideOf(f, past, e)
       case UNSUPPORTED_EVENT => false
  }

  // ----- The replay of one event -----

  lemma ChainEnd(f: Facts, order: seq<Uuid>)
    requires IsContextChain(f, order) && order != []
    ensures order[|order| - 1] in f.contexts && f.contexts[order[|order| - 1]].revisionNumber == |order|
  {
    assert ChainLink(f, order, |order| - 1);
  }

  lemma {:induction false} CountBounded(visits: map<Uuid, VisitFact>, ids: seq<Uuid>, node: Uuid)
    ensures CountOfNode(visits, ids, node) <= |ids|
  {
    if ids != [] {
      CountBounded(visits, ids[..|ids| - 1], node);
    }
  }

  lemma {:induction false} OrderBounded(events: seq<EventFact>)
    ensures |VisitOrder(events)| <= |events|
  {
    if events != [] {
      OrderBounded(events[..|events| - 1]);
    }
  }

  /** What the replay's state says of the past: its sets, its pointers and its next visit number. */
  ghost predicate Remembers(f: Facts, past: seq<EventFact>, s: ReplayState) {
    && s.version == |past|
    && (forall id :: id in s.introducedContexts <==> id in ContextOrder(past))
    && (forall id :: id in s.introducedVisits <==> id in VisitOrder(past))
    && (forall id :: id in s.introducedSubmissions <==> id in SubmissionOrder(past))
    && s.currentContext == ContextAfter(past) && s.currentVisit == VisitAfter(past)
    && (forall node :: VisitCount(s.visitCounts, node) == CountOfNode(f.visits, VisitOrder(past), node) < I32_MAX)
    && (s.currentContext.Some? ==> s.currentContext.value in f.contexts
                                   && f.contexts[s.currentContext.value].revisionNumber == |ContextOrder(past)|)
    && (s.currentContext.None? ==> ContextOrder(past) == [])
    && (past == [] ==> ContextOrder(past) == [] && VisitOrder(past) == [])
  }

  lemma EstablishedRemembers(f: Facts, past: seq<EventFact>, s: ReplayState)
    requires |past| < I32_MAX && Established(f, past, s)
    ensures Remembers(f, past, s)
  {
    hide ContextOrder, VisitOrder, SubmissionOrder, CountOfNode, NumberedAt, ChainLink;
    assert forall id :: id in ContextOrder(past) <==> id in (set x | x in ContextOrder(past));
    assert forall id :: id in VisitOrder(past) <==> id in (set x | x in VisitOrder(past));
    assert forall id :: id in SubmissionOrder(past) <==> id in (set x | x in SubmissionOrder(past));
    forall node
      ensures CountOfNode(f.visits, VisitOrder(past), node) < I32_MAX
    {
      CountBounded(f.visits, VisitOrder(past), node);
      OrderBounded(past);
    }
    if ContextOrder(past) != [] {
      ChainEnd(f, ContextOrder(past));
    }
    if past == [] {
      NothingBefore(past);
    }
  }

  lemma NothingBefore(events: seq<EventFact>)
    requires events == []
    ensures ContextOrder(events) == [] && VisitOrder(events) == []
  {
  }

  lemma BirthReplays(f: Facts, past: seq<EventFact>, e: EventFact, s: ReplayState)
    requires KeysAgree(f) && Remembers(f, past, s) && IsInitial(e)
    ensures ApplyInitial(f, s, e).Some? <==> IsBirth(f, past, e)
  {
    assert forall node :: CountOfNode(f.visits, [], node) == 0;
    hide KeysAgree, ContextOrder, VisitOrder, SubmissionOrder, CountOfNode;
    LookupsAgree(f, e.contextRevisionId);
    LookupsAgree(f, e.targetNodeVisitId);
  }

  lemma RevisionReplays(f: Facts, past: seq<EventFact>, e: EventFact, s: ReplayState)
    requires KeysAgree(f) && Remembers(f, past, s)
    ensures ApplyContextRevision(f, s, e).Some? <==> IsRevisionOf(f, past, e)
  {
    hide KeysAgree, ContextOrder, VisitOrder, SubmissionOrder, CountOfNode;
    LookupsAgree(f, e.contextRevisionId);
    LookupsAgree(f, e.sourceNodeVisitId);
    LookupsAgree(f, s.currentContext);
  }

  lemma EnteringTransition(f: Facts, e: EventFact)
    requires KeysAgree(f)
    ensures forall id :: id in f.transitions ==> f.transitions[id].transitionId == id
    ensures Stored(f.visits, e.targetNodeVisitId) ==>
              var id := f.visits[e.targetNodeVisitId.value].enteredByTransitionId;
              Stored(f.transitions, id) ==> f.transitions[id.value].transitionId == id.value
  {
  }

  lemma TransitionReplays(f: Facts, past: seq<EventFact>, e: EventFact, s: ReplayState)
    requires KeysAgree(f) && Remembers(f, past, s)
    ensures ApplyTransition(f, s, e).Some? <==> IsTransitionOf(f, past, e)
  {
    hide KeysAgree, ContextOrder, VisitOrder, SubmissionOrder, CountOfNode;
    LookupsAgree(f, e.sourceNodeVisitId);
    LookupsAgree(f, e.targetNodeVisitId);
    LookupsAgree(f, e.submissionId);
    EnteringTransition(f, e);
  }

  lemma CombinationReplays(f: Facts, past: seq<EventFact>, e: EventFact, s: ReplayState)
    requires KeysAgree(f) && Remembers(f, past, s)
    ensures ApplyCombined(f, s, e).Some? <==> IsCombinationOf(f, past, e)
  {
    hide KeysAgree, ContextOrder, VisitOrder, SubmissionOrder, CountOfNode;
    LookupsAgree(f, e.contextRevisionId);
    LookupsAgree(f, s.currentContext);
    LookupsAgree(f, e.sourceNodeVisitId);
    LookupsAgree(f, e.targetNodeVisitId);
    LookupsAgree(f, e.submissionId);
    EnteringTransition(f, e);
  }

  lemma OverrideReplays(f: Facts, past: seq<EventFact>, e: EventFact, s: ReplayState)
    requires KeysAgree(f) && Remembers(f, past, s)
    ensures ApplyAdmin(f, s, e).Some? <==> IsOverrideOf(f, past, e)
  {
    hide KeysAgree, ContextOrder, VisitOrder, SubmissionOrder, CountOfNode, AdminPayloadBounded, IsBoundedReason,
         AreBoundedReferences;
    LookupsAgree(f, e.sourceNodeVisitId);
    LookupsAgree(f, e.targetNodeVisitId);
    if e.eventData.Some? && e.eventData.value.AdminData? {
      PayloadBoundsAgree(e.eventData.value.reason, e.eventData.value.relatedReferences);
    }
  }

  lemma EventReplays(f: Facts, past: seq<EventFact>, e: EventFact, s: ReplayState)
    requires KeysAgree(f) && Remembers(f, past, s)
    ensures Apply(f, s, e, |past| + 1).Some? <==> IsLawfulEvent(f, past, e)
  {
    hide KeysAgree, ApplyInitial, ApplyContextRevision, ApplyTransition, ApplyCombined, ApplyAdmin, IsBirth, IsRevisionOf,
         IsTransitionOf, IsCombinationOf, IsOverrideOf, ContextOrder, VisitOrder, SubmissionOrder, CountOfNode;
    match e.eventType
    case INSTANCE_CREATED => BirthReplays(f, past, e, s);
    case WORKFLOW_INSTANCE_CREATED => BirthReplays(f, past, e, s);
    case WORKFLOW_INSTANCE_IMPORTED => BirthReplays(f, past, e, s);
    case CONTEXT_REVISED => RevisionReplays(f, past, e, s);
    case WORKFLOW_CONTEXT_REVISED => RevisionReplays(f, past, e, s);
    case WORKFLOW_TRANSITION_COMMITTED => TransitionReplays(f, past, e, s);
    case WORKFLOW_CONTEXT_REVISED_AND_TRANSITION_COMMITTED => CombinationReplays(f, past, e, s);
    case ADMIN_EMERGENCY_OVERRIDE_COMMITTED => OverrideReplays(f, past, e, s);
    case UNSUPPORTED_EVENT =>
  }

  // ----- The whole history -----

  /** Every event is lawful against those before it. */
  predicate IsLawfulHistory(f: Facts, events: seq<EventFact>) {
    && |events| <= I32_MAX
    && forall i :: 0 <= i < |events| ==> IsLawfulEvent(f, events[..i], events[i])
  }

  lemma {:induction false} FoldIffLawful(f: Facts, events: seq<EventFact>)
    requires KeysAgree(f)
    ensures Fold(f, events).Some? <==> IsLawfulHistory(f, events)
  {
    hide KeysAgree, Apply, IsLawfulEvent, Established;
    if events != [] {
      var past, e := events[..|events| - 1], events[|events| - 1];
      FoldIffLawful(f, past);
      LawfulSnoc(f, past, e);
      assert events == past + [e];
      if Fold(f, past).Some? && |events| <= I32_MAX {
        FoldEstablishes(f, past);
        EstablishedRemembers(f, past, Fold(f, past).value);
        EventReplays(f, past, e, Fold(f, past).value);
      }
    }
  }

  lemma LawfulSnoc(f: Facts, past: seq<EventFact>, e: EventFact)
    ensures IsLawfulHistory(f, past + [e])
       <==> IsLawfulHistory(f, past) && |past| < I32_MAX && IsLawfulEvent(f, past, e)
  {
    hide IsLawfulEvent;
    var events := past + [e];
    assert events[..|past|] == past && events[|past|] == e;
    forall i | 0 <= i < |past|
      ensures events[..i] == past[..i] && events[i] == past[i]
    {
    }
    if IsLawfulHistory(f, events) {
      forall i | 0 <= i < |past|
        ensures IsLawfulEvent(f, past[..i], past[i])
      {
        assert IsLawfulEvent(f, events[..i], events[i]);
      }
      assert IsLawfulEvent(f, events[..|past|], events[|past|]);
    }
  }

  /** The events introduce every stored fact. */
  predicate IntroducesAll(f: Facts, events: seq<EventFact>) {
    && (forall id :: id in f.contexts ==> id in ContextOrder(events))
    && (forall id :: id in f.visits ==> id in VisitOrder(events))
    && (forall id :: id in f.submissions ==> id in SubmissionOrder(events))
  }

  lemma ReplayIffLawful(f: Facts, events: seq<EventFact>)
    requires KeysAgree(f)
    ensures ReplayResult(f, events)
         == if events != [] && IsLawfulHistory(f, events) && IntroducesAll(f, events)
            then Some(Projection(ContextAfter(events), VisitAfter(events), |events|)) else None
  {
    hide KeysAgree, Fold, IsLawfulHistory, ContextOrder, VisitOrder, SubmissionOrder, IsContextChain, IsNumbered, CountOfNode;
    FoldIffLawful(f, events);
    if Fold(f, events).Some? {
      FoldEstablishes(f, events);
      var s := Fold(f, events).value;
      if ReplayResult(f, events).Some? {
        AcceptedIntroducesOnce(f, events);
        OnceIsAll(f, events);
      }
      if IntroducesAll(f, events) {
        SubmissionsAreStored(f, events);
        AllIsEvery(f, events, Fold(f, events).value);
      }
    }
  }

  lemma AllIsEvery(f: Facts, events: seq<EventFact>, s: ReplayState)
    requires Established(f, events, s) && IntroducesAll(f, events) && s.introducedSubmissions <= f.submissions.Keys
    ensures EveryFactIntroduced(f, s)
  {
    hide ContextOrder, VisitOrder, SubmissionOrder, IsContextChain, IsNumbered, CountOfNode;
    ChainIsSubset(f, ContextOrder(events));
    NumberedIsSubset(f, VisitOrder(events));
    SameSize(f.contexts, s.introducedContexts);
    SameSize(f.visits, s.introducedVisits);
    SameSize(f.submissions, s.introducedSubmissions);
  }

  lemma SameSize<T>(m: map<Uuid, T>, ids: set<Uuid>)
    requires ids <= m.Keys && forall id :: id in m ==> id in ids
    ensures |ids| == |m|
  {
    forall id | id in m.Keys
      ensures id in ids
    {
      assert id in m;
    }
    assert ids == m.Keys && |m.Keys| == |m|;
  }

  lemma OnceIsAll(f: Facts, events: seq<EventFact>)
    requires IntroducedOnce(f, events)
    ensures IntroducesAll(f, events)
  {
    hide ContextOrder, VisitOrder, SubmissionOrder;
    assert forall id :: id in f.contexts ==> id in (set x | x in ContextOrder(events));
    assert forall id :: id in f.visits ==> id in (set x | x in VisitOrder(events));
    assert forall id :: id in f.submissions ==> id in (set x | x in SubmissionOrder(events));
  }

  // ----- The rows -----

  /** The rows of the instance by id, and those of its definition version. */
  ghost predicate HoldsRows(catalog: Catalog, l: Ledger, f: Facts) {
    var versionId := l.instance.definitionVersionId;
    && f.instance == l.instance
    && f.definitionDigest == (if versionId in catalog.versions then catalog.versions[versionId].digest else None)
    && (forall c :: c in l.contexts ==> c.contextRevisionId in f.contexts)
    && (forall id :: id in f.contexts ==> f.contexts[id] in l.contexts && f.contexts[id].contextRevisionId == id)
    && (forall v :: v in l.visits ==> v.nodeVisitId in f.visits)
    && (forall id :: id in f.visits ==> f.visits[id] in l.visits && f.visits[id].nodeVisitId == id)
    && (forall s :: s in l.submissions ==> s.submissionId in f.submissions)
    && (forall id :: id in f.submissions ==> f.submissions[id] in l.submissions && f.submissions[id].submissionId == id)
    && HoldsTransitions(GraphOf(catalog, versionId).transitions, versionId, f.transitions)
  }

  ghost predicate HoldsTransitions(transitions: seq<TransitionDefinition>, versionId: Uuid, facts: map<Uuid, TransitionFact>) {
    && (forall t :: t in transitions ==>
          && t.transitionId in facts
          && facts[t.transitionId]
             == TransitionFact(t.transitionId, versionId, t.transitionKey, t.sourceNodeId, t.targetNodeId, t.transitionEffect))
    && (forall id :: id in facts ==> exists t :: t in transitions && t.transitionId == id)
  }

  /** A chain from 1, in load order. */
  predicate IsLawfulContext(l: Ledger, i: nat)
    requires i < |l.contexts|
  {
    && l.contexts[i].workflowInstanceId == l.instance.workflowInstanceId && l.contexts[i].revisionNumber == i + 1
    && l.contexts[i].payloadDigest == OfJson(l.contexts[i].payload)
    && l.contexts[i].previousRevisionId == if i == 0 then None else Some(l.contexts[i - 1].contextRevisionId)
  }

  predicate IsLawfulVisit(l: Ledger, f: Facts, v: VisitFact) {
    && v.workflowInstanceId == l.instance.workflowInstanceId && v.definitionVersionId == l.instance.definitionVersionId
    && v.visitNumber >= 1 && (v.nodeType.TERMINAL? || v.assigneePrincipalId.Some?)
    && (v.enteredByTransitionId.None? ||
        (Stored(f.transitions, v.enteredByTransitionId)
         && f.transitions[v.enteredByTransitionId.value].targetNodeId == v.nodeId))
  }

  predicate IsLawfulSubmissionRow(l: Ledger, f: Facts, s: SubmissionFact) {
    && s.workflowInstanceId == l.instance.workflowInstanceId && s.payloadDigest == OfJson(s.payload)
    && s.contextRevisionId in f.contexts && s.sourceNodeVisitId in f.visits && s.transitionId in f.transitions
    && f.transitions[s.transitionId].sourceNodeId == f.visits[s.sourceNodeVisitId].nodeId
  }

  /** There are contexts and visits, and each row fits the rows that it refers to and its digest. */
  predicate AreLawfulRows(l: Ledger, f: Facts) {
    && l.contexts != [] && l.visits != []
    && (forall i :: 0 <= i < |l.contexts| ==> IsLawfulContext(l, i))
    && (forall v :: v in l.visits ==> IsLawfulVisit(l, f, v))
    && (forall s :: s in l.submissions ==> IsLawfulSubmissionRow(l, f, s))
  }

  /** The completed receipt of the import event's command, whose response names exactly the imported rows. */
  predicate IsReceiptOf(receipt: Receipt, row: InstanceRow, e: EventFact) {
    && Some(receipt.commandId) == e.commandId && receipt.commandType.IMPORT_LEGACY_WORKFLOW_INSTANCE?
    && receipt.principalId == e.actorPrincipalId && Some(receipt.key) == row.externalReference
    && receipt.status.COMPLETED? && receipt.responseStatus == Some(200)
    && e.contextRevisionId.Some? && e.targetNodeVisitId.Some?
    && e.eventData.Some? && e.eventData.value.ImportedData?
    && var body := ImportBody(receipt.commandId, row.workflowInstanceId, e.contextRevisionId.value, e.targetNodeVisitId.value,
                              e.eventId, 1, 1, e.eventData.value.legacySnapshotDigest, e.eventData.value.creatorResolution);
    receipt.responseBody == Some(body) && receipt.responseDigest == Some(OfBody(body))
  }

  predicate AreLawfulFacts(receipts: seq<Receipt>, l: Ledger, f: Facts) {
    && AreLawfulRows(l, f)
    && l.events != [] && IsLawfulHistory(f, l.events) && IntroducesAll(f, l.events)
    && (l.events[0].eventType.WORKFLOW_INSTANCE_IMPORTED? ==>
          exists r :: r in receipts && IsReceiptOf(r, l.instance, l.events[0]))
  }

  predicate UniqueCommandIds(receipts: seq<Receipt>) {
    forall i, j :: 0 <= i < j < |receipts| ==> receipts[i].commandId != receipts[j].commandId
  }

  lemma SameContexts(l: Ledger, m: map<Uuid, ContextFact>)
    requires UniqueIds(l) && forall c :: c in l.contexts ==> c.contextRevisionId in m
    requires forall id :: id in m ==> m[id] in l.contexts && m[id].contextRevisionId == id
    ensures m == ContextsById(l.contexts)
  {
    hide ContextsById;
    var known := ContextsById(l.contexts);
    forall id | id in m
      ensures id in known && known[id] == m[id]
    {
      var i :| 0 <= i < |l.contexts| && l.contexts[i] == m[id];
      var j :| 0 <= j < |l.contexts| && l.contexts[j] == known[id];
    }
    assert forall id :: id in known ==> known[id] in l.contexts && id in m;
  }

  lemma SameVisits(l: Ledger, m: map<Uuid, VisitFact>)
    requires UniqueIds(l) && forall v :: v in l.visits ==> v.nodeVisitId in m
    requires forall id :: id in m ==> m[id] in l.visits && m[id].nodeVisitId == id
    ensures m == VisitsById(l.visits)
  {
    hide VisitsById;
    var known := VisitsById(l.visits);
    forall id | id in m
      ensures id in known && known[id] == m[id]
    {
      var i :| 0 <= i < |l.visits| && l.visits[i] == m[id];
      var j :| 0 <= j < |l.visits| && l.visits[j] == known[id];
    }
    assert forall id :: id in known ==> known[id] in l.visits && id in m;
  }

  lemma SameSubmissions(l: Ledger, m: map<Uuid, SubmissionFact>)
    requires UniqueIds(l) && forall s :: s in l.submissions ==> s.submissionId in m
    requires forall id :: id in m ==> m[id] in l.submissions && m[id].submissionId == id
    ensures m == SubmissionsById(l.submissions)
  {
    hide SubmissionsById;
    var known := SubmissionsById(l.submissions);
    forall id | id in m
      ensures id in known && known[id] == m[id]
    {
      var i :| 0 <= i < |l.submissions| && l.submissions[i] == m[id];
      var j :| 0 <= j < |l.submissions| && l.submissions[j] == known[id];
    }
    assert forall id :: id in known ==> known[id] in l.submissions && id in m;
  }

  lemma SameTransitions(catalog: Catalog, versionId: Uuid, facts: map<Uuid, TransitionFact>)
    requires UniqueTransitionIds(GraphOf(catalog, versionId).transitions)
    requires HoldsTransitions(GraphOf(catalog, versionId).transitions, versionId, facts)
    ensures facts == TransitionFacts(catalog, versionId)
  {
    hide TransitionsById, UniqueTransitionIds;
    var transitions, known := GraphOf(catalog, versionId).transitions, TransitionFacts(catalog, versionId);
    forall id | id in facts
      ensures id in known && known[id] == facts[id]
    {
      var t :| t in transitions && t.transitionId == id;
      TransitionIsItsLookup(transitions, t);
    }
    assert forall id :: id in known ==> TransitionsById(transitions)[id] in transitions && id in facts;
  }

  lemma RowsAreFacts(catalog: Catalog, l: Ledger, f: Facts)
    requires UniqueIds(l) && UniqueTransitionIds(GraphOf(catalog, l.instance.definitionVersionId).transitions)
    requires HoldsRows(catalog, l, f)
    ensures f == FactsOf(catalog, l)
  {
    hide ContextsById, VisitsById, SubmissionsById, TransitionFacts, UniqueIds, UniqueTransitionIds, HoldsTransitions;
    SameContexts(l, f.contexts);
    SameVisits(l, f.visits);
    SameSubmissions(l, f.submissions);
    SameTransitions(catalog, l.instance.definitionVersionId, f.transitions);
  }

  lemma ContextsValidIff(l: Ledger, i: nat)
    requires i < |l.contexts|
    ensures ContextValid(l.instance, l.contexts, i) <==> IsLawfulContext(l, i)
  {
  }

  lemma VersionOfTransitions(catalog: Catalog, versionId: Uuid, id: Uuid)
    ensures id in TransitionFacts(catalog, versionId) ==> TransitionFacts(catalog, versionId)[id].definitionVersionId == versionId
  {
    hide TransitionsById;
  }

  lemma VisitValidIff(catalog: Catalog, l: Ledger, v: VisitFact)
    ensures var f := FactsOf(catalog, l); VisitValid(l.instance, v, f.transitions) <==> IsLawfulVisit(l, f, v)
  {
    hide ContextsById, VisitsById, SubmissionsById, TransitionFacts;
    if v.enteredByTransitionId.Some? {
      VersionOfTransitions(catalog, l.instance.definitionVersionId, v.enteredByTransitionId.value);
    }
  }

  lemma SubmissionValidIff(catalog: Catalog, l: Ledger, s: SubmissionFact)
    ensures var f := FactsOf(catalog, l);
      SubmissionValid(f.instance, f.contexts, f.visits, s, f.transitions) <==> IsLawfulSubmissionRow(l, f, s)
  {
    hide ContextsById, VisitsById, SubmissionsById, TransitionFacts;
    VersionOfTransitions(catalog, l.instance.definitionVersionId, s.transitionId);
  }

  lemma RowsValidIff(catalog: Catalog, l: Ledger, f: Facts)
    requires f == FactsOf(catalog, l)
    ensures FactsValid(f, l) <==> AreLawfulRows(l, f)
  {
    hide ContextValid, VisitValid, SubmissionValid, IsLawfulContext, IsLawfulVisit, IsLawfulSubmissionRow;
    forall i | 0 <= i < |l.contexts|
      ensures ContextValid(l.instance, l.contexts, i) <==> IsLawfulContext(l, i)
    {
      ContextsValidIff(l, i);
    }
    forall v | v in l.visits
      ensures VisitValid(l.instance, v, f.transitions) <==> IsLawfulVisit(l, f, v)
    {
      VisitValidIff(catalog, l, v);
    }
    forall s | s in l.submissions
      ensures SubmissionValid(f.instance, f.contexts, f.visits, s, f.transitions) <==> IsLawfulSubmissionRow(l, f, s)
    {
      SubmissionValidIff(catalog, l, s);
    }
  }

  lemma ReceiptFound(receipts: seq<Receipt>, r: Receipt)
    requires UniqueCommandIds(receipts) && r in receipts
    ensures FindCommand(receipts, r.commandId) == Some(r)
  {
    hide FindCommand;
    var found := FindCommand(receipts, r.commandId).value;
    var i :| 0 <= i < |receipts| && receipts[i] == r;
    var j :| 0 <= j < |receipts| && receipts[j] == found;
  }

  lemma LinkedIff(receipts: seq<Receipt>, f: Facts, e: EventFact)
    requires UniqueCommandIds(receipts) && Stored(f.contexts, e.contextRevisionId) && Stored(f.visits, e.targetNodeVisitId)
    ensures ImportLinked(receipts, f, e) <==> exists r :: r in receipts && IsReceiptOf(r, f.instance, e)
  {
    hide UniqueCommandIds, FindCommand;
    if exists r :: r in receipts && IsReceiptOf(r, f.instance, e) {
      var r :| r in receipts && IsReceiptOf(r, f.instance, e);
      ReceiptFound(receipts, r);
    }
    if ImportLinked(receipts, f, e) {
      assert IsReceiptOf(FindCommand(receipts, e.commandId.value).value, f.instance, e);
    }
  }

  lemma ImportIsStored(f: Facts, events: seq<EventFact>)
    requires events != [] && IsLawfulHistory(f, events) && events[0].eventType.WORKFLOW_INSTANCE_IMPORTED?
    ensures Stored(f.contexts, events[0].contextRevisionId) && Stored(f.visits, events[0].targetNodeVisitId)
  {
    hide ContextOrder, VisitOrder, CountOfNode, IsImportOf;
    assert IsLawfulEvent(f, events[..0], events[0]);
  }

  /**
   The law of recovery: facts with unique ids are accepted exactly when their rows fit each other, every event
   is lawful against the events before it, the events introduce every fact, and an import has its receipt.
   Then the recomputed projection names the last context and the last visit of the events, and counts them.
   */
  lemma RecoveryIffLawful(catalog: Catalog, receipts: seq<Receipt>, l: Ledger, f: Facts)
    requires UniqueIds(l) && UniqueTransitionIds(GraphOf(catalog, l.instance.definitionVersionId).transitions)
    requires UniqueCommandIds(receipts) && HoldsRows(catalog, l, f)
    ensures Reconstruct(catalog, receipts, l)
         == if AreLawfulFacts(receipts, l, f) then Some(Projection(ContextAfter(l.events), VisitAfter(l.events), |l.events|))
            else None
  {
    hide UniqueIds, UniqueTransitionIds, UniqueCommandIds, HoldsRows, FactsOf, ReplayResult, AreLawfulRows, FactsValid,
         IsLawfulHistory, IntroducesAll, ImportLinked, IsReceiptOf, ContextAfter, VisitAfter;
    RowsAreFacts(catalog, l, f);
    RowsValidIff(catalog, l, f);
    FactKeysAgree(catalog, l);
    ReplayIffLawful(f, l.events);
    if l.events != [] && l.events[0].eventType.WORKFLOW_INSTANCE_IMPORTED? && IsLawfulHistory(f, l.events) {
      ImportIsStored(f, l.events);
      LinkedIff(receipts, f, l.events[0]);
      assert f.instance == l.instance by { FactsNameInstance(catalog, l); }
    }
  }

  lemma FactsNameInstance(catalog: Catalog, l: Ledger)
    ensures FactsOf(catalog, l).instance == l.instance
  {
  }
}
