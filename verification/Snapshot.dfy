/** The snapshot validators and the reconstruction of a projection from immutable facts. */
module Snapshot {
  import opened Prelude
  import opened DefinitionModel
  import opened RuntimeModel
  import opened KernelState
  import opened EventReplay

  function FactOf(versionId: Uuid, t: TransitionDefinition): TransitionFact {
    TransitionFact(t.transitionId, versionId, t.transitionKey, t.sourceNodeId, t.targetNodeId, t.transitionEffect)
  }

  /** The transitions of one version, as the recovery code loads them. */
  function TransitionFacts(catalog: Catalog, versionId: Uuid): map<Uuid, TransitionFact> {
    var transitions := TransitionsById(GraphOf(catalog, versionId).transitions);
    map id | id in transitions :: FactOf(versionId, transitions[id])
  }

  function FactsOf(catalog: Catalog, l: Ledger): Facts {
    Facts(l.instance, DefinitionDigest(catalog, l.instance.definitionVersionId), ContextsById(l.contexts),
          VisitsById(l.visits), SubmissionsById(l.submissions),
          TransitionFacts(catalog, l.instance.definitionVersionId))
  }

  // ----- Validators -----

  predicate ContextValid(instance: InstanceRow, facts: seq<ContextFact>, i: nat)
    requires i < |facts|
  {
    && facts[i].workflowInstanceId == instance.workflowInstanceId
    && facts[i].revisionNumber == i + 1
    && facts[i].previousRevisionId == (if i == 0 then None else Some(facts[i - 1].contextRevisionId))
    && facts[i].payloadDigest == OfJson(facts[i].payload)
  }

  /** The contexts form one linked chain numbered from 1, with intact payload digests. */
  predicate ContextsValid(instance: InstanceRow, facts: seq<ContextFact>) {
    facts != [] && forall i :: 0 <= i < |facts| ==> ContextValid(instance, facts, i)
  }

  predicate VisitValid(instance: InstanceRow, v: VisitFact, transitions: map<Uuid, TransitionFact>) {
    && v.workflowInstanceId == instance.workflowInstanceId
    && v.definitionVersionId == instance.definitionVersionId
    && v.visitNumber >= 1
    && (!v.nodeType.TERMINAL? ==> v.assigneePrincipalId.Some?)
    && (v.enteredByTransitionId.Some? ==>
          var t := Lookup(transitions, v.enteredByTransitionId);
          t.Some? && t.value.definitionVersionId == instance.definitionVersionId && t.value.targetNodeId == v.nodeId)
  }

  predicate VisitsValid(instance: InstanceRow, facts: seq<VisitFact>, transitions: map<Uuid, TransitionFact>) {
    facts != [] && forall v :: v in facts ==> VisitValid(instance, v, transitions)
  }

  predicate SubmissionValid(instance: InstanceRow, contexts: map<Uuid, ContextFact>, visits: map<Uuid, VisitFact>,
                            s: SubmissionFact, transitions: map<Uuid, TransitionFact>)
  {
    && s.workflowInstanceId == instance.workflowInstanceId
    && s.contextRevisionId in contexts
    && s.transitionId in transitions
    && transitions[s.transitionId].definitionVersionId == instance.definitionVersionId
    && s.sourceNodeVisitId in visits
    && visits[s.sourceNodeVisitId].nodeId == transitions[s.transitionId].sourceNodeId
    && s.payloadDigest == OfJson(s.payload)
  }

  predicate SubmissionsValid(f: Facts, facts: seq<SubmissionFact>) {
    forall s :: s in facts ==> SubmissionValid(f.instance, f.contexts, f.visits, s, f.transitions)
  }

  method ValidateContexts(instance: InstanceRow, facts: seq<ContextFact>) returns (ok: bool)
    ensures ok <==> ContextsValid(instance, facts)
  {
    if facts == [] {
      return false;
    }
    for index := 0 to |facts|
      invariant forall i :: 0 <= i < index ==> ContextValid(instance, facts, i)
    {
      var fact := facts[index];
      if fact.workflowInstanceId != instance.workflowInstanceId
         || fact.revisionNumber != index + 1
         || (index == 0 && fact.previousRevisionId.Some?)
         || (index > 0 && fact.previousRevisionId != Some(facts[index - 1].contextRevisionId)) {
        assert !ContextValid(instance, facts, index);
        return false;
      }
      if OfJson(fact.payload) != fact.payloadDigest {
        assert !ContextValid(instance, facts, index);
        return false;
      }
    }
    ok := true;
  }

  method ValidateVisits(instance: InstanceRow, facts: seq<VisitFact>, transitions: map<Uuid, TransitionFact>)
    returns (ok: bool)
    ensures ok <==> VisitsValid(instance, facts, transitions)
  {
    if facts == [] {
      return false;
    }
    for index := 0 to |facts|
      invariant forall i :: 0 <= i < index ==> VisitValid(instance, facts[i], transitions)
    {
      if !VisitValid(instance, facts[index], transitions) {
        return false;
      }
    }
    ok := true;
  }

  method ValidateSubmissions(f: Facts, facts: seq<SubmissionFact>) returns (ok: bool)
    ensures ok <==> SubmissionsValid(f, facts)
  {
    for index := 0 to |facts|
      invariant forall i :: 0 <= i < index ==> SubmissionValid(f.instance, f.contexts, f.visits, facts[i], f.transitions)
    {
      if !SubmissionValid(f.instance, f.contexts, f.visits, facts[index], f.transitions) {
        return false;
      }
    }
    ok := true;
  }

  // ----- Import receipts -----

  /** A completed import receipt whose identity and stored response name exactly these facts. */
  predicate ReceiptNames(receipt: Receipt, instance: InstanceRow, e: EventFact, data: EventData, contextId: Uuid, visitId: Uuid) {
    && receipt.commandType == IMPORT_LEGACY_WORKFLOW_INSTANCE
    && receipt.principalId == e.actorPrincipalId
    && Some(receipt.key) == instance.externalReference
    && receipt.status.COMPLETED?
    && receipt.responseStatus == Some(200)
    && receipt.responseBody.Some?
    && receipt.responseDigest == Some(OfBody(receipt.responseBody.value))
    && data.ImportedData?
    && receipt.responseBody.value
       == ImportBody(receipt.commandId, instance.workflowInstanceId, contextId, visitId, e.eventId, 1, 1,
                     data.legacySnapshotDigest, data.creatorResolution)
  }

  predicate ImportLinked(receipts: seq<Receipt>, f: Facts, e: EventFact) {
    && e.contextRevisionId.Some? && e.contextRevisionId.value in f.contexts
    && e.targetNodeVisitId.Some? && e.targetNodeVisitId.value in f.visits
    && e.commandId.Some? && e.eventData.Some?
    && var receipt := FindCommand(receipts, e.commandId.value);
    && receipt.Some?
    && ReceiptNames(receipt.value, f.instance, e, e.eventData.value, e.contextRevisionId.value, e.targetNodeVisitId.value)
  }

  predicate LinkageHolds(receipts: seq<Receipt>, f: Facts, events: seq<EventFact>) {
    events != [] && events[0].eventType.WORKFLOW_INSTANCE_IMPORTED? ==> ImportLinked(receipts, f, events[0])
  }

  // ----- Reconstruction -----

  predicate FactsValid(f: Facts, l: Ledger) {
    && ContextsValid(l.instance, l.contexts)
    && VisitsValid(l.instance, l.visits, f.transitions)
    && SubmissionsValid(f, l.submissions)
  }

  /** The projection recomputed from the facts, or None when any validator or the replay refuses. */
  function Reconstruct(catalog: Catalog, receipts: seq<Receipt>, l: Ledger): Option<Projection> {
    var f := FactsOf(catalog, l);
    if FactsValid(f, l) && LinkageHolds(receipts, f, l.events) then ReplayResult(f, l.events) else None
  }

  method ReconstructProjection(catalog: Catalog, receipts: seq<Receipt>, l: Ledger) returns (r: Option<Projection>)
    ensures r == Reconstruct(catalog, receipts, l)
  {
    hide ContextsValid, VisitsValid, SubmissionsValid, ImportLinked, ReplayResult;
    var f := FactsOf(catalog, l);
    var ok := ValidateContexts(l.instance, l.contexts);
    if !ok {
      return None;
    }
    ok := ValidateVisits(l.instance, l.visits, f.transitions);
    if !ok {
      return None;
    }
    ok := ValidateSubmissions(f, l.submissions);
    if !ok {
      return None;
    }
    if l.events != [] && l.events[0].eventType.WORKFLOW_INSTANCE_IMPORTED? && !ImportLinked(receipts, f, l.events[0]) {
      return None;
    }
    r := ReplayEvents(f, l.events);
  }
}
