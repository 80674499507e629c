/**
 The recovery replay: a fold over the events of one instance that re-checks every fact against the
 event that introduces it and recomputes the projection.
 */
module EventReplay {
  import opened Prelude
  import opened DefinitionModel
  import opened RuntimeModel

  /** What the replay is given. */
  datatype Facts = Facts(
    instance: InstanceRow,
    definitionDigest: Option<Digest>,
    contexts: map<Uuid, ContextFact>,
    visits: map<Uuid, VisitFact>,
    submissions: map<Uuid, SubmissionFact>,
    transitions: map<Uuid, TransitionFact>)

  /** What the replay remembers between events. */
  datatype ReplayState = ReplayState(
    introducedContexts: set<Uuid>,
    introducedVisits: set<Uuid>,
    introducedSubmissions: set<Uuid>,
    visitCounts: map<Uuid, int>,
    currentContext: Option<Uuid>,
    currentVisit: Option<Uuid>,
    version: int)

  const START := ReplayState({}, {}, {}, map[], None, None, 0)

  function VisitCount(counts: map<Uuid, int>, node: Uuid): int {
    if node in counts then counts[node] else 0
  }

  function IntroduceContext(s: ReplayState, c: ContextFact): Option<ReplayState> {
    if c.contextRevisionId in s.introducedContexts then None
    else Some(s.(introducedContexts := s.introducedContexts + {c.contextRevisionId}))
  }

  function IntroduceSubmission(s: ReplayState, f: SubmissionFact): Option<ReplayState> {
    if f.submissionId in s.introducedSubmissions then None
    else Some(s.(introducedSubmissions := s.introducedSubmissions + {f.submissionId}))
  }

  function IntroduceVisit(s: ReplayState, v: VisitFact): Option<ReplayState> {
    var count := VisitCount(s.visitCounts, v.nodeId);
    if v.nodeVisitId in s.introducedVisits || count == I32_MAX || v.visitNumber != count + 1 then None
    else
      Some(s.(introducedVisits := s.introducedVisits + {v.nodeVisitId},
              visitCounts := s.visitCounts[v.nodeId := count + 1]))
  }

  /** The event data, when present and matching its stored digest. */
  function IntactData(e: EventFact): Option<EventData> {
    if e.eventData.Some? && e.eventDataDigest == Some(OfEventData(e.eventData.value)) then e.eventData else None
  }

  predicate NoSteps(e: EventFact) {
    e.submissionId.None? && e.transitionEffect.None? && e.fromNodeId.None? && e.toNodeId.None?
  }

  // ----- The initial event -----

  predicate IsHexDigest(d: Digest) {
    !d.EmptyDigest?
  }

  predicate ImportFits(f: Facts, e: EventFact, data: EventData, c: ContextFact, v: VisitFact) {
    && data.ImportedData?
    && data.importedNodeId == v.nodeId
    && IsHexDigest(data.legacySnapshotDigest)
    && f.instance.externalReference == Some(MigrationKey(data.legacyRecordId))
    && f.instance.createdByPrincipalType != SERVICE
    && e.actorPrincipalType == SERVICE
    && e.actorPrincipalId != f.instance.createdByPrincipalId
    && c.createdByPrincipalId == f.instance.createdByPrincipalId
    && (v.nodeType.TERMINAL? <==> v.assigneePrincipalId.None?)
  }

  predicate CreationFits(f: Facts, data: EventData, v: VisitFact) {
    && data.CreatedData?
    && data.definitionVersionId == f.instance.definitionVersionId
    && data.definitionDigest == (if f.definitionDigest.Some? then f.definitionDigest.value else EmptyDigest)
    && data.initialNodeId == v.nodeId
    && Some(data.assigneeResolutionType) == v.assigneeRefType
    && v.nodeType.DRAFT?
    && v.assigneePrincipalId.Some?
  }

  predicate InitialFits(f: Facts, s: ReplayState, e: EventFact, data: EventData, c: ContextFact, v: VisitFact) {
    && s.version == 0
    && e.sourceNodeVisitId.None?
    && NoSteps(e)
    && c.revisionNumber == 1 && c.previousRevisionId.None?
    && v.enteredByTransitionId.None? && v.visitNumber == 1
    && if e.eventType.WORKFLOW_INSTANCE_IMPORTED? then ImportFits(f, e, data, c, v) else CreationFits(f, data, v)
  }

  function ApplyInitial(f: Facts, s: ReplayState, e: EventFact): Option<ReplayState> {
    var data := IntactData(e);
    var c := Lookup(f.contexts, e.contextRevisionId);
    var v := Lookup(f.visits, e.targetNodeVisitId);
    if data.None? || c.None? || v.None? || !InitialFits(f, s, e, data.value, c.value, v.value) then None
    else
      match IntroduceContext(s, c.value)
      case None => None
      case Some(s1) =>
        match IntroduceVisit(s1, v.value)
        case None => None
        case Some(s2) =>
          Some(s2.(currentContext := Some(c.value.contextRevisionId), currentVisit := Some(v.value.nodeVisitId)))
  }

  // ----- Context revisions -----

  predicate Continues(s: ReplayState, previous: ContextFact, c: ContextFact) {
    c.previousRevisionId == s.currentContext && c.revisionNumber == previous.revisionNumber + 1
  }

  predicate RevisionFits(s: ReplayState, e: EventFact, data: EventData, previous: ContextFact, c: ContextFact, v: VisitFact) {
    && data.RevisedData?
    && e.sourceNodeVisitId == s.currentVisit && e.targetNodeVisitId == s.currentVisit
    && NoSteps(e)
    && Continues(s, previous, c)
    && Some(data.previousContextRevisionId) == s.currentContext
    && data.newContextRevisionId == c.contextRevisionId
    && data.previousPayloadDigest == previous.payloadDigest
    && data.newPayloadDigest == c.payloadDigest
    && data.currentNodeId == v.nodeId
    && v.nodeType.DRAFT?
  }

  function ApplyContextRevision(f: Facts, s: ReplayState, e: EventFact): Option<ReplayState> {
    var data := IntactData(e);
    var c := Lookup(f.contexts, e.contextRevisionId);
    var v := Lookup(f.visits, e.sourceNodeVisitId);
    var previous := Lookup(f.contexts, s.currentContext);
    if data.None? || c.None? || v.None? || previous.None?
       || !RevisionFits(s, e, data.value, previous.value, c.value, v.value) then None
    else
      match IntroduceContext(s, c.value)
      case None => None
      case Some(s1) => Some(s1.(currentContext := Some(c.value.contextRevisionId)))
  }

  // ----- Transitions -----

  predicate NodeColumnsFit(e: EventFact, source: VisitFact, target: VisitFact) {
    e.fromNodeId == Some(source.nodeId) && e.toNodeId == Some(target.nodeId)
  }

  predicate StepFits(s: ReplayState, e: EventFact, step: StepData, source: VisitFact, target: VisitFact, t: TransitionFact) {
    && e.sourceNodeVisitId == s.currentVisit
    && target.nodeVisitId !in s.introducedVisits
    && target.enteredByTransitionId == Some(t.transitionId)
    && t.sourceNodeId == source.nodeId && t.targetNodeId == target.nodeId
    && e.transitionEffect == Some(t.transitionEffect)
    && step == StepData(t.transitionId, t.transitionKey, t.transitionEffect, source.nodeId, target.nodeId,
                        source.nodeVisitId, target.nodeVisitId)
    && NodeColumnsFit(e, source, target)
  }

  predicate SubmissionFits(e: EventFact, f: SubmissionFact, context: Option<Uuid>, t: TransitionFact) {
    && Some(f.sourceNodeVisitId) == e.sourceNodeVisitId
    && Some(f.contextRevisionId) == context
    && f.transitionId == t.transitionId
  }

  /** The submission of a transition event: none, or one that the event names with its digest. */
  function ApplyOptionalSubmission(f: Facts, s: ReplayState, e: EventFact, data: EventData, t: TransitionFact)
    : Option<ReplayState>
    requires data.TransitionData?
  {
    if e.submissionId.None? then
      if data.transitionSubmissionDigest.None? then Some(s) else None
    else
      match Lookup(f.submissions, e.submissionId)
      case None => None
      case Some(submission) =>
        if SubmissionFits(e, submission, s.currentContext, t)
           && data.transitionSubmissionDigest == Some(submission.payloadDigest)
        then IntroduceSubmission(s, submission)
        else None
  }

  function EnterVisit(s: ReplayState, target: VisitFact): Option<ReplayState> {
    match IntroduceVisit(s, target)
    case None => None
    case Some(s1) => Some(s1.(currentVisit := Some(target.nodeVisitId)))
  }

  function ApplyTransition(f: Facts, s: ReplayState, e: EventFact): Option<ReplayState> {
    var data := IntactData(e);
    var source := Lookup(f.visits, e.sourceNodeVisitId);
    var target := Lookup(f.visits, e.targetNodeVisitId);
    if data.None? || !data.value.TransitionData? || source.None? || target.None?
       || e.contextRevisionId != s.currentContext
       || Some(data.value.contextRevisionId) != s.currentContext then None
    else
      var step := data.value.step;
      if step.transitionDefinitionId !in f.transitions then None
      else
        var t := f.transitions[step.transitionDefinitionId];
        if !StepFits(s, e, step, source.value, target.value, t) then None
        else
          match ApplyOptionalSubmission(f, s, e, data.value, t)
          case None => None
          case Some(s1) => EnterVisit(s1, target.value)
  }

  predicate CombinedContextFits(s: ReplayState, e: EventFact, data: EventData, previous: ContextFact, c: ContextFact) {
    && data.CombinedData?
    && e.transitionEffect == Some(ADVANCE)
    && Continues(s, previous, c)
    && Some(data.previousContextRevisionId) == s.currentContext
    && data.newContextRevisionId == c.contextRevisionId
    && data.previousPayloadDigest == previous.payloadDigest
    && data.newPayloadDigest == c.payloadDigest
  }

  function IntroduceAll(s: ReplayState, c: ContextFact, submission: SubmissionFact, target: VisitFact): Option<ReplayState> {
    match IntroduceContext(s, c)
    case None => None
    case Some(s1) =>
      match IntroduceSubmission(s1, submission)
      case None => None
      case Some(s2) =>
        match EnterVisit(s2, target)
        case None => None
        case Some(s3) => Some(s3.(currentContext := Some(c.contextRevisionId)))
  }

  function ApplyCombined(f: Facts, s: ReplayState, e: EventFact): Option<ReplayState> {
    var data := IntactData(e);
    var previous := Lookup(f.contexts, s.currentContext);
    var c := Lookup(f.contexts, e.contextRevisionId);
    var source := Lookup(f.visits, e.sourceNodeVisitId);
    var target := Lookup(f.visits, e.targetNodeVisitId);
    var submission := Lookup(f.submissions, e.submissionId);
    if data.None? || previous.None? || c.None? || source.None? || target.None? || submission.None?
       || !CombinedContextFits(s, e, data.value, previous.value, c.value) then None
    else
      var step := data.value.step;
      if step.transitionDefinitionId !in f.transitions then None
      else
        var t := f.transitions[step.transitionDefinitionId];
        if StepFits(s, e, step, source.value, target.value, t)
           && SubmissionFits(e, submission.value, Some(c.value.contextRevisionId), t)
           && data.value.submissionPayloadDigest == submission.value.payloadDigest
        then IntroduceAll(s, c.value, submission.value, target.value)
        else None
  }

  // ----- Administrative overrides -----

  predicate IsControl(c: char) {
    c < ' ' || '\U{7f}' <= c <= '\U{9f}'
  }

  predicate IsBlank(c: char) {
    || '\t' <= c <= '\r' || c == ' ' || c == '\U{85}' || c == '\U{a0}' || c == '\U{1680}'
    || '\U{2000}' <= c <= '\U{200a}' || c == '\U{2028}' || c == '\U{2029}' || c == '\U{202f}'
    || c == '\U{205f}' || c == '\U{3000}'
  }

  /** The length of a text in UTF-8. */
  function Utf8Length(s: string): nat {
    if s == "" then 0
    else
      var c := s[0];
      (if c < '\U{80}' then 1 else if c < '\U{800}' then 2 else if c < '\U{10000}' then 3 else 4) + Utf8Length(s[1..])
  }

  predicate ReasonBounded(reason: string) {
    && 0 < |reason| <= 2000
    && !IsBlank(reason[0]) && !IsBlank(reason[|reason| - 1])
    && forall c :: c in reason ==> !IsControl(c)
  }

  predicate FieldBounded(s: string, limit: nat) {
    s != "" && Utf8Length(s) <= limit && forall c :: c in s ==> !IsControl(c)
  }

  predicate ReferencesBounded(references: seq<RelatedReference>) {
    && |references| <= 20
    && forall r :: r in references ==> FieldBounded(r.resourceType, 128) && FieldBounded(r.resourceId, 256)
  }

  predicate AdminPayloadBounded(reason: string, references: seq<RelatedReference>) {
    ReasonBounded(reason) && ReferencesBounded(references)
  }

  function SnapshotOf(instance: InstanceRow, projection: Projection): BeforeSnapshot {
    BeforeSnapshot(instance.workflowInstanceId, instance.domainId, instance.definitionVersionId,
                   instance.createdByPrincipalId, projection)
  }

  function ReplayProjection(s: ReplayState): Projection {
    Projection(s.currentContext, s.currentVisit, s.version)
  }

  function AdminEffect(operation: AdminOperation): TransitionEffect {
    match operation
    case MOVE_TO_NODE => ADVANCE
    case TERMINATE_INSTANCE => TERMINATE
  }

  predicate AdminFits(f: Facts, s: ReplayState, e: EventFact, data: EventData, source: VisitFact, target: VisitFact) {
    && data.AdminData?
    && (data.operation.TERMINATE_INSTANCE? <==> target.nodeType.TERMINAL?)
    && e.sourceNodeVisitId == s.currentVisit
    && e.contextRevisionId == s.currentContext
    && e.submissionId.None?
    && target.nodeVisitId !in s.introducedVisits
    && target.enteredByTransitionId.None?
    && e.transitionEffect == Some(AdminEffect(data.operation))
    && AdminPayloadBounded(data.reason, data.relatedReferences)
    && data.beforeSnapshotDigest == OfSnapshot(SnapshotOf(f.instance, ReplayProjection(s)))
    && NodeColumnsFit(e, source, target)
  }

  function ApplyAdmin(f: Facts, s: ReplayState, e: EventFact): Option<ReplayState> {
    var data := IntactData(e);
    var source := Lookup(f.visits, e.sourceNodeVisitId);
    var target := Lookup(f.visits, e.targetNodeVisitId);
    if data.None? || source.None? || target.None? || !AdminFits(f, s, e, data.value, source.value, target.value) then None
    else EnterVisit(s, target.value)
  }

  // ----- One event, and the fold -----

  predicate HeaderFits(f: Facts, s: ReplayState, e: EventFact, expected: int) {
    && e.workflowInstanceId == f.instance.workflowInstanceId
    && e.eventSequence == expected
    && e.eventSchemaVersion.V1?
    && e.oldWorkflowStateVersion == s.version
    && e.newWorkflowStateVersion == expected
  }

  function ApplyByType(f: Facts, s: ReplayState, e: EventFact): Option<ReplayState> {
    match e.eventType
    case INSTANCE_CREATED => ApplyInitial(f, s, e)
    case WORKFLOW_INSTANCE_CREATED => ApplyInitial(f, s, e)
    case WORKFLOW_INSTANCE_IMPORTED => ApplyInitial(f, s, e)
    case CONTEXT_REVISED => ApplyContextRevision(f, s, e)
    case WORKFLOW_CONTEXT_REVISED => ApplyContextRevision(f, s, e)
    case WORKFLOW_TRANSITION_COMMITTED => ApplyTransition(f, s, e)
    case WORKFLOW_CONTEXT_REVISED_AND_TRANSITION_COMMITTED => ApplyCombined(f, s, e)
    case ADMIN_EMERGENCY_OVERRIDE_COMMITTED => ApplyAdmin(f, s, e)
    case UNSUPPORTED_EVENT => None
  }

  function Apply(f: Facts, s: ReplayState, e: EventFact, expected: int): Option<ReplayState> {
    if !HeaderFits(f, s, e, expected) then None
    else
      match ApplyByType(f, s, e)
      case None => None
      case Some(s1) => Some(s1.(version := expected))
  }

  /** The state after all the events, or None at the first event that is refused. */
  function Fold(f: Facts, events: seq<EventFact>): Option<ReplayState> {
    if events == [] then Some(START)
    else
      match Fold(f, events[..|events| - 1])
      case None => None
      case Some(s) =>
        if |events| > I32_MAX then None else Apply(f, s, events[|events| - 1], |events|)
  }

  predicate EveryFactIntroduced(f: Facts, s: ReplayState) {
    && |s.introducedContexts| == |f.contexts|
    && |s.introducedVisits| == |f.visits|
    && |s.introducedSubmissions| == |f.submissions|
  }

  /** What the replay returns: the recomputed projection, or None for invalid facts. */
  function ReplayResult(f: Facts, events: seq<EventFact>): Option<Projection> {
    if events == [] then None
    else
      match Fold(f, events)
      case None => None
      case Some(s) => if EveryFactIntroduced(f, s) then Some(ReplayProjection(s)) else None
  }

  lemma {:induction false} FoldPrefixFails(f: Facts, events: seq<EventFact>, k: nat)
    requires k <= |events| && Fold(f, events[..k]).None?
    ensures Fold(f, events).None?
  {
    if k == |events| {
      assert events[..k] == events;
    } else {
      assert events[..|events| - 1][..k] == events[..k];
      FoldPrefixFails(f, events[..|events| - 1], k);
    }
  }

  lemma FoldStep(f: Facts, events: seq<EventFact>, k: nat)
    requires k < |events|
    ensures Fold(f, events[..k + 1])
         == (match Fold(f, events[..k])
             case None => None
             case Some(s) => if k + 1 > I32_MAX then None else Apply(f, s, events[k], k + 1))
  {
    assert events[..k + 1][..k] == events[..k];
  }

  /** The replay object. When a method refuses, the object is abandoned, so its state is then open. */
  class Replay {
    const facts: Facts
    var introducedContexts: set<Uuid>
    var introducedVisits: set<Uuid>
    var introducedSubmissions: set<Uuid>
    var visitCounts: map<Uuid, int>
    var currentContext: Option<Uuid>
    var currentVisit: Option<Uuid>
    var version: int

    ghost function State(): ReplayState
      reads this
    {
      ReplayState(introducedContexts, introducedVisits, introducedSubmissions, visitCounts, currentContext,
                  currentVisit, version)
    }

    ghost predicate Outcome(ok: bool, expected: Option<ReplayState>)
      reads this
    {
      (ok <==> expected.Some?) && (ok ==> State() == expected.value)
    }

    constructor (facts: Facts)
      ensures this.facts == facts && State() == START
    {
      this.facts := facts;
      introducedContexts, introducedVisits, introducedSubmissions := {}, {}, {};
      visitCounts := map[];
      currentContext, currentVisit := None, None;
      version := 0;
    }

    method IntroduceVisitFact(visit: VisitFact) returns (ok: bool)
      modifies this
      ensures Outcome(ok, IntroduceVisit(old(State()), visit))
    {
      if visit.nodeVisitId in introducedVisits {
        return false;
      }
      introducedVisits := introducedVisits + {visit.nodeVisitId};
      var count := VisitCount(visitCounts, visit.nodeId);
      if count == I32_MAX {
        return false;
      }
      count := count + 1;
      visitCounts := visitCounts[visit.nodeId := count];
      ok := visit.visitNumber == count;
    }

    method IntroduceContextFact(context: ContextFact) returns (ok: bool)
      modifies this
      ensures Outcome(ok, IntroduceContext(old(State()), context))
    {
      ok := context.contextRevisionId !in introducedContexts;
      introducedContexts := introducedContexts + {context.contextRevisionId};
    }

    method IntroduceSubmissionFact(submission: SubmissionFact) returns (ok: bool)
      modifies this
      ensures Outcome(ok, IntroduceSubmission(old(State()), submission))
    {
      ok := submission.submissionId !in introducedSubmissions;
      introducedSubmissions := introducedSubmissions + {submission.submissionId};
    }

    method ApplyInitialEvent(event: EventFact) returns (ok: bool)
      modifies this
      ensures Outcome(ok, ApplyInitial(facts, old(State()), event))
    {
      hide InitialFits, IntactData;
      var data := IntactData(event);
      var context := Lookup(facts.contexts, event.contextRevisionId);
      var visit := Lookup(facts.visits, event.targetNodeVisitId);
      if data.None? || context.None? || visit.None? {
        return false;
      }
      var state := ReplayState(introducedContexts, introducedVisits, introducedSubmissions, visitCounts,
                               currentContext, currentVisit, version);
      if !InitialFits(facts, state, event, data.value, context.value, visit.value) {
        return false;
      }
      ok := IntroduceContextFact(context.value);
      if !ok {
        return;
      }
      ok := IntroduceVisitFact(visit.value);
      if !ok {
        return;
      }
      currentContext := Some(context.value.contextRevisionId);
      currentVisit := Some(visit.value.nodeVisitId);
    }

    method ApplyContextRevisionEvent(event: EventFact) returns (ok: bool)
      modifies this
      ensures Outcome(ok, ApplyContextRevision(facts, old(State()), event))
    {
      hide RevisionFits, IntactData;
      var data := IntactData(event);
      var context := Lookup(facts.contexts, event.contextRevisionId);
      var visit := Lookup(facts.visits, event.sourceNodeVisitId);
      var previous := Lookup(facts.contexts, currentContext);
      if data.None? || context.None? || visit.None? || previous.None? {
        return false;
      }
      var state := ReplayState(introducedContexts, introducedVisits, introducedSubmissions, visitCounts,
                               currentContext, currentVisit, version);
      if !RevisionFits(state, event, data.value, previous.value, context.value, visit.value) {
        return false;
      }
      ok := IntroduceContextFact(context.value);
      if ok {
        currentContext := Some(context.value.contextRevisionId);
      }
    }

    method ApplyTransitionEvent(event: EventFact) returns (ok: bool)
      modifies this
      ensures Outcome(ok, ApplyTransition(facts, old(State()), event))
    {
      hide StepFits, SubmissionFits, IntactData, IntroduceVisit, IntroduceSubmission;
      var data := IntactData(event);
      if data.None? || !data.value.TransitionData? || event.contextRevisionId != currentContext
         || Some(data.value.contextRevisionId) != currentContext {
        return false;
      }
      var source := Lookup(facts.visits, event.sourceNodeVisitId);
      var target := Lookup(facts.visits, event.targetNodeVisitId);
      if source.None? || target.None? || data.value.step.transitionDefinitionId !in facts.transitions {
        return false;
      }
      var transition := facts.transitions[data.value.step.transitionDefinitionId];
      var state := ReplayState(introducedContexts, introducedVisits, introducedSubmissions, visitCounts,
                               currentContext, currentVisit, version);
      if !StepFits(state, event, data.value.step, source.value, target.value, transition) {
        return false;
      }
      if event.submissionId.Some? {
        var submission := Lookup(facts.submissions, event.submissionId);
        if submission.None? || !SubmissionFits(event, submission.value, currentContext, transition)
           || data.value.transitionSubmissionDigest != Some(submission.value.payloadDigest) {
          return false;
        }
        ok := IntroduceSubmissionFact(submission.value);
        if !ok {
          return;
        }
      } else if data.value.transitionSubmissionDigest.Some? {
        return false;
      }
      ok := IntroduceVisitFact(target.value);
      if ok {
        currentVisit := Some(target.value.nodeVisitId);
      }
    }

    method ApplyCombinedEvent(event: EventFact) returns (ok: bool)
      modifies this
      ensures Outcome(ok, ApplyCombined(facts, old(State()), event))
    {
      hide CombinedContextFits, StepFits, SubmissionFits, IntactData, IntroduceVisit, IntroduceSubmission, IntroduceContext;
      var data := IntactData(event);
      var previous := Lookup(facts.contexts, currentContext);
      var context := Lookup(facts.contexts, event.contextRevisionId);
      if data.None? || previous.None? || context.None? {
        return false;
      }
      var state := ReplayState(introducedContexts, introducedVisits, introducedSubmissions, visitCounts,
                               currentContext, currentVisit, version);
      if !CombinedContextFits(state, event, data.value, previous.value, context.value) {
        return false;
      }
      assert data.value.CombinedData? by { CombinedContextHasStep(state, event, data.value, previous.value, context.value); }
      var source := Lookup(facts.visits, event.sourceNodeVisitId);
      var target := Lookup(facts.visits, event.targetNodeVisitId);
      if source.None? || target.None? || data.value.step.transitionDefinitionId !in facts.transitions {
        return false;
      }
      var transition := facts.transitions[data.value.step.transitionDefinitionId];
      if !StepFits(state, event, data.value.step, source.value, target.value, transition) {
        return false;
      }
      var submission := Lookup(facts.submissions, event.submissionId);
      if submission.None?
         || !SubmissionFits(event, submission.value, Some(context.value.contextRevisionId), transition)
         || data.value.submissionPayloadDigest != submission.value.payloadDigest {
        return false;
      }
      ok := IntroduceContextFact(context.value);
      if !ok {
        return;
      }
      ok := IntroduceSubmissionFact(submission.value);
      if !ok {
        return;
      }
      ok := IntroduceVisitFact(target.value);
      if ok {
        currentContext := Some(context.value.contextRevisionId);
        currentVisit := Some(target.value.nodeVisitId);
      }
    }

    method ApplyAdminEvent(event: EventFact) returns (ok: bool)
      modifies this
      ensures Outcome(ok, ApplyAdmin(facts, old(State()), event))
    {
      hide AdminFits, IntactData, IntroduceVisit;
      var data := IntactData(event);
      var source := Lookup(facts.visits, event.sourceNodeVisitId);
      var target := Lookup(facts.visits, event.targetNodeVisitId);
      if data.None? || source.None? || target.None? {
        return false;
      }
      var state := ReplayState(introducedContexts, introducedVisits, introducedSubmissions, visitCounts,
                               currentContext, currentVisit, version);
      if !AdminFits(facts, state, event, data.value, source.value, target.value) {
        return false;
      }
      ok := IntroduceVisitFact(target.value);
      if ok {
        currentVisit := Some(target.value.nodeVisitId);
      }
    }

    method ApplyEvent(event: EventFact, expectedSequence: int) returns (ok: bool)
      modifies this
      ensures Outcome(ok, Apply(facts, old(State()), event, expectedSequence))
    {
      hide ApplyInitial, ApplyContextRevision, ApplyTransition, ApplyCombined, ApplyAdmin;
      if event.workflowInstanceId != facts.instance.workflowInstanceId
         || event.eventSequence != expectedSequence
         || !event.eventSchemaVersion.V1?
         || event.oldWorkflowStateVersion != version
         || event.newWorkflowStateVersion != expectedSequence {
        return false;
      }
      match event.eventType {
        case INSTANCE_CREATED => ok := ApplyInitialEvent(event);
        case WORKFLOW_INSTANCE_CREATED => ok := ApplyInitialEvent(event);
        case WORKFLOW_INSTANCE_IMPORTED => ok := ApplyInitialEvent(event);
        case CONTEXT_REVISED => ok := ApplyContextRevisionEvent(event);
        case WORKFLOW_CONTEXT_REVISED => ok := ApplyContextRevisionEvent(event);
        case WORKFLOW_TRANSITION_COMMITTED => ok := ApplyTransitionEvent(event);
        case WORKFLOW_CONTEXT_REVISED_AND_TRANSITION_COMMITTED => ok := ApplyCombinedEvent(event);
        case ADMIN_EMERGENCY_OVERRIDE_COMMITTED => ok := ApplyAdminEvent(event);
        case UNSUPPORTED_EVENT => return false;
      }
      if ok {
        version := expectedSequence;
      }
    }

    method Finish() returns (r: Option<Projection>)
      ensures r == if EveryFactIntroduced(facts, State()) then Some(ReplayProjection(State())) else None
    {
      if |introducedContexts| != |facts.contexts|
         || |introducedVisits| != |facts.visits|
         || |introducedSubmissions| != |facts.submissions| {
        return None;
      }
      r := Some(Projection(currentContext, currentVisit, version));
    }
  }

  lemma CombinedContextHasStep(s: ReplayState, e: EventFact, data: EventData, previous: ContextFact, c: ContextFact)
    requires CombinedContextFits(s, e, data, previous, c)
    ensures data.CombinedData?
  {
  }

  method ReplayEvents(facts: Facts, events: seq<EventFact>) returns (r: Option<Projection>)
    ensures r == ReplayResult(facts, events)
  {
    hide Apply;
    if events == [] {
      return None;
    }
    var replay := new Replay(facts);
    for index := 0 to |events|
      invariant Fold(facts, events[..index]) == Some(replay.State())
      invariant replay.facts == facts
    {
      FoldStep(facts, events, index);
      if index + 1 > I32_MAX {
        FoldPrefixFails(facts, events, index + 1);
        return None;
      }
      var ok := replay.ApplyEvent(events[index], index + 1);
      if !ok {
        FoldPrefixFails(facts, events, index + 1);
        return None;
      }
    }
    assert events[..|events|] == events;
    r := replay.Finish();
  }
}
