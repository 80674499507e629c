/**
 Writers, validators and replay agree: the invariant of one ledger, and its preservation by every
 entry that a command appends.
 */
module Agreement {
  import opened Prelude
  import opened DefinitionModel
  import opened RuntimeModel
  import opened KernelState
  import opened EventReplay
  import opened Snapshot
  import opened Commands

  // ----- The invariant of one ledger -----

  /** The replay has introduced exactly the stored facts and stands exactly on the stored projection. */
  ghost predicate Coupled(l: Ledger, s: ReplayState) {
    && s.introducedContexts == ContextsById(l.contexts).Keys
    && s.introducedVisits == VisitsById(l.visits).Keys
    && s.introducedSubmissions == SubmissionsById(l.submissions).Keys
    && (forall node :: VisitCount(s.visitCounts, node) == MaxVisitNumber(l.visits, node))
    && ReplayProjection(s) == l.instance.projection
    && s.version == |l.events|
  }

  /** The node columns of a visit are those of its node in the instance's version. */
  predicate VisitJoins(catalog: Catalog, l: InstanceRow, v: VisitFact) {
    var n := NodeOf(catalog, l.definitionVersionId, v.nodeId);
    && n.Some?
    && v.nodeType == n.value.nodeType
    && v.assigneeRefType == (if n.value.assigneeRef.Some? then Some(n.value.assigneeRef.value.refType) else None)
  }

  ghost predicate AllVisitsJoin(catalog: Catalog, l: Ledger) {
    forall v :: v in l.visits ==> VisitJoins(catalog, l.instance, v)
  }

  predicate CurrentContextIsLast(l: Ledger) {
    l.contexts != [] && l.instance.projection.currentContextRevisionId == Some(l.contexts[|l.contexts| - 1].contextRevisionId)
  }

  ghost predicate Coherent(catalog: Catalog, l: Ledger) {
    && FactsValid(FactsOf(catalog, l), l)
    && AllVisitsJoin(catalog, l)
    && CurrentContextIsLast(l)
    && l.events != []
    && Fold(FactsOf(catalog, l), l.events).Some?
    && Coupled(l, Fold(FactsOf(catalog, l), l.events).value)
  }

  lemma MapSize<T>(m: map<Uuid, T>)
    ensures |m.Keys| == |m|
  {
  }

  /** A coherent ledger reconstructs to exactly its stored projection. */
  lemma CoherentReconstructs(catalog: Catalog, receipts: seq<Receipt>, l: Ledger)
    requires Coherent(catalog, l) && LinkageHolds(receipts, FactsOf(catalog, l), l.events)
    ensures Reconstruct(catalog, receipts, l) == Some(l.instance.projection)
  {
    hide FactsValid, LinkageHolds, Fold, AllVisitsJoin;
    MapSize(ContextsById(l.contexts));
    MapSize(VisitsById(l.visits));
    MapSize(SubmissionsById(l.submissions));
  }

  // ----- The replay does not notice facts added later -----

  ghost predicate Extends<T>(m: map<Uuid, T>, m': map<Uuid, T>) {
    forall id :: id in m ==> id in m' && m'[id] == m[id]
  }

  ghost predicate Grows(f: Facts, f': Facts) {
    && f'.instance == f.instance.(projection := f'.instance.projection)
    && f'.definitionDigest == f.definitionDigest
    && f'.transitions == f.transitions
    && Extends(f.contexts, f'.contexts)
    && Extends(f.visits, f'.visits)
    && Extends(f.submissions, f'.submissions)
  }

  lemma LookupGrows<T>(m: map<Uuid, T>, m': map<Uuid, T>, id: Option<Uuid>)
    requires Extends(m, m') && Lookup(m, id).Some?
    ensures Lookup(m', id) == Lookup(m, id)
  {
    var k := id.value;
    assert k in m;
    assert k in m' && m'[k] == m[k];
  }

  lemma InitialGrows(f: Facts, f': Facts, s: ReplayState, e: EventFact)
    requires Grows(f, f') && ApplyInitial(f, s, e).Some?
    ensures ApplyInitial(f', s, e) == ApplyInitial(f, s, e)
  {
    hide IntroduceVisit, IntroduceContext;
    LookupGrows(f.contexts, f'.contexts, e.contextRevisionId);
    LookupGrows(f.visits, f'.visits, e.targetNodeVisitId);
  }

  lemma RevisionGrows(f: Facts, f': Facts, s: ReplayState, e: EventFact)
    requires Grows(f, f') && ApplyContextRevision(f, s, e).Some?
    ensures ApplyContextRevision(f', s, e) == ApplyContextRevision(f, s, e)
  {
    hide RevisionFits, IntroduceContext;
    LookupGrows(f.contexts, f'.contexts, s.currentContext);
    LookupGrows(f.contexts, f'.contexts, e.contextRevisionId);
    LookupGrows(f.visits, f'.visits, e.sourceNodeVisitId);
  }

  lemma TransitionGrows(f: Facts, f': Facts, s: ReplayState, e: EventFact)
    requires Grows(f, f') && ApplyTransition(f, s, e).Some?
    ensures ApplyTransition(f', s, e) == ApplyTransition(f, s, e)
  {
    hide StepFits, SubmissionFits, IntroduceVisit, IntroduceSubmission;
    LookupGrows(f.visits, f'.visits, e.sourceNodeVisitId);
    LookupGrows(f.visits, f'.visits, e.targetNodeVisitId);
    if e.submissionId.Some? {
      LookupGrows(f.submissions, f'.submissions, e.submissionId);
    }
  }

  lemma CombinedGrows(f: Facts, f': Facts, s: ReplayState, e: EventFact)
    requires Grows(f, f') && ApplyCombined(f, s, e).Some?
    ensures ApplyCombined(f', s, e) == ApplyCombined(f, s, e)
  {
    hide CombinedContextFits, StepFits, SubmissionFits, IntroduceAll;
    LookupGrows(f.contexts, f'.contexts, s.currentContext);
    LookupGrows(f.contexts, f'.contexts, e.contextRevisionId);
    LookupGrows(f.visits, f'.visits, e.sourceNodeVisitId);
    LookupGrows(f.visits, f'.visits, e.targetNodeVisitId);
    LookupGrows(f.submissions, f'.submissions, e.submissionId);
    var data := IntactData(e).value;
    assert data.CombinedData? by {
      CombinedContextHasStep(s, e, data, Lookup(f.contexts, s.currentContext).value,
                             Lookup(f.contexts, e.contextRevisionId).value);
    }
  }

  lemma AdminGrows(f: Facts, f': Facts, s: ReplayState, e: EventFact)
    requires Grows(f, f') && ApplyAdmin(f, s, e).Some?
    ensures ApplyAdmin(f', s, e) == ApplyAdmin(f, s, e)
  {
    hide EnterVisit, AdminPayloadBounded;
    LookupGrows(f.visits, f'.visits, e.sourceNodeVisitId);
    LookupGrows(f.visits, f'.visits, e.targetNodeVisitId);
  }

  lemma ApplyGrows(f: Facts, f': Facts, s: ReplayState, e: EventFact, expected: int)
    requires Grows(f, f') && Apply(f, s, e, expected).Some?
    ensures Apply(f', s, e, expected) == Apply(f, s, e, expected)
  {
    hide ApplyInitial, ApplyContextRevision, ApplyTransition, ApplyCombined, ApplyAdmin;
    match e.eventType
    case INSTANCE_CREATED => InitialGrows(f, f', s, e);
    case WORKFLOW_INSTANCE_CREATED => InitialGrows(f, f', s, e);
    case WORKFLOW_INSTANCE_IMPORTED => InitialGrows(f, f', s, e);
    case CONTEXT_REVISED => RevisionGrows(f, f', s, e);
    case WORKFLOW_CONTEXT_REVISED => RevisionGrows(f, f', s, e);
    case WORKFLOW_TRANSITION_COMMITTED => TransitionGrows(f, f', s, e);
    case WORKFLOW_CONTEXT_REVISED_AND_TRANSITION_COMMITTED => CombinedGrows(f, f', s, e);
    case ADMIN_EMERGENCY_OVERRIDE_COMMITTED => AdminGrows(f, f', s, e);
    case UNSUPPORTED_EVENT =>
  }

  lemma {:induction false} FoldGrows(f: Facts, f': Facts, events: seq<EventFact>)
    requires Grows(f, f') && Fold(f, events).Some?
    ensures Fold(f', events) == Fold(f, events)
  {
    if events != [] {
      hide Apply, Grows;
      var before := events[..|events| - 1];
      FoldGrows(f, f', before);
      ApplyGrows(f, f', Fold(f, before).value, events[|events| - 1], |events|);
    }
  }

  // ----- Appending facts -----

  predicate FreshIn(l: Ledger, e: Entry) {
    && (e.context.Some? ==> e.context.value.contextRevisionId !in ContextsById(l.contexts))
    && (e.visit.Some? ==> e.visit.value.nodeVisitId !in VisitsById(l.visits))
    && (e.submission.Some? ==> e.submission.value.submissionId !in SubmissionsById(l.submissions))
  }

  lemma ContextsSnoc(facts: seq<ContextFact>, c: ContextFact)
    ensures ContextsById(facts + [c]) == ContextsById(facts)[c.contextRevisionId := c]
  {
    assert (facts + [c])[..|facts|] == facts;
  }

  lemma VisitsSnoc(facts: seq<VisitFact>, v: VisitFact)
    ensures VisitsById(facts + [v]) == VisitsById(facts)[v.nodeVisitId := v]
  {
    assert (facts + [v])[..|facts|] == facts;
  }

  lemma SubmissionsSnoc(facts: seq<SubmissionFact>, s: SubmissionFact)
    ensures SubmissionsById(facts + [s]) == SubmissionsById(facts)[s.submissionId := s]
  {
    assert (facts + [s])[..|facts|] == facts;
  }

  lemma AppendedMaps(l: Ledger, e: Entry)
    ensures ContextsById(Append(l, e).contexts)
         == if e.context.Some? then ContextsById(l.contexts)[e.context.value.contextRevisionId := e.context.value]
            else ContextsById(l.contexts)
    ensures VisitsById(Append(l, e).visits)
         == if e.visit.Some? then VisitsById(l.visits)[e.visit.value.nodeVisitId := e.visit.value] else VisitsById(l.visits)
    ensures SubmissionsById(Append(l, e).submissions)
         == if e.submission.Some? then SubmissionsById(l.submissions)[e.submission.value.submissionId := e.submission.value]
            else SubmissionsById(l.submissions)
  {
    hide ContextsById, VisitsById, SubmissionsById;
    if e.context.Some? {
      ContextsSnoc(l.contexts, e.context.value);
    } else {
      assert l.contexts + [] == l.contexts;
    }
    if e.visit.Some? {
      VisitsSnoc(l.visits, e.visit.value);
    } else {
      assert l.visits + [] == l.visits;
    }
    if e.submission.Some? {
      SubmissionsSnoc(l.submissions, e.submission.value);
    } else {
      assert l.submissions + [] == l.submissions;
    }
  }

  lemma AppendGrows(catalog: Catalog, l: Ledger, e: Entry)
    requires FreshIn(l, e)
    ensures Grows(FactsOf(catalog, l), FactsOf(catalog, Append(l, e)))
  {
    hide ContextsById, VisitsById, SubmissionsById, TransitionFacts;
    AppendedMaps(l, e);
  }

  /** The new event, applied to what the old events left, leaves the new projection. */
  ghost predicate EventFits(catalog: Catalog, l: Ledger, e: Entry)
    requires Fold(FactsOf(catalog, l), l.events).Some?
  {
    var s := Fold(FactsOf(catalog, l), l.events).value;
    var s' := Apply(FactsOf(catalog, Append(l, e)), s, e.event, |l.events| + 1);
    s'.Some? && Coupled(Append(l, e), s'.value)
  }

  lemma AppendFolds(catalog: Catalog, l: Ledger, e: Entry)
    requires FreshIn(l, e) && Fold(FactsOf(catalog, l), l.events).Some? && |l.events| < I32_MAX
    ensures Fold(FactsOf(catalog, Append(l, e)), Append(l, e).events)
         == Apply(FactsOf(catalog, Append(l, e)), Fold(FactsOf(catalog, l), l.events).value, e.event, |l.events| + 1)
  {
    hide Apply, FactsOf, Append, Grows, FreshIn;
    var f, f' := FactsOf(catalog, l), FactsOf(catalog, Append(l, e));
    AppendGrows(catalog, l, e);
    FoldGrows(f, f', l.events);
    assert Append(l, e).events == l.events + [e.event] by { AppendedEvents(l, e); }
    var events := l.events + [e.event];
    assert events[..|l.events|] == l.events;
    FoldStep(f', events, |l.events|);
    assert events[..|events|] == events;
  }

  lemma AppendedEvents(l: Ledger, e: Entry)
    ensures Append(l, e).events == l.events + [e.event]
  {
  }

  lemma AppendIsCoherent(catalog: Catalog, l: Ledger, e: Entry)
    requires Coherent(catalog, l) && FreshIn(l, e) && |l.events| < I32_MAX
    requires FactsValid(FactsOf(catalog, Append(l, e)), Append(l, e))
    requires AllVisitsJoin(catalog, Append(l, e)) && CurrentContextIsLast(Append(l, e))
    requires EventFits(catalog, l, e)
    ensures Coherent(catalog, Append(l, e))
  {
    hide FactsValid, Coupled, Apply, FreshIn, FactsOf, AllVisitsJoin, CurrentContextIsLast, Append;
    AppendFolds(catalog, l, e);
    AppendedEvents(l, e);
  }

  // ----- The validators accept appended facts -----

  lemma ContextsStayValid(l: Ledger, e: Entry)
    requires ContextsValid(l.instance, l.contexts)
    requires e.context.Some? ==>
               var c := e.context.value;
               && c.workflowInstanceId == l.instance.workflowInstanceId
               && c.revisionNumber == |l.contexts| + 1
               && c.previousRevisionId == Some(l.contexts[|l.contexts| - 1].contextRevisionId)
               && c.payloadDigest == OfJson(c.payload)
    ensures ContextsValid(Append(l, e).instance, Append(l, e).contexts)
  {
    var contexts := Append(l, e).contexts;
    forall i | 0 <= i < |contexts|
      ensures ContextValid(Append(l, e).instance, contexts, i)
    {
      if i < |l.contexts| {
        assert ContextValid(l.instance, l.contexts, i);
      }
    }
  }

  lemma VisitsStayValid(l: Ledger, e: Entry, transitions: map<Uuid, TransitionFact>)
    requires VisitsValid(l.instance, l.visits, transitions)
    requires e.visit.Some? ==> VisitValid(l.instance, e.visit.value, transitions)
    ensures VisitsValid(Append(l, e).instance, Append(l, e).visits, transitions)
  {
    forall v | v in Append(l, e).visits
      ensures VisitValid(Append(l, e).instance, v, transitions)
    {
      assert v in l.visits || e.visit == Some(v);
      assert VisitValid(l.instance, v, transitions);
    }
  }

  lemma SubmissionsStayValid(catalog: Catalog, l: Ledger, e: Entry)
    requires SubmissionsValid(FactsOf(catalog, l), l.submissions) && FreshIn(l, e)
    requires e.submission.Some? ==>
               var f := FactsOf(catalog, Append(l, e));
               SubmissionValid(f.instance, f.contexts, f.visits, e.submission.value, f.transitions)
    ensures SubmissionsValid(FactsOf(catalog, Append(l, e)), Append(l, e).submissions)
  {
    hide ContextsById, VisitsById, SubmissionsById, TransitionFacts;
    var f, f' := FactsOf(catalog, l), FactsOf(catalog, Append(l, e));
    AppendGrows(catalog, l, e);
    forall s | s in Append(l, e).submissions
      ensures SubmissionValid(f'.instance, f'.contexts, f'.visits, s, f'.transitions)
    {
      assert s in l.submissions || e.submission == Some(s);
      if s in l.submissions {
        assert SubmissionValid(f.instance, f.contexts, f.visits, s, f.transitions);
      }
    }
  }

  lemma MaxVisitNumberSnoc(visits: seq<VisitFact>, v: VisitFact, node: Uuid)
    requires v.visitNumber == MaxVisitNumber(visits, v.nodeId) + 1
    ensures MaxVisitNumber(visits + [v], node) == if node == v.nodeId then v.visitNumber else MaxVisitNumber(visits, node)
  {
    assert (visits + [v])[..|visits|] == visits;
  }

  // ----- What insertability says about one ledger -----

  lemma StoredIdsAreUsed(ledgers: map<Uuid, Ledger>, k: Uuid, id: Uuid)
    requires k in ledgers
    ensures id in ContextsById(ledgers[k].contexts) ==> ContextIdUsed(ledgers, id)
    ensures id in VisitsById(ledgers[k].visits) ==> VisitIdUsed(ledgers, id)
    ensures id in SubmissionsById(ledgers[k].submissions) ==> SubmissionIdUsed(ledgers, id)
  {
    var l := ledgers[k];
    assert id in ContextsById(l.contexts) ==> ContextsById(l.contexts)[id] in l.contexts;
    assert id in VisitsById(l.visits) ==> VisitsById(l.visits)[id] in l.visits;
    assert id in SubmissionsById(l.submissions) ==> SubmissionsById(l.submissions)[id] in l.submissions;
  }

  lemma InsertableIsFresh(ledgers: map<Uuid, Ledger>, k: Uuid, e: Entry)
    requires k in ledgers && EntryInsertable(ledgers, ledgers[k], e)
    ensures FreshIn(ledgers[k], e)
  {
    if e.context.Some? {
      StoredIdsAreUsed(ledgers, k, e.context.value.contextRevisionId);
    }
    if e.visit.Some? {
      StoredIdsAreUsed(ledgers, k, e.visit.value.nodeVisitId);
    }
    if e.submission.Some? {
      StoredIdsAreUsed(ledgers, k, e.submission.value.submissionId);
    }
  }
}
