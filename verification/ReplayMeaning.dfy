/** What acceptance by the replay says about arbitrary stored facts. */
module ReplayMeaning {
  import opened Prelude
  import opened DefinitionModel
  import opened RuntimeModel
  import opened KernelState
  import opened EventReplay
  import opened Snapshot
  import opened KeySort

  predicate IsInitial(e: EventFact) {
    e.eventType.INSTANCE_CREATED? || e.eventType.WORKFLOW_INSTANCE_CREATED? || e.eventType.WORKFLOW_INSTANCE_IMPORTED?
  }

  predicate IsRevision(e: EventFact) {
    e.eventType.CONTEXT_REVISED? || e.eventType.WORKFLOW_CONTEXT_REVISED?
  }

  predicate IsTransition(e: EventFact) {
    e.eventType.WORKFLOW_TRANSITION_COMMITTED? || e.eventType.WORKFLOW_CONTEXT_REVISED_AND_TRANSITION_COMMITTED?
  }

  predicate IsOverride(e: EventFact) {
    e.eventType.ADMIN_EMERGENCY_OVERRIDE_COMMITTED?
  }

  predicate BringsContext(e: EventFact) {
    IsInitial(e) || IsRevision(e) || e.eventType.WORKFLOW_CONTEXT_REVISED_AND_TRANSITION_COMMITTED?
  }

  predicate BringsVisit(e: EventFact) {
    !IsRevision(e)
  }

  predicate BringsSubmission(e: EventFact) {
    IsTransition(e) && e.submissionId.Some?
  }

  // ----- The effect of one accepted event -----

  /** The context that the event introduces continues the chain, or starts it. */
  predicate ContextStep(f: Facts, s: ReplayState, e: EventFact, s': ReplayState) {
    if BringsContext(e) then
      && e.contextRevisionId.Some? && e.contextRevisionId.value in f.contexts
      && e.contextRevisionId.value !in s.introducedContexts
      && s'.introducedContexts == s.introducedContexts + {e.contextRevisionId.value}
      && s'.currentContext == e.contextRevisionId
      && var c := f.contexts[e.contextRevisionId.value];
      && c.previousRevisionId == (if IsInitial(e) then None else s.currentContext)
      && c.revisionNumber == (if IsInitial(e) then 1
                              else if s.currentContext.Some? && s.currentContext.value in f.contexts
                              then f.contexts[s.currentContext.value].revisionNumber + 1 else 0)
      && (!IsInitial(e) ==> s.currentContext.Some? && s.currentContext.value in f.contexts)
    else
      && s'.introducedContexts == s.introducedContexts && s'.currentContext == s.currentContext
      && e.contextRevisionId == s.currentContext
  }

  /** The visit that the event enters is new, has the next number of its node, and is reached as recorded. */
  predicate VisitStep(f: Facts, s: ReplayState, e: EventFact, s': ReplayState) {
    if BringsVisit(e) then
      && e.targetNodeVisitId.Some? && e.targetNodeVisitId.value in f.visits
      && e.targetNodeVisitId.value !in s.introducedVisits
      && s'.introducedVisits == s.introducedVisits + {e.targetNodeVisitId.value}
      && s'.currentVisit == e.targetNodeVisitId
      && var v := f.visits[e.targetNodeVisitId.value];
      && v.visitNumber == VisitCount(s.visitCounts, v.nodeId) + 1
      && s'.visitCounts == s.visitCounts[v.nodeId := v.visitNumber]
      && (if IsInitial(e) then e.sourceNodeVisitId.None? && v.enteredByTransitionId.None?
          else
            && e.sourceNodeVisitId == s.currentVisit
            && e.sourceNodeVisitId.Some? && e.sourceNodeVisitId.value in f.visits
            && Walks(f, e, f.visits[e.sourceNodeVisitId.value], v))
    else
      && s'.introducedVisits == s.introducedVisits && s'.currentVisit == s.currentVisit
      && s'.visitCounts == s.visitCounts
      && e.sourceNodeVisitId == e.targetNodeVisitId == s.currentVisit
      && e.sourceNodeVisitId.Some? && e.sourceNodeVisitId.value in f.visits
  }

  /** From visit `a` to visit `b` along a transition of the definition, or by an override. */
  predicate Walks(f: Facts, e: EventFact, a: VisitFact, b: VisitFact) {
    if IsOverride(e) then b.enteredByTransitionId.None?
    else
      && b.enteredByTransitionId.Some? && b.enteredByTransitionId.value in f.transitions
      && var t := f.transitions[b.enteredByTransitionId.value];
      && t.sourceNodeId == a.nodeId && t.targetNodeId == b.nodeId && e.transitionEffect == Some(t.transitionEffect)
  }

  predicate SubmissionStep(f: Facts, s: ReplayState, e: EventFact, s': ReplayState) {
    if BringsSubmission(e) then
      && e.submissionId.value in f.submissions && e.submissionId.value !in s.introducedSubmissions
      && s'.introducedSubmissions == s.introducedSubmissions + {e.submissionId.value}
      && e.sourceNodeVisitId == Some(f.submissions[e.submissionId.value].sourceNodeVisitId)
    else s'.introducedSubmissions == s.introducedSubmissions && e.submissionId.None?
  }

  predicate StepMeaning(f: Facts, s: ReplayState, e: EventFact, expected: int, s': ReplayState) {
    && ContextStep(f, s, e, s') && VisitStep(f, s, e, s') && SubmissionStep(f, s, e, s')
    && s.version == e.oldWorkflowStateVersion && s'.version == e.newWorkflowStateVersion == e.eventSequence == expected
    && (if IsInitial(e) then s.version == 0 else s.currentVisit.Some?)
    && !e.eventType.UNSUPPORTED_EVENT?
  }

  ghost predicate KeysAgree(f: Facts) {
    && (forall id :: id in f.contexts ==> f.contexts[id].contextRevisionId == id)
    && (forall id :: id in f.visits ==> f.visits[id].nodeVisitId == id)
    && (forall id :: id in f.submissions ==> f.submissions[id].submissionId == id)
    && (forall id :: id in f.transitions ==> f.transitions[id].transitionId == id)
  }

  lemma LookupsAgree(f: Facts, id: Option<Uuid>)
    requires KeysAgree(f)
    ensures Lookup(f.contexts, id).Some? ==>
              id.value in f.contexts && Lookup(f.contexts, id).value == f.contexts[id.value]
              && f.contexts[id.value].contextRevisionId == id.value
    ensures Lookup(f.visits, id).Some? ==>
              id.value in f.visits && Lookup(f.visits, id).value == f.visits[id.value]
              && f.visits[id.value].nodeVisitId == id.value
    ensures Lookup(f.submissions, id).Some? ==>
              id.value in f.submissions && Lookup(f.submissions, id).value == f.submissions[id.value]
              && f.submissions[id.value].submissionId == id.value
  {
    if id.Some? {
      var k := id.value;
      assert k in f.contexts ==> f.contexts[k].contextRevisionId == k;
      assert k in f.visits ==> f.visits[k].nodeVisitId == k;
      assert k in f.submissions ==> f.submissions[k].submissionId == k;
    }
  }

  lemma InitialMeaning(f: Facts, s: ReplayState, e: EventFact, expected: int)
    requires KeysAgree(f) && IsInitial(e) && Apply(f, s, e, expected).Some?
    ensures StepMeaning(f, s, e, expected, Apply(f, s, e, expected).value)
  {
    hide ImportFits, CreationFits;
    LookupsAgree(f, e.contextRevisionId);
    LookupsAgree(f, e.targetNodeVisitId);
  }

  lemma RevisionMeaning(f: Facts, s: ReplayState, e: EventFact, expected: int)
    requires KeysAgree(f) && IsRevision(e) && Apply(f, s, e, expected).Some?
    ensures StepMeaning(f, s, e, expected, Apply(f, s, e, expected).value)
  {
    LookupsAgree(f, e.contextRevisionId);
    LookupsAgree(f, e.sourceNodeVisitId);
    LookupsAgree(f, s.currentContext);
  }

  lemma TransitionMeaning(f: Facts, s: ReplayState, e: EventFact, expected: int)
    requires KeysAgree(f) && e.eventType.WORKFLOW_TRANSITION_COMMITTED? && Apply(f, s, e, expected).Some?
    ensures StepMeaning(f, s, e, expected, Apply(f, s, e, expected).value)
  {
    LookupsAgree(f, e.sourceNodeVisitId);
    LookupsAgree(f, e.targetNodeVisitId);
    LookupsAgree(f, e.submissionId);
    var step := IntactData(e).value.step;
    assert f.transitions[step.transitionDefinitionId].transitionId == step.transitionDefinitionId;
  }

  lemma CombinedMeaning(f: Facts, s: ReplayState, e: EventFact, expected: int)
    requires KeysAgree(f) && e.eventType.WORKFLOW_CONTEXT_REVISED_AND_TRANSITION_COMMITTED?
    requires Apply(f, s, e, expected).Some?
    ensures StepMeaning(f, s, e, expected, Apply(f, s, e, expected).value)
  {
    LookupsAgree(f, e.contextRevisionId);
    LookupsAgree(f, s.currentContext);
    LookupsAgree(f, e.sourceNodeVisitId);
    LookupsAgree(f, e.targetNodeVisitId);
    LookupsAgree(f, e.submissionId);
    var step := IntactData(e).value.step;
    assert f.transitions[step.transitionDefinitionId].transitionId == step.transitionDefinitionId;
  }

  lemma AdminMeaning(f: Facts, s: ReplayState, e: EventFact, expected: int)
    requires KeysAgree(f) && IsOverride(e) && Apply(f, s, e, expected).Some?
    ensures StepMeaning(f, s, e, expected, Apply(f, s, e, expected).value)
  {
    hide AdminPayloadBounded;
    LookupsAgree(f, e.sourceNodeVisitId);
    LookupsAgree(f, e.targetNodeVisitId);
  }

  lemma ApplyMeaning(f: Facts, s: ReplayState, e: EventFact, expected: int)
    requires KeysAgree(f) && Apply(f, s, e, expected).Some?
    ensures StepMeaning(f, s, e, expected, Apply(f, s, e, expected).value)
  {
    hide ApplyInitial, ApplyContextRevision, ApplyTransition, ApplyCombined, ApplyAdmin, StepMeaning, KeysAgree, HeaderFits;
    match e.eventType
    case INSTANCE_CREATED => InitialMeaning(f, s, e, expected);
    case WORKFLOW_INSTANCE_CREATED => InitialMeaning(f, s, e, expected);
    case WORKFLOW_INSTANCE_IMPORTED => InitialMeaning(f, s, e, expected);
    case CONTEXT_REVISED => RevisionMeaning(f, s, e, expected);
    case WORKFLOW_CONTEXT_REVISED => RevisionMeaning(f, s, e, expected);
    case WORKFLOW_TRANSITION_COMMITTED => TransitionMeaning(f, s, e, expected);
    case WORKFLOW_CONTEXT_REVISED_AND_TRANSITION_COMMITTED => CombinedMeaning(f, s, e, expected);
    case ADMIN_EMERGENCY_OVERRIDE_COMMITTED => AdminMeaning(f, s, e, expected);
    case UNSUPPORTED_EVENT =>
  }

  // ----- Facts in event order -----

  function ContextOrder(events: seq<EventFact>): seq<Uuid> {
    if events == [] then []
    else
      var e := events[|events| - 1];
      ContextOrder(events[..|events| - 1])
      + if BringsContext(e) && e.contextRevisionId.Some? then [e.contextRevisionId.value] else []
  }

  function VisitOrder(events: seq<EventFact>): seq<Uuid> {
    if events == [] then []
    else
      var e := events[|events| - 1];
      VisitOrder(events[..|events| - 1])
      + if BringsVisit(e) && e.targetNodeVisitId.Some? then [e.targetNodeVisitId.value] else []
  }

  function SubmissionOrder(events: seq<EventFact>): seq<Uuid> {
    if events == [] then []
    else
      var e := events[|events| - 1];
      SubmissionOrder(events[..|events| - 1]) + if BringsSubmission(e) then [e.submissionId.value] else []
  }

  /** How many of the visits belong to the node. */
  function CountOfNode(visits: map<Uuid, VisitFact>, ids: seq<Uuid>, node: Uuid): nat {
    if ids == [] then 0
    else
      var last := ids[|ids| - 1];
      CountOfNode(visits, ids[..|ids| - 1], node) + if last in visits && visits[last].nodeId == node then 1 else 0
  }

  ghost predicate IsContextChain(f: Facts, order: seq<Uuid>) {
    && NoDuplicates(order)
    && forall i :: 0 <= i < |order| ==> ChainLink(f, order, i)
  }

  predicate ChainLink(f: Facts, order: seq<Uuid>, i: nat)
    requires i < |order|
  {
    && order[i] in f.contexts
    && f.contexts[order[i]].revisionNumber == i + 1
    && f.contexts[order[i]].previousRevisionId == (if i == 0 then None else Some(order[i - 1]))
  }

  ghost predicate IsNumbered(f: Facts, order: seq<Uuid>) {
    && NoDuplicates(order)
    && forall i :: 0 <= i < |order| ==> NumberedAt(f, order, i)
  }

  predicate NumberedAt(f: Facts, order: seq<Uuid>, i: nat)
    requires i < |order|
  {
    && order[i] in f.visits
    && f.visits[order[i]].visitNumber == CountOfNode(f.visits, order[..i + 1], f.visits[order[i]].nodeId)
  }

  /** Event `i` is the only initial one when it is the first, and leads on from the visit before it otherwise. */
  ghost predicate EventLeadsOn(f: Facts, events: seq<EventFact>, i: nat)
    requires i < |events|
  {
    var e, before := events[i], VisitOrder(events[..i]);
    && (IsInitial(e) <==> i == 0)
    && e.eventSequence == e.newWorkflowStateVersion == i + 1 && e.oldWorkflowStateVersion == i
    && (i > 0 ==>
          && before != [] && before[|before| - 1] in f.visits
          && e.sourceNodeVisitId == Some(before[|before| - 1])
          && (BringsVisit(e) ==>
                && e.targetNodeVisitId.Some? && e.targetNodeVisitId.value in f.visits
                && Walks(f, e, f.visits[before[|before| - 1]], f.visits[e.targetNodeVisitId.value])))
  }

  /** What the fold has established after the events. */
  ghost predicate Established(f: Facts, events: seq<EventFact>, s: ReplayState) {
    && s.version == |events|
    && (set x | x in ContextOrder(events)) == s.introducedContexts
    && (set x | x in VisitOrder(events)) == s.introducedVisits
    && (set x | x in SubmissionOrder(events)) == s.introducedSubmissions
    && (events != [] ==> ContextOrder(events) != [] && VisitOrder(events) != [])
    && s.currentContext == LastOf(ContextOrder(events))
    && s.currentVisit == LastOf(VisitOrder(events))
    && (forall node :: VisitCount(s.visitCounts, node) == CountOfNode(f.visits, VisitOrder(events), node))
    && IsContextChain(f, ContextOrder(events))
    && IsNumbered(f, VisitOrder(events))
    && NoDuplicates(SubmissionOrder(events))
  }

  function LastOf(ids: seq<Uuid>): Option<Uuid> {
    if ids == [] then None else Some(ids[|ids| - 1])
  }

  lemma SnocSet(ids: seq<Uuid>, x: Uuid)
    ensures (set y | y in ids + [x]) == (set y | y in ids) + {x}
    ensures NoDuplicates(ids) && x !in ids ==> NoDuplicates(ids + [x])
  {
  }

  lemma ChainSnoc(f: Facts, order: seq<Uuid>, x: Uuid)
    requires IsContextChain(f, order) && x in f.contexts && x !in order
    requires f.contexts[x].revisionNumber == |order| + 1 && f.contexts[x].previousRevisionId == LastOf(order)
    ensures IsContextChain(f, order + [x])
  {
    SnocSet(order, x);
    var longer := order + [x];
    forall i | 0 <= i < |longer|
      ensures ChainLink(f, longer, i)
    {
      if i < |order| {
        assert ChainLink(f, order, i);
      }
    }
  }

  lemma NumberedSnoc(f: Facts, order: seq<Uuid>, x: Uuid)
    requires IsNumbered(f, order) && x in f.visits && x !in order
    requires f.visits[x].visitNumber == CountOfNode(f.visits, order, f.visits[x].nodeId) + 1
    ensures IsNumbered(f, order + [x])
  {
    SnocSet(order, x);
    var longer := order + [x];
    assert longer[..|order|] == order && longer[..|order| + 1] == longer;
    forall i | 0 <= i < |longer|
      ensures NumberedAt(f, longer, i)
    {
      if i < |order| {
        assert NumberedAt(f, order, i);
        assert longer[..i + 1] == order[..i + 1];
      }
    }
  }

  lemma CountSnoc(visits: map<Uuid, VisitFact>, order: seq<Uuid>, x: Uuid, node: Uuid)
    ensures CountOfNode(visits, order + [x], node)
         == CountOfNode(visits, order, node) + if x in visits && visits[x].nodeId == node then 1 else 0
  {
    assert (order + [x])[..|order|] == order;
  }

  lemma ContextsEstablished(f: Facts, events: seq<EventFact>, e: EventFact, s: ReplayState, s': ReplayState)
    requires Established(f, events, s) && StepMeaning(f, s, e, |events| + 1, s')
    ensures var order := ContextOrder(events + [e]);
      && (set x | x in order) == s'.introducedContexts && order != []
      && s'.currentContext == LastOf(order) && IsContextChain(f, order)
  {
    hide IsNumbered, VisitStep, SubmissionStep;
    assert (events + [e])[..|events|] == events;
    var before := ContextOrder(events);
    if BringsContext(e) {
      var x := e.contextRevisionId.value;
      SnocSet(before, x);
      assert x !in before;
      if before != [] {
        assert ChainLink(f, before, |before| - 1);
      }
      ChainSnoc(f, before, x);
    } else {
      assert before + [] == before;
    }
  }

  lemma VisitsEstablished(f: Facts, events: seq<EventFact>, e: EventFact, s: ReplayState, s': ReplayState)
    requires Established(f, events, s) && StepMeaning(f, s, e, |events| + 1, s')
    ensures var order := VisitOrder(events + [e]);
      && (set x | x in order) == s'.introducedVisits && order != []
      && s'.currentVisit == LastOf(order) && IsNumbered(f, order)
    ensures forall node :: VisitCount(s'.visitCounts, node) == CountOfNode(f.visits, VisitOrder(events + [e]), node)
  {
    hide IsContextChain, ContextStep, SubmissionStep, Walks;
    assert (events + [e])[..|events|] == events;
    var before := VisitOrder(events);
    if BringsVisit(e) {
      var x := e.targetNodeVisitId.value;
      SnocSet(before, x);
      assert x !in before;
      assert VisitCount(s.visitCounts, f.visits[x].nodeId) == CountOfNode(f.visits, before, f.visits[x].nodeId);
      NumberedSnoc(f, before, x);
      forall node
        ensures VisitCount(s'.visitCounts, node) == CountOfNode(f.visits, VisitOrder(events + [e]), node)
      {
        CountSnoc(f.visits, before, x, node);
        assert VisitCount(s.visitCounts, node) == CountOfNode(f.visits, before, node);
      }
    } else {
      assert before + [] == before;
    }
  }

  lemma SubmissionsEstablished(f: Facts, events: seq<EventFact>, e: EventFact, s: ReplayState, s': ReplayState)
    requires Established(f, events, s) && StepMeaning(f, s, e, |events| + 1, s')
    ensures var order := SubmissionOrder(events + [e]);
      (set x | x in order) == s'.introducedSubmissions && NoDuplicates(order)
  {
    hide IsContextChain, IsNumbered, ContextStep, VisitStep;
    assert (events + [e])[..|events|] == events;
    var before := SubmissionOrder(events);
    if BringsSubmission(e) {
      SnocSet(before, e.submissionId.value);
      assert e.submissionId.value !in before;
    } else {
      assert before + [] == before;
    }
  }

  lemma {:induction false} FoldEstablishes(f: Facts, events: seq<EventFact>)
    requires KeysAgree(f) && Fold(f, events).Some?
    ensures Established(f, events, Fold(f, events).value)
  {
    if events != [] {
      hide Apply, KeysAgree, IsContextChain, IsNumbered, ContextStep, VisitStep, SubmissionStep;
      var before, e := events[..|events| - 1], events[|events| - 1];
      FoldEstablishes(f, before);
      var s, s' := Fold(f, before).value, Fold(f, events).value;
      ApplyMeaning(f, s, e, |events|);
      assert events == before + [e];
      ContextsEstablished(f, before, e, s, s');
      VisitsEstablished(f, before, e, s, s');
      SubmissionsEstablished(f, before, e, s, s');
    } else {
      hide KeysAgree;
    }
  }

  /** Every event of an accepted history leads on from the one before it. */
  lemma {:induction false} EventsLeadOn(f: Facts, events: seq<EventFact>, i: nat)
    requires KeysAgree(f) && Fold(f, events).Some? && i < |events|
    ensures EventLeadsOn(f, events, i)
    decreases |events|
  {
    hide Apply, KeysAgree, IsContextChain, IsNumbered, ContextStep, SubmissionStep, Walks;
    var before, e := events[..|events| - 1], events[|events| - 1];
    if i < |events| - 1 {
      EventsLeadOn(f, before, i);
      assert before[..i] == events[..i] && before[i] == events[i];
    } else {
      FoldEstablishes(f, before);
      ApplyMeaning(f, Fold(f, before).value, e, |events|);
    }
  }

  // ----- What acceptance implies -----

  predicate UniqueIds(l: Ledger) {
    && (forall i, j :: 0 <= i < j < |l.contexts| ==> l.contexts[i].contextRevisionId != l.contexts[j].contextRevisionId)
    && (forall i, j :: 0 <= i < j < |l.visits| ==> l.visits[i].nodeVisitId != l.visits[j].nodeVisitId)
    && (forall i, j :: 0 <= i < j < |l.submissions| ==> l.submissions[i].submissionId != l.submissions[j].submissionId)
  }

  lemma FactKeysAgree(catalog: Catalog, l: Ledger)
    ensures KeysAgree(FactsOf(catalog, l))
  {
  }

  lemma SubsetOfSameSize<T>(a: set<T>, b: set<T>)
    requires a <= b && |a| == |b|
    ensures a == b
  {
    assert |b - a| == |b| - |a|;
  }

  lemma ChainIsSubset(f: Facts, order: seq<Uuid>)
    requires IsContextChain(f, order)
    ensures (set x | x in order) <= f.contexts.Keys
  {
    forall x | x in order ensures x in f.contexts {
      var i :| 0 <= i < |order| && order[i] == x;
      assert ChainLink(f, order, i);
    }
  }

  lemma NumberedIsSubset(f: Facts, order: seq<Uuid>)
    requires IsNumbered(f, order)
    ensures (set x | x in order) <= f.visits.Keys
  {
    forall x | x in order ensures x in f.visits {
      var i :| 0 <= i < |order| && order[i] == x;
      assert NumberedAt(f, order, i);
    }
  }

  lemma {:induction false} SubmissionsAreStored(f: Facts, events: seq<EventFact>)
    requires KeysAgree(f) && Fold(f, events).Some?
    ensures Fold(f, events).value.introducedSubmissions <= f.submissions.Keys
  {
    if events != [] {
      hide Apply, KeysAgree, ContextStep, VisitStep;
      SubmissionsAreStored(f, events[..|events| - 1]);
      ApplyMeaning(f, Fold(f, events[..|events| - 1]).value, events[|events| - 1], |events|);
    }
  }

  /** In an accepted history, the facts in event order are each stored fact exactly once. */
  ghost predicate IntroducedOnce(f: Facts, events: seq<EventFact>) {
    && NoDuplicates(ContextOrder(events)) && (set x | x in ContextOrder(events)) == f.contexts.Keys
    && NoDuplicates(VisitOrder(events)) && (set x | x in VisitOrder(events)) == f.visits.Keys
    && NoDuplicates(SubmissionOrder(events)) && (set x | x in SubmissionOrder(events)) == f.submissions.Keys
  }

  lemma AcceptedIntroducesOnce(f: Facts, events: seq<EventFact>)
    requires KeysAgree(f) && ReplayResult(f, events).Some?
    ensures IntroducedOnce(f, events)
    ensures IsContextChain(f, ContextOrder(events)) && IsNumbered(f, VisitOrder(events))
    ensures ReplayResult(f, events)
         == Some(Projection(LastOf(ContextOrder(events)), LastOf(VisitOrder(events)), |events|))
  {
    hide KeysAgree, Fold, ChainLink, NumberedAt;
    FoldEstablishes(f, events);
    SubmissionsAreStored(f, events);
    ChainIsSubset(f, ContextOrder(events));
    NumberedIsSubset(f, VisitOrder(events));
    assert |f.contexts.Keys| == |f.contexts| && |f.visits.Keys| == |f.visits| && |f.submissions.Keys| == |f.submissions|;
    SubsetOfSameSize((set x | x in ContextOrder(events)), f.contexts.Keys);
    SubsetOfSameSize((set x | x in VisitOrder(events)), f.visits.Keys);
    SubsetOfSameSize((set x | x in SubmissionOrder(events)), f.submissions.Keys);
  }

  lemma {:induction false} DistinctCount(ids: seq<Uuid>)
    requires NoDuplicates(ids)
    ensures |set x | x in ids| == |ids|
  {
    if ids != [] {
      var before, last := ids[..|ids| - 1], ids[|ids| - 1];
      DistinctCount(before);
      assert ids == before + [last];
      assert (set x | x in ids) == (set x | x in before) + {last};
    }
  }

  function ContextIds(facts: seq<ContextFact>): (ids: seq<Uuid>)
    ensures |ids| == |facts| && forall i :: 0 <= i < |facts| ==> ids[i] == facts[i].contextRevisionId
  {
    if facts == [] then [] else [facts[0].contextRevisionId] + ContextIds(facts[1..])
  }

  lemma IdsAreKeys(facts: seq<ContextFact>)
    ensures (set x | x in ContextIds(facts)) == ContextsById(facts).Keys
  {
    hide ContextsById;
    var ids, m := ContextIds(facts), ContextsById(facts);
    forall x | x in m
      ensures x in ids
    {
      var i :| 0 <= i < |facts| && facts[i] == m[x];
      assert ids[i] == x;
    }
    forall x | x in ids
      ensures x in m
    {
      var i :| 0 <= i < |ids| && ids[i] == x;
      assert facts[i] in facts;
    }
  }

  lemma IdsAreDistinct(l: Ledger)
    requires UniqueIds(l)
    ensures NoDuplicates(ContextIds(l.contexts))
  {
  }

  lemma ChainPositionIsLoadPosition(l: Ledger, f: Facts, order: seq<Uuid>, i: nat)
    requires f.contexts == ContextsById(l.contexts) && ContextsValid(l.instance, l.contexts)
    requires IsContextChain(f, order) && i < |order|
    ensures i < |l.contexts| && order[i] == l.contexts[i].contextRevisionId
  {
    hide NoDuplicates;
    assert ChainLink(f, order, i);
    var c := f.contexts[order[i]];
    var j :| 0 <= j < |l.contexts| && l.contexts[j] == c;
    assert ContextValid(l.instance, l.contexts, j);
  }

  /** The stored chain, in load order, is the chain in event order. */
  lemma LoadOrderIsEventOrder(l: Ledger, f: Facts, order: seq<Uuid>)
    requires f.contexts == ContextsById(l.contexts) && UniqueIds(l) && ContextsValid(l.instance, l.contexts)
    requires IsContextChain(f, order) && (set x | x in order) == f.contexts.Keys
    ensures order == ContextIds(l.contexts)
  {
    hide ContextValid, ChainLink, ContextsById, UniqueIds;
    IdsAreKeys(l.contexts);
    IdsAreDistinct(l);
    DistinctCount(ContextIds(l.contexts));
    DistinctCount(order);
    forall i | 0 <= i < |order|
      ensures order[i] == ContextIds(l.contexts)[i]
    {
      ChainPositionIsLoadPosition(l, f, order, i);
    }
  }

  /**
   What acceptance implies, for arbitrary stored facts with unique ids: only the first event is
   initial; the contexts are one linked chain, in event order; each node's visits are numbered from
   1 in event order; every fact is introduced exactly once; and the visits form a walk along
   transitions of the definition, except where an override moves. The converse does not hold: acceptance
   also checks digests, event data and linkage, which the conclusion leaves out.
   */
  lemma AcceptanceMeans(catalog: Catalog, receipts: seq<Receipt>, l: Ledger)
    requires UniqueIds(l)
    ensures Reconstruct(catalog, receipts, l).Some? ==>
              var f := FactsOf(catalog, l);
              && ContextOrder(l.events) == ContextIds(l.contexts)
              && IsContextChain(f, ContextOrder(l.events))
              && IsNumbered(f, VisitOrder(l.events))
              && IntroducedOnce(f, l.events)
              && (forall i :: 0 <= i < |l.events| ==> EventLeadsOn(f, l.events, i))
  {
    hide KeysAgree, Fold, IsContextChain, IsNumbered, ContextsValid, VisitsValid, SubmissionsValid, LinkageHolds,
         EventLeadsOn, IntroducedOnce;
    if Reconstruct(catalog, receipts, l).None? {
      return;
    }
    var f := FactsOf(catalog, l);
    FactKeysAgree(catalog, l);
    AcceptedIntroducesOnce(f, l.events);
    assert (set x | x in ContextOrder(l.events)) == f.contexts.Keys by { OnceMeansAll(f, l.events); }
    LoadOrderIsEventOrder(l, f, ContextOrder(l.events));
    forall i | 0 <= i < |l.events|
      ensures EventLeadsOn(f, l.events, i)
    {
      EventsLeadOn(f, l.events, i);
    }
  }

  lemma OnceMeansAll(f: Facts, events: seq<EventFact>)
    requires IntroducedOnce(f, events)
    ensures (set x | x in ContextOrder(events)) == f.contexts.Keys
  {
  }
}
