/** The consistency checks that guard every query, and why accepted facts pass them. */
module QueryConsistency {
  import opened Prelude
  import opened DefinitionModel
  import opened RuntimeModel
  import opened KernelState
  import opened EventReplay
  import opened Snapshot
  import opened KeySort
  import opened ReplayMeaning
  import opened Rules

  datatype QueryError =
    | ForeignDomain | MissingContextPointer | ForeignContext | MissingVisitPointer | ForeignVisit | ForeignNode
    | EventMismatch | ContextChainBroken | VisitEscapes | SubmissionEscapes

  /** The aggregate row of an instance: its own columns, the joined current rows, and event totals. */
  datatype QueryBase = QueryBase(
    instance: InstanceRow,
    definitionDomainId: Option<Uuid>,
    context: Option<ContextFact>,
    visit: Option<VisitFact>,
    eventCount: nat,
    minSequence: Option<int>,
    maxSequence: Option<int>,
    referencesConsistent: bool)

  function MinSequence(events: seq<EventFact>): Option<int> {
    if events == [] then None
    else
      var last, before := events[|events| - 1].eventSequence, MinSequence(events[..|events| - 1]);
      if before.Some? && before.value <= last then before else Some(last)
  }

  function MaxSequence(events: seq<EventFact>): Option<int> {
    if events == [] then None
    else
      var last, before := events[|events| - 1].eventSequence, MaxSequence(events[..|events| - 1]);
      if before.Some? && before.value >= last then before else Some(last)
  }

  predicate Refers<T>(m: map<Uuid, T>, id: Option<Uuid>) {
    id.None? || id.value in m
  }

  predicate ReferencesExist(f: Facts, e: EventFact) {
    && Refers(f.visits, e.sourceNodeVisitId) && Refers(f.visits, e.targetNodeVisitId)
    && Refers(f.contexts, e.contextRevisionId) && Refers(f.submissions, e.submissionId)
  }

  function LoadBase(catalog: Catalog, l: Ledger): QueryBase {
    var f, version := FactsOf(catalog, l), l.instance.definitionVersionId;
    QueryBase(l.instance,
              if version in catalog.versions then Some(catalog.versions[version].domainId) else None,
              Lookup(f.contexts, l.instance.projection.currentContextRevisionId),
              Lookup(f.visits, l.instance.projection.currentNodeVisitId),
              |l.events|, MinSequence(l.events), MaxSequence(l.events),
              forall e :: e in l.events ==> ReferencesExist(f, e))
  }

  function ValidateBase(base: QueryBase): Option<QueryError> {
    var row, p := base.instance, base.instance.projection;
    if Some(row.domainId) != base.definitionDomainId then Some(ForeignDomain)
    else if p.currentContextRevisionId.None? then Some(MissingContextPointer)
    else if base.context.None? || base.context.value.workflowInstanceId != row.workflowInstanceId then Some(ForeignContext)
    else if p.currentNodeVisitId.None? then Some(MissingVisitPointer)
    else if base.visit.None? || base.visit.value.workflowInstanceId != row.workflowInstanceId then Some(ForeignVisit)
    else if base.visit.value.definitionVersionId != row.definitionVersionId then Some(ForeignNode)
    else if p.workflowStateVersion < 1 || base.eventCount != p.workflowStateVersion || base.minSequence != Some(1)
            || base.maxSequence != Some(p.workflowStateVersion) || !base.referencesConsistent then Some(EventMismatch)
    else None
  }

  function MinRevision(contexts: seq<ContextFact>): Option<int> {
    if contexts == [] then None
    else
      var last, before := contexts[|contexts| - 1].revisionNumber, MinRevision(contexts[..|contexts| - 1]);
      if before.Some? && before.value <= last then before else Some(last)
  }

  function MaxRevision(contexts: seq<ContextFact>): Option<int> {
    if contexts == [] then None
    else
      var last, before := contexts[|contexts| - 1].revisionNumber, MaxRevision(contexts[..|contexts| - 1]);
      if before.Some? && before.value >= last then before else Some(last)
  }

  /** The chain condition on one context and the one before it in revision order. */
  predicate LaggedLinkHolds(contexts: seq<ContextFact>, i: nat)
    requires i < |contexts|
  {
    var prior := if i == 0 then None else Some(contexts[i - 1].contextRevisionId);
    var c := contexts[i];
    || (c.revisionNumber == 1 && c.previousRevisionId.None? && prior.None?)
    || (c.revisionNumber > 1 && c.previousRevisionId == prior)
  }

  predicate ContextsConsistent(contexts: seq<ContextFact>, currentNumber: Option<int>) {
    && MinRevision(contexts) == Some(1)
    && MaxRevision(contexts) == Some(|contexts|)
    && MaxRevision(contexts) == currentNumber
    && forall i :: 0 <= i < |contexts| ==> LaggedLinkHolds(contexts, i)
  }

  predicate SubmissionConsistent(f: Facts, s: SubmissionFact) {
    var visit, context := Lookup(f.visits, Some(s.sourceNodeVisitId)), Lookup(f.contexts, Some(s.contextRevisionId));
    var t := Lookup(f.transitions, Some(s.transitionId));
    && visit.Some? && visit.value.workflowInstanceId == s.workflowInstanceId
    && visit.value.definitionVersionId == f.instance.definitionVersionId
    && context.Some? && context.value.workflowInstanceId == s.workflowInstanceId
    && t.Some? && t.value.definitionVersionId == f.instance.definitionVersionId
    && t.value.sourceNodeId == visit.value.nodeId
  }

  function ValidateAllFacts(catalog: Catalog, l: Ledger, base: QueryBase): Option<QueryError> {
    var f := FactsOf(catalog, l);
    if !ContextsConsistent(l.contexts, if base.context.Some? then Some(base.context.value.revisionNumber) else None)
    then Some(ContextChainBroken)
    else if !forall v :: v in l.visits ==> v.definitionVersionId == l.instance.definitionVersionId then Some(VisitEscapes)
    else if !forall s :: s in l.submissions ==> SubmissionConsistent(f, s) then Some(SubmissionEscapes)
    else None
  }

  // ----- What the checks find -----

  /** The instance's definition is one of its own domain. */
  predicate HasOwnDefinition(catalog: Catalog, row: InstanceRow) {
    row.definitionVersionId in catalog.versions && catalog.versions[row.definitionVersionId].domainId == row.domainId
  }

  /** From 1 to `n`, both of which occur. */
  predicate Spans(numbers: seq<int>, n: int) {
    1 in numbers && n in numbers && forall x :: x in numbers ==> 1 <= x <= n
  }

  function EventNumbers(events: seq<EventFact>): seq<int> {
    seq(|events|, i requires 0 <= i < |events| => events[i].eventSequence)
  }

  function RevisionNumbers(contexts: seq<ContextFact>): seq<int> {
    seq(|contexts|, i requires 0 <= i < |contexts| => contexts[i].revisionNumber)
  }

  predicate NamesContext(l: Ledger, id: Uuid) {
    exists c :: c in l.contexts && c.contextRevisionId == id
  }

  predicate NamesOwnRows(l: Ledger, e: EventFact) {
    && (e.sourceNodeVisitId.Some? ==> NamesVisit(l, IdText(e.sourceNodeVisitId.value)))
    && (e.targetNodeVisitId.Some? ==> NamesVisit(l, IdText(e.targetNodeVisitId.value)))
    && (e.contextRevisionId.Some? ==> NamesContext(l, e.contextRevisionId.value))
    && (e.submissionId.Some? ==> NamesSubmission(l, IdText(e.submissionId.value)))
  }

  /** Each context names the one before it; only the first may have number 1. */
  predicate IsLinkedList(contexts: seq<ContextFact>) {
    forall i :: 0 <= i < |contexts| ==> IsLinkedAt(contexts, i)
  }

  predicate IsLinkedAt(contexts: seq<ContextFact>, i: nat)
    requires i < |contexts|
  {
    && contexts[i].previousRevisionId == (if i == 0 then None else Some(contexts[i - 1].contextRevisionId))
    && (i > 0 ==> contexts[i].revisionNumber != 1)
  }

  /** The submission was made at a visit and in a context of the instance, by a transition from the visit's node. */
  predicate StaysInside(catalog: Catalog, l: Ledger, s: SubmissionFact) {
    var versionId := l.instance.definitionVersionId;
    && (exists c :: c in l.contexts && c.contextRevisionId == s.contextRevisionId && c.workflowInstanceId == s.workflowInstanceId)
    && exists v :: v in l.visits && v.nodeVisitId == s.sourceNodeVisitId && v.workflowInstanceId == s.workflowInstanceId
                   && v.definitionVersionId == versionId && LeavesNode(catalog, versionId, s.transitionId, v.nodeId)
  }

  predicate LeavesNode(catalog: Catalog, versionId: Uuid, transitionId: Uuid, nodeId: Uuid) {
    exists t :: t in GraphOf(catalog, versionId).transitions && t.transitionId == transitionId && t.sourceNodeId == nodeId
  }

  /** What is wrong with the stored rows when a query reports the error. */
  ghost predicate Breaks(catalog: Catalog, l: Ledger, e: QueryError) {
    var row, p := l.instance, l.instance.projection;
    match e
    case ForeignDomain => !HasOwnDefinition(catalog, row)
    case MissingContextPointer => p.currentContextRevisionId.None?
    case ForeignContext =>
      p.currentContextRevisionId.Some? && !exists c :: IsCurrentContext(l, c) && c.workflowInstanceId == row.workflowInstanceId
    case MissingVisitPointer => p.currentNodeVisitId.None?
    case ForeignVisit =>
      p.currentNodeVisitId.Some? && !exists v :: IsCurrentVisit(l, v) && v.workflowInstanceId == row.workflowInstanceId
    case ForeignNode => exists v :: IsCurrentVisit(l, v) && v.definitionVersionId != row.definitionVersionId
    case EventMismatch =>
      || p.workflowStateVersion != |l.events| || l.events == [] || !Spans(EventNumbers(l.events), |l.events|)
      || exists e :: e in l.events && !NamesOwnRows(l, e)
    case ContextChainBroken =>
      || !IsLinkedList(l.contexts) || !Spans(RevisionNumbers(l.contexts), |l.contexts|)
      || !exists c :: IsCurrentContext(l, c) && c.revisionNumber == |l.contexts|
    case VisitEscapes => exists v :: v in l.visits && v.definitionVersionId != row.definitionVersionId
    case SubmissionEscapes => exists s :: s in l.submissions && !StaysInside(catalog, l, s)
  }

  lemma {:induction false} EventSpan(events: seq<EventFact>, n: int)
    ensures MinSequence(events) == Some(1) && MaxSequence(events) == Some(n) <==> Spans(EventNumbers(events), n)
  {
    var numbers := EventNumbers(events);
    EventExtremes(events);
    assert forall i :: 0 <= i < |events| ==> numbers[i] == events[i].eventSequence;
    if events != [] {
      var low: nat :| low < |events| && events[low].eventSequence == MinSequence(events).value;
      var high: nat :| high < |events| && events[high].eventSequence == MaxSequence(events).value;
      assert numbers[low] in numbers && numbers[high] in numbers;
    }
  }

  lemma {:induction false} EventExtremes(events: seq<EventFact>)
    ensures MinSequence(events).None? <==> events == []
    ensures MaxSequence(events).None? <==> events == []
    ensures events != [] ==>
              && (exists i: nat :: i < |events| && events[i].eventSequence == MinSequence(events).value)
              && (exists i: nat :: i < |events| && events[i].eventSequence == MaxSequence(events).value)
              && forall i :: 0 <= i < |events| ==> MinSequence(events).value <= events[i].eventSequence <= MaxSequence(events).value
  {
    if events != [] {
      var before := events[..|events| - 1];
      EventExtremes(before);
      assert forall i :: 0 <= i < |before| ==> before[i] == events[i];
      assert events[|events| - 1].eventSequence == events[|before|].eventSequence;
    }
  }

  lemma {:induction false} RevisionSpan(contexts: seq<ContextFact>, n: int)
    ensures MinRevision(contexts) == Some(1) && MaxRevision(contexts) == Some(n) <==> Spans(RevisionNumbers(contexts), n)
  {
    var numbers := RevisionNumbers(contexts);
    RevisionExtremes(contexts);
    assert forall i :: 0 <= i < |contexts| ==> numbers[i] == contexts[i].revisionNumber;
    if contexts != [] {
      var low: nat :| low < |contexts| && contexts[low].revisionNumber == MinRevision(contexts).value;
      var high: nat :| high < |contexts| && contexts[high].revisionNumber == MaxRevision(contexts).value;
      assert numbers[low] in numbers && numbers[high] in numbers;
    }
  }

  lemma {:induction false} RevisionExtremes(contexts: seq<ContextFact>)
    ensures MinRevision(contexts).None? <==> contexts == []
    ensures MaxRevision(contexts).None? <==> contexts == []
    ensures contexts != [] ==>
              && (exists i: nat :: i < |contexts| && contexts[i].revisionNumber == MinRevision(contexts).value)
              && (exists i: nat :: i < |contexts| && contexts[i].revisionNumber == MaxRevision(contexts).value)
              && forall i :: 0 <= i < |contexts| ==>
                               MinRevision(contexts).value <= contexts[i].revisionNumber <= MaxRevision(contexts).value
  {
    if contexts != [] {
      var before := contexts[..|contexts| - 1];
      RevisionExtremes(before);
      assert forall i :: 0 <= i < |before| ==> before[i] == contexts[i];
      assert contexts[|contexts| - 1].revisionNumber == contexts[|before|].revisionNumber;
    }
  }

  lemma ReferencesAgree(catalog: Catalog, l: Ledger, e: EventFact)
    ensures ReferencesExist(FactsOf(catalog, l), e) <==> NamesOwnRows(l, e)
  {
    hide ContextsById, VisitsById, SubmissionsById, TransitionFacts;
    assert forall id :: id in ContextsById(l.contexts) <==> NamesContext(l, id);
    assert forall id :: id in VisitsById(l.visits) <==> NamesVisit(l, IdText(id));
    assert forall id :: id in SubmissionsById(l.submissions) <==> NamesSubmission(l, IdText(id));
  }

  lemma CurrentRows(catalog: Catalog, l: Ledger)
    requires UniqueIds(l)
    ensures forall c :: IsCurrentContext(l, c) <==> LoadBase(catalog, l).context == Some(c)
    ensures forall v :: IsCurrentVisit(l, v) <==> LoadBase(catalog, l).visit == Some(v)
  {
    hide ContextsById, VisitsById, SubmissionsById, TransitionFacts, MinSequence, MaxSequence, ReferencesExist;
    var contexts, visits := ContextsById(l.contexts), VisitsById(l.visits);
    forall c | IsCurrentContext(l, c)
      ensures contexts[c.contextRevisionId] == c
    {
      var i :| 0 <= i < |l.contexts| && l.contexts[i] == c;
      var j :| 0 <= j < |l.contexts| && l.contexts[j] == contexts[c.contextRevisionId];
    }
    forall v | IsCurrentVisit(l, v)
      ensures visits[v.nodeVisitId] == v
    {
      var i :| 0 <= i < |l.visits| && l.visits[i] == v;
      var j :| 0 <= j < |l.visits| && l.visits[j] == visits[v.nodeVisitId];
    }
  }

  lemma BaseEvents(catalog: Catalog, l: Ledger)
    ensures LoadBase(catalog, l).referencesConsistent <==> forall e :: e in l.events ==> NamesOwnRows(l, e)
  {
    hide FactsOf, ReferencesExist, NamesOwnRows, MinSequence, MaxSequence;
    forall e | e in l.events
      ensures ReferencesExist(FactsOf(catalog, l), e) <==> NamesOwnRows(l, e)
    {
      ReferencesAgree(catalog, l, e);
    }
  }

  /** The first check passes exactly if none of its errors is the case, and otherwise reports one that is. */
  lemma BaseVerdict(catalog: Catalog, l: Ledger)
    requires UniqueIds(l)
    ensures var r := ValidateBase(LoadBase(catalog, l));
      && (r.Some? ==> Breaks(catalog, l, r.value))
      && (r.None? <==>
          && !Breaks(catalog, l, ForeignDomain) && !Breaks(catalog, l, MissingContextPointer) && !Breaks(catalog, l, ForeignContext)
          && !Breaks(catalog, l, MissingVisitPointer) && !Breaks(catalog, l, ForeignVisit) && !Breaks(catalog, l, ForeignNode)
          && !Breaks(catalog, l, EventMismatch))
  {
    hide UniqueIds, FactsOf, IsCurrentContext, IsCurrentVisit, NamesOwnRows, ReferencesExist, MinSequence, MaxSequence, Spans,
         EventNumbers;
    CurrentRows(catalog, l);
    BaseEvents(catalog, l);
    EventSpan(l.events, |l.events|);
  }

  lemma LinksAgree(contexts: seq<ContextFact>, n: int)
    ensures ContextsConsistent(contexts, Some(n))
       <==> IsLinkedList(contexts) && Spans(RevisionNumbers(contexts), |contexts|) && n == |contexts|
  {
    hide MinRevision, MaxRevision, RevisionNumbers, Spans, LaggedLinkHolds, IsLinkedAt;
    RevisionSpan(contexts, |contexts|);
    RevisionExtremes(contexts);
    if MinRevision(contexts) == Some(1) {
      forall i | 0 <= i < |contexts|
        ensures LaggedLinkHolds(contexts, i) <==> IsLinkedAt(contexts, i)
      {
        LinkAgrees(contexts, i);
      }
    }
  }

  lemma LinkAgrees(contexts: seq<ContextFact>, i: nat)
    requires i < |contexts| && contexts[i].revisionNumber >= 1
    ensures LaggedLinkHolds(contexts, i) <==> IsLinkedAt(contexts, i)
  {
  }

  lemma SubmissionsInside(catalog: Catalog, l: Ledger, s: SubmissionFact)
    requires UniqueIds(l) && UniqueTransitionIds(GraphOf(catalog, l.instance.definitionVersionId).transitions)
    ensures SubmissionConsistent(FactsOf(catalog, l), s) <==> StaysInside(catalog, l, s)
  {
    hide ContextsById, VisitsById, SubmissionsById, TransitionsById, UniqueTransitionIds;
    var contexts, visits := ContextsById(l.contexts), VisitsById(l.visits);
    var transitions := GraphOf(catalog, l.instance.definitionVersionId).transitions;
    forall c | c in l.contexts
      ensures contexts[c.contextRevisionId] == c
    {
      var i :| 0 <= i < |l.contexts| && l.contexts[i] == c;
      var j :| 0 <= j < |l.contexts| && l.contexts[j] == contexts[c.contextRevisionId];
    }
    forall v | v in l.visits
      ensures visits[v.nodeVisitId] == v
    {
      var i :| 0 <= i < |l.visits| && l.visits[i] == v;
      var j :| 0 <= j < |l.visits| && l.visits[j] == visits[v.nodeVisitId];
    }
    forall t | t in transitions
      ensures TransitionsById(transitions)[t.transitionId] == t
    {
      TransitionIsItsLookup(transitions, t);
    }
  }

  /**
   The checks that guard queries pass exactly if nothing is broken, and otherwise report something that is,
   for arbitrary stored rows with unique ids.
   */
  lemma QueriesAcceptIffUnbroken(catalog: Catalog, l: Ledger)
    requires UniqueIds(l) && UniqueTransitionIds(GraphOf(catalog, l.instance.definitionVersionId).transitions)
    ensures var base := LoadBase(catalog, l);
      && (ValidateBase(base).None? && ValidateAllFacts(catalog, l, base).None? <==> forall e :: !Breaks(catalog, l, e))
      && (ValidateBase(base).Some? ==> Breaks(catalog, l, ValidateBase(base).value))
      && (ValidateBase(base).None? && ValidateAllFacts(catalog, l, base).Some? ==>
            Breaks(catalog, l, ValidateAllFacts(catalog, l, base).value))
  {
    hide UniqueIds, UniqueTransitionIds, FactsOf, ValidateBase, LoadBase, IsCurrentVisit, NamesOwnRows, Spans, EventNumbers,
         RevisionNumbers, ContextsConsistent, IsLinkedList, SubmissionConsistent, StaysInside, IsCurrentContext;
    var base := LoadBase(catalog, l);
    BaseVerdict(catalog, l);
    FactsVerdict(catalog, l);
    hide Breaks, ValidateAllFacts;
    if ValidateBase(base).None? && ValidateAllFacts(catalog, l, base).None? {
      forall e
        ensures !Breaks(catalog, l, e)
      {
        match e
        case ForeignDomain =>
        case MissingContextPointer =>
        case ForeignContext =>
        case MissingVisitPointer =>
        case ForeignVisit =>
        case ForeignNode =>
        case EventMismatch =>
        case ContextChainBroken =>
        case VisitEscapes =>
        case SubmissionEscapes =>
      }
    }
  }

  lemma FactsVerdict(catalog: Catalog, l: Ledger)
    requires UniqueIds(l) && UniqueTransitionIds(GraphOf(catalog, l.instance.definitionVersionId).transitions)
    ensures var r := ValidateAllFacts(catalog, l, LoadBase(catalog, l));
      && (r.Some? ==> Breaks(catalog, l, r.value))
      && (r.None? <==>
          && !Breaks(catalog, l, ContextChainBroken) && !Breaks(catalog, l, VisitEscapes) && !Breaks(catalog, l, SubmissionEscapes))
  {
    hide UniqueIds, UniqueTransitionIds, FactsOf, LoadBase, NamesOwnRows, Spans, EventNumbers, RevisionNumbers, ContextsConsistent,
         IsLinkedList, SubmissionConsistent, StaysInside, IsCurrentContext, MinRevision, MaxRevision;
    var base := LoadBase(catalog, l);
    CurrentRows(catalog, l);
    if base.context.Some? {
      LinksAgree(l.contexts, base.context.value.revisionNumber);
    } else {
      NoCurrentContext(l.contexts);
    }
    forall s | s in l.submissions
      ensures SubmissionConsistent(FactsOf(catalog, l), s) <==> StaysInside(catalog, l, s)
    {
      SubmissionsInside(catalog, l, s);
    }
  }

  lemma NoCurrentContext(contexts: seq<ContextFact>)
    ensures !ContextsConsistent(contexts, None)
  {
  }

  // ----- Accepted facts pass -----

  lemma {:induction false} SequencesSpan(events: seq<EventFact>)
    requires events != [] && forall i :: 0 <= i < |events| ==> events[i].eventSequence == i + 1
    ensures MinSequence(events) == Some(1) && MaxSequence(events) == Some(|events|)
  {
    if |events| > 1 {
      SequencesSpan(events[..|events| - 1]);
    } else {
      assert events[..0] == [];
    }
  }

  lemma {:induction false} RevisionsSpan(contexts: seq<ContextFact>)
    requires contexts != [] && forall i :: 0 <= i < |contexts| ==> contexts[i].revisionNumber == i + 1
    ensures MinRevision(contexts) == Some(1) && MaxRevision(contexts) == Some(|contexts|)
  {
    if |contexts| > 1 {
      RevisionsSpan(contexts[..|contexts| - 1]);
    } else {
      assert contexts[..0] == [];
    }
  }

  /** An accepted event refers only to stored facts. */
  lemma AcceptedReferencesExist(f: Facts, s: ReplayState, e: EventFact, expected: int, s': ReplayState)
    requires StepMeaning(f, s, e, expected, s')
    requires s.currentContext.Some? ==> s.currentContext.value in f.contexts
    ensures ReferencesExist(f, e)
  {
    hide Walks;
  }

  lemma {:induction false} AllReferencesExist(f: Facts, events: seq<EventFact>)
    requires KeysAgree(f) && Fold(f, events).Some?
    ensures forall i :: 0 <= i < |events| ==> ReferencesExist(f, events[i])
  {
    if events != [] {
      hide KeysAgree, Apply, ReferencesExist;
      var before, e := events[..|events| - 1], events[|events| - 1];
      AllReferencesExist(f, before);
      LastReferencesExist(f, before, e, |events|);
      assert forall i :: 0 <= i < |before| ==> events[i] == before[i];
    }
  }

  lemma LastReferencesExist(f: Facts, before: seq<EventFact>, e: EventFact, n: int)
    requires KeysAgree(f) && Fold(f, before).Some? && Apply(f, Fold(f, before).value, e, n).Some?
    ensures ReferencesExist(f, e)
  {
    hide KeysAgree, Apply, ReferencesExist, ContextStep, VisitStep, SubmissionStep, IsNumbered, IsContextChain, Fold, VisitCount;
    FoldEstablishes(f, before);
    var s := Fold(f, before).value;
    ApplyMeaning(f, s, e, n);
    ChainEndIsStored(f, ContextOrder(before));
    AcceptedReferencesExist(f, s, e, n, Apply(f, s, e, n).value);
  }

  lemma ChainEndIsStored(f: Facts, order: seq<Uuid>)
    requires IsContextChain(f, order)
    ensures LastOf(order).Some? ==> LastOf(order).value in f.contexts
    ensures LastOf(order).Some? ==> f.contexts[LastOf(order).value].revisionNumber == |order|
  {
    if order != [] {
      assert ChainLink(f, order, |order| - 1);
    }
  }

  lemma NumberedEndIsStored(f: Facts, order: seq<Uuid>)
    requires IsNumbered(f, order)
    ensures LastOf(order).Some? ==> LastOf(order).value in f.visits
  {
    if order != [] {
      assert NumberedAt(f, order, |order| - 1);
    }
  }

  lemma AcceptedEventsPass(catalog: Catalog, receipts: seq<Receipt>, l: Ledger)
    requires UniqueIds(l) && Reconstruct(catalog, receipts, l).Some?
    ensures |l.events| >= 1 && MinSequence(l.events) == Some(1) && MaxSequence(l.events) == Some(|l.events|)
    ensures forall e :: e in l.events ==> ReferencesExist(FactsOf(catalog, l), e)
  {
    hide KeysAgree, Fold, ContextsValid, VisitsValid, SubmissionsValid, LinkageHolds, IsContextChain, IsNumbered,
         IntroducedOnce, ReferencesExist, UniqueIds;
    AcceptanceMeans(catalog, receipts, l);
    FactKeysAgree(catalog, l);
    AllReferencesExist(FactsOf(catalog, l), l.events);
    forall i | 0 <= i < |l.events|
      ensures l.events[i].eventSequence == i + 1
    {
      assert EventLeadsOn(FactsOf(catalog, l), l.events, i);
    }
    SequencesSpan(l.events);
  }

  /** The replayed pointers name the last stored context and a stored visit. */
  lemma AcceptedPointersPass(catalog: Catalog, receipts: seq<Receipt>, l: Ledger, p: Projection)
    requires UniqueIds(l) && Reconstruct(catalog, receipts, l) == Some(p)
    ensures p.currentContextRevisionId.Some? && p.currentNodeVisitId.Some? && p.workflowStateVersion == |l.events|
    ensures var f := FactsOf(catalog, l);
      && p.currentContextRevisionId.value in f.contexts
      && f.contexts[p.currentContextRevisionId.value].revisionNumber == |l.contexts|
      && p.currentNodeVisitId.value in f.visits
  {
    hide KeysAgree, Fold, ContextsValid, VisitsValid, SubmissionsValid, LinkageHolds, UniqueIds, IntroducedOnce,
         IsContextChain, IsNumbered, EventLeadsOn;
    var f := FactsOf(catalog, l);
    FactKeysAgree(catalog, l);
    AcceptanceMeans(catalog, receipts, l);
    AcceptedIntroducesOnce(f, l.events);
    ChainEndIsStored(f, ContextOrder(l.events));
    NumberedEndIsStored(f, VisitOrder(l.events));
    FoldEstablishes(f, l.events);
  }

  lemma ValidContextsPass(l: Ledger)
    requires ContextsValid(l.instance, l.contexts)
    ensures ContextsConsistent(l.contexts, Some(|l.contexts|))
  {
    forall i | 0 <= i < |l.contexts|
      ensures l.contexts[i].revisionNumber == i + 1 && LaggedLinkHolds(l.contexts, i)
    {
      assert ContextValid(l.instance, l.contexts, i);
    }
    RevisionsSpan(l.contexts);
  }

  lemma ValidSubmissionPasses(catalog: Catalog, l: Ledger, s: SubmissionFact)
    requires FactsValid(FactsOf(catalog, l), l) && s in l.submissions
    ensures SubmissionConsistent(FactsOf(catalog, l), s)
  {
    hide ContextsById, VisitsById, SubmissionsById, TransitionFacts;
    var f := FactsOf(catalog, l);
    assert SubmissionValid(f.instance, f.contexts, f.visits, s, f.transitions);
    var visit, context := f.visits[s.sourceNodeVisitId], f.contexts[s.contextRevisionId];
    assert VisitValid(l.instance, visit, f.transitions);
    var i :| 0 <= i < |l.contexts| && l.contexts[i] == context;
    assert ContextValid(l.instance, l.contexts, i);
  }

  /**
   Replay implies query acceptance: facts with unique ids that the snapshot validators and the replay
   accept, with the projection that the replay returns and a definition of the instance's own domain,
   pass both checks that guard queries.
   */
  lemma ReplayImpliesQueryAcceptance(catalog: Catalog, receipts: seq<Receipt>, l: Ledger)
    requires UniqueIds(l)
    requires l.instance.definitionVersionId in catalog.versions
    requires catalog.versions[l.instance.definitionVersionId].domainId == l.instance.domainId
    ensures Reconstruct(catalog, receipts, l) == Some(l.instance.projection) ==>
              && ValidateBase(LoadBase(catalog, l)).None?
              && ValidateAllFacts(catalog, l, LoadBase(catalog, l)).None?
  {
    hide KeysAgree, LinkageHolds, ReplayResult, UniqueIds, ReferencesExist, MinSequence, MaxSequence, ContextsConsistent,
         SubmissionConsistent, TransitionFacts;
    if Reconstruct(catalog, receipts, l) != Some(l.instance.projection) {
      return;
    }
    var f, p := FactsOf(catalog, l), l.instance.projection;
    AcceptedEventsPass(catalog, receipts, l);
    AcceptedPointersPass(catalog, receipts, l, p);
    ValidContextsPass(l);
    var visit, context := f.visits[p.currentNodeVisitId.value], f.contexts[p.currentContextRevisionId.value];
    assert VisitValid(l.instance, visit, f.transitions);
    var i :| 0 <= i < |l.contexts| && l.contexts[i] == context;
    assert ContextValid(l.instance, l.contexts, i);
    forall s | s in l.submissions ensures SubmissionConsistent(f, s) { ValidSubmissionPasses(catalog, l, s); }
    forall v | v in l.visits ensures v.definitionVersionId == l.instance.definitionVersionId {
      assert VisitValid(l.instance, v, f.transitions);
    }
  }
}
