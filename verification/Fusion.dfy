/**
 The combined command against its two halves: it succeeds exactly when a revision and then a primary
 ADVANCE with a submission succeed, and it leaves the same facts with one event fewer.
 */
module Fusion {
  import opened Prelude
  import opened DefinitionModel
  import opened RuntimeModel
  import opened KernelState
  import opened Snapshot
  import opened Commands
  import opened Pipeline
  import opened Agreement
  import opened WriterAgreement
  import opened KernelRuns
  import opened Idempotency

  function ReviseHalf(c: CombinedCommand): ReviseCommand {
    ReviseCommand(c.principalId, c.workflowInstanceId, c.expectedVersion, c.contextPayload)
  }

  function AdvanceHalf(c: CombinedCommand): TransitionCommand {
    TransitionCommand(c.principalId, c.workflowInstanceId, c.expectedVersion + 1, c.transitionId, Some(c.submissionPayload))
  }

  /** The named transition advances. */
  predicate NamesAdvance(catalog: Catalog, l: Ledger, c: CombinedCommand) {
    var t := TransitionOf(catalog, l.instance.definitionVersionId, c.transitionId);
    t.Some? && t.value.transitionEffect.ADVANCE?
  }

  // ----- The checks -----

  /** The ledger after the revision half, for the checks of the other half. */
  predicate IsRevised(l: Ledger, l': Ledger) {
    && HasPointers(l') && l'.instance == l.instance.(projection := l'.instance.projection)
    && l'.instance.projection.currentNodeVisitId == l.instance.projection.currentNodeVisitId
    && l'.instance.projection.workflowStateVersion == l.instance.projection.workflowStateVersion + 1
    && l'.visits == l.visits && l'.submissions == l.submissions
  }

  /** What passes the combined checks passes both halves. */
  lemma CombinedPassesBoth(env: Env, ledgers: map<Uuid, Ledger>, cmd: CombinedCommand, ledgers': map<Uuid, Ledger>)
    requires cmd.workflowInstanceId in ledgers && cmd.workflowInstanceId in ledgers'
    requires IsRevised(ledgers[cmd.workflowInstanceId], ledgers'[cmd.workflowInstanceId])
    requires CheckCombined(env, ledgers, cmd).Go?
    ensures CheckRevise(env, ledgers, ReviseHalf(cmd)).Go? && env.catalog.sizeOf(cmd.contextPayload) <= MIB
    ensures CheckTransition(env, ledgers', AdvanceHalf(cmd)).Go? && NamesAdvance(env.catalog, ledgers[cmd.workflowInstanceId], cmd)
  {
    hide VisitsById, ContextsById, GraphOf, NodeOf, TransitionOf, ResolveRule, ConformsTo, ReturnReferencesHold,
         PrincipalEnabled;
  }

  /** The checks agree, whatever revised ledger the second half runs on. */
  lemma ChecksFuse(env: Env, ledgers: map<Uuid, Ledger>, cmd: CombinedCommand, ledgers': map<Uuid, Ledger>)
    requires cmd.workflowInstanceId in ledgers && cmd.workflowInstanceId in ledgers'
    requires IsRevised(ledgers[cmd.workflowInstanceId], ledgers'[cmd.workflowInstanceId])
    ensures CheckCombined(env, ledgers, cmd).Go?
      <==> (&& CheckRevise(env, ledgers, ReviseHalf(cmd)).Go? && env.catalog.sizeOf(cmd.contextPayload) <= MIB
            && CheckTransition(env, ledgers', AdvanceHalf(cmd)).Go?
            && NamesAdvance(env.catalog, ledgers[cmd.workflowInstanceId], cmd))
  {
    hide VisitsById, ContextsById, GraphOf, NodeOf, TransitionOf, ResolveRule, ConformsTo, ReturnReferencesHold,
         PrincipalEnabled;
    if CheckCombined(env, ledgers, cmd).Go? {
      CombinedPassesBoth(env, ledgers, cmd, ledgers');
    }
  }

  /** The two ways resolve the same nodes, transition and assignee. */
  lemma PlansFuse(env: Env, ledgers: map<Uuid, Ledger>, cmd: CombinedCommand, ledgers': map<Uuid, Ledger>)
    requires cmd.workflowInstanceId in ledgers && cmd.workflowInstanceId in ledgers'
    requires IsRevised(ledgers[cmd.workflowInstanceId], ledgers'[cmd.workflowInstanceId])
    requires CheckCombined(env, ledgers, cmd).Go? && CheckRevise(env, ledgers, ReviseHalf(cmd)).Go?
    requires CheckTransition(env, ledgers', AdvanceHalf(cmd)).Go?
    ensures var once, first, second := CheckCombined(env, ledgers, cmd).value, CheckRevise(env, ledgers, ReviseHalf(cmd)).value,
                                       CheckTransition(env, ledgers', AdvanceHalf(cmd)).value;
      && once.visit == first.visit == second.visit && once.context == first.context
      && once.transition == second.transition && once.target == second.target && once.assigneeId == second.assigneeId
      && once.ledger == first.ledger == ledgers[cmd.workflowInstanceId]
      && second.ledger == ledgers'[cmd.workflowInstanceId]
      && once.transition.transitionEffect.ADVANCE?
  {
    hide VisitsById, ContextsById, GraphOf, NodeOf, TransitionOf, ResolveRule, ConformsTo, ReturnReferencesHold,
         PrincipalEnabled;
  }

  // ----- The writes -----

  /** Event and command id are used nowhere. */
  predicate FreshEvent(ledgers: map<Uuid, Ledger>, ids: FreshIds) {
    !EventIdUsed(ledgers, ids.eventId) && !CommandIdUsed(ledgers, ids.commandId)
  }

  /** The revision half leaves ids of visits and submissions as used as they were. */
  lemma UsedAfterRevision(ledgers: map<Uuid, Ledger>, id: Uuid, l': Ledger)
    requires id in ledgers && l'.visits == ledgers[id].visits && l'.submissions == ledgers[id].submissions
    ensures forall x :: VisitIdUsed(ledgers[id := l'], x) <==> VisitIdUsed(ledgers, x)
    ensures forall x :: SubmissionIdUsed(ledgers[id := l'], x) <==> SubmissionIdUsed(ledgers, x)
    ensures forall x :: SourceVisitUsed(ledgers[id := l'], x) <==> SourceVisitUsed(ledgers, x)
  {
    var ledgers' := ledgers[id := l'];
    assert forall k :: k in ledgers <==> k in ledgers';
    assert forall k :: k in ledgers ==> ledgers'[k].visits == ledgers[k].visits;
    assert forall k :: k in ledgers ==> ledgers'[k].submissions == ledgers[k].submissions;
  }

  /** Only the new event's ids become used. */
  lemma FreshAfterEvent(ledgers: map<Uuid, Ledger>, id: Uuid, l': Ledger, e: EventFact, ids: FreshIds)
    requires id in ledgers && l'.events == ledgers[id].events + [e] && FreshEvent(ledgers, ids)
    requires e.eventId != ids.eventId && e.commandId != Some(ids.commandId)
    ensures FreshEvent(ledgers[id := l'], ids)
  {
    var ledgers' := ledgers[id := l'];
    forall k | k in ledgers'
      ensures forall x :: x in ledgers'[k].events ==> x.eventId != ids.eventId && x.commandId != Some(ids.commandId)
    {
      assert forall x :: x in ledgers'[k].events ==> x == e || (k in ledgers && x in ledgers[k].events);
    }
  }

  /** A coherent ledger's next event is insertable, whatever its type. */
  lemma NextEventInsertable(catalog: Catalog, ledgers: map<Uuid, Ledger>, l: Ledger, e: EventFact, ids: FreshIds)
    requires Coherent(catalog, l) && FreshEvent(ledgers, ids) && e.eventId == ids.eventId && e.commandId == Some(ids.commandId)
    requires l.instance.projection.workflowStateVersion < I32_MAX
    requires e.oldWorkflowStateVersion == l.instance.projection.workflowStateVersion
    requires e.eventSequence == e.newWorkflowStateVersion == Inc32(e.oldWorkflowStateVersion)
    ensures EventInsertable(ledgers, l.events, e) && IsPositiveI32(e.newWorkflowStateVersion)
  {
    hide Coherent, EventIdUsed, CommandIdUsed;
    VersionBounded(catalog, l);
    forall x | x in l.events ensures x.eventSequence <= |l.events| {
      var i :| 0 <= i < |l.events| && x == l.events[i];
      SequenceIsPosition(catalog, l, i);
    }
  }

  /** The rows of the three entries: the same context, visit and submission, and the same pointers. */
  lemma RowsFuse(env: Env, cmd: CombinedCommand, once: CombinedPlan, first: RevisePlan, second: TransitionPlan, idsC: FreshIds,
                 idsR: FreshIds, idsT: FreshIds)
    requires once.ledger == first.ledger && once.visit == first.visit == second.visit && once.context == first.context
    requires once.transition == second.transition && once.target == second.target && once.assigneeId == second.assigneeId
    requires second.ledger == Append(first.ledger, ReviseEntry(env, ReviseHalf(cmd), first, idsR))
    requires SameRowIds(idsC, idsR, idsT)
    ensures var c, r, t := CombinedEntry(env, cmd, once, idsC), ReviseEntry(env, ReviseHalf(cmd), first, idsR),
                           TransitionEntry(env, AdvanceHalf(cmd), second, idsT);
      && c.context == r.context && r.submission.None? && r.visit.None? && t.context.None?
      && c.submission == t.submission && c.submission.Some? && c.visit == t.visit && c.visit.Some?
      && c.projection == t.projection.(workflowStateVersion := c.projection.workflowStateVersion)
  {
    hide MaxVisitNumber;
    NoNewVisit(first.ledger, ReviseEntry(env, ReviseHalf(cmd), first, idsR));
  }

  /** Both ways generate the same ids for the rows that both write. */
  predicate SameRowIds(idsC: FreshIds, idsR: FreshIds, idsT: FreshIds) {
    idsR.contextId == idsC.contextId && idsT.visitId == idsC.visitId && idsT.submissionId == idsC.submissionId
  }

  // ----- The transactions -----

  /** The request owns nothing yet, and its event and command ids are new. */
  predicate Unused(st: DbState, r: Request, ids: FreshIds) {
    Owned(st, r).None? && FindCommand(st.receipts, ids.commandId).None? && FreshEvent(st.ledgers, ids)
  }

  /** The three requests: one combined command, and its halves under two other keys. */
  predicate Prepared(st: DbState, cmd: CombinedCommand, once: Request, first: Request, second: Request, idsC: FreshIds,
                     idsR: FreshIds, idsT: FreshIds)
  {
    && once.call == Combined(cmd) && first.call == Revise(ReviseHalf(cmd)) && second.call == Transition(AdvanceHalf(cmd))
    && Unused(st, once, idsC) && Unused(st, first, idsR) && Unused(st, second, idsT)
    && first.plainKey != second.plainKey && idsR.eventId != idsT.eventId && idsR.commandId != idsT.commandId
    && SameRowIds(idsC, idsR, idsT)
  }

  /** Whether an unused request executes, and what it leaves. */
  lemma UnusedExecution(catalog: Catalog, st: DbState, r: Request, ids: FreshIds)
    requires Unused(st, r, ids)
    ensures var env := Env(catalog, st.directory);
      var done := Execute(catalog, st, r, ids);
      && (done.1.Executed? <==> Precheck(env, r.call).None? && Decide(env, st, r.call, ids).Go?
                                && WriteFits(st.ledgers, Decide(env, st, r.call, ids).value.write))
      && done.0.directory == st.directory
      && (done.1.Executed? ==>
            var plan := Decide(env, st, r.call, ids).value;
            && done.0.ledgers == ApplyWrite(st.ledgers, plan.write)
            && done.0.receipts == st.receipts + [Completed(OpenReceipt(r, ids), 200, plan.body)])
  {
    hide Decide, FindReceipt, FindCommand, Precheck, StatusCode, FailureBodyOf, WriteFits, ApplyWrite, FreshEvent;
  }

  /** The revision half as an append: whether it executes, and the ledgers it leaves. */
  lemma RevisionExecution(catalog: Catalog, st: DbState, cmd: CombinedCommand, first: Request, idsR: FreshIds)
    requires first.call == Revise(ReviseHalf(cmd)) && Unused(st, first, idsR) && Inv(catalog, st)
    requires cmd.workflowInstanceId in st.ledgers && HasRoom(st, cmd)
    requires Execute(catalog, st, first, idsR).1.Executed?
    ensures cmd.workflowInstanceId in Execute(catalog, st, first, idsR).0.ledgers
    ensures var l' := Execute(catalog, st, first, idsR).0.ledgers[cmd.workflowInstanceId];
      && HalfDone(Env(catalog, st.directory), st.ledgers, cmd, l', idsR)
      && Execute(catalog, st, first, idsR).0.ledgers == st.ledgers[cmd.workflowInstanceId := l']
      && catalog.sizeOf(cmd.contextPayload) <= MIB && IsEnabled(st.directory, cmd.principalId)
  {
    hide Inv, CheckRevise, FindCommand, FreshEvent, Coherent, Owned, Execute, Decide, RevisedEntry, EntryInsertable, Append,
         ContextInsertable;
    var env, id := Env(catalog, st.directory), cmd.workflowInstanceId;
    UnusedExecution(catalog, st, first, idsR);
    RevisionDecision(env, st, cmd, idsR);
    CoherentAt(catalog, st, id);
    RevisionHalfDone(env, st.ledgers, cmd, idsR);
  }

  lemma RevisionDecision(env: Env, st: DbState, cmd: CombinedCommand, ids: FreshIds)
    ensures Decide(env, st, Revise(ReviseHalf(cmd)), ids).Go? <==> CheckRevise(env, st.ledgers, ReviseHalf(cmd)).Go?
    ensures Decide(env, st, Revise(ReviseHalf(cmd)), ids).Go? ==>
              Decide(env, st, Revise(ReviseHalf(cmd)), ids).value.write
              == AppendEntry(cmd.workflowInstanceId, RevisedEntry(env, st.ledgers, cmd, ids))
    ensures Precheck(env, Revise(ReviseHalf(cmd))).None?
      <==> IsEnabled(env.directory, cmd.principalId) && env.catalog.sizeOf(cmd.contextPayload) <= MIB
  {
    hide CheckRevise;
  }

  lemma RevisionHalfDone(env: Env, ledgers: map<Uuid, Ledger>, cmd: CombinedCommand, ids: FreshIds)
    requires CheckRevise(env, ledgers, ReviseHalf(cmd)).Go? && cmd.workflowInstanceId in ledgers
    requires Coherent(env.catalog, ledgers[cmd.workflowInstanceId])
    requires ledgers[cmd.workflowInstanceId].instance.projection.workflowStateVersion + 2 <= I32_MAX
    requires EntryInsertable(ledgers, ledgers[cmd.workflowInstanceId], RevisedEntry(env, ledgers, cmd, ids))
    ensures HalfDone(env, ledgers, cmd, Append(ledgers[cmd.workflowInstanceId], RevisedEntry(env, ledgers, cmd, ids)), ids)
  {
    hide CheckRevise, Coherent, EventInsertable, ContextInsertable;
    var plan := CheckRevise(env, ledgers, ReviseHalf(cmd)).value;
    RevisePlanFacts(env, ledgers, ReviseHalf(cmd), plan);
    ReviseKeepsCoherence(env, ledgers, ReviseHalf(cmd), plan, ids);
    NoNewVisit(plan.ledger, RevisedEntry(env, ledgers, cmd, ids));
  }

  /** Two more versions fit a 32-bit integer. */
  predicate HasRoom(st: DbState, cmd: CombinedCommand) {
    cmd.workflowInstanceId in st.ledgers ==>
      st.ledgers[cmd.workflowInstanceId].instance.projection.workflowStateVersion + 2 <= I32_MAX
  }

  lemma SecondStaysUnused(catalog: Catalog, st: DbState, cmd: CombinedCommand, once: Request, first: Request, second: Request,
                          idsC: FreshIds, idsR: FreshIds, idsT: FreshIds)
    requires Prepared(st, cmd, once, first, second, idsC, idsR, idsT) && Inv(catalog, st) && HasRoom(st, cmd)
    requires cmd.workflowInstanceId in st.ledgers && Execute(catalog, st, first, idsR).1.Executed?
    ensures Unused(Execute(catalog, st, first, idsR).0, second, idsT)
  {
    hide Inv, CheckRevise, FindCommand, FindReceipt, FreshEvent, ContextInsertable, Coherent, EventInsertable, HasRoom,
         IsRevised, Execute, CombinedEntry, TransitionEntry;
    var st' := Execute(catalog, st, first, idsR).0;
    UnusedExecution(catalog, st, first, idsR);
    RevisionExecution(catalog, st, cmd, first, idsR);
    var receipt := st'.receipts[|st.receipts|];
    FindReceiptSnoc(st.receipts, receipt, cmd.principalId, PlainKey(second.plainKey));
    FindCommandSnoc(st.receipts, receipt, idsT.commandId);
    var env, l := Env(catalog, st.directory), st.ledgers[cmd.workflowInstanceId];
    var e := RevisedEntry(env, st.ledgers, cmd, idsR);
    AppendedEvents(l, e);
    FreshAfterEvent(st.ledgers, cmd.workflowInstanceId, Append(l, e), e.event, idsT);
  }

  /** If the combined command executes, so does its revision half. */
  lemma FirstExecutes(catalog: Catalog, st: DbState, cmd: CombinedCommand, once: Request, first: Request, second: Request,
                      idsC: FreshIds, idsR: FreshIds, idsT: FreshIds)
    requires Prepared(st, cmd, once, first, second, idsC, idsR, idsT) && Inv(catalog, st) && HasRoom(st, cmd)
    requires Execute(catalog, st, once, idsC).1.Executed?
    ensures cmd.workflowInstanceId in st.ledgers && Execute(catalog, st, first, idsR).1.Executed?
  {
    hide Inv, CheckCombined, CheckRevise, FindCommand, FindReceipt, FreshEvent, ContextInsertable, Coherent, EventInsertable,
         Execute, VisitInsertable, SubmissionInsertable, MaxVisitNumber, CheckTransition, NamesAdvance;
    var env, id := Env(catalog, st.directory), cmd.workflowInstanceId;
    UnusedExecution(catalog, st, once, idsC);
    UnusedExecution(catalog, st, first, idsR);
    var combined := CheckCombined(env, st.ledgers, cmd).value;
    CombinedPlanFacts(env, st.ledgers, cmd, combined);
    var l := st.ledgers[id];
    CoherentAt(catalog, st, id);
    var bumped := l.(instance := l.instance.(projection := l.instance.projection.(workflowStateVersion :=
                     l.instance.projection.workflowStateVersion + 1)));
    ChecksFuse(env, st.ledgers, cmd, st.ledgers[id := bumped]);
    var plan := CheckRevise(env, st.ledgers, ReviseHalf(cmd)).value;
    RevisePlanFacts(env, st.ledgers, ReviseHalf(cmd), plan);
    RevisionPrincipal(env, st.ledgers, ReviseHalf(cmd));
    var e := ReviseEntry(env, ReviseHalf(cmd), plan, idsR);
    NextEventInsertable(catalog, st.ledgers, l, e.event, idsR);
  }

  lemma RevisionPrincipal(env: Env, ledgers: map<Uuid, Ledger>, cmd: ReviseCommand)
    requires CheckRevise(env, ledgers, cmd).Go?
    ensures IsEnabled(env.directory, cmd.principalId)
  {
    hide VisitsById, ContextsById, GraphOf, ConformsTo;
  }

  /**
   The same instance, contexts, visits, submissions and pointers; the first has one version and one
   event fewer than the second, and both keep the old events.
   */
  predicate SameFacts(a: Ledger, b: Ledger, before: Ledger) {
    && a.contexts == b.contexts && a.visits == b.visits && a.submissions == b.submissions
    && b.instance == a.instance.(projection := a.instance.projection.(workflowStateVersion :=
                                                 a.instance.projection.workflowStateVersion + 1))
    && |a.events| == |before.events| + 1 && |b.events| == |before.events| + 2
    && before.events <= a.events && before.events <= b.events
  }

  /** Entries that share their rows fit together, when both events are insertable. */
  lemma SharedRowsFit(ledgers: map<Uuid, Ledger>, id: Uuid, re: Entry, ce: Entry, te: Entry)
    requires id in ledgers && re.visit.None? && re.submission.None? && te.context.None?
    requires ce.context == re.context && ce.visit == te.visit && ce.submission == te.submission && ce.context.Some?
    requires ContextInsertable(ledgers, ledgers[id].contexts, ce.context.value)
    requires var l' := Append(ledgers[id], re);
      && EventInsertable(ledgers, ledgers[id].events, ce.event)
      && EventInsertable(ledgers[id := l'], l'.events, te.event)
    requires IsPositiveI32(ce.projection.workflowStateVersion) && IsPositiveI32(te.projection.workflowStateVersion)
    ensures var l' := Append(ledgers[id], re);
      EntryInsertable(ledgers, ledgers[id], ce) <==> EntryInsertable(ledgers[id := l'], l', te)
  {
    hide ContextInsertable, EventInsertable, VisitIdUsed, SubmissionIdUsed, SourceVisitUsed;
    NoNewVisit(ledgers[id], re);
    assert Append(ledgers[id], re).submissions == ledgers[id].submissions;
    UsedAfterRevision(ledgers, id, Append(ledgers[id], re));
  }

  lemma SharedRowsLeaveSameFacts(l: Ledger, re: Entry, ce: Entry, te: Entry)
    requires re.visit.None? && re.submission.None? && te.context.None?
    requires ce.context == re.context && ce.visit == te.visit && ce.submission == te.submission
    requires te.projection == ce.projection.(workflowStateVersion := ce.projection.workflowStateVersion + 1)
    ensures SameFacts(Append(l, ce), Append(Append(l, re), te), l)
  {
    var l' := Append(l, re);
    NoNewVisit(l, re);
    assert l'.submissions == l.submissions;
    assert Append(l', te).contexts == l'.contexts;
    AppendedEvents(l, re);
    AppendedEvents(l, ce);
    AppendedEvents(l', te);
  }

  // The three entries, when the checks pass.

  function FusedEntry(env: Env, ledgers: map<Uuid, Ledger>, cmd: CombinedCommand, ids: FreshIds): Entry
    requires CheckCombined(env, ledgers, cmd).Go?
  {
    CombinedEntry(env, cmd, CheckCombined(env, ledgers, cmd).value, ids)
  }

  function RevisedEntry(env: Env, ledgers: map<Uuid, Ledger>, cmd: CombinedCommand, ids: FreshIds): Entry
    requires CheckRevise(env, ledgers, ReviseHalf(cmd)).Go?
  {
    ReviseEntry(env, ReviseHalf(cmd), CheckRevise(env, ledgers, ReviseHalf(cmd)).value, ids)
  }

  function AdvancedEntry(env: Env, ledgers: map<Uuid, Ledger>, cmd: CombinedCommand, ids: FreshIds): Entry
    requires CheckTransition(env, ledgers, AdvanceHalf(cmd)).Go?
    requires HasPointers(CheckTransition(env, ledgers, AdvanceHalf(cmd)).value.ledger)
  {
    TransitionEntry(env, AdvanceHalf(cmd), CheckTransition(env, ledgers, AdvanceHalf(cmd)).value, ids)
  }

  /** The situation after an executed revision half. */
  ghost predicate HalfDone(env: Env, ledgers: map<Uuid, Ledger>, cmd: CombinedCommand, l': Ledger, idsR: FreshIds) {
    && cmd.workflowInstanceId in ledgers
    && CheckRevise(env, ledgers, ReviseHalf(cmd)).Go?
    && var l, e := ledgers[cmd.workflowInstanceId], RevisedEntry(env, ledgers, cmd, idsR);
      && l' == Append(l, e) && IsRevised(l, l')
      && Coherent(env.catalog, l) && Coherent(env.catalog, l')
      && l'.instance.projection.workflowStateVersion < I32_MAX
      && e.context.Some? && ContextInsertable(ledgers, l.contexts, e.context.value)
  }

  /** Both events are the next ones of their ledgers. */
  lemma EventsFit(env: Env, ledgers: map<Uuid, Ledger>, cmd: CombinedCommand, l': Ledger, idsC: FreshIds, idsR: FreshIds,
                  idsT: FreshIds)
    requires HalfDone(env, ledgers, cmd, l', idsR) && CheckCombined(env, ledgers, cmd).Go?
    requires FreshEvent(ledgers, idsC) && FreshEvent(ledgers[cmd.workflowInstanceId := l'], idsT)
    requires CheckTransition(env, ledgers[cmd.workflowInstanceId := l'], AdvanceHalf(cmd)).Go?
    ensures HasPointers(CheckTransition(env, ledgers[cmd.workflowInstanceId := l'], AdvanceHalf(cmd)).value.ledger)
    ensures var ledgers' := ledgers[cmd.workflowInstanceId := l'];
      var l, ce, te := ledgers[cmd.workflowInstanceId], FusedEntry(env, ledgers, cmd, idsC), AdvancedEntry(env, ledgers', cmd, idsT);
      && EventInsertable(ledgers, l.events, ce.event) && EventInsertable(ledgers', l'.events, te.event)
      && IsPositiveI32(ce.projection.workflowStateVersion) && IsPositiveI32(te.projection.workflowStateVersion)
      && te.projection.workflowStateVersion == ce.projection.workflowStateVersion + 1
  {
    hide CheckCombined, CheckRevise, CheckTransition, FreshEvent, ContextInsertable, Coherent, EventInsertable, MaxVisitNumber,
         RevisedEntry;
    var l, ledgers' := ledgers[cmd.workflowInstanceId], ledgers[cmd.workflowInstanceId := l'];
    PlansFuse(env, ledgers, cmd, ledgers');
    NextEventInsertable(env.catalog, ledgers, l, FusedEntry(env, ledgers, cmd, idsC).event, idsC);
    NextEventInsertable(env.catalog, ledgers', l', AdvancedEntry(env, ledgers', cmd, idsT).event, idsT);
    VersionBounded(env.catalog, l);
  }

  /** After the revision, the combined entry fits exactly when the advance entry does, and leaves the same facts. */
  lemma EntriesFitTogether(env: Env, ledgers: map<Uuid, Ledger>, cmd: CombinedCommand, l': Ledger, idsC: FreshIds,
                           idsR: FreshIds, idsT: FreshIds)
    requires SameRowIds(idsC, idsR, idsT) && HalfDone(env, ledgers, cmd, l', idsR)
    requires FreshEvent(ledgers, idsC) && FreshEvent(ledgers[cmd.workflowInstanceId := l'], idsT)
    requires CheckCombined(env, ledgers, cmd).Go?
    requires CheckTransition(env, ledgers[cmd.workflowInstanceId := l'], AdvanceHalf(cmd)).Go?
    ensures HasPointers(CheckTransition(env, ledgers[cmd.workflowInstanceId := l'], AdvanceHalf(cmd)).value.ledger)
    ensures var ledgers' := ledgers[cmd.workflowInstanceId := l'];
      var l, ce, te := ledgers[cmd.workflowInstanceId], FusedEntry(env, ledgers, cmd, idsC), AdvancedEntry(env, ledgers', cmd, idsT);
      && (EntryInsertable(ledgers, l, ce) <==> EntryInsertable(ledgers', l', te))
      && SameFacts(Append(l, ce), Append(l', te), l)
  {
    hide CheckCombined, CheckRevise, CheckTransition, FreshEvent, ContextInsertable, Coherent, EntryInsertable, EventInsertable,
         Append, CombinedEntry, ReviseEntry, TransitionEntry, IsRevised, SameFacts;
    var id, ledgers' := cmd.workflowInstanceId, ledgers[cmd.workflowInstanceId := l'];
    PlansFuse(env, ledgers, cmd, ledgers');
    EventsFit(env, ledgers, cmd, l', idsC, idsR, idsT);
    RowsFuse(env, cmd, CheckCombined(env, ledgers, cmd).value, CheckRevise(env, ledgers, ReviseHalf(cmd)).value,
             CheckTransition(env, ledgers', AdvanceHalf(cmd)).value, idsC, idsR, idsT);
    var re, ce := RevisedEntry(env, ledgers, cmd, idsR), FusedEntry(env, ledgers, cmd, idsC);
    var te := AdvancedEntry(env, ledgers', cmd, idsT);
    SharedRowsFit(ledgers, id, re, ce, te);
    SharedRowsLeaveSameFacts(ledgers[id], re, ce, te);
  }

  /** The combined command against its two halves, from one state. */
  ghost predicate IsFusion(catalog: Catalog, st: DbState, cmd: CombinedCommand, once: Request, first: Request, second: Request,
                           idsC: FreshIds, idsR: FreshIds, idsT: FreshIds)
  {
    var fused := Execute(catalog, st, once, idsC);
    var revised := Execute(catalog, st, first, idsR);
    var advanced := Execute(catalog, revised.0, second, idsT);
    && (fused.1.Executed? <==>
          && revised.1.Executed? && advanced.1.Executed?
          && cmd.workflowInstanceId in st.ledgers && NamesAdvance(catalog, st.ledgers[cmd.workflowInstanceId], cmd))
    && (fused.1.Executed? ==>
          var id := cmd.workflowInstanceId;
          && id in fused.0.ledgers && id in advanced.0.ledgers
          && SameFacts(fused.0.ledgers[id], advanced.0.ledgers[id], st.ledgers[id])
          && fused.0.ledgers == st.ledgers[id := fused.0.ledgers[id]]
          && advanced.0.ledgers == st.ledgers[id := advanced.0.ledgers[id]])
  }

  lemma FusionUnderInv(catalog: Catalog, st: DbState, cmd: CombinedCommand, once: Request, first: Request, second: Request,
                       idsC: FreshIds, idsR: FreshIds, idsT: FreshIds)
    requires Inv(catalog, st) && Prepared(st, cmd, once, first, second, idsC, idsR, idsT) && HasRoom(st, cmd)
    ensures IsFusion(catalog, st, cmd, once, first, second, idsC, idsR, idsT)
  {
    hide Inv, CheckCombined, CheckRevise, CheckTransition, FindCommand, FindReceipt, FreshEvent, EntryInsertable, Execute,
         NamesAdvance, SameFacts, Owned, Decide, Precheck, FusedEntry, AdvancedEntry, Append, HasRoom,
         HalfDone, Coherent, Completed, OpenReceipt, SameRowIds, CombinedEntry, TransitionEntry, ReviseEntry, RevisedEntry;
    var env, id := Env(catalog, st.directory), cmd.workflowInstanceId;
    var fused, revised := Execute(catalog, st, once, idsC), Execute(catalog, st, first, idsR);
    UnusedExecution(catalog, st, once, idsC);
    UnusedExecution(catalog, st, first, idsR);
    if fused.1.Executed? {
      FirstExecutes(catalog, st, cmd, once, first, second, idsC, idsR, idsT);
    }
    if id in st.ledgers && revised.1.Executed? {
      RevisionExecution(catalog, st, cmd, first, idsR);
      SecondStaysUnused(catalog, st, cmd, once, first, second, idsC, idsR, idsT);
      UnusedExecution(catalog, revised.0, second, idsT);
      CombinedDecision(env, st, cmd, idsC);
      TransitionDecision(env, revised.0, cmd, idsT);
      HalfDoneChecks(env, st.ledgers, cmd, revised.0.ledgers[id], idsR);
      if CheckCombined(env, st.ledgers, cmd).Go? {
        EntriesFitTogether(env, st.ledgers, cmd, revised.0.ledgers[id], idsC, idsR, idsT);
      }
    }
  }

  lemma HalfDoneChecks(env: Env, ledgers: map<Uuid, Ledger>, cmd: CombinedCommand, l': Ledger, idsR: FreshIds)
    requires HalfDone(env, ledgers, cmd, l', idsR)
    ensures CheckCombined(env, ledgers, cmd).Go?
      <==> (&& env.catalog.sizeOf(cmd.contextPayload) <= MIB
            && CheckTransition(env, ledgers[cmd.workflowInstanceId := l'], AdvanceHalf(cmd)).Go?
            && NamesAdvance(env.catalog, ledgers[cmd.workflowInstanceId], cmd))
  {
    hide CheckCombined, CheckRevise, CheckTransition, Coherent, ContextInsertable, RevisedEntry, Append;
    ChecksFuse(env, ledgers, cmd, ledgers[cmd.workflowInstanceId := l']);
  }

  lemma CombinedDecision(env: Env, st: DbState, cmd: CombinedCommand, ids: FreshIds)
    ensures Decide(env, st, Combined(cmd), ids).Go? <==> CheckCombined(env, st.ledgers, cmd).Go?
    ensures Decide(env, st, Combined(cmd), ids).Go? ==>
              Decide(env, st, Combined(cmd), ids).value.write
              == AppendEntry(cmd.workflowInstanceId, FusedEntry(env, st.ledgers, cmd, ids))
    ensures Precheck(env, Combined(cmd)).None? <==> cmd.principalId in env.directory.principals
  {
    hide CheckCombined;
  }

  lemma TransitionDecision(env: Env, st: DbState, cmd: CombinedCommand, ids: FreshIds)
    ensures var checked := CheckTransition(env, st.ledgers, AdvanceHalf(cmd));
      && (Decide(env, st, Transition(AdvanceHalf(cmd)), ids).Go? <==> checked.Go?)
      && (checked.Go? ==>
            && HasPointers(checked.value.ledger)
            && Decide(env, st, Transition(AdvanceHalf(cmd)), ids).value.write
               == AppendEntry(cmd.workflowInstanceId, AdvancedEntry(env, st.ledgers, cmd, ids)))
    ensures Precheck(env, Transition(AdvanceHalf(cmd))).None? <==> cmd.principalId in env.directory.principals
  {
    hide CheckTransition;
    if CheckTransition(env, st.ledgers, AdvanceHalf(cmd)).Go? {
      TransitionPlanFacts(env, st.ledgers, AdvanceHalf(cmd), CheckTransition(env, st.ledgers, AdvanceHalf(cmd)).value);
    }
  }

  /**
   Fusion: in every state of every run with room for two more versions, and with new ids, the combined command executes exactly when
   its revision executes, then its transition executes, and that transition is an ADVANCE. Both ways
   leave the same facts and pointers, and change no other instance.
   */
  lemma CombinedIsReviseThenAdvance(catalog: Catalog, run: seq<DbState>, actions: seq<Action>, i: nat, cmd: CombinedCommand,
                                    once: Request, first: Request, second: Request, idsC: FreshIds, idsR: FreshIds,
                                    idsT: FreshIds)
    requires KeyedCatalog(catalog) && IsRun(catalog, run, actions) && i < |run|
    requires Prepared(run[i], cmd, once, first, second, idsC, idsR, idsT) && HasRoom(run[i], cmd)
    ensures IsFusion(catalog, run[i], cmd, once, first, second, idsC, idsR, idsT)
  {
    hide KeyedCatalog, IsRun, Inv, Prepared, HasRoom, IsFusion;
    RunKeepsInv(catalog, run, actions, i);
    FusionUnderInv(catalog, run[i], cmd, once, first, second, idsC, idsR, idsT);
  }
}
