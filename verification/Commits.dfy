/**
 Transactions whose checks pass commit: with unused ids and room in the version counter, no unique
 index, check or foreign key of the tables ever refuses what a command writes.
 */
module Commits {
  import opened Prelude
  import opened DefinitionModel
  import opened RuntimeModel
  import opened KernelState
  import opened EventReplay
  import opened Snapshot
  import opened Commands
  import opened Pipeline
  import opened Agreement
  import opened WriterAgreement
  import opened ReplayMeaning
  import opened KernelRuns
  import opened Idempotency
  import opened Concurrency
  import opened Fusion

  // ----- Counters stay below the version -----

  lemma {:induction false} OrdersAreShort(events: seq<EventFact>)
    ensures |ContextOrder(events)| <= |events| && |VisitOrder(events)| <= |events|
  {
    if events != [] {
      OrdersAreShort(events[..|events| - 1]);
    }
  }

  lemma {:induction false} CountIsShort(visits: map<Uuid, VisitFact>, ids: seq<Uuid>, node: Uuid)
    ensures CountOfNode(visits, ids, node) <= |ids|
  {
    if ids != [] {
      CountIsShort(visits, ids[..|ids| - 1], node);
    }
  }

  /** Neither the revision number nor any visit number has outrun the version. */
  lemma CountersBelowVersion(catalog: Catalog, l: Ledger, node: Uuid)
    requires Coherent(catalog, l)
    ensures |l.contexts| <= l.instance.projection.workflowStateVersion
    ensures MaxVisitNumber(l.visits, node) <= l.instance.projection.workflowStateVersion
  {
    hide FactsValid, AllVisitsJoin, Fold, IsContextChain, IsNumbered, MaxVisitNumber;
    var f, s := FactsOf(catalog, l), FoldedState(catalog, l);
    FactKeysAgree(catalog, l);
    FoldEstablishes(f, l.events);
    FoldedFacts(catalog, l);
    OrdersAreShort(l.events);
    CountIsShort(f.visits, VisitOrder(l.events), node);
    assert VisitCount(s.visitCounts, node) == CountOfNode(f.visits, VisitOrder(l.events), node);
    assert VisitCount(s.visitCounts, node) == MaxVisitNumber(l.visits, node);
    ChainLength(catalog, l, ContextOrder(l.events));
  }

  lemma ChainLength(catalog: Catalog, l: Ledger, order: seq<Uuid>)
    requires Coherent(catalog, l) && IsContextChain(FactsOf(catalog, l), order)
    requires l.instance.projection.currentContextRevisionId == LastOf(order)
    ensures |l.contexts| == |order|
  {
    hide FactsValid, AllVisitsJoin, Fold, Coupled, ContextsById, VisitsById, SubmissionsById;
    CurrentContextOf(catalog, l);
    assert order != [];
    assert ChainLink(FactsOf(catalog, l), order, |order| - 1);
  }

  lemma {:induction false} MaxIsMax(visits: seq<VisitFact>, node: Uuid)
    ensures MaxVisitNumber(visits, node) >= 0
    ensures forall v :: v in visits && v.nodeId == node ==> v.visitNumber <= MaxVisitNumber(visits, node)
  {
    if visits != [] {
      var before, last := visits[..|visits| - 1], visits[|visits| - 1];
      assert visits == before + [last];
      MaxIsMax(before, node);
    }
  }

  // ----- The current visit has no submission yet -----

  /** Every introduced submission stems from an introduced visit that is no longer current. */
  predicate SourcesLeft(f: Facts, s: ReplayState) {
    forall id :: id in s.introducedSubmissions && id in f.submissions ==>
      f.submissions[id].sourceNodeVisitId in s.introducedVisits && Some(f.submissions[id].sourceNodeVisitId) != s.currentVisit
  }

  lemma {:induction false} FoldLeavesSources(f: Facts, events: seq<EventFact>)
    requires KeysAgree(f) && Fold(f, events).Some?
    ensures SourcesLeft(f, Fold(f, events).value)
  {
    if events != [] {
      hide Apply, KeysAgree, SourcesLeft, StepMeaning, Established;
      var before, e := events[..|events| - 1], events[|events| - 1];
      FoldLeavesSources(f, before);
      FoldEstablishes(f, before);
      var s := Fold(f, before).value;
      ApplyMeaning(f, s, e, |events|);
      StepLeavesSources(f, before, s, e, |events|, Fold(f, events).value);
    }
  }

  lemma StepLeavesSources(f: Facts, before: seq<EventFact>, s: ReplayState, e: EventFact, expected: int, s': ReplayState)
    requires Established(f, before, s) && SourcesLeft(f, s) && StepMeaning(f, s, e, expected, s')
    ensures SourcesLeft(f, s')
  {
    hide ContextStep, IsContextChain, IsNumbered, Walks;
    assert s.currentVisit.Some? ==> s.currentVisit.value in s.introducedVisits by {
      var order := VisitOrder(before);
      assert s.currentVisit.Some? ==> order[|order| - 1] in order;
    }
  }

  /** No two instances share a visit id. */
  ghost predicate VisitsApart(ledgers: map<Uuid, Ledger>) {
    forall k, k' :: k in ledgers && k' in ledgers && k != k' ==> Apart(ledgers[k].visits, ledgers[k'].visits)
  }

  predicate Apart(a: seq<VisitFact>, b: seq<VisitFact>) {
    forall v, v' :: v in a && v' in b ==> v.nodeVisitId != v'.nodeVisitId
  }

  lemma CurrentVisitUnused(catalog: Catalog, st: DbState, id: Uuid, visit: VisitFact)
    requires Inv(catalog, st) && VisitsApart(st.ledgers) && id in st.ledgers && CurrentVisit(st.ledgers[id]) == Some(visit)
    ensures !SourceVisitUsed(st.ledgers, visit.nodeVisitId)
  {
    hide Inv, Coherent, VisitsApart, LinkageHolds, CurrentVisit;
    forall k, s | k in st.ledgers && s in st.ledgers[k].submissions
      ensures s.sourceNodeVisitId != visit.nodeVisitId
    {
      CoherentAt(catalog, st, k);
      SourceIsLeft(catalog, st.ledgers[k], s);
      var source :| source in st.ledgers[k].visits && source.nodeVisitId == s.sourceNodeVisitId;
      CurrentVisitIsStored(st.ledgers[id], visit);
      if s.sourceNodeVisitId == visit.nodeVisitId {
        SameInstance(st, k, id, source, visit);
        assert false;
      }
    }
  }

  lemma SameInstance(st: DbState, k: Uuid, k': Uuid, v: VisitFact, v': VisitFact)
    requires VisitsApart(st.ledgers) && k in st.ledgers && k' in st.ledgers
    requires v in st.ledgers[k].visits && v' in st.ledgers[k'].visits && v.nodeVisitId == v'.nodeVisitId
    ensures k == k'
  {
  }

  lemma CurrentVisitIsStored(l: Ledger, visit: VisitFact)
    requires CurrentVisit(l) == Some(visit)
    ensures visit in l.visits && l.instance.projection.currentNodeVisitId == Some(visit.nodeVisitId)
  {
    hide VisitsById;
  }

  lemma SourceIsLeft(catalog: Catalog, l: Ledger, s: SubmissionFact)
    requires Coherent(catalog, l) && UniqueIds(l) && s in l.submissions
    ensures Some(s.sourceNodeVisitId) != l.instance.projection.currentNodeVisitId
    ensures exists v :: v in l.visits && v.nodeVisitId == s.sourceNodeVisitId
  {
    hide FactsValid, AllVisitsJoin, Fold, ContextsById, VisitsById, SubmissionsById, UniqueIds;
    var f := FactsOf(catalog, l);
    FactKeysAgree(catalog, l);
    FoldLeavesSources(f, l.events);
    FoldedFacts(catalog, l);
    SourceIsStored(catalog, l, s);
    SubmissionIsItsLookup(l, s);
  }

  lemma SubmissionIsItsLookup(l: Ledger, s: SubmissionFact)
    requires UniqueIds(l) && s in l.submissions
    ensures s.submissionId in SubmissionsById(l.submissions) && SubmissionsById(l.submissions)[s.submissionId] == s
  {
    hide SubmissionsById;
    var found := SubmissionsById(l.submissions)[s.submissionId];
    var i :| 0 <= i < |l.submissions| && l.submissions[i] == s;
    var j :| 0 <= j < |l.submissions| && l.submissions[j] == found;
  }

  lemma SourceIsStored(catalog: Catalog, l: Ledger, s: SubmissionFact)
    requires Coherent(catalog, l) && s in l.submissions
    ensures s.sourceNodeVisitId in VisitsById(l.visits)
  {
    hide AllVisitsJoin, Fold, Coupled, ContextsValid, VisitsValid, ContextsById, VisitsById, SubmissionsById;
    var f := FactsOf(catalog, l);
    assert SubmissionValid(f.instance, f.contexts, f.visits, s, f.transitions);
  }

  // ----- Rows fit -----

  /** The ids that the transaction generates are used nowhere. */
  predicate RowIdsUnused(ledgers: map<Uuid, Ledger>, ids: FreshIds) {
    && !ContextIdUsed(ledgers, ids.contextId) && !VisitIdUsed(ledgers, ids.visitId)
    && !SubmissionIdUsed(ledgers, ids.submissionId) && ids.instanceId !in ledgers
  }

  /** The version of the instance that the command appends to can still rise. */
  predicate HasNextVersion(st: DbState, call: Call) {
    var e := ExpectationOf(call);
    e.Some? && e.value.instanceId in st.ledgers ==> VersionOf(st, e.value.instanceId) < I32_MAX
  }

  lemma NextContextFits(catalog: Catalog, ledgers: map<Uuid, Ledger>, l: Ledger, c: ContextFact)
    requires Coherent(catalog, l) && l.instance.projection.workflowStateVersion < I32_MAX
    requires !ContextIdUsed(ledgers, c.contextRevisionId) && CurrentContext(l).Some?
    requires c.revisionNumber == Inc32(CurrentContext(l).value.revisionNumber)
    ensures ContextInsertable(ledgers, l.contexts, c)
  {
    hide Fold, Coupled, AllVisitsJoin, ContextIdUsed, ContextsById, VisitsById, VisitsValid, SubmissionsValid;
    CurrentContextOf(catalog, l);
    CountersBelowVersion(catalog, l, 0);
    forall x | x in l.contexts
      ensures x.revisionNumber <= |l.contexts|
    {
      var i :| 0 <= i < |l.contexts| && l.contexts[i] == x;
      assert ContextValid(l.instance, l.contexts, i);
    }
  }

  lemma NextVisitFits(catalog: Catalog, ledgers: map<Uuid, Ledger>, l: Ledger, v: VisitFact)
    requires Coherent(catalog, l) && l.instance.projection.workflowStateVersion < I32_MAX
    requires !VisitIdUsed(ledgers, v.nodeVisitId) && (v.nodeType.TERMINAL? <==> v.assigneePrincipalId.None?)
    requires v.visitNumber == MaxVisitNumber(l.visits, v.nodeId) + 1
    ensures VisitInsertable(ledgers, l.visits, v)
  {
    hide Coherent, VisitIdUsed, MaxVisitNumber;
    CountersBelowVersion(catalog, l, v.nodeId);
    MaxIsMax(l.visits, v.nodeId);
  }

  // ----- Each command's write fits -----

  lemma RevisionFitsTables(env: Env, st: DbState, cmd: ReviseCommand, ids: FreshIds)
    requires Inv(env.catalog, st) && CheckRevise(env, st.ledgers, cmd).Go? && HasNextVersion(st, Revise(cmd))
    requires RowIdsUnused(st.ledgers, ids) && FreshEvent(st.ledgers, ids)
    ensures cmd.workflowInstanceId in st.ledgers
    ensures EntryInsertable(st.ledgers, st.ledgers[cmd.workflowInstanceId],
                            ReviseEntry(env, cmd, CheckRevise(env, st.ledgers, cmd).value, ids))
  {
    hide Inv, CheckRevise, Coherent, ContextInsertable, EventInsertable, FreshEvent, CurrentContext, CurrentVisit, LinkageHolds;
    var plan := CheckRevise(env, st.ledgers, cmd).value;
    RevisePlanFacts(env, st.ledgers, cmd, plan);
    CoherentAt(env.catalog, st, cmd.workflowInstanceId);
    var e := ReviseEntry(env, cmd, plan, ids);
    NextContextFits(env.catalog, st.ledgers, plan.ledger, e.context.value);
    NextEventInsertable(env.catalog, st.ledgers, plan.ledger, e.event, ids);
  }

  lemma TransitionFitsTables(env: Env, st: DbState, cmd: TransitionCommand, ids: FreshIds)
    requires Inv(env.catalog, st) && VisitsApart(st.ledgers) && CheckTransition(env, st.ledgers, cmd).Go?
    requires HasNextVersion(st, Transition(cmd)) && RowIdsUnused(st.ledgers, ids) && FreshEvent(st.ledgers, ids)
    ensures cmd.workflowInstanceId in st.ledgers && HasPointers(CheckTransition(env, st.ledgers, cmd).value.ledger)
    ensures EntryInsertable(st.ledgers, st.ledgers[cmd.workflowInstanceId],
                            TransitionEntry(env, cmd, CheckTransition(env, st.ledgers, cmd).value, ids))
  {
    hide Inv, CheckTransition, Coherent, VisitInsertable, EventInsertable, FreshEvent, CurrentVisit, VisitsApart, MaxVisitNumber,
         NodeOf, TransitionOf, SourceVisitUsed, LinkageHolds;
    var plan := CheckTransition(env, st.ledgers, cmd).value;
    TransitionPlanFacts(env, st.ledgers, cmd, plan);
    CoherentAt(env.catalog, st, cmd.workflowInstanceId);
    CurrentVisitUnused(env.catalog, st, cmd.workflowInstanceId, plan.visit);
    var e := TransitionEntry(env, cmd, plan, ids);
    NextVisitFits(env.catalog, st.ledgers, plan.ledger, e.visit.value);
    NextEventInsertable(env.catalog, st.ledgers, plan.ledger, e.event, ids);
  }

  lemma CombinedFitsTables(env: Env, st: DbState, cmd: CombinedCommand, ids: FreshIds)
    requires Inv(env.catalog, st) && VisitsApart(st.ledgers) && CheckCombined(env, st.ledgers, cmd).Go?
    requires HasNextVersion(st, Combined(cmd)) && RowIdsUnused(st.ledgers, ids) && FreshEvent(st.ledgers, ids)
    ensures cmd.workflowInstanceId in st.ledgers
    ensures EntryInsertable(st.ledgers, st.ledgers[cmd.workflowInstanceId],
                            CombinedEntry(env, cmd, CheckCombined(env, st.ledgers, cmd).value, ids))
  {
    hide Inv, CheckCombined, Coherent, ContextInsertable, VisitInsertable, EventInsertable, FreshEvent, CurrentVisit,
         CurrentContext, VisitsApart, MaxVisitNumber, NodeOf, TransitionOf, SourceVisitUsed, LinkageHolds;
    var plan := CheckCombined(env, st.ledgers, cmd).value;
    CombinedPlanFacts(env, st.ledgers, cmd, plan);
    CoherentAt(env.catalog, st, cmd.workflowInstanceId);
    CurrentVisitUnused(env.catalog, st, cmd.workflowInstanceId, plan.visit);
    var e := CombinedEntry(env, cmd, plan, ids);
    NextContextFits(env.catalog, st.ledgers, plan.ledger, e.context.value);
    NextVisitFits(env.catalog, st.ledgers, plan.ledger, e.visit.value);
    NextEventInsertable(env.catalog, st.ledgers, plan.ledger, e.event, ids);
  }

  lemma OverrideFitsTables(env: Env, st: DbState, cmd: OverrideCommand, ids: FreshIds)
    requires Inv(env.catalog, st) && CheckOverride(env, st, cmd).Go?
    requires RowIdsUnused(st.ledgers, ids) && FreshEvent(st.ledgers, ids)
    ensures cmd.workflowInstanceId in st.ledgers
    ensures EntryInsertable(st.ledgers, st.ledgers[cmd.workflowInstanceId],
                            OverrideEntry(env, cmd, CheckOverride(env, st, cmd).value, ids))
  {
    hide Inv, CheckOverride, Coherent, VisitInsertable, EventInsertable, FreshEvent, CurrentVisit, MaxVisitNumber, NodeOf,
         Reconstruct, SnapshotDigest, LinkageHolds;
    var plan := CheckOverride(env, st, cmd).value;
    OverridePlanFacts(env, st, cmd, plan);
    CoherentAt(env.catalog, st, cmd.workflowInstanceId);
    var e := OverrideEntry(env, cmd, plan, ids);
    NextVisitFits(env.catalog, st.ledgers, plan.ledger, e.visit.value);
    NextEventInsertable(env.catalog, st.ledgers, plan.ledger, e.event, ids);
  }

  lemma CreationFitsTables(env: Env, ledgers: map<Uuid, Ledger>, cmd: CreateCommand, ids: FreshIds)
    requires CheckCreate(env, cmd).Go? && RowIdsUnused(ledgers, ids) && FreshEvent(ledgers, ids)
    ensures LedgerInsertable(ledgers, CreatedLedger(env, cmd, CheckCreate(env, cmd).value, ids))
  {
    hide CheckCreate;
    CreatePlanFacts(env, cmd, CheckCreate(env, cmd).value);
  }

  lemma ImportFitsTables(env: Env, ledgers: map<Uuid, Ledger>, cmd: ImportCommand, ids: FreshIds)
    requires CheckImport(env, ledgers, cmd).Go? && RowIdsUnused(ledgers, ids) && FreshEvent(ledgers, ids)
    ensures LedgerInsertable(ledgers, ImportedLedger(env, cmd, CheckImport(env, ledgers, cmd).value, ids))
  {
    hide CheckImport;
    ImportPlanFacts(env, ledgers, cmd, CheckImport(env, ledgers, cmd).value);
  }

  lemma DecidedWriteFits(env: Env, st: DbState, call: Call, ids: FreshIds)
    requires Inv(env.catalog, st) && VisitsApart(st.ledgers) && Decide(env, st, call, ids).Go?
    requires HasNextVersion(st, call) && RowIdsUnused(st.ledgers, ids) && FreshEvent(st.ledgers, ids)
    ensures WriteFits(st.ledgers, Decide(env, st, call, ids).value.write)
  {
    hide Inv, VisitsApart, HasNextVersion, RowIdsUnused, FreshEvent, CheckCreate, CheckImport, CheckRevise, CheckTransition,
         CheckCombined, CheckOverride, CheckRebuild, EntryInsertable, LedgerInsertable, CreatedLedger, ImportedLedger,
         ReviseEntry, TransitionEntry, CombinedEntry, OverrideEntry;
    match call
    case Create(c) => CreationFitsTables(env, st.ledgers, c, ids);
    case Import(c) => ImportFitsTables(env, st.ledgers, c, ids);
    case Revise(c) => RevisionFitsTables(env, st, c, ids);
    case Transition(c) => TransitionFitsTables(env, st, c, ids);
    case Combined(c) => CombinedFitsTables(env, st, c, ids);
    case Override(c) => OverrideFitsTables(env, st, c, ids);
    case Rebuild(c) => RebuildChangesNothing(env, st, c, ids, Decide(env, st, call, ids).value);
  }

  // ----- Visit ids stay apart -----

  lemma WriteKeepsApart(ledgers: map<Uuid, Ledger>, w: Write)
    requires VisitsApart(ledgers) && WriteFits(ledgers, w)
    ensures VisitsApart(ApplyWrite(ledgers, w))
  {
    hide ContextInsertable, EventInsertable, SubmissionInsertable;
    var after := ApplyWrite(ledgers, w);
    forall k, k' | k in after && k' in after && k != k'
      ensures Apart(after[k].visits, after[k'].visits)
    {
      forall v, v' | v in after[k].visits && v' in after[k'].visits
        ensures v.nodeVisitId != v'.nodeVisitId
      {
        VisitIsOldOrNew(ledgers, w, k, v);
        VisitIsOldOrNew(ledgers, w, k', v');
        assert k in ledgers && k' in ledgers ==> Apart(ledgers[k].visits, ledgers[k'].visits);
      }
    }
  }

  /** A visit after a write was there before, or its id was unused and it is in the one written instance. */
  lemma VisitIsOldOrNew(ledgers: map<Uuid, Ledger>, w: Write, k: Uuid, v: VisitFact)
    requires WriteFits(ledgers, w) && k in ApplyWrite(ledgers, w) && v in ApplyWrite(ledgers, w)[k].visits
    ensures || (k in ledgers && v in ledgers[k].visits)
            || (!VisitIdUsed(ledgers, v.nodeVisitId)
                && ((w.CreateLedger? && k == w.ledger.instance.workflowInstanceId) || (w.AppendEntry? && k == w.instanceId)))
  {
    hide ContextInsertable, EventInsertable, SubmissionInsertable;
  }

  lemma ActionKeepsApart(catalog: Catalog, st: DbState, a: Action)
    requires VisitsApart(st.ledgers)
    ensures VisitsApart(Next(catalog, st, a).ledgers)
  {
    hide VisitsApart, Decide, WriteFits, ApplyWrite, Answer, FindReceipt, FindCommand, Precheck, StatusCode, FailureBodyOf;
    if a.Command? {
      var decision := Decide(Env(catalog, st.directory), st, a.request.call, a.ids);
      if decision.Go? && WriteFits(st.ledgers, decision.value.write) {
        WriteKeepsApart(st.ledgers, decision.value.write);
      }
    }
  }

  lemma {:induction false} RunKeepsApart(catalog: Catalog, run: seq<DbState>, actions: seq<Action>, i: nat)
    requires IsRun(catalog, run, actions) && i < |run|
    ensures VisitsApart(run[i].ledgers)
  {
    hide Next;
    if i > 0 {
      hide VisitsApart;
      RunKeepsApart(catalog, run, actions, i - 1);
      ActionKeepsApart(catalog, run[i - 1], actions[i - 1]);
    }
  }

  /**
   No spurious rollback: in every state of every run, a request with an unused key, unused ids and room in
   the version counter executes exactly when its checks pass.
   */
  lemma PassedChecksCommit(catalog: Catalog, run: seq<DbState>, actions: seq<Action>, i: nat, r: Request, ids: FreshIds)
    requires KeyedCatalog(catalog) && IsRun(catalog, run, actions) && i < |run|
    requires Unused(run[i], r, ids) && RowIdsUnused(run[i].ledgers, ids) && HasNextVersion(run[i], r.call)
    ensures var env := Env(catalog, run[i].directory);
      Execute(catalog, run[i], r, ids).1.Executed?
      <==> Precheck(env, r.call).None? && Decide(env, run[i], r.call, ids).Go?
  {
    hide KeyedCatalog, IsRun, Inv, VisitsApart, Execute, Decide, Precheck, FindCommand, FreshEvent, RowIdsUnused, HasNextVersion,
         Owned, WriteFits;
    var env := Env(catalog, run[i].directory);
    RunKeepsInv(catalog, run, actions, i);
    RunKeepsApart(catalog, run, actions, i);
    UnusedExecution(catalog, run[i], r, ids);
    if Decide(env, run[i], r.call, ids).Go? {
      DecidedWriteFits(env, run[i], r.call, ids);
    }
  }
}
