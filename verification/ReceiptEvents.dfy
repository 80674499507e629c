/** Receipts and events correspond one to one, by command id, in every state of every run. */
module ReceiptEvents {
  import opened Prelude
  import opened RuntimeModel
  import opened KernelState
  import opened Snapshot
  import opened Commands
  import opened Pipeline
  import opened Agreement
  import opened WriterAgreement
  import opened KernelRuns
  import opened Idempotency

  /** A successful receipt of a command that writes facts. */
  predicate IsFactReceipt(r: Receipt) {
    r.responseStatus == Some(200) && !r.commandType.REBUILD_PROJECTION?
  }

  /** The stored response names the event: its instance, version, resulting visit and, where it has one, context. */
  predicate BodyNames(body: ResponseBody, instanceId: Uuid, e: EventFact) {
    match body
    case CreateBody(id, version, contextId, visitId, sequence) =>
      id == instanceId && NamesEvent(e, version, visitId, sequence) && e.contextRevisionId == Some(contextId)
    case ReviseBody(id, version, contextId, visitId, sequence) =>
      id == instanceId && NamesEvent(e, version, visitId, sequence) && e.contextRevisionId == Some(contextId)
    case TransitionBody(id, version, contextId, sourceId, visitId, submissionId, sequence) =>
      && id == instanceId && NamesEvent(e, version, visitId, sequence) && e.contextRevisionId == Some(contextId)
      && e.sourceNodeVisitId == Some(sourceId) && e.submissionId == submissionId
    case OverrideBody(commandId, id, sourceId, visitId, version, sequence, _) =>
      && id == instanceId && NamesEvent(e, version, visitId, sequence)
      && e.sourceNodeVisitId == Some(sourceId) && e.commandId == Some(commandId)
    case ImportBody(commandId, id, contextId, visitId, eventId, version, sequence, _, _) =>
      && id == instanceId && NamesEvent(e, version, visitId, sequence) && e.contextRevisionId == Some(contextId)
      && e.eventId == eventId && e.commandId == Some(commandId)
    case RebuildBody(_, _, _, _, _, _) => false
    case FailureBody(_, _, _, _) => false
    case DigestFailureBody(_, _, _) => false
  }

  predicate NamesEvent(e: EventFact, version: int, visitId: Uuid, sequence: int) {
    e.newWorkflowStateVersion == version && e.eventSequence == sequence && e.targetNodeVisitId == Some(visitId)
  }

  /** The receipt and the event belong to the same command. */
  predicate Matches(r: Receipt, instanceId: Uuid, e: EventFact) {
    && e.commandId == Some(r.commandId)
    && IsFactReceipt(r)
    && r.responseBody.Some? && BodyNames(r.responseBody.value, instanceId, e)
  }

  ghost predicate ReceiptHasEvent(st: DbState, r: Receipt) {
    exists id, i :: EventAt(st, id, i) && Matches(r, id, st.ledgers[id].events[i])
  }

  ghost predicate EventAt(st: DbState, id: Uuid, i: int) {
    id in st.ledgers && 0 <= i < |st.ledgers[id].events|
  }

  ghost predicate EventHasReceipt(st: DbState, id: Uuid, i: int)
    requires EventAt(st, id, i)
  {
    exists r :: r in st.receipts && Matches(r, id, st.ledgers[id].events[i])
  }

  predicate IsCompleted(r: Receipt) {
    r.status.COMPLETED? && r.responseStatus.Some? && r.responseBody.Some?
  }

  /** Every receipt is complete, and successful fact receipts and events are in bijection by command id. */
  ghost predicate Corresponds(st: DbState) {
    && (forall r :: r in st.receipts ==> IsCompleted(r))
    && (forall i, j :: 0 <= i < j < |st.receipts| ==> st.receipts[i].commandId != st.receipts[j].commandId)
    && (forall r :: r in st.receipts && IsFactReceipt(r) ==> ReceiptHasEvent(st, r))
    && (forall id, i :: EventAt(st, id, i) ==> EventHasReceipt(st, id, i))
    && CommandsDistinct(st)
  }

  /** No two events stem from the same command. */
  ghost predicate CommandsDistinct(st: DbState) {
    forall id, i, id', i' ::
      EventAt(st, id, i) && EventAt(st, id', i') && SameCommand(st, id, i, id', i') ==> id == id' && i == i'
  }

  ghost predicate SameCommand(st: DbState, id: Uuid, i: int, id': Uuid, i': int)
    requires EventAt(st, id, i) && EventAt(st, id', i')
  {
    st.ledgers[id].events[i].commandId == st.ledgers[id'].events[i'].commandId
  }

  // ----- What a decision's write and body say -----

  /** The event that a write adds, with its instance. */
  function NewEvent(w: Write): Option<(Uuid, EventFact)> {
    match w
    case CreateLedger(l) => if |l.events| == 1 then Some((l.instance.workflowInstanceId, l.events[0])) else None
    case AppendEntry(id, e) => Some((id, e.event))
    case _ => None
  }

  /** The completed receipt matches the event of the write, or the write has no event and needs no receipt. */
  predicate PlanMatches(r: Request, ids: FreshIds, plan: Plan) {
    var receipt := Completed(OpenReceipt(r, ids), 200, plan.body);
    && (IsFactReceipt(receipt) <==> NewEvent(plan.write).Some?)
    && (NewEvent(plan.write).Some? ==>
          var (id, e) := NewEvent(plan.write).value;
          Matches(receipt, id, e) && e.commandId == Some(ids.commandId))
  }

  lemma DecisionsMatch(env: Env, st: DbState, r: Request, ids: FreshIds, plan: Plan)
    requires Decide(env, st, r.call, ids) == Go(plan)
    requires r.call.Rebuild? ==> plan.write.NoWrite?
    ensures PlanMatches(r, ids, plan)
  {
    hide DecideCreate, DecideImport, DecideRevise, DecideTransition, DecideCombined, DecideOverride, DecideRebuild, PlanMatches;
    match r.call
    case Create(c) => CreationMatches(env, r, ids, plan);
    case Import(c) => ImportMatches(env, st.ledgers, r, ids, plan);
    case Revise(c) => RevisionMatches(env, st.ledgers, r, ids, plan);
    case Transition(c) => TransitionMatches(env, st.ledgers, r, ids, plan);
    case Combined(c) => CombinedMatches(env, st.ledgers, r, ids, plan);
    case Override(c) => OverrideMatches(env, st, r, ids, plan);
    case Rebuild(c) => RebuildMatches(env, st, r, ids, plan);
  }

  lemma CreationMatches(env: Env, r: Request, ids: FreshIds, plan: Plan)
    requires r.call.Create? && DecideCreate(env, r.call.create, ids) == Go(plan)
    ensures PlanMatches(r, ids, plan)
  {
    hide CheckCreate;
  }

  lemma ImportMatches(env: Env, ledgers: map<Uuid, Ledger>, r: Request, ids: FreshIds, plan: Plan)
    requires r.call.Import? && DecideImport(env, ledgers, r.call.legacy, ids) == Go(plan)
    ensures PlanMatches(r, ids, plan)
  {
    hide CheckImport;
  }

  lemma RevisionMatches(env: Env, ledgers: map<Uuid, Ledger>, r: Request, ids: FreshIds, plan: Plan)
    requires r.call.Revise? && DecideRevise(env, ledgers, r.call.revise, ids) == Go(plan)
    ensures PlanMatches(r, ids, plan)
  {
    hide CheckRevise, CurrentVisit, CurrentContext;
    var checked := CheckRevise(env, ledgers, r.call.revise).value;
    RevisePlanFacts(env, ledgers, r.call.revise, checked);
    CurrentVisitId(checked.ledger);
  }

  lemma TransitionMatches(env: Env, ledgers: map<Uuid, Ledger>, r: Request, ids: FreshIds, plan: Plan)
    requires r.call.Transition? && DecideTransition(env, ledgers, r.call.transition, ids) == Go(plan)
    ensures PlanMatches(r, ids, plan)
  {
    hide CheckTransition, MaxVisitNumber;
  }

  lemma CombinedMatches(env: Env, ledgers: map<Uuid, Ledger>, r: Request, ids: FreshIds, plan: Plan)
    requires r.call.Combined? && DecideCombined(env, ledgers, r.call.combined, ids) == Go(plan)
    ensures PlanMatches(r, ids, plan)
  {
    hide CheckCombined, MaxVisitNumber;
  }

  lemma OverrideMatches(env: Env, st: DbState, r: Request, ids: FreshIds, plan: Plan)
    requires r.call.Override? && DecideOverride(env, st, r.call.override, ids) == Go(plan)
    ensures PlanMatches(r, ids, plan)
  {
    hide CheckOverride, MaxVisitNumber, CurrentVisit, Reconstruct, NodeOf, GraphOf, SnapshotDigest;
    var checked := CheckOverride(env, st, r.call.override).value;
    OverridePlanFacts(env, st, r.call.override, checked);
    CurrentVisitId(checked.ledger);
  }

  lemma RebuildMatches(env: Env, st: DbState, r: Request, ids: FreshIds, plan: Plan)
    requires r.call.Rebuild? && DecideRebuild(env, st, r.call.rebuild, ids) == Go(plan) && plan.write.NoWrite?
    ensures PlanMatches(r, ids, plan)
  {
    hide CheckRebuild;
  }

  lemma CurrentVisitId(l: Ledger)
    requires CurrentVisit(l).Some?
    ensures l.instance.projection.currentNodeVisitId == Some(CurrentVisit(l).value.nodeVisitId)
  {
    hide VisitsById;
  }

  // ----- Preservation -----

  lemma NewCommandIdIsDistinct(receipts: seq<Receipt>, r: Receipt)
    requires FindCommand(receipts, r.commandId).None?
    requires forall i, j :: 0 <= i < j < |receipts| ==> receipts[i].commandId != receipts[j].commandId
    ensures var longer := receipts + [r];
      forall i, j :: 0 <= i < j < |longer| ==> longer[i].commandId != longer[j].commandId
  {
    hide FindCommand;
    assert forall i :: 0 <= i < |receipts| ==> receipts[i] in receipts;
  }

  /** A receipt without an event is added: a failure, or a rebuild. */
  lemma PlainReceiptCorresponds(st: DbState, r: Receipt)
    requires Corresponds(st) && FindCommand(st.receipts, r.commandId).None? && IsCompleted(r) && !IsFactReceipt(r)
    ensures Corresponds(st.(receipts := st.receipts + [r]))
  {
    hide FindCommand, Matches, IsFactReceipt;
    var after := st.(receipts := st.receipts + [r]);
    NewCommandIdIsDistinct(st.receipts, r);
    forall x | x in after.receipts && IsFactReceipt(x)
      ensures ReceiptHasEvent(after, x)
    {
      assert ReceiptHasEvent(st, x);
      var id, i :| EventAt(st, id, i) && Matches(x, id, st.ledgers[id].events[i]);
      assert EventAt(after, id, i);
    }
    forall id, i | EventAt(after, id, i)
      ensures EventHasReceipt(after, id, i)
    {
      assert EventAt(st, id, i);
      assert EventHasReceipt(st, id, i);
      var x :| x in st.receipts && Matches(x, id, st.ledgers[id].events[i]);
      assert x in after.receipts;
    }
    assert forall id, i :: EventAt(after, id, i) ==> EventAt(st, id, i);
  }

  /** The ledgers after a write that adds one event: the same events, and the new one last. */
  ghost predicate AddsEvent(st: DbState, id: Uuid, e: EventFact, ledgers: map<Uuid, Ledger>) {
    && id in ledgers
    && ledgers == st.ledgers[id := ledgers[id]]
    && ledgers[id].events == (if id in st.ledgers then st.ledgers[id].events else []) + [e]
  }

  lemma WriteAddsEvent(st: DbState, w: Write)
    requires WriteFits(st.ledgers, w) && NewEvent(w).Some?
    ensures AddsEvent(st, NewEvent(w).value.0, NewEvent(w).value.1, ApplyWrite(st.ledgers, w))
    ensures NewEvent(w).value.1.commandId.Some? ==> !CommandIdUsed(st.ledgers, NewEvent(w).value.1.commandId.value)
  {
    match w
    case CreateLedger(l) => assert l.events == [] + [l.events[0]];
    case AppendEntry(id, e) => AppendedEvents(st.ledgers[id], e);
    case _ =>
  }

  lemma OldEventStays(st: DbState, id: Uuid, e: EventFact, ledgers: map<Uuid, Ledger>, k: Uuid, i: int)
    requires AddsEvent(st, id, e, ledgers) && EventAt(st, k, i)
    ensures k in ledgers && i < |ledgers[k].events| && ledgers[k].events[i] == st.ledgers[k].events[i]
  {
  }

  /** An event of the new state is an old one or the new one. */
  lemma EventIsOldOrNew(st: DbState, id: Uuid, e: EventFact, ledgers: map<Uuid, Ledger>, k: Uuid, i: int)
    requires AddsEvent(st, id, e, ledgers) && k in ledgers && 0 <= i < |ledgers[k].events|
    ensures || (EventAt(st, k, i) && ledgers[k].events[i] == st.ledgers[k].events[i])
            || (k == id && i == |ledgers[id].events| - 1 && ledgers[k].events[i] == e && !EventAt(st, k, i))
  {
  }

  lemma ReceiptsKeepEvents(st: DbState, r: Receipt, id: Uuid, e: EventFact, after: DbState)
    requires Corresponds(st) && AddsEvent(st, id, e, after.ledgers) && after.receipts == st.receipts + [r]
    requires Matches(r, id, e)
    ensures forall x :: x in after.receipts && IsFactReceipt(x) ==> ReceiptHasEvent(after, x)
    ensures forall k, i :: EventAt(after, k, i) ==> EventHasReceipt(after, k, i)
  {
    hide Matches, IsFactReceipt, AddsEvent;
    NewEventIsLast(st, id, e, after.ledgers);
    assert EventAt(after, id, |after.ledgers[id].events| - 1);
    forall x | x in after.receipts && IsFactReceipt(x)
      ensures ReceiptHasEvent(after, x)
    {
      if x in st.receipts {
        assert ReceiptHasEvent(st, x);
        var k, i :| EventAt(st, k, i) && Matches(x, k, st.ledgers[k].events[i]);
        OldEventStays(st, id, e, after.ledgers, k, i);
        assert EventAt(after, k, i);
      }
    }
    forall k, i | EventAt(after, k, i)
      ensures EventHasReceipt(after, k, i)
    {
      EventIsOldOrNew(st, id, e, after.ledgers, k, i);
      if EventAt(st, k, i) {
        assert EventHasReceipt(st, k, i);
        var x :| x in st.receipts && Matches(x, k, st.ledgers[k].events[i]);
        assert x in after.receipts;
      } else {
        assert r in after.receipts;
      }
    }
  }

  lemma NewEventIsLast(st: DbState, id: Uuid, e: EventFact, ledgers: map<Uuid, Ledger>)
    requires AddsEvent(st, id, e, ledgers)
    ensures id in ledgers && |ledgers[id].events| > 0 && ledgers[id].events[|ledgers[id].events| - 1] == e
  {
  }

  lemma EventsStayDistinct(st: DbState, id: Uuid, e: EventFact, after: DbState)
    requires Corresponds(st) && AddsEvent(st, id, e, after.ledgers)
    requires e.commandId.Some? && !CommandIdUsed(st.ledgers, e.commandId.value)
    ensures CommandsDistinct(after)
  {
    hide AddsEvent, ReceiptHasEvent, EventHasReceipt;
    forall k, i, k', i' | EventAt(after, k, i) && EventAt(after, k', i') && SameCommand(after, k, i, k', i')
      ensures k == k' && i == i'
    {
      EventIsOldOrNew(st, id, e, after.ledgers, k, i);
      EventIsOldOrNew(st, id, e, after.ledgers, k', i');
      OldCommandIdIsUsed(st, k, i);
      OldCommandIdIsUsed(st, k', i');
    }
  }

  lemma OldCommandIdIsUsed(st: DbState, k: Uuid, i: int)
    ensures EventAt(st, k, i) && st.ledgers[k].events[i].commandId.Some? ==>
              CommandIdUsed(st.ledgers, st.ledgers[k].events[i].commandId.value)
  {
    if EventAt(st, k, i) {
      assert st.ledgers[k].events[i] in st.ledgers[k].events;
    }
  }

  lemma FactReceiptCorresponds(st: DbState, r: Receipt, id: Uuid, e: EventFact, after: DbState)
    requires Corresponds(st) && AddsEvent(st, id, e, after.ledgers) && after.receipts == st.receipts + [r]
    requires FindCommand(st.receipts, r.commandId).None? && IsCompleted(r) && Matches(r, id, e)
    requires e.commandId.Some? && !CommandIdUsed(st.ledgers, e.commandId.value)
    ensures Corresponds(after)
  {
    hide AddsEvent, FindCommand, Matches, IsFactReceipt, CommandIdUsed, EventAt, ReceiptHasEvent, EventHasReceipt;
    NewCommandIdIsDistinct(st.receipts, r);
    ReceiptsKeepEvents(st, r, id, e, after);
    EventsStayDistinct(st, id, e, after);
  }

  lemma ExecutionCorresponds(catalog: Catalog, st: DbState, r: Request, ids: FreshIds)
    requires Inv(catalog, st) && Corresponds(st)
    ensures Corresponds(Execute(catalog, st, r, ids).0)
  {
    hide Inv, Corresponds, Decide, FindReceipt, FindCommand, Precheck, Answer, StatusCode, FailureBodyOf, WriteFits,
         ApplyWrite, Matches, CommandIdUsed;
    var env := Env(catalog, st.directory);
    if Precheck(env, r.call).None? && Owned(st, r).None? && FindCommand(st.receipts, ids.commandId).None? {
      match Decide(env, st, r.call, ids) {
        case Abort(_) =>
        case Refuse(e) =>
          FailuresAreNot200(e);
          PlainReceiptCorresponds(st, Completed(OpenReceipt(r, ids), StatusCode(e), FailureBodyOf(r.call, e)));
        case Go(plan) =>
          var receipt := Completed(OpenReceipt(r, ids), 200, plan.body);
          if r.call.Rebuild? {
            RebuildWritesNothing(env, st, r.call.rebuild, ids, plan);
          }
          if WriteFits(st.ledgers, plan.write) {
            DecisionsMatch(env, st, r, ids, plan);
            if NewEvent(plan.write).Some? {
              WriteAddsEvent(st, plan.write);
              FactReceiptCorresponds(st, receipt, NewEvent(plan.write).value.0, NewEvent(plan.write).value.1,
                                     Execute(catalog, st, r, ids).0);
            } else {
              PlainReceiptCorresponds(st, receipt);
              WithoutEventNothing(st, env, r, ids, plan);
            }
          }
      }
    }
  }

  lemma RebuildWritesNothing(env: Env, st: DbState, cmd: RebuildCommand, ids: FreshIds, plan: Plan)
    requires Inv(env.catalog, st) && Decide(env, st, Rebuild(cmd), ids) == Go(plan)
    ensures plan.write.NoWrite?
  {
    hide Inv, DecideCreate, DecideImport, DecideRevise, DecideTransition, DecideCombined, DecideOverride, DecideRebuild;
    RebuildChangesNothing(env, st, cmd, ids, plan);
  }

  /** A decision without an event writes no ledger. */
  lemma WithoutEventNothing(st: DbState, env: Env, r: Request, ids: FreshIds, plan: Plan)
    requires Decide(env, st, r.call, ids) == Go(plan) && NewEvent(plan.write).None? && WriteFits(st.ledgers, plan.write)
    requires r.call.Rebuild? ==> plan.write.NoWrite?
    ensures ApplyWrite(st.ledgers, plan.write) == st.ledgers
  {
    hide CheckCreate, CheckImport, CheckRevise, CheckTransition, CheckCombined, CheckOverride, CheckRebuild, EntryInsertable;
  }

  lemma ActionCorresponds(catalog: Catalog, st: DbState, a: Action)
    requires Inv(catalog, st) && Corresponds(st)
    ensures Corresponds(Next(catalog, st, a))
  {
    hide Execute, Inv;
    match a
    case Command(r, ids) => ExecutionCorresponds(catalog, st, r, ids);
    case ChangeDirectory(d) => DirectoryCorresponds(st, d);
  }

  lemma DirectoryCorresponds(st: DbState, d: Directory)
    requires Corresponds(st)
    ensures Corresponds(st.(directory := d))
  {
    hide Matches, IsFactReceipt;
    var after := st.(directory := d);
    assert forall id, i :: EventAt(after, id, i) <==> EventAt(st, id, i);
    forall r | r in after.receipts && IsFactReceipt(r) ensures ReceiptHasEvent(after, r) {
      assert ReceiptHasEvent(st, r);
    }
    forall id, i | EventAt(after, id, i) ensures EventHasReceipt(after, id, i) {
      assert EventHasReceipt(st, id, i);
    }
  }

  /**
   In every state of every run all receipts are complete; each successful receipt of a fact-writing
   command has exactly one event, each event exactly one such receipt, and the stored response names
   the event's version, visit and context.
   */
  lemma {:induction false} ReceiptsAndEventsCorrespond(catalog: Catalog, run: seq<DbState>, actions: seq<Action>, i: nat)
    requires KeyedCatalog(catalog) && IsRun(catalog, run, actions) && i < |run|
    ensures Corresponds(run[i])
  {
    hide Next, KeyedCatalog, Inv;
    if i > 0 {
      hide Corresponds;
      ReceiptsAndEventsCorrespond(catalog, run, actions, i - 1);
      RunKeepsInv(catalog, run, actions, i - 1);
      ActionCorresponds(catalog, run[i - 1], actions[i - 1]);
    }
  }
}
