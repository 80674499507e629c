/**
 Runs of the kernel: requests of all kinds on all instances, in any order, with the directory
 changing in between. In every state of every run the three consistency checkers agree.
 */
module KernelRuns {
  import opened Prelude
  import opened DefinitionModel
  import opened RuntimeModel
  import opened KernelState
  import opened EventReplay
  import opened Snapshot
  import opened Commands
  import opened Pipeline
  import opened Agreement
  import opened WriterAgreement
  import opened ReplayMeaning
  import opened QueryConsistency

  datatype Action =
    | Command(request: Request, ids: FreshIds)
    | ChangeDirectory(directory: Directory)

  function Next(catalog: Catalog, st: DbState, a: Action): DbState {
    match a
    case Command(r, ids) => Execute(catalog, st, r, ids).0
    case ChangeDirectory(d) => st.(directory := d)
  }

  /** A run from empty tables. */
  ghost predicate IsRun(catalog: Catalog, run: seq<DbState>, actions: seq<Action>) {
    && |run| == |actions| + 1
    && run[0].ledgers == map[] && run[0].receipts == []
    && forall i :: 0 <= i < |actions| ==> run[i + 1] == Next(catalog, run[i], actions[i])
  }

  /** Node ids and transition ids are primary keys. */
  ghost predicate KeyedCatalog(catalog: Catalog) {
    forall v :: v in catalog.versions ==>
      UniqueNodeIds(catalog.versions[v].graph.nodes) && UniqueTransitionIds(catalog.versions[v].graph.transitions)
  }

  ghost predicate LedgerInv(catalog: Catalog, receipts: seq<Receipt>, id: Uuid, l: Ledger) {
    && l.instance.workflowInstanceId == id
    && Coherent(catalog, l)
    && LinkageHolds(receipts, FactsOf(catalog, l), l.events)
    && UniqueIds(l)
    && DomainHolds(catalog, l.instance)
  }

  /** The instance belongs to the domain of its definition. */
  predicate DomainHolds(catalog: Catalog, l: InstanceRow) {
    l.definitionVersionId in catalog.versions && catalog.versions[l.definitionVersionId].domainId == l.domainId
  }

  lemma AppendKeepsUniqueIds(l: Ledger, e: Entry)
    requires UniqueIds(l) && FreshIn(l, e)
    ensures UniqueIds(Append(l, e))
  {
    hide ContextsById, VisitsById, SubmissionsById;
    assert forall c :: c in l.contexts ==> c.contextRevisionId in ContextsById(l.contexts);
    assert forall v :: v in l.visits ==> v.nodeVisitId in VisitsById(l.visits);
    assert forall s :: s in l.submissions ==> s.submissionId in SubmissionsById(l.submissions);
  }

  ghost predicate Inv(catalog: Catalog, st: DbState) {
    forall id :: id in st.ledgers ==> LedgerInv(catalog, st.receipts, id, st.ledgers[id])
  }

  lemma FindCommandSnoc(receipts: seq<Receipt>, r: Receipt, commandId: Uuid)
    ensures FindCommand(receipts + [r], commandId)
         == if r.commandId == commandId then Some(r) else FindCommand(receipts, commandId)
  {
    assert (receipts + [r])[..|receipts|] == receipts;
  }

  /** A linked import stays linked when a receipt of a new command is added. */
  lemma LinkageSurvivesReceipt(receipts: seq<Receipt>, r: Receipt, f: Facts, events: seq<EventFact>)
    requires LinkageHolds(receipts, f, events) && FindCommand(receipts, r.commandId).None?
    ensures LinkageHolds(receipts + [r], f, events)
  {
    hide FindCommand, ReceiptNames;
    if events != [] && events[0].commandId.Some? {
      FindCommandSnoc(receipts, r, events[0].commandId.value);
    }
  }

  lemma LinkageSurvivesAppend(catalog: Catalog, receipts: seq<Receipt>, l: Ledger, e: Entry)
    requires LinkageHolds(receipts, FactsOf(catalog, l), l.events) && FreshIn(l, e) && l.events != []
    ensures LinkageHolds(receipts, FactsOf(catalog, Append(l, e)), Append(l, e).events)
  {
    hide FindCommand, ContextsById, VisitsById, SubmissionsById, TransitionFacts;
    AppendGrows(catalog, l, e);
    AppendedEvents(l, e);
    assert (l.events + [e.event])[0] == l.events[0];
  }

  lemma ReceiptKeepsInv(catalog: Catalog, st: DbState, r: Receipt)
    requires Inv(catalog, st) && FindCommand(st.receipts, r.commandId).None?
    ensures Inv(catalog, st.(receipts := st.receipts + [r]))
  {
    hide FindCommand, Coherent, LinkageHolds;
    forall id | id in st.ledgers
      ensures LedgerInv(catalog, st.receipts + [r], id, st.ledgers[id])
    {
      LinkageSurvivesReceipt(st.receipts, r, FactsOf(catalog, st.ledgers[id]), st.ledgers[id].events);
    }
  }

  lemma UpdatedLedgerKeepsInv(catalog: Catalog, st: DbState, id: Uuid, l: Ledger)
    requires Inv(catalog, st) && LedgerInv(catalog, st.receipts, id, l)
    ensures Inv(catalog, st.(ledgers := st.ledgers[id := l]))
  {
    hide LedgerInv;
  }

  // ----- The write of each command -----

  /** The ledger that a fact-writing command appends to, and the entry, are as its lemma expects. */
  lemma AppendedLedgerInv(catalog: Catalog, st: DbState, id: Uuid, e: Entry)
    requires Inv(catalog, st) && id in st.ledgers && EntryInsertable(st.ledgers, st.ledgers[id], e)
    requires Coherent(catalog, Append(st.ledgers[id], e))
    ensures LedgerInv(catalog, st.receipts, id, Append(st.ledgers[id], e))
  {
    hide FactsValid, Fold, Coupled, LinkageHolds, EntryInsertable, AllVisitsJoin, UniqueIds, FreshIn;
    assert LedgerInv(catalog, st.receipts, id, st.ledgers[id]);
    InsertableIsFresh(st.ledgers, id, e);
    AppendKeepsUniqueIds(st.ledgers[id], e);
    LinkageSurvivesAppend(catalog, st.receipts, st.ledgers[id], e);
  }

  lemma ReviseWriteKeepsInv(env: Env, st: DbState, cmd: ReviseCommand, ids: FreshIds, plan: Plan)
    requires Inv(env.catalog, st) && DecideRevise(env, st.ledgers, cmd, ids) == Go(plan) && WriteFits(st.ledgers, plan.write)
    ensures Inv(env.catalog, st.(ledgers := ApplyWrite(st.ledgers, plan.write)))
  {
    hide Inv, Coherent, EntryInsertable, CheckRevise, ReviseEntry;
    var checked := CheckRevise(env, st.ledgers, cmd).value;
    RevisePlanFacts(env, st.ledgers, cmd, checked);
    CoherentAt(env.catalog, st, cmd.workflowInstanceId);
    ReviseKeepsCoherence(env, st.ledgers, cmd, checked, ids);
    AppendedLedgerInv(env.catalog, st, cmd.workflowInstanceId, plan.write.entry);
    UpdatedLedgerKeepsInv(env.catalog, st, cmd.workflowInstanceId, Append(checked.ledger, plan.write.entry));
  }

  lemma CoherentAt(catalog: Catalog, st: DbState, id: Uuid)
    requires Inv(catalog, st) && id in st.ledgers
    ensures LedgerInv(catalog, st.receipts, id, st.ledgers[id]) && Coherent(catalog, st.ledgers[id])
    ensures LinkageHolds(st.receipts, FactsOf(catalog, st.ledgers[id]), st.ledgers[id].events)
  {
    hide Coherent, LinkageHolds;
    assert LedgerInv(catalog, st.receipts, id, st.ledgers[id]);
  }

  lemma TransitionWriteKeepsInv(env: Env, st: DbState, cmd: TransitionCommand, ids: FreshIds, plan: Plan)
    requires Inv(env.catalog, st) && DecideTransition(env, st.ledgers, cmd, ids) == Go(plan) && WriteFits(st.ledgers, plan.write)
    ensures Inv(env.catalog, st.(ledgers := ApplyWrite(st.ledgers, plan.write)))
  {
    hide Inv, Coherent, EntryInsertable, CheckTransition, TransitionEntry;
    var checked := CheckTransition(env, st.ledgers, cmd).value;
    TransitionPlanFacts(env, st.ledgers, cmd, checked);
    CoherentAt(env.catalog, st, cmd.workflowInstanceId);
    TransitionKeepsCoherence(env, st.ledgers, cmd, checked, ids);
    AppendedLedgerInv(env.catalog, st, cmd.workflowInstanceId, plan.write.entry);
    UpdatedLedgerKeepsInv(env.catalog, st, cmd.workflowInstanceId, Append(checked.ledger, plan.write.entry));
  }

  lemma CombinedWriteKeepsInv(env: Env, st: DbState, cmd: CombinedCommand, ids: FreshIds, plan: Plan)
    requires Inv(env.catalog, st) && DecideCombined(env, st.ledgers, cmd, ids) == Go(plan) && WriteFits(st.ledgers, plan.write)
    ensures Inv(env.catalog, st.(ledgers := ApplyWrite(st.ledgers, plan.write)))
  {
    hide Inv, Coherent, EntryInsertable, CheckCombined, CombinedEntry;
    var checked := CheckCombined(env, st.ledgers, cmd).value;
    CombinedPlanFacts(env, st.ledgers, cmd, checked);
    CoherentAt(env.catalog, st, cmd.workflowInstanceId);
    CombinedKeepsCoherence(env, st.ledgers, cmd, checked, ids);
    AppendedLedgerInv(env.catalog, st, cmd.workflowInstanceId, plan.write.entry);
    UpdatedLedgerKeepsInv(env.catalog, st, cmd.workflowInstanceId, Append(checked.ledger, plan.write.entry));
  }

  lemma OverrideWriteKeepsInv(env: Env, st: DbState, cmd: OverrideCommand, ids: FreshIds, plan: Plan)
    requires Inv(env.catalog, st) && DecideOverride(env, st, cmd, ids) == Go(plan) && WriteFits(st.ledgers, plan.write)
    ensures Inv(env.catalog, st.(ledgers := ApplyWrite(st.ledgers, plan.write)))
  {
    hide Inv, Coherent, EntryInsertable, CheckOverride, OverrideEntry;
    var checked := CheckOverride(env, st, cmd).value;
    OverridePlanFacts(env, st, cmd, checked);
    CoherentAt(env.catalog, st, cmd.workflowInstanceId);
    OverrideKeepsCoherence(env, st, cmd, checked, ids);
    AppendedLedgerInv(env.catalog, st, cmd.workflowInstanceId, plan.write.entry);
    UpdatedLedgerKeepsInv(env.catalog, st, cmd.workflowInstanceId, Append(checked.ledger, plan.write.entry));
  }

  lemma RebuildChangesNothing(env: Env, st: DbState, cmd: RebuildCommand, ids: FreshIds, plan: Plan)
    requires Inv(env.catalog, st) && DecideRebuild(env, st, cmd, ids) == Go(plan)
    ensures plan.write == NoWrite && plan.body.RebuildBody? && !plan.body.changed
  {
    hide Inv, Coherent, CheckRebuild, LinkageHolds;
    var checked := CheckRebuild(env, st, cmd).value;
    assert cmd.workflowInstanceId in st.ledgers && checked.ledger == st.ledgers[cmd.workflowInstanceId]
      by { RebuildPlanFacts(env, st, cmd, checked); }
    CoherentAt(env.catalog, st, cmd.workflowInstanceId);
    RebuildKeepsCoherence(env, st, cmd, checked);
  }

  lemma RebuildPlanFacts(env: Env, st: DbState, cmd: RebuildCommand, plan: RebuildPlan)
    requires CheckRebuild(env, st, cmd) == Go(plan)
    ensures cmd.workflowInstanceId in st.ledgers && plan.ledger == st.ledgers[cmd.workflowInstanceId]
    ensures Reconstruct(env.catalog, st.receipts, plan.ledger) == Some(plan.projection)
  {
    hide Reconstruct, CheckAdmin, ExpectDigest;
  }

  lemma CreateWriteKeepsInv(env: Env, st: DbState, cmd: CreateCommand, ids: FreshIds, plan: Plan)
    requires KeyedCatalog(env.catalog) && Inv(env.catalog, st)
    requires DecideCreate(env, cmd, ids) == Go(plan) && WriteFits(st.ledgers, plan.write)
    ensures Inv(env.catalog, st.(ledgers := ApplyWrite(st.ledgers, plan.write)))
  {
    hide Inv, Coherent, CheckCreate;
    var checked := CheckCreate(env, cmd).value;
    CreatePlanFacts(env, cmd, checked);
    CreateIsCoherent(env, cmd, checked, ids);
    UpdatedLedgerKeepsInv(env.catalog, st, ids.instanceId, plan.write.ledger);
  }

  lemma ImportedLedgerInv(env: Env, st: DbState, r: Request, ids: FreshIds, checked: ImportPlan, plan: Plan)
    requires r.call.Import? && FindCommand(st.receipts, ids.commandId).None?
    requires CheckImport(env, st.ledgers, r.call.legacy) == Go(checked)
    requires DecideImport(env, st.ledgers, r.call.legacy, ids) == Go(plan)
    requires Coherent(env.catalog, ImportedLedger(env, r.call.legacy, checked, ids))
    ensures LedgerInv(env.catalog, st.receipts + [Completed(OpenReceipt(r, ids), 200, plan.body)], ids.instanceId,
                      ImportedLedger(env, r.call.legacy, checked, ids))
    ensures ImportedLedger(env, r.call.legacy, checked, ids).instance.workflowInstanceId == ids.instanceId
  {
    hide Coherent, CheckImport, FindCommand, TransitionFacts;
    var receipt, l := Completed(OpenReceipt(r, ids), 200, plan.body), ImportedLedger(env, r.call.legacy, checked, ids);
    ImportPlanFacts(env, st.ledgers, r.call.legacy, checked);
    FindCommandSnoc(st.receipts, receipt, ids.commandId);
    SingletonMaps(l);
  }

  /** The import links its event to the receipt that the same transaction completes. */
  lemma ImportWriteKeepsInv(env: Env, st: DbState, r: Request, ids: FreshIds, plan: Plan)
    requires Inv(env.catalog, st) && r.call.Import? && FindCommand(st.receipts, ids.commandId).None?
    requires DecideImport(env, st.ledgers, r.call.legacy, ids) == Go(plan) && WriteFits(st.ledgers, plan.write)
    ensures Inv(env.catalog, DbState(st.directory, ApplyWrite(st.ledgers, plan.write),
                                     st.receipts + [Completed(OpenReceipt(r, ids), 200, plan.body)]))
  {
    hide Inv, Coherent, CheckImport, FindCommand, LedgerInv, ImportedLedger, LinkageHolds, UniqueIds;
    var receipt := Completed(OpenReceipt(r, ids), 200, plan.body);
    var checked := CheckImport(env, st.ledgers, r.call.legacy).value;
    var l := ImportedLedger(env, r.call.legacy, checked, ids);
    ImportPlanFacts(env, st.ledgers, r.call.legacy, checked);
    ImportIsCoherent(env, st.ledgers, r.call.legacy, checked, ids);
    ReceiptKeepsInv(env.catalog, st, receipt);
    ImportedLedgerInv(env, st, r, ids, checked, plan);
    UpdatedLedgerKeepsInv(env.catalog, st.(receipts := st.receipts + [receipt]), ids.instanceId, l);
  }

  // ----- Every step of every run -----

  lemma WriteKeepsInv(env: Env, st: DbState, r: Request, ids: FreshIds, plan: Plan)
    requires KeyedCatalog(env.catalog) && Inv(env.catalog, st) && FindCommand(st.receipts, ids.commandId).None?
    requires Decide(env, st, r.call, ids) == Go(plan) && WriteFits(st.ledgers, plan.write)
    ensures Inv(env.catalog, DbState(st.directory, ApplyWrite(st.ledgers, plan.write),
                                     st.receipts + [Completed(OpenReceipt(r, ids), 200, plan.body)]))
  {
    hide Inv, KeyedCatalog, DecideCreate, DecideImport, DecideRevise, DecideTransition, DecideCombined, DecideOverride,
         DecideRebuild, WriteFits, FindCommand;
    var receipt := Completed(OpenReceipt(r, ids), 200, plan.body);
    match r.call {
      case Import(_) =>
        ImportWriteKeepsInv(env, st, r, ids, plan);
        return;
      case Create(c) => CreateWriteKeepsInv(env, st, c, ids, plan);
      case Revise(c) => ReviseWriteKeepsInv(env, st, c, ids, plan);
      case Transition(c) => TransitionWriteKeepsInv(env, st, c, ids, plan);
      case Combined(c) => CombinedWriteKeepsInv(env, st, c, ids, plan);
      case Override(c) => OverrideWriteKeepsInv(env, st, c, ids, plan);
      case Rebuild(c) =>
        RebuildChangesNothing(env, st, c, ids, plan);
        assert st.(ledgers := ApplyWrite(st.ledgers, plan.write)) == st;
    }
    ReceiptKeepsInv(env.catalog, st.(ledgers := ApplyWrite(st.ledgers, plan.write)), receipt);
  }

  lemma StepKeepsInv(catalog: Catalog, st: DbState, a: Action)
    requires KeyedCatalog(catalog) && Inv(catalog, st)
    ensures Inv(catalog, Next(catalog, st, a))
  {
    hide Inv, KeyedCatalog, Decide, WriteFits, Answer, FindReceipt, FindCommand, Precheck, StatusCode, FailureBodyOf;
    match a
    case ChangeDirectory(d) =>
      DirectoryKeepsInv(catalog, st, d);
    case Command(r, ids) =>
      if Precheck(Env(catalog, st.directory), r.call).None?
         && FindReceipt(st.receipts, PrincipalOf(r.call), KeyOf(r)).None?
         && FindCommand(st.receipts, ids.commandId).None? {
        match Decide(Env(catalog, st.directory), st, r.call, ids)
        case Abort(_) =>
        case Refuse(e) =>
          ReceiptKeepsInv(catalog, st, Completed(OpenReceipt(r, ids), StatusCode(e), FailureBodyOf(r.call, e)));
        case Go(plan) =>
          if WriteFits(st.ledgers, plan.write) {
            WriteKeepsInv(Env(catalog, st.directory), st, r, ids, plan);
          }
      }
  }

  lemma DirectoryKeepsInv(catalog: Catalog, st: DbState, d: Directory)
    requires Inv(catalog, st)
    ensures Inv(catalog, st.(directory := d))
  {
    hide LedgerInv;
  }

  lemma {:induction false} RunKeepsInv(catalog: Catalog, run: seq<DbState>, actions: seq<Action>, i: nat)
    requires KeyedCatalog(catalog) && IsRun(catalog, run, actions) && i < |run|
    ensures Inv(catalog, run[i])
  {
    hide Next, KeyedCatalog, LedgerInv;
    if i > 0 {
      RunKeepsInv(catalog, run, actions, i - 1);
      StepKeepsInv(catalog, run[i - 1], actions[i - 1]);
    }
  }

  /**
   Writers and replayer agree over every run: in every state, for every instance, the snapshot
   validators, the import linkage and the replay accept the stored facts and return exactly the
   stored projection.
   */
  lemma WritersAndReplayAgree(catalog: Catalog, run: seq<DbState>, actions: seq<Action>, i: nat, id: Uuid)
    requires KeyedCatalog(catalog) && IsRun(catalog, run, actions) && i < |run| && id in run[i].ledgers
    ensures Reconstruct(catalog, run[i].receipts, run[i].ledgers[id]) == Some(run[i].ledgers[id].instance.projection)
  {
    hide Coherent, LinkageHolds, Reconstruct, IsRun, KeyedCatalog;
    RunKeepsInv(catalog, run, actions, i);
    CoherentAt(catalog, run[i], id);
    CoherentReconstructs(catalog, run[i].receipts, run[i].ledgers[id]);
  }

  /** In every state of every run, every instance passes both checks that guard queries. */
  lemma QueriesAcceptEveryRun(catalog: Catalog, run: seq<DbState>, actions: seq<Action>, i: nat, id: Uuid)
    requires KeyedCatalog(catalog) && IsRun(catalog, run, actions) && i < |run| && id in run[i].ledgers
    ensures ValidateBase(LoadBase(catalog, run[i].ledgers[id])).None?
    ensures ValidateAllFacts(catalog, run[i].ledgers[id], LoadBase(catalog, run[i].ledgers[id])).None?
  {
    hide Coherent, LinkageHolds, Reconstruct, IsRun, KeyedCatalog, UniqueIds, ValidateBase, ValidateAllFacts;
    RunKeepsInv(catalog, run, actions, i);
    WritersAndReplayAgree(catalog, run, actions, i, id);
    assert LedgerInv(catalog, run[i].receipts, id, run[i].ledgers[id]);
    ReplayImpliesQueryAcceptance(catalog, run[i].receipts, run[i].ledgers[id]);
  }
}
