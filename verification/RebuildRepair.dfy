/** The projection rebuild repairs any damage to the projection columns and touches nothing else. */
module RebuildRepair {
  import opened Prelude
  import opened DefinitionModel
  import opened RuntimeModel
  import opened KernelState
  import opened EventReplay
  import opened Snapshot
  import opened Commands
  import opened Pipeline
  import opened Agreement
  import opened WriterAgreement
  import opened KernelRuns
  import opened Fusion
  import opened ReplayMeaning
  import opened QueryConsistency
  import opened Rules
  import opened Resolution

  function WithProjection(l: Ledger, p: Projection): Ledger {
    l.(instance := l.instance.(projection := p))
  }

  function Damage(st: DbState, id: Uuid, p: Projection): DbState
    requires id in st.ledgers
  {
    st.(ledgers := st.ledgers[id := WithProjection(st.ledgers[id], p)])
  }

  /** The replay never looks at the stored projection. */
  lemma {:induction false} FoldIgnoresProjection(f: Facts, f': Facts, events: seq<EventFact>)
    requires f' == f.(instance := f.instance.(projection := f'.instance.projection))
    ensures Fold(f, events) == Fold(f', events)
  {
    hide Apply;
    if events != [] {
      var before := events[..|events| - 1];
      FoldIgnoresProjection(f, f', before);
      if Fold(f, before).Some? {
        ApplyIgnoresProjection(f, f', Fold(f, before).value, events[|events| - 1], |events|);
      }
    }
  }

  lemma ApplyIgnoresProjection(f: Facts, f': Facts, s: ReplayState, e: EventFact, expected: int)
    requires f' == f.(instance := f.instance.(projection := f'.instance.projection))
    ensures Apply(f, s, e, expected) == Apply(f', s, e, expected)
  {
    hide Apply;
    if Apply(f, s, e, expected).Some? {
      ApplyGrows(f, f', s, e, expected);
    }
    if Apply(f', s, e, expected).Some? {
      ApplyGrows(f', f, s, e, expected);
    }
  }

  lemma ValidatorsIgnoreProjection(catalog: Catalog, receipts: seq<Receipt>, l: Ledger, p: Projection)
    ensures FactsValid(FactsOf(catalog, WithProjection(l, p)), WithProjection(l, p)) <==> FactsValid(FactsOf(catalog, l), l)
    ensures LinkageHolds(receipts, FactsOf(catalog, WithProjection(l, p)), l.events)
       <==> LinkageHolds(receipts, FactsOf(catalog, l), l.events)
  {
    hide ContextsById, VisitsById, SubmissionsById, TransitionFacts, FindCommand;
    var l' := WithProjection(l, p);
    var f, f' := FactsOf(catalog, l), FactsOf(catalog, l');
    assert forall i :: 0 <= i < |l.contexts| ==>
             (ContextValid(l.instance, l.contexts, i) <==> ContextValid(l'.instance, l.contexts, i));
    assert forall v :: VisitValid(l.instance, v, f.transitions) <==> VisitValid(l'.instance, v, f'.transitions);
    assert forall s :: SubmissionValid(f.instance, f.contexts, f.visits, s, f.transitions)
                  <==> SubmissionValid(f'.instance, f'.contexts, f'.visits, s, f'.transitions);
  }

  /** What is reconstructed does not depend on the projection that is stored. */
  lemma ReconstructIgnoresProjection(catalog: Catalog, receipts: seq<Receipt>, l: Ledger, p: Projection)
    ensures Reconstruct(catalog, receipts, WithProjection(l, p)) == Reconstruct(catalog, receipts, l)
  {
    hide FactsValid, LinkageHolds, Fold;
    ValidatorsIgnoreProjection(catalog, receipts, l, p);
    FoldIgnoresProjection(FactsOf(catalog, l), FactsOf(catalog, WithProjection(l, p)), l.events);
  }

  // ----- What an executed rebuild does -----

  /** On any state at all, an executed rebuild stores exactly the reconstructed projection. */
  lemma ExecutedRebuild(catalog: Catalog, st: DbState, r: Request, ids: FreshIds)
    requires r.call.Rebuild? && Execute(catalog, st, r, ids).1.Executed?
    ensures var id := r.call.rebuild.workflowInstanceId;
      && id in st.ledgers
      && var rebuilt := Reconstruct(catalog, st.receipts, st.ledgers[id]);
      && rebuilt.Some?
      && Execute(catalog, st, r, ids).0.ledgers == st.ledgers[id := WithProjection(st.ledgers[id], rebuilt.value)]
      && Execute(catalog, st, r, ids).1.body.RebuildBody?
      && Execute(catalog, st, r, ids).1.body.changed == (rebuilt.value != st.ledgers[id].instance.projection)
      && Execute(catalog, st, r, ids).0.directory == st.directory
  {
    hide Reconstruct, CheckRebuild, FindReceipt, FindCommand, Precheck;
    var env := Env(catalog, st.directory);
    var checked := CheckRebuild(env, st, r.call.rebuild).value;
    RebuildPlanFacts(env, st, r.call.rebuild, checked);
    var id := r.call.rebuild.workflowInstanceId;
    assert st.ledgers[id := st.ledgers[id]] == st.ledgers;
    assert WithProjection(st.ledgers[id], st.ledgers[id].instance.projection) == st.ledgers[id];
  }

  /** A rebuild that executes appends a receipt and leaves every other receipt in place. */
  lemma ExecutedRebuildReceipts(catalog: Catalog, st: DbState, r: Request, ids: FreshIds)
    requires r.call.Rebuild? && Execute(catalog, st, r, ids).1.Executed?
    ensures exists receipt ::
              && Execute(catalog, st, r, ids).0.receipts == st.receipts + [receipt]
              && receipt.commandId == ids.commandId && FindCommand(st.receipts, ids.commandId).None?
  {
    hide Decide, FindReceipt, FindCommand, Precheck, WriteFits;
    var plan := Decide(Env(catalog, st.directory), st, r.call, ids).value;
    var receipt := Completed(OpenReceipt(r, ids), 200, plan.body);
    assert Execute(catalog, st, r, ids).0.receipts == st.receipts + [receipt];
  }

  /**
   Repair: damage the three projection columns of any instance in a reachable state; a rebuild that
   executes restores their exact earlier values, touches no fact, and says whether it changed anything.
   */
  lemma RebuildRepairsDamage(catalog: Catalog, run: seq<DbState>, actions: seq<Action>, i: nat, damaged: Projection,
                             r: Request, ids: FreshIds)
    requires KeyedCatalog(catalog) && IsRun(catalog, run, actions) && i < |run|
    requires r.call.Rebuild? && r.call.rebuild.workflowInstanceId in run[i].ledgers
    ensures var id := r.call.rebuild.workflowInstanceId;
      var (after, outcome) := Execute(catalog, Damage(run[i], id, damaged), r, ids);
      outcome.Executed? ==>
        && after.ledgers == run[i].ledgers
        && outcome.body.RebuildBody?
        && outcome.body.changed == (damaged != run[i].ledgers[id].instance.projection)
  {
    hide Execute, Reconstruct, IsRun, KeyedCatalog, Inv;
    var st, id := run[i], r.call.rebuild.workflowInstanceId;
    if Execute(catalog, Damage(st, id, damaged), r, ids).1.Executed? {
      WritersAndReplayAgree(catalog, run, actions, i, id);
      ReconstructIgnoresProjection(catalog, st.receipts, st.ledgers[id], damaged);
      ExecutedRebuild(catalog, Damage(st, id, damaged), r, ids);
      var restored := WithProjection(WithProjection(st.ledgers[id], damaged), st.ledgers[id].instance.projection);
      assert restored == st.ledgers[id];
      assert Damage(st, id, damaged).ledgers[id := restored] == st.ledgers;
    }
  }

  /** Whatever the damage, the checks of a rebuild without an expected digest pass exactly for an administrator. */
  lemma RebuildAcceptsDamage(catalog: Catalog, run: seq<DbState>, actions: seq<Action>, i: nat, damaged: Projection,
                             cmd: RebuildCommand)
    requires KeyedCatalog(catalog) && IsRun(catalog, run, actions) && i < |run|
    requires cmd.workflowInstanceId in run[i].ledgers && cmd.expectedBeforeSnapshotDigest.None?
    ensures var env := Env(catalog, run[i].directory);
      CheckRebuild(env, Damage(run[i], cmd.workflowInstanceId, damaged), cmd).Go?
      <==> LawfulAdministration(catalog, run[i].directory, run[i].ledgers, cmd.workflowInstanceId, cmd.principalId)
  {
    hide Reconstruct, IsRun, KeyedCatalog, Inv, CheckAdmin, IsAdministrator;
    var st, id := run[i], cmd.workflowInstanceId;
    WritersAndReplayAgree(catalog, run, actions, i, id);
    ReconstructIgnoresProjection(catalog, st.receipts, st.ledgers[id], damaged);
    AdministratorAdmitted(Env(catalog, st.directory), Damage(st, id, damaged).ledgers, id, cmd.principalId);
    if CheckAdmin(Env(catalog, st.directory), Damage(st, id, damaged).ledgers, id, cmd.principalId).Go? {
      AdministeredLedger(Env(catalog, st.directory), Damage(st, id, damaged).ledgers, id, cmd.principalId);
    }
  }

  /**
   Every damage can be repaired: in every state of every run, damage the projection of any instance as you
   like; an administrator's rebuild under an unused key executes, and every instance is as it was before.
   */
  lemma EveryDamageIsRepairable(catalog: Catalog, run: seq<DbState>, actions: seq<Action>, i: nat, damaged: Projection,
                                r: Request, ids: FreshIds)
    requires KeyedCatalog(catalog) && IsRun(catalog, run, actions) && i < |run| && r.call.Rebuild?
    ensures var cmd := r.call.rebuild;
      && cmd.workflowInstanceId in run[i].ledgers && cmd.expectedBeforeSnapshotDigest.None?
      && Unused(Damage(run[i], cmd.workflowInstanceId, damaged), r, ids)
      && LawfulAdministration(catalog, run[i].directory, run[i].ledgers, cmd.workflowInstanceId, cmd.principalId) ==>
        var (after, outcome) := Execute(catalog, Damage(run[i], cmd.workflowInstanceId, damaged), r, ids);
        outcome.Executed? && after.ledgers == run[i].ledgers
  {
    hide Execute, IsRun, KeyedCatalog, Inv, CheckRebuild, Unused;
    var st, cmd := run[i], r.call.rebuild;
    if cmd.workflowInstanceId in st.ledgers && cmd.expectedBeforeSnapshotDigest.None?
       && Unused(Damage(st, cmd.workflowInstanceId, damaged), r, ids)
       && LawfulAdministration(catalog, st.directory, st.ledgers, cmd.workflowInstanceId, cmd.principalId) {
      var before := Damage(st, cmd.workflowInstanceId, damaged);
      RebuildAcceptsDamage(catalog, run, actions, i, damaged, cmd);
      RebuildWriteFits(catalog, run, actions, i, damaged, r, ids);
      UnusedExecution(catalog, before, r, ids);
      RebuildRepairsDamage(catalog, run, actions, i, damaged, r, ids);
    }
  }

  /** What a rebuild of a damaged instance writes fits the tables. */
  lemma RebuildWriteFits(catalog: Catalog, run: seq<DbState>, actions: seq<Action>, i: nat, damaged: Projection, r: Request,
                         ids: FreshIds)
    requires KeyedCatalog(catalog) && IsRun(catalog, run, actions) && i < |run| && r.call.Rebuild?
    requires r.call.rebuild.workflowInstanceId in run[i].ledgers
    requires var before := Damage(run[i], r.call.rebuild.workflowInstanceId, damaged);
      CheckRebuild(Env(catalog, run[i].directory), before, r.call.rebuild).Go?
    ensures var env, before := Env(catalog, run[i].directory), Damage(run[i], r.call.rebuild.workflowInstanceId, damaged);
      && Precheck(env, r.call).None? && Decide(env, before, r.call, ids).Go?
      && WriteFits(before.ledgers, Decide(env, before, r.call, ids).value.write)
  {
    hide IsRun, KeyedCatalog, Inv, CheckRebuild, Reconstruct, Coherent, LinkageHolds, UniqueIds, DomainHolds, FactsOf, CheckAdmin,
         ExpectDigest, SnapshotDigest;
    var st, id := run[i], r.call.rebuild.workflowInstanceId;
    var env, before := Env(catalog, st.directory), Damage(st, id, damaged);
    var checked := CheckRebuild(env, before, r.call.rebuild).value;
    WritersAndReplayAgree(catalog, run, actions, i, id);
    ReconstructIgnoresProjection(catalog, st.receipts, st.ledgers[id], damaged);
    RebuildPlanFacts(env, before, r.call.rebuild, checked);
    RebuilderExists(env, before, r.call.rebuild);
    RunKeepsInv(catalog, run, actions, i);
    CoherentAt(catalog, st, id);
    VersionBounded(catalog, st.ledgers[id]);
  }

  lemma RebuilderExists(env: Env, st: DbState, cmd: RebuildCommand)
    requires CheckRebuild(env, st, cmd).Go?
    ensures cmd.principalId in env.directory.principals
  {
    hide Reconstruct, ExpectDigest;
  }

  /** Whatever the state, a second executed rebuild right after the first reports no change and changes no ledger. */
  lemma SecondRebuildIsIdle(catalog: Catalog, st: DbState, r: Request, ids: FreshIds, r': Request, ids': FreshIds)
    requires r.call.Rebuild? && r'.call.Rebuild?
    requires r'.call.rebuild.workflowInstanceId == r.call.rebuild.workflowInstanceId
    ensures var first := Execute(catalog, st, r, ids);
      var (second, outcome) := Execute(catalog, first.0, r', ids');
      first.1.Executed? && outcome.Executed? ==>
        second.ledgers == first.0.ledgers && outcome.body.RebuildBody? && !outcome.body.changed
  {
    hide Execute, Reconstruct;
    var id := r.call.rebuild.workflowInstanceId;
    var first := Execute(catalog, st, r, ids).0;
    if !Execute(catalog, st, r, ids).1.Executed? || !Execute(catalog, first, r', ids').1.Executed? {
      return;
    }
    ExecutedRebuild(catalog, st, r, ids);
    ExecutedRebuild(catalog, first, r', ids');
    ExecutedRebuildReceipts(catalog, st, r, ids);
    var receipt :| first.receipts == st.receipts + [receipt]
                   && receipt.commandId == ids.commandId && FindCommand(st.receipts, ids.commandId).None?;
    var rebuilt := Reconstruct(catalog, st.receipts, st.ledgers[id]).value;
    ReconstructIgnoresProjection(catalog, first.receipts, st.ledgers[id], rebuilt);
    ReconstructSurvivesReceipt(catalog, st.receipts, receipt, st.ledgers[id]);
    assert WithProjection(first.ledgers[id], rebuilt) == first.ledgers[id];
    assert first.ledgers[id := first.ledgers[id]] == first.ledgers;
  }

  lemma ReconstructSurvivesReceipt(catalog: Catalog, receipts: seq<Receipt>, r: Receipt, l: Ledger)
    requires Reconstruct(catalog, receipts, l).Some? && FindCommand(receipts, r.commandId).None?
    ensures Reconstruct(catalog, receipts + [r], l) == Reconstruct(catalog, receipts, l)
  {
    hide FactsValid, LinkageHolds, ReplayResult;
    LinkageSurvivesReceipt(receipts, r, FactsOf(catalog, l), l.events);
  }

  // ----- Which damage the queries notice -----

  predicate NamesAnyVisit(l: Ledger, id: Option<Uuid>) {
    exists v :: v in l.visits && id == Some(v.nodeVisitId)
  }

  lemma RowsUnderDamage(l: Ledger, p: Projection)
    ensures var d := WithProjection(l, p);
      && (forall c :: IsCurrentContext(d, c) <==> c in l.contexts && p.currentContextRevisionId == Some(c.contextRevisionId))
      && (forall v :: IsCurrentVisit(d, v) <==> v in l.visits && p.currentNodeVisitId == Some(v.nodeVisitId))
      && (forall e :: NamesOwnRows(d, e) <==> NamesOwnRows(l, e))
  {
    var d := WithProjection(l, p);
    forall e
      ensures NamesOwnRows(d, e) <==> NamesOwnRows(l, e)
    {
    }
  }

  lemma FactsUnderDamage(catalog: Catalog, l: Ledger, p: Projection, e: QueryError)
    requires e.ForeignDomain? || e.VisitEscapes? || e.SubmissionEscapes?
    ensures Breaks(catalog, WithProjection(l, p), e) <==> Breaks(catalog, l, e)
  {
    hide LeavesNode;
    var d := WithProjection(l, p);
    forall s
      ensures StaysInside(catalog, d, s) <==> StaysInside(catalog, l, s)
    {
    }
  }

  lemma DamageBreaksIff(catalog: Catalog, l: Ledger, p: Projection)
    requires forall e :: !Breaks(catalog, l, e)
    requires FactsValid(FactsOf(catalog, l), l) && l.instance.projection.workflowStateVersion == |l.events|
    requires CurrentContextIsLast(l)
    ensures (forall e :: !Breaks(catalog, WithProjection(l, p), e))
       <==> && p.currentContextRevisionId == l.instance.projection.currentContextRevisionId
            && p.workflowStateVersion == l.instance.projection.workflowStateVersion
            && NamesAnyVisit(l, p.currentNodeVisitId)
  {
    hide NamesOwnRows, StaysInside, IsLinkedList, Spans, EventNumbers, RevisionNumbers, IsCurrentContext, IsCurrentVisit, Breaks,
         FactsOf, FactsValid;
    var d := WithProjection(l, p);
    RowsUnderDamage(l, p);
    forall e: QueryError | e.ForeignDomain? || e.VisitEscapes? || e.SubmissionEscapes?
      ensures !Breaks(catalog, d, e)
    {
      FactsUnderDamage(catalog, l, p, e);
    }
    PointersUnderDamage(catalog, l, p);
    if forall e :: !Breaks(catalog, d, e) {
      assert !Breaks(catalog, d, EventMismatch) && !Breaks(catalog, d, ContextChainBroken);
      assert !Breaks(catalog, d, ForeignVisit) && !Breaks(catalog, d, MissingVisitPointer);
    } else {
      var e :| Breaks(catalog, d, e);
    }
  }

  lemma PointersUnderDamage(catalog: Catalog, l: Ledger, p: Projection)
    requires forall e :: !Breaks(catalog, l, e)
    requires FactsValid(FactsOf(catalog, l), l) && l.instance.projection.workflowStateVersion == |l.events|
    requires CurrentContextIsLast(l)
    ensures var d, same := WithProjection(l, p), p.currentContextRevisionId == l.instance.projection.currentContextRevisionId;
      && (Breaks(catalog, d, EventMismatch) <==> p.workflowStateVersion != l.instance.projection.workflowStateVersion)
      && (Breaks(catalog, d, ContextChainBroken) <==> !same)
      && (same ==> !Breaks(catalog, d, MissingContextPointer) && !Breaks(catalog, d, ForeignContext))
      && (!Breaks(catalog, d, MissingVisitPointer) && !Breaks(catalog, d, ForeignVisit) <==> NamesAnyVisit(l, p.currentNodeVisitId))
      && !Breaks(catalog, d, ForeignNode)
  {
    hide NamesOwnRows, StaysInside, IsLinkedList, Spans, EventNumbers, RevisionNumbers, IsCurrentContext, IsCurrentVisit,
         ContextsById, VisitsById, SubmissionsById, TransitionFacts, SubmissionValid;
    var d, last := WithProjection(l, p), l.contexts[|l.contexts| - 1];
    RowsUnderDamage(l, p);
    RowsUnderDamage(l, l.instance.projection);
    assert WithProjection(l, l.instance.projection) == l;
    assert !Breaks(catalog, l, EventMismatch) && !Breaks(catalog, l, ContextChainBroken) && !Breaks(catalog, l, VisitEscapes);
    forall i | 0 <= i < |l.contexts|
      ensures l.contexts[i].revisionNumber == i + 1 && l.contexts[i].workflowInstanceId == l.instance.workflowInstanceId
    {
      assert ContextValid(l.instance, l.contexts, i);
    }
    assert forall c :: c in l.contexts && c.revisionNumber == |l.contexts| ==> c == last;
    assert last in l.contexts;
    forall v | v in l.visits
      ensures v.workflowInstanceId == l.instance.workflowInstanceId && v.definitionVersionId == l.instance.definitionVersionId
    {
      assert VisitValid(l.instance, v, FactsOf(catalog, l).transitions);
    }
  }

  /**
   In every state of every run, queries notice every damage to the projection of an instance but one kind: a
   pointer to another visit of the same instance, with the other two columns as they were.
   */
  lemma DamageUnnoticedIff(catalog: Catalog, run: seq<DbState>, actions: seq<Action>, i: nat, id: Uuid, damaged: Projection)
    requires KeyedCatalog(catalog) && IsRun(catalog, run, actions) && i < |run| && id in run[i].ledgers
    ensures var l, p := run[i].ledgers[id], run[i].ledgers[id].instance.projection;
      var base := LoadBase(catalog, WithProjection(l, damaged));
      ValidateBase(base).None? && ValidateAllFacts(catalog, WithProjection(l, damaged), base).None?
      <==> && damaged.currentContextRevisionId == p.currentContextRevisionId
           && damaged.workflowStateVersion == p.workflowStateVersion
           && NamesAnyVisit(l, damaged.currentNodeVisitId)
  {
    hide IsRun, KeyedCatalog, Inv, UniqueIds, UniqueTransitionIds, FactsValid, FactsOf, Breaks, LinkageHolds, ValidateBase,
         ValidateAllFacts, LoadBase, Fold, CurrentContextIsLast, NamesAnyVisit;
    var l := run[i].ledgers[id];
    RunKeepsInv(catalog, run, actions, i);
    CoherentAt(catalog, run[i], id);
    QueriesAcceptEveryRun(catalog, run, actions, i, id);
    UniqueUnderDamage(catalog, l, damaged);
    QueriesAcceptIffUnbroken(catalog, l);
    QueriesAcceptIffUnbroken(catalog, WithProjection(l, damaged));
    DamageBreaksIff(catalog, l, damaged);
  }

  lemma UniqueUnderDamage(catalog: Catalog, l: Ledger, p: Projection)
    requires UniqueIds(l) && KeyedCatalog(catalog)
    ensures UniqueIds(WithProjection(l, p))
    ensures UniqueTransitionIds(GraphOf(catalog, l.instance.definitionVersionId).transitions)
  {
  }
}
