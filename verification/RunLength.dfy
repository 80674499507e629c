/**
 How long an instance can run: on a validated graph, without administrative overrides, `k` returns
 allow fewer than `(k + 1) * |nodes|` transitions.
 */
module RunLength {
  import opened Prelude
  import opened DefinitionModel
  import opened GraphRules
  import opened GraphProgress
  import opened RuntimeModel
  import opened KernelState
  import opened EventReplay
  import opened Snapshot
  import opened Commands
  import opened Pipeline
  import opened Agreement
  import opened WriterAgreement
  import opened ReplayMeaning
  import opened KernelRuns

  // ----- Counting -----

  function TransitionCount(events: seq<EventFact>): nat {
    if events == [] then 0
    else TransitionCount(events[..|events| - 1]) + if IsTransition(events[|events| - 1]) then 1 else 0
  }

  predicate IsReturn(e: EventFact) {
    IsTransition(e) && e.transitionEffect == Some(RETURN)
  }

  function ReturnCount(events: seq<EventFact>): nat {
    if events == [] then 0
    else ReturnCount(events[..|events| - 1]) + if IsReturn(events[|events| - 1]) then 1 else 0
  }

  predicate Overridden(events: seq<EventFact>) {
    exists e :: e in events && IsOverride(e)
  }

  lemma CountsSnoc(events: seq<EventFact>, e: EventFact)
    ensures TransitionCount(events + [e]) == TransitionCount(events) + if IsTransition(e) then 1 else 0
    ensures ReturnCount(events + [e]) == ReturnCount(events) + if IsReturn(e) then 1 else 0
    ensures Overridden(events + [e]) <==> Overridden(events) || IsOverride(e)
  {
    assert (events + [e])[..|events|] == events;
    assert forall x :: x in events + [e] <==> x in events || x == e;
  }

  // ----- The height of a node -----

  /** The positions of the nodes with a smaller order index. */
  function Lower(nodes: seq<NodeDefinition>, order: int): set<int> {
    set i | 0 <= i < |nodes| && nodes[i].orderIndex < order
  }

  function Rank(nodes: seq<NodeDefinition>, n: NodeDefinition): nat {
    |Lower(nodes, n.orderIndex)|
  }

  lemma RankRises(nodes: seq<NodeDefinition>, a: NodeDefinition, b: NodeDefinition)
    requires a in nodes && a.orderIndex < b.orderIndex
    ensures Rank(nodes, a) + 1 <= Rank(nodes, b)
  {
    var i :| 0 <= i < |nodes| && nodes[i] == a;
    SubsetSize(Lower(nodes, a.orderIndex) + {i}, Lower(nodes, b.orderIndex));
  }

  lemma RankBelowSize(nodes: seq<NodeDefinition>, n: NodeDefinition)
    requires n in nodes
    ensures Rank(nodes, n) + 1 <= |nodes|
  {
    var i :| 0 <= i < |nodes| && nodes[i] == n;
    SubsetSize(Lower(nodes, n.orderIndex) + {i}, Positions(|nodes|));
  }

  function Positions(n: nat): (r: set<int>)
    ensures |r| == n && forall k :: k in r <==> 0 <= k < n
  {
    if n == 0 then {} else Positions(n - 1) + {n - 1}
  }

  // ----- The invariant -----

  /** The bound, sharpened by where the instance stands. */
  predicate WithinBudget(g: WorkflowGraph, n: NodeDefinition, events: seq<EventFact>) {
    if n.nodeType.TERMINAL? then TransitionCount(events) + 1 <= (ReturnCount(events) + 1) * |g.nodes|
    else TransitionCount(events) <= ReturnCount(events) * |g.nodes| + Rank(g.nodes, n)
  }

  ghost predicate LengthHolds(catalog: Catalog, l: Ledger) {
    var version, visit := l.instance.definitionVersionId, CurrentVisit(l);
    Validated(GraphOf(catalog, version)) && !Overridden(l.events) ==>
      && visit.Some? && NodeOf(catalog, version, visit.value.nodeId).Some?
      && WithinBudget(GraphOf(catalog, version), NodeOf(catalog, version, visit.value.nodeId).value, l.events)
  }

  ghost predicate AllLengthsHold(catalog: Catalog, st: DbState) {
    forall id :: id in st.ledgers ==> LengthHolds(catalog, st.ledgers[id])
  }

  // ----- One executed transition -----

  /** What the runtime checks of an executed transition between two nodes. */
  predicate RuntimeChecked(source: NodeDefinition, t: TransitionDefinition, target: NodeDefinition) {
    && !source.nodeType.TERMINAL?
    && t.sourceNodeId == source.nodeId && t.targetNodeId == target.nodeId
    && (t.transitionEffect.ADVANCE? ==> source.primaryAdvanceTransitionId == Some(t.transitionId))
    && (t.transitionEffect.RETURN? ==> !target.nodeType.TERMINAL? && target.orderIndex < source.orderIndex)
    && (t.transitionEffect.TERMINATE? ==> target.nodeType.TERMINAL?)
  }

  /** On a validated graph an ADVANCE rises, and every open node has a node above it. */
  lemma AdvanceRises(g: WorkflowGraph, source: NodeDefinition, t: TransitionDefinition, target: NodeDefinition)
    requires Validated(g) && source in g.nodes && t in g.transitions && target in g.nodes
    requires RuntimeChecked(source, t, target)
    ensures t.transitionEffect.ADVANCE? ==> source.orderIndex < target.orderIndex
    ensures Rank(g.nodes, source) + 2 <= |g.nodes|
  {
    hide Accepts, Rank;
    AcceptedPrimary(g, source);
    var above :| above in g.nodes && IsPrimaryEdge(g.transitions, source, above);
    var primary :| primary in g.transitions && IsPrimaryStep(source, primary, above);
    RankRises(g.nodes, source, above);
    RankBelowSize(g.nodes, above);
    if t.transitionEffect.ADVANCE? {
      TransitionIsItsLookup(g.transitions, t);
      TransitionIsItsLookup(g.transitions, primary);
      NodeIsItsLookup(g.nodes, target);
      NodeIsItsLookup(g.nodes, above);
    }
  }

  lemma MoveStaysWithinBudget(g: WorkflowGraph, source: NodeDefinition, t: TransitionDefinition, target: NodeDefinition,
                              events: seq<EventFact>, e: EventFact)
    requires Validated(g) && source in g.nodes && t in g.transitions && target in g.nodes
    requires RuntimeChecked(source, t, target) && WithinBudget(g, source, events)
    requires IsTransition(e) && e.transitionEffect == Some(t.transitionEffect)
    ensures WithinBudget(g, target, events + [e])
  {
    hide Validated, Rank;
    CountsSnoc(events, e);
    AdvanceRises(g, source, t, target);
    var k, n := ReturnCount(events), |g.nodes|;
    assert (k + 1) * n == k * n + n;
    match t.transitionEffect
    case ADVANCE => RankRises(g.nodes, source, target);
    case RETURN =>
    case TERMINATE =>
  }

  // ----- The entries of the commands -----

  lemma VisitAfterAppend(l: Ledger, e: Entry)
    ensures e.visit.Some? && e.projection.currentNodeVisitId == Some(e.visit.value.nodeVisitId) ==>
              CurrentVisit(Append(l, e)) == e.visit
    ensures e.visit.None? && e.projection.currentNodeVisitId == l.instance.projection.currentNodeVisitId ==>
              CurrentVisit(Append(l, e)) == CurrentVisit(l)
  {
    hide VisitsById, ContextsById, SubmissionsById;
    AppendedMaps(l, e);
  }

  /** The entry moves the instance along `t`, from the node of its current visit to `target`. */
  ghost predicate Moves(catalog: Catalog, l: Ledger, e: Entry, source: NodeDefinition, t: TransitionDefinition,
                        target: NodeDefinition)
  {
    var version, visit := l.instance.definitionVersionId, CurrentVisit(l);
    && visit.Some? && NodeOf(catalog, version, visit.value.nodeId) == Some(source)
    && TransitionOf(catalog, version, t.transitionId) == Some(t)
    && NodeOf(catalog, version, target.nodeId) == Some(target)
    && RuntimeChecked(source, t, target)
    && IsTransition(e.event) && e.event.transitionEffect == Some(t.transitionEffect)
    && e.visit.Some? && e.visit.value.nodeId == target.nodeId
    && e.projection.currentNodeVisitId == Some(e.visit.value.nodeVisitId)
  }

  lemma MoveKeepsLength(catalog: Catalog, l: Ledger, e: Entry, source: NodeDefinition, t: TransitionDefinition,
                        target: NodeDefinition)
    requires LengthHolds(catalog, l) && Moves(catalog, l, e, source, t, target)
    ensures LengthHolds(catalog, Append(l, e))
  {
    hide Validated, WithinBudget, NodeOf, TransitionOf, RuntimeChecked, CurrentVisit, GraphOf;
    var g := GraphOf(catalog, l.instance.definitionVersionId);
    CountsSnoc(l.events, e.event);
    VisitAfterAppend(l, e);
    AppendedEvents(l, e);
    assert source in g.nodes && t in g.transitions && target in g.nodes;
    if Validated(g) && !Overridden(Append(l, e).events) {
      MoveStaysWithinBudget(g, source, t, target, l.events, e.event);
    }
  }

  /** The join of a visit with its node, in a coherent ledger. */
  lemma CurrentNodeOpen(catalog: Catalog, l: Ledger, visit: VisitFact)
    requires Coherent(catalog, l) && CurrentVisit(l) == Some(visit)
    ensures VisitJoins(catalog, l.instance, visit)
  {
    hide FactsValid, Fold, Coupled, CurrentContextIsLast, NodeOf;
    assert visit in l.visits;
  }

  lemma TransitionMoves(env: Env, ledgers: map<Uuid, Ledger>, cmd: TransitionCommand, plan: TransitionPlan, ids: FreshIds)
    requires CheckTransition(env, ledgers, cmd) == Go(plan) && HasPointers(plan.ledger) && Coherent(env.catalog, plan.ledger)
    ensures Moves(env.catalog, plan.ledger, TransitionEntry(env, cmd, plan, ids), plan.source, plan.transition, plan.target)
  {
    hide CheckTransition, Coherent, NodeOf, TransitionOf, CurrentVisit, MaxVisitNumber;
    TransitionPlanFacts(env, ledgers, cmd, plan);
    CurrentNodeOpen(env.catalog, plan.ledger, plan.visit);
  }

  lemma CombinedMoves(env: Env, ledgers: map<Uuid, Ledger>, cmd: CombinedCommand, plan: CombinedPlan, ids: FreshIds)
    requires CheckCombined(env, ledgers, cmd) == Go(plan) && Coherent(env.catalog, plan.ledger)
    ensures NodeOf(env.catalog, plan.ledger.instance.definitionVersionId, plan.visit.nodeId).Some?
    ensures Moves(env.catalog, plan.ledger, CombinedEntry(env, cmd, plan, ids),
                  NodeOf(env.catalog, plan.ledger.instance.definitionVersionId, plan.visit.nodeId).value, plan.transition,
                  plan.target)
  {
    hide CheckCombined, Coherent, NodeOf, TransitionOf, CurrentVisit, MaxVisitNumber;
    CombinedPlanFacts(env, ledgers, cmd, plan);
    CurrentNodeOpen(env.catalog, plan.ledger, plan.visit);
  }

  /** An entry that stays on the current visit, without a transition. */
  lemma StayKeepsLength(catalog: Catalog, l: Ledger, e: Entry)
    requires LengthHolds(catalog, l) && IsRevision(e.event) && e.visit.None?
    requires e.projection.currentNodeVisitId == l.instance.projection.currentNodeVisitId
    ensures LengthHolds(catalog, Append(l, e))
  {
    hide Validated, NodeOf, CurrentVisit, GraphOf, Rank;
    CountsSnoc(l.events, e.event);
    VisitAfterAppend(l, e);
    AppendedEvents(l, e);
  }

  lemma OverrideKeepsLength(catalog: Catalog, l: Ledger, e: Entry)
    requires IsOverride(e.event)
    ensures LengthHolds(catalog, Append(l, e))
  {
    CountsSnoc(l.events, e.event);
    AppendedEvents(l, e);
  }

  /** A new instance has made no transition. */
  lemma NewLengthHolds(catalog: Catalog, l: Ledger, n: NodeDefinition)
    requires |l.events| == 1 && !IsTransition(l.events[0]) && |l.visits| == 1
    requires l.instance.projection.currentNodeVisitId == Some(l.visits[0].nodeVisitId)
    requires NodeOf(catalog, l.instance.definitionVersionId, l.visits[0].nodeId) == Some(n)
    ensures LengthHolds(catalog, l)
  {
    hide NodeOf, Validated, Rank;
    assert l.visits[..0] == [] && l.events == [] + [l.events[0]];
    CountsSnoc([], l.events[0]);
    assert VisitsById(l.visits) == map[l.visits[0].nodeVisitId := l.visits[0]];
    RankBelowSize(GraphOf(catalog, l.instance.definitionVersionId).nodes, n);
  }

  // ----- Every run -----

  lemma DecisionKeepsLength(env: Env, st: DbState, call: Call, ids: FreshIds, plan: Plan)
    requires KeyedCatalog(env.catalog) && Inv(env.catalog, st) && AllLengthsHold(env.catalog, st)
    requires Decide(env, st, call, ids) == Go(plan) && WriteFits(st.ledgers, plan.write)
    ensures AllLengthsHold(env.catalog, st.(ledgers := ApplyWrite(st.ledgers, plan.write)))
  {
    hide KeyedCatalog, Inv, LengthHolds, CheckCreate, CheckImport, CheckRevise, CheckTransition, CheckCombined, CheckOverride,
         CheckRebuild, Moves, Coherent, CreatedLedger, ImportedLedger, ReviseEntry, TransitionEntry, CombinedEntry,
         OverrideEntry, EntryInsertable, LedgerInsertable, Append;
    match call
    case Create(c) =>
      CreatedLength(env, c, CheckCreate(env, c).value, ids);
    case Import(c) =>
      ImportedLength(env, st.ledgers, c, CheckImport(env, st.ledgers, c).value, ids);
    case Revise(c) =>
      var checked := CheckRevise(env, st.ledgers, c).value;
      RevisePlanFacts(env, st.ledgers, c, checked);
      RevisedLength(env, c, checked, ids);
    case Transition(c) =>
      var checked := CheckTransition(env, st.ledgers, c).value;
      TransitionPlanFacts(env, st.ledgers, c, checked);
      CoherentAt(env.catalog, st, c.workflowInstanceId);
      TransitionMoves(env, st.ledgers, c, checked, ids);
      MoveKeepsLength(env.catalog, checked.ledger, TransitionEntry(env, c, checked, ids), checked.source, checked.transition,
                      checked.target);
    case Combined(c) =>
      var checked := CheckCombined(env, st.ledgers, c).value;
      CombinedPlanFacts(env, st.ledgers, c, checked);
      CoherentAt(env.catalog, st, c.workflowInstanceId);
      CombinedMoves(env, st.ledgers, c, checked, ids);
      MoveKeepsLength(env.catalog, checked.ledger, CombinedEntry(env, c, checked, ids),
                      NodeOf(env.catalog, checked.ledger.instance.definitionVersionId, checked.visit.nodeId).value,
                      checked.transition, checked.target);
    case Override(c) =>
      OverriddenLength(env, c, CheckOverride(env, st, c).value, ids);
    case Rebuild(c) =>
      RebuildChangesNothing(env, st, c, ids, plan);
  }

  lemma CreatedLength(env: Env, cmd: CreateCommand, plan: CreatePlan, ids: FreshIds)
    requires KeyedCatalog(env.catalog) && CheckCreate(env, cmd) == Go(plan)
    ensures LengthHolds(env.catalog, CreatedLedger(env, cmd, plan, ids))
  {
    hide CheckCreate, LengthHolds;
    CreatePlanFacts(env, cmd, plan);
    NewLengthHolds(env.catalog, CreatedLedger(env, cmd, plan, ids), plan.node);
  }

  lemma ImportedLength(env: Env, ledgers: map<Uuid, Ledger>, cmd: ImportCommand, plan: ImportPlan, ids: FreshIds)
    requires CheckImport(env, ledgers, cmd) == Go(plan)
    ensures LengthHolds(env.catalog, ImportedLedger(env, cmd, plan, ids))
  {
    hide CheckImport, LengthHolds;
    ImportPlanFacts(env, ledgers, cmd, plan);
    NewLengthHolds(env.catalog, ImportedLedger(env, cmd, plan, ids), plan.node);
  }

  lemma RevisedLength(env: Env, cmd: ReviseCommand, plan: RevisePlan, ids: FreshIds)
    requires LengthHolds(env.catalog, plan.ledger)
    ensures LengthHolds(env.catalog, Append(plan.ledger, ReviseEntry(env, cmd, plan, ids)))
  {
    hide LengthHolds;
    StayKeepsLength(env.catalog, plan.ledger, ReviseEntry(env, cmd, plan, ids));
  }

  lemma OverriddenLength(env: Env, cmd: OverrideCommand, plan: OverridePlan, ids: FreshIds)
    ensures forall l :: LengthHolds(env.catalog, Append(l, OverrideEntry(env, cmd, plan, ids)))
  {
    hide LengthHolds, MaxVisitNumber;
    forall l ensures LengthHolds(env.catalog, Append(l, OverrideEntry(env, cmd, plan, ids))) {
      OverrideKeepsLength(env.catalog, l, OverrideEntry(env, cmd, plan, ids));
    }
  }

  lemma ActionKeepsLength(catalog: Catalog, st: DbState, a: Action)
    requires KeyedCatalog(catalog) && Inv(catalog, st) && AllLengthsHold(catalog, st)
    ensures AllLengthsHold(catalog, Next(catalog, st, a))
  {
    hide Inv, KeyedCatalog, Decide, WriteFits, ApplyWrite, Answer, FindReceipt, FindCommand, Precheck, StatusCode,
         FailureBodyOf, LengthHolds;
    if a.Command? {
      var env := Env(catalog, st.directory);
      var decision := Decide(env, st, a.request.call, a.ids);
      if decision.Go? && WriteFits(st.ledgers, decision.value.write) {
        DecisionKeepsLength(env, st, a.request.call, a.ids, decision.value);
      }
    }
  }

  lemma {:induction false} RunKeepsLength(catalog: Catalog, run: seq<DbState>, actions: seq<Action>, i: nat)
    requires KeyedCatalog(catalog) && IsRun(catalog, run, actions) && i < |run|
    ensures AllLengthsHold(catalog, run[i])
  {
    hide Next, KeyedCatalog, Inv, LengthHolds;
    if i > 0 {
      RunKeepsLength(catalog, run, actions, i - 1);
      RunKeepsInv(catalog, run, actions, i - 1);
      ActionKeepsLength(catalog, run[i - 1], actions[i - 1]);
    }
  }

  /**
   Run length: in every state of every run, an instance of a validated definition that was never
   overridden and has made `k` returns has made fewer than `(k + 1) * |nodes|` transitions.
   */
  lemma RunLengthBound(catalog: Catalog, run: seq<DbState>, actions: seq<Action>, i: nat, id: Uuid)
    requires KeyedCatalog(catalog) && IsRun(catalog, run, actions) && i < |run| && id in run[i].ledgers
    requires !Overridden(run[i].ledgers[id].events)
    requires Validated(GraphOf(catalog, run[i].ledgers[id].instance.definitionVersionId))
    ensures var l := run[i].ledgers[id];
      TransitionCount(l.events)
      < (ReturnCount(l.events) + 1) * |GraphOf(catalog, l.instance.definitionVersionId).nodes|
  {
    hide KeyedCatalog, IsRun, Validated, Rank, CurrentVisit, NodeOf, GraphOf;
    var l := run[i].ledgers[id];
    var g := GraphOf(catalog, l.instance.definitionVersionId);
    RunKeepsLength(catalog, run, actions, i);
    assert LengthHolds(catalog, l);
    var n := NodeOf(catalog, l.instance.definitionVersionId, CurrentVisit(l).value.nodeId).value;
    RankBelowSize(g.nodes, n);
    assert (ReturnCount(l.events) + 1) * |g.nodes| == ReturnCount(l.events) * |g.nodes| + |g.nodes|;
  }
}
