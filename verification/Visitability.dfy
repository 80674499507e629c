/**
 Which nodes an instance can visit. The validator follows every transition from DRAFT; the runtime takes
 an ADVANCE only if it is the primary of its source. Without overrides an instance visits exactly what
 is reached along the transitions that the runtime takes.
 */
module Visitability {
  import opened Prelude
  import opened DefinitionModel
  import opened GraphReachability
  import opened GraphRules
  import opened GraphProgress
  import opened RuntimeModel
  import opened KernelState
  import opened EventReplay
  import opened Snapshot
  import opened Commands
  import opened Pipeline
  import opened Agreement
  import opened WriterAgreement
  import opened ReplayMeaning
  import opened KernelRuns
  import opened RunLength

  // ----- Executable transitions -----

  /** The runtime takes every RETURN and TERMINATE, and an ADVANCE that is the primary of its source. */
  predicate IsExecutable(nodes: seq<NodeDefinition>, t: TransitionDefinition) {
    t.transitionEffect.ADVANCE? ==>
      exists n :: n in nodes && n.nodeId == t.sourceNodeId && n.primaryAdvanceTransitionId == Some(t.transitionId)
  }

  function ExecutableOf(nodes: seq<NodeDefinition>, transitions: seq<TransitionDefinition>): (r: seq<TransitionDefinition>)
    ensures forall t :: t in r <==> t in transitions && IsExecutable(nodes, t)
  {
    if transitions == [] then []
    else
      var last := transitions[|transitions| - 1];
      ExecutableOf(nodes, transitions[..|transitions| - 1]) + if IsExecutable(nodes, last) then [last] else []
  }

  function Executable(g: WorkflowGraph): seq<TransitionDefinition> {
    ExecutableOf(g.nodes, g.transitions)
  }

  // ----- Visits stay on executable paths -----

  predicate WasCreated(l: Ledger) {
    l.events != [] && l.events[0].eventType.INSTANCE_CREATED?
  }

  /** The node of the first visit is the definition's DRAFT node. */
  predicate StartsAtDraft(g: WorkflowGraph, l: Ledger) {
    FirstDraft(g.nodes).Some? && l.visits != [] && l.visits[0].nodeId == FirstDraft(g.nodes).value.nodeId
  }

  ghost predicate PathsHold(catalog: Catalog, l: Ledger) {
    var g := GraphOf(catalog, l.instance.definitionVersionId);
    && l.visits != [] && l.events != []
    && (WasCreated(l) ==> StartsAtDraft(g, l))
    && (!Overridden(l.events) ==>
          forall v :: v in l.visits ==> Reaches(Executable(g), l.visits[0].nodeId, v.nodeId))
  }

  ghost predicate AllPathsHold(catalog: Catalog, st: DbState) {
    forall id :: id in st.ledgers ==> PathsHold(catalog, st.ledgers[id])
  }

  lemma NewPathsHold(catalog: Catalog, l: Ledger)
    requires |l.events| == |l.visits| == 1
    requires WasCreated(l) ==> StartsAtDraft(GraphOf(catalog, l.instance.definitionVersionId), l)
    ensures PathsHold(catalog, l)
  {
    ReachesSelf(Executable(GraphOf(catalog, l.instance.definitionVersionId)), l.visits[0].nodeId);
  }

  /** An executed transition is executable. */
  lemma MoveIsExecutable(g: WorkflowGraph, source: NodeDefinition, t: TransitionDefinition, target: NodeDefinition)
    requires source in g.nodes && t in g.transitions && RuntimeChecked(source, t, target)
    ensures t in Executable(g) && Edge(Executable(g), source.nodeId, target.nodeId)
  {
    assert IsExecutable(g.nodes, t);
  }

  lemma MoveKeepsPaths(catalog: Catalog, l: Ledger, e: Entry, source: NodeDefinition, t: TransitionDefinition,
                       target: NodeDefinition)
    requires PathsHold(catalog, l) && Moves(catalog, l, e, source, t, target)
    ensures PathsHold(catalog, Append(l, e))
  {
    hide NodeOf, TransitionOf, RuntimeChecked, GraphOf, Executable, Reaches, Edge, VisitsById;
    var g := GraphOf(catalog, l.instance.definitionVersionId);
    CountsSnoc(l.events, e.event);
    assert CurrentVisit(l).value in l.visits;
    MoveIsExecutable(g, source, t, target);
    if !Overridden(Append(l, e).events) {
      ReachesStep(Executable(g), l.visits[0].nodeId, source.nodeId, target.nodeId);
    }
  }

  /** An entry without a new visit, or one that overrides. */
  lemma OtherEntryKeepsPaths(catalog: Catalog, l: Ledger, e: Entry)
    requires PathsHold(catalog, l) && (e.visit.None? || IsOverride(e.event))
    ensures PathsHold(catalog, Append(l, e))
  {
    hide GraphOf, Executable, Reaches;
    CountsSnoc(l.events, e.event);
  }

  lemma CreatedPaths(env: Env, cmd: CreateCommand, plan: CreatePlan, ids: FreshIds)
    requires CheckCreate(env, cmd) == Go(plan)
    ensures PathsHold(env.catalog, CreatedLedger(env, cmd, plan, ids))
  {
    hide CheckCreate, PathsHold;
    CreatePlanFacts(env, cmd, plan);
    NewPathsHold(env.catalog, CreatedLedger(env, cmd, plan, ids));
  }

  lemma ImportedPaths(env: Env, cmd: ImportCommand, plan: ImportPlan, ids: FreshIds)
    ensures PathsHold(env.catalog, ImportedLedger(env, cmd, plan, ids))
  {
    hide PathsHold;
    NewPathsHold(env.catalog, ImportedLedger(env, cmd, plan, ids));
  }

  lemma DecisionKeepsPaths(env: Env, st: DbState, call: Call, ids: FreshIds, plan: Plan)
    requires Inv(env.catalog, st) && AllPathsHold(env.catalog, st)
    requires Decide(env, st, call, ids) == Go(plan) && WriteFits(st.ledgers, plan.write)
    ensures AllPathsHold(env.catalog, st.(ledgers := ApplyWrite(st.ledgers, plan.write)))
  {
    hide Inv, PathsHold, CheckCreate, CheckImport, CheckRevise, CheckTransition, CheckCombined, CheckOverride, CheckRebuild,
         Moves, Coherent, CreatedLedger, ImportedLedger, TransitionEntry, CombinedEntry, EntryInsertable, LedgerInsertable,
         Append, MaxVisitNumber;
    match call
    case Create(c) => CreatedPaths(env, c, CheckCreate(env, c).value, ids);
    case Import(c) => ImportedPaths(env, c, CheckImport(env, st.ledgers, c).value, ids);
    case Revise(c) =>
      var checked := CheckRevise(env, st.ledgers, c).value;
      OtherEntryKeepsPaths(env.catalog, st.ledgers[c.workflowInstanceId], ReviseEntry(env, c, checked, ids));
    case Transition(c) =>
      var checked := CheckTransition(env, st.ledgers, c).value;
      TransitionPlanFacts(env, st.ledgers, c, checked);
      CoherentAt(env.catalog, st, c.workflowInstanceId);
      TransitionMoves(env, st.ledgers, c, checked, ids);
      MoveKeepsPaths(env.catalog, checked.ledger, TransitionEntry(env, c, checked, ids), checked.source, checked.transition,
                     checked.target);
    case Combined(c) =>
      var checked := CheckCombined(env, st.ledgers, c).value;
      CombinedPlanFacts(env, st.ledgers, c, checked);
      CoherentAt(env.catalog, st, c.workflowInstanceId);
      CombinedMoves(env, st.ledgers, c, checked, ids);
      MoveKeepsPaths(env.catalog, checked.ledger, CombinedEntry(env, c, checked, ids),
                     NodeOf(env.catalog, checked.ledger.instance.definitionVersionId, checked.visit.nodeId).value,
                     checked.transition, checked.target);
    case Override(c) =>
      OtherEntryKeepsPaths(env.catalog, st.ledgers[c.workflowInstanceId],
                           OverrideEntry(env, c, CheckOverride(env, st, c).value, ids));
    case Rebuild(c) => RebuildChangesNothing(env, st, c, ids, plan);
  }

  lemma ActionKeepsPaths(catalog: Catalog, st: DbState, a: Action)
    requires Inv(catalog, st) && AllPathsHold(catalog, st)
    ensures AllPathsHold(catalog, Next(catalog, st, a))
  {
    hide Inv, Decide, WriteFits, ApplyWrite, Answer, FindReceipt, FindCommand, Precheck, StatusCode, FailureBodyOf, PathsHold;
    if a.Command? {
      var env := Env(catalog, st.directory);
      var decision := Decide(env, st, a.request.call, a.ids);
      if decision.Go? && WriteFits(st.ledgers, decision.value.write) {
        DecisionKeepsPaths(env, st, a.request.call, a.ids, decision.value);
      }
    }
  }

  lemma {:induction false} RunKeepsPaths(catalog: Catalog, run: seq<DbState>, actions: seq<Action>, i: nat)
    requires KeyedCatalog(catalog) && IsRun(catalog, run, actions) && i < |run|
    ensures AllPathsHold(catalog, run[i])
  {
    hide Next, KeyedCatalog, Inv, PathsHold;
    if i > 0 {
      RunKeepsPaths(catalog, run, actions, i - 1);
      RunKeepsInv(catalog, run, actions, i - 1);
      ActionKeepsPaths(catalog, run[i - 1], actions[i - 1]);
    }
  }

  /**
   In every state of every run, every visit of an instance that was never overridden is at a node that
   executable transitions reach from the node of its first visit; a created instance starts at DRAFT.
   The definition need not even be validated.
   */
  lemma VisitsFollowExecutablePaths(catalog: Catalog, run: seq<DbState>, actions: seq<Action>, i: nat, id: Uuid, v: VisitFact)
    requires KeyedCatalog(catalog) && IsRun(catalog, run, actions) && i < |run|
    ensures id in run[i].ledgers && v in run[i].ledgers[id].visits && !Overridden(run[i].ledgers[id].events) ==>
              var l := run[i].ledgers[id];
              var g := GraphOf(catalog, l.instance.definitionVersionId);
              && Reaches(Executable(g), l.visits[0].nodeId, v.nodeId)
              && (WasCreated(l) ==> StartsAtDraft(g, l))
  {
    hide KeyedCatalog, IsRun, GraphOf, Executable, Reaches;
    RunKeepsPaths(catalog, run, actions, i);
    if id in run[i].ledgers {
      assert PathsHold(catalog, run[i].ledgers[id]);
    }
  }

  // ----- A node that no instance visits -----

  lemma ShortcutStart()
    ensures FirstDraft(SHORTCUT.nodes).Some? && FirstDraft(SHORTCUT.nodes).value.nodeId == 1 && HasNode(SHORTCUT, 2)
  {
    var n, drafts := SHORTCUT.nodes, OfType(SHORTCUT.nodes, DRAFT);
    assert n[0] in n && n[1] in n;
    assert n[0] in drafts && drafts[0] in drafts;
  }

  lemma ShortcutEdges(t: TransitionDefinition)
    requires t in Executable(SHORTCUT)
    ensures t.targetNodeId == 3
  {
    var n := SHORTCUT_NODES;
    assert forall m :: m in n ==> m == n[0] || m == n[1] || m == n[2];
    assert !IsExecutable(n, SHORTCUT_TRANSITIONS[1]);
  }

  lemma ShortcutIsNotExecutable()
    ensures !Reaches(Executable(SHORTCUT), 1, 2)
  {
    if Reaches(Executable(SHORTCUT), 1, 2) {
      hide Executable;
      var path :| IsPath(Executable(SHORTCUT), path) && path[0] == 1 && path[|path| - 1] == 2;
      forall t | t in Executable(SHORTCUT) ensures t.targetNodeId == 3 {
        ShortcutEdges(t);
      }
      ClosedSetHoldsPaths(Executable(SHORTCUT), {1, 3}, path);
    }
  }

  /**
   Acceptance does not promise visits: a storable graph that the validator accepts, and a node of it that
   no created instance visits in any run without an override.
   */
  lemma AcceptedNodeNeverVisited(catalog: Catalog, run: seq<DbState>, actions: seq<Action>, i: nat, id: Uuid)
    requires KeyedCatalog(catalog) && IsRun(catalog, run, actions) && i < |run|
    ensures UniqueRows(SHORTCUT) && ResolvingReferences(SHORTCUT) && Accepts(SHORTCUT) && HasNode(SHORTCUT, 2)
    ensures id in run[i].ledgers && GraphOf(catalog, run[i].ledgers[id].instance.definitionVersionId) == SHORTCUT
            && WasCreated(run[i].ledgers[id]) && !Overridden(run[i].ledgers[id].events) ==>
              forall v :: v in run[i].ledgers[id].visits ==> v.nodeId != 2
  {
    hide KeyedCatalog, IsRun, GraphOf, Executable, Reaches, Accepts;
    ShortcutIsStorable();
    ShortcutIsAccepted();
    ShortcutStart();
    ShortcutIsNotExecutable();
    if id in run[i].ledgers && GraphOf(catalog, run[i].ledgers[id].instance.definitionVersionId) == SHORTCUT
       && WasCreated(run[i].ledgers[id]) && !Overridden(run[i].ledgers[id].events) {
      forall v | v in run[i].ledgers[id].visits ensures v.nodeId != 2 {
        VisitsFollowExecutablePaths(catalog, run, actions, i, id, v);
      }
    }
  }
}
