/**
 Where two parts of the code disagree, as general statements and as runs of one small catalog: the query
 against the runtime when a creator is disabled, and a stored failure against its replay.
 */
module Divergences {
  import opened Prelude
  import opened DefinitionModel
  import opened GraphReachability
  import opened GraphRules
  import opened GraphProgress
  import opened RuntimeModel
  import opened KernelState
  import opened EventReplay
  import opened Snapshot
  import opened Commands
  import opened Pipeline
  import opened Agreement
  import opened WriterAgreement
  import opened ReplayMeaning
  import opened QueryConsistency
  import opened KernelRuns
  import opened ReadSide
  import opened Availability
  import opened RunLength
  import opened Idempotency
  import opened Concurrency
  import opened Fusion
  import opened Commits
  import opened Authority
  import opened Rules
  import opened Resolution
  import opened Admission
  import opened Effects
  import opened Visitability
  import opened Walks

  // ----- The query blocks, the runtime executes -----

  /** The detail query shows the transition as blocked for its target's assignee. */
  predicate ShownAsUnavailable(env: Env, l: Ledger, actor: Uuid, t: TransitionDefinition) {
    var outgoing := OutgoingOf(env, l, GraphOf(env.catalog, l.instance.definitionVersionId).transitions, actor);
    && outgoing.Ok?
    && exists item :: item in outgoing.value && item.transition == t && item.blocked == Some(TargetAssigneeIsUnavailable)
  }

  /** The creator is disabled, and the current assignee may take `t` to a node of the creator. */
  ghost predicate CreatorLeft(catalog: Catalog, st: DbState, id: Uuid, t: TransitionDefinition) {
    && id in st.ledgers
    && var l := st.ledgers[id];
    && var version, target := l.instance.definitionVersionId, NodeOf(catalog, l.instance.definitionVersionId, t.targetNodeId);
    && Validated(GraphOf(catalog, version)) && t in Executable(GraphOf(catalog, version))
    && version in st.directory.versionStatus && IsLiveVersion(st.directory, version)
    && StandsAt(st, id, t.sourceNodeId)
    && target.Some? && FallsToDisabledCreator(Env(catalog, st.directory), l.instance, target.value)
  }

  /**
   In every state of every run: when a transition leads to a node of a disabled creator, the query shows
   it to the current assignee as blocked, and the runtime takes the assignee's command.
   */
  lemma OnlyTheQueryBlocks(catalog: Catalog, run: seq<DbState>, actions: seq<Action>, i: nat, id: Uuid, t: TransitionDefinition,
                           payload: Option<Json>)
    requires KeyedCatalog(catalog) && IsRun(catalog, run, actions) && i < |run|
    ensures CreatorLeft(catalog, run[i], id, t) && IsLawfulSubmission(catalog, run[i].ledgers[id], t, payload) ==>
              var env, l := Env(catalog, run[i].directory), run[i].ledgers[id];
              && CurrentVisit(l).Some? && CurrentVisit(l).value.assigneePrincipalId.Some?
              && var actor := CurrentVisit(l).value.assigneePrincipalId.value;
              && ShownAsUnavailable(env, l, actor, t)
              && CheckTransition(env, run[i].ledgers, CommandFor(l, actor, t, payload)).Go?
  {
    hide KeyedCatalog, IsRun, Inv, Validated, GraphOf, NodeOf, CheckTransition, IsLawfulSubmission, Coherent,
         CurrentVisit, LinkageHolds, UniqueIds, ExecutableOf, LegalAssignee, BindingsOf;
    if !(CreatorLeft(catalog, run[i], id, t) && IsLawfulSubmission(catalog, run[i].ledgers[id], t, payload)) {
      return;
    }
    var env, l := Env(catalog, run[i].directory), run[i].ledgers[id];
    var version, st := l.instance.definitionVersionId, run[i];
    RunKeepsInv(catalog, run, actions, i);
    CoherentAt(catalog, st, id);
    StandingExists(catalog, st, id);
    var s := StandingOf(env, l).value;
    CoherentStanding(env, l, s);
    var target := NodeOf(catalog, version, t.targetNodeId).value;
    ValidatedEnds(GraphOf(catalog, version), s.node, t, target);
    var actor := CurrentVisit(l).value.assigneePrincipalId.value;
    TakenIffExecutable(catalog, run, actions, i, id, actor, t, payload);
    CreatorTargetIsShown(env, l, s, t, target, actor);
  }

  lemma CreatorTargetIsShown(env: Env, l: Ledger, s: Standing, t: TransitionDefinition, target: NodeDefinition, actor: Uuid)
    requires Validated(GraphOf(env.catalog, l.instance.definitionVersionId)) && Offers(env, l, s, t, target)
    requires t in Executable(GraphOf(env.catalog, l.instance.definitionVersionId))
    requires s.node in GraphOf(env.catalog, l.instance.definitionVersionId).nodes && !s.node.nodeType.TERMINAL?
    requires !s.status.Revoked? && !s.status.Draft? && s.visit.assigneePrincipalId == Some(actor)
    requires FallsToDisabledCreator(env, l.instance, target)
    ensures ShownAsUnavailable(env, l, actor, t)
  {
    hide Accepts, GraphOf, NodeOf, StandingOf, ExecutableOf, Active, BindingsOf;
    var g := GraphOf(env.catalog, l.instance.definitionVersionId);
    forall u | u in g.transitions
      ensures var to := NodeOf(env.catalog, l.instance.definitionVersionId, u.targetNodeId);
        to.Some? && ExpectedAssignee(env, l.instance, to.value).Ok?
    {
      RowsResolve(env, l, u);
    }
    ItemsAreOffers(env, l, s, g.transitions, actor);
    forall n | n in g.nodes && n.nodeId == s.node.nodeId ensures n == s.node {
      SameNode(g.nodes, n, s.node);
    }
    var item := ItemFor(env, l, s, t, actor);
    assert item.transition == t && item.blocked == Some(TargetAssigneeIsUnavailable);
  }

  // ----- A catalog -----

  const NODES: seq<NodeDefinition> := [
    NodeDefinition(1, "a", "", 1, DRAFT, Some(AssigneeRef(WORKFLOW_CREATOR, None)), None, Some(10), None),
    NodeDefinition(2, "b", "", 2, NORMAL, Some(AssigneeRef(FIXED_PRINCIPAL, Some(2))), None, Some(20), None),
    NodeDefinition(3, "c", "", 3, TERMINAL, None, None, None, None)]

  const FORTH: TransitionDefinition := TransitionDefinition(10, "a", "", 1, 2, ADVANCE, None, None)
  const DONE: TransitionDefinition := TransitionDefinition(20, "b", "", 2, 3, ADVANCE, None, None)
  const BACK: TransitionDefinition := TransitionDefinition(21, "c", "", 2, 1, RETURN, None, None)

  /** A draft of the creator, an approval by principal 2, and an end; the approver can return it. */
  const GRAPH: WorkflowGraph := WorkflowGraph(NODES, [FORTH, DONE, BACK], None)

  const CATALOG: Catalog := Catalog(map[100 := VersionEntry(7, None, GRAPH)], map[], map[], (schema, value) => true, value => 0)

  const ENABLED: Directory :=
    Directory(map[100 := Published], map[1 := true, 2 := true], map[7 := true], map[7 := [Binding(1, OTHER_ROLE, true)]])

  const CREATION: CreateCommand := CreateCommand(1, 7, 100, Null, Null, None)

  lemma GraphIsLegal()
    ensures forall n :: n in GRAPH.nodes ==> LegalAssignee(n) && LegalPrimary(GRAPH, n)
    ensures forall t :: t in GRAPH.transitions ==> LegalTransition(GRAPH, t)
  {
    var n, t := NODES, GRAPH.transitions;
    assert n[0] in n && n[1] in n && n[2] in n && t[0] in t && t[1] in t;
    assert IsPrimaryStep(n[0], FORTH, n[1]) && IsPrimaryStep(n[1], DONE, n[2]);
    assert IsPrimaryEdge(t, n[0], n[1]) && IsPrimaryEdge(t, n[1], n[2]);
    assert LegalEndpoints(FORTH, n[0], n[1]) && LegalEndpoints(DONE, n[1], n[2]) && LegalEndpoints(BACK, n[1], n[0]);
  }

  lemma GraphIsReachable()
    ensures forall n :: n in GRAPH.nodes ==> Reaches(GRAPH.transitions, 1, n.nodeId)
  {
    var t := GRAPH.transitions;
    ReachesSelf(t, 1);
    assert t[0] in t && t[1] in t;
    ReachesStep(t, 1, 1, 2);
    ReachesStep(t, 1, 2, 3);
  }

  lemma GraphIsValidated()
    ensures Validated(GRAPH) && |GRAPH.nodes| == 3
  {
    hide Reaches, LegalAssignee, LegalPrimary, LegalTransition, Accepts;
    GraphIsReachable();
    GraphIsLegal();
    assert NODES[0] in GRAPH.nodes && NODES[2] in GRAPH.nodes;
    assert IsOnlyDraft(GRAPH.nodes, NODES[0]);
    AcceptsIffWellFormed(GRAPH);
  }

  lemma CatalogIsOperable()
    ensures KeyedCatalog(CATALOG) && Operable(CATALOG, ENABLED, CREATION)
  {
    GraphIsValidated();
    hide Accepts;
    assert GraphOf(CATALOG, 100) == GRAPH;
    assert Binding(1, OTHER_ROLE, true) in BindingsOf(ENABLED, 7);
  }

  lemma GraphIsExecutable()
    ensures FORTH in Executable(GRAPH) && BACK in Executable(GRAPH) && IsPath(Executable(GRAPH), [1, 2])
    ensures FirstDraft(GRAPH.nodes) == Some(NODES[0])
  {
    assert NODES[0] in GRAPH.nodes;
    assert GRAPH.transitions[0] == FORTH && GRAPH.transitions[2] == BACK;
    assert Edge(Executable(GRAPH), 1, 2);
    var drafts := OfType(GRAPH.nodes, DRAFT);
    assert NODES[0] in drafts && drafts[0] in drafts;
  }

  // ----- Runs -----

  /** A run that creates an instance and moves it along a path of executable transitions. */
  lemma RunAlong(catalog: Catalog, d: Directory, cmd: CreateCommand, path: seq<Uuid>)
    returns (run: seq<DbState>, actions: seq<Action>, id: Uuid)
    requires KeyedCatalog(catalog) && Operable(catalog, d, cmd)
    requires var g := GraphOf(catalog, cmd.definitionVersionId);
      && IsPath(Executable(g), path) && |path| <= I32_MAX
      && FirstDraft(g.nodes).Some? && path[0] == FirstDraft(g.nodes).value.nodeId
    ensures IsRun(catalog, run, actions) && StandsAt(Last(run), id, path[|path| - 1]) && Last(run).directory == d
    ensures VersionOf(Last(run), id) == |path|
    ensures var row := Last(run).ledgers[id].instance;
      row.definitionVersionId == cmd.definitionVersionId && row.createdByPrincipalId == cmd.principalId
  {
    var run0, actions0;
    run0, actions0, id := CreatedRun(catalog, d, cmd);
    var edges := Executable(GraphOf(catalog, cmd.definitionVersionId));
    VisitsFollowExecutablePaths(catalog, run0, actions0, |run0| - 1, id, Last(run0).ledgers[id].visits[0]);
    hide KeyedCatalog, IsRun, CanMove, StandsAt, CurrentVisit, Executable, GraphOf, Overridden, IsPath, PayloadsFit, MayCreate,
         Staffed;
    run, actions := Walk(catalog, run0, actions0, id, edges, path);
  }

  /** The runtime executes some request for the actor's command. */
  ghost predicate IsTaken(catalog: Catalog, st: DbState, cmd: TransitionCommand) {
    exists r: Request, ids: FreshIds :: r.call == Transition(cmd) && Execute(catalog, st, r, ids).1.Executed?
  }

  lemma PassedIsTaken(catalog: Catalog, run: seq<DbState>, actions: seq<Action>, cmd: TransitionCommand)
    requires KeyedCatalog(catalog) && IsRun(catalog, run, actions)
    requires var env := Env(catalog, Last(run).directory);
      && CheckTransition(env, Last(run).ledgers, cmd).Go? && Active(env.directory, cmd.principalId)
      && VersionOf(Last(run), cmd.workflowInstanceId) < I32_MAX
    ensures IsTaken(catalog, Last(run), cmd)
  {
    var st := Last(run);
    hide KeyedCatalog, IsRun, CheckTransition, Active, Execute, Decide, Precheck, Unused, RowIdsUnused, TransitionEntry, Last;
    var r, ids := UnusedRequest(st, Transition(cmd));
    PassedTransitionDecides(Env(catalog, st.directory), st, cmd, ids);
    PassedChecksCommit(catalog, run, actions, |run| - 1, r, ids);
  }

  /** A visit at a node of a fixed principal is assigned to that principal. */
  lemma FixedAssignee(catalog: Catalog, run: seq<DbState>, actions: seq<Action>, id: Uuid, n: NodeDefinition, approver: Uuid)
    requires KeyedCatalog(catalog) && IsRun(catalog, run, actions) && StandsAt(Last(run), id, n.nodeId)
    requires NodeOf(catalog, Last(run).ledgers[id].instance.definitionVersionId, n.nodeId) == Some(n)
    requires !n.nodeType.TERMINAL? && n.assigneeRef == Some(AssigneeRef(FIXED_PRINCIPAL, Some(approver)))
    ensures CurrentVisit(Last(run).ledgers[id]).value.assigneePrincipalId == Some(approver)
  {
    EveryFactIsRightful(catalog, run, actions, |run| - 1);
    hide IsRun, KeyedCatalog, IsRightful, OmitsLawfully, ContextConforms, SubmissionConforms, NodeOf, Active, VisitsById;
    var l := Last(run).ledgers[id];
    assert Rightful(catalog, l) && CurrentVisit(l).value in l.visits;
    assert VisitAssigned(catalog, l.instance, CurrentVisit(l).value);
  }

  /** `t` leads from a node of the approver to a node of the creator, in the version of the row. */
  ghost predicate IsApprovalReturn(catalog: Catalog, row: InstanceRow, t: TransitionDefinition, source: NodeDefinition,
                                 target: NodeDefinition, approver: Uuid)
  {
    var version := row.definitionVersionId;
    && Validated(GraphOf(catalog, version)) && t in Executable(GraphOf(catalog, version)) && t.submissionSchema.None?
    && NodeOf(catalog, version, t.sourceNodeId) == Some(source) && NodeOf(catalog, version, t.targetNodeId) == Some(target)
    && !source.nodeType.TERMINAL? && source.assigneeRef == Some(AssigneeRef(FIXED_PRINCIPAL, Some(approver)))
    && !target.nodeType.TERMINAL? && target.assigneeRef.Some? && target.assigneeRef.value.refType.WORKFLOW_CREATOR?
    && approver != row.createdByPrincipalId
  }

  /** The directory with the principal disabled. */
  function Without(d: Directory, principalId: Uuid): Directory {
    d.(principals := d.principals[principalId := false])
  }

  lemma CreatorLeaves(catalog: Catalog, st: DbState, id: Uuid, t: TransitionDefinition, source: NodeDefinition,
                      target: NodeDefinition, approver: Uuid)
    requires StandsAt(st, id, t.sourceNodeId)
    requires CurrentVisit(st.ledgers[id]).value.assigneePrincipalId == Some(approver)
    requires CurrentVisit(st.ledgers[id]).value.nodeType.TERMINAL? || Active(st.directory, approver)
    requires var row := st.ledgers[id].instance;
      IsApprovalReturn(catalog, row, t, source, target, approver) && IsLiveVersion(st.directory, row.definitionVersionId)
    ensures CreatorLeft(catalog, st.(directory := Without(st.directory, st.ledgers[id].instance.createdByPrincipalId)), id, t)
  {
    hide Executable, Validated, NodeOf, GraphOf, CurrentVisit;
  }

  /** The query blocks the transition for its assignee, and the runtime executes the assignee's command. */
  ghost predicate BlockedYetTaken(catalog: Catalog, st: DbState, id: Uuid, t: TransitionDefinition, actor: Uuid) {
    && id in st.ledgers
    && ShownAsUnavailable(Env(catalog, st.directory), st.ledgers[id], actor, t)
    && IsTaken(catalog, st, CommandFor(st.ledgers[id], actor, t, None))
  }

  lemma LeftIsBlockedYetTaken(catalog: Catalog, run: seq<DbState>, actions: seq<Action>, id: Uuid, t: TransitionDefinition)
    requires KeyedCatalog(catalog) && IsRun(catalog, run, actions) && CreatorLeft(catalog, Last(run), id, t)
    requires t.submissionSchema.None? && VersionOf(Last(run), id) < I32_MAX
    ensures CurrentVisit(Last(run).ledgers[id]).value.assigneePrincipalId.Some?
    ensures BlockedYetTaken(catalog, Last(run), id, t, CurrentVisit(Last(run).ledgers[id]).value.assigneePrincipalId.value)
  {
    var l := Last(run).ledgers[id];
    OnlyTheQueryBlocks(catalog, run, actions, |run| - 1, id, t, None);
    AssigneeIsActive(catalog, run, actions, id, t);
    RunKeepsInv(catalog, run, actions, |run| - 1);
    hide IsRun, KeyedCatalog, Executable, Validated, NodeOf, GraphOf, CurrentVisit, CheckTransition, ShownAsUnavailable,
         IsTaken, FallsToDisabledCreator, LedgerInv, IsLawfulSubmission, IsLiveVersion, Active;
    assert LedgerInv(catalog, Last(run).receipts, id, l);
    PassedIsTaken(catalog, run, actions, CommandFor(l, CurrentVisit(l).value.assigneePrincipalId.value, t, None));
  }

  lemma AssigneeIsActive(catalog: Catalog, run: seq<DbState>, actions: seq<Action>, id: Uuid, t: TransitionDefinition)
    requires KeyedCatalog(catalog) && IsRun(catalog, run, actions) && CreatorLeft(catalog, Last(run), id, t)
    ensures var assignee := CurrentVisit(Last(run).ledgers[id]).value.assigneePrincipalId;
      assignee.Some? && Active(Last(run).directory, assignee.value)
  {
    RunKeepsInv(catalog, run, actions, |run| - 1);
    hide IsRun, KeyedCatalog, Inv, CreatorLeft, CurrentVisit, Active;
    LeftVisitIsOpen(catalog, Last(run), id, t);
  }

  lemma LeftVisitIsOpen(catalog: Catalog, st: DbState, id: Uuid, t: TransitionDefinition)
    requires Inv(catalog, st) && CreatorLeft(catalog, st, id, t)
    ensures var assignee := CurrentVisit(st.ledgers[id]).value.assigneePrincipalId;
      assignee.Some? && Active(st.directory, assignee.value)
  {
    hide Inv, Accepts, GraphOf, CurrentVisit, Active, ExecutableOf, NodeOf, FallsToDisabledCreator, LinkageHolds, UniqueIds,
         Coherent, UniqueNodeIds, UniqueTransitionIds;
    var env, l := Env(catalog, st.directory), st.ledgers[id];
    CoherentAt(catalog, st, id);
    StandingExists(catalog, st, id);
    var s := StandingOf(env, l).value;
    CoherentStanding(env, l, s);
    ValidatedEnds(GraphOf(catalog, l.instance.definitionVersionId), s.node, t,
                  NodeOf(catalog, l.instance.definitionVersionId, t.targetNodeId).value);
  }

  /**
   Whenever the creator of an instance under approval is disabled, the query blocks the return to the
   creator, and the runtime executes it.
   */
  lemma ReturnIsBlockedYetTaken(catalog: Catalog, run: seq<DbState>, actions: seq<Action>, id: Uuid, t: TransitionDefinition,
                                source: NodeDefinition, target: NodeDefinition, approver: Uuid)
    returns (run': seq<DbState>, actions': seq<Action>)
    requires KeyedCatalog(catalog) && IsRun(catalog, run, actions) && StandsAt(Last(run), id, t.sourceNodeId)
    requires Active(Last(run).directory, approver) && VersionOf(Last(run), id) < I32_MAX
    requires var row := Last(run).ledgers[id].instance;
      IsApprovalReturn(catalog, row, t, source, target, approver) && IsLiveVersion(Last(run).directory, row.definitionVersionId)
    ensures IsRun(catalog, run', actions')
    ensures run' == run + [Last(run).(directory :=
                             Without(Last(run).directory, Last(run).ledgers[id].instance.createdByPrincipalId))]
    ensures BlockedYetTaken(catalog, Last(run'), id, t, approver)
  {
    assert run != [];
    hide IsRun, KeyedCatalog, NodeOf, GraphOf, CurrentVisit, CreatorLeft, BlockedYetTaken, Executable, Validated, Execute;
    var leave := ChangeDirectory(Without(Last(run).directory, Last(run).ledgers[id].instance.createdByPrincipalId));
    FixedAssignee(catalog, run, actions, id, source, approver);
    CreatorLeaves(catalog, Last(run), id, t, source, target, approver);
    ExtendedRun(catalog, run, actions, leave);
    hide StandsAt, Without, IsLiveVersion, Active;
    run', actions' := run + [Next(catalog, Last(run), leave)], actions + [leave];
    LeftIsBlockedYetTaken(catalog, run', actions', id, t);
  }

  lemma CatalogNodes()
    ensures GraphOf(CATALOG, 100) == GRAPH
    ensures NodeOf(CATALOG, 100, 1) == Some(NODES[0]) && NodeOf(CATALOG, 100, 2) == Some(NODES[1])
  {
    NodeIsItsLookup(NODES, NODES[0]);
    NodeIsItsLookup(NODES, NODES[1]);
  }

  lemma DirectoryAllows()
    ensures IsLiveVersion(ENABLED, 100) && Active(ENABLED, 2)
  {
  }

  lemma ApprovalCanBeReturned(row: InstanceRow)
    requires row.definitionVersionId == 100 && row.createdByPrincipalId == 1
    ensures IsApprovalReturn(CATALOG, row, BACK, NODES[1], NODES[0], 2)
  {
    CatalogNodes();
    GraphIsValidated();
    GraphIsExecutable();
    hide Executable, Validated, NodeOf, GraphOf;
  }

  /** A run that creates an instance of the catalog's definition by principal 1, and leaves it at the end of the path. */
  lemma ExampleRun(path: seq<Uuid>) returns (run: seq<DbState>, actions: seq<Action>, id: Uuid)
    requires path == [1] || path == [1, 2]
    ensures KeyedCatalog(CATALOG) && IsRun(CATALOG, run, actions) && run != [] && VersionOf(Last(run), id) == |path|
    ensures StandsAt(Last(run), id, path[|path| - 1]) && Last(run).directory == ENABLED
    ensures var row := Last(run).ledgers[id].instance; row.definitionVersionId == 100 && row.createdByPrincipalId == 1
  {
    CatalogNodes();
    CatalogIsOperable();
    GraphIsExecutable();
    assert IsPath(Executable(GRAPH), path);
    hide KeyedCatalog, Operable, IsRun, Executable, GraphOf, NodeOf, StandsAt, IsPath, FirstDraft, VersionOf;
    run, actions, id := RunAlong(CATALOG, ENABLED, CREATION, path);
  }

  /** Such a run exists: the instance was created by 1 and is under approval by 2. */
  lemma ReturnToDisabledCreator() returns (run: seq<DbState>, actions: seq<Action>, id: Uuid)
    ensures KeyedCatalog(CATALOG) && IsRun(CATALOG, run, actions) && BlockedYetTaken(CATALOG, Last(run), id, BACK, 2)
  {
    DirectoryAllows();
    hide KeyedCatalog, IsRun, Executable, GraphOf, NodeOf, IsApprovalReturn, StandsAt, IsLiveVersion, Active, BlockedYetTaken,
         Without;
    var run0, actions0;
    run0, actions0, id := ExampleRun([1, 2]);
    ApprovalCanBeReturned(Last(run0).ledgers[id].instance);
    run, actions := ReturnIsBlockedYetTaken(CATALOG, run0, actions0, id, BACK, NODES[1], NODES[0], 2);
  }

  // ----- A failure that is read back as another -----

  /** In this step the request's call returns `first`; when the next step repeats it, it returns `second`. */
  ghost predicate AnsweredTwice(catalog: Catalog, run: seq<DbState>, actions: seq<Action>, i: nat, first: CommandError,
                                second: CommandError)
    requires IsRun(catalog, run, actions) && i + 1 < |actions|
  {
    && actions[i].Command? && actions[i + 1] == actions[i]
    && var r, ids := actions[i].request, actions[i].ids;
    && PublicResult(r.call, Execute(catalog, run[i], r, ids).1) == Err(first)
    && PublicResult(r.call, Execute(catalog, run[i + 1], r, ids).1) == Err(second)
  }

  lemma ActTwice(catalog: Catalog, run: seq<DbState>, actions: seq<Action>, a: Action)
    returns (run': seq<DbState>, actions': seq<Action>)
    requires IsRun(catalog, run, actions)
    ensures IsRun(catalog, run', actions') && actions' == actions + [a, a] && run <= run'
    ensures run'[|actions|] == Last(run) && run'[|actions| + 1] == Next(catalog, Last(run), a)
  {
    hide Next;
    ExtendedRun(catalog, run, actions, a);
    run', actions' := run + [Next(catalog, Last(run), a)], actions + [a];
    ExtendedRun(catalog, run', actions', a);
    run', actions' := run' + [Next(catalog, Last(run'), a)], actions' + [a];
  }

  lemma PointersAtEnd(catalog: Catalog, run: seq<DbState>, actions: seq<Action>, id: Uuid)
    requires KeyedCatalog(catalog) && IsRun(catalog, run, actions) && id in Last(run).ledgers
    ensures HasPointers(Last(run).ledgers[id])
  {
    assert run != [];
    hide IsRun, KeyedCatalog, Inv;
    RunKeepsInv(catalog, run, actions, |run| - 1);
    PointersStand(catalog, Last(run), id);
  }

  /** The revision of an enabled principal who did not create the instance, sent twice. */
  lemma ForeignRevisionTwice(catalog: Catalog, run: seq<DbState>, actions: seq<Action>, c: ReviseCommand)
    returns (run': seq<DbState>, actions': seq<Action>)
    requires KeyedCatalog(catalog) && IsRun(catalog, run, actions) && c.workflowInstanceId in Last(run).ledgers
    requires c.principalId != Last(run).ledgers[c.workflowInstanceId].instance.createdByPrincipalId
    requires Precheck(Env(catalog, Last(run).directory), Revise(c)).None?
    ensures IsRun(catalog, run', actions') && |actions'| == |actions| + 2 && run <= run'
    ensures AnsweredTwice(catalog, run', actions', |actions|, PrincipalNotFound, StorageError(UnrecognisedFailure))
  {
    var st := Last(run);
    PointersAtEnd(catalog, run, actions, c.workflowInstanceId);
    hide IsRun, KeyedCatalog, Execute, Precheck, FreshEvent, FindCommand, Owned, PublicResult, RowIdsUnused, HasPointers, Decide;
    var r, ids := UnusedRequest(st, Revise(c));
    var a := Command(r, ids);
    run', actions' := ActTwice(catalog, run, actions, a);
    UnusedExecution(catalog, st, r, ids);
    RevisionByAnotherIsMisread(catalog, run', actions', |actions|, |actions| + 1);
  }

  /** Such a run exists: principal 2 revises what principal 1 created. */
  lemma ForeignRevisionIsMisread() returns (run: seq<DbState>, actions: seq<Action>, i: nat)
    ensures KeyedCatalog(CATALOG) && IsRun(CATALOG, run, actions) && i + 1 < |actions|
    ensures AnsweredTwice(CATALOG, run, actions, i, PrincipalNotFound, StorageError(UnrecognisedFailure))
  {
    var run0, actions0, id := ExampleRun([1]);
    i := |actions0|;
    var c := ReviseCommand(2, id, 1, Null);
    assert Precheck(Env(CATALOG, ENABLED), Revise(c)).None?;
    hide IsRun, KeyedCatalog, AnsweredTwice, Precheck;
    run, actions := ForeignRevisionTwice(CATALOG, run0, actions0, c);
  }
}
