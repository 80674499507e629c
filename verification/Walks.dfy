/**
 Runs that exist: an instance whose rules designate enabled principals can be moved along every path of
 executable transitions. So an open instance can always be closed, and a node can be visited exactly
 when executable transitions reach it from DRAFT.
 */
module Walks {
  import opened Prelude
  import opened DefinitionModel
  import opened GraphReachability
  import PrimaryTrunk
  import opened GraphRules
  import opened GraphProgress
  import opened RuntimeModel
  import opened KernelState
  import opened EventReplay
  import opened Snapshot
  import opened Commands
  import opened Pipeline
  import opened Agreement
  import opened WriterAgreement
  import opened ReplayMeaning
  import opened QueryConsistency
  import opened KernelRuns
  import opened ReadSide
  import opened Availability
  import opened RunLength
  import opened Idempotency
  import opened Concurrency
  import opened Fusion
  import opened Commits
  import opened Rules
  import opened Resolution
  import opened Visitability

  // ----- Unused ids and keys exist -----

  lemma {:induction false} SomethingAbove(s: set<int>) returns (x: int)
    ensures forall y :: y in s ==> y < x
    decreases s
  {
    x := 0;
    if s != {} {
      NonemptyHasElement(s);
      var y :| y in s;
      var z := SomethingAbove(s - {y});
      x := if y < z then z else y + 1;
      assert forall w :: w in s ==> w == y || w in s - {y};
    }
  }

  function UsedIds(st: DbState): set<int> {
    var m := st.ledgers;
    m.Keys
    + (set k, c | k in m && c in m[k].contexts :: c.contextRevisionId)
    + (set k, v | k in m && v in m[k].visits :: v.nodeVisitId)
    + (set k, s | k in m && s in m[k].submissions :: s.submissionId)
    + (set k, e | k in m && e in m[k].events :: e.eventId)
    + (set k, e | k in m && e in m[k].events && e.commandId.Some? :: e.commandId.value)
    + (set r | r in st.receipts :: r.commandId)
  }

  lemma UnusedIds(st: DbState) returns (ids: FreshIds)
    ensures RowIdsUnused(st.ledgers, ids) && FreshEvent(st.ledgers, ids) && FindCommand(st.receipts, ids.commandId).None?
  {
    var x := SomethingAbove(UsedIds(st));
    assert x !in UsedIds(st);
    ids := FreshIds(x, x, x, x, x, x);
    hide FindCommand;
    assert forall r :: r in st.receipts ==> r.commandId in UsedIds(st);
  }

  function LongestKey(receipts: seq<Receipt>): (n: nat)
    ensures forall r :: r in receipts && r.key.PlainKey? ==> |r.key.text| <= n
  {
    if receipts == [] then 0
    else
      var last, before := receipts[|receipts| - 1], LongestKey(receipts[..|receipts| - 1]);
      if last.key.PlainKey? && |last.key.text| > before then |last.key.text| else before
  }

  /** A request for a command that is not an import, under an unused key and with unused ids. */
  lemma UnusedRequest(st: DbState, call: Call) returns (r: Request, ids: FreshIds)
    requires !call.Import?
    ensures r.call == call && Unused(st, r, ids) && RowIdsUnused(st.ledgers, ids)
  {
    hide RowIdsUnused, FreshEvent, FindCommand;
    ids := UnusedIds(st);
    r := Request(call, seq(LongestKey(st.receipts) + 1, _ => 'k'), 0);
    assert FindReceipt(st.receipts, PrincipalOf(call), KeyOf(r)).None?;
  }

  // ----- One step -----

  /** The version can be used, and each rule of its graph designates an enabled principal. */
  predicate Staffed(catalog: Catalog, d: Directory, versionId: Uuid, creatorId: Uuid, domainId: Uuid) {
    && versionId in d.versionStatus && !d.versionStatus[versionId].Revoked? && !d.versionStatus[versionId].Draft?
    && forall n :: n in GraphOf(catalog, versionId).nodes ==> n.nodeType.TERMINAL? || IsStaffed(d, n, creatorId, domainId)
  }

  predicate IsStaffed(d: Directory, n: NodeDefinition, creatorId: Uuid, domainId: Uuid) {
    && Resolves(d, n.assigneeRef, domainId)
    && (n.assigneeRef.value.refType.WORKFLOW_CREATOR? ==> Active(d, creatorId))
  }

  /** Some submission satisfies the transition: none at all, or a small one that conforms, with references for a RETURN. */
  ghost predicate Feedable(catalog: Catalog, t: TransitionDefinition) {
    || t.submissionSchema.None?
    || forall visitId :: IsFed(catalog, t, visitId)
  }

  ghost predicate IsFed(catalog: Catalog, t: TransitionDefinition, visitId: Uuid) {
    exists payload :: Feeds(catalog, t, visitId, payload)
  }

  predicate Feeds(catalog: Catalog, t: TransitionDefinition, visitId: Uuid, payload: Json) {
    && catalog.sizeOf(payload) <= ONE_MIB && Satisfies(catalog, t.submissionSchema, payload)
    && (t.transitionEffect.RETURN? ==> IsRootedAt(payload, visitId))
  }

  predicate IsRootedAt(payload: Json, visitId: Uuid) {
    && payload.Object?
    && "rootCauseNodeVisitId" in payload.fields && payload.fields["rootCauseNodeVisitId"] == IdText(visitId)
    && "relatedSubmissionIds" !in payload.fields
    && "reasonCode" in payload.fields && "reason" in payload.fields
  }

  lemma FeedableFits(catalog: Catalog, l: Ledger, t: TransitionDefinition) returns (payload: Option<Json>)
    requires Feedable(catalog, t) && CurrentVisit(l).Some?
    ensures IsLawfulSubmission(catalog, l, t, payload)
  {
    payload := None;
    if t.submissionSchema.Some? {
      hide VisitsById, SubmissionsById;
      var visitId := l.instance.projection.currentNodeVisitId.value;
      assert IsFed(catalog, t, visitId);
      var p :| Feeds(catalog, t, visitId, p);
      payload := Some(p);
    }
  }

  /** The instance's current visit is at the node, and an enabled principal is assigned unless the node is terminal. */
  predicate StandsAt(st: DbState, id: Uuid, nodeId: Uuid) {
    && id in st.ledgers
    && var visit := CurrentVisit(st.ledgers[id]);
    && visit.Some? && visit.value.nodeId == nodeId
    && (!visit.value.nodeType.TERMINAL? ==>
          visit.value.assigneePrincipalId.Some? && Active(st.directory, visit.value.assigneePrincipalId.value))
  }

  /**
   In every state of every run, for an instance of a validated definition, its enabled actor and a fitting
   payload: a transition from the current node passes the runtime's checks exactly when it is executable,
   the actor is the assignee, the version is usable, and the target's assignee resolves.
   */
  lemma TakenIffExecutable(catalog: Catalog, run: seq<DbState>, actions: seq<Action>, i: nat, id: Uuid, actor: Uuid,
                           t: TransitionDefinition, payload: Option<Json>)
    requires KeyedCatalog(catalog) && IsRun(catalog, run, actions) && i < |run| && id in run[i].ledgers
    requires var l := run[i].ledgers[id];
      var g := GraphOf(catalog, l.instance.definitionVersionId);
      && Validated(g) && t in g.transitions && l.instance.definitionVersionId in run[i].directory.versionStatus
      && Active(run[i].directory, actor) && IsLawfulSubmission(catalog, l, t, payload)
    ensures var env, l := Env(catalog, run[i].directory), run[i].ledgers[id];
      var version, visit := l.instance.definitionVersionId, CurrentVisit(l);
      var target := NodeOf(catalog, version, t.targetNodeId);
      && visit.Some? && target.Some?
      && (visit.value.nodeId == t.sourceNodeId ==>
            (CheckTransition(env, run[i].ledgers, CommandFor(l, actor, t, payload)).Go?
             <==> (&& t in Executable(GraphOf(catalog, version)) && visit.value.assigneePrincipalId == Some(actor)
                   && IsLiveVersion(env.directory, version)
                   && (target.value.nodeType.TERMINAL? || Resolves(env.directory, target.value.assigneeRef, l.instance.domainId)))))
  {
    hide KeyedCatalog, IsRun, Inv, Validated, GraphOf, NodeOf, TransitionOf, CheckTransition, SubmissionFitsSchema, Coherent,
         ResolveAssignee, Resolves, IsLawfulSubmission, CurrentVisit, LinkageHolds, UniqueIds, EffectFits, TargetFits, Executable,
         LegalAssignee;
    var env, l := Env(catalog, run[i].directory), run[i].ledgers[id];
    var version := l.instance.definitionVersionId;
    RunKeepsInv(catalog, run, actions, i);
    CoherentAt(catalog, run[i], id);
    StandingExists(catalog, run[i], id);
    var s := StandingOf(env, l).value;
    CoherentStanding(env, l, s);
    StoredTransition(catalog, version, t);
    RowsResolve(env, l, t);
    var target := NodeOf(catalog, version, t.targetNodeId).value;
    if s.visit.nodeId == t.sourceNodeId {
      ValidatedEnds(GraphOf(catalog, version), s.node, t, target);
      SubmissionsAgree(catalog, l, t, payload);
      ResolutionIsDesignation(env.directory, target, l.instance.createdByPrincipalId, l.instance.domainId);
      ChecksOf(env, run[i].ledgers, l, s, t, target, actor, payload);
      ExecutableShape(GraphOf(catalog, version), s.node, t, target);
    }
  }

  /** On a validated graph the runtime's checks of a transition's shape pass exactly for executable transitions. */
  lemma ExecutableShape(g: WorkflowGraph, source: NodeDefinition, t: TransitionDefinition, target: NodeDefinition)
    requires Validated(g) && source in g.nodes && target in g.nodes && t in g.transitions
    requires t.sourceNodeId == source.nodeId && t.targetNodeId == target.nodeId
    ensures t in Executable(g) <==> EffectFits(source, t).Go? && TargetFits(source, t, target).Go?
  {
    hide Accepts;
    if t in Executable(g) {
      forall n | n in g.nodes && n.nodeId == t.sourceNodeId ensures n == source {
        SameNode(g.nodes, n, source);
      }
      ValidatedShape(g, source, t, target);
    }
  }

  /** What moving an instance leaves alone. */
  predicate Continues(before: DbState, after: DbState, id: Uuid) {
    && after.directory == before.directory
    && id in before.ledgers && id in after.ledgers
    && var l, l' := before.ledgers[id], after.ledgers[id];
    && l'.instance == l.instance.(projection := l'.instance.projection)
    && l.events <= l'.events && l.visits <= l'.visits
    && (!Overridden(l.events) ==> !Overridden(l'.events))
  }

  lemma PlanAssignee(env: Env, ledgers: map<Uuid, Ledger>, cmd: TransitionCommand, plan: TransitionPlan)
    requires CheckTransition(env, ledgers, cmd) == Go(plan)
    ensures ResolveAssignee(env.directory, plan.target, plan.ledger.instance.createdByPrincipalId, plan.ledger.instance.domainId)
         == Go(plan.assigneeId)
  {
    hide VersionUsable, CurrentVisit, GraphOf, NodeOf, TransitionOf, ResolveAssignee, EffectFits, TargetFits,
         SubmissionFitsSchema, PrincipalEnabled;
  }

  lemma PassedTransitionDecides(env: Env, st: DbState, cmd: TransitionCommand, ids: FreshIds)
    requires CheckTransition(env, st.ledgers, cmd).Go? && Active(env.directory, cmd.principalId)
    ensures Precheck(env, Transition(cmd)).None? && Decide(env, st, Transition(cmd), ids).Go?
    ensures var plan := CheckTransition(env, st.ledgers, cmd).value;
      && HasPointers(plan.ledger)
      && Decide(env, st, Transition(cmd), ids).value.write
         == AppendEntry(cmd.workflowInstanceId, TransitionEntry(env, cmd, plan, ids))
  {
    hide CheckTransition, TransitionEntry;
    TransitionPlanFacts(env, st.ledgers, cmd, CheckTransition(env, st.ledgers, cmd).value);
  }

  /** Where an instance stands after a transition whose target is staffed. */
  lemma StandsAtTarget(env: Env, st: DbState, st': DbState, cmd: TransitionCommand, plan: TransitionPlan, ids: FreshIds)
    requires CheckTransition(env, st.ledgers, cmd) == Go(plan) && HasPointers(plan.ledger)
    requires Coherent(env.catalog, plan.ledger) && st.directory == st'.directory == env.directory
    requires cmd.workflowInstanceId in st.ledgers && plan.ledger == st.ledgers[cmd.workflowInstanceId]
    requires plan.target.nodeType.TERMINAL?
             || IsStaffed(env.directory, plan.target, plan.ledger.instance.createdByPrincipalId, plan.ledger.instance.domainId)
    requires st'.ledgers == st.ledgers[cmd.workflowInstanceId := Append(plan.ledger, TransitionEntry(env, cmd, plan, ids))]
    ensures StandsAt(st', cmd.workflowInstanceId, plan.target.nodeId) && Continues(st, st', cmd.workflowInstanceId)
    ensures st'.ledgers[cmd.workflowInstanceId].instance.projection.workflowStateVersion
         == Inc32(plan.ledger.instance.projection.workflowStateVersion)
  {
    hide CheckTransition, Coherent, CurrentVisit, NodeOf, TransitionOf, MaxVisitNumber, Active;
    var e := TransitionEntry(env, cmd, plan, ids);
    PlanAssignee(env, st.ledgers, cmd, plan);
    ResolutionIsDesignation(env.directory, plan.target, plan.ledger.instance.createdByPrincipalId, plan.ledger.instance.domainId);
    VisitAfterAppend(plan.ledger, e);
    CountsSnoc(plan.ledger.events, e.event);
  }

  /** The last state of a run. */
  function Last(run: seq<DbState>): DbState
    requires run != []
  {
    run[|run| - 1]
  }

  lemma ExtendedRun(catalog: Catalog, run: seq<DbState>, actions: seq<Action>, a: Action)
    requires IsRun(catalog, run, actions)
    ensures IsRun(catalog, run + [Next(catalog, Last(run), a)], actions + [a])
  {
    hide Next;
  }

  /** The conditions for a step along `t`: see `Move`. */
  ghost predicate CanMove(catalog: Catalog, st: DbState, id: Uuid) {
    && id in st.ledgers
    && var row := st.ledgers[id].instance;
    && Validated(GraphOf(catalog, row.definitionVersionId))
    && Staffed(catalog, st.directory, row.definitionVersionId, row.createdByPrincipalId, row.domainId)
  }

  /** The assignee's command for an executable transition, with a fitting payload, passes every check. */
  lemma MovePasses(catalog: Catalog, run: seq<DbState>, actions: seq<Action>, id: Uuid, t: TransitionDefinition)
    returns (cmd: TransitionCommand)
    requires KeyedCatalog(catalog) && IsRun(catalog, run, actions)
    requires CanMove(catalog, Last(run), id) && StandsAt(Last(run), id, t.sourceNodeId)
    requires t in Executable(GraphOf(catalog, Last(run).ledgers[id].instance.definitionVersionId)) && Feedable(catalog, t)
    ensures cmd.workflowInstanceId == id && cmd.transitionId == t.transitionId && Active(Last(run).directory, cmd.principalId)
    ensures CheckTransition(Env(catalog, Last(run).directory), Last(run).ledgers, cmd).Go?
    ensures TransitionOf(catalog, Last(run).ledgers[id].instance.definitionVersionId, t.transitionId) == Some(t)
  {
    var st := Last(run);
    var l := st.ledgers[id];
    RunKeepsInv(catalog, run, actions, |run| - 1);
    hide KeyedCatalog, IsRun, Validated, GraphOf, NodeOf, TransitionOf, CheckTransition, IsLawfulSubmission, Inv,
         Active, CurrentVisit, Feedable, Resolves, IsStaffed, ExecutableOf, LedgerInv;
    assert LedgerInv(catalog, st.receipts, id, l);
    SourceIsOpen(catalog, st, id, t);
    var payload := FeedableFits(catalog, l, t);
    cmd := CommandFor(l, CurrentVisit(l).value.assigneePrincipalId.value, t, payload);
    TakenIffExecutable(catalog, run, actions, |run| - 1, id, cmd.principalId, t, payload);
    StoredTransition(catalog, l.instance.definitionVersionId, t);
  }

  /** A command that passes its checks can be sent under an unused key, and appends its entry. */
  lemma PassedCommandAppends(catalog: Catalog, run: seq<DbState>, actions: seq<Action>, cmd: TransitionCommand)
    returns (r: Request, ids: FreshIds)
    requires KeyedCatalog(catalog) && IsRun(catalog, run, actions)
    requires var env := Env(catalog, Last(run).directory);
      && CheckTransition(env, Last(run).ledgers, cmd).Go? && Active(env.directory, cmd.principalId)
      && VersionOf(Last(run), cmd.workflowInstanceId) < I32_MAX
    ensures var st, st' := Last(run), Execute(catalog, Last(run), r, ids).0;
      var env := Env(catalog, st.directory);
      var plan := CheckTransition(env, st.ledgers, cmd).value;
      && HasPointers(plan.ledger) && st'.directory == st.directory
      && st'.ledgers == st.ledgers[cmd.workflowInstanceId := Append(plan.ledger, TransitionEntry(env, cmd, plan, ids))]
  {
    var st := Last(run);
    hide KeyedCatalog, IsRun, CheckTransition, Active, Execute, Decide, Precheck, Unused, RowIdsUnused, TransitionEntry,
         EntryInsertable, Append, FailureBodyOf, Last;
    var env := Env(catalog, st.directory);
    TransitionPlanFacts(env, st.ledgers, cmd, CheckTransition(env, st.ledgers, cmd).value);
    r, ids := UnusedRequest(st, Transition(cmd));
    PassedTransitionDecides(env, st, cmd, ids);
    PassedChecksCommit(catalog, run, actions, |run| - 1, r, ids);
    UnusedExecution(catalog, st, r, ids);
  }

  /** Such a request moves the instance to a target that is staffed. */
  lemma PassedCommandMoves(catalog: Catalog, run: seq<DbState>, actions: seq<Action>, cmd: TransitionCommand)
    returns (a: Action)
    requires KeyedCatalog(catalog) && IsRun(catalog, run, actions)
    requires var env := Env(catalog, Last(run).directory);
      && CheckTransition(env, Last(run).ledgers, cmd).Go? && Active(env.directory, cmd.principalId)
      && VersionOf(Last(run), cmd.workflowInstanceId) < I32_MAX
      && var plan := CheckTransition(env, Last(run).ledgers, cmd).value;
      plan.target.nodeType.TERMINAL?
      || IsStaffed(env.directory, plan.target, plan.ledger.instance.createdByPrincipalId, plan.ledger.instance.domainId)
    ensures var st, st', id := Last(run), Next(catalog, Last(run), a), cmd.workflowInstanceId;
      var plan := CheckTransition(Env(catalog, st.directory), st.ledgers, cmd).value;
      && StandsAt(st', id, plan.target.nodeId) && Continues(st, st', id) && VersionOf(st', id) == VersionOf(st, id) + 1
  {
    var st, id := Last(run), cmd.workflowInstanceId;
    RunKeepsInv(catalog, run, actions, |run| - 1);
    hide KeyedCatalog, IsRun, Inv, CheckTransition, Coherent, Active, LinkageHolds, UniqueIds, Execute, TransitionEntry,
         Continues, StandsAt, IsStaffed, Append, Last;
    var env := Env(catalog, st.directory);
    var plan := CheckTransition(env, st.ledgers, cmd).value;
    var r, ids := PassedCommandAppends(catalog, run, actions, cmd);
    TransitionPlanFacts(env, st.ledgers, cmd, plan);
    CoherentAt(catalog, st, id);
    a := Command(r, ids);
    StandsAtTarget(env, st, Execute(catalog, st, r, ids).0, cmd, plan, ids);
  }

  /** One request moves the instance along an executable transition. */
  lemma Move(catalog: Catalog, run: seq<DbState>, actions: seq<Action>, id: Uuid, t: TransitionDefinition)
    returns (a: Action)
    requires KeyedCatalog(catalog) && IsRun(catalog, run, actions)
    requires CanMove(catalog, Last(run), id) && StandsAt(Last(run), id, t.sourceNodeId)
    requires t in Executable(GraphOf(catalog, Last(run).ledgers[id].instance.definitionVersionId)) && Feedable(catalog, t)
    requires VersionOf(Last(run), id) < I32_MAX
    ensures var st := Next(catalog, Last(run), a);
      && StandsAt(st, id, t.targetNodeId) && Continues(Last(run), st, id)
      && VersionOf(st, id) == VersionOf(Last(run), id) + 1
  {
    var st := Last(run);
    var env := Env(catalog, st.directory);
    var cmd := MovePasses(catalog, run, actions, id, t);
    hide KeyedCatalog, IsRun, Validated, GraphOf, NodeOf, TransitionOf, CheckTransition, Execute, IsStaffed, StandsAt, Continues,
         VersionOf, ExecutableOf, Feedable, CurrentVisit;
    var plan := CheckTransition(env, st.ledgers, cmd).value;
    TransitionPlanFacts(env, st.ledgers, cmd, plan);
    a := PassedCommandMoves(catalog, run, actions, cmd);
  }

  /** On a validated graph a node that a transition leaves is open, and the target's rule resolves if it is staffed. */
  lemma SourceIsOpen(catalog: Catalog, st: DbState, id: Uuid, t: TransitionDefinition)
    requires Inv(catalog, st) && CanMove(catalog, st, id) && StandsAt(st, id, t.sourceNodeId)
    requires t in GraphOf(catalog, st.ledgers[id].instance.definitionVersionId).transitions
    ensures !CurrentVisit(st.ledgers[id]).value.nodeType.TERMINAL?
    ensures var row := st.ledgers[id].instance;
      var target := NodeOf(catalog, row.definitionVersionId, t.targetNodeId);
      && target.Some? && target.value in GraphOf(catalog, row.definitionVersionId).nodes
      && (target.value.nodeType.TERMINAL? || Resolves(st.directory, target.value.assigneeRef, row.domainId))
  {
    hide Inv, Accepts, GraphOf, Coherent, Active, CurrentVisit, LinkageHolds, UniqueIds, LegalAssignee, UniqueNodeIds,
         UniqueTransitionIds;
    var env, l := Env(catalog, st.directory), st.ledgers[id];
    CoherentAt(catalog, st, id);
    StandingExists(catalog, st, id);
    var s := StandingOf(env, l).value;
    CoherentStanding(env, l, s);
    RowsResolve(env, l, t);
    ValidatedEnds(GraphOf(catalog, l.instance.definitionVersionId), s.node, t,
                  NodeOf(catalog, l.instance.definitionVersionId, t.targetNodeId).value);
  }

  // ----- Along a path -----

  lemma ContinuesStill(catalog: Catalog, a: DbState, b: DbState, c: DbState, id: Uuid)
    requires Continues(a, b, id) && Continues(b, c, id)
    ensures Continues(a, c, id)
    ensures CanMove(catalog, a, id) ==> CanMove(catalog, b, id)
  {
    hide Overridden, Validated, Staffed, GraphOf;
  }

  /** The run goes on with requests that move the instance to the node, one version for each. */
  ghost predicate MovesOn(catalog: Catalog, run: seq<DbState>, run': seq<DbState>, actions': seq<Action>, id: Uuid, nodeId: Uuid,
                          steps: nat)
    requires run != []
  {
    && IsRun(catalog, run', actions') && run <= run' && |run'| == |run| + steps
    && Continues(Last(run), Last(run'), id) && StandsAt(Last(run'), id, nodeId)
    && VersionOf(Last(run'), id) == VersionOf(Last(run), id) + steps
  }

  ghost predicate AllFeedable(catalog: Catalog, transitions: seq<TransitionDefinition>) {
    forall t :: t in transitions ==> Feedable(catalog, t)
  }

  /** The executable transitions that an argument uses: all of them, or only some. */
  predicate UsesExecutable(g: WorkflowGraph, edges: seq<TransitionDefinition>) {
    forall t :: t in edges ==> t in Executable(g)
  }

  lemma OneMoveOn(catalog: Catalog, run: seq<DbState>, actions: seq<Action>, id: Uuid, edges: seq<TransitionDefinition>,
                  nodeId: Uuid)
    returns (run': seq<DbState>, actions': seq<Action>)
    requires KeyedCatalog(catalog) && IsRun(catalog, run, actions) && CanMove(catalog, Last(run), id)
    requires UsesExecutable(GraphOf(catalog, Last(run).ledgers[id].instance.definitionVersionId), edges)
    requires AllFeedable(catalog, edges) && CurrentVisit(Last(run).ledgers[id]).Some?
    requires var current := CurrentVisit(Last(run).ledgers[id]).value.nodeId;
      Edge(edges, current, nodeId) && StandsAt(Last(run), id, current)
    requires VersionOf(Last(run), id) < I32_MAX
    ensures MovesOn(catalog, run, run', actions', id, nodeId, 1)
  {
    var st := Last(run);
    hide KeyedCatalog, IsRun, Validated, GraphOf, StandsAt, Continues, VersionOf, Executable, Feedable, CurrentVisit, Staffed, Next;
    var t :| t in edges && t.sourceNodeId == CurrentVisit(st.ledgers[id]).value.nodeId && t.targetNodeId == nodeId;
    var a := Move(catalog, run, actions, id, t);
    ExtendedRun(catalog, run, actions, a);
    run', actions' := run + [Next(catalog, st, a)], actions + [a];
  }

  /** An instance can be moved along every path of executable transitions. */
  lemma {:induction false} Walk(catalog: Catalog, run: seq<DbState>, actions: seq<Action>, id: Uuid,
                                edges: seq<TransitionDefinition>, path: seq<Uuid>)
    returns (run': seq<DbState>, actions': seq<Action>)
    requires KeyedCatalog(catalog) && IsRun(catalog, run, actions) && CanMove(catalog, Last(run), id)
    requires UsesExecutable(GraphOf(catalog, Last(run).ledgers[id].instance.definitionVersionId), edges)
    requires AllFeedable(catalog, edges) && IsPath(edges, path)
    requires StandsAt(Last(run), id, path[0]) && VersionOf(Last(run), id) + |path| - 1 <= I32_MAX
    ensures MovesOn(catalog, run, run', actions', id, path[|path| - 1], |path| - 1)
    decreases |path|
  {
    hide KeyedCatalog, Validated, GraphOf, Executable, Feedable, CurrentVisit, Staffed, Next, Overridden, UsesExecutable;
    run', actions' := run, actions;
    if |path| > 1 {
      assert Edge(edges, path[0], path[1]);
      var run1, actions1 := OneMoveOn(catalog, run, actions, id, edges, path[1]);
      ContinuesStill(catalog, Last(run), Last(run1), Last(run1), id);
      assert IsPath(edges, path[1..]);
      run', actions' := Walk(catalog, run1, actions1, id, edges, path[1..]);
      ContinuesStill(catalog, Last(run), Last(run1), Last(run'), id);
    }
  }

  // ----- Closing -----

  /** The primary transitions of a graph. */
  function PrimariesOf(g: WorkflowGraph, transitions: seq<TransitionDefinition>): (r: seq<TransitionDefinition>)
    ensures forall t :: t in r <==> t in transitions && t.transitionEffect.ADVANCE? && IsExecutable(g.nodes, t)
  {
    if transitions == [] then []
    else
      var last := transitions[|transitions| - 1];
      PrimariesOf(g, transitions[..|transitions| - 1])
      + if last.transitionEffect.ADVANCE? && IsExecutable(g.nodes, last) then [last] else []
  }

  /** In a validated graph the primary transitions lead from every node to a TERMINAL node. */
  lemma PrimaryPath(g: WorkflowGraph, n: NodeDefinition) returns (path: seq<Uuid>, terminal: NodeDefinition)
    requires Validated(g) && n in g.nodes
    ensures IsPath(PrimariesOf(g, g.transitions), path) && |path| <= |g.nodes|
    ensures path[0] == n.nodeId && path[|path| - 1] == terminal.nodeId
    ensures terminal in g.nodes && terminal.nodeType.TERMINAL?
  {
    var nodes := ProgressInAcceptedGraphs(g, n);
    hide Validated;
    path, terminal := seq(|nodes|, k requires 0 <= k < |nodes| => nodes[k].nodeId), nodes[|nodes| - 1];
    RunEdge(g, nodes, |nodes| - 1);
    forall k | 0 <= k < |path| - 1
      ensures Edge(PrimariesOf(g, g.transitions), path[k], path[k + 1])
    {
      RunEdge(g, nodes, k);
      var t :| t in g.transitions && IsPrimaryStep(nodes[k], t, nodes[k + 1]);
      assert t in PrimariesOf(g, g.transitions);
    }
  }

  lemma PrefixIsRun(catalog: Catalog, run: seq<DbState>, actions: seq<Action>, i: nat)
    requires IsRun(catalog, run, actions) && i < |run|
    ensures IsRun(catalog, run[..i + 1], actions[..i])
  {
    hide Next;
  }

  /** A visit at a terminal node is terminal. */
  lemma VisitHasNodeType(catalog: Catalog, run: seq<DbState>, actions: seq<Action>, id: Uuid, n: NodeDefinition)
    requires KeyedCatalog(catalog) && IsRun(catalog, run, actions) && StandsAt(Last(run), id, n.nodeId)
    requires CanMove(catalog, Last(run), id)
    requires n in GraphOf(catalog, Last(run).ledgers[id].instance.definitionVersionId).nodes
    ensures CurrentVisit(Last(run).ledgers[id]).value.nodeType == n.nodeType
  {
    RunKeepsInv(catalog, run, actions, |run| - 1);
    hide KeyedCatalog, IsRun, Inv, Accepts, GraphOf, Coherent, CurrentVisit, Active, LinkageHolds, UniqueIds, UniqueNodeIds,
         UniqueTransitionIds, IsStaffed;
    var st := Last(run);
    var env, l := Env(catalog, st.directory), st.ledgers[id];
    CoherentAt(catalog, st, id);
    StandingExists(catalog, st, id);
    var s := StandingOf(env, l).value;
    CoherentStanding(env, l, s);
    SameNode(GraphOf(catalog, l.instance.definitionVersionId).nodes, s.node, n);
  }

  /** The instance stands at a node of its definition. */
  lemma StandsInGraph(catalog: Catalog, run: seq<DbState>, actions: seq<Action>, id: Uuid, nodeId: Uuid)
    returns (n: NodeDefinition)
    requires KeyedCatalog(catalog) && IsRun(catalog, run, actions) && StandsAt(Last(run), id, nodeId)
    ensures n.nodeId == nodeId && n in GraphOf(catalog, Last(run).ledgers[id].instance.definitionVersionId).nodes
  {
    RunKeepsInv(catalog, run, actions, |run| - 1);
    hide KeyedCatalog, IsRun, Inv, GraphOf, Coherent, Active, LinkageHolds, UniqueIds;
    var l := Last(run).ledgers[id];
    CoherentAt(catalog, Last(run), id);
    CurrentNodeOpen(catalog, l, CurrentVisit(l).value);
    n := NodeOf(catalog, l.instance.definitionVersionId, nodeId).value;
  }

  /** The instance can move, stands at the node, and its primary transitions and its version leave room to go on. */
  ghost predicate Closable(catalog: Catalog, st: DbState, id: Uuid, nodeId: Uuid) {
    && CanMove(catalog, st, id) && StandsAt(st, id, nodeId)
    && var g := GraphOf(catalog, st.ledgers[id].instance.definitionVersionId);
    AllFeedable(catalog, PrimariesOf(g, g.transitions)) && VersionOf(st, id) + |g.nodes| - 1 <= I32_MAX
  }

  /** The run goes on until the instance's visit is terminal, with fewer requests than its definition has nodes. */
  ghost predicate Closes(catalog: Catalog, run: seq<DbState>, run': seq<DbState>, actions': seq<Action>, id: Uuid)
    requires run != []
  {
    exists nodeId, steps: nat ::
      && MovesOn(catalog, run, run', actions', id, nodeId, steps)
      && steps < |GraphOf(catalog, Last(run).ledgers[id].instance.definitionVersionId).nodes|
      && CurrentVisit(Last(run').ledgers[id]).value.nodeType.TERMINAL?
  }

  /**
   No dead ends: from every state of every run, an instance of a validated and staffed definition whose
   current assignee is enabled can be brought to a terminal node, without an override, by fewer requests
   than the definition has nodes. Its primary transitions must accept some submission.
   */
  lemma OpenInstanceCanBeClosed(catalog: Catalog, run: seq<DbState>, actions: seq<Action>, i: nat, id: Uuid, nodeId: Uuid)
    returns (run': seq<DbState>, actions': seq<Action>)
    requires KeyedCatalog(catalog) && IsRun(catalog, run, actions) && i < |run|
    ensures Closable(catalog, run[i], id, nodeId) ==> Closes(catalog, run[..i + 1], run', actions', id)
  {
    run', actions' := [], [];
    if !Closable(catalog, run[i], id, nodeId) {
      return;
    }
    hide KeyedCatalog, Next, GraphOf, ExecutableOf, Feedable, CurrentVisit, Staffed, Accepts;
    var before, g := run[..i + 1], GraphOf(catalog, run[i].ledgers[id].instance.definitionVersionId);
    PrefixIsRun(catalog, run, actions, i);
    assert Last(before) == run[i];
    var n := StandsInGraph(catalog, before, actions[..i], id, nodeId);
    var path, terminal := PrimaryPath(g, n);
    run', actions' := Walk(catalog, before, actions[..i], id, PrimariesOf(g, g.transitions), path);
    ContinuesStill(catalog, run[i], Last(run'), Last(run'), id);
    VisitHasNodeType(catalog, run', actions', id, terminal);
    assert MovesOn(catalog, before, run', actions', id, terminal.nodeId, |path| - 1);
  }

  // ----- What can be visited -----

  /** Whatever a path reaches is reached without repetition. */
  lemma {:induction false} PathWithoutRepetition(transitions: seq<TransitionDefinition>, path: seq<Uuid>)
    returns (short: seq<Uuid>)
    requires IsPath(transitions, path)
    ensures IsPath(transitions, short) && PrimaryTrunk.Distinct(short)
    ensures short[0] == path[0] && short[|short| - 1] == path[|path| - 1]
    decreases |path|
  {
    short := path;
    if !PrimaryTrunk.Distinct(path) {
      hide Edge;
      var i, j :| 0 <= i < j < |path| && path[i] == path[j];
      var cut := path[..i] + path[j..];
      assert forall k :: 0 <= k < |cut| ==> cut[k] == if k < i then path[k] else path[k + (j - i)];
      short := PathWithoutRepetition(transitions, cut);
    }
  }

  function IdsOf(nodes: seq<NodeDefinition>): (r: set<Uuid>)
    ensures |r| <= |nodes|
    ensures forall id :: id in r <==> exists n :: n in nodes && n.nodeId == id
  {
    if nodes == [] then {}
    else
      var last, before := nodes[|nodes| - 1], nodes[..|nodes| - 1];
      assert nodes == before + [last];
      IdsOf(before) + {last.nodeId}
  }

  lemma {:induction false} DistinctIsShort(path: seq<Uuid>, ids: set<Uuid>)
    requires PrimaryTrunk.Distinct(path) && forall x :: x in path ==> x in ids
    ensures |path| <= |ids|
  {
    if path != [] {
      var last, before := path[|path| - 1], path[..|path| - 1];
      assert path == before + [last];
      DistinctIsShort(before, ids - {last});
    }
  }

  /** In a validated graph a path from a node stays in the graph, so one without repetition has at most |nodes| nodes. */
  lemma ShortPath(g: WorkflowGraph, a: Uuid, b: Uuid) returns (path: seq<Uuid>)
    requires Validated(g) && HasNode(g, a) && Reaches(Executable(g), a, b)
    ensures IsPath(Executable(g), path) && path[0] == a && path[|path| - 1] == b && |path| <= |g.nodes|
  {
    hide Accepts, ExecutableOf;
    var long :| IsPath(Executable(g), long) && long[0] == a && long[|long| - 1] == b;
    path := PathWithoutRepetition(Executable(g), long);
    forall x | x in path
      ensures x in IdsOf(g.nodes)
    {
      var i :| 0 <= i < |path| && path[i] == x;
      if i > 0 {
        assert Edge(Executable(g), path[i - 1], path[i]);
        var t :| t in Executable(g) && t.sourceNodeId == path[i - 1] && t.targetNodeId == path[i];
        AcceptedEndpoints(g, t);
      }
    }
    DistinctIsShort(path, IdsOf(g.nodes));
  }

  /** A created instance of the version visits the node and was never overridden. */
  predicate VisitsUnaided(st: DbState, versionId: Uuid, id: Uuid, nodeId: Uuid) {
    && id in st.ledgers
    && var l := st.ledgers[id];
    && l.instance.definitionVersionId == versionId && WasCreated(l) && !Overridden(l.events)
    && exists v :: v in l.visits && v.nodeId == nodeId
  }

  ghost predicate CanVisit(catalog: Catalog, versionId: Uuid, nodeId: Uuid) {
    exists run: seq<DbState>, actions: seq<Action>, i: nat, id: Uuid ::
      IsRun(catalog, run, actions) && i < |run| && VisitsUnaided(run[i], versionId, id, nodeId)
  }

  /** A directory and a creation under which instances of the version can move freely. */
  ghost predicate Operable(catalog: Catalog, d: Directory, cmd: CreateCommand) {
    var g := GraphOf(catalog, cmd.definitionVersionId);
    && Validated(g) && |g.nodes| <= I32_MAX && AllFeedable(catalog, Executable(g))
    && PayloadsFit(catalog, cmd) && MayCreate(Env(catalog, d), cmd)
    && Staffed(catalog, d, cmd.definitionVersionId, cmd.principalId, cmd.domainId)
  }

  lemma CreationDecision(env: Env, st: DbState, cmd: CreateCommand, ids: FreshIds)
    requires CheckCreate(env, cmd).Go? && Active(env.directory, cmd.principalId)
    ensures Precheck(env, Create(cmd)).None? && Decide(env, st, Create(cmd), ids).Go?
    ensures Decide(env, st, Create(cmd), ids).value.write
         == CreateLedger(CreatedLedger(env, cmd, CheckCreate(env, cmd).value, ids))
  {
    hide CheckCreate, CreatedLedger;
  }

  /** A run that creates an instance and nothing else. */
  lemma CreatedRun(catalog: Catalog, d: Directory, cmd: CreateCommand)
    returns (run: seq<DbState>, actions: seq<Action>, id: Uuid)
    requires KeyedCatalog(catalog) && Operable(catalog, d, cmd)
    ensures IsRun(catalog, run, actions) && CanMove(catalog, Last(run), id) && VersionOf(Last(run), id) == 1
    ensures Last(run).directory == d && Last(run).ledgers[id].instance.createdByPrincipalId == cmd.principalId
    ensures var l := Last(run).ledgers[id];
      && l.instance.definitionVersionId == cmd.definitionVersionId && WasCreated(l) && !Overridden(l.events)
      && l.visits != [] && StandsAt(Last(run), id, l.visits[0].nodeId)
  {
    hide KeyedCatalog, Validated, IsPublishedVersion, IsOpenDomain, BelongsTo, GraphOf, CheckCreate, Satisfies, Execute, Decide, Precheck,
         Unused, RowIdsUnused, FailureBodyOf, Feedable, Active, IsStaffed, LedgerInsertable;
    var st := DbState(d, map[], []);
    var env := Env(catalog, d);
    CreationSucceedsIff(env, cmd);
    var r, ids := UnusedRequest(st, Create(cmd));
    CreationDecision(env, st, cmd, ids);
    PassedChecksCommit(catalog, [st], [], 0, r, ids);
    UnusedExecution(catalog, st, r, ids);
    run, actions, id := [st, Next(catalog, st, Command(r, ids))], [Command(r, ids)], ids.instanceId;
    CreatedStands(env, cmd, CheckCreate(env, cmd).value, ids);
  }

  lemma CreatedStands(env: Env, cmd: CreateCommand, plan: CreatePlan, ids: FreshIds)
    ensures var l := CreatedLedger(env, cmd, plan, ids);
      && WasCreated(l) && !Overridden(l.events)
      && CurrentVisit(l) == Some(l.visits[0]) && l.visits[0].assigneePrincipalId == Some(plan.assigneeId)
  {
    var l := CreatedLedger(env, cmd, plan, ids);
    assert l.visits[..0] == [] && VisitsById(l.visits) == map[l.visits[0].nodeVisitId := l.visits[0]];
  }

  /**
   What can be visited: under a directory that staffs a validated definition, and with payloads that its
   transitions take, some run brings a created instance to the node without an override if and only if
   executable transitions reach the node from DRAFT.
   */
  lemma VisitableIffExecutable(catalog: Catalog, d: Directory, cmd: CreateCommand, nodeId: Uuid)
    requires KeyedCatalog(catalog)
    ensures Operable(catalog, d, cmd) ==>
              var g := GraphOf(catalog, cmd.definitionVersionId);
              && FirstDraft(g.nodes).Some?
              && (CanVisit(catalog, cmd.definitionVersionId, nodeId)
                  <==> Reaches(Executable(g), FirstDraft(g.nodes).value.nodeId, nodeId))
  {
    if !Operable(catalog, d, cmd) {
      return;
    }
    hide KeyedCatalog, Next, GraphOf, Executable, ExecutableOf, Feedable, CurrentVisit, Staffed, Accepts, Reaches, IsPath;
    var g := GraphOf(catalog, cmd.definitionVersionId);
    var run, actions, id := CreatedRun(catalog, d, cmd);
    var l := Last(run).ledgers[id];
    VisitsFollowExecutablePaths(catalog, run, actions, |run| - 1, id, l.visits[0]);
    if Reaches(Executable(g), l.visits[0].nodeId, nodeId) {
      CreatedCanVisit(catalog, run, actions, id, nodeId);
    }
    if CanVisit(catalog, cmd.definitionVersionId, nodeId) {
      var run': seq<DbState>, actions': seq<Action>, i: nat, k: Uuid :|
        IsRun(catalog, run', actions') && i < |run'| && VisitsUnaided(run'[i], cmd.definitionVersionId, k, nodeId);
      var v :| v in run'[i].ledgers[k].visits && v.nodeId == nodeId;
      VisitsFollowExecutablePaths(catalog, run', actions', i, k, v);
    }
  }

  lemma CreatedCanVisit(catalog: Catalog, run: seq<DbState>, actions: seq<Action>, id: Uuid, nodeId: Uuid)
    requires KeyedCatalog(catalog) && IsRun(catalog, run, actions) && CanMove(catalog, Last(run), id)
    requires var l := Last(run).ledgers[id];
      var g := GraphOf(catalog, l.instance.definitionVersionId);
      && WasCreated(l) && !Overridden(l.events) && l.visits != [] && StandsAt(Last(run), id, l.visits[0].nodeId)
      && AllFeedable(catalog, Executable(g)) && Reaches(Executable(g), l.visits[0].nodeId, nodeId)
      && VersionOf(Last(run), id) == 1 && |g.nodes| <= I32_MAX
    ensures CanVisit(catalog, Last(run).ledgers[id].instance.definitionVersionId, nodeId)
  {
    hide KeyedCatalog, Next, GraphOf, ExecutableOf, Feedable, Staffed, Accepts, Reaches, IsPath, VisitsById;
    var l := Last(run).ledgers[id];
    var g := GraphOf(catalog, l.instance.definitionVersionId);
    var n := StandsInGraph(catalog, run, actions, id, l.visits[0].nodeId);
    var path := ShortPath(g, l.visits[0].nodeId, nodeId);
    var run', actions' := Walk(catalog, run, actions, id, Executable(g), path);
    assert CurrentVisit(Last(run').ledgers[id]).value in Last(run').ledgers[id].visits;
    assert VisitsUnaided(run'[|run'| - 1], l.instance.definitionVersionId, id, nodeId);
  }
}
