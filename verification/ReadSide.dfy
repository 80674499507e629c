/** The outgoing transitions that the detail query offers, against what the runtime then accepts. */
module ReadSide {
  import opened Prelude
  import opened DefinitionModel
  import opened GraphRules
  import opened GraphProgress
  import opened RuntimeModel
  import opened KernelState
  import opened EventReplay
  import opened Snapshot
  import opened Commands
  import opened Pipeline
  import opened Agreement
  import opened WriterAgreement
  import opened ReplayMeaning
  import opened QueryConsistency
  import opened KernelRuns
  import opened Rules
  import opened Resolution

  datatype BlockedReason =
    | CurrentNodeIsTerminal
    | VersionIsRevoked
    | VersionIsDraft
    | AdvanceIsNotPrimary
    | ActorIsNotCurrentAssignee
    | TargetAssigneeIsUnavailable

  datatype OutgoingItem = OutgoingItem(transition: TransitionDefinition, target: NodeDefinition, blocked: Option<BlockedReason>)

  datatype OutgoingError = NoCurrentNode | NoVersion | UnknownAssigneeRule

  // ----- The query -----

  /** Where the instance stands, as the query's base row has it. */
  datatype Standing = Standing(visit: VisitFact, node: NodeDefinition, status: VersionStatus)

  function StandingOf(env: Env, l: Ledger): Result<Standing, OutgoingError> {
    var version, visit := l.instance.definitionVersionId, CurrentVisit(l);
    if visit.None? || NodeOf(env.catalog, version, visit.value.nodeId).None? then Err(NoCurrentNode)
    else if version !in env.directory.versionStatus then Err(NoVersion)
    else
      Ok(Standing(visit.value, NodeOf(env.catalog, version, visit.value.nodeId).value, env.directory.versionStatus[version]))
  }

  /** The principal that the query expects behind a target; among owners only enabled principals count. */
  function ExpectedAssignee(env: Env, l: InstanceRow, target: NodeDefinition): Result<Option<Uuid>, OutgoingError> {
    match target.assigneeRef
    case None => if target.nodeType.TERMINAL? then Ok(None) else Err(UnknownAssigneeRule)
    case Some(rule) =>
      match rule.refType
      case WORKFLOW_CREATOR => Ok(Some(l.createdByPrincipalId))
      case DOMAIN_OWNER =>
        (match FirstHolder(EnabledHolders(env.directory, BindingsOf(env.directory, l.domainId)), DOMAIN_OWNER_ROLE)
         case None => Ok(None)
         case Some(b) => Ok(Some(b.principalId)))
      case FIXED_PRINCIPAL => Ok(rule.fixedPrincipalId)
  }

  predicate TargetAvailable(d: Directory, target: NodeDefinition, assignee: Option<Uuid>) {
    target.nodeType.TERMINAL? || (assignee.Some? && IsEnabled(d, assignee.value))
  }

  function BlockedBy(s: Standing, t: TransitionDefinition, available: bool, actor: Uuid): Option<BlockedReason> {
    if s.node.nodeType.TERMINAL? then Some(CurrentNodeIsTerminal)
    else if s.status.Revoked? then Some(VersionIsRevoked)
    else if s.status.Draft? then Some(VersionIsDraft)
    else if t.transitionEffect.ADVANCE? && s.node.primaryAdvanceTransitionId != Some(t.transitionId) then Some(AdvanceIsNotPrimary)
    else if s.visit.assigneePrincipalId != Some(actor) then Some(ActorIsNotCurrentAssignee)
    else if !available then Some(TargetAssigneeIsUnavailable)
    else None
  }

  /** The items of the transitions that leave the current node, in the order of the rows. */
  function ItemsOf(env: Env, l: Ledger, s: Standing, transitions: seq<TransitionDefinition>, actor: Uuid)
    : Result<seq<OutgoingItem>, OutgoingError>
  {
    if transitions == [] then Ok([])
    else
      var t := transitions[|transitions| - 1];
      var target := NodeOf(env.catalog, l.instance.definitionVersionId, t.targetNodeId);
      match ItemsOf(env, l, s, transitions[..|transitions| - 1], actor)
      case Err(e) => Err(e)
      case Ok(before) =>
        if t.sourceNodeId != s.node.nodeId || target.None? then Ok(before)
        else
          match ExpectedAssignee(env, l.instance, target.value)
          case Err(e) => Err(e)
          case Ok(assignee) =>
            var available := TargetAvailable(env.directory, target.value, assignee);
            Ok(before + [OutgoingItem(t, target.value, BlockedBy(s, t, available, actor))])
  }

  /** The version's transitions, in the order in which the database returns them: by key, in its collation. */
  predicate IsListing(g: WorkflowGraph, rows: seq<TransitionDefinition>) {
    multiset(rows) == multiset(g.transitions)
  }

  function OutgoingOf(env: Env, l: Ledger, rows: seq<TransitionDefinition>, actor: Uuid)
    : Result<seq<OutgoingItem>, OutgoingError>
  {
    match StandingOf(env, l)
    case Err(e) => Err(e)
    case Ok(s) => ItemsOf(env, l, s, rows, actor)
  }

  method LoadOutgoing(env: Env, l: Ledger, rows: seq<TransitionDefinition>, actor: Uuid)
    returns (r: Result<seq<OutgoingItem>, OutgoingError>)
    ensures r == OutgoingOf(env, l, rows, actor)
  {
    hide NodeOf, CurrentVisit, ExpectedAssignee, TargetAvailable, BlockedBy;
    var standing := StandingOf(env, l);
    if standing.Err? {
      return Err(standing.error);
    }
    var s := standing.value;
    var items := [];
    var i := 0;
    while i < |rows|
      invariant 0 <= i <= |rows|
      invariant ItemsOf(env, l, s, rows[..i], actor) == Ok(items)
    {
      var t := rows[i];
      assert rows[..i + 1][..i] == rows[..i];
      var target := NodeOf(env.catalog, l.instance.definitionVersionId, t.targetNodeId);
      if t.sourceNodeId == s.node.nodeId && target.Some? {
        var assignee := ExpectedAssignee(env, l.instance, target.value);
        if assignee.Err? {
          ErrorStays(env, l, s, rows, i + 1, actor);
          return Err(assignee.error);
        }
        var available := TargetAvailable(env.directory, target.value, assignee.value);
        items := items + [OutgoingItem(t, target.value, BlockedBy(s, t, available, actor))];
      }
      i := i + 1;
    }
    assert rows[..i] == rows;
    r := Ok(items);
  }

  lemma {:induction false} ErrorStays(env: Env, l: Ledger, s: Standing, rows: seq<TransitionDefinition>, k: nat, actor: Uuid)
    requires k <= |rows| && ItemsOf(env, l, s, rows[..k], actor).Err?
    ensures ItemsOf(env, l, s, rows, actor) == ItemsOf(env, l, s, rows[..k], actor)
    decreases |rows|
  {
    hide NodeOf, ExpectedAssignee, TargetAvailable, BlockedBy;
    if k < |rows| {
      var before := rows[..|rows| - 1];
      assert before[..k] == rows[..k];
      ErrorStays(env, l, s, before, k, actor);
    } else {
      assert rows[..k] == rows;
    }
  }

  // ----- Against the runtime -----

  /** The unique index: at most one enabled owner binding in the domain. */
  predicate OneOwner(bindings: seq<Binding>) {
    forall i, j :: 0 <= i < j < |bindings| ==> !(IsOwner(bindings[i]) && IsOwner(bindings[j]))
  }

  predicate IsOwner(b: Binding) {
    b.enabled && b.role == DOMAIN_OWNER_ROLE
  }

  /** With one owner binding, both sides look at the same principal, and both want it enabled. */
  lemma {:induction false} OwnersAgree(d: Directory, bindings: seq<Binding>)
    requires OneOwner(bindings)
    ensures var first, usable := FirstHolder(bindings, DOMAIN_OWNER_ROLE), FirstHolder(EnabledHolders(d, bindings), DOMAIN_OWNER_ROLE);
      usable == if first.Some? && IsEnabled(d, first.value.principalId) then first else None
  {
    if bindings != [] {
      var rest := bindings[1..];
      OwnersAgree(d, rest);
      if IsOwner(bindings[0]) {
        assert forall b :: b in rest ==> !IsOwner(b);
        NoOwnerLeft(d, rest);
      }
      assert (if IsEnabled(d, bindings[0].principalId) then [bindings[0]] else []) + EnabledHolders(d, rest)
          == EnabledHolders(d, bindings);
      if IsEnabled(d, bindings[0].principalId) {
        assert EnabledHolders(d, bindings)[1..] == EnabledHolders(d, rest);
      } else {
        assert EnabledHolders(d, bindings) == EnabledHolders(d, rest);
      }
    }
  }

  lemma {:induction false} NoOwnerLeft(d: Directory, bindings: seq<Binding>)
    requires forall b :: b in bindings ==> !IsOwner(b)
    ensures forall b :: b in EnabledHolders(d, bindings) ==> !IsOwner(b)
    ensures FirstHolder(bindings, DOMAIN_OWNER_ROLE).None? && FirstHolder(EnabledHolders(d, bindings), DOMAIN_OWNER_ROLE).None?
  {
    if bindings != [] {
      NoOwnerLeft(d, bindings[1..]);
    }
  }

  /** The target falls to a creator who is disabled: the runtime assigns it all the same. */
  predicate FallsToDisabledCreator(env: Env, l: InstanceRow, target: NodeDefinition) {
    && !target.nodeType.TERMINAL?
    && target.assigneeRef.Some? && target.assigneeRef.value.refType.WORKFLOW_CREATOR?
    && !IsEnabled(env.directory, l.createdByPrincipalId)
  }

  /** The query finds the target available exactly when the runtime resolves it, but for disabled creators. */
  lemma AvailabilityAgrees(env: Env, l: InstanceRow, target: NodeDefinition)
    requires OneOwner(BindingsOf(env.directory, l.domainId)) && LegalAssignee(target)
    ensures ExpectedAssignee(env, l, target).Ok?
    ensures TargetAvailable(env.directory, target, ExpectedAssignee(env, l, target).value)
      <==> (&& ResolveAssignee(env.directory, target, l.createdByPrincipalId, l.domainId).Go?
            && !FallsToDisabledCreator(env, l, target))
  {
    hide FirstHolder, EnabledHolders, BindingsOf, OneOwner;
    OwnersAgree(env.directory, BindingsOf(env.directory, l.domainId));
  }

  lemma SameNode(nodes: seq<NodeDefinition>, a: NodeDefinition, b: NodeDefinition)
    requires UniqueNodeIds(nodes) && a in nodes && b in nodes && a.nodeId == b.nodeId
    ensures a == b
  {
    NodeIsItsLookup(nodes, a);
    NodeIsItsLookup(nodes, b);
  }

  lemma SameTransition(transitions: seq<TransitionDefinition>, a: TransitionDefinition, b: TransitionDefinition)
    requires UniqueTransitionIds(transitions) && a in transitions && b in transitions && a.transitionId == b.transitionId
    ensures a == b
  {
    TransitionIsItsLookup(transitions, a);
    TransitionIsItsLookup(transitions, b);
  }

  /** On a validated graph the rules for the ends of a transition hold for the nodes that it names. */
  lemma ValidatedEnds(g: WorkflowGraph, source: NodeDefinition, t: TransitionDefinition, target: NodeDefinition)
    requires Validated(g) && source in g.nodes && target in g.nodes && t in g.transitions
    requires t.sourceNodeId == source.nodeId && t.targetNodeId == target.nodeId
    ensures LegalEndpoints(t, source, target) && LegalAssignee(target)
  {
    hide Accepts, LegalAssignee, NodesById, LegalEndpoints, UniqueNodeIds;
    AcceptedEndpoints(g, t);
    AcceptedNode(g, target);
    var a, b :| a in g.nodes && b in g.nodes && LegalEndpoints(t, a, b);
    EndsOf(t, a, b);
    SameNode(g.nodes, a, source);
    SameNode(g.nodes, b, target);
  }

  lemma EndsOf(t: TransitionDefinition, a: NodeDefinition, b: NodeDefinition)
    requires LegalEndpoints(t, a, b)
    ensures a.nodeId == t.sourceNodeId && b.nodeId == t.targetNodeId && !a.nodeType.TERMINAL?
  {
  }

  /** On a validated graph the primary of an open node is an ADVANCE. */
  lemma PrimaryAdvances(g: WorkflowGraph, source: NodeDefinition, t: TransitionDefinition)
    requires Validated(g) && source in g.nodes && !source.nodeType.TERMINAL? && t in g.transitions
    ensures source.primaryAdvanceTransitionId.Some?
    ensures source.primaryAdvanceTransitionId == Some(t.transitionId) ==> t.transitionEffect.ADVANCE?
  {
    hide Accepts, TransitionsById, UniqueNodeIds, UniqueTransitionIds;
    AcceptedPrimary(g, source);
    var above :| above in g.nodes && IsPrimaryEdge(g.transitions, source, above);
    var primary :| primary in g.transitions && IsPrimaryStep(source, primary, above);
    if primary.transitionId == t.transitionId {
      SameTransition(g.transitions, primary, t);
    }
  }

  /** On a validated graph, an offered transition has the shape that the runtime demands. */
  lemma ValidatedShape(g: WorkflowGraph, source: NodeDefinition, t: TransitionDefinition, target: NodeDefinition)
    requires Validated(g) && source in g.nodes && target in g.nodes && t in g.transitions
    requires t.sourceNodeId == source.nodeId && t.targetNodeId == target.nodeId
    requires t.transitionEffect.ADVANCE? ==> source.primaryAdvanceTransitionId == Some(t.transitionId)
    ensures EffectFits(source, t).Go? && TargetFits(source, t, target).Go? && LegalAssignee(target)
  {
    hide Validated, LegalAssignee;
    ValidatedEnds(g, source, t, target);
    PrimaryAdvances(g, source, t);
  }

  /** What the query knows when it offers a transition. */
  ghost predicate Offers(env: Env, l: Ledger, s: Standing, t: TransitionDefinition, target: NodeDefinition) {
    && StandingOf(env, l) == Ok(s)
    && t in GraphOf(env.catalog, l.instance.definitionVersionId).transitions && t.sourceNodeId == s.node.nodeId
    && NodeOf(env.catalog, l.instance.definitionVersionId, t.targetNodeId) == Some(target)
  }

  /** The actor's command for a transition, at the version that the query saw. */
  function CommandFor(l: Ledger, actor: Uuid, t: TransitionDefinition, payload: Option<Json>): TransitionCommand {
    TransitionCommand(actor, l.instance.workflowInstanceId, l.instance.projection.workflowStateVersion, t.transitionId, payload)
  }

  /** The runtime's checks on a command for `t`, as one condition. */
  lemma ChecksOf(env: Env, ledgers: map<Uuid, Ledger>, l: Ledger, s: Standing, t: TransitionDefinition, target: NodeDefinition,
                 actor: Uuid, payload: Option<Json>)
    requires l.instance.workflowInstanceId in ledgers && ledgers[l.instance.workflowInstanceId] == l && HasPointers(l)
    requires Offers(env, l, s, t, target)
    requires TransitionOf(env.catalog, l.instance.definitionVersionId, t.transitionId) == Some(t)
    requires s.visit.nodeType == s.node.nodeType && IsEnabled(env.directory, actor)
    requires SubmissionFitsSchema(env.catalog, l, t, payload).Go?
    ensures CheckTransition(env, ledgers, CommandFor(l, actor, t, payload)).Go?
      <==> (&& !s.node.nodeType.TERMINAL? && s.visit.assigneePrincipalId == Some(actor)
            && !s.status.Revoked? && !s.status.Draft?
            && EffectFits(s.node, t).Go? && TargetFits(s.node, t, target).Go?
            && ResolveAssignee(env.directory, target, l.instance.createdByPrincipalId, l.instance.domainId).Go?)
  {
    hide CurrentVisit, GraphOf, NodeOf, TransitionOf, EffectFits, TargetFits, SubmissionFitsSchema, ResolveAssignee;
  }

  lemma CoherentStanding(env: Env, l: Ledger, s: Standing)
    requires Coherent(env.catalog, l) && StandingOf(env, l) == Ok(s)
    ensures s.visit.nodeType == s.node.nodeType && HasPointers(l)
    ensures s.node in GraphOf(env.catalog, l.instance.definitionVersionId).nodes
  {
    hide FactsValid, Fold, Coupled, NodeOf, GraphOf;
    assert s.visit in l.visits;
  }

  /**
   The read side never over-promises: on a validated graph, in a coherent ledger, an enabled actor's
   command with a fitting payload passes every runtime check whenever the query leaves the transition
   unblocked; and the query blocks one that passes only when its target falls to a disabled creator.
   */
  lemma UnblockedIffAccepted(env: Env, ledgers: map<Uuid, Ledger>, l: Ledger, s: Standing, t: TransitionDefinition,
                             target: NodeDefinition, actor: Uuid, payload: Option<Json>)
    requires l.instance.workflowInstanceId in ledgers && ledgers[l.instance.workflowInstanceId] == l
    requires Coherent(env.catalog, l) && Validated(GraphOf(env.catalog, l.instance.definitionVersionId))
    requires Offers(env, l, s, t, target) && IsEnabled(env.directory, actor)
    requires OneOwner(BindingsOf(env.directory, l.instance.domainId))
    requires IsLawfulSubmission(env.catalog, l, t, payload)
    ensures ExpectedAssignee(env, l.instance, target).Ok?
    ensures BlockedBy(s, t, TargetAvailable(env.directory, target, ExpectedAssignee(env, l.instance, target).value), actor).None?
      <==> (&& CheckTransition(env, ledgers, CommandFor(l, actor, t, payload)).Go?
            && !FallsToDisabledCreator(env, l.instance, target))
  {
    hide Coherent, Validated, GraphOf, NodeOf, CheckTransition, SubmissionFitsSchema, IsLawfulSubmission, ResolveAssignee,
         ExpectedAssignee, TargetAvailable, FallsToDisabledCreator, BindingsOf, OneOwner, LegalAssignee, StandingOf;
    var g := GraphOf(env.catalog, l.instance.definitionVersionId);
    CoherentStanding(env, l, s);
    StoredTransition(env.catalog, l.instance.definitionVersionId, t);
    SubmissionsAgree(env.catalog, l, t, payload);
    ChecksOf(env, ledgers, l, s, t, target, actor, payload);
    ValidatedEnds(g, s.node, t, target);
    AvailabilityAgrees(env, l.instance, target);
    if t.transitionEffect.ADVANCE? ==> s.node.primaryAdvanceTransitionId == Some(t.transitionId) {
      ValidatedShape(g, s.node, t, target);
    }
  }

  lemma StoredTransition(catalog: Catalog, versionId: Uuid, t: TransitionDefinition)
    requires Validated(GraphOf(catalog, versionId)) && t in GraphOf(catalog, versionId).transitions
    ensures TransitionOf(catalog, versionId, t.transitionId) == Some(t)
  {
    hide Accepts, GraphOf, UniqueNodeIds;
    TransitionIsItsLookup(GraphOf(catalog, versionId).transitions, t);
  }

  // ----- The whole list -----

  /** The list holds an item for every transition that leaves the current node, and nothing else. */
  lemma {:induction false} ItemsAreOffers(env: Env, l: Ledger, s: Standing, rows: seq<TransitionDefinition>, actor: Uuid)
    requires forall t :: t in rows && t.sourceNodeId == s.node.nodeId ==>
               NodeOf(env.catalog, l.instance.definitionVersionId, t.targetNodeId).Some?
               && ExpectedAssignee(env, l.instance, NodeOf(env.catalog, l.instance.definitionVersionId, t.targetNodeId).value).Ok?
    ensures ItemsOf(env, l, s, rows, actor).Ok?
    ensures forall t :: t in rows && t.sourceNodeId == s.node.nodeId ==>
              ItemFor(env, l, s, t, actor) in ItemsOf(env, l, s, rows, actor).value
    ensures forall item :: item in ItemsOf(env, l, s, rows, actor).value ==>
              item.transition in rows && item.transition.sourceNodeId == s.node.nodeId
              && item == ItemFor(env, l, s, item.transition, actor)
  {
    hide NodeOf, ExpectedAssignee, TargetAvailable, BlockedBy;
    if rows != [] {
      var before, last := rows[..|rows| - 1], rows[|rows| - 1];
      assert rows == before + [last];
      ItemsAreOffers(env, l, s, before, actor);
    }
  }

  /** The item of one transition. */
  function ItemFor(env: Env, l: Ledger, s: Standing, t: TransitionDefinition, actor: Uuid): OutgoingItem
    requires NodeOf(env.catalog, l.instance.definitionVersionId, t.targetNodeId).Some?
    requires ExpectedAssignee(env, l.instance, NodeOf(env.catalog, l.instance.definitionVersionId, t.targetNodeId).value).Ok?
  {
    var target := NodeOf(env.catalog, l.instance.definitionVersionId, t.targetNodeId).value;
    var assignee := ExpectedAssignee(env, l.instance, target).value;
    OutgoingItem(t, target, BlockedBy(s, t, TargetAvailable(env.directory, target, assignee), actor))
  }

  lemma TargetIsLegal(env: Env, l: Ledger, t: TransitionDefinition)
    requires Validated(GraphOf(env.catalog, l.instance.definitionVersionId))
    requires t in GraphOf(env.catalog, l.instance.definitionVersionId).transitions
    requires NodeOf(env.catalog, l.instance.definitionVersionId, t.targetNodeId).Some?
    ensures LegalAssignee(NodeOf(env.catalog, l.instance.definitionVersionId, t.targetNodeId).value)
  {
    hide Accepts, LegalAssignee, GraphOf, NodesById;
    AcceptedNode(GraphOf(env.catalog, l.instance.definitionVersionId),
                 NodeOf(env.catalog, l.instance.definitionVersionId, t.targetNodeId).value);
  }

  lemma LegalIsExpected(env: Env, l: InstanceRow, target: NodeDefinition)
    requires LegalAssignee(target)
    ensures ExpectedAssignee(env, l, target).Ok?
  {
    hide FirstHolder, EnabledHolders;
  }

  /** On a validated graph every transition has a stored target with a known rule. */
  lemma RowsResolve(env: Env, l: Ledger, t: TransitionDefinition)
    requires Validated(GraphOf(env.catalog, l.instance.definitionVersionId))
    requires t in GraphOf(env.catalog, l.instance.definitionVersionId).transitions
    ensures var target := NodeOf(env.catalog, l.instance.definitionVersionId, t.targetNodeId);
      target.Some? && ExpectedAssignee(env, l.instance, target.value).Ok?
  {
    hide Accepts, LegalAssignee, GraphOf, NodesById, LegalTransition, ExpectedAssignee, UniqueNodeIds, UniqueTransitionIds;
    AcceptedEndpoints(GraphOf(env.catalog, l.instance.definitionVersionId), t);
    TargetIsLegal(env, l, t);
    LegalIsExpected(env, l.instance, NodeOf(env.catalog, l.instance.definitionVersionId, t.targetNodeId).value);
  }

  // ----- The reasons that are shown -----

  /** An active principal is there to take the target: the creator, the fixed principal or some owner; or it is terminal. */
  predicate HasTaker(d: Directory, row: InstanceRow, target: NodeDefinition) {
    target.nodeType.TERMINAL? || ResolvesForAdmin(d, target.assigneeRef, row.createdByPrincipalId, row.domainId)
  }

  /** The transition could be taken from the node, by whoever is assigned there. */
  predicate IsOffered(s: Standing, t: TransitionDefinition) {
    && !s.node.nodeType.TERMINAL? && (s.status.Published? || s.status.Deprecated?)
    && (t.transitionEffect.ADVANCE? ==> s.node.primaryAdvanceTransitionId == Some(t.transitionId))
  }

  /** The shown reason is the first that applies, and none is shown exactly when none applies. */
  predicate ReasonApplies(d: Directory, row: InstanceRow, s: Standing, actor: Uuid, item: OutgoingItem) {
    var t, isActors := item.transition, s.visit.assigneePrincipalId == Some(actor);
    match item.blocked
    case Some(CurrentNodeIsTerminal) => s.node.nodeType.TERMINAL?
    case Some(VersionIsRevoked) => !s.node.nodeType.TERMINAL? && s.status.Revoked?
    case Some(VersionIsDraft) => !s.node.nodeType.TERMINAL? && s.status.Draft?
    case Some(AdvanceIsNotPrimary) =>
      && !s.node.nodeType.TERMINAL? && (s.status.Published? || s.status.Deprecated?)
      && t.transitionEffect.ADVANCE? && s.node.primaryAdvanceTransitionId != Some(t.transitionId)
    case Some(ActorIsNotCurrentAssignee) => IsOffered(s, t) && !isActors
    case Some(TargetAssigneeIsUnavailable) => IsOffered(s, t) && isActors && !HasTaker(d, row, item.target)
    case None => IsOffered(s, t) && isActors && HasTaker(d, row, item.target)
  }

  lemma AvailableIsTaken(env: Env, row: InstanceRow, target: NodeDefinition)
    requires LegalAssignee(target)
    ensures ExpectedAssignee(env, row, target).Ok?
    ensures TargetAvailable(env.directory, target, ExpectedAssignee(env, row, target).value)
       <==> HasTaker(env.directory, row, target)
  {
    hide FirstHolder, EnabledHolders;
    EnabledHoldersAre(env.directory, BindingsOf(env.directory, row.domainId));
  }

  lemma ItemReason(env: Env, l: Ledger, s: Standing, t: TransitionDefinition, actor: Uuid)
    requires NodeOf(env.catalog, l.instance.definitionVersionId, t.targetNodeId).Some?
    requires LegalAssignee(NodeOf(env.catalog, l.instance.definitionVersionId, t.targetNodeId).value)
    ensures ExpectedAssignee(env, l.instance, NodeOf(env.catalog, l.instance.definitionVersionId, t.targetNodeId).value).Ok?
    ensures ReasonApplies(env.directory, l.instance, s, actor, ItemFor(env, l, s, t, actor))
  {
    hide NodeOf, TargetAvailable, ExpectedAssignee, HasTaker, LegalAssignee;
    AvailableIsTaken(env, l.instance, NodeOf(env.catalog, l.instance.definitionVersionId, t.targetNodeId).value);
  }

  // ----- Every reachable state -----

  /** The transitions among the rows that leave the node, in the order of the rows. */
  function Leaving(rows: seq<TransitionDefinition>, nodeId: Uuid): seq<TransitionDefinition> {
    if rows == [] then []
    else
      var last := rows[|rows| - 1];
      Leaving(rows[..|rows| - 1], nodeId) + if last.sourceNodeId == nodeId then [last] else []
  }

  lemma {:induction false} ItemsInOrder(env: Env, l: Ledger, s: Standing, rows: seq<TransitionDefinition>, actor: Uuid)
    requires forall t :: t in rows && t.sourceNodeId == s.node.nodeId ==>
               NodeOf(env.catalog, l.instance.definitionVersionId, t.targetNodeId).Some?
               && ExpectedAssignee(env, l.instance, NodeOf(env.catalog, l.instance.definitionVersionId, t.targetNodeId).value).Ok?
    ensures ItemsOf(env, l, s, rows, actor).Ok?
    ensures var items, leaving := ItemsOf(env, l, s, rows, actor).value, Leaving(rows, s.node.nodeId);
      |items| == |leaving| && forall k :: 0 <= k < |items| ==> items[k].transition == leaving[k]
  {
    hide NodeOf, ExpectedAssignee, TargetAvailable, BlockedBy;
    if rows != [] {
      var before, last := rows[..|rows| - 1], rows[|rows| - 1];
      assert rows == before + [last];
      ItemsInOrder(env, l, s, before, actor);
    }
  }

  /** The instance's current visit, the visit's node, and the status of the version. */
  predicate IsStanding(catalog: Catalog, d: Directory, l: Ledger, s: Standing) {
    var versionId := l.instance.definitionVersionId;
    && IsCurrentVisit(l, s.visit) && IsNodeOf(GraphOf(catalog, versionId), s.node, s.visit.nodeId)
    && versionId in d.versionStatus && d.versionStatus[versionId] == s.status
  }

  lemma StandingStands(env: Env, l: Ledger)
    ensures StandingOf(env, l).Ok? ==> IsStanding(env.catalog, env.directory, l, StandingOf(env, l).value)
  {
    hide VisitsById, GraphOf, NodesById;
  }

  /**
   The list holds the transitions that leave the current node, each once and in the order of the rows, and its
   reasons are the ones that apply.
   */
  ghost predicate ListAgrees(catalog: Catalog, st: DbState, id: Uuid, rows: seq<TransitionDefinition>, actor: Uuid)
    requires id in st.ledgers
  {
    var env, l := Env(catalog, st.directory), st.ledgers[id];
    && OutgoingOf(env, l, rows, actor).Ok? && StandingOf(env, l).Ok?
    && var s, items := StandingOf(env, l).value, OutgoingOf(env, l, rows, actor).value;
    && IsStanding(catalog, st.directory, l, s)
    && (var leaving := Leaving(rows, s.node.nodeId);
        |items| == |leaving| && forall k :: 0 <= k < |items| ==> items[k].transition == leaving[k])
    && (forall t :: t in GraphOf(catalog, l.instance.definitionVersionId).transitions && t.sourceNodeId == s.node.nodeId ==>
          exists item :: item in items && item.transition == t)
    && (forall item :: item in items ==>
          && NodeOf(catalog, l.instance.definitionVersionId, item.transition.targetNodeId) == Some(item.target)
          && ReasonApplies(st.directory, l.instance, s, actor, item))
  }

  /** The list agrees, and its verdicts are the runtime's. */
  ghost predicate OffersAgree(catalog: Catalog, st: DbState, id: Uuid, rows: seq<TransitionDefinition>, actor: Uuid)
    requires id in st.ledgers
  {
    var env, l := Env(catalog, st.directory), st.ledgers[id];
    && ListAgrees(catalog, st, id, rows, actor)
    && (forall item, payload :: item in OutgoingOf(env, l, rows, actor).value
                                && IsLawfulSubmission(catalog, l, item.transition, payload) ==>
          (item.blocked.None? <==>
             && CheckTransition(env, st.ledgers, CommandFor(l, actor, item.transition, payload)).Go?
             && !FallsToDisabledCreator(env, l.instance, item.target)))
  }

  /** What the query relies on: a validated version with a status, one owner, and an enabled actor. */
  ghost predicate IsQueried(catalog: Catalog, st: DbState, id: Uuid, rows: seq<TransitionDefinition>, actor: Uuid)
    requires id in st.ledgers
  {
    var l := st.ledgers[id];
    && Validated(GraphOf(catalog, l.instance.definitionVersionId))
    && IsListing(GraphOf(catalog, l.instance.definitionVersionId), rows)
    && l.instance.definitionVersionId in st.directory.versionStatus
    && OneOwner(BindingsOf(st.directory, l.instance.domainId)) && IsEnabled(st.directory, actor)
  }

  lemma TargetsResolve(catalog: Catalog, st: DbState, id: Uuid, rows: seq<TransitionDefinition>, actor: Uuid)
    requires Inv(catalog, st) && id in st.ledgers && IsQueried(catalog, st, id, rows, actor)
    ensures StandingOf(Env(catalog, st.directory), st.ledgers[id]).Ok?
    ensures forall t :: t in rows ==>
              var target := NodeOf(catalog, st.ledgers[id].instance.definitionVersionId, t.targetNodeId);
              target.Some? && ExpectedAssignee(Env(catalog, st.directory), st.ledgers[id].instance, target.value).Ok?
  {
    hide Inv, Coherent, Validated, GraphOf, NodeOf, ExpectedAssignee, BindingsOf, OneOwner, LinkageHolds, CurrentVisit, UniqueIds,
         DomainHolds;
    var env, l := Env(catalog, st.directory), st.ledgers[id];
    var g := GraphOf(catalog, l.instance.definitionVersionId);
    assert forall t :: t in rows <==> t in multiset(g.transitions);
    CoherentAt(catalog, st, id);
    StandingExists(catalog, st, id);
    forall t | t in rows
      ensures var target := NodeOf(catalog, l.instance.definitionVersionId, t.targetNodeId);
        target.Some? && ExpectedAssignee(env, l.instance, target.value).Ok?
    {
      RowsResolve(env, l, t);
    }
  }

  lemma ListAgreesUnderInv(catalog: Catalog, st: DbState, id: Uuid, rows: seq<TransitionDefinition>, actor: Uuid)
    requires Inv(catalog, st) && id in st.ledgers && IsQueried(catalog, st, id, rows, actor)
    ensures ListAgrees(catalog, st, id, rows, actor)
  {
    hide Inv, Coherent, Validated, GraphOf, NodeOf, ExpectedAssignee, TargetAvailable, ReasonApplies, Leaving, IsStanding,
         BindingsOf, OneOwner, BlockedBy, ItemsOf, LinkageHolds, CurrentVisit, UniqueIds, DomainHolds;
    var env, l := Env(catalog, st.directory), st.ledgers[id];
    var g := GraphOf(catalog, l.instance.definitionVersionId);
    TargetsResolve(catalog, st, id, rows, actor);
    assert forall t :: t in rows <==> t in multiset(g.transitions);
    var s := StandingOf(env, l).value;
    ItemsAreOffers(env, l, s, rows, actor);
    ItemsInOrder(env, l, s, rows, actor);
    StandingStands(env, l);
    forall item | item in OutgoingOf(env, l, rows, actor).value
      ensures NodeOf(catalog, l.instance.definitionVersionId, item.transition.targetNodeId) == Some(item.target)
      ensures ReasonApplies(st.directory, l.instance, s, actor, item)
    {
      TargetIsLegal(env, l, item.transition);
      ItemReason(env, l, s, item.transition, actor);
    }
    forall t | t in rows && t.sourceNodeId == s.node.nodeId
      ensures exists item :: item in OutgoingOf(env, l, rows, actor).value && item.transition == t
    {
      assert ItemFor(env, l, s, t, actor) in OutgoingOf(env, l, rows, actor).value;
    }
  }

  lemma OffersAgreeUnderInv(catalog: Catalog, st: DbState, id: Uuid, rows: seq<TransitionDefinition>, actor: Uuid)
    requires Inv(catalog, st) && id in st.ledgers && IsQueried(catalog, st, id, rows, actor)
    ensures OffersAgree(catalog, st, id, rows, actor)
  {
    hide Inv, Coherent, Validated, GraphOf, NodeOf, CheckTransition, IsLawfulSubmission, ExpectedAssignee, TargetAvailable,
         FallsToDisabledCreator, BindingsOf, OneOwner, BlockedBy, ItemsOf, LinkageHolds, CurrentVisit, UniqueIds, DomainHolds,
         ListAgrees;
    var env, l := Env(catalog, st.directory), st.ledgers[id];
    var g := GraphOf(catalog, l.instance.definitionVersionId);
    assert forall t :: t in rows <==> t in multiset(g.transitions);
    ListAgreesUnderInv(catalog, st, id, rows, actor);
    CoherentAt(catalog, st, id);
    TargetsResolve(catalog, st, id, rows, actor);
    var s := StandingOf(env, l).value;
    ItemsAreOffers(env, l, s, rows, actor);
    forall item, payload | item in OutgoingOf(env, l, rows, actor).value
                           && IsLawfulSubmission(catalog, l, item.transition, payload)
      ensures item.blocked.None? <==>
                && CheckTransition(env, st.ledgers, CommandFor(l, actor, item.transition, payload)).Go?
                && !FallsToDisabledCreator(env, l.instance, item.target)
    {
      assert item == ItemFor(env, l, s, item.transition, actor);
      UnblockedIffAccepted(env, st.ledgers, l, s, item.transition, item.target, actor, payload);
    }
  }

  /** An accepted ledger has a current visit, and the visit a node: the query's own guard would refuse it otherwise. */
  lemma StandingExists(catalog: Catalog, st: DbState, id: Uuid)
    requires Inv(catalog, st) && id in st.ledgers
    requires st.ledgers[id].instance.definitionVersionId in st.directory.versionStatus
    ensures StandingOf(Env(catalog, st.directory), st.ledgers[id]).Ok?
  {
    hide FactsValid, Fold, NodeOf, Reconstruct, LinkageHolds, Coupled, ValidateAllFacts, VisitsById, UniqueIds;
    var l := st.ledgers[id];
    CoherentAt(catalog, st, id);
    CoherentReconstructs(catalog, st.receipts, l);
    ReplayImpliesQueryAcceptance(catalog, st.receipts, l);
    assert CurrentVisit(l).value in l.visits;
  }

  /**
   The detail query, in every state of every run, for an instance of a validated definition: it lists exactly
   the transitions that leave the current node, each once, in whatever order the rows come, with the first
   reason that applies; and for an enabled actor with a fitting payload an item is unblocked exactly when the
   command passes all runtime checks and its target does not fall to a disabled creator.
   */
  lemma OffersNeverOverPromise(catalog: Catalog, run: seq<DbState>, actions: seq<Action>, i: nat, id: Uuid,
                               rows: seq<TransitionDefinition>, actor: Uuid)
    requires KeyedCatalog(catalog) && IsRun(catalog, run, actions) && i < |run| && id in run[i].ledgers
    requires IsQueried(catalog, run[i], id, rows, actor)
    ensures OffersAgree(catalog, run[i], id, rows, actor)
  {
    hide KeyedCatalog, IsRun, Inv, IsQueried, OffersAgree;
    RunKeepsInv(catalog, run, actions, i);
    OffersAgreeUnderInv(catalog, run[i], id, rows, actor);
  }
}
