/**
 What each finding of the graph validator means, code by code. A finding predicate says when a
 node, a transition or the graph as a whole deserves an error; the validator of GraphValidation
 is proved to report exactly these.
 */
module GraphRules {
  import opened Prelude
  import opened DefinitionModel
  import opened GraphErrors
  import opened GraphReachability
  import opened PrimaryTrunk

  function OfType(nodes: seq<NodeDefinition>, nodeType: NodeType): (found: seq<NodeDefinition>)
    ensures |found| <= |nodes|
    ensures forall n :: n in found <==> n in nodes && n.nodeType == nodeType
  {
    if nodes == [] then []
    else
      var last := nodes[|nodes| - 1];
      OfType(nodes[..|nodes| - 1], nodeType) + if last.nodeType == nodeType then [last] else []
  }

  function FirstDraft(nodes: seq<NodeDefinition>): Option<NodeDefinition> {
    var drafts := OfType(nodes, DRAFT);
    if drafts == [] then None else Some(drafts[0])
  }

  /** The transition that a node's primary reference names, if there is one. */
  function PrimaryOf(transitionsById: map<Uuid, TransitionDefinition>, n: NodeDefinition): Option<TransitionDefinition> {
    if n.primaryAdvanceTransitionId.Some? && n.primaryAdvanceTransitionId.value in transitionsById
    then Some(transitionsById[n.primaryAdvanceTransitionId.value])
    else None
  }

  /** The primary map: a later node with the same id replaces an earlier one. */
  function PrimaryTargets(nodes: seq<NodeDefinition>, transitionsById: map<Uuid, TransitionDefinition>): (f: PrimaryMap)
    ensures forall id :: id in f ==> exists n :: n in nodes && n.nodeId == id && !n.nodeType.TERMINAL?
  {
    if nodes == [] then map[]
    else
      var last := nodes[|nodes| - 1];
      var before := PrimaryTargets(nodes[..|nodes| - 1], transitionsById);
      var primary := PrimaryOf(transitionsById, last);
      if primary.Some? && !last.nodeType.TERMINAL? then before[last.nodeId := primary.value.targetNodeId] else before
  }

  lemma PrimaryTargetsSnoc(nodes: seq<NodeDefinition>, transitionsById: map<Uuid, TransitionDefinition>, i: nat)
    requires i < |nodes|
    ensures PrimaryTargets(nodes[..i + 1], transitionsById)
         == if PrimaryOf(transitionsById, nodes[i]).Some? && !nodes[i].nodeType.TERMINAL?
            then PrimaryTargets(nodes[..i], transitionsById)
                   [nodes[i].nodeId := PrimaryOf(transitionsById, nodes[i]).value.targetNodeId]
            else PrimaryTargets(nodes[..i], transitionsById)
  {
    assert nodes[..i + 1][..i] == nodes[..i];
  }

  function OutgoingKeys(transitions: seq<TransitionDefinition>, nodeId: Uuid): (keys: seq<string>)
    ensures keys == [] <==> forall t :: t in transitions ==> t.sourceNodeId != nodeId
  {
    if transitions == [] then []
    else
      var last := transitions[|transitions| - 1];
      OutgoingKeys(transitions[..|transitions| - 1], nodeId)
      + if last.sourceNodeId == nodeId then [last.transitionKey] else []
  }

  // ----- Findings, one predicate for each pass of the validator -----

  predicate DuplicateOrderAt(nodes: seq<NodeDefinition>, j: int, e: GraphError) {
    && e.DuplicateOrderIndex?
    && 0 <= j < |nodes|
    && nodes[j].nodeKey == e.nodeKey
    && nodes[j].orderIndex == e.orderIndex
    && exists i :: 0 <= i < j && nodes[i].orderIndex == e.orderIndex
  }

  ghost predicate NodeRuleFinding(g: WorkflowGraph, e: GraphError) {
    match e
    case MinNodes => |g.nodes| < 2
    case NoDraftNode => forall n :: n in g.nodes ==> !n.nodeType.DRAFT?
    case MultipleDraftNodes(count) => count == |OfType(g.nodes, DRAFT)| > 1
    case NoTerminalNode => forall n :: n in g.nodes ==> !n.nodeType.TERMINAL?
    case DuplicateOrderIndex(_, _) => exists j :: DuplicateOrderAt(g.nodes, j, e)
    case _ => false
  }

  predicate AssigneeFinding(n: NodeDefinition, e: GraphError) {
    match e
    case TerminalHasAssignee(key) => n.nodeKey == key && n.nodeType.TERMINAL? && n.assigneeRef.Some?
    case AssigneeRequired(key) => n.nodeKey == key && !n.nodeType.TERMINAL? && n.assigneeRef.None?
    case DraftNotWorkflowCreator(key) =>
      n.nodeKey == key && n.nodeType.DRAFT? && n.assigneeRef.Some? && !n.assigneeRef.value.refType.WORKFLOW_CREATOR?
    case UnexpectedFixedPrincipal(key) =>
      && n.nodeKey == key && !n.nodeType.TERMINAL?
      && n.assigneeRef.Some? && n.assigneeRef.value.fixedPrincipalId.Some?
      && (n.nodeType.DRAFT? || !n.assigneeRef.value.refType.FIXED_PRINCIPAL?)
    case FixedPrincipalMissingId(key) =>
      && n.nodeKey == key && n.nodeType.NORMAL?
      && n.assigneeRef.Some? && n.assigneeRef.value.refType.FIXED_PRINCIPAL?
      && n.assigneeRef.value.fixedPrincipalId.None?
    case _ => false
  }

  predicate ReferenceFinding(nodesById: map<Uuid, NodeDefinition>, t: TransitionDefinition, e: GraphError) {
    match e
    case TransitionSourceMissing(key) => t.transitionKey == key && t.sourceNodeId !in nodesById
    case TransitionTargetMissing(key) => t.transitionKey == key && t.targetNodeId !in nodesById
    case SelfLoop(key) => t.transitionKey == key && t.sourceNodeId == t.targetNodeId
    case _ => false
  }

  predicate PrimaryFinding(nodesById: map<Uuid, NodeDefinition>, transitionsById: map<Uuid, TransitionDefinition>,
                           n: NodeDefinition, e: GraphError)
  {
    var primary := PrimaryOf(transitionsById, n);
    match e
    case PrimaryNotFromNode(tkey, nkey) =>
      n.nodeKey == nkey && primary.Some? && primary.value.transitionKey == tkey && primary.value.sourceNodeId != n.nodeId
    case PrimaryNotAdvance(tkey, nkey) =>
      n.nodeKey == nkey && primary.Some? && primary.value.transitionKey == tkey && !primary.value.transitionEffect.ADVANCE?
    case PrimaryNotAdvancing(tkey, nkey) =>
      && n.nodeKey == nkey && primary.Some? && primary.value.transitionKey == tkey
      && primary.value.targetNodeId in nodesById
      && nodesById[primary.value.targetNodeId].orderIndex <= n.orderIndex
    case PrimaryTransitionMissing(nkey, id) =>
      n.nodeKey == nkey && n.primaryAdvanceTransitionId == Some(id) && primary.None? && !n.nodeType.TERMINAL?
    case TerminalHasPrimary(nkey) =>
      n.nodeKey == nkey && n.primaryAdvanceTransitionId.Some? && primary.None? && n.nodeType.TERMINAL?
    case MissingPrimary(nkey) =>
      n.nodeKey == nkey && n.primaryAdvanceTransitionId.None? && !n.nodeType.TERMINAL?
    case _ => false
  }

  ghost predicate CycleFinding(nodesById: map<Uuid, NodeDefinition>, f: PrimaryMap, e: GraphError) {
    e.PrimaryCycle? && exists c :: IsCycle(f, c) && e.nodeKeys == KeysOf(nodesById, c)
  }

  ghost predicate TrunkFinding(draft: Option<NodeDefinition>, nodesById: map<Uuid, NodeDefinition>, f: PrimaryMap,
                               e: GraphError)
  {
    draft.Some? && e == PrimaryTrunkNoTerminal(draft.value.nodeKey) && TrunkStuck(nodesById, f, draft.value.nodeId)
  }

  ghost predicate ReachFinding(transitions: seq<TransitionDefinition>, draft: Option<NodeDefinition>, n: NodeDefinition,
                               e: GraphError)
  {
    draft.Some? && e == NodeNotReachable(n.nodeKey) && !Reaches(transitions, draft.value.nodeId, n.nodeId)
  }

  predicate ReturnFinding(nodesById: map<Uuid, NodeDefinition>, t: TransitionDefinition, e: GraphError) {
    t.transitionEffect.RETURN? &&
    match e
    case ReturnToTerminal(key) =>
      t.transitionKey == key && t.targetNodeId in nodesById && nodesById[t.targetNodeId].nodeType.TERMINAL?
    case ReturnNotBackward(key) =>
      && t.transitionKey == key && t.sourceNodeId in nodesById && t.targetNodeId in nodesById
      && nodesById[t.targetNodeId].orderIndex >= nodesById[t.sourceNodeId].orderIndex
    case ReturnIsPrimary(key) =>
      && t.transitionKey == key && t.sourceNodeId in nodesById
      && nodesById[t.sourceNodeId].primaryAdvanceTransitionId == Some(t.transitionId)
    case _ => false
  }

  predicate TerminateFinding(nodesById: map<Uuid, NodeDefinition>, t: TransitionDefinition, e: GraphError) {
    t.transitionEffect.TERMINATE? &&
    match e
    case TerminateIsPrimary(key) =>
      && t.transitionKey == key && t.sourceNodeId in nodesById
      && nodesById[t.sourceNodeId].primaryAdvanceTransitionId == Some(t.transitionId)
    case TerminateToNonTerminal(key) =>
      t.transitionKey == key && t.targetNodeId in nodesById && !nodesById[t.targetNodeId].nodeType.TERMINAL?
    case _ => false
  }

  predicate OutgoingFinding(transitions: seq<TransitionDefinition>, n: NodeDefinition, e: GraphError) {
    && n.nodeType.TERMINAL?
    && var keys := OutgoingKeys(transitions, n.nodeId);
    && keys != []
    && e == TerminalHasOutgoing(n.nodeKey, keys)
  }

  // ----- The graph as a whole -----

  function PrimaryMapOf(g: WorkflowGraph): PrimaryMap {
    PrimaryTargets(g.nodes, TransitionsById(g.transitions))
  }

  ghost predicate SomeAssigneeFinding(g: WorkflowGraph, e: GraphError) {
    exists n :: n in g.nodes && AssigneeFinding(n, e)
  }

  ghost predicate SomeReferenceFinding(g: WorkflowGraph, e: GraphError) {
    exists t :: t in g.transitions && ReferenceFinding(NodesById(g.nodes), t, e)
  }

  ghost predicate SomePrimaryFinding(g: WorkflowGraph, e: GraphError) {
    exists n :: n in g.nodes && PrimaryFinding(NodesById(g.nodes), TransitionsById(g.transitions), n, e)
  }

  ghost predicate SomeReachFinding(g: WorkflowGraph, e: GraphError) {
    exists n :: n in g.nodes && ReachFinding(g.transitions, FirstDraft(g.nodes), n, e)
  }

  ghost predicate SomeReturnFinding(g: WorkflowGraph, e: GraphError) {
    exists t :: t in g.transitions && ReturnFinding(NodesById(g.nodes), t, e)
  }

  ghost predicate SomeTerminateFinding(g: WorkflowGraph, e: GraphError) {
    exists t :: t in g.transitions && TerminateFinding(NodesById(g.nodes), t, e)
  }

  ghost predicate SomeOutgoingFinding(g: WorkflowGraph, e: GraphError) {
    exists n :: n in g.nodes && OutgoingFinding(g.transitions, n, e)
  }

  /** The graph deserves error `e`, which is not about a primary cycle. */
  ghost predicate AcyclicFinding(g: WorkflowGraph, e: GraphError) {
    || NodeRuleFinding(g, e)
    || SomeAssigneeFinding(g, e)
    || SomeReferenceFinding(g, e)
    || SomePrimaryFinding(g, e)
    || TrunkFinding(FirstDraft(g.nodes), NodesById(g.nodes), PrimaryMapOf(g), e)
    || SomeReachFinding(g, e)
    || SomeReturnFinding(g, e)
    || SomeTerminateFinding(g, e)
    || SomeOutgoingFinding(g, e)
  }

  /** The graph deserves error `e`. */
  ghost predicate Finding(g: WorkflowGraph, e: GraphError) {
    AcyclicFinding(g, e) || CycleFinding(NodesById(g.nodes), PrimaryMapOf(g), e)
  }

  ghost predicate HasFinding(g: WorkflowGraph) {
    exists e :: Finding(g, e)
  }

  /** The trunk walk of the validator ends on this graph. */
  ghost predicate ValidationHalts(g: WorkflowGraph) {
    var draft := FirstDraft(g.nodes);
    draft.Some? ==> TrunkHalts(NodesById(g.nodes), PrimaryMapOf(g), draft.value.nodeId)
  }

  /** The validator returns on this graph and reports nothing. */
  ghost predicate Accepts(g: WorkflowGraph) {
    ValidationHalts(g) && !HasFinding(g)
  }

  lemma {:induction false} PrimaryMapSources(nodes: seq<NodeDefinition>, transitionsById: map<Uuid, TransitionDefinition>)
    requires UniqueNodeIds(nodes)
    ensures var f := PrimaryTargets(nodes, transitionsById);
      && IsPrimaryMap(NodesById(nodes), f)
      && (forall n :: n in nodes && !n.nodeType.TERMINAL? && PrimaryOf(transitionsById, n).Some? ==>
            n.nodeId in f && f[n.nodeId] == PrimaryOf(transitionsById, n).value.targetNodeId)
      && (forall n :: n in nodes && n.nodeId in f ==> PrimaryOf(transitionsById, n).Some?)
  {
    if nodes != [] {
      var before, last := nodes[..|nodes| - 1], nodes[|nodes| - 1];
      hide PrimaryOf;
      assert nodes == before + [last];
      PrimaryMapSources(before, transitionsById);
    }
  }

  /** With unique node ids, validation ends exactly when the trunk avoids cycles of two or more nodes. */
  lemma ValidationHaltsIff(g: WorkflowGraph)
    requires UniqueNodeIds(g.nodes)
    ensures ValidationHalts(g) <==>
              (FirstDraft(g.nodes).Some? ==> !RunsIntoLongCycle(PrimaryMapOf(g), FirstDraft(g.nodes).value.nodeId))
  {
    PrimaryMapSources(g.nodes, TransitionsById(g.transitions));
    if FirstDraft(g.nodes).Some? {
      TrunkHaltsIff(NodesById(g.nodes), PrimaryMapOf(g), FirstDraft(g.nodes).value.nodeId);
    }
  }
}
