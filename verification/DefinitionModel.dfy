/** Workflow definitions: nodes, transitions and graphs, as the validator and the digest see them. */
module DefinitionModel {
  import opened Prelude

  datatype VersionStatus = Draft | Published | Deprecated | Revoked

  datatype NodeType = DRAFT | NORMAL | TERMINAL

  datatype TransitionEffect = ADVANCE | RETURN | TERMINATE

  datatype AssigneeRefType = WORKFLOW_CREATOR | DOMAIN_OWNER | FIXED_PRINCIPAL

  datatype AssigneeRef = AssigneeRef(refType: AssigneeRefType, fixedPrincipalId: Option<Uuid>)

  datatype NodeDefinition = NodeDefinition(
    nodeId: Uuid,
    nodeKey: string,
    displayName: string,
    orderIndex: int,
    nodeType: NodeType,
    assigneeRef: Option<AssigneeRef>,
    instructions: Option<string>,
    primaryAdvanceTransitionId: Option<Uuid>,
    metadata: Option<Json>)

  datatype TransitionDefinition = TransitionDefinition(
    transitionId: Uuid,
    transitionKey: string,
    displayName: string,
    sourceNodeId: Uuid,
    targetNodeId: Uuid,
    transitionEffect: TransitionEffect,
    submissionSchema: Option<Json>,
    metadata: Option<Json>)

  datatype WorkflowGraph = WorkflowGraph(
    nodes: seq<NodeDefinition>,
    transitions: seq<TransitionDefinition>,
    contextSchema: Option<Json>)

  /** The lookup map of a list of nodes; a later entry replaces an earlier one with the same id. */
  function NodesById(nodes: seq<NodeDefinition>): (m: map<Uuid, NodeDefinition>)
    ensures forall id :: id in m ==> m[id] in nodes && m[id].nodeId == id
    ensures forall n :: n in nodes ==> n.nodeId in m
  {
    if nodes == [] then map[]
    else
      var last := nodes[|nodes| - 1];
      NodesById(nodes[..|nodes| - 1])[last.nodeId := last]
  }

  function TransitionsById(transitions: seq<TransitionDefinition>): (m: map<Uuid, TransitionDefinition>)
    ensures forall id :: id in m ==> m[id] in transitions && m[id].transitionId == id
    ensures forall t :: t in transitions ==> t.transitionId in m
  {
    if transitions == [] then map[]
    else
      var last := transitions[|transitions| - 1];
      TransitionsById(transitions[..|transitions| - 1])[last.transitionId := last]
  }

  predicate UniqueNodeIds(nodes: seq<NodeDefinition>) {
    forall i, j :: 0 <= i < j < |nodes| ==> nodes[i].nodeId != nodes[j].nodeId
  }

  predicate UniqueTransitionIds(transitions: seq<TransitionDefinition>) {
    forall i, j :: 0 <= i < j < |transitions| ==> transitions[i].transitionId != transitions[j].transitionId
  }

  predicate UniqueNodeKeys(nodes: seq<NodeDefinition>) {
    forall i, j :: 0 <= i < j < |nodes| ==> nodes[i].nodeKey != nodes[j].nodeKey
  }

  predicate UniqueTransitionKeys(transitions: seq<TransitionDefinition>) {
    forall i, j :: 0 <= i < j < |transitions| ==> transitions[i].transitionKey != transitions[j].transitionKey
  }

  /** The primary-key and unique-index constraints of the two definition tables, for one version. */
  predicate UniqueRows(g: WorkflowGraph) {
    && UniqueNodeIds(g.nodes)
    && UniqueTransitionIds(g.transitions)
    && UniqueNodeKeys(g.nodes)
    && UniqueTransitionKeys(g.transitions)
  }

  predicate HasNode(g: WorkflowGraph, id: Uuid) {
    exists n :: n in g.nodes && n.nodeId == id
  }

  predicate HasTransition(g: WorkflowGraph, id: Uuid) {
    exists t :: t in g.transitions && t.transitionId == id
  }

  /** The foreign keys of the two definition tables, for one version. */
  predicate ResolvingReferences(g: WorkflowGraph) {
    && (forall t :: t in g.transitions ==> HasNode(g, t.sourceNodeId) && HasNode(g, t.targetNodeId))
    && (forall n :: n in g.nodes && n.primaryAdvanceTransitionId.Some? ==>
          HasTransition(g, n.primaryAdvanceTransitionId.value))
  }

  lemma NodeIsItsLookup(nodes: seq<NodeDefinition>, n: NodeDefinition)
    requires UniqueNodeIds(nodes) && n in nodes
    ensures NodesById(nodes)[n.nodeId] == n
  {
    var m := NodesById(nodes);
    var i :| 0 <= i < |nodes| && nodes[i] == n;
    var j :| 0 <= j < |nodes| && nodes[j] == m[n.nodeId];
  }

  lemma TransitionIsItsLookup(transitions: seq<TransitionDefinition>, t: TransitionDefinition)
    requires UniqueTransitionIds(transitions) && t in transitions
    ensures TransitionsById(transitions)[t.transitionId] == t
  {
    var m := TransitionsById(transitions);
    var i :| 0 <= i < |transitions| && transitions[i] == t;
    var j :| 0 <= j < |transitions| && transitions[j] == m[t.transitionId];
  }
}

/** The findings of the graph validator, one constructor per error code. */
module GraphErrors {
  import opened Prelude

  datatype GraphError =
    | MinNodes
    | NoDraftNode
    | MultipleDraftNodes(count: nat)
    | NoTerminalNode
    | DuplicateOrderIndex(orderIndex: int, nodeKey: string)
    | TerminalHasAssignee(nodeKey: string)
    | AssigneeRequired(nodeKey: string)
    | DraftNotWorkflowCreator(nodeKey: string)
    | UnexpectedFixedPrincipal(nodeKey: string)
    | FixedPrincipalMissingId(nodeKey: string)
    | TransitionSourceMissing(transitionKey: string)
    | TransitionTargetMissing(transitionKey: string)
    | SelfLoop(transitionKey: string)
    | PrimaryNotFromNode(transitionKey: string, nodeKey: string)
    | PrimaryNotAdvance(transitionKey: string, nodeKey: string)
    | PrimaryNotAdvancing(transitionKey: string, nodeKey: string)
    | PrimaryTransitionMissing(nodeKey: string, transitionId: Uuid)
    | TerminalHasPrimary(nodeKey: string)
    | MissingPrimary(nodeKey: string)
    | PrimaryCycle(nodeKeys: seq<string>)
    | PrimaryTrunkNoTerminal(nodeKey: string)
    | NodeNotReachable(nodeKey: string)
    | ReturnToTerminal(transitionKey: string)
    | ReturnNotBackward(transitionKey: string)
    | ReturnIsPrimary(transitionKey: string)
    | TerminateIsPrimary(transitionKey: string)
    | TerminateToNonTerminal(transitionKey: string)
    | TerminalHasOutgoing(nodeKey: string, transitionKeys: seq<string>)
}
