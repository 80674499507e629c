/** From a graph replacement command, whose rows refer to each other by key, to definition rows with ids. */
module DraftGraph {
  import opened Prelude
  import opened DefinitionModel
  import opened GraphErrors
  import opened PrimaryTrunk
  import opened GraphRules
  import opened KeySort
  import opened CanonicalDigest

  datatype DefinitionError =
    | DefinitionVersionNotFound
    | VersionNotDraft
    | InvalidLifecycleTransition
    | DomainNotFound
    | DomainDisabled
    | PermissionDenied
    | FixedPrincipalInvalid
    | ConcurrentModification
    | GraphValidationFailed(errors: seq<GraphError>)
    | StorageError

  /** A command row. A type label is parsed already: None stands for a label that names no variant. */
  datatype RawNode = RawNode(
    nodeKey: string,
    displayName: string,
    orderIndex: int,
    nodeType: Option<NodeType>,
    assigneeRefType: Option<Option<AssigneeRefType>>,
    fixedPrincipalId: Option<Uuid>,
    instructions: Option<string>,
    primaryAdvanceTransitionKey: Option<string>,
    metadata: Option<Json>)

  datatype RawTransition = RawTransition(
    transitionKey: string,
    displayName: string,
    sourceNodeKey: string,
    targetNodeKey: string,
    transitionEffect: Option<TransitionEffect>,
    submissionSchema: Option<Json>,
    metadata: Option<Json>)

  function ParseAssigneeRef(refType: Option<AssigneeRefType>, fixedPrincipalId: Option<Uuid>): Result<AssigneeRef, DefinitionError> {
    match refType
    case None => Err(StorageError)
    case Some(parsed) =>
      if parsed.FIXED_PRINCIPAL? != fixedPrincipalId.Some? then Err(FixedPrincipalInvalid)
      else Ok(AssigneeRef(parsed, fixedPrincipalId))
  }

  function ParseAssignee(raw: RawNode, nodeType: NodeType): Result<Option<AssigneeRef>, DefinitionError> {
    if nodeType.TERMINAL? then
      if raw.assigneeRefType.None? && raw.fixedPrincipalId.None? then Ok(None)
      else Err(GraphValidationFailed([TerminalHasAssignee(raw.nodeKey)]))
    else
      match raw.assigneeRefType
      case None => Err(GraphValidationFailed([AssigneeRequired(raw.nodeKey)]))
      case Some(refType) =>
        match ParseAssigneeRef(refType, raw.fixedPrincipalId)
        case Err(e) => Err(e)
        case Ok(assigneeRef) => Ok(Some(assigneeRef))
  }

  /** One node row; its primary reference is patched in later. */
  function ParseNode(raw: RawNode, id: Uuid): Result<NodeDefinition, DefinitionError> {
    match raw.nodeType
    case None => Err(StorageError)
    case Some(nodeType) =>
      match ParseAssignee(raw, nodeType)
      case Err(e) => Err(e)
      case Ok(assignee) =>
        Ok(NodeDefinition(id, raw.nodeKey, raw.displayName, raw.orderIndex, nodeType, assignee,
                          raw.instructions, None, raw.metadata))
  }

  function ResolveTransition(raw: RawTransition, id: Uuid, nodeIdByKey: map<string, Uuid>)
    : Result<TransitionDefinition, DefinitionError>
  {
    if raw.sourceNodeKey !in nodeIdByKey then Err(GraphValidationFailed([TransitionSourceMissing(raw.transitionKey)]))
    else if raw.targetNodeKey !in nodeIdByKey then Err(GraphValidationFailed([TransitionTargetMissing(raw.transitionKey)]))
    else
      match raw.transitionEffect
      case None => Err(StorageError)
      case Some(effect) =>
        Ok(TransitionDefinition(id, raw.transitionKey, raw.displayName, nodeIdByKey[raw.sourceNodeKey],
                                nodeIdByKey[raw.targetNodeKey], effect, raw.submissionSchema, raw.metadata))
  }

  /** The key map that the insertion loop builds: a later row replaces an earlier one of the same key. */
  function NodeIdByKey(rawNodes: seq<RawNode>, ids: seq<Uuid>): (m: map<string, Uuid>)
    requires |ids| == |rawNodes|
    ensures forall key :: key in m ==> exists i :: 0 <= i < |rawNodes| && rawNodes[i].nodeKey == key && ids[i] == m[key]
    ensures forall raw :: raw in rawNodes ==> raw.nodeKey in m
  {
    var k := |rawNodes| - 1;
    if rawNodes == [] then map[] else NodeIdByKey(rawNodes[..k], ids[..k])[rawNodes[k].nodeKey := ids[k]]
  }

  function TransitionIdByKey(rawTransitions: seq<RawTransition>, ids: seq<Uuid>): (m: map<string, Uuid>)
    requires |ids| == |rawTransitions|
    ensures forall key :: key in m ==>
              exists i :: 0 <= i < |rawTransitions| && rawTransitions[i].transitionKey == key && ids[i] == m[key]
    ensures forall raw :: raw in rawTransitions ==> raw.transitionKey in m
  {
    var k := |rawTransitions| - 1;
    if rawTransitions == [] then map[]
    else TransitionIdByKey(rawTransitions[..k], ids[..k])[rawTransitions[k].transitionKey := ids[k]]
  }

  /** All rows, or the error of the first row that has one. */
  function ParseNodes(rawNodes: seq<RawNode>, ids: seq<Uuid>): (r: Result<seq<NodeDefinition>, DefinitionError>)
    requires |ids| == |rawNodes|
    ensures r.Ok? ==> |r.value| == |rawNodes|
    ensures r.Ok? ==> forall i :: 0 <= i < |rawNodes| ==> ParseNode(rawNodes[i], ids[i]) == Ok(r.value[i])
  {
    var k := |rawNodes| - 1;
    if rawNodes == [] then Ok([])
    else
      match ParseNodes(rawNodes[..k], ids[..k])
      case Err(e) => Err(e)
      case Ok(before) =>
        match ParseNode(rawNodes[k], ids[k])
        case Err(e) => Err(e)
        case Ok(node) => Ok(before + [node])
  }

  function ResolveTransitions(rawTransitions: seq<RawTransition>, ids: seq<Uuid>, nodeIdByKey: map<string, Uuid>)
    : (r: Result<seq<TransitionDefinition>, DefinitionError>)
    requires |ids| == |rawTransitions|
    ensures r.Ok? ==> |r.value| == |rawTransitions|
    ensures r.Ok? ==> forall i :: 0 <= i < |rawTransitions| ==>
                                    ResolveTransition(rawTransitions[i], ids[i], nodeIdByKey) == Ok(r.value[i])
  {
    var k := |rawTransitions| - 1;
    if rawTransitions == [] then Ok([])
    else
      match ResolveTransitions(rawTransitions[..k], ids[..k], nodeIdByKey)
      case Err(e) => Err(e)
      case Ok(before) =>
        match ResolveTransition(rawTransitions[k], ids[k], nodeIdByKey)
        case Err(e) => Err(e)
        case Ok(t) => Ok(before + [t])
  }

  /** The first command row of a key. */
  function FindNode(rawNodes: seq<RawNode>, key: string): (r: Option<RawNode>)
    ensures r.Some? ==> r.value in rawNodes && r.value.nodeKey == key
    ensures r.None? ==> forall raw :: raw in rawNodes ==> raw.nodeKey != key
  {
    if rawNodes == [] then None
    else if rawNodes[0].nodeKey == key then Some(rawNodes[0])
    else FindNode(rawNodes[1..], key)
  }

  /** An unknown primary key leaves the reference empty. */
  function PatchPrimary(node: NodeDefinition, rawNodes: seq<RawNode>, transitionIdByKey: map<string, Uuid>): NodeDefinition {
    match FindNode(rawNodes, node.nodeKey)
    case None => node
    case Some(raw) =>
      if raw.primaryAdvanceTransitionKey.Some? && raw.primaryAdvanceTransitionKey.value in transitionIdByKey
      then node.(primaryAdvanceTransitionId := Some(transitionIdByKey[raw.primaryAdvanceTransitionKey.value]))
      else node
  }

  function PatchPrimaries(nodes: seq<NodeDefinition>, rawNodes: seq<RawNode>, transitionIdByKey: map<string, Uuid>)
    : (r: seq<NodeDefinition>)
    ensures |r| == |nodes|
    ensures forall i :: 0 <= i < |nodes| ==> r[i] == PatchPrimary(nodes[i], rawNodes, transitionIdByKey)
  {
    if nodes == [] then []
    else [PatchPrimary(nodes[0], rawNodes, transitionIdByKey)] + PatchPrimaries(nodes[1..], rawNodes, transitionIdByKey)
  }

  /** The graph that a replacement command denotes, for given generated ids. */
  function DraftGraphOf(rawNodes: seq<RawNode>, rawTransitions: seq<RawTransition>, nodeIds: seq<Uuid>,
                        transitionIds: seq<Uuid>, contextSchema: Option<Json>): Result<WorkflowGraph, DefinitionError>
    requires |nodeIds| == |rawNodes| && |transitionIds| == |rawTransitions|
  {
    match ParseNodes(rawNodes, nodeIds)
    case Err(e) => Err(e)
    case Ok(nodes) =>
      match ResolveTransitions(rawTransitions, transitionIds, NodeIdByKey(rawNodes, nodeIds))
      case Err(e) => Err(e)
      case Ok(transitions) =>
        Ok(WorkflowGraph(PatchPrimaries(nodes, rawNodes, TransitionIdByKey(rawTransitions, transitionIds)),
                         transitions, contextSchema))
  }

  lemma ParseNodesStep(rawNodes: seq<RawNode>, ids: seq<Uuid>, i: nat)
    requires |ids| == |rawNodes| && i < |rawNodes|
    ensures ParseNodes(rawNodes[..i + 1], ids[..i + 1])
         == match ParseNodes(rawNodes[..i], ids[..i])
            case Err(e) => Err(e)
            case Ok(before) =>
              match ParseNode(rawNodes[i], ids[i])
              case Err(e) => Err(e)
              case Ok(node) => Ok(before + [node])
    ensures NodeIdByKey(rawNodes[..i + 1], ids[..i + 1]) == NodeIdByKey(rawNodes[..i], ids[..i])[rawNodes[i].nodeKey := ids[i]]
  {
    hide ParseNode;
    assert rawNodes[..i + 1][..i] == rawNodes[..i] && ids[..i + 1][..i] == ids[..i];
  }

  lemma ResolveTransitionsStep(rawTransitions: seq<RawTransition>, ids: seq<Uuid>, nodeIdByKey: map<string, Uuid>, i: nat)
    requires |ids| == |rawTransitions| && i < |rawTransitions|
    ensures ResolveTransitions(rawTransitions[..i + 1], ids[..i + 1], nodeIdByKey)
         == match ResolveTransitions(rawTransitions[..i], ids[..i], nodeIdByKey)
            case Err(e) => Err(e)
            case Ok(before) =>
              match ResolveTransition(rawTransitions[i], ids[i], nodeIdByKey)
              case Err(e) => Err(e)
              case Ok(t) => Ok(before + [t])
    ensures TransitionIdByKey(rawTransitions[..i + 1], ids[..i + 1])
         == TransitionIdByKey(rawTransitions[..i], ids[..i])[rawTransitions[i].transitionKey := ids[i]]
  {
    hide ResolveTransition;
    assert rawTransitions[..i + 1][..i] == rawTransitions[..i] && ids[..i + 1][..i] == ids[..i];
  }

  method BuildDraftNodes(rawNodes: seq<RawNode>, nodeIds: seq<Uuid>)
    returns (r: Result<seq<NodeDefinition>, DefinitionError>, nodeIdByKey: map<string, Uuid>)
    requires |nodeIds| == |rawNodes|
    ensures r == ParseNodes(rawNodes, nodeIds)
    ensures r.Ok? ==> nodeIdByKey == NodeIdByKey(rawNodes, nodeIds)
  {
    nodeIdByKey := map[];
    var nodes: seq<NodeDefinition> := [];
    assert ParseNodes(rawNodes[..0], nodeIds[..0]) == Ok(nodes) && NodeIdByKey(rawNodes[..0], nodeIds[..0]) == nodeIdByKey;
    hide ParseNode, ParseNodes, NodeIdByKey;
    for i := 0 to |rawNodes|
      invariant ParseNodes(rawNodes[..i], nodeIds[..i]) == Ok(nodes)
      invariant nodeIdByKey == NodeIdByKey(rawNodes[..i], nodeIds[..i])
    {
      ParseNodesStep(rawNodes, nodeIds, i);
      nodeIdByKey := nodeIdByKey[rawNodes[i].nodeKey := nodeIds[i]];
      match ParseNode(rawNodes[i], nodeIds[i]) {
        case Err(e) =>
          FirstNodeError(rawNodes, nodeIds, i + 1, e);
          return Err(e), nodeIdByKey;
        case Ok(node) =>
          nodes := nodes + [node];
      }
    }
    assert rawNodes[..|rawNodes|] == rawNodes && nodeIds[..|rawNodes|] == nodeIds;
    r := Ok(nodes);
  }

  lemma {:induction false} FirstNodeError(rawNodes: seq<RawNode>, ids: seq<Uuid>, i: nat, e: DefinitionError)
    requires |ids| == |rawNodes| && i <= |rawNodes| && ParseNodes(rawNodes[..i], ids[..i]) == Err(e)
    ensures ParseNodes(rawNodes, ids) == Err(e)
  {
    if i == |rawNodes| {
      assert rawNodes[..i] == rawNodes && ids[..i] == ids;
    } else {
      var k := |rawNodes| - 1;
      assert rawNodes[..k][..i] == rawNodes[..i] && ids[..k][..i] == ids[..i];
      FirstNodeError(rawNodes[..k], ids[..k], i, e);
    }
  }

  method BuildDraftTransitions(rawTransitions: seq<RawTransition>, transitionIds: seq<Uuid>, nodeIdByKey: map<string, Uuid>)
    returns (r: Result<seq<TransitionDefinition>, DefinitionError>, transitionIdByKey: map<string, Uuid>)
    requires |transitionIds| == |rawTransitions|
    ensures r == ResolveTransitions(rawTransitions, transitionIds, nodeIdByKey)
    ensures r.Ok? ==> transitionIdByKey == TransitionIdByKey(rawTransitions, transitionIds)
  {
    transitionIdByKey := map[];
    var transitions: seq<TransitionDefinition> := [];
    assert ResolveTransitions(rawTransitions[..0], transitionIds[..0], nodeIdByKey) == Ok(transitions);
    assert TransitionIdByKey(rawTransitions[..0], transitionIds[..0]) == transitionIdByKey;
    hide ResolveTransition, ResolveTransitions, TransitionIdByKey;
    for i := 0 to |rawTransitions|
      invariant ResolveTransitions(rawTransitions[..i], transitionIds[..i], nodeIdByKey) == Ok(transitions)
      invariant transitionIdByKey == TransitionIdByKey(rawTransitions[..i], transitionIds[..i])
    {
      ResolveTransitionsStep(rawTransitions, transitionIds, nodeIdByKey, i);
      transitionIdByKey := transitionIdByKey[rawTransitions[i].transitionKey := transitionIds[i]];
      match ResolveTransition(rawTransitions[i], transitionIds[i], nodeIdByKey) {
        case Err(e) =>
          FirstTransitionError(rawTransitions, transitionIds, nodeIdByKey, i + 1, e);
          return Err(e), transitionIdByKey;
        case Ok(t) =>
          transitions := transitions + [t];
      }
    }
    assert rawTransitions[..|rawTransitions|] == rawTransitions && transitionIds[..|rawTransitions|] == transitionIds;
    r := Ok(transitions);
  }

  lemma {:induction false} FirstTransitionError(rawTransitions: seq<RawTransition>, ids: seq<Uuid>,
                                                nodeIdByKey: map<string, Uuid>, i: nat, e: DefinitionError)
    requires |ids| == |rawTransitions| && i <= |rawTransitions|
    requires ResolveTransitions(rawTransitions[..i], ids[..i], nodeIdByKey) == Err(e)
    ensures ResolveTransitions(rawTransitions, ids, nodeIdByKey) == Err(e)
  {
    if i == |rawTransitions| {
      assert rawTransitions[..i] == rawTransitions && ids[..i] == ids;
    } else {
      var k := |rawTransitions| - 1;
      assert rawTransitions[..k][..i] == rawTransitions[..i] && ids[..k][..i] == ids[..i];
      FirstTransitionError(rawTransitions[..k], ids[..k], nodeIdByKey, i, e);
    }
  }

  /** Fill in the primary references, row by row. */
  method ResolvePrimaries(built: seq<NodeDefinition>, rawNodes: seq<RawNode>, transitionIdByKey: map<string, Uuid>)
    returns (nodes: seq<NodeDefinition>)
    ensures nodes == PatchPrimaries(built, rawNodes, transitionIdByKey)
  {
    nodes := built;
    for i := 0 to |nodes|
      invariant |nodes| == |built|
      invariant forall j :: 0 <= j < i ==> nodes[j] == PatchPrimary(built[j], rawNodes, transitionIdByKey)
      invariant forall j :: i <= j < |nodes| ==> nodes[j] == built[j]
    {
      nodes := nodes[i := PatchPrimary(nodes[i], rawNodes, transitionIdByKey)];
    }
  }

  /** Key resolution of a graph replacement, before validation. */
  method BuildDraftGraph(rawNodes: seq<RawNode>, rawTransitions: seq<RawTransition>, nodeIds: seq<Uuid>,
                         transitionIds: seq<Uuid>, contextSchema: Option<Json>)
    returns (r: Result<WorkflowGraph, DefinitionError>)
    requires |nodeIds| == |rawNodes| && |transitionIds| == |rawTransitions|
    ensures r == DraftGraphOf(rawNodes, rawTransitions, nodeIds, transitionIds, contextSchema)
  {
    var built, nodeIdByKey := BuildDraftNodes(rawNodes, nodeIds);
    if built.Err? {
      return Err(built.error);
    }
    var resolved, transitionIdByKey := BuildDraftTransitions(rawTransitions, transitionIds, nodeIdByKey);
    if resolved.Err? {
      return Err(resolved.error);
    }
    var nodes := ResolvePrimaries(built.value, rawNodes, transitionIdByKey);
    r := Ok(WorkflowGraph(nodes, resolved.value, contextSchema));
  }

  // ----- What the built graph means -----

  ghost predicate NamesNodes(m: map<string, Uuid>, rawNodes: seq<RawNode>, ids: seq<Uuid>)
    requires |ids| == |rawNodes|
  {
    forall key :: key in m ==> exists i :: 0 <= i < |rawNodes| && rawNodes[i].nodeKey == key && ids[i] == m[key]
  }

  ghost predicate NamesTransitions(m: map<string, Uuid>, rawTransitions: seq<RawTransition>, ids: seq<Uuid>)
    requires |ids| == |rawTransitions|
  {
    && (forall key :: key in m ==>
          exists i :: 0 <= i < |rawTransitions| && rawTransitions[i].transitionKey == key && ids[i] == m[key])
    && (forall raw :: raw in rawTransitions ==> raw.transitionKey in m)
  }

  ghost predicate IsBuiltNode(n: NodeDefinition, raw: RawNode, id: Uuid, rawNodes: seq<RawNode>, named: map<string, Uuid>) {
    var parsed := ParseNode(raw, id);
    parsed.Ok? && n == PatchPrimary(parsed.value, rawNodes, named)
  }

  /** `g` is the command row by row, with keys replaced through the two maps. */
  ghost predicate IsBuilt(g: WorkflowGraph, rawNodes: seq<RawNode>, rawTransitions: seq<RawTransition>,
                          nodeIds: seq<Uuid>, transitionIds: seq<Uuid>,
                          nodeMap: map<string, Uuid>, transitionMap: map<string, Uuid>)
  {
    && |g.nodes| == |nodeIds| == |rawNodes| && |g.transitions| == |transitionIds| == |rawTransitions|
    && NamesNodes(nodeMap, rawNodes, nodeIds)
    && NamesTransitions(transitionMap, rawTransitions, transitionIds)
    && (forall i :: 0 <= i < |g.nodes| ==> IsBuiltNode(g.nodes[i], rawNodes[i], nodeIds[i], rawNodes, transitionMap))
    && (forall j :: 0 <= j < |g.transitions| ==>
          ResolveTransition(rawTransitions[j], transitionIds[j], nodeMap) == Ok(g.transitions[j]))
  }

  lemma PatchedRows(nodes: seq<NodeDefinition>, rawNodes: seq<RawNode>, nodeIds: seq<Uuid>, named: map<string, Uuid>, i: nat)
    requires |nodeIds| == |rawNodes| && ParseNodes(rawNodes, nodeIds) == Ok(nodes) && i < |rawNodes|
    ensures IsBuiltNode(PatchPrimaries(nodes, rawNodes, named)[i], rawNodes[i], nodeIds[i], rawNodes, named)
  {
    assert ParseNode(rawNodes[i], nodeIds[i]) == Ok(nodes[i]);
  }

  lemma DraftGraphIsBuilt(rawNodes: seq<RawNode>, rawTransitions: seq<RawTransition>, nodeIds: seq<Uuid>,
                          transitionIds: seq<Uuid>, contextSchema: Option<Json>, g: WorkflowGraph)
    requires |nodeIds| == |rawNodes| && |transitionIds| == |rawTransitions|
    requires DraftGraphOf(rawNodes, rawTransitions, nodeIds, transitionIds, contextSchema) == Ok(g)
    ensures IsBuilt(g, rawNodes, rawTransitions, nodeIds, transitionIds, NodeIdByKey(rawNodes, nodeIds),
                    TransitionIdByKey(rawTransitions, transitionIds))
    ensures g.contextSchema == contextSchema
  {
    var nodes := ParseNodes(rawNodes, nodeIds).value;
    var nodeMap, transitionMap := NodeIdByKey(rawNodes, nodeIds), TransitionIdByKey(rawTransitions, transitionIds);
    RowsAreBuilt(g, rawNodes, rawTransitions, nodeIds, transitionIds, nodeMap, transitionMap, nodes);
  }

  lemma RowsAreBuilt(g: WorkflowGraph, rawNodes: seq<RawNode>, rawTransitions: seq<RawTransition>,
                     nodeIds: seq<Uuid>, transitionIds: seq<Uuid>, nodeMap: map<string, Uuid>,
                     transitionMap: map<string, Uuid>, nodes: seq<NodeDefinition>)
    requires |nodeIds| == |rawNodes| && |transitionIds| == |rawTransitions|
    requires NamesNodes(nodeMap, rawNodes, nodeIds) && NamesTransitions(transitionMap, rawTransitions, transitionIds)
    requires ParseNodes(rawNodes, nodeIds) == Ok(nodes)
    requires g.nodes == PatchPrimaries(nodes, rawNodes, transitionMap)
    requires ResolveTransitions(rawTransitions, transitionIds, nodeMap) == Ok(g.transitions)
    ensures IsBuilt(g, rawNodes, rawTransitions, nodeIds, transitionIds, nodeMap, transitionMap)
  {
    forall i | 0 <= i < |g.nodes|
      ensures IsBuiltNode(g.nodes[i], rawNodes[i], nodeIds[i], rawNodes, transitionMap)
    {
      PatchedRows(nodes, rawNodes, nodeIds, transitionMap, i);
    }
  }

  /** The id that a node key resolves to belongs to a node of that key. */
  lemma ResolvedNode(g: WorkflowGraph, rawNodes: seq<RawNode>, rawTransitions: seq<RawTransition>, nodeIds: seq<Uuid>,
                     transitionIds: seq<Uuid>, nodeMap: map<string, Uuid>, transitionMap: map<string, Uuid>, key: string)
    returns (n: NodeDefinition)
    requires IsBuilt(g, rawNodes, rawTransitions, nodeIds, transitionIds, nodeMap, transitionMap)
    requires key in nodeMap
    ensures n in g.nodes && n.nodeId == nodeMap[key] && n.nodeKey == key
  {
    hide NamesTransitions, ResolveTransition;
    var i :| 0 <= i < |rawNodes| && rawNodes[i].nodeKey == key && nodeIds[i] == nodeMap[key];
    n := g.nodes[i];
    assert IsBuiltNode(n, rawNodes[i], nodeIds[i], rawNodes, transitionMap);
  }

  lemma ResolvedTransition(g: WorkflowGraph, rawNodes: seq<RawNode>, rawTransitions: seq<RawTransition>,
                           nodeIds: seq<Uuid>, transitionIds: seq<Uuid>, nodeMap: map<string, Uuid>,
                           transitionMap: map<string, Uuid>, key: string)
    returns (t: TransitionDefinition)
    requires IsBuilt(g, rawNodes, rawTransitions, nodeIds, transitionIds, nodeMap, transitionMap)
    requires key in transitionMap
    ensures t in g.transitions && t.transitionId == transitionMap[key] && t.transitionKey == key
  {
    hide IsBuiltNode, NamesNodes;
    var j :| 0 <= j < |rawTransitions| && rawTransitions[j].transitionKey == key && transitionIds[j] == transitionMap[key];
    t := g.transitions[j];
    assert ResolveTransition(rawTransitions[j], transitionIds[j], nodeMap) == Ok(t);
  }

  lemma PatchedPrimary(n: NodeDefinition, raw: RawNode, id: Uuid, rawNodes: seq<RawNode>, named: map<string, Uuid>)
    returns (key: string)
    requires IsBuiltNode(n, raw, id, rawNodes, named) && n.primaryAdvanceTransitionId.Some?
    ensures key in named && n.primaryAdvanceTransitionId == Some(named[key])
    ensures FindNode(rawNodes, raw.nodeKey).Some?
    ensures FindNode(rawNodes, raw.nodeKey).value.primaryAdvanceTransitionKey == Some(key)
  {
    key := FindNode(rawNodes, raw.nodeKey).value.primaryAdvanceTransitionKey.value;
  }

  lemma BuiltTransitionResolves(g: WorkflowGraph, rawNodes: seq<RawNode>, rawTransitions: seq<RawTransition>,
                                nodeIds: seq<Uuid>, transitionIds: seq<Uuid>, nodeMap: map<string, Uuid>,
                                transitionMap: map<string, Uuid>, j: nat)
    requires IsBuilt(g, rawNodes, rawTransitions, nodeIds, transitionIds, nodeMap, transitionMap) && j < |g.transitions|
    ensures HasNode(g, g.transitions[j].sourceNodeId) && HasNode(g, g.transitions[j].targetNodeId)
  {
    assert ResolveTransition(rawTransitions[j], transitionIds[j], nodeMap) == Ok(g.transitions[j]);
    var source := ResolvedNode(g, rawNodes, rawTransitions, nodeIds, transitionIds, nodeMap, transitionMap,
                               rawTransitions[j].sourceNodeKey);
    var target := ResolvedNode(g, rawNodes, rawTransitions, nodeIds, transitionIds, nodeMap, transitionMap,
                               rawTransitions[j].targetNodeKey);
  }

  lemma BuiltPrimaryResolves(g: WorkflowGraph, rawNodes: seq<RawNode>, rawTransitions: seq<RawTransition>,
                             nodeIds: seq<Uuid>, transitionIds: seq<Uuid>, nodeMap: map<string, Uuid>,
                             transitionMap: map<string, Uuid>, i: nat)
    requires IsBuilt(g, rawNodes, rawTransitions, nodeIds, transitionIds, nodeMap, transitionMap) && i < |g.nodes|
    ensures g.nodes[i].primaryAdvanceTransitionId.Some? ==> HasTransition(g, g.nodes[i].primaryAdvanceTransitionId.value)
  {
    if g.nodes[i].primaryAdvanceTransitionId.Some? {
      var key := PatchedPrimary(g.nodes[i], rawNodes[i], nodeIds[i], rawNodes, transitionMap);
      var t := ResolvedTransition(g, rawNodes, rawTransitions, nodeIds, transitionIds, nodeMap, transitionMap, key);
    }
  }

  lemma BuiltIsResolving(g: WorkflowGraph, rawNodes: seq<RawNode>, rawTransitions: seq<RawTransition>,
                         nodeIds: seq<Uuid>, transitionIds: seq<Uuid>, nodeMap: map<string, Uuid>,
                         transitionMap: map<string, Uuid>)
    requires IsBuilt(g, rawNodes, rawTransitions, nodeIds, transitionIds, nodeMap, transitionMap)
    ensures ResolvingReferences(g)
  {
    forall t | t in g.transitions
      ensures HasNode(g, t.sourceNodeId) && HasNode(g, t.targetNodeId)
    {
      var j :| 0 <= j < |g.transitions| && g.transitions[j] == t;
      BuiltTransitionResolves(g, rawNodes, rawTransitions, nodeIds, transitionIds, nodeMap, transitionMap, j);
    }
    forall n | n in g.nodes && n.primaryAdvanceTransitionId.Some?
      ensures HasTransition(g, n.primaryAdvanceTransitionId.value)
    {
      var i :| 0 <= i < |g.nodes| && g.nodes[i] == n;
      BuiltPrimaryResolves(g, rawNodes, rawTransitions, nodeIds, transitionIds, nodeMap, transitionMap, i);
    }
  }

  /** Every reference of a built graph resolves inside it. */
  lemma BuiltReferencesResolve(rawNodes: seq<RawNode>, rawTransitions: seq<RawTransition>, nodeIds: seq<Uuid>,
                               transitionIds: seq<Uuid>, contextSchema: Option<Json>, g: WorkflowGraph)
    requires |nodeIds| == |rawNodes| && |transitionIds| == |rawTransitions|
    ensures DraftGraphOf(rawNodes, rawTransitions, nodeIds, transitionIds, contextSchema) == Ok(g) ==>
              ResolvingReferences(g) && g.contextSchema == contextSchema
  {
    hide DraftGraphOf, ResolvingReferences;
    if DraftGraphOf(rawNodes, rawTransitions, nodeIds, transitionIds, contextSchema) == Ok(g) {
      DraftGraphIsBuilt(rawNodes, rawTransitions, nodeIds, transitionIds, contextSchema, g);
      BuiltIsResolving(g, rawNodes, rawTransitions, nodeIds, transitionIds, NodeIdByKey(rawNodes, nodeIds),
                       TransitionIdByKey(rawTransitions, transitionIds));
    }
  }

  predicate HasKey(rawTransitions: seq<RawTransition>, key: string) {
    exists t :: t in rawTransitions && t.transitionKey == key
  }

  /** The primary key that the command gives a node key, if it names a transition of the command. */
  function RawPrimaryKey(raw: RawNode, rawNodes: seq<RawNode>, rawTransitions: seq<RawTransition>): Option<string> {
    match FindNode(rawNodes, raw.nodeKey)
    case None => None
    case Some(first) =>
      var key := first.primaryAdvanceTransitionKey;
      if key.Some? && HasKey(rawTransitions, key.value) then key else None
  }

  /** The canonical node of a command row: its references are the command's own keys. */
  function RawCanonicalNode(raw: RawNode, rawNodes: seq<RawNode>, rawTransitions: seq<RawTransition>): Option<Keyed<NodeBody>> {
    match raw.nodeType
    case None => None
    case Some(nodeType) =>
      Some(Keyed(raw.nodeKey,
                 NodeBody(raw.displayName, raw.orderIndex, nodeType,
                          if raw.assigneeRefType.Some? then raw.assigneeRefType.value else None, raw.fixedPrincipalId,
                          raw.instructions, RawPrimaryKey(raw, rawNodes, rawTransitions), AsJson(raw.metadata))))
  }

  function RawCanonicalTransition(raw: RawTransition): Option<Keyed<TransitionBody>> {
    match raw.transitionEffect
    case None => None
    case Some(effect) =>
      Some(Keyed(raw.transitionKey,
                 TransitionBody(raw.displayName, raw.sourceNodeKey, raw.targetNodeKey, effect,
                                AsJson(raw.submissionSchema), AsJson(raw.metadata))))
  }

  lemma KnownKey(named: map<string, Uuid>, rawTransitions: seq<RawTransition>, ids: seq<Uuid>, key: string)
    requires |ids| == |rawTransitions| && NamesTransitions(named, rawTransitions, ids)
    ensures key in named <==> HasKey(rawTransitions, key)
  {
    if key in named {
      var i :| 0 <= i < |rawTransitions| && rawTransitions[i].transitionKey == key && ids[i] == named[key];
      assert rawTransitions[i] in rawTransitions;
    }
  }

  /** The key under which a built node's primary reference shows in the canonical document. */
  lemma BuiltPrimaryKey(g: WorkflowGraph, rawNodes: seq<RawNode>, rawTransitions: seq<RawTransition>,
                        nodeIds: seq<Uuid>, transitionIds: seq<Uuid>, nodeMap: map<string, Uuid>,
                        transitionMap: map<string, Uuid>, i: nat)
    requires IsBuilt(g, rawNodes, rawTransitions, nodeIds, transitionIds, nodeMap, transitionMap)
    requires UniqueTransitionIds(g.transitions) && i < |rawNodes|
    ensures var primary := PrimaryOf(TransitionsById(g.transitions), g.nodes[i]);
            RawPrimaryKey(rawNodes[i], rawNodes, rawTransitions)
            == if primary.Some? then Some(primary.value.transitionKey) else None
  {
    var n := g.nodes[i];
    assert IsBuiltNode(n, rawNodes[i], nodeIds[i], rawNodes, transitionMap);
    var first := FindNode(rawNodes, rawNodes[i].nodeKey);
    if first.Some? && first.value.primaryAdvanceTransitionKey.Some? {
      KnownKey(transitionMap, rawTransitions, transitionIds, first.value.primaryAdvanceTransitionKey.value);
    }
    if n.primaryAdvanceTransitionId.Some? {
      var key := PatchedPrimary(n, rawNodes[i], nodeIds[i], rawNodes, transitionMap);
      var t := ResolvedTransition(g, rawNodes, rawTransitions, nodeIds, transitionIds, nodeMap, transitionMap, key);
      TransitionIsItsLookup(g.transitions, t);
    }
  }

  /** The columns of a built node that its row gives directly. */
  lemma BuiltNodeColumns(n: NodeDefinition, raw: RawNode, id: Uuid, rawNodes: seq<RawNode>, named: map<string, Uuid>)
    requires IsBuiltNode(n, raw, id, rawNodes, named)
    ensures n.nodeKey == raw.nodeKey && n.displayName == raw.displayName && n.orderIndex == raw.orderIndex
    ensures raw.nodeType == Some(n.nodeType) && n.instructions == raw.instructions && n.metadata == raw.metadata
    ensures raw.fixedPrincipalId == if n.assigneeRef.Some? then n.assigneeRef.value.fixedPrincipalId else None
    ensures (if raw.assigneeRefType.Some? then raw.assigneeRefType.value else None)
         == if n.assigneeRef.Some? then Some(n.assigneeRef.value.refType) else None
  {
    hide FindNode;
  }

  lemma NodeKeysRoundTrip(g: WorkflowGraph, rawNodes: seq<RawNode>, rawTransitions: seq<RawTransition>,
                          nodeIds: seq<Uuid>, transitionIds: seq<Uuid>, nodeMap: map<string, Uuid>,
                          transitionMap: map<string, Uuid>, i: nat)
    requires IsBuilt(g, rawNodes, rawTransitions, nodeIds, transitionIds, nodeMap, transitionMap)
    requires UniqueTransitionIds(g.transitions) && i < |rawNodes|
    ensures RawCanonicalNode(rawNodes[i], rawNodes, rawTransitions)
         == Some(CanonicalNode(g.nodes[i], TransitionsById(g.transitions)))
  {
    hide RawPrimaryKey, FindNode, TransitionsById, UniqueTransitionIds, HasKey, NamesNodes, NamesTransitions, IsBuiltNode,
         ResolveTransition, PrimaryOf, AsJson;
    BuiltNodeColumns(g.nodes[i], rawNodes[i], nodeIds[i], rawNodes, transitionMap);
    BuiltPrimaryKey(g, rawNodes, rawTransitions, nodeIds, transitionIds, nodeMap, transitionMap, i);
  }

  lemma TransitionKeysRoundTrip(g: WorkflowGraph, rawNodes: seq<RawNode>, rawTransitions: seq<RawTransition>,
                                nodeIds: seq<Uuid>, transitionIds: seq<Uuid>, nodeMap: map<string, Uuid>,
                                transitionMap: map<string, Uuid>, j: nat)
    requires IsBuilt(g, rawNodes, rawTransitions, nodeIds, transitionIds, nodeMap, transitionMap)
    requires UniqueNodeIds(g.nodes) && j < |rawTransitions|
    ensures RawCanonicalTransition(rawTransitions[j]) == Some(CanonicalTransition(g.transitions[j], NodesById(g.nodes)))
  {
    assert ResolveTransition(rawTransitions[j], transitionIds[j], nodeMap) == Ok(g.transitions[j]);
    var source := ResolvedNode(g, rawNodes, rawTransitions, nodeIds, transitionIds, nodeMap, transitionMap,
                               rawTransitions[j].sourceNodeKey);
    var target := ResolvedNode(g, rawNodes, rawTransitions, nodeIds, transitionIds, nodeMap, transitionMap,
                               rawTransitions[j].targetNodeKey);
    NodeIsItsLookup(g.nodes, source);
    NodeIsItsLookup(g.nodes, target);
  }

  /** The canonical rows of the graph are those of the command, in the command's own keys. */
  predicate HasRowsOf(g: WorkflowGraph, rawNodes: seq<RawNode>, rawTransitions: seq<RawTransition>, contextSchema: Option<Json>) {
    && g.contextSchema == contextSchema
    && |g.nodes| == |rawNodes| && |g.transitions| == |rawTransitions|
    && (forall i :: 0 <= i < |rawNodes| ==>
          RawCanonicalNode(rawNodes[i], rawNodes, rawTransitions)
          == Some(CanonicalNode(g.nodes[i], TransitionsById(g.transitions))))
    && (forall j :: 0 <= j < |rawTransitions| ==>
          RawCanonicalTransition(rawTransitions[j]) == Some(CanonicalTransition(g.transitions[j], NodesById(g.nodes))))
  }

  /** Keys resolved to ids by the command and back to keys by the digest are the command's keys again. */
  lemma KeysRoundTrip(rawNodes: seq<RawNode>, rawTransitions: seq<RawTransition>, nodeIds: seq<Uuid>,
                      transitionIds: seq<Uuid>, contextSchema: Option<Json>, g: WorkflowGraph)
    requires |nodeIds| == |rawNodes| && |transitionIds| == |rawTransitions|
    requires UniqueNodeIds(g.nodes) && UniqueTransitionIds(g.transitions)
    ensures DraftGraphOf(rawNodes, rawTransitions, nodeIds, transitionIds, contextSchema) == Ok(g) ==>
              HasRowsOf(g, rawNodes, rawTransitions, contextSchema)
  {
    if DraftGraphOf(rawNodes, rawTransitions, nodeIds, transitionIds, contextSchema) != Ok(g) {
      return;
    }
    var nodeMap, transitionMap := NodeIdByKey(rawNodes, nodeIds), TransitionIdByKey(rawTransitions, transitionIds);
    DraftGraphIsBuilt(rawNodes, rawTransitions, nodeIds, transitionIds, contextSchema, g);
    forall i | 0 <= i < |rawNodes|
      ensures RawCanonicalNode(rawNodes[i], rawNodes, rawTransitions)
           == Some(CanonicalNode(g.nodes[i], TransitionsById(g.transitions)))
    {
      NodeKeysRoundTrip(g, rawNodes, rawTransitions, nodeIds, transitionIds, nodeMap, transitionMap, i);
    }
    forall j | 0 <= j < |rawTransitions|
      ensures RawCanonicalTransition(rawTransitions[j]) == Some(CanonicalTransition(g.transitions[j], NodesById(g.nodes)))
    {
      TransitionKeysRoundTrip(g, rawNodes, rawTransitions, nodeIds, transitionIds, nodeMap, transitionMap, j);
    }
  }

  lemma SameRowsSameDigest(header: DocumentHeader, g: WorkflowGraph, h: WorkflowGraph)
    requires |g.nodes| == |h.nodes| && |g.transitions| == |h.transitions| && g.contextSchema == h.contextSchema
    requires forall i :: 0 <= i < |g.nodes| ==>
               CanonicalNode(g.nodes[i], TransitionsById(g.transitions)) == CanonicalNode(h.nodes[i], TransitionsById(h.transitions))
    requires forall j :: 0 <= j < |g.transitions| ==>
               CanonicalTransition(g.transitions[j], NodesById(g.nodes)) == CanonicalTransition(h.transitions[j], NodesById(h.nodes))
    ensures ComputeDigest(header, g) == ComputeDigest(header, h)
  {
    assert CanonicalNodes(g.nodes, TransitionsById(g.transitions)) == CanonicalNodes(h.nodes, TransitionsById(h.transitions));
    assert CanonicalTransitions(g.transitions, NodesById(g.nodes)) == CanonicalTransitions(h.transitions, NodesById(h.nodes));
  }

  /** The digest of a replaced graph does not depend on the ids that were generated for it. */
  lemma DigestIgnoresGeneratedIds(header: DocumentHeader, rawNodes: seq<RawNode>, rawTransitions: seq<RawTransition>,
                                  nodeIds: seq<Uuid>, transitionIds: seq<Uuid>, otherNodeIds: seq<Uuid>,
                                  otherTransitionIds: seq<Uuid>, contextSchema: Option<Json>,
                                  g: WorkflowGraph, h: WorkflowGraph)
    requires |nodeIds| == |rawNodes| == |otherNodeIds| && |transitionIds| == |rawTransitions| == |otherTransitionIds|
    requires UniqueNodeIds(g.nodes) && UniqueTransitionIds(g.transitions)
    requires UniqueNodeIds(h.nodes) && UniqueTransitionIds(h.transitions)
    ensures DraftGraphOf(rawNodes, rawTransitions, nodeIds, transitionIds, contextSchema) == Ok(g)
      && DraftGraphOf(rawNodes, rawTransitions, otherNodeIds, otherTransitionIds, contextSchema) == Ok(h)
      ==> ComputeDigest(header, g) == ComputeDigest(header, h)
  {
    hide DraftGraphOf;
    if DraftGraphOf(rawNodes, rawTransitions, nodeIds, transitionIds, contextSchema) != Ok(g)
       || DraftGraphOf(rawNodes, rawTransitions, otherNodeIds, otherTransitionIds, contextSchema) != Ok(h) {
      return;
    }
    KeysRoundTrip(rawNodes, rawTransitions, nodeIds, transitionIds, contextSchema, g);
    KeysRoundTrip(rawNodes, rawTransitions, otherNodeIds, otherTransitionIds, contextSchema, h);
    forall i | 0 <= i < |g.nodes|
      ensures CanonicalNode(g.nodes[i], TransitionsById(g.transitions)) == CanonicalNode(h.nodes[i], TransitionsById(h.transitions))
    {
      var _ := RawCanonicalNode(rawNodes[i], rawNodes, rawTransitions);
    }
    forall j | 0 <= j < |g.transitions|
      ensures CanonicalTransition(g.transitions[j], NodesById(g.nodes)) == CanonicalTransition(h.transitions[j], NodesById(h.nodes))
    {
      var _ := RawCanonicalTransition(rawTransitions[j]);
    }
    SameRowsSameDigest(header, g, h);
  }

  // ----- A command that the validator does not return on -----

  const CYCLE_NODES: seq<RawNode> := [
    RawNode("a", "", 1, Some(DRAFT), Some(Some(WORKFLOW_CREATOR)), None, None, Some("x"), None),
    RawNode("b", "", 2, Some(NORMAL), Some(Some(WORKFLOW_CREATOR)), None, None, Some("y"), None)]

  const CYCLE_TRANSITIONS: seq<RawTransition> := [
    RawTransition("x", "", "a", "b", Some(ADVANCE), None, None),
    RawTransition("y", "", "b", "a", Some(ADVANCE), None, None)]

  /** DRAFT and a NORMAL node, each the target of the other's primary transition. */
  const CYCLE_GRAPH: WorkflowGraph := WorkflowGraph(
    [NodeDefinition(1, "a", "", 1, DRAFT, Some(AssigneeRef(WORKFLOW_CREATOR, None)), None, Some(10), None),
     NodeDefinition(2, "b", "", 2, NORMAL, Some(AssigneeRef(WORKFLOW_CREATOR, None)), None, Some(11), None)],
    [TransitionDefinition(10, "x", "", 1, 2, ADVANCE, None, None),
     TransitionDefinition(11, "y", "", 2, 1, ADVANCE, None, None)],
    None)

  lemma ParseNodesAppend(rawNodes: seq<RawNode>, ids: seq<Uuid>, raw: RawNode, id: Uuid)
    requires |ids| == |rawNodes| && ParseNodes(rawNodes, ids).Ok? && ParseNode(raw, id).Ok?
    ensures ParseNodes(rawNodes + [raw], ids + [id]) == Ok(ParseNodes(rawNodes, ids).value + [ParseNode(raw, id).value])
  {
    hide ParseNode;
    assert (rawNodes + [raw])[..|ids|] == rawNodes && (ids + [id])[..|ids|] == ids;
  }

  lemma TwoNodesBuilt(a: RawNode, b: RawNode, i: Uuid, j: Uuid)
    requires ParseNode(a, i).Ok? && ParseNode(b, j).Ok?
    ensures ParseNodes([a, b], [i, j]) == Ok([ParseNode(a, i).value, ParseNode(b, j).value])
  {
    assert ParseNodes([], []) == Ok([]);
    hide ParseNode, ParseNodes;
    var x, y := ParseNode(a, i).value, ParseNode(b, j).value;
    assert [] + [a] == [a] && [] + [i] == [i] && [] + [x] == [x];
    assert [a] + [b] == [a, b] && [i] + [j] == [i, j] && [x] + [y] == [x, y];
    ParseNodesAppend([], [], a, i);
    ParseNodesAppend([a], [i], b, j);
  }

  lemma TwoNodesNamed(a: RawNode, b: RawNode, i: Uuid, j: Uuid)
    ensures NodeIdByKey([a, b], [i, j]) == map[a.nodeKey := i][b.nodeKey := j]
  {
    assert [a, b][..1] == [a] && [i, j][..1] == [i] && [a][..0] == [] && [i][..0] == [];
  }

  lemma ResolveTransitionsAppend(rawTransitions: seq<RawTransition>, ids: seq<Uuid>, nodeIds: map<string, Uuid>,
                                 raw: RawTransition, id: Uuid)
    requires |ids| == |rawTransitions|
    requires ResolveTransitions(rawTransitions, ids, nodeIds).Ok? && ResolveTransition(raw, id, nodeIds).Ok?
    ensures ResolveTransitions(rawTransitions + [raw], ids + [id], nodeIds)
         == Ok(ResolveTransitions(rawTransitions, ids, nodeIds).value + [ResolveTransition(raw, id, nodeIds).value])
  {
    hide ResolveTransition;
    assert (rawTransitions + [raw])[..|ids|] == rawTransitions && (ids + [id])[..|ids|] == ids;
  }

  lemma TwoTransitionsBuilt(a: RawTransition, b: RawTransition, i: Uuid, j: Uuid, nodeIds: map<string, Uuid>)
    requires ResolveTransition(a, i, nodeIds).Ok? && ResolveTransition(b, j, nodeIds).Ok?
    ensures ResolveTransitions([a, b], [i, j], nodeIds)
         == Ok([ResolveTransition(a, i, nodeIds).value, ResolveTransition(b, j, nodeIds).value])
  {
    assert ResolveTransitions([], [], nodeIds) == Ok([]);
    hide ResolveTransition, ResolveTransitions;
    var x, y := ResolveTransition(a, i, nodeIds).value, ResolveTransition(b, j, nodeIds).value;
    assert [] + [a] == [a] && [] + [i] == [i] && [] + [x] == [x];
    assert [a] + [b] == [a, b] && [i] + [j] == [i, j] && [x] + [y] == [x, y];
    ResolveTransitionsAppend([], [], nodeIds, a, i);
    ResolveTransitionsAppend([a], [i], nodeIds, b, j);
  }

  lemma TwoTransitionsNamed(a: RawTransition, b: RawTransition, i: Uuid, j: Uuid)
    ensures TransitionIdByKey([a, b], [i, j]) == map[a.transitionKey := i][b.transitionKey := j]
  {
    assert [a, b][..1] == [a] && [i, j][..1] == [i] && [a][..0] == [] && [i][..0] == [];
  }

  lemma TwoPrimariesPatched(a: NodeDefinition, b: NodeDefinition, x: RawNode, y: RawNode, ids: map<string, Uuid>)
    requires a.nodeKey == x.nodeKey != y.nodeKey == b.nodeKey
    requires x.primaryAdvanceTransitionKey.Some? && x.primaryAdvanceTransitionKey.value in ids
    requires y.primaryAdvanceTransitionKey.Some? && y.primaryAdvanceTransitionKey.value in ids
    ensures PatchPrimaries([a, b], [x, y], ids)
         == [a.(primaryAdvanceTransitionId := Some(ids[x.primaryAdvanceTransitionKey.value])),
             b.(primaryAdvanceTransitionId := Some(ids[y.primaryAdvanceTransitionKey.value]))]
  {
    assert [x, y][1..] == [y];
    assert FindNode([x, y], x.nodeKey) == Some(x);
    assert FindNode([y], y.nodeKey) == Some(y) && FindNode([x, y], y.nodeKey) == Some(y);
  }

  lemma CycleIsBuilt()
    ensures DraftGraphOf(CYCLE_NODES, CYCLE_TRANSITIONS, [1, 2], [10, 11], None) == Ok(CYCLE_GRAPH)
  {
    hide ParseNodes, ResolveTransitions, NodeIdByKey, TransitionIdByKey, PatchPrimaries, FindNode;
    var n, t := CYCLE_NODES, CYCLE_TRANSITIONS;
    TwoNodesBuilt(n[0], n[1], 1, 2);
    TwoNodesNamed(n[0], n[1], 1, 2);
    var nodeIds, transitionIds := map["a" := 1]["b" := 2], map["x" := 10]["y" := 11];
    TwoTransitionsBuilt(t[0], t[1], 10, 11, nodeIds);
    TwoTransitionsNamed(t[0], t[1], 10, 11);
    TwoPrimariesPatched(ParseNode(n[0], 1).value, ParseNode(n[1], 2).value, n[0], n[1], transitionIds);
  }

  lemma MutualTargets(f: PrimaryMap, x: Uuid, y: Uuid)
    requires x != y && x in f && y in f && f[x] == y && f[y] == x
    ensures RunsIntoLongCycle(f, x)
  {
    assert IsCycle(f, [x, y]);
    assert LeadsIntoLongCycle(f, x, [x], [x, y]);
  }

  lemma PrimaryTargetOf(g: WorkflowGraph, n: NodeDefinition, t: TransitionDefinition)
    requires UniqueNodeIds(g.nodes) && UniqueTransitionIds(g.transitions) && n in g.nodes && t in g.transitions
    requires !n.nodeType.TERMINAL? && n.primaryAdvanceTransitionId == Some(t.transitionId)
    ensures n.nodeId in PrimaryMapOf(g) && PrimaryMapOf(g)[n.nodeId] == t.targetNodeId
  {
    hide UniqueNodeIds, UniqueTransitionIds, NodesById, TransitionsById;
    TransitionIsItsLookup(g.transitions, t);
    PrimaryMapSources(g.nodes, TransitionsById(g.transitions));
  }

  /** DRAFT and another node whose primary transitions lead to each other: the validator never returns. */
  lemma MutualPrimariesNeverHalt(g: WorkflowGraph, a: NodeDefinition, b: NodeDefinition, t: TransitionDefinition,
                                 u: TransitionDefinition)
    requires UniqueNodeIds(g.nodes) && UniqueTransitionIds(g.transitions) && FirstDraft(g.nodes) == Some(a)
    requires a in g.nodes && b in g.nodes && a.nodeId != b.nodeId && !b.nodeType.TERMINAL?
    requires t in g.transitions && u in g.transitions && t.targetNodeId == b.nodeId && u.targetNodeId == a.nodeId
    requires a.primaryAdvanceTransitionId == Some(t.transitionId) && b.primaryAdvanceTransitionId == Some(u.transitionId)
    ensures !ValidationHalts(g)
  {
    assert a in OfType(g.nodes, DRAFT);
    hide ValidationHalts, UniqueNodeIds, UniqueTransitionIds, OfType, FirstDraft, RunsIntoLongCycle, PrimaryMapOf;
    PrimaryTargetOf(g, a, t);
    PrimaryTargetOf(g, b, u);
    MutualTargets(PrimaryMapOf(g), a.nodeId, b.nodeId);
    ValidationHaltsIff(g);
  }

  lemma CycleIsStorable()
    ensures UniqueRows(CYCLE_GRAPH) && ResolvingReferences(CYCLE_GRAPH)
  {
    var n, t := CYCLE_GRAPH.nodes, CYCLE_GRAPH.transitions;
    assert n[0] in n && n[1] in n && t[0] in t && t[1] in t;
  }

  /**
   A graph replacement command whose validation, which comes before its transaction, never ends: it is
   built without an error, its rows are unique and its references resolve.
   */
  lemma TwoNodeCycleNeverHalts()
    ensures DraftGraphOf(CYCLE_NODES, CYCLE_TRANSITIONS, [1, 2], [10, 11], None) == Ok(CYCLE_GRAPH)
    ensures UniqueRows(CYCLE_GRAPH) && ResolvingReferences(CYCLE_GRAPH) && !ValidationHalts(CYCLE_GRAPH)
  {
    hide DraftGraphOf, ValidationHalts, ResolvingReferences;
    CycleIsBuilt();
    CycleIsStorable();
    var n, t, drafts := CYCLE_GRAPH.nodes, CYCLE_GRAPH.transitions, OfType(CYCLE_GRAPH.nodes, DRAFT);
    assert n[0] in n && n[1] in n && t[0] in t && t[1] in t;
    assert n[0] in drafts && drafts[0] in drafts;
    MutualPrimariesNeverHalt(CYCLE_GRAPH, n[0], n[1], t[0], t[1]);
  }
}
