/**
 The publication rules as a mathematical statement about a graph, proved equivalent to the
 validator's verdict, and what the runtime relies on: progress along primary transitions.
 */
module GraphProgress {
  import opened Prelude
  import opened DefinitionModel
  import opened GraphErrors
  import opened GraphReachability
  import opened PrimaryTrunk
  import opened GraphRules

  predicate LegalAssignee(n: NodeDefinition) {
    match n.nodeType
    case TERMINAL => n.assigneeRef.None?
    case DRAFT => n.assigneeRef == Some(AssigneeRef(WORKFLOW_CREATOR, None))
    case NORMAL =>
      && n.assigneeRef.Some?
      && (n.assigneeRef.value.refType.FIXED_PRINCIPAL? <==> n.assigneeRef.value.fixedPrincipalId.Some?)
  }

  /** A terminal node carries no primary; any other node owns an ADVANCE to a later node. */
  ghost predicate LegalPrimary(g: WorkflowGraph, n: NodeDefinition) {
    if n.nodeType.TERMINAL? then n.primaryAdvanceTransitionId.None?
    else
      exists target :: target in g.nodes && IsPrimaryEdge(g.transitions, n, target)
  }

  /** The primary transition of `n` leads to `target`. */
  ghost predicate IsPrimaryEdge(transitions: seq<TransitionDefinition>, n: NodeDefinition, target: NodeDefinition) {
    exists t :: t in transitions && IsPrimaryStep(n, t, target)
  }

  predicate IsPrimaryStep(n: NodeDefinition, t: TransitionDefinition, target: NodeDefinition) {
    && n.primaryAdvanceTransitionId == Some(t.transitionId)
    && t.sourceNodeId == n.nodeId
    && t.targetNodeId == target.nodeId
    && t.transitionEffect.ADVANCE?
    && n.orderIndex < target.orderIndex
  }

  ghost predicate LegalTransition(g: WorkflowGraph, t: TransitionDefinition) {
    && t.sourceNodeId != t.targetNodeId
    && exists source, target :: source in g.nodes && target in g.nodes && LegalEndpoints(t, source, target)
  }

  predicate LegalEndpoints(t: TransitionDefinition, source: NodeDefinition, target: NodeDefinition) {
    && source.nodeId == t.sourceNodeId
    && target.nodeId == t.targetNodeId
    && !source.nodeType.TERMINAL?
    && (t.transitionEffect.RETURN? ==> !target.nodeType.TERMINAL? && target.orderIndex < source.orderIndex)
    && (t.transitionEffect.TERMINATE? ==> target.nodeType.TERMINAL?)
  }

  predicate DistinctOrder(nodes: seq<NodeDefinition>) {
    forall i, j :: 0 <= i < j < |nodes| ==> nodes[i].orderIndex != nodes[j].orderIndex
  }

  ghost predicate OneDraft(nodes: seq<NodeDefinition>) {
    exists d :: d in nodes && IsOnlyDraft(nodes, d)
  }

  ghost predicate IsOnlyDraft(nodes: seq<NodeDefinition>, d: NodeDefinition) {
    d.nodeType.DRAFT? && forall n :: n in nodes && n.nodeType.DRAFT? ==> n == d
  }

  /** The publication rules. */
  ghost predicate WellFormed(g: WorkflowGraph) {
    && OneDraft(g.nodes)
    && (exists n :: n in g.nodes && n.nodeType.TERMINAL?)
    && DistinctOrder(g.nodes)
    && (forall n :: n in g.nodes ==> LegalAssignee(n) && LegalPrimary(g, n))
    && (forall t :: t in g.transitions ==> LegalTransition(g, t))
    && (forall d, n :: d in g.nodes && d.nodeType.DRAFT? && n in g.nodes ==> Reaches(g.transitions, d.nodeId, n.nodeId))
  }

  lemma {:induction false} DraftsAreUnique(nodes: seq<NodeDefinition>)
    requires UniqueNodeIds(nodes)
    ensures UniqueNodeIds(OfType(nodes, DRAFT))
  {
    if nodes != [] {
      var before, last := nodes[..|nodes| - 1], nodes[|nodes| - 1];
      DraftsAreUnique(before);
      forall n | n in OfType(before, DRAFT)
        ensures n.nodeId != last.nodeId
      {
        var i :| 0 <= i < |before| && before[i] == n;
      }
    }
  }

  lemma DraftCount(nodes: seq<NodeDefinition>)
    requires UniqueNodeIds(nodes)
    ensures |OfType(nodes, DRAFT)| == 1 <==> OneDraft(nodes)
  {
    var drafts := OfType(nodes, DRAFT);
    DraftsAreUnique(nodes);
    if |drafts| == 1 {
      assert drafts[0] in drafts;
      assert IsOnlyDraft(nodes, drafts[0]);
    }
    if |drafts| > 1 {
      assert drafts[0] in drafts && drafts[1] in drafts;
      assert drafts[0] != drafts[1];
    }
    if OneDraft(nodes) {
      var d :| d in nodes && IsOnlyDraft(nodes, d);
      assert d in drafts;
    }
  }

  // ----- Accepted implies well-formed -----

  lemma NothingFound(g: WorkflowGraph, e: GraphError)
    requires Accepts(g)
    ensures !NodeRuleFinding(g, e) && !SomeAssigneeFinding(g, e) && !SomeReferenceFinding(g, e)
    ensures !SomePrimaryFinding(g, e) && !SomeReachFinding(g, e) && !SomeReturnFinding(g, e)
    ensures !SomeTerminateFinding(g, e) && !SomeOutgoingFinding(g, e)
  {
    assert !Finding(g, e);
  }

  lemma LegalAssigneeIff(n: NodeDefinition)
    ensures LegalAssignee(n) <==> forall e :: !AssigneeFinding(n, e)
  {
    var key := n.nodeKey;
    if forall e :: !AssigneeFinding(n, e) {
      assert !AssigneeFinding(n, TerminalHasAssignee(key)) && !AssigneeFinding(n, AssigneeRequired(key));
      assert !AssigneeFinding(n, DraftNotWorkflowCreator(key)) && !AssigneeFinding(n, UnexpectedFixedPrincipal(key));
      assert !AssigneeFinding(n, FixedPrincipalMissingId(key));
    }
  }

  /** A node without a primary finding, whose primary transition, if found, has legal endpoints. */
  lemma CleanPrimary(byId: map<Uuid, NodeDefinition>, ts: map<Uuid, TransitionDefinition>, n: NodeDefinition)
    requires forall e :: !PrimaryFinding(byId, ts, n, e)
    requires n.nodeId in byId && byId[n.nodeId] == n
    requires PrimaryOf(ts, n).Some? ==>
               var t := PrimaryOf(ts, n).value;
               t.targetNodeId in byId && t.sourceNodeId in byId && !byId[t.sourceNodeId].nodeType.TERMINAL?
    ensures n.nodeType.TERMINAL? ==> n.primaryAdvanceTransitionId.None?
    ensures !n.nodeType.TERMINAL? ==>
              var p := PrimaryOf(ts, n);
              p.Some? && p.value.sourceNodeId == n.nodeId && p.value.transitionEffect.ADVANCE?
              && p.value.targetNodeId in byId && n.orderIndex < byId[p.value.targetNodeId].orderIndex
  {
    var primary := PrimaryOf(ts, n);
    if primary.None? {
      var id := if n.primaryAdvanceTransitionId.Some? then n.primaryAdvanceTransitionId.value else 0;
      assert PrimaryFinding(byId, ts, n, TerminalHasPrimary(n.nodeKey))
             || PrimaryFinding(byId, ts, n, PrimaryTransitionMissing(n.nodeKey, id))
             || PrimaryFinding(byId, ts, n, MissingPrimary(n.nodeKey))
             || (n.nodeType.TERMINAL? && n.primaryAdvanceTransitionId.None?);
    } else {
      var t := primary.value;
      assert !PrimaryFinding(byId, ts, n, PrimaryNotFromNode(t.transitionKey, n.nodeKey));
      assert !PrimaryFinding(byId, ts, n, PrimaryNotAdvance(t.transitionKey, n.nodeKey));
      assert !PrimaryFinding(byId, ts, n, PrimaryNotAdvancing(t.transitionKey, n.nodeKey));
    }
  }

  /** A transition without a finding. */
  lemma CleanEndpoints(byId: map<Uuid, NodeDefinition>, t: TransitionDefinition)
    requires forall e :: !ReferenceFinding(byId, t, e) && !ReturnFinding(byId, t, e) && !TerminateFinding(byId, t, e)
    ensures t.sourceNodeId in byId && t.targetNodeId in byId && t.sourceNodeId != t.targetNodeId
    ensures t.transitionEffect.RETURN? ==>
              && !byId[t.targetNodeId].nodeType.TERMINAL?
              && byId[t.targetNodeId].orderIndex < byId[t.sourceNodeId].orderIndex
    ensures t.transitionEffect.TERMINATE? ==> byId[t.targetNodeId].nodeType.TERMINAL?
  {
    var key := t.transitionKey;
    assert !ReferenceFinding(byId, t, TransitionSourceMissing(key));
    assert !ReferenceFinding(byId, t, TransitionTargetMissing(key));
    assert !ReferenceFinding(byId, t, SelfLoop(key));
    assert !ReturnFinding(byId, t, ReturnToTerminal(key));
    assert !ReturnFinding(byId, t, ReturnNotBackward(key));
    assert !TerminateFinding(byId, t, TerminateToNonTerminal(key));
  }

  lemma CleanSource(transitions: seq<TransitionDefinition>, t: TransitionDefinition, source: NodeDefinition)
    requires t in transitions && source.nodeId == t.sourceNodeId
    requires forall e :: !OutgoingFinding(transitions, source, e)
    ensures !source.nodeType.TERMINAL?
  {
    assert !OutgoingFinding(transitions, source,
                            TerminalHasOutgoing(source.nodeKey, OutgoingKeys(transitions, source.nodeId)));
  }

  lemma AcceptedEndpoints(g: WorkflowGraph, t: TransitionDefinition)
    requires Accepts(g) && t in g.transitions
    ensures LegalTransition(g, t)
    ensures t.sourceNodeId in NodesById(g.nodes) && t.targetNodeId in NodesById(g.nodes)
    ensures !NodesById(g.nodes)[t.sourceNodeId].nodeType.TERMINAL?
  {
    var byId := NodesById(g.nodes);
    forall e
      ensures !ReferenceFinding(byId, t, e) && !ReturnFinding(byId, t, e) && !TerminateFinding(byId, t, e)
    {
      NothingFound(g, e);
    }
    CleanEndpoints(byId, t);
    forall e
      ensures !OutgoingFinding(g.transitions, byId[t.sourceNodeId], e)
    {
      NothingFound(g, e);
    }
    CleanSource(g.transitions, t, byId[t.sourceNodeId]);
    assert LegalEndpoints(t, byId[t.sourceNodeId], byId[t.targetNodeId]);
  }

  lemma AcceptedPrimary(g: WorkflowGraph, n: NodeDefinition)
    requires Accepts(g) && n in g.nodes && UniqueNodeIds(g.nodes)
    ensures LegalPrimary(g, n)
  {
    var byId, ts := NodesById(g.nodes), TransitionsById(g.transitions);
    forall e
      ensures !PrimaryFinding(byId, ts, n, e)
    {
      NothingFound(g, e);
    }
    var primary := PrimaryOf(ts, n);
    if primary.Some? {
      AcceptedEndpoints(g, primary.value);
    }
    NodeIsItsLookup(g.nodes, n);
    CleanPrimary(byId, ts, n);
    if !n.nodeType.TERMINAL? {
      var target := byId[primary.value.targetNodeId];
      assert IsPrimaryStep(n, primary.value, target);
      assert IsPrimaryEdge(g.transitions, n, target);
    }
  }

  lemma AcceptedNode(g: WorkflowGraph, n: NodeDefinition)
    requires Accepts(g) && n in g.nodes
    ensures LegalAssignee(n)
    ensures FirstDraft(g.nodes).Some? ==> Reaches(g.transitions, FirstDraft(g.nodes).value.nodeId, n.nodeId)
  {
    forall e
      ensures !AssigneeFinding(n, e)
    {
      NothingFound(g, e);
    }
    LegalAssigneeIff(n);
    NothingFound(g, NodeNotReachable(n.nodeKey));
    assert !ReachFinding(g.transitions, FirstDraft(g.nodes), n, NodeNotReachable(n.nodeKey));
  }

  lemma CleanShape(g: WorkflowGraph)
    requires forall e :: !NodeRuleFinding(g, e)
    ensures |OfType(g.nodes, DRAFT)| == 1 && DistinctOrder(g.nodes)
    ensures exists n :: n in g.nodes && n.nodeType.TERMINAL?
  {
    var drafts := OfType(g.nodes, DRAFT);
    assert !NodeRuleFinding(g, NoDraftNode) && !NodeRuleFinding(g, NoTerminalNode);
    assert !NodeRuleFinding(g, MultipleDraftNodes(|drafts|));
    forall i, j | 0 <= i < j < |g.nodes|
      ensures g.nodes[i].orderIndex != g.nodes[j].orderIndex
    {
      var e := DuplicateOrderIndex(g.nodes[j].orderIndex, g.nodes[j].nodeKey);
      assert !NodeRuleFinding(g, e);
      assert !DuplicateOrderAt(g.nodes, j, e);
    }
  }

  lemma AcceptedShape(g: WorkflowGraph)
    requires Accepts(g) && UniqueNodeIds(g.nodes)
    ensures OneDraft(g.nodes) && DistinctOrder(g.nodes)
    ensures exists n :: n in g.nodes && n.nodeType.TERMINAL?
  {
    forall e
      ensures !NodeRuleFinding(g, e)
    {
      NothingFound(g, e);
    }
    CleanShape(g);
    DraftCount(g.nodes);
  }

  lemma AcceptedIsWellFormed(g: WorkflowGraph)
    requires Accepts(g) && UniqueNodeIds(g.nodes)
    ensures WellFormed(g)
  {
    AcceptedShape(g);
    forall n | n in g.nodes
      ensures LegalAssignee(n) && LegalPrimary(g, n)
    {
      AcceptedNode(g, n);
      AcceptedPrimary(g, n);
    }
    forall t | t in g.transitions
      ensures LegalTransition(g, t)
    {
      AcceptedEndpoints(g, t);
    }
    forall d, n | d in g.nodes && d.nodeType.DRAFT? && n in g.nodes
      ensures Reaches(g.transitions, d.nodeId, n.nodeId)
    {
      OnlyDraftIsFirst(g.nodes, d);
      AcceptedNode(g, n);
    }
  }

  lemma OnlyDraftIsFirst(nodes: seq<NodeDefinition>, d: NodeDefinition)
    requires OneDraft(nodes) && d in nodes && d.nodeType.DRAFT?
    ensures FirstDraft(nodes) == Some(d)
  {
    var drafts := OfType(nodes, DRAFT);
    assert d in drafts && drafts[0] in drafts;
  }

  // ----- Well-formed implies accepted -----

  lemma WellFormedPrimaryMap(g: WorkflowGraph)
    requires WellFormed(g) && UniqueNodeIds(g.nodes) && UniqueTransitionIds(g.transitions)
    ensures Advances(PrimaryMapOf(g), NodesById(g.nodes)) && IsPrimaryMap(NodesById(g.nodes), PrimaryMapOf(g))
    ensures forall n :: n in g.nodes && !n.nodeType.TERMINAL? ==> n.nodeId in PrimaryMapOf(g)
  {
    PrimaryMapSources(g.nodes, TransitionsById(g.transitions));
    forall n | n in g.nodes && !n.nodeType.TERMINAL?
      ensures n.nodeId in PrimaryMapOf(g) && PrimaryMapOf(g)[n.nodeId] in NodesById(g.nodes)
      ensures n.orderIndex < NodesById(g.nodes)[PrimaryMapOf(g)[n.nodeId]].orderIndex
    {
      var t, target := WellFormedPrimary(g, n);
    }
    forall id | id in PrimaryMapOf(g)
      ensures id in NodesById(g.nodes) && !NodesById(g.nodes)[id].nodeType.TERMINAL?
    {
      NodeIsItsLookup(g.nodes, NodesById(g.nodes)[id]);
    }
  }

  lemma WellFormedPrimary(g: WorkflowGraph, n: NodeDefinition) returns (t: TransitionDefinition, target: NodeDefinition)
    requires WellFormed(g) && UniqueNodeIds(g.nodes) && UniqueTransitionIds(g.transitions)
    requires n in g.nodes && !n.nodeType.TERMINAL?
    ensures t in g.transitions && target in g.nodes && IsPrimaryStep(n, t, target)
    ensures PrimaryOf(TransitionsById(g.transitions), n) == Some(t)
    ensures NodesById(g.nodes)[t.targetNodeId] == target
  {
    assert LegalPrimary(g, n);
    target :| target in g.nodes && IsPrimaryEdge(g.transitions, n, target);
    t :| t in g.transitions && IsPrimaryStep(n, t, target);
    TransitionIsItsLookup(g.transitions, t);
    NodeIsItsLookup(g.nodes, target);
  }

  lemma WellFormedNode(g: WorkflowGraph, n: NodeDefinition, e: GraphError)
    requires WellFormed(g) && UniqueNodeIds(g.nodes) && UniqueTransitionIds(g.transitions) && n in g.nodes
    ensures !AssigneeFinding(n, e)
    ensures !PrimaryFinding(NodesById(g.nodes), TransitionsById(g.transitions), n, e)
  {
    hide NodesById, TransitionsById, OneDraft, DistinctOrder, LegalTransition, UniqueNodeIds, UniqueTransitionIds, Reaches;
    assert LegalAssignee(n) && LegalPrimary(g, n);
    hide WellFormed;
    if n.nodeType.TERMINAL? {
      hide LegalAssignee;
      assert PrimaryOf(TransitionsById(g.transitions), n).None?;
    } else {
      var t, target := WellFormedPrimary(g, n);
    }
  }

  lemma WellFormedReach(g: WorkflowGraph, n: NodeDefinition, e: GraphError)
    requires WellFormed(g) && n in g.nodes
    ensures !ReachFinding(g.transitions, FirstDraft(g.nodes), n, e)
  {
    if FirstDraft(g.nodes).Some? {
      assert FirstDraft(g.nodes).value in OfType(g.nodes, DRAFT);
    }
  }

  lemma WellFormedOutgoing(g: WorkflowGraph, n: NodeDefinition, e: GraphError)
    requires WellFormed(g) && UniqueNodeIds(g.nodes) && n in g.nodes
    ensures !OutgoingFinding(g.transitions, n, e)
  {
    if n.nodeType.TERMINAL? {
      forall t | t in g.transitions
        ensures t.sourceNodeId != n.nodeId
      {
        var source, target := WellFormedEndpoints(g, t);
        NodeIsItsLookup(g.nodes, n);
      }
    }
  }

  lemma WellFormedEndpoints(g: WorkflowGraph, t: TransitionDefinition)
    returns (source: NodeDefinition, target: NodeDefinition)
    requires WellFormed(g) && UniqueNodeIds(g.nodes) && t in g.transitions
    ensures source in g.nodes && target in g.nodes && LegalEndpoints(t, source, target)
    ensures t.sourceNodeId != t.targetNodeId
    ensures NodesById(g.nodes)[t.sourceNodeId] == source && NodesById(g.nodes)[t.targetNodeId] == target
  {
    assert LegalTransition(g, t);
    source, target :| source in g.nodes && target in g.nodes && LegalEndpoints(t, source, target);
    NodeIsItsLookup(g.nodes, source);
    NodeIsItsLookup(g.nodes, target);
  }

  lemma WellFormedTransition(g: WorkflowGraph, t: TransitionDefinition, e: GraphError)
    requires WellFormed(g) && UniqueNodeIds(g.nodes) && UniqueTransitionIds(g.transitions) && t in g.transitions
    ensures !ReferenceFinding(NodesById(g.nodes), t, e)
    ensures !ReturnFinding(NodesById(g.nodes), t, e)
    ensures !TerminateFinding(NodesById(g.nodes), t, e)
  {
    var source, target := WellFormedEndpoints(g, t);
    var primary, next := WellFormedPrimary(g, source);
    TransitionIsItsLookup(g.transitions, t);
  }

  lemma WellFormedTrunk(g: WorkflowGraph, e: GraphError)
    requires WellFormed(g) && UniqueNodeIds(g.nodes) && UniqueTransitionIds(g.transitions)
    ensures ValidationHalts(g)
    ensures !CycleFinding(NodesById(g.nodes), PrimaryMapOf(g), e)
    ensures !TrunkFinding(FirstDraft(g.nodes), NodesById(g.nodes), PrimaryMapOf(g), e)
  {
    var byId, f := NodesById(g.nodes), PrimaryMapOf(g);
    WellFormedPrimaryMap(g);
    forall c ensures !IsCycle(f, c) {
      AdvancingHasNoCycle(f, byId, c);
    }
    if FirstDraft(g.nodes).Some? {
      AdvancingTrunkHalts(byId, f, FirstDraft(g.nodes).value.nodeId);
      forall k: nat ensures !StuckAt(byId, f, FirstDraft(g.nodes).value.nodeId, k) {}
    }
  }

  lemma WellFormedShape(g: WorkflowGraph, e: GraphError)
    requires WellFormed(g) && UniqueNodeIds(g.nodes)
    ensures !NodeRuleFinding(g, e)
  {
    hide LegalPrimary, LegalTransition, LegalAssignee, Reaches;
    DraftCount(g.nodes);
    var d :| d in g.nodes && IsOnlyDraft(g.nodes, d);
    var terminal :| terminal in g.nodes && terminal.nodeType.TERMINAL?;
    assert d != terminal;
  }

  lemma WellFormedNodes(g: WorkflowGraph, e: GraphError)
    requires WellFormed(g) && UniqueNodeIds(g.nodes) && UniqueTransitionIds(g.transitions)
    ensures !SomeAssigneeFinding(g, e) && !SomePrimaryFinding(g, e)
    ensures !SomeReachFinding(g, e) && !SomeOutgoingFinding(g, e)
  {
    forall n | n in g.nodes
      ensures !AssigneeFinding(n, e)
      ensures !PrimaryFinding(NodesById(g.nodes), TransitionsById(g.transitions), n, e)
      ensures !ReachFinding(g.transitions, FirstDraft(g.nodes), n, e)
      ensures !OutgoingFinding(g.transitions, n, e)
    {
      WellFormedNode(g, n, e);
      WellFormedReach(g, n, e);
      WellFormedOutgoing(g, n, e);
    }
  }

  lemma WellFormedTransitions(g: WorkflowGraph, e: GraphError)
    requires WellFormed(g) && UniqueNodeIds(g.nodes) && UniqueTransitionIds(g.transitions)
    ensures !SomeReferenceFinding(g, e) && !SomeReturnFinding(g, e) && !SomeTerminateFinding(g, e)
  {
    forall t | t in g.transitions
      ensures !ReferenceFinding(NodesById(g.nodes), t, e)
      ensures !ReturnFinding(NodesById(g.nodes), t, e)
      ensures !TerminateFinding(NodesById(g.nodes), t, e)
    {
      WellFormedTransition(g, t, e);
    }
  }

  lemma WellFormedIsAccepted(g: WorkflowGraph)
    requires WellFormed(g) && UniqueNodeIds(g.nodes) && UniqueTransitionIds(g.transitions)
    ensures Accepts(g)
  {
    WellFormedTrunk(g, MinNodes);
    forall e
      ensures !Finding(g, e)
    {
      WellFormedShape(g, e);
      WellFormedTrunk(g, e);
      WellFormedNodes(g, e);
      WellFormedTransitions(g, e);
    }
  }

  /**
   On rows with unique ids the validator accepts exactly the well-formed graphs. The rules against
   too few nodes, primary cycles, stuck trunks and non-ADVANCE primaries add nothing to them.
   */
  lemma AcceptsIffWellFormed(g: WorkflowGraph)
    requires UniqueNodeIds(g.nodes) && UniqueTransitionIds(g.transitions)
    ensures Accepts(g) <==> WellFormed(g)
  {
    if Accepts(g) {
      AcceptedIsWellFormed(g);
    }
    if WellFormed(g) {
      WellFormedIsAccepted(g);
    }
  }

  /** A graph that the validator accepts, stored under primary keys. */
  ghost predicate Validated(g: WorkflowGraph) {
    Accepts(g) && UniqueNodeIds(g.nodes) && UniqueTransitionIds(g.transitions)
  }

  // ----- Progress -----

  function LaterNodes(nodes: seq<NodeDefinition>, n: NodeDefinition): set<NodeDefinition> {
    set m | m in nodes && n.orderIndex < m.orderIndex
  }

  /** `path` follows primary transitions from its first node to a TERMINAL node. */
  ghost predicate IsPrimaryRun(g: WorkflowGraph, path: seq<NodeDefinition>) {
    && path != []
    && path[0] in g.nodes
    && if |path| == 1 then path[0].nodeType.TERMINAL?
       else
         && !path[0].nodeType.TERMINAL?
         && IsPrimaryEdge(g.transitions, path[0], path[1])
         && IsPrimaryRun(g, path[1..])
  }

  lemma {:induction false} PrimaryRun(g: WorkflowGraph, n: NodeDefinition) returns (path: seq<NodeDefinition>)
    requires WellFormed(g) && UniqueNodeIds(g.nodes) && UniqueTransitionIds(g.transitions) && n in g.nodes
    ensures IsPrimaryRun(g, path) && path[0] == n && |path| <= 1 + |LaterNodes(g.nodes, n)|
    decreases |LaterNodes(g.nodes, n)|
  {
    path := [n];
    if !n.nodeType.TERMINAL? {
      var t, target := WellFormedPrimary(g, n);
      FewerLaterNodes(g.nodes, n, target);
      var rest := PrimaryRun(g, target);
      path := [n] + rest;
      assert path[1..] == rest;
    }
  }

  lemma FewerLaterNodes(nodes: seq<NodeDefinition>, n: NodeDefinition, target: NodeDefinition)
    requires target in nodes && n.orderIndex < target.orderIndex
    ensures |LaterNodes(nodes, target)| < |LaterNodes(nodes, n)|
  {
    SubsetSize(LaterNodes(nodes, target) + {target}, LaterNodes(nodes, n));
  }

  lemma {:induction false} SubsetSize<T>(a: set<T>, b: set<T>)
    requires a <= b
    ensures |a| <= |b|
  {
    if a != {} {
      var x :| x in a;
      SubsetSize(a - {x}, b - {x});
    }
  }

  lemma {:induction false} ElementCount<T>(s: seq<T>)
    ensures |set x | x in s| <= |s|
  {
    if s != [] {
      ElementCount(s[1..]);
      assert (set x | x in s) == {s[0]} + set x | x in s[1..];
    }
  }

  lemma FewLaterNodes(nodes: seq<NodeDefinition>, n: NodeDefinition)
    requires n in nodes
    ensures |LaterNodes(nodes, n)| <= |nodes| - 1
  {
    var all := set m | m in nodes;
    ElementCount(nodes);
    SubsetSize(LaterNodes(nodes, n), all - {n});
  }

  /** The run rises in order index at every step and stays inside the graph. */
  lemma {:induction false} RunEdge(g: WorkflowGraph, path: seq<NodeDefinition>, i: nat)
    requires IsPrimaryRun(g, path) && i < |path|
    ensures path[i] in g.nodes && (path[i].nodeType.TERMINAL? <==> i == |path| - 1)
    ensures i + 1 < |path| ==> IsPrimaryEdge(g.transitions, path[i], path[i + 1])
    ensures i + 1 < |path| ==> path[i].orderIndex < path[i + 1].orderIndex
  {
    if i > 0 {
      RunEdge(g, path[1..], i - 1);
    }
  }

  /** In an accepted graph every node has a primary run of at most |nodes| - 1 steps to a TERMINAL node. */
  lemma ProgressInAcceptedGraphs(g: WorkflowGraph, n: NodeDefinition) returns (path: seq<NodeDefinition>)
    requires Accepts(g) && UniqueNodeIds(g.nodes) && UniqueTransitionIds(g.transitions) && n in g.nodes
    ensures IsPrimaryRun(g, path) && path[0] == n && |path| - 1 <= |g.nodes| - 1
    ensures forall i :: 0 <= i < |path| - 1 ==> path[i].orderIndex < path[i + 1].orderIndex
    ensures path[|path| - 1].nodeType.TERMINAL?
  {
    AcceptedIsWellFormed(g);
    path := PrimaryRun(g, n);
    FewLaterNodes(g.nodes, n);
    forall i | 0 <= i < |path| - 1
      ensures path[i].orderIndex < path[i + 1].orderIndex
    {
      RunEdge(g, path, i);
    }
    RunEdge(g, path, |path| - 1);
  }

  lemma PrimaryEdgeInMap(g: WorkflowGraph, a: NodeDefinition, b: NodeDefinition)
    requires UniqueNodeIds(g.nodes) && UniqueTransitionIds(g.transitions)
    requires a in g.nodes && !a.nodeType.TERMINAL? && IsPrimaryEdge(g.transitions, a, b)
    ensures TrunkNext(NodesById(g.nodes), PrimaryMapOf(g), a.nodeId)
         == if a.nodeId == b.nodeId then None else Some(b.nodeId)
  {
    var t :| t in g.transitions && IsPrimaryStep(a, t, b);
    TransitionIsItsLookup(g.transitions, t);
    NodeIsItsLookup(g.nodes, a);
    PrimaryMapSources(g.nodes, TransitionsById(g.transitions));
  }

  lemma RunStepInMap(g: WorkflowGraph, path: seq<NodeDefinition>, i: nat)
    requires UniqueNodeIds(g.nodes) && UniqueTransitionIds(g.transitions)
    requires IsPrimaryRun(g, path) && i + 1 < |path|
    ensures TrunkNext(NodesById(g.nodes), PrimaryMapOf(g), path[i].nodeId) == Some(path[i + 1].nodeId)
  {
    RunEdge(g, path, i);
    RunEdge(g, path, i + 1);
    NodeIsItsLookup(g.nodes, path[i]);
    NodeIsItsLookup(g.nodes, path[i + 1]);
    PrimaryEdgeInMap(g, path[i], path[i + 1]);
  }

  lemma {:induction false} TrunkFollowsSteps(byId: map<Uuid, NodeDefinition>, f: PrimaryMap, path: seq<NodeDefinition>, k: nat)
    requires k < |path|
    requires forall i :: 0 <= i < |path| - 1 ==> TrunkNext(byId, f, path[i].nodeId) == Some(path[i + 1].nodeId)
    ensures TrunkAt(byId, f, path[0].nodeId, k) == Some(path[k].nodeId)
  {
    if k > 0 {
      TrunkFollowsSteps(byId, f, path, k - 1);
    }
  }

  /** The trunk loop of the validator, on an accepted graph, walks the DRAFT node's run and stops at its end. */
  lemma TrunkWalkStopsAtTerminal(g: WorkflowGraph, draft: NodeDefinition) returns (path: seq<NodeDefinition>)
    requires Accepts(g) && UniqueNodeIds(g.nodes) && UniqueTransitionIds(g.transitions)
    requires FirstDraft(g.nodes) == Some(draft)
    ensures IsPrimaryRun(g, path) && path[0] == draft && |path| <= |g.nodes|
    ensures forall k :: 0 <= k < |path| ==>
              TrunkAt(NodesById(g.nodes), PrimaryMapOf(g), draft.nodeId, k) == Some(path[k].nodeId)
    ensures TrunkAt(NodesById(g.nodes), PrimaryMapOf(g), draft.nodeId, |path|).None?
  {
    var byId, f := NodesById(g.nodes), PrimaryMapOf(g);
    assert draft in OfType(g.nodes, DRAFT);
    path := ProgressInAcceptedGraphs(g, draft);
    forall i | 0 <= i < |path| - 1
      ensures TrunkNext(byId, f, path[i].nodeId) == Some(path[i + 1].nodeId)
    {
      RunStepInMap(g, path, i);
    }
    forall k | 0 <= k < |path|
      ensures TrunkAt(byId, f, draft.nodeId, k) == Some(path[k].nodeId)
    {
      TrunkFollowsSteps(byId, f, path, k);
    }
    RunEdge(g, path, |path| - 1);
    NodeIsItsLookup(g.nodes, path[|path| - 1]);
    assert TrunkNext(byId, f, path[|path| - 1].nodeId).None?;
  }

  // ----- An accepted graph -----

  const SHORTCUT_NODES: seq<NodeDefinition> := [
    NodeDefinition(1, "a", "", 1, DRAFT, Some(AssigneeRef(WORKFLOW_CREATOR, None)), None, Some(10), None),
    NodeDefinition(2, "b", "", 2, NORMAL, Some(AssigneeRef(WORKFLOW_CREATOR, None)), None, Some(12), None),
    NodeDefinition(3, "c", "", 3, TERMINAL, None, None, None, None)]

  const SHORTCUT_TRANSITIONS: seq<TransitionDefinition> := [
    TransitionDefinition(10, "a", "", 1, 3, ADVANCE, None, None),
    TransitionDefinition(11, "b", "", 1, 2, ADVANCE, None, None),
    TransitionDefinition(12, "c", "", 2, 3, ADVANCE, None, None)]

  /** DRAFT 1 advances to TERMINAL 3. An ADVANCE that is not its primary leads to NORMAL 2. */
  const SHORTCUT: WorkflowGraph := WorkflowGraph(SHORTCUT_NODES, SHORTCUT_TRANSITIONS, None)

  lemma ShortcutIsStorable()
    ensures UniqueRows(SHORTCUT) && ResolvingReferences(SHORTCUT)
  {
    assert SHORTCUT_NODES[0] in SHORTCUT.nodes && SHORTCUT_NODES[1] in SHORTCUT.nodes && SHORTCUT_NODES[2] in SHORTCUT.nodes;
    assert SHORTCUT_TRANSITIONS[0] in SHORTCUT.transitions && SHORTCUT_TRANSITIONS[2] in SHORTCUT.transitions;
  }

  lemma ShortcutIsReachable()
    ensures forall n :: n in SHORTCUT.nodes ==> Reaches(SHORTCUT.transitions, 1, n.nodeId)
  {
    ReachesSelf(SHORTCUT.transitions, 1);
    assert SHORTCUT_TRANSITIONS[0] in SHORTCUT.transitions && SHORTCUT_TRANSITIONS[1] in SHORTCUT.transitions;
    ReachesStep(SHORTCUT.transitions, 1, 1, 2);
    ReachesStep(SHORTCUT.transitions, 1, 1, 3);
  }

  lemma ShortcutIsLegal()
    ensures forall n :: n in SHORTCUT.nodes ==> LegalAssignee(n) && LegalPrimary(SHORTCUT, n)
    ensures forall t :: t in SHORTCUT.transitions ==> LegalTransition(SHORTCUT, t)
  {
    var n, t := SHORTCUT_NODES, SHORTCUT_TRANSITIONS;
    assert n[0] in n && n[1] in n && n[2] in n && t[0] in t && t[2] in t;
    assert IsPrimaryStep(n[0], t[0], n[2]) && IsPrimaryStep(n[1], t[2], n[2]);
    assert IsPrimaryEdge(t, n[0], n[2]) && IsPrimaryEdge(t, n[1], n[2]);
    assert LegalEndpoints(t[0], n[0], n[2]) && LegalEndpoints(t[1], n[0], n[1]) && LegalEndpoints(t[2], n[1], n[2]);
  }

  lemma ShortcutIsAccepted()
    ensures Accepts(SHORTCUT)
  {
    hide Reaches, LegalAssignee, LegalPrimary, LegalTransition, Accepts;
    ShortcutIsStorable();
    ShortcutIsReachable();
    ShortcutIsLegal();
    assert SHORTCUT_NODES[0] in SHORTCUT.nodes && SHORTCUT_NODES[2] in SHORTCUT.nodes;
    assert IsOnlyDraft(SHORTCUT.nodes, SHORTCUT_NODES[0]);
    AcceptsIffWellFormed(SHORTCUT);
  }

  // ----- Keys -----

  /** The same rows, but for the keys of nodes and transitions and the context schema. */
  predicate SameButKeys(g: WorkflowGraph, h: WorkflowGraph) {
    && |g.nodes| == |h.nodes| && |g.transitions| == |h.transitions|
    && (forall i :: 0 <= i < |g.nodes| ==> SameNodeButKey(g.nodes[i], h.nodes[i]))
    && (forall i :: 0 <= i < |g.transitions| ==> SameTransitionButKey(g.transitions[i], h.transitions[i]))
  }

  predicate SameNodeButKey(n: NodeDefinition, m: NodeDefinition) {
    m == n.(nodeKey := m.nodeKey)
  }

  predicate SameTransitionButKey(t: TransitionDefinition, u: TransitionDefinition) {
    u == t.(transitionKey := u.transitionKey)
  }

  lemma RekeyedReach(g: WorkflowGraph, h: WorkflowGraph, a: Uuid, b: Uuid)
    requires SameButKeys(g, h) && Reaches(g.transitions, a, b)
    ensures Reaches(h.transitions, a, b)
  {
    var path :| IsPath(g.transitions, path) && path[0] == a && path[|path| - 1] == b;
    forall k | 0 <= k < |path| - 1
      ensures Edge(h.transitions, path[k], path[k + 1])
    {
      assert Edge(g.transitions, path[k], path[k + 1]);
      var i :| 0 <= i < |g.transitions| && g.transitions[i].sourceNodeId == path[k] && g.transitions[i].targetNodeId == path[k + 1];
      assert SameTransitionButKey(g.transitions[i], h.transitions[i]);
    }
    assert IsPath(h.transitions, path);
  }

  lemma RekeyedPrimary(g: WorkflowGraph, h: WorkflowGraph, i: nat)
    requires SameButKeys(g, h) && i < |g.nodes| && LegalPrimary(g, g.nodes[i])
    ensures LegalPrimary(h, h.nodes[i])
  {
    assert SameNodeButKey(g.nodes[i], h.nodes[i]);
    if !h.nodes[i].nodeType.TERMINAL? {
      var target :| target in g.nodes && IsPrimaryEdge(g.transitions, g.nodes[i], target);
      var t :| t in g.transitions && IsPrimaryStep(g.nodes[i], t, target);
      var j, k :| 0 <= j < |g.nodes| && g.nodes[j] == target && 0 <= k < |g.transitions| && g.transitions[k] == t;
      assert SameNodeButKey(g.nodes[j], h.nodes[j]) && SameTransitionButKey(g.transitions[k], h.transitions[k]);
      assert IsPrimaryStep(h.nodes[i], h.transitions[k], h.nodes[j]);
      assert IsPrimaryEdge(h.transitions, h.nodes[i], h.nodes[j]);
    }
  }

  lemma RekeyedTransition(g: WorkflowGraph, h: WorkflowGraph, k: nat)
    requires SameButKeys(g, h) && k < |g.transitions| && LegalTransition(g, g.transitions[k])
    ensures LegalTransition(h, h.transitions[k])
  {
    assert SameTransitionButKey(g.transitions[k], h.transitions[k]);
    var source, target :| source in g.nodes && target in g.nodes && LegalEndpoints(g.transitions[k], source, target);
    var i, j :| 0 <= i < |g.nodes| && g.nodes[i] == source && 0 <= j < |g.nodes| && g.nodes[j] == target;
    assert SameNodeButKey(g.nodes[i], h.nodes[i]) && SameNodeButKey(g.nodes[j], h.nodes[j]);
    assert LegalEndpoints(h.transitions[k], h.nodes[i], h.nodes[j]);
  }

  lemma RekeyedShape(g: WorkflowGraph, h: WorkflowGraph)
    requires SameButKeys(g, h) && UniqueNodeIds(g.nodes) && OneDraft(g.nodes) && DistinctOrder(g.nodes)
    requires exists n :: n in g.nodes && n.nodeType.TERMINAL?
    ensures OneDraft(h.nodes) && DistinctOrder(h.nodes) && exists n :: n in h.nodes && n.nodeType.TERMINAL?
  {
    assert forall i :: 0 <= i < |g.nodes| ==> SameNodeButKey(g.nodes[i], h.nodes[i]);
    var d :| d in g.nodes && IsOnlyDraft(g.nodes, d);
    var i :| 0 <= i < |g.nodes| && g.nodes[i] == d;
    forall n | n in h.nodes && n.nodeType.DRAFT?
      ensures n == h.nodes[i]
    {
      var j :| 0 <= j < |h.nodes| && h.nodes[j] == n;
      assert g.nodes[j] in g.nodes;
    }
    assert IsOnlyDraft(h.nodes, h.nodes[i]);
    var terminal :| terminal in g.nodes && terminal.nodeType.TERMINAL?;
    var k :| 0 <= k < |g.nodes| && g.nodes[k] == terminal;
    assert h.nodes[k] in h.nodes;
  }

  lemma RekeyedIsWellFormed(g: WorkflowGraph, h: WorkflowGraph)
    requires SameButKeys(g, h) && UniqueNodeIds(g.nodes) && WellFormed(g)
    ensures WellFormed(h)
  {
    hide LegalPrimary, LegalTransition, OneDraft, DistinctOrder, Reaches, UniqueNodeIds;
    RekeyedShape(g, h);
    forall n | n in h.nodes
      ensures LegalAssignee(n) && LegalPrimary(h, n)
    {
      var i :| 0 <= i < |h.nodes| && h.nodes[i] == n;
      assert g.nodes[i] in g.nodes && SameNodeButKey(g.nodes[i], h.nodes[i]);
      RekeyedPrimary(g, h, i);
    }
    forall t | t in h.transitions
      ensures LegalTransition(h, t)
    {
      var k :| 0 <= k < |h.transitions| && h.transitions[k] == t;
      assert g.transitions[k] in g.transitions;
      RekeyedTransition(g, h, k);
    }
    forall d, n | d in h.nodes && d.nodeType.DRAFT? && n in h.nodes
      ensures Reaches(h.transitions, d.nodeId, n.nodeId)
    {
      var i, j :| 0 <= i < |h.nodes| && h.nodes[i] == d && 0 <= j < |h.nodes| && h.nodes[j] == n;
      assert g.nodes[i] in g.nodes && SameNodeButKey(g.nodes[i], h.nodes[i]);
      assert g.nodes[j] in g.nodes && SameNodeButKey(g.nodes[j], h.nodes[j]);
      RekeyedReach(g, h, d.nodeId, n.nodeId);
    }
  }

  /** The verdict does not depend on keys at all: no pass checks that they are unique. */
  lemma VerdictIgnoresKeys(g: WorkflowGraph, h: WorkflowGraph)
    requires SameButKeys(g, h) && UniqueNodeIds(g.nodes) && UniqueTransitionIds(g.transitions)
    ensures Accepts(g) <==> Accepts(h)
  {
    assert SameButKeys(h, g) && UniqueNodeIds(h.nodes) && UniqueTransitionIds(h.transitions) by {
      assert forall i :: 0 <= i < |g.nodes| ==> SameNodeButKey(g.nodes[i], h.nodes[i]);
      assert forall i :: 0 <= i < |g.transitions| ==> SameTransitionButKey(g.transitions[i], h.transitions[i]);
    }
    hide Accepts, WellFormed, SameButKeys, UniqueNodeIds, UniqueTransitionIds;
    AcceptsIffWellFormed(g);
    AcceptsIffWellFormed(h);
    if WellFormed(g) {
      RekeyedIsWellFormed(g, h);
    }
    if WellFormed(h) {
      RekeyedIsWellFormed(h, g);
    }
  }

  /** The graph with the key of node `i` given to node `j` as well. */
  function WithSharedKey(g: WorkflowGraph, i: nat, j: nat): WorkflowGraph
    requires i < |g.nodes| && j < |g.nodes|
  {
    g.(nodes := g.nodes[j := g.nodes[j].(nodeKey := g.nodes[i].nodeKey)])
  }

  /** Any accepted graph is still accepted when two of its nodes are given the same key. */
  lemma SharedKeyIsAccepted(g: WorkflowGraph, i: nat, j: nat)
    requires Accepts(g) && UniqueNodeIds(g.nodes) && UniqueTransitionIds(g.transitions) && i < j < |g.nodes|
    ensures Accepts(WithSharedKey(g, i, j)) && !UniqueNodeKeys(WithSharedKey(g, i, j).nodes)
  {
    hide Accepts;
    VerdictIgnoresKeys(g, WithSharedKey(g, i, j));
  }

  /** For example `SHORTCUT`, with key "a" for nodes 1 and 2. */
  lemma ShortcutWithSharedKey()
    ensures Accepts(WithSharedKey(SHORTCUT, 0, 1)) && !UniqueNodeKeys(WithSharedKey(SHORTCUT, 0, 1).nodes)
  {
    hide Accepts, WithSharedKey, UniqueNodeKeys, UniqueRows;
    ShortcutIsStorable();
    ShortcutIsAccepted();
    SharedKeyIsAccepted(SHORTCUT, 0, 1);
  }
}
