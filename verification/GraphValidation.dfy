/** The graph validator: one mutable error list threaded through all rule passes. */
module GraphValidation {
  import opened Prelude
  import opened DefinitionModel
  import opened GraphErrors
  import opened GraphReachability
  import opened PrimaryTrunk
  import opened GraphRules

  // ----- Node rules -----

  method ValidateNodeRules(g: WorkflowGraph, errors0: seq<GraphError>)
    returns (draftNodes: seq<NodeDefinition>, errors: seq<GraphError>)
    ensures draftNodes == OfType(g.nodes, DRAFT)
    ensures forall e :: e in errors <==> e in errors0 || NodeRuleFinding(g, e)
  {
    hide OfType;
    errors := errors0;
    if |g.nodes| < 2 {
      errors := errors + [MinNodes];
    }
    draftNodes := OfType(g.nodes, DRAFT);
    if draftNodes == [] {
      errors := errors + [NoDraftNode];
    } else if |draftNodes| > 1 {
      assert draftNodes[0] in draftNodes;
      errors := errors + [MultipleDraftNodes(|draftNodes|)];
    } else {
      assert draftNodes[0] in draftNodes;
    }
    var terminalNodes := OfType(g.nodes, TERMINAL);
    if terminalNodes == [] {
      errors := errors + [NoTerminalNode];
    } else {
      assert terminalNodes[0] in terminalNodes;
    }
    errors := ValidateOrderIndices(g.nodes, errors);
  }

  method ValidateOrderIndices(nodes: seq<NodeDefinition>, errors0: seq<GraphError>) returns (errors: seq<GraphError>)
    ensures forall e :: e in errors <==> e in errors0 || exists j :: DuplicateOrderAt(nodes, j, e)
  {
    errors := errors0;
    var seen: set<int> := {};
    for i := 0 to |nodes|
      invariant forall o :: o in seen <==> exists j :: 0 <= j < i && nodes[j].orderIndex == o
      invariant forall e :: e in errors <==> e in errors0 || exists j :: j < i && DuplicateOrderAt(nodes, j, e)
    {
      if nodes[i].orderIndex in seen {
        errors := errors + [DuplicateOrderIndex(nodes[i].orderIndex, nodes[i].nodeKey)];
        assert DuplicateOrderAt(nodes, i, DuplicateOrderIndex(nodes[i].orderIndex, nodes[i].nodeKey));
      } else {
        seen := seen + {nodes[i].orderIndex};
      }
    }
  }

  method ValidateDirectedReachability(g: WorkflowGraph, draftNodes: seq<NodeDefinition>, errors0: seq<GraphError>)
    returns (errors: seq<GraphError>)
    requires draftNodes == OfType(g.nodes, DRAFT)
    ensures forall e :: e in errors <==>
              e in errors0 || SomeReachFinding(g, e)
  {
    errors := errors0;
    if draftNodes != [] {
      var draft := draftNodes[0];
      var reachable := ComputeDirectedReachable(g.transitions, draft.nodeId);
      for i := 0 to |g.nodes|
        invariant forall e :: e in errors <==>
          e in errors0 || exists j :: 0 <= j < i && ReachFinding(g.transitions, Some(draft), g.nodes[j], e)
      {
        if g.nodes[i].nodeId !in reachable {
          errors := errors + [NodeNotReachable(g.nodes[i].nodeKey)];
        }
      }
    }
  }

  // ----- Assignee rules -----

  method ValidateAssignee(node: NodeDefinition, errors0: seq<GraphError>) returns (errors: seq<GraphError>)
    ensures forall e :: e in errors <==> e in errors0 || AssigneeFinding(node, e)
  {
    errors := errors0;
    match node.nodeType
    case TERMINAL =>
      if node.assigneeRef.Some? {
        errors := errors + [TerminalHasAssignee(node.nodeKey)];
      }
    case DRAFT =>
      if node.assigneeRef.None? {
        errors := errors + [AssigneeRequired(node.nodeKey)];
        return;
      }
      var assigneeRef := node.assigneeRef.value;
      if assigneeRef.refType != WORKFLOW_CREATOR {
        errors := errors + [DraftNotWorkflowCreator(node.nodeKey)];
      }
      if assigneeRef.fixedPrincipalId.Some? {
        errors := errors + [UnexpectedFixedPrincipal(node.nodeKey)];
      }
    case NORMAL =>
      if node.assigneeRef.None? {
        errors := errors + [AssigneeRequired(node.nodeKey)];
        return;
      }
      var assigneeRef := node.assigneeRef.value;
      match assigneeRef.refType {
        case WORKFLOW_CREATOR =>
          if assigneeRef.fixedPrincipalId.Some? {
            errors := errors + [UnexpectedFixedPrincipal(node.nodeKey)];
          }
        case DOMAIN_OWNER =>
          if assigneeRef.fixedPrincipalId.Some? {
            errors := errors + [UnexpectedFixedPrincipal(node.nodeKey)];
          }
        case FIXED_PRINCIPAL =>
          if assigneeRef.fixedPrincipalId.None? {
            errors := errors + [FixedPrincipalMissingId(node.nodeKey)];
          }
      }
  }

  method ValidateAssigneeRules(g: WorkflowGraph, errors0: seq<GraphError>) returns (errors: seq<GraphError>)
    ensures forall e :: e in errors <==> e in errors0 || SomeAssigneeFinding(g, e)
  {
    hide AssigneeFinding;
    errors := errors0;
    for i := 0 to |g.nodes|
      invariant forall e :: e in errors <==>
        e in errors0 || exists j :: 0 <= j < i && AssigneeFinding(g.nodes[j], e)
    {
      errors := ValidateAssignee(g.nodes[i], errors);
    }
  }

  // ----- Transition references -----

  method ValidateTransitionReferences(g: WorkflowGraph, nodesById: map<Uuid, NodeDefinition>, errors0: seq<GraphError>)
    returns (errors: seq<GraphError>)
    requires nodesById == NodesById(g.nodes)
    ensures forall e :: e in errors <==>
              e in errors0 || SomeReferenceFinding(g, e)
  {
    hide NodesById;
    errors := errors0;
    for i := 0 to |g.transitions|
      invariant forall e :: e in errors <==>
        e in errors0 || exists j :: 0 <= j < i && !e.SelfLoop? && ReferenceFinding(nodesById, g.transitions[j], e)
    {
      var t := g.transitions[i];
      if t.sourceNodeId !in nodesById {
        errors := errors + [TransitionSourceMissing(t.transitionKey)];
      }
      if t.targetNodeId !in nodesById {
        errors := errors + [TransitionTargetMissing(t.transitionKey)];
      }
    }
    ghost var missing := errors;
    for i := 0 to |g.transitions|
      invariant forall e :: e in errors <==>
        e in missing || exists j :: 0 <= j < i && e.SelfLoop? && ReferenceFinding(nodesById, g.transitions[j], e)
    {
      var t := g.transitions[i];
      if t.sourceNodeId == t.targetNodeId {
        errors := errors + [SelfLoop(t.transitionKey)];
      }
    }
  }

  // ----- Primary trunk -----

  method ValidatePrimary(node: NodeDefinition, nodesById: map<Uuid, NodeDefinition>,
                         transitionsById: map<Uuid, TransitionDefinition>, errors0: seq<GraphError>)
    returns (errors: seq<GraphError>)
    ensures forall e :: e in errors <==> e in errors0 || PrimaryFinding(nodesById, transitionsById, node, e)
  {
    errors := errors0;
    if node.primaryAdvanceTransitionId.Some? {
      var id := node.primaryAdvanceTransitionId.value;
      if id in transitionsById {
        var t := transitionsById[id];
        if t.sourceNodeId != node.nodeId {
          errors := errors + [PrimaryNotFromNode(t.transitionKey, node.nodeKey)];
        }
        if !t.transitionEffect.ADVANCE? {
          errors := errors + [PrimaryNotAdvance(t.transitionKey, node.nodeKey)];
        }
        if t.targetNodeId in nodesById && nodesById[t.targetNodeId].orderIndex <= node.orderIndex {
          errors := errors + [PrimaryNotAdvancing(t.transitionKey, node.nodeKey)];
        }
      } else if !node.nodeType.TERMINAL? {
        errors := errors + [PrimaryTransitionMissing(node.nodeKey, id)];
      } else {
        errors := errors + [TerminalHasPrimary(node.nodeKey)];
      }
    } else if !node.nodeType.TERMINAL? {
      errors := errors + [MissingPrimary(node.nodeKey)];
    }
  }

  /** The first loop of the trunk rules: build the primary map and check each primary reference. */
  method BuildPrimaryTargets(nodes: seq<NodeDefinition>, nodesById: map<Uuid, NodeDefinition>,
                             transitionsById: map<Uuid, TransitionDefinition>, errors0: seq<GraphError>)
    returns (primaryTargets: PrimaryMap, errors: seq<GraphError>)
    ensures primaryTargets == PrimaryTargets(nodes, transitionsById)
    ensures forall e :: e in errors <==>
              e in errors0 || exists n :: n in nodes && PrimaryFinding(nodesById, transitionsById, n, e)
  {
    errors := errors0;
    primaryTargets := map[];
    for i := 0 to |nodes|
      invariant primaryTargets == PrimaryTargets(nodes[..i], transitionsById)
      invariant forall e :: e in errors <==>
        e in errors0 || exists j :: 0 <= j < i && PrimaryFinding(nodesById, transitionsById, nodes[j], e)
    {
      PrimaryTargetsSnoc(nodes, transitionsById, i);
      var primary := PrimaryOf(transitionsById, nodes[i]);
      if primary.Some? && !nodes[i].nodeType.TERMINAL? {
        primaryTargets := primaryTargets[nodes[i].nodeId := primary.value.targetNodeId];
      }
      errors := ValidatePrimary(nodes[i], nodesById, transitionsById, errors);
    }
    assert nodes[..|nodes|] == nodes;
  }

  method ValidatePrimaryTrunk(g: WorkflowGraph, nodesById: map<Uuid, NodeDefinition>,
                              transitionsById: map<Uuid, TransitionDefinition>, draftNodes: seq<NodeDefinition>,
                              errors0: seq<GraphError>)
    returns (errors: seq<GraphError>, ghost cycles: seq<seq<Uuid>>)
    requires nodesById == NodesById(g.nodes) && transitionsById == TransitionsById(g.transitions)
    requires draftNodes == OfType(g.nodes, DRAFT)
    requires ValidationHalts(g)
    ensures ListsEveryCycleOnce(PrimaryMapOf(g), cycles)
    ensures forall e :: e in errors <==>
              || e in errors0
              || SomePrimaryFinding(g, e)
              || e in CycleErrors(nodesById, cycles)
              || TrunkFinding(FirstDraft(g.nodes), nodesById, PrimaryMapOf(g), e)
  {
    hide ListsEveryCycleOnce, PrimaryFinding, TrunkHalts, TrunkStuck;
    var primaryTargets: PrimaryMap;
    primaryTargets, errors := BuildPrimaryTargets(g.nodes, nodesById, transitionsById, errors0);
    ghost var before := errors;
    errors := ValidatePrimaryAcyclic(nodesById, primaryTargets, errors);
    cycles :| ListsEveryCycleOnce(primaryTargets, cycles) && errors == before + CycleErrors(nodesById, cycles);
    var draft := if draftNodes == [] then None else Some(draftNodes[0]);
    errors := ValidateTrunkReachesTerminal(draft, nodesById, primaryTargets, errors);
  }

  // ----- RETURN, TERMINATE and terminal rules -----

  method ValidateReturn(t: TransitionDefinition, nodesById: map<Uuid, NodeDefinition>, errors0: seq<GraphError>)
    returns (errors: seq<GraphError>)
    ensures forall e :: e in errors <==> e in errors0 || ReturnFinding(nodesById, t, e)
  {
    errors := errors0;
    if t.transitionEffect.RETURN? {
      if t.targetNodeId in nodesById && nodesById[t.targetNodeId].nodeType.TERMINAL? {
        errors := errors + [ReturnToTerminal(t.transitionKey)];
      }
      if t.sourceNodeId in nodesById && t.targetNodeId in nodesById
         && nodesById[t.targetNodeId].orderIndex >= nodesById[t.sourceNodeId].orderIndex {
        errors := errors + [ReturnNotBackward(t.transitionKey)];
      }
      if t.sourceNodeId in nodesById
         && Some(t.transitionId) == nodesById[t.sourceNodeId].primaryAdvanceTransitionId {
        errors := errors + [ReturnIsPrimary(t.transitionKey)];
      }
    }
  }

  method ValidateReturnRules(g: WorkflowGraph, nodesById: map<Uuid, NodeDefinition>, errors0: seq<GraphError>)
    returns (errors: seq<GraphError>)
    requires nodesById == NodesById(g.nodes)
    ensures forall e :: e in errors <==> e in errors0 || SomeReturnFinding(g, e)
  {
    hide ReturnFinding, NodesById;
    errors := errors0;
    for i := 0 to |g.transitions|
      invariant forall e :: e in errors <==>
        e in errors0 || exists j :: 0 <= j < i && ReturnFinding(nodesById, g.transitions[j], e)
    {
      errors := ValidateReturn(g.transitions[i], nodesById, errors);
    }
  }

  method ValidateTerminate(t: TransitionDefinition, nodesById: map<Uuid, NodeDefinition>, errors0: seq<GraphError>)
    returns (errors: seq<GraphError>)
    ensures forall e :: e in errors <==> e in errors0 || TerminateFinding(nodesById, t, e)
  {
    errors := errors0;
    if t.transitionEffect.TERMINATE? {
      if t.sourceNodeId in nodesById
         && Some(t.transitionId) == nodesById[t.sourceNodeId].primaryAdvanceTransitionId {
        errors := errors + [TerminateIsPrimary(t.transitionKey)];
      }
      if t.targetNodeId in nodesById && !nodesById[t.targetNodeId].nodeType.TERMINAL? {
        errors := errors + [TerminateToNonTerminal(t.transitionKey)];
      }
    }
  }

  method ValidateTerminateRules(g: WorkflowGraph, nodesById: map<Uuid, NodeDefinition>, errors0: seq<GraphError>)
    returns (errors: seq<GraphError>)
    requires nodesById == NodesById(g.nodes)
    ensures forall e :: e in errors <==> e in errors0 || SomeTerminateFinding(g, e)
  {
    hide TerminateFinding, NodesById;
    errors := errors0;
    for i := 0 to |g.transitions|
      invariant forall e :: e in errors <==>
        e in errors0 || exists j :: 0 <= j < i && TerminateFinding(nodesById, g.transitions[j], e)
    {
      errors := ValidateTerminate(g.transitions[i], nodesById, errors);
    }
  }

  method ValidateTerminalOutgoing(g: WorkflowGraph, errors0: seq<GraphError>) returns (errors: seq<GraphError>)
    ensures forall e :: e in errors <==>
              e in errors0 || SomeOutgoingFinding(g, e)
  {
    errors := errors0;
    for i := 0 to |g.nodes|
      invariant forall e :: e in errors <==>
        e in errors0 || exists j :: 0 <= j < i && OutgoingFinding(g.transitions, g.nodes[j], e)
    {
      if g.nodes[i].nodeType.TERMINAL? {
        var keys := OutgoingKeys(g.transitions, g.nodes[i].nodeId);
        if keys != [] {
          errors := errors + [TerminalHasOutgoing(g.nodes[i].nodeKey, keys)];
        }
      }
    }
  }

  // ----- All rules -----

  /**
   The errors are exactly the findings, except that a cycle is named once, from the node at which
   the detection happened to enter it. The graph is valid exactly when there is no finding.
   */
  method ValidateGraph(g: WorkflowGraph)
    returns (valid: bool, errors: seq<GraphError>, ghost cycles: seq<seq<Uuid>>)
    requires ValidationHalts(g)
    ensures valid <==> Accepts(g)
    ensures valid <==> errors == []
    ensures forall e :: e in errors <==> AcyclicFinding(g, e) || e in CycleErrors(NodesById(g.nodes), cycles)
    ensures ListsEveryCycleOnce(PrimaryMapOf(g), cycles)
  {
    var nodesById := NodesById(g.nodes);
    var transitionsById := TransitionsById(g.transitions);
    var draftNodes: seq<NodeDefinition>;
    draftNodes, errors := ValidateNodeRules(g, []);
    errors := ValidateAssigneeRules(g, errors);
    errors := ValidateTransitionReferences(g, nodesById, errors);
    errors, cycles := ValidatePrimaryTrunk(g, nodesById, transitionsById, draftNodes, errors);
    errors := ValidateDirectedReachability(g, draftNodes, errors);
    errors := ValidateReturnRules(g, nodesById, errors);
    errors := ValidateTerminateRules(g, nodesById, errors);
    errors := ValidateTerminalOutgoing(g, errors);
    valid := errors == [];
    NoErrorsIffNoFinding(g, errors, cycles);
  }

  lemma NoCycleErrorIffNoCycle(nodesById: map<Uuid, NodeDefinition>, f: PrimaryMap, cycles: seq<seq<Uuid>>)
    requires ListsEveryCycleOnce(f, cycles)
    ensures cycles == [] <==> forall e :: !CycleFinding(nodesById, f, e)
  {
    if cycles != [] {
      assert IsCycle(f, cycles[0]);
      assert CycleFinding(nodesById, f, PrimaryCycle(KeysOf(nodesById, cycles[0])));
    }
  }

  lemma NoErrorsIffNoFinding(g: WorkflowGraph, errors: seq<GraphError>, cycles: seq<seq<Uuid>>)
    requires ListsEveryCycleOnce(PrimaryMapOf(g), cycles)
    requires forall e :: e in errors <==> AcyclicFinding(g, e) || e in CycleErrors(NodesById(g.nodes), cycles)
    ensures errors == [] <==> !HasFinding(g)
  {
    var named := CycleErrors(NodesById(g.nodes), cycles);
    NoCycleErrorIffNoCycle(NodesById(g.nodes), PrimaryMapOf(g), cycles);
    assert named != [] ==> named[0] in errors;
    if errors != [] {
      var e := errors[0];
      assert e in errors;
      if e in named {
        var found :| CycleFinding(NodesById(g.nodes), PrimaryMapOf(g), found);
        assert Finding(g, found);
      } else {
        assert Finding(g, e);
      }
    } else {
      assert named == [];
      forall e
        ensures !Finding(g, e)
      {
        assert e !in errors;
      }
    }
  }
}
