/** What a graph replacement stores, column by column, and which commands can be built. */
module DraftRows {
  import opened Prelude
  import opened DefinitionModel
  import opened GraphErrors
  import opened DraftGraph

  // ----- Which rows are legal -----

  /** A known type; no assignee for a terminal node, and for any other one a known type that says whether it is fixed. */
  predicate IsLegalNode(raw: RawNode) {
    && raw.nodeType.Some?
    && if raw.nodeType.value.TERMINAL? then raw.assigneeRefType.None? && raw.fixedPrincipalId.None?
       else
         && raw.assigneeRefType.Some? && raw.assigneeRefType.value.Some?
         && (raw.assigneeRefType.value.value.FIXED_PRINCIPAL? <==> raw.fixedPrincipalId.Some?)
  }

  predicate HasNodeKey(rawNodes: seq<RawNode>, key: string) {
    exists raw :: raw in rawNodes && raw.nodeKey == key
  }

  /** A known effect between keys of the command. */
  predicate IsLegalTransition(raw: RawTransition, rawNodes: seq<RawNode>) {
    raw.transitionEffect.Some? && HasNodeKey(rawNodes, raw.sourceNodeKey) && HasNodeKey(rawNodes, raw.targetNodeKey)
  }

  predicate AllRowsLegal(rawNodes: seq<RawNode>, rawTransitions: seq<RawTransition>) {
    && (forall raw :: raw in rawNodes ==> IsLegalNode(raw))
    && (forall raw :: raw in rawTransitions ==> IsLegalTransition(raw, rawNodes))
  }

  // ----- Where keys lead -----

  /** The last node row of the key: a later row replaces an earlier one in the key map. */
  predicate IsLastNode(rawNodes: seq<RawNode>, key: string, i: int) {
    && 0 <= i < |rawNodes| && rawNodes[i].nodeKey == key
    && forall j :: i < j < |rawNodes| ==> rawNodes[j].nodeKey != key
  }

  predicate IsLastTransition(rawTransitions: seq<RawTransition>, key: string, i: int) {
    && 0 <= i < |rawTransitions| && rawTransitions[i].transitionKey == key
    && forall j :: i < j < |rawTransitions| ==> rawTransitions[j].transitionKey != key
  }

  /** The first node row of the key: the one whose primary key counts. */
  predicate IsFirstNode(rawNodes: seq<RawNode>, key: string, i: int) {
    && 0 <= i < |rawNodes| && rawNodes[i].nodeKey == key
    && forall j :: 0 <= j < i ==> rawNodes[j].nodeKey != key
  }

  // ----- What is stored -----

  /** The assignee that a row describes. */
  function AssigneeOfRow(raw: RawNode): Option<AssigneeRef> {
    if raw.assigneeRefType.Some? && raw.assigneeRefType.value.Some?
    then Some(AssigneeRef(raw.assigneeRefType.value.value, raw.fixedPrincipalId)) else None
  }

  /** The primary of a node is the transition that its key's first row names, or none if there is no such transition. */
  ghost predicate IsPrimaryOfRow(primary: Option<Uuid>, raw: RawNode, rawNodes: seq<RawNode>, rawTransitions: seq<RawTransition>,
                                 transitionIds: seq<Uuid>)
    requires |transitionIds| == |rawTransitions|
  {
    exists f: int :: IsFirstNode(rawNodes, raw.nodeKey, f)
      && var key := rawNodes[f].primaryAdvanceTransitionKey;
         if key.Some? && HasKey(rawTransitions, key.value)
         then exists j: int :: IsLastTransition(rawTransitions, key.value, j) && primary == Some(transitionIds[j])
         else primary.None?
  }

  ghost predicate IsNodeOfRow(n: NodeDefinition, raw: RawNode, id: Uuid, rawNodes: seq<RawNode>, rawTransitions: seq<RawTransition>,
                              transitionIds: seq<Uuid>)
    requires |transitionIds| == |rawTransitions|
  {
    && n.nodeId == id && n.nodeKey == raw.nodeKey && n.displayName == raw.displayName && n.orderIndex == raw.orderIndex
    && Some(n.nodeType) == raw.nodeType && n.assigneeRef == AssigneeOfRow(raw)
    && n.instructions == raw.instructions && n.metadata == raw.metadata
    && IsPrimaryOfRow(n.primaryAdvanceTransitionId, raw, rawNodes, rawTransitions, transitionIds)
  }

  ghost predicate IsTransitionOfRow(t: TransitionDefinition, raw: RawTransition, id: Uuid, rawNodes: seq<RawNode>,
                                    nodeIds: seq<Uuid>)
    requires |nodeIds| == |rawNodes|
  {
    && t.transitionId == id && t.transitionKey == raw.transitionKey && t.displayName == raw.displayName
    && Some(t.transitionEffect) == raw.transitionEffect
    && t.submissionSchema == raw.submissionSchema && t.metadata == raw.metadata
    && (exists i: int :: IsLastNode(rawNodes, raw.sourceNodeKey, i) && t.sourceNodeId == nodeIds[i])
    && (exists i: int :: IsLastNode(rawNodes, raw.targetNodeKey, i) && t.targetNodeId == nodeIds[i])
  }

  /** The graph is the command, row by row and column by column. */
  ghost predicate IsGraphOf(g: WorkflowGraph, rawNodes: seq<RawNode>, rawTransitions: seq<RawTransition>, nodeIds: seq<Uuid>,
                            transitionIds: seq<Uuid>, contextSchema: Option<Json>)
    requires |nodeIds| == |rawNodes| && |transitionIds| == |rawTransitions|
  {
    && g.contextSchema == contextSchema && |g.nodes| == |rawNodes| && |g.transitions| == |rawTransitions|
    && (forall i :: 0 <= i < |rawNodes| ==>
          IsNodeOfRow(g.nodes[i], rawNodes[i], nodeIds[i], rawNodes, rawTransitions, transitionIds))
    && (forall i :: 0 <= i < |rawTransitions| ==>
          IsTransitionOfRow(g.transitions[i], rawTransitions[i], transitionIds[i], rawNodes, nodeIds))
  }

  // ----- The key maps -----

  lemma {:induction false} NodeKeysAreLast(rawNodes: seq<RawNode>, ids: seq<Uuid>, key: string)
    requires |ids| == |rawNodes|
    ensures key in NodeIdByKey(rawNodes, ids) <==> HasNodeKey(rawNodes, key)
    ensures HasNodeKey(rawNodes, key) ==>
              exists i: int :: IsLastNode(rawNodes, key, i) && NodeIdByKey(rawNodes, ids)[key] == ids[i]
  {
    if rawNodes != [] {
      var k := |rawNodes| - 1;
      NodeKeysAreLast(rawNodes[..k], ids[..k], key);
      assert rawNodes == rawNodes[..k] + [rawNodes[k]];
      if rawNodes[k].nodeKey == key {
        assert IsLastNode(rawNodes, key, k);
      } else if HasNodeKey(rawNodes, key) {
        var i: int :| IsLastNode(rawNodes[..k], key, i) && NodeIdByKey(rawNodes[..k], ids[..k])[key] == ids[..k][i];
        assert IsLastNode(rawNodes, key, i);
      }
    }
  }

  /** The key leads to the last row that has it, or nowhere if no row has it. */
  ghost predicate LeadsToLast(m: map<string, Uuid>, rawTransitions: seq<RawTransition>, ids: seq<Uuid>, key: string)
    requires |ids| == |rawTransitions|
  {
    && (key in m <==> HasKey(rawTransitions, key))
    && (key in m ==> exists i: int :: IsLastTransition(rawTransitions, key, i) && m[key] == ids[i])
  }

  lemma LastAfterAppend(m: map<string, Uuid>, rawTransitions: seq<RawTransition>, ids: seq<Uuid>, key: string)
    requires |ids| == |rawTransitions| > 0
    requires LeadsToLast(m, rawTransitions[..|ids| - 1], ids[..|ids| - 1], key)
    ensures LeadsToLast(m[rawTransitions[|ids| - 1].transitionKey := ids[|ids| - 1]], rawTransitions, ids, key)
  {
    var k := |ids| - 1;
    assert rawTransitions == rawTransitions[..k] + [rawTransitions[k]];
    if rawTransitions[k].transitionKey == key {
      assert IsLastTransition(rawTransitions, key, k);
    } else if key in m {
      var i: int :| IsLastTransition(rawTransitions[..k], key, i) && m[key] == ids[..k][i];
      assert IsLastTransition(rawTransitions, key, i);
    }
  }

  lemma {:induction false} TransitionKeysAreLast(rawTransitions: seq<RawTransition>, ids: seq<Uuid>, key: string)
    requires |ids| == |rawTransitions|
    ensures LeadsToLast(TransitionIdByKey(rawTransitions, ids), rawTransitions, ids, key)
  {
    if rawTransitions != [] {
      hide LeadsToLast;
      var k := |rawTransitions| - 1;
      TransitionKeysAreLast(rawTransitions[..k], ids[..k], key);
      LastAfterAppend(TransitionIdByKey(rawTransitions[..k], ids[..k]), rawTransitions, ids, key);
    }
  }

  lemma {:induction false} FoundNodeIsFirst(rawNodes: seq<RawNode>, key: string)
    ensures FindNode(rawNodes, key).Some? ==>
              exists i: int :: IsFirstNode(rawNodes, key, i) && FindNode(rawNodes, key) == Some(rawNodes[i])
  {
    if rawNodes != [] && FindNode(rawNodes, key).Some? {
      if rawNodes[0].nodeKey == key {
        assert IsFirstNode(rawNodes, key, 0);
      } else {
        FoundNodeIsFirst(rawNodes[1..], key);
        var i: int :| IsFirstNode(rawNodes[1..], key, i) && FindNode(rawNodes[1..], key) == Some(rawNodes[1..][i]);
        forall j | 0 <= j < i + 1
          ensures rawNodes[j].nodeKey != key
        {
          assert j > 0 ==> rawNodes[j] == rawNodes[1..][j - 1];
        }
        assert IsFirstNode(rawNodes, key, i + 1);
      }
    }
  }

  // ----- Row by row -----

  lemma ParsedNodeIs(raw: RawNode, id: Uuid)
    ensures ParseNode(raw, id).Ok? <==> IsLegalNode(raw)
    ensures IsLegalNode(raw) ==>
              ParseNode(raw, id) == Ok(NodeDefinition(id, raw.nodeKey, raw.displayName, raw.orderIndex, raw.nodeType.value,
                                                      AssigneeOfRow(raw), raw.instructions, None, raw.metadata))
  {
  }

  lemma PatchedPrimaryIs(n: NodeDefinition, raw: RawNode, rawNodes: seq<RawNode>, rawTransitions: seq<RawTransition>,
                         transitionIds: seq<Uuid>)
    requires |transitionIds| == |rawTransitions| && raw in rawNodes
    requires n.nodeKey == raw.nodeKey && n.primaryAdvanceTransitionId.None?
    ensures var patched := PatchPrimary(n, rawNodes, TransitionIdByKey(rawTransitions, transitionIds));
      && patched == n.(primaryAdvanceTransitionId := patched.primaryAdvanceTransitionId)
      && IsPrimaryOfRow(patched.primaryAdvanceTransitionId, raw, rawNodes, rawTransitions, transitionIds)
  {
    hide FindNode, TransitionIdByKey, HasKey;
    FoundNodeIsFirst(rawNodes, raw.nodeKey);
    var first := FindNode(rawNodes, raw.nodeKey);
    var f: int :| IsFirstNode(rawNodes, raw.nodeKey, f) && first == Some(rawNodes[f]);
    if first.value.primaryAdvanceTransitionKey.Some? {
      TransitionKeysAreLast(rawTransitions, transitionIds, first.value.primaryAdvanceTransitionKey.value);
    }
  }

  lemma ResolvedTransitionIs(raw: RawTransition, id: Uuid, rawNodes: seq<RawNode>, nodeIds: seq<Uuid>)
    requires |nodeIds| == |rawNodes|
    ensures var resolved := ResolveTransition(raw, id, NodeIdByKey(rawNodes, nodeIds));
      && (resolved.Ok? <==> IsLegalTransition(raw, rawNodes))
      && (resolved.Ok? ==> IsTransitionOfRow(resolved.value, raw, id, rawNodes, nodeIds))
  {
    hide NodeIdByKey, HasNodeKey, IsLastNode;
    NodeKeysAreLast(rawNodes, nodeIds, raw.sourceNodeKey);
    NodeKeysAreLast(rawNodes, nodeIds, raw.targetNodeKey);
  }

  lemma {:induction false} NodesParseIff(rawNodes: seq<RawNode>, ids: seq<Uuid>)
    requires |ids| == |rawNodes|
    ensures ParseNodes(rawNodes, ids).Ok? <==> forall raw :: raw in rawNodes ==> IsLegalNode(raw)
  {
    if rawNodes != [] {
      hide ParseNode, IsLegalNode;
      var k := |rawNodes| - 1;
      NodesParseIff(rawNodes[..k], ids[..k]);
      ParsedNodeIs(rawNodes[k], ids[k]);
      assert rawNodes == rawNodes[..k] + [rawNodes[k]];
    }
  }

  lemma {:induction false} TransitionsResolveIff(rawTransitions: seq<RawTransition>, ids: seq<Uuid>, rawNodes: seq<RawNode>,
                                                 nodeIds: seq<Uuid>)
    requires |ids| == |rawTransitions| && |nodeIds| == |rawNodes|
    ensures ResolveTransitions(rawTransitions, ids, NodeIdByKey(rawNodes, nodeIds)).Ok?
       <==> forall raw :: raw in rawTransitions ==> IsLegalTransition(raw, rawNodes)
  {
    if rawTransitions != [] {
      hide ResolveTransition, IsLegalTransition, NodeIdByKey, IsTransitionOfRow;
      var k := |rawTransitions| - 1;
      TransitionsResolveIff(rawTransitions[..k], ids[..k], rawNodes, nodeIds);
      ResolvedTransitionIs(rawTransitions[k], ids[k], rawNodes, nodeIds);
      assert rawTransitions == rawTransitions[..k] + [rawTransitions[k]];
    }
  }

  /** A replacement command can be built exactly when all its rows are legal. */
  lemma BuildsIffLegal(rawNodes: seq<RawNode>, rawTransitions: seq<RawTransition>, nodeIds: seq<Uuid>, transitionIds: seq<Uuid>,
                       contextSchema: Option<Json>)
    requires |nodeIds| == |rawNodes| && |transitionIds| == |rawTransitions|
    ensures DraftGraphOf(rawNodes, rawTransitions, nodeIds, transitionIds, contextSchema).Ok?
       <==> AllRowsLegal(rawNodes, rawTransitions)
  {
    hide ParseNodes, ResolveTransitions, IsLegalNode, IsLegalTransition, NodeIdByKey, TransitionIdByKey, PatchPrimaries;
    NodesParseIff(rawNodes, nodeIds);
    TransitionsResolveIff(rawTransitions, transitionIds, rawNodes, nodeIds);
  }

  /** What is built is the command, column by column, with keys replaced by the ids of the rows that they name. */
  lemma BuiltRowsAreCommandRows(rawNodes: seq<RawNode>, rawTransitions: seq<RawTransition>, nodeIds: seq<Uuid>,
                                transitionIds: seq<Uuid>, contextSchema: Option<Json>)
    requires |nodeIds| == |rawNodes| && |transitionIds| == |rawTransitions|
    ensures var built := DraftGraphOf(rawNodes, rawTransitions, nodeIds, transitionIds, contextSchema);
      built.Ok? ==> IsGraphOf(built.value, rawNodes, rawTransitions, nodeIds, transitionIds, contextSchema)
  {
    var built := DraftGraphOf(rawNodes, rawTransitions, nodeIds, transitionIds, contextSchema);
    if built.Err? {
      return;
    }
    var nodeMap, transitionMap := NodeIdByKey(rawNodes, nodeIds), TransitionIdByKey(rawTransitions, transitionIds);
    var parsed := ParseNodes(rawNodes, nodeIds).value;
    hide DraftGraphOf, ParseNodes, ParseNode, PatchPrimary, IsPrimaryOfRow, ResolveTransition, ResolveTransitions, NodeIdByKey,
         TransitionIdByKey, PatchPrimaries, IsLegalNode, AssigneeOfRow, IsTransitionOfRow;
    assert built.value == WorkflowGraph(PatchPrimaries(parsed, rawNodes, transitionMap),
                                        ResolveTransitions(rawTransitions, transitionIds, nodeMap).value, contextSchema);
    forall i | 0 <= i < |rawNodes|
      ensures IsNodeOfRow(built.value.nodes[i], rawNodes[i], nodeIds[i], rawNodes, rawTransitions, transitionIds)
    {
      assert ParseNode(rawNodes[i], nodeIds[i]) == Ok(parsed[i]);
      ParsedNodeIs(rawNodes[i], nodeIds[i]);
      PatchedPrimaryIs(parsed[i], rawNodes[i], rawNodes, rawTransitions, transitionIds);
    }
    forall i | 0 <= i < |rawTransitions|
      ensures IsTransitionOfRow(built.value.transitions[i], rawTransitions[i], transitionIds[i], rawNodes, nodeIds)
    {
      ResolvedTransitionIs(rawTransitions[i], transitionIds[i], rawNodes, nodeIds);
    }
  }

  // ----- Errors -----

  /** The error names what is wrong with some row of the command. */
  predicate NamesFault(rawNodes: seq<RawNode>, rawTransitions: seq<RawTransition>, e: DefinitionError) {
    match e
    case StorageError =>
      || (exists raw :: raw in rawNodes && (raw.nodeType.None? || raw.assigneeRefType == Some(None)))
      || (exists raw :: raw in rawTransitions && raw.transitionEffect.None?)
    case FixedPrincipalInvalid =>
      exists raw :: raw in rawNodes && raw.assigneeRefType.Some? && raw.assigneeRefType.value.Some?
                    && raw.assigneeRefType.value.value.FIXED_PRINCIPAL? != raw.fixedPrincipalId.Some?
    case GraphValidationFailed(errors) =>
      && |errors| == 1
      && (match errors[0]
          case TerminalHasAssignee(key) =>
            exists raw :: raw in rawNodes && raw.nodeKey == key && raw.nodeType == Some(TERMINAL)
                          && (raw.assigneeRefType.Some? || raw.fixedPrincipalId.Some?)
          case AssigneeRequired(key) =>
            exists raw :: raw in rawNodes && raw.nodeKey == key && raw.nodeType != Some(TERMINAL) && raw.assigneeRefType.None?
          case TransitionSourceMissing(key) =>
            exists raw :: raw in rawTransitions && raw.transitionKey == key && !HasNodeKey(rawNodes, raw.sourceNodeKey)
          case TransitionTargetMissing(key) =>
            exists raw :: raw in rawTransitions && raw.transitionKey == key && !HasNodeKey(rawNodes, raw.targetNodeKey)
          case _ => false)
    case _ => false
  }

  lemma {:induction false} NodeErrorNames(rawNodes: seq<RawNode>, ids: seq<Uuid>)
    requires |ids| == |rawNodes| && ParseNodes(rawNodes, ids).Err?
    ensures exists i :: 0 <= i < |rawNodes| && ParseNode(rawNodes[i], ids[i]) == Err(ParseNodes(rawNodes, ids).error)
  {
    hide ParseNode;
    var k := |rawNodes| - 1;
    if ParseNodes(rawNodes[..k], ids[..k]).Err? {
      NodeErrorNames(rawNodes[..k], ids[..k]);
    } else {
      assert ParseNode(rawNodes[k], ids[k]) == Err(ParseNodes(rawNodes, ids).error);
    }
  }

  lemma {:induction false} TransitionErrorNames(rawTransitions: seq<RawTransition>, ids: seq<Uuid>, nodeMap: map<string, Uuid>)
    requires |ids| == |rawTransitions| && ResolveTransitions(rawTransitions, ids, nodeMap).Err?
    ensures exists i :: 0 <= i < |rawTransitions|
                        && ResolveTransition(rawTransitions[i], ids[i], nodeMap)
                           == Err(ResolveTransitions(rawTransitions, ids, nodeMap).error)
  {
    hide ResolveTransition;
    var k := |rawTransitions| - 1;
    if ResolveTransitions(rawTransitions[..k], ids[..k], nodeMap).Err? {
      TransitionErrorNames(rawTransitions[..k], ids[..k], nodeMap);
    } else {
      assert ResolveTransition(rawTransitions[k], ids[k], nodeMap) == Err(ResolveTransitions(rawTransitions, ids, nodeMap).error);
    }
  }

  lemma ParseErrorNamesFault(rawNodes: seq<RawNode>, rawTransitions: seq<RawTransition>, raw: RawNode, id: Uuid)
    requires raw in rawNodes && ParseNode(raw, id).Err?
    ensures NamesFault(rawNodes, rawTransitions, ParseNode(raw, id).error)
  {
    hide HasNodeKey;
  }

  lemma ResolveErrorNamesFault(rawNodes: seq<RawNode>, rawTransitions: seq<RawTransition>, raw: RawTransition, id: Uuid,
                               nodeMap: map<string, Uuid>)
    requires raw in rawTransitions && ResolveTransition(raw, id, nodeMap).Err?
    requires forall key :: key in nodeMap <==> HasNodeKey(rawNodes, key)
    ensures NamesFault(rawNodes, rawTransitions, ResolveTransition(raw, id, nodeMap).error)
  {
    hide HasNodeKey;
  }

  /** The error of a command that cannot be built names a row and what is wrong with it. */
  lemma BuildErrorsNameFaults(rawNodes: seq<RawNode>, rawTransitions: seq<RawTransition>, nodeIds: seq<Uuid>,
                              transitionIds: seq<Uuid>, contextSchema: Option<Json>)
    requires |nodeIds| == |rawNodes| && |transitionIds| == |rawTransitions|
    ensures var built := DraftGraphOf(rawNodes, rawTransitions, nodeIds, transitionIds, contextSchema);
      built.Err? ==> NamesFault(rawNodes, rawTransitions, built.error)
  {
    hide ParseNodes, ParseNode, ResolveTransitions, ResolveTransition, NodeIdByKey, TransitionIdByKey, PatchPrimaries, HasNodeKey,
         NamesFault;
    var nodeMap := NodeIdByKey(rawNodes, nodeIds);
    if ParseNodes(rawNodes, nodeIds).Err? {
      NodeErrorNames(rawNodes, nodeIds);
      var i :| 0 <= i < |rawNodes| && ParseNode(rawNodes[i], nodeIds[i]) == Err(ParseNodes(rawNodes, nodeIds).error);
      ParseErrorNamesFault(rawNodes, rawTransitions, rawNodes[i], nodeIds[i]);
    } else if ResolveTransitions(rawTransitions, transitionIds, nodeMap).Err? {
      TransitionErrorNames(rawTransitions, transitionIds, nodeMap);
      var i :| 0 <= i < |rawTransitions|
               && ResolveTransition(rawTransitions[i], transitionIds[i], nodeMap)
                  == Err(ResolveTransitions(rawTransitions, transitionIds, nodeMap).error);
      forall key
        ensures key in nodeMap <==> HasNodeKey(rawNodes, key)
      {
        NodeKeysAreLast(rawNodes, nodeIds, key);
      }
      ResolveErrorNamesFault(rawNodes, rawTransitions, rawTransitions[i], transitionIds[i], nodeMap);
    }
  }
}
