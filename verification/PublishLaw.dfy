/** When the definition transactions commit and what they store: replacement, publication and the later statuses. */
module PublishLaw {
  import opened Prelude
  import opened DefinitionModel
  import opened GraphRules
  import opened GraphProgress
  import opened CanonicalDigest
  import opened DraftGraph
  import opened DraftRows
  import opened Publish

  predicate IsDraftVersion(versions: Versions, versionId: Uuid) {
    versionId in versions && versions[versionId].status.Draft?
  }

  // ----- Graph replacement -----

  predicate Distinct<T(==)>(values: seq<T>) {
    forall i, j :: 0 <= i < j < |values| ==> values[i] != values[j]
  }

  /** No two rows of the command share a key or, for nodes, a position. */
  predicate RowsDiffer(rawNodes: seq<RawNode>, rawTransitions: seq<RawTransition>) {
    && (forall i, j :: 0 <= i < j < |rawNodes| ==>
          rawNodes[i].nodeKey != rawNodes[j].nodeKey && rawNodes[i].orderIndex != rawNodes[j].orderIndex)
    && (forall i, j :: 0 <= i < j < |rawTransitions| ==> rawTransitions[i].transitionKey != rawTransitions[j].transitionKey)
  }

  /** The generated ids differ from each other and from those of all other versions. */
  predicate IdsAreNew(versions: Versions, versionId: Uuid, nodeIds: seq<Uuid>, transitionIds: seq<Uuid>) {
    && Distinct(nodeIds) && Distinct(transitionIds)
    && forall v :: v in versions && v != versionId ==>
         && (forall n :: n in versions[v].graph.nodes ==> n.nodeId !in nodeIds)
         && (forall t :: t in versions[v].graph.transitions ==> t.transitionId !in transitionIds)
  }

  lemma NodesFitIff(others: set<Uuid>, nodes: seq<NodeDefinition>)
    ensures NodesInsertable(others, nodes)
       <==> && (forall i :: 0 <= i < |nodes| ==> nodes[i].nodeId !in others)
            && (forall i, j :: 0 <= i < j < |nodes| ==>
                  && nodes[i].nodeId != nodes[j].nodeId && nodes[i].nodeKey != nodes[j].nodeKey
                  && nodes[i].orderIndex != nodes[j].orderIndex)
  {
    if NodesInsertable(others, nodes) {
      forall i, j | 0 <= i < j < |nodes|
        ensures nodes[i].nodeId != nodes[j].nodeId && nodes[i].nodeKey != nodes[j].nodeKey
        ensures nodes[i].orderIndex != nodes[j].orderIndex
      {
        assert !NodeConflicts(others, nodes[..j], nodes[j]);
        assert nodes[..j][i] == nodes[i];
        assert nodes[i] in nodes[..j];
      }
      forall i | 0 <= i < |nodes|
        ensures nodes[i].nodeId !in others
      {
        assert !NodeConflicts(others, nodes[..i], nodes[i]);
      }
    }
  }

  lemma TransitionsFitIff(others: set<Uuid>, nodeIds: set<Uuid>, transitions: seq<TransitionDefinition>)
    requires forall i :: 0 <= i < |transitions| ==> transitions[i].sourceNodeId in nodeIds && transitions[i].targetNodeId in nodeIds
    ensures TransitionsInsertable(others, nodeIds, transitions)
       <==> && (forall i :: 0 <= i < |transitions| ==> transitions[i].transitionId !in others)
            && (forall i, j :: 0 <= i < j < |transitions| ==>
                  && transitions[i].transitionId != transitions[j].transitionId
                  && transitions[i].transitionKey != transitions[j].transitionKey)
  {
    if TransitionsInsertable(others, nodeIds, transitions) {
      forall i, j | 0 <= i < j < |transitions|
        ensures transitions[i].transitionId != transitions[j].transitionId
        ensures transitions[i].transitionKey != transitions[j].transitionKey
      {
        assert !TransitionConflicts(others, nodeIds, transitions[..j], transitions[j]);
        assert transitions[..j][i] == transitions[i];
        assert transitions[i] in transitions[..j];
      }
      forall i | 0 <= i < |transitions|
        ensures transitions[i].transitionId !in others
      {
        assert !TransitionConflicts(others, nodeIds, transitions[..i], transitions[i]);
      }
    }
  }

  /** The tables take a graph whose references resolve inside it exactly if its keys, positions and ids are unique. */
  lemma InsertableIff(versions: Versions, versionId: Uuid, g: WorkflowGraph)
    requires ResolvingReferences(g)
    ensures var others, otherTransitions := OtherNodeIds(versions, versionId), OtherTransitionIds(versions, versionId);
      Insertable(versions, versionId, g.nodes, g.transitions)
      <==> && (forall i :: 0 <= i < |g.nodes| ==> g.nodes[i].nodeId !in others)
           && (forall i :: 0 <= i < |g.transitions| ==> g.transitions[i].transitionId !in otherTransitions)
           && UniqueRows(g)
           && (forall i, j :: 0 <= i < j < |g.nodes| ==> g.nodes[i].orderIndex != g.nodes[j].orderIndex)
  {
    hide NodesInsertable, TransitionsInsertable;
    var others := OtherNodeIds(versions, versionId);
    forall i | 0 <= i < |g.transitions|
      ensures g.transitions[i].sourceNodeId in NodeIds(g.nodes) && g.transitions[i].targetNodeId in NodeIds(g.nodes)
    {
      assert g.transitions[i] in g.transitions;
    }
    NodesFitIff(others, g.nodes);
    TransitionsFitIff(OtherTransitionIds(versions, versionId), others + NodeIds(g.nodes), g.transitions);
  }

  lemma BuiltFitsIff(versions: Versions, versionId: Uuid, rawNodes: seq<RawNode>, rawTransitions: seq<RawTransition>,
                     nodeIds: seq<Uuid>, transitionIds: seq<Uuid>, contextSchema: Option<Json>, g: WorkflowGraph)
    requires |nodeIds| == |rawNodes| && |transitionIds| == |rawTransitions|
    requires IsGraphOf(g, rawNodes, rawTransitions, nodeIds, transitionIds, contextSchema) && ResolvingReferences(g)
    ensures Insertable(versions, versionId, g.nodes, g.transitions)
       <==> RowsDiffer(rawNodes, rawTransitions) && IdsAreNew(versions, versionId, nodeIds, transitionIds)
  {
    hide Insertable, ResolvingReferences, IsPrimaryOfRow, IsLastNode, AssigneeOfRow;
    InsertableIff(versions, versionId, g);
    forall i | 0 <= i < |rawNodes|
      ensures g.nodes[i].nodeId == nodeIds[i] && g.nodes[i].nodeKey == rawNodes[i].nodeKey
      ensures g.nodes[i].orderIndex == rawNodes[i].orderIndex
    {
      assert IsNodeOfRow(g.nodes[i], rawNodes[i], nodeIds[i], rawNodes, rawTransitions, transitionIds);
    }
    forall i | 0 <= i < |rawTransitions|
      ensures g.transitions[i].transitionId == transitionIds[i]
      ensures g.transitions[i].transitionKey == rawTransitions[i].transitionKey
    {
      assert IsTransitionOfRow(g.transitions[i], rawTransitions[i], transitionIds[i], rawNodes, nodeIds);
    }
    OthersIff(versions, versionId, nodeIds, transitionIds);
  }

  lemma OthersIff(versions: Versions, versionId: Uuid, nodeIds: seq<Uuid>, transitionIds: seq<Uuid>)
    ensures (forall i :: 0 <= i < |nodeIds| ==> nodeIds[i] !in OtherNodeIds(versions, versionId))
         && (forall i :: 0 <= i < |transitionIds| ==> transitionIds[i] !in OtherTransitionIds(versions, versionId))
       <==> forall v :: v in versions && v != versionId ==>
              && (forall n :: n in versions[v].graph.nodes ==> n.nodeId !in nodeIds)
              && (forall t :: t in versions[v].graph.transitions ==> t.transitionId !in transitionIds)
  {
  }

  /** What the version's row becomes: the command's rows, and the stored schema unless the patch clears or replaces it. */
  ghost predicate HoldsReplacement(before: VersionRow, after: VersionRow, rawNodes: seq<RawNode>,
                                   rawTransitions: seq<RawTransition>, nodeIds: seq<Uuid>, transitionIds: seq<Uuid>, patch: Option<Json>)
    requires |nodeIds| == |rawNodes| && |transitionIds| == |rawTransitions|
  {
    && after == before.(graph := after.graph)
    && var schema := match patch
                     case None => before.graph.contextSchema
                     case Some(Null) => None
                     case Some(json) => Some(json);
    IsGraphOf(after.graph, rawNodes, rawTransitions, nodeIds, transitionIds, schema)
  }

  /**
   A command that was built is committed exactly for a DRAFT version whose rows it leaves without a clash, and
   then the version holds the command, column by column, and no other version changes. Otherwise the error says why.
   */
  lemma ReplacementCommitsIff(versions: Versions, versionId: Uuid, patch: Option<Json>, rawNodes: seq<RawNode>,
                              rawTransitions: seq<RawTransition>, nodeIds: seq<Uuid>, transitionIds: seq<Uuid>,
                              knownSchema: Option<Json>, g: WorkflowGraph)
    requires |nodeIds| == |rawNodes| && |transitionIds| == |rawTransitions|
    requires DraftGraphOf(rawNodes, rawTransitions, nodeIds, transitionIds, knownSchema) == Ok(g)
    ensures var tx := ReplaceDraftGraphTx(versions, versionId, patch, g.nodes, g.transitions);
      && (tx.Ok? <==> IsDraftVersion(versions, versionId) && RowsDiffer(rawNodes, rawTransitions)
                      && IdsAreNew(versions, versionId, nodeIds, transitionIds))
      && (tx.Ok? ==>
            && versionId in tx.value && tx.value == versions[versionId := tx.value[versionId]]
            && HoldsReplacement(versions[versionId], tx.value[versionId], rawNodes, rawTransitions, nodeIds, transitionIds, patch))
      && (tx.Err? ==>
            tx.error == if versionId !in versions then DefinitionVersionNotFound
                        else if !IsDraftVersion(versions, versionId) then VersionNotDraft else StorageError)
  {
    hide DraftGraphOf, ResolvingReferences, Insertable, RowsDiffer, IdsAreNew, IsNodeOfRow, IsTransitionOfRow;
    BuiltRowsAreCommandRows(rawNodes, rawTransitions, nodeIds, transitionIds, knownSchema);
    BuiltReferencesResolve(rawNodes, rawTransitions, nodeIds, transitionIds, knownSchema, g);
    BuiltFitsIff(versions, versionId, rawNodes, rawTransitions, nodeIds, transitionIds, knownSchema, g);
  }

  // ----- Publication -----

  /** The session's graph, read in pieces, is the stored one up to ids and row order. */
  ghost predicate VettedTheStored(isSchema: Json -> bool, row: VersionRow, digest: CanonicalDocument) {
    exists torn :: VettedBy(isSchema, row.header, digest, torn) && SameUpToRenaming(torn, row.graph)
  }

  lemma DigestsAgreeIff(isSchema: Json -> bool, row: VersionRow, digest: CanonicalDocument)
    requires StoredShape(row.graph) && IsVettedDigest(isSchema, row.header, digest)
    ensures ComputeDigest(row.header, row.graph) == digest <==> VettedTheStored(isSchema, row, digest)
  {
    hide StoredShape, Accepts, SchemasPass, ComputeDigest, SameUpToRenaming, UniqueRows;
    if ComputeDigest(row.header, row.graph) == digest {
      var torn :| VettedBy(isSchema, row.header, digest, torn);
      AcceptedReadIsStorable(torn);
      DigestIsFaithful(row.header, torn, row.graph);
    }
    if VettedTheStored(isSchema, row, digest) {
      var torn :| VettedBy(isSchema, row.header, digest, torn) && SameUpToRenaming(torn, row.graph);
      AcceptedReadIsStorable(torn);
      DigestIsFaithful(row.header, torn, row.graph);
    }
  }

  /**
   In every state of every run, the commit of a validated session publishes exactly if the version is still a
   DRAFT, the domain and its owner are enabled, and the graph now stored is the validated one up to ids and row
   order; then only the version's status and digest change. Otherwise the error says why.
   */
  lemma CommitPublishesIff(isSchema: Json -> bool, run: seq<Store>, steps: seq<Step>, i: nat, session: Uuid,
                           domainEnabled: Option<bool>, ownerEnabled: Option<bool>)
    requires IsRun(isSchema, run, steps) && i < |run|
    requires session in run[i].sessions && run[i].sessions[session].phase.Ready?
    ensures var versions, id, digest := run[i].versions, run[i].sessions[session].versionId, run[i].sessions[session].phase.digest;
      && id in versions
      && var tx, row := AtomicPublishTx(versions, id, domainEnabled, ownerEnabled, digest), versions[id];
      && (tx.Ok? <==> row.status.Draft? && domainEnabled == ownerEnabled == Some(true) && VettedTheStored(isSchema, row, digest))
      && (tx.Ok? ==> tx.value == versions[id := VersionRow(row.header, Published, Some(digest), row.graph)])
      && (tx.Err? ==> PublicationFails(isSchema, row, domainEnabled, ownerEnabled, digest, tx.error))
  {
    hide IsRun, StoredShape, Certified, ComputeDigest, IsVettedDigest, VettedTheStored;
    RunKeepsInv(isSchema, run, steps, i);
    var s := run[i].sessions[session];
    assert ValidSession(isSchema, run[i].versions, s) && ValidRow(isSchema, run[i].versions[s.versionId]);
    DigestsAgreeIff(isSchema, run[i].versions[s.versionId], s.phase.digest);
  }

  ghost predicate PublicationFails(isSchema: Json -> bool, row: VersionRow, domainEnabled: Option<bool>, ownerEnabled: Option<bool>,
                                   digest: CanonicalDocument, e: DefinitionError)
  {
    match e
    case VersionNotDraft => !row.status.Draft?
    case DomainNotFound => domainEnabled.None?
    case DomainDisabled => domainEnabled == Some(false)
    case PermissionDenied => ownerEnabled != Some(true)
    case ConcurrentModification => !VettedTheStored(isSchema, row, digest)
    case _ => false
  }

  /** The five steps of a publish call that nothing else comes between. */
  function PublishSteps(session: Uuid, versionId: Uuid, g: WorkflowGraph): seq<Step> {
    [StartPublish(session, versionId), ReadNodes(session, g.nodes), ReadTransitions(session, g.transitions), Validate(session),
     Commit(session, Some(true), Some(true))]
  }

  ghost predicate Leads(isSchema: Json -> bool, states: seq<Store>, steps: seq<Step>) {
    |states| == |steps| + 1 && forall i :: 0 <= i < |steps| ==> NextBy(isSchema, states[i], steps[i], states[i + 1])
  }

  /** The states of that call. */
  function PublishStates(s: Store, session: Uuid, versionId: Uuid): seq<Store>
    requires versionId in s.versions
  {
    var row := s.versions[versionId];
    var At := (phase: Phase) => s.(sessions := s.sessions[session := Session(versionId, row.header, phase)]);
    var digest := ComputeDigest(row.header, row.graph);
    [s, At(Locked(row.graph.contextSchema)), At(NodesRead(row.graph.contextSchema, row.graph.nodes)), At(GraphRead(row.graph)),
     At(Ready(digest)), s.(versions := s.versions[versionId := row.(status := Published, digest := Some(digest))])]
  }

  /**
   An acceptable draft can be published: from any state, undisturbed, in a domain that is enabled like its
   owner, the five steps lead to the state in which the version is published with its digest.
   */
  lemma AcceptableDraftIsPublished(isSchema: Json -> bool, s: Store, session: Uuid, versionId: Uuid)
    requires IsDraftVersion(s.versions, versionId) && session !in s.sessions
    requires Accepts(s.versions[versionId].graph) && SchemasPass(isSchema, s.versions[versionId].graph)
    ensures Leads(isSchema, PublishStates(s, session, versionId), PublishSteps(session, versionId, s.versions[versionId].graph))
  {
    hide Accepts, SchemasPass, ComputeDigest, ReplaceStep, LifecycleStep;
    var row := s.versions[versionId];
    var states, steps := PublishStates(s, session, versionId), PublishSteps(session, versionId, row.graph);
    var g := row.graph;
    assert WorkflowGraph(g.nodes, g.transitions, g.contextSchema) == g;
    assert SessionStep(isSchema, states[0], steps[0], states[1]);
    assert SessionStep(isSchema, states[1], steps[1], states[2]);
    assert SessionStep(isSchema, states[2], steps[2], states[3]);
    assert SessionStep(isSchema, states[3], steps[3], states[4]);
    assert s.sessions[session := states[4].sessions[session]] - {session} == s.sessions;
    assert SessionStep(isSchema, states[4], steps[4], states[5]);
  }

  // ----- Deprecation and revocation -----

  /** Who may move where: a published version to either later status, a deprecated one to the last. */
  predicate MayBecome(status: VersionStatus, later: VersionStatus) {
    || (status == Published && (later == Deprecated || later == Revoked))
    || (status == Deprecated && later == Revoked)
  }

  /** A later status is reached exactly from an earlier published one, by an enabled owner in an enabled domain. */
  lemma StatusChangesIff(isSchema: Json -> bool, s: Store, versionId: Uuid, domainEnabled: Option<bool>, ownerEnabled: Option<bool>,
                         later: VersionStatus, s': Store)
    requires later == Deprecated || later == Revoked
    ensures NextBy(isSchema, s, if later == Deprecated then Deprecate(versionId, domainEnabled, ownerEnabled)
                                else Revoke(versionId, domainEnabled, ownerEnabled), s')
       <==> && versionId in s.versions && MayBecome(s.versions[versionId].status, later)
            && domainEnabled == ownerEnabled == Some(true)
            && s' == s.(versions := s.versions[versionId := s.versions[versionId].(status := later)])
  {
    hide ReplaceStep;
  }
}
