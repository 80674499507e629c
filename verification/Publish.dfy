/**
 The definition tables and the publish protocol. Publishing validates a graph that it read without
 a lock, in separate statements, and compares only digests once it holds the version's row lock.
 */
module Publish {
  import opened Prelude
  import opened DefinitionModel
  import opened GraphRules
  import opened GraphProgress
  import opened KeySort
  import opened CanonicalDigest
  import opened DraftGraph

  datatype VersionRow = VersionRow(
    header: DocumentHeader,
    status: VersionStatus,
    digest: Option<CanonicalDocument>,
    graph: WorkflowGraph)

  type Versions = map<Uuid, VersionRow>

  // ----- Transactions, as functions on the tables -----

  function OtherNodeIds(versions: Versions, versionId: Uuid): set<Uuid> {
    set v, n | v in versions && v != versionId && n in versions[v].graph.nodes :: n.nodeId
  }

  function OtherTransitionIds(versions: Versions, versionId: Uuid): set<Uuid> {
    set v, t | v in versions && v != versionId && t in versions[v].graph.transitions :: t.transitionId
  }

  /** Inserting the node would break the primary key or a unique index. */
  predicate NodeConflicts(others: set<Uuid>, inserted: seq<NodeDefinition>, n: NodeDefinition) {
    || n.nodeId in others
    || exists m :: m in inserted && (m.nodeId == n.nodeId || m.nodeKey == n.nodeKey || m.orderIndex == n.orderIndex)
  }

  /** Inserting the transition would break a key, a unique index or an immediate foreign key. */
  predicate TransitionConflicts(others: set<Uuid>, nodeIds: set<Uuid>, inserted: seq<TransitionDefinition>,
                                t: TransitionDefinition)
  {
    || t.transitionId in others
    || t.sourceNodeId !in nodeIds
    || t.targetNodeId !in nodeIds
    || exists u :: u in inserted && (u.transitionId == t.transitionId || u.transitionKey == t.transitionKey)
  }

  function NodeIds(nodes: seq<NodeDefinition>): set<Uuid> {
    set n | n in nodes :: n.nodeId
  }

  function TransitionIds(transitions: seq<TransitionDefinition>): set<Uuid> {
    set t | t in transitions :: t.transitionId
  }

  /** The deferred foreign key of the primary references, checked at commit. */
  predicate PrimariesResolve(nodes: seq<NodeDefinition>, transitionIds: set<Uuid>) {
    forall n :: n in nodes && n.primaryAdvanceTransitionId.Some? ==> n.primaryAdvanceTransitionId.value in transitionIds
  }

  predicate NodesInsertable(others: set<Uuid>, nodes: seq<NodeDefinition>) {
    forall i :: 0 <= i < |nodes| ==> !NodeConflicts(others, nodes[..i], nodes[i])
  }

  predicate TransitionsInsertable(others: set<Uuid>, nodeIds: set<Uuid>, transitions: seq<TransitionDefinition>) {
    forall i :: 0 <= i < |transitions| ==> !TransitionConflicts(others, nodeIds, transitions[..i], transitions[i])
  }

  predicate Insertable(versions: Versions, versionId: Uuid, nodes: seq<NodeDefinition>,
                       transitions: seq<TransitionDefinition>)
  {
    var others := OtherNodeIds(versions, versionId);
    && NodesInsertable(others, nodes)
    && TransitionsInsertable(OtherTransitionIds(versions, versionId), others + NodeIds(nodes), transitions)
    && PrimariesResolve(nodes, TransitionIds(transitions))
  }

  /** The three-state patch: absent keeps the stored schema, JSON null clears it, a value replaces it. */
  function PatchSchema(stored: Option<Json>, patch: Option<Json>): Option<Json> {
    if patch.None? then stored else if patch.value.Null? then None else patch
  }

  function ReplaceDraftGraphTx(versions: Versions, versionId: Uuid, patch: Option<Json>, nodes: seq<NodeDefinition>,
                               transitions: seq<TransitionDefinition>): Result<Versions, DefinitionError>
  {
    if versionId !in versions then Err(DefinitionVersionNotFound)
    else if !versions[versionId].status.Draft? then Err(VersionNotDraft)
    else if !Insertable(versions, versionId, nodes, transitions) then Err(StorageError)
    else
      var row := versions[versionId];
      var graph := WorkflowGraph(nodes, transitions, PatchSchema(row.graph.contextSchema, patch));
      Ok(versions[versionId := row.(graph := graph)])
  }

  /** Domain and ownership checks; the arguments are what the transaction reads. */
  function CheckOwner(domainEnabled: Option<bool>, ownerEnabled: Option<bool>): Option<DefinitionError> {
    if domainEnabled.None? then Some(DomainNotFound)
    else if !domainEnabled.value then Some(DomainDisabled)
    else if ownerEnabled != Some(true) then Some(PermissionDenied)
    else None
  }

  function AtomicPublishTx(versions: Versions, versionId: Uuid, domainEnabled: Option<bool>, ownerEnabled: Option<bool>,
                           precomputed: CanonicalDocument): Result<Versions, DefinitionError>
  {
    if versionId !in versions then Err(DefinitionVersionNotFound)
    else if !versions[versionId].status.Draft? then Err(VersionNotDraft)
    else if CheckOwner(domainEnabled, ownerEnabled).Some? then Err(CheckOwner(domainEnabled, ownerEnabled).value)
    else if ComputeDigest(versions[versionId].header, versions[versionId].graph) != precomputed then
      Err(ConcurrentModification)
    else Ok(versions[versionId := versions[versionId].(status := Published, digest := Some(precomputed))])
  }

  /** Deprecation and revocation: `from` lists the statuses that may move to `to`. */
  function StatusChangeTx(versions: Versions, versionId: Uuid, domainEnabled: Option<bool>, ownerEnabled: Option<bool>,
                          from: set<VersionStatus>, to: VersionStatus): Result<Versions, DefinitionError>
  {
    if versionId !in versions then Err(DefinitionVersionNotFound)
    else if versions[versionId].status !in from then Err(InvalidLifecycleTransition)
    else if CheckOwner(domainEnabled, ownerEnabled).Some? then Err(CheckOwner(domainEnabled, ownerEnabled).value)
    else Ok(versions[versionId := versions[versionId].(status := to)])
  }

  ghost predicate Follows(before: Versions, tx: Result<Versions, DefinitionError>, after: Versions,
                          r: Result<(), DefinitionError>)
  {
    match tx
    case Ok(updated) => r.Ok? && after == updated
    case Err(e) => r == Err(e) && after == before
  }

  /** The definition repository. An error return leaves the tables as they were. */
  class DefinitionRepository {
    var versions: Versions

    constructor ()
      ensures versions == map[]
    {
      versions := map[];
    }

    method ReplaceDraftGraph(versionId: Uuid, patch: Option<Json>, nodes: seq<NodeDefinition>,
                             transitions: seq<TransitionDefinition>)
      returns (r: Result<(), DefinitionError>)
      modifies this
      ensures Follows(old(versions), ReplaceDraftGraphTx(old(versions), versionId, patch, nodes, transitions), versions, r)
    {
      if versionId !in versions {
        return Err(DefinitionVersionNotFound);
      }
      if !versions[versionId].status.Draft? {
        return Err(VersionNotDraft);
      }
      var otherNodes := OtherNodeIds(versions, versionId);
      var otherTransitions := OtherTransitionIds(versions, versionId);
      var insertedNodes: seq<NodeDefinition> := [];
      for i := 0 to |nodes|
        invariant insertedNodes == nodes[..i]
        invariant versions == old(versions)
        invariant forall j :: 0 <= j < i ==> !NodeConflicts(otherNodes, nodes[..j], nodes[j])
      {
        if NodeConflicts(otherNodes, insertedNodes, nodes[i]) {
          return Err(StorageError);
        }
        insertedNodes := insertedNodes + [nodes[i]];
      }
      var nodeIds := otherNodes + NodeIds(insertedNodes);
      assert insertedNodes == nodes;
      var insertedTransitions: seq<TransitionDefinition> := [];
      for i := 0 to |transitions|
        invariant insertedTransitions == transitions[..i]
        invariant versions == old(versions)
        invariant forall j :: 0 <= j < i ==>
                    !TransitionConflicts(otherTransitions, nodeIds, transitions[..j], transitions[j])
      {
        if TransitionConflicts(otherTransitions, nodeIds, insertedTransitions, transitions[i]) {
          return Err(StorageError);
        }
        insertedTransitions := insertedTransitions + [transitions[i]];
      }
      assert insertedTransitions == transitions;
      var contextSchema := versions[versionId].graph.contextSchema;
      if patch.Some? {
        contextSchema := if patch.value.Null? then None else Some(patch.value);
      }
      if !PrimariesResolve(insertedNodes, TransitionIds(insertedTransitions)) {
        return Err(StorageError);
      }
      var graph := WorkflowGraph(insertedNodes, insertedTransitions, contextSchema);
      versions := versions[versionId := versions[versionId].(graph := graph)];
      r := Ok(());
    }

    method AtomicPublish(versionId: Uuid, domainEnabled: Option<bool>, ownerEnabled: Option<bool>,
                         precomputed: CanonicalDocument)
      returns (r: Result<(), DefinitionError>)
      modifies this
      ensures Follows(old(versions), AtomicPublishTx(old(versions), versionId, domainEnabled, ownerEnabled, precomputed),
                      versions, r)
    {
      if versionId !in versions {
        return Err(DefinitionVersionNotFound);
      }
      var version := versions[versionId];
      if !version.status.Draft? {
        return Err(VersionNotDraft);
      }
      if domainEnabled.None? {
        return Err(DomainNotFound);
      }
      if !domainEnabled.value {
        return Err(DomainDisabled);
      }
      if ownerEnabled.None? || !ownerEnabled.value {
        return Err(PermissionDenied);
      }
      var actual := ComputeDigest(version.header, version.graph);
      if actual != precomputed {
        return Err(ConcurrentModification);
      }
      versions := versions[versionId := version.(status := Published, digest := Some(precomputed))];
      r := Ok(());
    }

    method ChangeStatus(versionId: Uuid, domainEnabled: Option<bool>, ownerEnabled: Option<bool>,
                        from: set<VersionStatus>, to: VersionStatus)
      returns (r: Result<(), DefinitionError>)
      modifies this
      ensures Follows(old(versions), StatusChangeTx(old(versions), versionId, domainEnabled, ownerEnabled, from, to),
                      versions, r)
    {
      if versionId !in versions {
        return Err(DefinitionVersionNotFound);
      }
      if versions[versionId].status !in from {
        return Err(InvalidLifecycleTransition);
      }
      if domainEnabled.None? {
        return Err(DomainNotFound);
      }
      if !domainEnabled.value {
        return Err(DomainDisabled);
      }
      if ownerEnabled.None? || !ownerEnabled.value {
        return Err(PermissionDenied);
      }
      versions := versions[versionId := versions[versionId].(status := to)];
      r := Ok(());
    }

    method AtomicDeprecate(versionId: Uuid, domainEnabled: Option<bool>, ownerEnabled: Option<bool>)
      returns (r: Result<(), DefinitionError>)
      modifies this
      ensures Follows(old(versions),
                      StatusChangeTx(old(versions), versionId, domainEnabled, ownerEnabled, {Published}, Deprecated),
                      versions, r)
    {
      r := ChangeStatus(versionId, domainEnabled, ownerEnabled, {Published}, Deprecated);
    }

    method AtomicRevoke(versionId: Uuid, domainEnabled: Option<bool>, ownerEnabled: Option<bool>)
      returns (r: Result<(), DefinitionError>)
      modifies this
      ensures Follows(old(versions),
                      StatusChangeTx(old(versions), versionId, domainEnabled, ownerEnabled, {Published, Deprecated}, Revoked),
                      versions, r)
    {
      r := ChangeStatus(versionId, domainEnabled, ownerEnabled, {Published, Deprecated}, Revoked);
    }
  }

  // ----- The protocol: publish sessions interleaved with other transactions -----

  /** How far a publish call has come, with everything it remembers. */
  datatype Phase =
    | Locked(contextSchema: Option<Json>)
    | NodesRead(contextSchema: Option<Json>, nodes: seq<NodeDefinition>)
    | GraphRead(graph: WorkflowGraph)
    | Ready(digest: CanonicalDocument)

  datatype Session = Session(versionId: Uuid, header: DocumentHeader, phase: Phase)

  datatype Store = Store(versions: Versions, sessions: map<Uuid, Session>)

  datatype Step =
    | CreateVersion(versionId: Uuid, header: DocumentHeader, contextSchema: Option<Json>)
    | ReplaceGraph(versionId: Uuid, rawNodes: seq<RawNode>, rawTransitions: seq<RawTransition>, nodeIds: seq<Uuid>,
                   transitionIds: seq<Uuid>, patch: Option<Json>, knownSchema: Option<Json>)
    | StartPublish(session: Uuid, versionId: Uuid)
    | ReadNodes(session: Uuid, nodes: seq<NodeDefinition>)
    | ReadTransitions(session: Uuid, transitions: seq<TransitionDefinition>)
    | Validate(session: Uuid)
    | Commit(session: Uuid, domainEnabled: Option<bool>, ownerEnabled: Option<bool>)
    | Abandon(session: Uuid)
    | Deprecate(versionId: Uuid, domainEnabled: Option<bool>, ownerEnabled: Option<bool>)
    | Revoke(versionId: Uuid, domainEnabled: Option<bool>, ownerEnabled: Option<bool>)

  /** The JSON Schema check of validation: every schema that is present must be one. */
  ghost predicate SchemasPass(isSchema: Json -> bool, g: WorkflowGraph) {
    && (g.contextSchema.Some? ==> isSchema(g.contextSchema.value))
    && (forall t :: t in g.transitions && t.submissionSchema.Some? ==> isSchema(t.submissionSchema.value))
  }

  /** Every schema of the graph other than JSON null is one. */
  ghost predicate SchemasLegal(isSchema: Json -> bool, g: WorkflowGraph) {
    && (AsJson(g.contextSchema) == Null || isSchema(AsJson(g.contextSchema)))
    && (forall t :: t in g.transitions ==> AsJson(t.submissionSchema) == Null || isSchema(AsJson(t.submissionSchema)))
  }

  /** The command was built and validated, against a context schema that may be stale, and its transaction committed. */
  ghost predicate ReplaceStep(isSchema: Json -> bool, s: Store, step: Step, s': Store)
    requires step.ReplaceGraph?
  {
    && |step.nodeIds| == |step.rawNodes| && |step.transitionIds| == |step.rawTransitions|
    && var built := DraftGraphOf(step.rawNodes, step.rawTransitions, step.nodeIds, step.transitionIds,
                                 PatchSchema(step.knownSchema, step.patch));
    && built.Ok? && Accepts(built.value) && SchemasPass(isSchema, built.value)
    && var tx := ReplaceDraftGraphTx(s.versions, step.versionId, step.patch, built.value.nodes, built.value.transitions);
    && tx.Ok? && s' == s.(versions := tx.value)
  }

  ghost predicate SessionStep(isSchema: Json -> bool, s: Store, step: Step, s': Store) {
    match step
    case StartPublish(id, versionId) =>
      && id !in s.sessions && versionId in s.versions && s.versions[versionId].status.Draft?
      && var row := s.versions[versionId];
      s' == s.(sessions := s.sessions[id := Session(versionId, row.header, Locked(row.graph.contextSchema))])
    case ReadNodes(id, nodes) =>
      && id in s.sessions && s.sessions[id].phase.Locked? && s.sessions[id].versionId in s.versions
      && multiset(nodes) == multiset(s.versions[s.sessions[id].versionId].graph.nodes)
      && var phase := NodesRead(s.sessions[id].phase.contextSchema, nodes);
      s' == s.(sessions := s.sessions[id := s.sessions[id].(phase := phase)])
    case ReadTransitions(id, transitions) =>
      && id in s.sessions && s.sessions[id].phase.NodesRead? && s.sessions[id].versionId in s.versions
      && multiset(transitions) == multiset(s.versions[s.sessions[id].versionId].graph.transitions)
      && var read := s.sessions[id].phase;
      s' == s.(sessions := s.sessions[id := s.sessions[id].(
                 phase := GraphRead(WorkflowGraph(read.nodes, transitions, read.contextSchema)))])
    case Validate(id) =>
      && id in s.sessions && s.sessions[id].phase.GraphRead?
      && Accepts(s.sessions[id].phase.graph) && SchemasPass(isSchema, s.sessions[id].phase.graph)
      && var digest := ComputeDigest(s.sessions[id].header, s.sessions[id].phase.graph);
      s' == s.(sessions := s.sessions[id := s.sessions[id].(phase := Ready(digest))])
    case Commit(id, domainEnabled, ownerEnabled) =>
      && id in s.sessions && s.sessions[id].phase.Ready?
      && var tx := AtomicPublishTx(s.versions, s.sessions[id].versionId, domainEnabled, ownerEnabled,
                                   s.sessions[id].phase.digest);
      s' == Store(if tx.Ok? then tx.value else s.versions, s.sessions - {id})
    case Abandon(id) => s' == s.(sessions := s.sessions - {id})
    case _ => false
  }

  ghost predicate LifecycleStep(s: Store, step: Step, s': Store) {
    match step
    case CreateVersion(versionId, header, contextSchema) =>
      && versionId !in s.versions
      && var row := VersionRow(header, Draft, None, WorkflowGraph([], [], contextSchema));
      s' == s.(versions := s.versions[versionId := row])
    case Deprecate(versionId, domainEnabled, ownerEnabled) =>
      var tx := StatusChangeTx(s.versions, versionId, domainEnabled, ownerEnabled, {Published}, Deprecated);
      tx.Ok? && s' == s.(versions := tx.value)
    case Revoke(versionId, domainEnabled, ownerEnabled) =>
      var tx := StatusChangeTx(s.versions, versionId, domainEnabled, ownerEnabled, {Published, Deprecated}, Revoked);
      tx.Ok? && s' == s.(versions := tx.value)
    case _ => false
  }

  ghost predicate NextBy(isSchema: Json -> bool, s: Store, step: Step, s': Store) {
    || (step.ReplaceGraph? && ReplaceStep(isSchema, s, step, s'))
    || SessionStep(isSchema, s, step, s')
    || LifecycleStep(s, step, s')
  }

  /** A run from empty tables. */
  ghost predicate IsRun(isSchema: Json -> bool, run: seq<Store>, steps: seq<Step>) {
    && |run| == |steps| + 1
    && run[0] == Store(map[], map[])
    && forall i :: 0 <= i < |steps| ==> NextBy(isSchema, run[i], steps[i], run[i + 1])
  }

  // ----- The invariant -----

  /** What every version that has left DRAFT promises. */
  ghost predicate Certified(isSchema: Json -> bool, row: VersionRow) {
    && Accepts(row.graph)
    && SchemasLegal(isSchema, row.graph)
    && row.digest == Some(ComputeDigest(row.header, row.graph))
  }

  ghost predicate ValidRow(isSchema: Json -> bool, row: VersionRow) {
    StoredShape(row.graph) && (!row.status.Draft? ==> Certified(isSchema, row))
  }

  /** The digest of some graph, read in pieces, that passed validation. */
  ghost predicate IsVettedDigest(isSchema: Json -> bool, header: DocumentHeader, digest: CanonicalDocument) {
    exists torn :: VettedBy(isSchema, header, digest, torn)
  }

  ghost predicate VettedBy(isSchema: Json -> bool, header: DocumentHeader, digest: CanonicalDocument, torn: WorkflowGraph) {
    UniqueRows(torn) && Accepts(torn) && SchemasPass(isSchema, torn) && digest == ComputeDigest(header, torn)
  }

  ghost predicate ValidSession(isSchema: Json -> bool, versions: Versions, session: Session) {
    && session.versionId in versions
    && session.header == versions[session.versionId].header
    && match session.phase
       case Locked(_) => true
       case NodesRead(_, nodes) => UniqueNodeIds(nodes) && UniqueNodeKeys(nodes)
       case GraphRead(torn) => UniqueRows(torn)
       case Ready(digest) => IsVettedDigest(isSchema, session.header, digest)
  }

  ghost predicate Inv(isSchema: Json -> bool, s: Store) {
    && (forall v :: v in s.versions ==> ValidRow(isSchema, s.versions[v]))
    && (forall id :: id in s.sessions ==> ValidSession(isSchema, s.versions, s.sessions[id]))
  }

  lemma InsertableRowsAreUnique(others: set<Uuid>, nodes: seq<NodeDefinition>)
    requires NodesInsertable(others, nodes)
    ensures UniqueNodeIds(nodes) && UniqueNodeKeys(nodes)
  {
    forall i, j | 0 <= i < j < |nodes|
      ensures nodes[i].nodeId != nodes[j].nodeId && nodes[i].nodeKey != nodes[j].nodeKey
    {
      assert !NodeConflicts(others, nodes[..j], nodes[j]);
      assert nodes[..j][i] == nodes[i];
      assert nodes[i] in nodes[..j];
    }
  }

  lemma InsertableTransitionsAreUnique(others: set<Uuid>, nodeIds: set<Uuid>, transitions: seq<TransitionDefinition>)
    requires TransitionsInsertable(others, nodeIds, transitions)
    ensures UniqueTransitionIds(transitions) && UniqueTransitionKeys(transitions)
  {
    forall i, j | 0 <= i < j < |transitions|
      ensures transitions[i].transitionId != transitions[j].transitionId
      ensures transitions[i].transitionKey != transitions[j].transitionKey
    {
      assert !TransitionConflicts(others, nodeIds, transitions[..j], transitions[j]);
      assert transitions[..j][i] == transitions[i];
      assert transitions[i] in transitions[..j];
    }
  }

  lemma ReadNodesAreUnique(stored: seq<NodeDefinition>, read: seq<NodeDefinition>)
    requires UniqueNodeIds(stored) && UniqueNodeKeys(stored) && multiset(stored) == multiset(read)
    ensures UniqueNodeIds(read) && UniqueNodeKeys(read)
  {
    PermutationHasNoDuplicates(stored, read);
    forall i, j | 0 <= i < j < |read|
      ensures read[i].nodeId != read[j].nodeId && read[i].nodeKey != read[j].nodeKey
    {
      assert read[i] in multiset(stored) && read[j] in multiset(stored);
      var k :| 0 <= k < |stored| && stored[k] == read[i];
      var l :| 0 <= l < |stored| && stored[l] == read[j];
    }
  }

  lemma ReadTransitionsAreUnique(stored: seq<TransitionDefinition>, read: seq<TransitionDefinition>)
    requires UniqueTransitionIds(stored) && UniqueTransitionKeys(stored) && multiset(stored) == multiset(read)
    ensures UniqueTransitionIds(read) && UniqueTransitionKeys(read)
  {
    PermutationHasNoDuplicates(stored, read);
    forall i, j | 0 <= i < j < |read|
      ensures read[i].transitionId != read[j].transitionId && read[i].transitionKey != read[j].transitionKey
    {
      assert read[i] in multiset(stored) && read[j] in multiset(stored);
      var k :| 0 <= k < |stored| && stored[k] == read[i];
      var l :| 0 <= l < |stored| && stored[l] == read[j];
    }
  }

  lemma AcceptedTransitionResolves(g: WorkflowGraph, t: TransitionDefinition)
    requires LegalTransition(g, t)
    ensures HasNode(g, t.sourceNodeId) && HasNode(g, t.targetNodeId)
  {
    var source, target :| source in g.nodes && target in g.nodes && LegalEndpoints(t, source, target);
  }

  lemma AcceptedPrimaryResolves(g: WorkflowGraph, n: NodeDefinition)
    requires LegalPrimary(g, n) && n.primaryAdvanceTransitionId.Some?
    ensures HasTransition(g, n.primaryAdvanceTransitionId.value)
  {
    var target :| target in g.nodes && IsPrimaryEdge(g.transitions, n, target);
    var t :| t in g.transitions && IsPrimaryStep(n, t, target);
  }

  /** A graph read in pieces may mix two graphs, but if it is accepted its references resolve. */
  lemma AcceptedReadIsStorable(g: WorkflowGraph)
    requires UniqueRows(g) && Accepts(g)
    ensures StoredShape(g)
  {
    hide Accepts, LegalAssignee, LegalPrimary, LegalTransition, OneDraft, DistinctOrder;
    AcceptedIsWellFormed(g);
    forall t | t in g.transitions
      ensures HasNode(g, t.sourceNodeId) && HasNode(g, t.targetNodeId)
    {
      AcceptedTransitionResolves(g, t);
    }
    forall n | n in g.nodes && n.primaryAdvanceTransitionId.Some?
      ensures HasTransition(g, n.primaryAdvanceTransitionId.value)
    {
      AcceptedPrimaryResolves(g, n);
    }
  }

  lemma LegalSchemasFollowTheDigest(isSchema: Json -> bool, header: DocumentHeader, torn: WorkflowGraph, stored: WorkflowGraph)
    requires StoredShape(torn) && StoredShape(stored) && ComputeDigest(header, torn) == ComputeDigest(header, stored)
    requires SchemasPass(isSchema, torn)
    ensures SchemasLegal(isSchema, stored)
  {
    EqualDocumentsAreRenamed(header, torn, stored);
    var r := RenamingByKey(torn, stored);
    forall u | u in stored.transitions
      ensures AsJson(u.submissionSchema) == Null || isSchema(AsJson(u.submissionSchema))
    {
      assert HasTransitionPreimage(r, torn.transitions, u);
    }
  }

  /** Comparing digests inside the lock is enough: the stored graph has the verdict of the vetted one. */
  lemma VettedDigestCertifies(isSchema: Json -> bool, row: VersionRow, digest: CanonicalDocument)
    requires StoredShape(row.graph) && IsVettedDigest(isSchema, row.header, digest)
    requires ComputeDigest(row.header, row.graph) == digest
    ensures Certified(isSchema, row.(status := Published, digest := Some(digest)))
  {
    var torn :| VettedBy(isSchema, row.header, digest, torn);
    AcceptedReadIsStorable(torn);
    SameDigestSameVerdict(row.header, torn, row.graph);
    LegalSchemasFollowTheDigest(isSchema, row.header, torn, row.graph);
  }

  lemma UpdatedRow(isSchema: Json -> bool, s: Store, versionId: Uuid, row: VersionRow)
    requires Inv(isSchema, s) && versionId in s.versions && ValidRow(isSchema, row)
    requires row.header == s.versions[versionId].header
    ensures Inv(isSchema, s.(versions := s.versions[versionId := row]))
  {
    hide ValidRow, IsVettedDigest, UniqueRows, UniqueNodeIds, UniqueNodeKeys;
    var s' := s.(versions := s.versions[versionId := row]);
    forall id | id in s'.sessions
      ensures ValidSession(isSchema, s'.versions, s'.sessions[id])
    {
      assert ValidSession(isSchema, s.versions, s.sessions[id]);
    }
  }

  /** A built graph that the tables take is storable. */
  lemma ReplacedGraphIsStorable(versions: Versions, versionId: Uuid, rawNodes: seq<RawNode>,
                                rawTransitions: seq<RawTransition>, nodeIds: seq<Uuid>, transitionIds: seq<Uuid>,
                                contextSchema: Option<Json>, built: WorkflowGraph)
    requires |nodeIds| == |rawNodes| && |transitionIds| == |rawTransitions|
    requires DraftGraphOf(rawNodes, rawTransitions, nodeIds, transitionIds, contextSchema) == Ok(built)
    requires Insertable(versions, versionId, built.nodes, built.transitions)
    ensures StoredShape(built)
  {
    hide DraftGraphOf, NodesInsertable, TransitionsInsertable, ResolvingReferences;
    BuiltReferencesResolve(rawNodes, rawTransitions, nodeIds, transitionIds, contextSchema, built);
    var others := OtherNodeIds(versions, versionId);
    InsertableRowsAreUnique(others, built.nodes);
    InsertableTransitionsAreUnique(OtherTransitionIds(versions, versionId), others + NodeIds(built.nodes), built.transitions);
  }

  lemma ReplacePreservesInv(isSchema: Json -> bool, s: Store, step: Step, s': Store)
    requires Inv(isSchema, s) && step.ReplaceGraph? && ReplaceStep(isSchema, s, step, s')
    ensures Inv(isSchema, s')
  {
    hide Inv, DraftGraphOf, Accepts, SchemasPass, Insertable, StoredShape, Certified;
    var schema := PatchSchema(step.knownSchema, step.patch);
    var built := DraftGraphOf(step.rawNodes, step.rawTransitions, step.nodeIds, step.transitionIds, schema).value;
    ReplacedGraphIsStorable(s.versions, step.versionId, step.rawNodes, step.rawTransitions, step.nodeIds,
                            step.transitionIds, schema, built);
    StorableWhateverTheSchema(built, s'.versions[step.versionId].graph);
    UpdatedRow(isSchema, s, step.versionId, s'.versions[step.versionId]);
  }

  lemma StorableWhateverTheSchema(g: WorkflowGraph, h: WorkflowGraph)
    requires StoredShape(g) && h.nodes == g.nodes && h.transitions == g.transitions
    ensures StoredShape(h)
  {
    forall t | t in h.transitions ensures HasNode(h, t.sourceNodeId) && HasNode(h, t.targetNodeId) {
      assert HasNode(g, t.sourceNodeId) && HasNode(g, t.targetNodeId);
    }
    forall n | n in h.nodes && n.primaryAdvanceTransitionId.Some?
      ensures HasTransition(h, n.primaryAdvanceTransitionId.value)
    {
      assert HasTransition(g, n.primaryAdvanceTransitionId.value);
    }
  }

  lemma PassedValidationIsVetted(isSchema: Json -> bool, header: DocumentHeader, torn: WorkflowGraph)
    requires UniqueRows(torn) && Accepts(torn) && SchemasPass(isSchema, torn)
    ensures IsVettedDigest(isSchema, header, ComputeDigest(header, torn))
  {
    assert VettedBy(isSchema, header, ComputeDigest(header, torn), torn);
  }

  lemma UpdatedSession(isSchema: Json -> bool, s: Store, id: Uuid, session: Session)
    requires Inv(isSchema, s) && ValidSession(isSchema, s.versions, session)
    ensures Inv(isSchema, s.(sessions := s.sessions[id := session]))
  {
    hide ValidRow, ValidSession;
  }

  lemma ReadNodesIsValid(isSchema: Json -> bool, versions: Versions, session: Session, nodes: seq<NodeDefinition>,
                         contextSchema: Option<Json>)
    requires ValidSession(isSchema, versions, session) && ValidRow(isSchema, versions[session.versionId])
    requires multiset(nodes) == multiset(versions[session.versionId].graph.nodes)
    ensures ValidSession(isSchema, versions, session.(phase := NodesRead(contextSchema, nodes)))
  {
    hide Certified, IsVettedDigest, ResolvingReferences;
    ReadNodesAreUnique(versions[session.versionId].graph.nodes, nodes);
  }

  lemma ReadTransitionsIsValid(isSchema: Json -> bool, versions: Versions, session: Session,
                               transitions: seq<TransitionDefinition>)
    requires ValidSession(isSchema, versions, session) && ValidRow(isSchema, versions[session.versionId])
    requires session.phase.NodesRead?
    requires multiset(transitions) == multiset(versions[session.versionId].graph.transitions)
    ensures var torn := WorkflowGraph(session.phase.nodes, transitions, session.phase.contextSchema);
            ValidSession(isSchema, versions, session.(phase := GraphRead(torn)))
  {
    hide Certified, IsVettedDigest, ResolvingReferences;
    ReadTransitionsAreUnique(versions[session.versionId].graph.transitions, transitions);
  }

  lemma ValidatedIsValid(isSchema: Json -> bool, versions: Versions, session: Session)
    requires ValidSession(isSchema, versions, session) && session.phase.GraphRead?
    requires Accepts(session.phase.graph) && SchemasPass(isSchema, session.phase.graph)
    ensures ValidSession(isSchema, versions, session.(phase := Ready(ComputeDigest(session.header, session.phase.graph))))
  {
    hide Accepts, SchemasPass, ComputeDigest;
    PassedValidationIsVetted(isSchema, session.header, session.phase.graph);
  }

  lemma SessionPreservesInv(isSchema: Json -> bool, s: Store, step: Step, s': Store)
    requires Inv(isSchema, s) && SessionStep(isSchema, s, step, s') && !step.Commit? && !step.Abandon?
    ensures Inv(isSchema, s')
  {
    hide ValidRow, Accepts, SchemasPass, ComputeDigest, IsVettedDigest, UniqueRows, UniqueNodeIds, UniqueNodeKeys;
    var id := step.session;
    if !step.StartPublish? {
      var session := s.sessions[id];
      assert ValidSession(isSchema, s.versions, session) && ValidRow(isSchema, s.versions[session.versionId]);
      match step {
        case ReadNodes(_, nodes) =>
          ReadNodesIsValid(isSchema, s.versions, session, nodes, session.phase.contextSchema);
        case ReadTransitions(_, transitions) =>
          ReadTransitionsIsValid(isSchema, s.versions, session, transitions);
        case Validate(_) =>
          ValidatedIsValid(isSchema, s.versions, session);
      }
    }
    UpdatedSession(isSchema, s, id, s'.sessions[id]);
  }

  lemma AbandonPreservesInv(isSchema: Json -> bool, s: Store, step: Step, s': Store)
    requires Inv(isSchema, s) && step.Abandon? && SessionStep(isSchema, s, step, s')
    ensures Inv(isSchema, s')
  {
    hide ValidRow, ValidSession;
  }

  lemma CommitPreservesInv(isSchema: Json -> bool, s: Store, step: Step, s': Store)
    requires Inv(isSchema, s) && step.Commit? && SessionStep(isSchema, s, step, s')
    ensures Inv(isSchema, s')
  {
    hide Certified, IsVettedDigest, StoredShape, ComputeDigest, Insertable;
    var session := s.sessions[step.session];
    assert ValidSession(isSchema, s.versions, session) && ValidRow(isSchema, s.versions[session.versionId]);
    var tx := AtomicPublishTx(s.versions, session.versionId, step.domainEnabled, step.ownerEnabled, session.phase.digest);
    if tx.Ok? {
      VettedDigestCertifies(isSchema, s.versions[session.versionId], session.phase.digest);
    }
  }

  lemma CreatePreservesInv(isSchema: Json -> bool, s: Store, step: Step, s': Store)
    requires Inv(isSchema, s) && step.CreateVersion? && LifecycleStep(s, step, s')
    ensures Inv(isSchema, s')
  {
    hide Certified, IsVettedDigest;
    forall id | id in s'.sessions
      ensures ValidSession(isSchema, s'.versions, s'.sessions[id])
    {
      assert ValidSession(isSchema, s.versions, s.sessions[id]);
    }
  }

  lemma LifecyclePreservesInv(isSchema: Json -> bool, s: Store, step: Step, s': Store)
    requires Inv(isSchema, s) && LifecycleStep(s, step, s') && !step.CreateVersion?
    ensures Inv(isSchema, s')
  {
    hide StoredShape, Accepts, SchemasLegal, ComputeDigest;
    assert ValidRow(isSchema, s.versions[step.versionId]);
    UpdatedRow(isSchema, s, step.versionId, s'.versions[step.versionId]);
  }

  lemma StepPreservesInv(isSchema: Json -> bool, s: Store, step: Step, s': Store)
    requires Inv(isSchema, s) && NextBy(isSchema, s, step, s')
    ensures Inv(isSchema, s')
  {
    hide Inv, SessionStep, LifecycleStep, ReplaceStep;
    if step.Commit? && SessionStep(isSchema, s, step, s') {
      CommitPreservesInv(isSchema, s, step, s');
    } else if step.Abandon? && SessionStep(isSchema, s, step, s') {
      AbandonPreservesInv(isSchema, s, step, s');
    } else if SessionStep(isSchema, s, step, s') {
      SessionPreservesInv(isSchema, s, step, s');
    } else if step.CreateVersion? && LifecycleStep(s, step, s') {
      CreatePreservesInv(isSchema, s, step, s');
    } else if LifecycleStep(s, step, s') {
      LifecyclePreservesInv(isSchema, s, step, s');
    } else {
      ReplacePreservesInv(isSchema, s, step, s');
    }
  }

  lemma {:induction false} RunKeepsInv(isSchema: Json -> bool, run: seq<Store>, steps: seq<Step>, i: nat)
    requires IsRun(isSchema, run, steps) && i < |run|
    ensures Inv(isSchema, run[i])
  {
    hide NextBy;
    if i > 0 {
      RunKeepsInv(isSchema, run, steps, i - 1);
      StepPreservesInv(isSchema, run[i - 1], steps[i - 1], run[i]);
    }
  }

  /**
   Publish safety: at every moment of every run, each version that is not a draft stores a graph the
   validator accepts, with legal schemas, and exactly that graph's digest.
   */
  lemma PublishedVersionsAreCertified(isSchema: Json -> bool, run: seq<Store>, steps: seq<Step>, i: nat, versionId: Uuid)
    requires IsRun(isSchema, run, steps) && i < |run|
    requires versionId in run[i].versions && !run[i].versions[versionId].status.Draft?
    ensures Certified(isSchema, run[i].versions[versionId])
  {
    RunKeepsInv(isSchema, run, steps, i);
    assert ValidRow(isSchema, run[i].versions[versionId]);
  }

  function StatusRank(status: VersionStatus): nat {
    match status
    case Draft => 0
    case Published => 1
    case Deprecated => 2
    case Revoked => 3
  }

  /** The row is the same except for a status that moved forward. */
  predicate FrozenSince(before: VersionRow, after: VersionRow) {
    && after == before.(status := after.status)
    && StatusRank(before.status) <= StatusRank(after.status)
  }

  lemma StepKeepsFrozen(isSchema: Json -> bool, s: Store, step: Step, s': Store, versionId: Uuid)
    requires NextBy(isSchema, s, step, s') && versionId in s.versions && !s.versions[versionId].status.Draft?
    ensures versionId in s'.versions && FrozenSince(s.versions[versionId], s'.versions[versionId])
  {
    hide ComputeDigest, Insertable, DraftGraphOf, Accepts, SchemasPass;
  }

  /** From the moment it leaves DRAFT, a version never changes again except to a later status. */
  lemma {:induction false} PublishedVersionsAreFrozen(isSchema: Json -> bool, run: seq<Store>, steps: seq<Step>,
                                                      i: nat, j: nat, versionId: Uuid)
    requires IsRun(isSchema, run, steps) && i <= j < |run|
    requires versionId in run[i].versions && !run[i].versions[versionId].status.Draft?
    ensures versionId in run[j].versions && FrozenSince(run[i].versions[versionId], run[j].versions[versionId])
  {
    hide NextBy;
    if i < j {
      PublishedVersionsAreFrozen(isSchema, run, steps, i, j - 1, versionId);
      StepKeepsFrozen(isSchema, run[j - 1], steps[j - 1], run[j], versionId);
    }
  }
}
