/** A stable sort of keyed records by their string key, as the digest uses it. */
module KeySort {

  datatype Keyed<+T> = Keyed(key: string, body: T)

  /** Lexicographic order on strings, character by character. */
  predicate AtMost(a: string, b: string) {
    a == "" || (b != "" && (a[0] < b[0] || (a[0] == b[0] && AtMost(a[1..], b[1..]))))
  }

  lemma {:induction false} AtMostTotal(a: string, b: string)
    ensures AtMost(a, b) || AtMost(b, a)
    ensures AtMost(a, b) && AtMost(b, a) ==> a == b
  {
    if a != "" && b != "" {
      AtMostTotal(a[1..], b[1..]);
      assert a == [a[0]] + a[1..] && b == [b[0]] + b[1..];
    }
  }

  lemma {:induction false} AtMostTransitive(a: string, b: string, c: string)
    requires AtMost(a, b) && AtMost(b, c)
    ensures AtMost(a, c)
  {
    if a != "" {
      if a[0] == b[0] == c[0] {
        AtMostTransitive(a[1..], b[1..], c[1..]);
      }
    }
  }

  /** Insert after every record whose key is at most `x.key`. */
  function Insert<T>(sorted: seq<Keyed<T>>, x: Keyed<T>): seq<Keyed<T>> {
    if sorted == [] then [x]
    else
      var last := sorted[|sorted| - 1];
      if AtMost(last.key, x.key) then sorted + [x] else Insert(sorted[..|sorted| - 1], x) + [last]
  }

  function SortByKey<T>(s: seq<Keyed<T>>): seq<Keyed<T>> {
    if s == [] then [] else Insert(SortByKey(s[..|s| - 1]), s[|s| - 1])
  }

  ghost predicate Sorted<T>(s: seq<Keyed<T>>) {
    forall i, j :: 0 <= i < j < |s| ==> AtMost(s[i].key, s[j].key)
  }

  ghost predicate DistinctKeys<T>(s: seq<Keyed<T>>) {
    forall i, j :: 0 <= i < j < |s| ==> s[i].key != s[j].key
  }

  ghost predicate SameElements<T(!new)>(a: seq<T>, b: seq<T>) {
    forall x :: x in a <==> x in b
  }

  lemma {:induction false} InsertIsSorted<T>(sorted: seq<Keyed<T>>, x: Keyed<T>)
    requires Sorted(sorted)
    ensures Sorted(Insert(sorted, x))
    ensures multiset(Insert(sorted, x)) == multiset(sorted) + multiset{x}
  {
    if sorted != [] {
      var before, last := sorted[..|sorted| - 1], sorted[|sorted| - 1];
      assert sorted == before + [last];
      if AtMost(last.key, x.key) {
        forall i | 0 <= i < |sorted|
          ensures AtMost(sorted[i].key, x.key)
        {
          if i < |before| {
            AtMostTransitive(sorted[i].key, last.key, x.key);
          }
        }
      } else {
        InsertIsSorted(before, x);
        var rest := Insert(before, x);
        AtMostTotal(last.key, x.key);
        forall i | 0 <= i < |rest|
          ensures AtMost(rest[i].key, last.key)
        {
          assert rest[i] in multiset(rest);
          assert rest[i] == x || rest[i] in before;
        }
      }
    }
  }

  /** Sorting sorts and permutes. */
  lemma {:induction false} SortByKeySorts<T>(s: seq<Keyed<T>>)
    ensures Sorted(SortByKey(s))
    ensures multiset(SortByKey(s)) == multiset(s)
  {
    if s != [] {
      var before, last := s[..|s| - 1], s[|s| - 1];
      assert s == before + [last];
      SortByKeySorts(before);
      InsertIsSorted(SortByKey(before), last);
    }
  }

  lemma SortByKeyElements<T(!new)>(s: seq<Keyed<T>>)
    ensures SameElements(SortByKey(s), s)
  {
    SortByKeySorts(s);
    forall x ensures x in SortByKey(s) <==> x in s {
      assert x in multiset(SortByKey(s)) <==> x in multiset(s);
    }
  }

  lemma LastElementAgrees<T(!new)>(a: seq<Keyed<T>>, b: seq<Keyed<T>>)
    requires Sorted(a) && Sorted(b) && DistinctKeys(a) && DistinctKeys(b) && SameElements(a, b)
    requires a != [] && b != []
    ensures a[|a| - 1] == b[|b| - 1]
  {
    hide AtMost;
    var x, y := a[|a| - 1], b[|b| - 1];
    assert x in a && y in b;
    var i :| 0 <= i < |b| && b[i] == x;
    var j :| 0 <= j < |a| && a[j] == y;
    AtMostTotal(x.key, y.key);
    assert i < |b| - 1 ==> AtMost(x.key, y.key) && x.key != y.key;
    assert j < |a| - 1 ==> AtMost(y.key, x.key) && x.key != y.key;
  }

  lemma DropLastAgrees<T(!new)>(a: seq<Keyed<T>>, b: seq<Keyed<T>>)
    requires DistinctKeys(a) && DistinctKeys(b) && SameElements(a, b)
    requires a != [] && b != [] && a[|a| - 1] == b[|b| - 1]
    ensures SameElements(a[..|a| - 1], b[..|b| - 1])
  {
    var x, a', b' := a[|a| - 1], a[..|a| - 1], b[..|b| - 1];
    assert a == a' + [x] && b == b' + [x];
    assert x !in a' && x !in b';
    forall z ensures z in a' <==> z in b' {
      assert z in a <==> z in b;
    }
  }

  /** Among sorted sequences, the keyed elements determine the sequence. */
  lemma {:induction false} SortedIsUnique<T(!new)>(a: seq<Keyed<T>>, b: seq<Keyed<T>>)
    requires Sorted(a) && Sorted(b) && DistinctKeys(a) && DistinctKeys(b) && SameElements(a, b)
    ensures a == b
  {
    hide AtMost;
    assert (b != [] ==> b[0] in a) && (a != [] ==> a[0] in b);
    if a != [] {
      LastElementAgrees(a, b);
      DropLastAgrees(a, b);
      SortedIsUnique(a[..|a| - 1], b[..|b| - 1]);
      assert a == a[..|a| - 1] + [a[|a| - 1]] && b == b[..|b| - 1] + [b[|b| - 1]];
    }
  }

  ghost predicate NoDuplicates<T>(s: seq<T>) {
    forall i, j :: 0 <= i < j < |s| ==> s[i] != s[j]
  }

  lemma TwiceInMultiset<T>(s: seq<T>, i: nat, j: nat)
    requires i < j < |s| && s[i] == s[j]
    ensures multiset(s)[s[i]] >= 2
  {
    assert s == s[..j] + s[j..];
    assert s[i] in s[..j] && s[j] in s[j..];
    assert multiset(s) == multiset(s[..j]) + multiset(s[j..]);
  }

  lemma {:induction false} OnceInMultiset<T>(s: seq<T>, x: T)
    requires NoDuplicates(s)
    ensures multiset(s)[x] <= 1
  {
    if s != [] {
      var before, last := s[..|s| - 1], s[|s| - 1];
      OnceInMultiset(before, x);
      assert s == before + [last];
      assert multiset(s) == multiset(before) + multiset{last};
      assert last !in before;
    }
  }

  lemma PermutationHasNoDuplicates<T>(a: seq<T>, b: seq<T>)
    requires multiset(a) == multiset(b) && NoDuplicates(a)
    ensures NoDuplicates(b)
  {
    forall i, j | 0 <= i < j < |b|
      ensures b[i] != b[j]
    {
      OnceInMultiset(a, b[i]);
      if b[i] == b[j] {
        TwiceInMultiset(b, i, j);
      }
    }
  }

  lemma DistinctKeysOfPermutation<T(!new)>(a: seq<Keyed<T>>, b: seq<Keyed<T>>)
    requires multiset(a) == multiset(b) && DistinctKeys(a)
    ensures DistinctKeys(b)
  {
    PermutationHasNoDuplicates(a, b);
    forall i, j | 0 <= i < j < |b|
      ensures b[i].key != b[j].key
    {
      assert b[i] in multiset(a) && b[j] in multiset(a);
      var k :| 0 <= k < |a| && a[k] == b[i];
      var l :| 0 <= l < |a| && a[l] == b[j];
    }
  }

  /** On distinct keys the sorted form is equal exactly when the elements are. */
  lemma SortByKeyEqualIff<T(!new)>(a: seq<Keyed<T>>, b: seq<Keyed<T>>)
    requires DistinctKeys(a) && DistinctKeys(b)
    ensures SortByKey(a) == SortByKey(b) <==> SameElements(a, b)
  {
    SortByKeySorts(a);
    SortByKeySorts(b);
    SortByKeyElements(a);
    SortByKeyElements(b);
    DistinctKeysOfPermutation(a, SortByKey(a));
    DistinctKeysOfPermutation(b, SortByKey(b));
    if SameElements(a, b) {
      assert SameElements(SortByKey(a), SortByKey(b)) by {
        forall x ensures x in SortByKey(a) <==> x in SortByKey(b) {
          assert (x in SortByKey(a) <==> x in a) && (x in SortByKey(b) <==> x in b) && (x in a <==> x in b);
        }
      }
      SortedIsUnique(SortByKey(a), SortByKey(b));
    } else {
      var x :| !(x in a <==> x in b);
      assert (x in SortByKey(a) <==> x in a) && (x in SortByKey(b) <==> x in b);
    }
  }
}

/** The canonical document of a definition version. Its digest is modelled by the document itself. */
module CanonicalDigest {
  import opened Prelude
  import opened DefinitionModel
  import opened GraphReachability
  import opened GraphRules
  import opened GraphProgress
  import opened KeySort

  datatype NodeBody = NodeBody(
    displayName: string,
    orderIndex: int,
    nodeType: NodeType,
    assigneeRefType: Option<AssigneeRefType>,
    fixedPrincipalId: Option<Uuid>,
    instructions: Option<string>,
    primaryAdvanceTransitionKey: Option<string>,
    metadata: Json)

  datatype TransitionBody = TransitionBody(
    displayName: string,
    sourceNodeKey: string,
    targetNodeKey: string,
    transitionEffect: TransitionEffect,
    submissionSchema: Json,
    metadata: Json)

  /** The fields of the document that no graph replacement changes. */
  datatype DocumentHeader = DocumentHeader(
    definitionKey: string,
    versionNumber: int,
    jsonSchemaDialect: Option<string>,
    validatorVersion: Option<string>)

  datatype CanonicalDocument = CanonicalDocument(
    header: DocumentHeader,
    contextSchema: Json,
    nodes: seq<Keyed<NodeBody>>,
    transitions: seq<Keyed<TransitionBody>>)

  /** An absent optional value and a JSON null serialize alike. */
  function AsJson(value: Option<Json>): Json {
    if value.None? then Null else value.value
  }

  function CanonicalNode(n: NodeDefinition, transitionsById: map<Uuid, TransitionDefinition>): Keyed<NodeBody> {
    var primary := PrimaryOf(transitionsById, n);
    Keyed(n.nodeKey,
          NodeBody(
            n.displayName,
            n.orderIndex,
            n.nodeType,
            if n.assigneeRef.Some? then Some(n.assigneeRef.value.refType) else None,
            if n.assigneeRef.Some? then n.assigneeRef.value.fixedPrincipalId else None,
            n.instructions,
            if primary.Some? then Some(primary.value.transitionKey) else None,
            AsJson(n.metadata)))
  }

  function NodeKey(nodesById: map<Uuid, NodeDefinition>, id: Uuid): string {
    if id in nodesById then nodesById[id].nodeKey else ""
  }

  function CanonicalTransition(t: TransitionDefinition, nodesById: map<Uuid, NodeDefinition>): Keyed<TransitionBody> {
    Keyed(t.transitionKey,
          TransitionBody(
            t.displayName,
            NodeKey(nodesById, t.sourceNodeId),
            NodeKey(nodesById, t.targetNodeId),
            t.transitionEffect,
            AsJson(t.submissionSchema),
            AsJson(t.metadata)))
  }

  function CanonicalNodes(nodes: seq<NodeDefinition>, transitionsById: map<Uuid, TransitionDefinition>)
    : (r: seq<Keyed<NodeBody>>)
    ensures |r| == |nodes| && forall i :: 0 <= i < |r| ==> r[i] == CanonicalNode(nodes[i], transitionsById)
  {
    if nodes == [] then []
    else [CanonicalNode(nodes[0], transitionsById)] + CanonicalNodes(nodes[1..], transitionsById)
  }

  function CanonicalTransitions(transitions: seq<TransitionDefinition>, nodesById: map<Uuid, NodeDefinition>)
    : (r: seq<Keyed<TransitionBody>>)
    ensures |r| == |transitions| && forall i :: 0 <= i < |r| ==> r[i] == CanonicalTransition(transitions[i], nodesById)
  {
    if transitions == [] then []
    else [CanonicalTransition(transitions[0], nodesById)] + CanonicalTransitions(transitions[1..], nodesById)
  }

  function ComputeDigest(header: DocumentHeader, g: WorkflowGraph): CanonicalDocument {
    CanonicalDocument(
      header,
      AsJson(g.contextSchema),
      SortByKey(CanonicalNodes(g.nodes, TransitionsById(g.transitions))),
      SortByKey(CanonicalTransitions(g.transitions, NodesById(g.nodes))))
  }

  // ----- The same graph up to renaming and permutation -----

  datatype Renaming = Renaming(nodes: map<Uuid, Uuid>, transitions: map<Uuid, Uuid>)

  predicate Injective(m: map<Uuid, Uuid>) {
    forall a, b :: a in m && b in m && m[a] == m[b] ==> a == b
  }

  /** `m` is `n` with its ids renamed; an absent JSON value counts as null. */
  predicate RenamesNode(r: Renaming, n: NodeDefinition, m: NodeDefinition) {
    && n.nodeId in r.nodes && m.nodeId == r.nodes[n.nodeId]
    && m.nodeKey == n.nodeKey && m.displayName == n.displayName && m.orderIndex == n.orderIndex
    && m.nodeType == n.nodeType && m.assigneeRef.Some? == n.assigneeRef.Some?
    && (n.assigneeRef.Some? ==> m.assigneeRef == n.assigneeRef)
    && m.instructions == n.instructions
    && m.primaryAdvanceTransitionId.Some? == n.primaryAdvanceTransitionId.Some?
    && (n.primaryAdvanceTransitionId.Some? ==>
          && n.primaryAdvanceTransitionId.value in r.transitions
          && m.primaryAdvanceTransitionId.value == r.transitions[n.primaryAdvanceTransitionId.value])
    && AsJson(m.metadata) == AsJson(n.metadata)
  }

  predicate RenamesTransition(r: Renaming, t: TransitionDefinition, u: TransitionDefinition) {
    && t.transitionId in r.transitions && u.transitionId == r.transitions[t.transitionId]
    && u.transitionKey == t.transitionKey && u.displayName == t.displayName
    && t.sourceNodeId in r.nodes && u.sourceNodeId == r.nodes[t.sourceNodeId]
    && t.targetNodeId in r.nodes && u.targetNodeId == r.nodes[t.targetNodeId]
    && u.transitionEffect == t.transitionEffect
    && AsJson(u.submissionSchema) == AsJson(t.submissionSchema)
    && AsJson(u.metadata) == AsJson(t.metadata)
  }

  predicate HasImage(r: Renaming, n: NodeDefinition, nodes: seq<NodeDefinition>) {
    exists m :: m in nodes && RenamesNode(r, n, m)
  }

  predicate HasPreimage(r: Renaming, nodes: seq<NodeDefinition>, m: NodeDefinition) {
    exists n :: n in nodes && RenamesNode(r, n, m)
  }

  predicate HasTransitionImage(r: Renaming, t: TransitionDefinition, transitions: seq<TransitionDefinition>) {
    exists u :: u in transitions && RenamesTransition(r, t, u)
  }

  predicate HasTransitionPreimage(r: Renaming, transitions: seq<TransitionDefinition>, u: TransitionDefinition) {
    exists t :: t in transitions && RenamesTransition(r, t, u)
  }

  /** Renaming `g` injectively and permuting its rows gives `h`. */
  predicate IsRenaming(r: Renaming, g: WorkflowGraph, h: WorkflowGraph) {
    && Injective(r.nodes) && Injective(r.transitions)
    && AsJson(g.contextSchema) == AsJson(h.contextSchema)
    && (forall n :: n in g.nodes ==> HasImage(r, n, h.nodes))
    && (forall m :: m in h.nodes ==> HasPreimage(r, g.nodes, m))
    && (forall t :: t in g.transitions ==> HasTransitionImage(r, t, h.transitions))
    && (forall u :: u in h.transitions ==> HasTransitionPreimage(r, g.transitions, u))
  }

  ghost predicate SameUpToRenaming(g: WorkflowGraph, h: WorkflowGraph) {
    exists r :: IsRenaming(r, g, h)
  }

  /** Rows that the definition tables can hold for one version. */
  predicate StoredShape(g: WorkflowGraph) {
    UniqueRows(g) && ResolvingReferences(g)
  }

  // ----- Equal documents from a renaming -----

  lemma RenamedNodeIsCanonicallyEqual(r: Renaming, g: WorkflowGraph, h: WorkflowGraph, n: NodeDefinition, m: NodeDefinition)
    requires StoredShape(g) && StoredShape(h) && IsRenaming(r, g, h)
    requires n in g.nodes && m in h.nodes && RenamesNode(r, n, m)
    ensures CanonicalNode(n, TransitionsById(g.transitions)) == CanonicalNode(m, TransitionsById(h.transitions))
  {
    if n.primaryAdvanceTransitionId.Some? {
      assert HasTransition(g, n.primaryAdvanceTransitionId.value);
      var t :| t in g.transitions && t.transitionId == n.primaryAdvanceTransitionId.value;
      assert HasTransitionImage(r, t, h.transitions);
      var u :| u in h.transitions && RenamesTransition(r, t, u);
      TransitionIsItsLookup(g.transitions, t);
      TransitionIsItsLookup(h.transitions, u);
    }
  }

  lemma RenamedKey(r: Renaming, g: WorkflowGraph, h: WorkflowGraph, id: Uuid)
    requires UniqueNodeIds(g.nodes) && UniqueNodeIds(h.nodes) && IsRenaming(r, g, h)
    requires HasNode(g, id) && id in r.nodes
    ensures NodeKey(NodesById(g.nodes), id) == NodeKey(NodesById(h.nodes), r.nodes[id])
  {
    var n :| n in g.nodes && n.nodeId == id;
    assert HasImage(r, n, h.nodes);
    var m :| m in h.nodes && RenamesNode(r, n, m);
    NodeIsItsLookup(g.nodes, n);
    NodeIsItsLookup(h.nodes, m);
  }

  lemma RenamedTransitionIsCanonicallyEqual(r: Renaming, g: WorkflowGraph, h: WorkflowGraph,
                                            t: TransitionDefinition, u: TransitionDefinition)
    requires StoredShape(g) && StoredShape(h) && IsRenaming(r, g, h)
    requires t in g.transitions && u in h.transitions && RenamesTransition(r, t, u)
    ensures CanonicalTransition(t, NodesById(g.nodes)) == CanonicalTransition(u, NodesById(h.nodes))
  {
    RenamedKey(r, g, h, t.sourceNodeId);
    RenamedKey(r, g, h, t.targetNodeId);
  }

  lemma CanonicalNodeListed(nodes: seq<NodeDefinition>, transitionsById: map<Uuid, TransitionDefinition>, n: NodeDefinition)
    requires n in nodes
    ensures CanonicalNode(n, transitionsById) in CanonicalNodes(nodes, transitionsById)
  {
    var i :| 0 <= i < |nodes| && nodes[i] == n;
    assert CanonicalNodes(nodes, transitionsById)[i] == CanonicalNode(n, transitionsById);
  }

  lemma RenamedNodeListed(r: Renaming, g: WorkflowGraph, h: WorkflowGraph, n: NodeDefinition)
    requires StoredShape(g) && StoredShape(h) && IsRenaming(r, g, h) && n in g.nodes
    ensures CanonicalNode(n, TransitionsById(g.transitions)) in CanonicalNodes(h.nodes, TransitionsById(h.transitions))
  {
    assert HasImage(r, n, h.nodes);
    var m :| m in h.nodes && RenamesNode(r, n, m);
    RenamedNodeIsCanonicallyEqual(r, g, h, n, m);
    CanonicalNodeListed(h.nodes, TransitionsById(h.transitions), m);
  }

  lemma OriginalNodeListed(r: Renaming, g: WorkflowGraph, h: WorkflowGraph, m: NodeDefinition)
    requires StoredShape(g) && StoredShape(h) && IsRenaming(r, g, h) && m in h.nodes
    ensures CanonicalNode(m, TransitionsById(h.transitions)) in CanonicalNodes(g.nodes, TransitionsById(g.transitions))
  {
    assert HasPreimage(r, g.nodes, m);
    var n :| n in g.nodes && RenamesNode(r, n, m);
    RenamedNodeIsCanonicallyEqual(r, g, h, n, m);
    CanonicalNodeListed(g.nodes, TransitionsById(g.transitions), n);
  }

  lemma RenamedNodesAreCanonicallyEqual(r: Renaming, g: WorkflowGraph, h: WorkflowGraph)
    requires StoredShape(g) && StoredShape(h) && IsRenaming(r, g, h)
    ensures SameElements(CanonicalNodes(g.nodes, TransitionsById(g.transitions)),
                         CanonicalNodes(h.nodes, TransitionsById(h.transitions)))
  {
    var a := CanonicalNodes(g.nodes, TransitionsById(g.transitions));
    var b := CanonicalNodes(h.nodes, TransitionsById(h.transitions));
    forall i | 0 <= i < |a| ensures a[i] in b { RenamedNodeListed(r, g, h, g.nodes[i]); }
    forall j | 0 <= j < |b| ensures b[j] in a { OriginalNodeListed(r, g, h, h.nodes[j]); }
  }

  lemma CanonicalTransitionListed(transitions: seq<TransitionDefinition>, nodesById: map<Uuid, NodeDefinition>,
                                  t: TransitionDefinition)
    requires t in transitions
    ensures CanonicalTransition(t, nodesById) in CanonicalTransitions(transitions, nodesById)
  {
    var i :| 0 <= i < |transitions| && transitions[i] == t;
    assert CanonicalTransitions(transitions, nodesById)[i] == CanonicalTransition(t, nodesById);
  }

  lemma RenamedTransitionListed(r: Renaming, g: WorkflowGraph, h: WorkflowGraph, t: TransitionDefinition)
    requires StoredShape(g) && StoredShape(h) && IsRenaming(r, g, h) && t in g.transitions
    ensures CanonicalTransition(t, NodesById(g.nodes)) in CanonicalTransitions(h.transitions, NodesById(h.nodes))
  {
    assert HasTransitionImage(r, t, h.transitions);
    var u :| u in h.transitions && RenamesTransition(r, t, u);
    RenamedTransitionIsCanonicallyEqual(r, g, h, t, u);
    CanonicalTransitionListed(h.transitions, NodesById(h.nodes), u);
  }

  lemma OriginalTransitionListed(r: Renaming, g: WorkflowGraph, h: WorkflowGraph, u: TransitionDefinition)
    requires StoredShape(g) && StoredShape(h) && IsRenaming(r, g, h) && u in h.transitions
    ensures CanonicalTransition(u, NodesById(h.nodes)) in CanonicalTransitions(g.transitions, NodesById(g.nodes))
  {
    assert HasTransitionPreimage(r, g.transitions, u);
    var t :| t in g.transitions && RenamesTransition(r, t, u);
    RenamedTransitionIsCanonicallyEqual(r, g, h, t, u);
    CanonicalTransitionListed(g.transitions, NodesById(g.nodes), t);
  }

  lemma RenamedTransitionsAreCanonicallyEqual(r: Renaming, g: WorkflowGraph, h: WorkflowGraph)
    requires StoredShape(g) && StoredShape(h) && IsRenaming(r, g, h)
    ensures SameElements(CanonicalTransitions(g.transitions, NodesById(g.nodes)),
                         CanonicalTransitions(h.transitions, NodesById(h.nodes)))
  {
    var a := CanonicalTransitions(g.transitions, NodesById(g.nodes));
    var b := CanonicalTransitions(h.transitions, NodesById(h.nodes));
    forall i | 0 <= i < |a| ensures a[i] in b { RenamedTransitionListed(r, g, h, g.transitions[i]); }
    forall j | 0 <= j < |b| ensures b[j] in a { OriginalTransitionListed(r, g, h, h.transitions[j]); }
  }

  lemma DocumentsEqualIff(header: DocumentHeader, g: WorkflowGraph, h: WorkflowGraph)
    requires UniqueRows(g) && UniqueRows(h)
    ensures ComputeDigest(header, g) == ComputeDigest(header, h) <==>
              && AsJson(g.contextSchema) == AsJson(h.contextSchema)
              && SameElements(CanonicalNodes(g.nodes, TransitionsById(g.transitions)),
                              CanonicalNodes(h.nodes, TransitionsById(h.transitions)))
              && SameElements(CanonicalTransitions(g.transitions, NodesById(g.nodes)),
                              CanonicalTransitions(h.transitions, NodesById(h.nodes)))
  {
    SortByKeyEqualIff(CanonicalNodes(g.nodes, TransitionsById(g.transitions)),
                      CanonicalNodes(h.nodes, TransitionsById(h.transitions)));
    SortByKeyEqualIff(CanonicalTransitions(g.transitions, NodesById(g.nodes)),
                      CanonicalTransitions(h.transitions, NodesById(h.nodes)));
  }

  // ----- A renaming from equal documents -----

  function NodeIdOfKey(nodes: seq<NodeDefinition>, key: string): Uuid {
    if nodes == [] then 0
    else if nodes[|nodes| - 1].nodeKey == key then nodes[|nodes| - 1].nodeId
    else NodeIdOfKey(nodes[..|nodes| - 1], key)
  }

  lemma {:induction false} NodeIdOfItsKey(nodes: seq<NodeDefinition>, n: NodeDefinition)
    requires UniqueNodeKeys(nodes) && n in nodes
    ensures NodeIdOfKey(nodes, n.nodeKey) == n.nodeId
  {
    var before, last := nodes[..|nodes| - 1], nodes[|nodes| - 1];
    assert nodes == before + [last];
    if n in before {
      var i :| 0 <= i < |before| && before[i] == n;
      NodeIdOfItsKey(before, n);
    }
  }

  function TransitionIdOfKey(transitions: seq<TransitionDefinition>, key: string): Uuid {
    if transitions == [] then 0
    else if transitions[|transitions| - 1].transitionKey == key then transitions[|transitions| - 1].transitionId
    else TransitionIdOfKey(transitions[..|transitions| - 1], key)
  }

  lemma {:induction false} TransitionIdOfItsKey(transitions: seq<TransitionDefinition>, t: TransitionDefinition)
    requires UniqueTransitionKeys(transitions) && t in transitions
    ensures TransitionIdOfKey(transitions, t.transitionKey) == t.transitionId
  {
    var before, last := transitions[..|transitions| - 1], transitions[|transitions| - 1];
    assert transitions == before + [last];
    if t in before {
      var i :| 0 <= i < |before| && before[i] == t;
      TransitionIdOfItsKey(before, t);
    }
  }

  /** The renaming that sends an id of `g` to the id of the same key in `h`. */
  function RenamingByKey(g: WorkflowGraph, h: WorkflowGraph): Renaming {
    var byId, ts := NodesById(g.nodes), TransitionsById(g.transitions);
    Renaming(map id | id in byId :: NodeIdOfKey(h.nodes, byId[id].nodeKey),
             map id | id in ts :: TransitionIdOfKey(h.transitions, ts[id].transitionKey))
  }

  lemma EqualNodesAreRenamed(g: WorkflowGraph, h: WorkflowGraph, n: NodeDefinition, m: NodeDefinition)
    requires StoredShape(g) && StoredShape(h) && n in g.nodes && m in h.nodes
    requires CanonicalNode(n, TransitionsById(g.transitions)) == CanonicalNode(m, TransitionsById(h.transitions))
    ensures RenamesNode(RenamingByKey(g, h), n, m)
  {
    NodeIsItsLookup(g.nodes, n);
    NodeIdOfItsKey(h.nodes, m);
    assert n.primaryAdvanceTransitionId.Some? ==> HasTransition(g, n.primaryAdvanceTransitionId.value);
    assert m.primaryAdvanceTransitionId.Some? ==> HasTransition(h, m.primaryAdvanceTransitionId.value);
    if n.primaryAdvanceTransitionId.Some? {
      var t := TransitionsById(g.transitions)[n.primaryAdvanceTransitionId.value];
      var u := TransitionsById(h.transitions)[m.primaryAdvanceTransitionId.value];
      TransitionIdOfItsKey(h.transitions, u);
    }
  }

  lemma EqualTransitionsAreRenamed(g: WorkflowGraph, h: WorkflowGraph, t: TransitionDefinition, u: TransitionDefinition)
    requires StoredShape(g) && StoredShape(h) && t in g.transitions && u in h.transitions
    requires CanonicalTransition(t, NodesById(g.nodes)) == CanonicalTransition(u, NodesById(h.nodes))
    ensures RenamesTransition(RenamingByKey(g, h), t, u)
  {
    TransitionIsItsLookup(g.transitions, t);
    TransitionIdOfItsKey(h.transitions, u);
    assert HasNode(g, t.sourceNodeId) && HasNode(g, t.targetNodeId);
    assert HasNode(h, u.sourceNodeId) && HasNode(h, u.targetNodeId);
    NodeIdOfItsKey(h.nodes, NodesById(h.nodes)[u.sourceNodeId]);
    NodeIdOfItsKey(h.nodes, NodesById(h.nodes)[u.targetNodeId]);
  }

  lemma NodeCounterpart(g: WorkflowGraph, h: WorkflowGraph, n: NodeDefinition) returns (m: NodeDefinition)
    requires SameElements(CanonicalNodes(g.nodes, TransitionsById(g.transitions)),
                          CanonicalNodes(h.nodes, TransitionsById(h.transitions)))
    requires n in g.nodes
    ensures m in h.nodes
    ensures CanonicalNode(n, TransitionsById(g.transitions)) == CanonicalNode(m, TransitionsById(h.transitions))
  {
    var a := CanonicalNodes(g.nodes, TransitionsById(g.transitions));
    var b := CanonicalNodes(h.nodes, TransitionsById(h.transitions));
    var i :| 0 <= i < |g.nodes| && g.nodes[i] == n;
    assert a[i] in b;
    var j :| 0 <= j < |b| && b[j] == a[i];
    m := h.nodes[j];
  }

  lemma TransitionCounterpart(g: WorkflowGraph, h: WorkflowGraph, t: TransitionDefinition) returns (u: TransitionDefinition)
    requires SameElements(CanonicalTransitions(g.transitions, NodesById(g.nodes)),
                          CanonicalTransitions(h.transitions, NodesById(h.nodes)))
    requires t in g.transitions
    ensures u in h.transitions
    ensures CanonicalTransition(t, NodesById(g.nodes)) == CanonicalTransition(u, NodesById(h.nodes))
  {
    var a := CanonicalTransitions(g.transitions, NodesById(g.nodes));
    var b := CanonicalTransitions(h.transitions, NodesById(h.nodes));
    var i :| 0 <= i < |g.transitions| && g.transitions[i] == t;
    assert a[i] in b;
    var j :| 0 <= j < |b| && b[j] == a[i];
    u := h.transitions[j];
  }

  lemma KeyRenamingIsInjective(g: WorkflowGraph, h: WorkflowGraph)
    requires StoredShape(g) && StoredShape(h)
    requires SameElements(CanonicalNodes(g.nodes, TransitionsById(g.transitions)),
                          CanonicalNodes(h.nodes, TransitionsById(h.transitions)))
    requires SameElements(CanonicalTransitions(g.transitions, NodesById(g.nodes)),
                          CanonicalTransitions(h.transitions, NodesById(h.nodes)))
    ensures Injective(RenamingByKey(g, h).nodes) && Injective(RenamingByKey(g, h).transitions)
  {
    var r := RenamingByKey(g, h);
    var byId, ts := NodesById(g.nodes), TransitionsById(g.transitions);
    forall a, b | a in r.nodes && b in r.nodes && r.nodes[a] == r.nodes[b]
      ensures a == b
    {
      var m := NodeCounterpart(g, h, byId[a]);
      var k := NodeCounterpart(g, h, byId[b]);
      NodeIdOfItsKey(h.nodes, m);
      NodeIdOfItsKey(h.nodes, k);
      NodeIsItsLookup(h.nodes, m);
      NodeIsItsLookup(h.nodes, k);
      NodeIdOfItsKey(g.nodes, byId[a]);
      NodeIdOfItsKey(g.nodes, byId[b]);
    }
    forall a, b | a in r.transitions && b in r.transitions && r.transitions[a] == r.transitions[b]
      ensures a == b
    {
      var u := TransitionCounterpart(g, h, ts[a]);
      var v := TransitionCounterpart(g, h, ts[b]);
      TransitionIdOfItsKey(h.transitions, u);
      TransitionIdOfItsKey(h.transitions, v);
      TransitionIsItsLookup(h.transitions, u);
      TransitionIsItsLookup(h.transitions, v);
      TransitionIdOfItsKey(g.transitions, ts[a]);
      TransitionIdOfItsKey(g.transitions, ts[b]);
    }
  }

  lemma EqualDocumentsAreRenamed(header: DocumentHeader, g: WorkflowGraph, h: WorkflowGraph)
    requires StoredShape(g) && StoredShape(h) && ComputeDigest(header, g) == ComputeDigest(header, h)
    ensures IsRenaming(RenamingByKey(g, h), g, h)
  {
    hide CanonicalNode, CanonicalTransition, CanonicalNodes, CanonicalTransitions, RenamesNode, RenamesTransition,
         RenamingByKey, ComputeDigest, UniqueRows, ResolvingReferences, NodesById, TransitionsById, Injective;
    var r := RenamingByKey(g, h);
    DocumentsEqualIff(header, g, h);
    KeyRenamingIsInjective(g, h);
    forall n | n in g.nodes ensures HasImage(r, n, h.nodes) {
      var m := NodeCounterpart(g, h, n);
      EqualNodesAreRenamed(g, h, n, m);
    }
    forall m | m in h.nodes ensures HasPreimage(r, g.nodes, m) {
      var n := NodeCounterpart(h, g, m);
      EqualNodesAreRenamed(g, h, n, m);
    }
    forall t | t in g.transitions ensures HasTransitionImage(r, t, h.transitions) {
      var u := TransitionCounterpart(g, h, t);
      EqualTransitionsAreRenamed(g, h, t, u);
    }
    forall u | u in h.transitions ensures HasTransitionPreimage(r, g.transitions, u) {
      var t := TransitionCounterpart(h, g, u);
      EqualTransitionsAreRenamed(g, h, t, u);
    }
  }

  /** Canonical form is faithful: equal documents are exactly the graphs equal up to ids and row order. */
  lemma DigestIsFaithful(header: DocumentHeader, g: WorkflowGraph, h: WorkflowGraph)
    requires StoredShape(g) && StoredShape(h)
    ensures ComputeDigest(header, g) == ComputeDigest(header, h) <==> SameUpToRenaming(g, h)
  {
    if ComputeDigest(header, g) == ComputeDigest(header, h) {
      EqualDocumentsAreRenamed(header, g, h);
    }
    if SameUpToRenaming(g, h) {
      var r :| IsRenaming(r, g, h);
      RenamedNodesAreCanonicallyEqual(r, g, h);
      RenamedTransitionsAreCanonicallyEqual(r, g, h);
      DocumentsEqualIff(header, g, h);
    }
  }

  // ----- The verdict depends only on the document -----

  lemma RenamedEdge(r: Renaming, g: WorkflowGraph, h: WorkflowGraph, a: Uuid, b: Uuid)
    requires IsRenaming(r, g, h) && Edge(g.transitions, a, b) && a in r.nodes
    ensures b in r.nodes && Edge(h.transitions, r.nodes[a], r.nodes[b])
  {
    hide Injective, HasImage, HasPreimage, HasTransitionPreimage;
    var t :| t in g.transitions && t.sourceNodeId == a && t.targetNodeId == b;
    assert HasTransitionImage(r, t, h.transitions);
    var u :| u in h.transitions && RenamesTransition(r, t, u);
  }

  lemma {:induction false} RenamedPath(r: Renaming, g: WorkflowGraph, h: WorkflowGraph, path: seq<Uuid>)
    returns (renamed: seq<Uuid>)
    requires IsRenaming(r, g, h) && IsPath(g.transitions, path) && path[0] in r.nodes
    ensures IsPath(h.transitions, renamed) && renamed[0] == r.nodes[path[0]]
    ensures path[|path| - 1] in r.nodes && renamed[|renamed| - 1] == r.nodes[path[|path| - 1]]
  {
    hide IsRenaming, Edge;
    if |path| == 1 {
      renamed := [r.nodes[path[0]]];
    } else {
      var rest := RenamedPath(r, g, h, path[..|path| - 1]);
      RenamedEdge(r, g, h, path[|path| - 2], path[|path| - 1]);
      renamed := rest + [r.nodes[path[|path| - 1]]];
    }
  }

  lemma RenamedReach(r: Renaming, g: WorkflowGraph, h: WorkflowGraph, a: Uuid, b: Uuid)
    requires IsRenaming(r, g, h) && Reaches(g.transitions, a, b) && a in r.nodes
    ensures b in r.nodes && Reaches(h.transitions, r.nodes[a], r.nodes[b])
  {
    var path :| IsPath(g.transitions, path) && path[0] == a && path[|path| - 1] == b;
    var renamed := RenamedPath(r, g, h, path);
  }

  /** The image of a node, unique because ids are. */
  lemma ImageOf(r: Renaming, g: WorkflowGraph, h: WorkflowGraph, n: NodeDefinition) returns (m: NodeDefinition)
    requires StoredShape(h) && IsRenaming(r, g, h) && n in g.nodes
    ensures m in h.nodes && RenamesNode(r, n, m)
    ensures forall k :: k in h.nodes && RenamesNode(r, n, k) ==> k == m
  {
    assert HasImage(r, n, h.nodes);
    m :| m in h.nodes && RenamesNode(r, n, m);
    NodeIsItsLookup(h.nodes, m);
    forall k | k in h.nodes && RenamesNode(r, n, k)
      ensures k == m
    {
      NodeIsItsLookup(h.nodes, k);
    }
  }

  lemma RenamedDraft(r: Renaming, g: WorkflowGraph, h: WorkflowGraph)
    requires StoredShape(h) && IsRenaming(r, g, h) && OneDraft(g.nodes)
    ensures OneDraft(h.nodes)
  {
    var d :| d in g.nodes && IsOnlyDraft(g.nodes, d);
    var m := ImageOf(r, g, h, d);
    forall k | k in h.nodes && k.nodeType.DRAFT?
      ensures k == m
    {
      assert HasPreimage(r, g.nodes, k);
    }
    assert IsOnlyDraft(h.nodes, m);
  }

  lemma OrderTellsNodesApart(nodes: seq<NodeDefinition>, a: NodeDefinition, b: NodeDefinition)
    requires DistinctOrder(nodes) && a in nodes && b in nodes && a.orderIndex == b.orderIndex
    ensures a == b
  {
  }

  lemma RenamedOrder(r: Renaming, g: WorkflowGraph, h: WorkflowGraph, i: nat, j: nat)
    requires UniqueNodeIds(h.nodes) && DistinctOrder(g.nodes) && i < j < |h.nodes|
    requires HasPreimage(r, g.nodes, h.nodes[i]) && HasPreimage(r, g.nodes, h.nodes[j])
    ensures h.nodes[i].orderIndex != h.nodes[j].orderIndex
  {
    var a :| a in g.nodes && RenamesNode(r, a, h.nodes[i]);
    var b :| b in g.nodes && RenamesNode(r, b, h.nodes[j]);
    if a.orderIndex == b.orderIndex {
      OrderTellsNodesApart(g.nodes, a, b);
    }
  }

  lemma RenamedShape(r: Renaming, g: WorkflowGraph, h: WorkflowGraph)
    requires StoredShape(h) && IsRenaming(r, g, h) && WellFormed(g)
    ensures OneDraft(h.nodes) && DistinctOrder(h.nodes)
    ensures exists m :: m in h.nodes && m.nodeType.TERMINAL?
  {
    RenamedDraft(r, g, h);
    var terminal :| terminal in g.nodes && terminal.nodeType.TERMINAL?;
    var image := ImageOf(r, g, h, terminal);
    forall i, j | 0 <= i < j < |h.nodes|
      ensures h.nodes[i].orderIndex != h.nodes[j].orderIndex
    {
      assert h.nodes[i] in h.nodes && h.nodes[j] in h.nodes;
      RenamedOrder(r, g, h, i, j);
    }
  }

  lemma RenamedPrimary(r: Renaming, g: WorkflowGraph, h: WorkflowGraph, n: NodeDefinition, m: NodeDefinition)
    requires StoredShape(g) && StoredShape(h) && IsRenaming(r, g, h)
    requires n in g.nodes && m in h.nodes && RenamesNode(r, n, m) && LegalPrimary(g, n)
    ensures LegalPrimary(h, m)
  {
    if !n.nodeType.TERMINAL? {
      var target :| target in g.nodes && IsPrimaryEdge(g.transitions, n, target);
      var t :| t in g.transitions && IsPrimaryStep(n, t, target);
      var image := ImageOf(r, g, h, target);
      assert HasTransitionImage(r, t, h.transitions);
      var u :| u in h.transitions && RenamesTransition(r, t, u);
      assert IsPrimaryStep(m, u, image);
      assert IsPrimaryEdge(h.transitions, m, image);
    }
  }

  lemma RenamedTransition(r: Renaming, g: WorkflowGraph, h: WorkflowGraph, t: TransitionDefinition, u: TransitionDefinition)
    requires StoredShape(g) && StoredShape(h) && IsRenaming(r, g, h)
    requires t in g.transitions && u in h.transitions && RenamesTransition(r, t, u) && LegalTransition(g, t)
    ensures LegalTransition(h, u)
  {
    var source, target :| source in g.nodes && target in g.nodes && LegalEndpoints(t, source, target);
    var a := ImageOf(r, g, h, source);
    var b := ImageOf(r, g, h, target);
    assert LegalEndpoints(u, a, b);
  }

  lemma RenamedNode(r: Renaming, g: WorkflowGraph, h: WorkflowGraph, m: NodeDefinition)
    requires StoredShape(g) && StoredShape(h) && IsRenaming(r, g, h) && WellFormed(g) && m in h.nodes
    ensures LegalAssignee(m) && LegalPrimary(h, m)
    ensures forall d :: d in h.nodes && d.nodeType.DRAFT? ==> Reaches(h.transitions, d.nodeId, m.nodeId)
  {
    assert HasPreimage(r, g.nodes, m);
    var n :| n in g.nodes && RenamesNode(r, n, m);
    assert LegalAssignee(n) && LegalPrimary(g, n);
    RenamedPrimary(r, g, h, n, m);
    forall d | d in h.nodes && d.nodeType.DRAFT?
      ensures Reaches(h.transitions, d.nodeId, m.nodeId)
    {
      assert HasPreimage(r, g.nodes, d);
      var draft :| draft in g.nodes && RenamesNode(r, draft, d);
      RenamedReach(r, g, h, draft.nodeId, n.nodeId);
    }
  }

  lemma RenamedIsWellFormed(r: Renaming, g: WorkflowGraph, h: WorkflowGraph)
    requires StoredShape(g) && StoredShape(h) && IsRenaming(r, g, h) && WellFormed(g)
    ensures WellFormed(h)
  {
    RenamedShape(r, g, h);
    forall m | m in h.nodes
      ensures LegalAssignee(m) && LegalPrimary(h, m)
      ensures forall d :: d in h.nodes && d.nodeType.DRAFT? ==> Reaches(h.transitions, d.nodeId, m.nodeId)
    {
      RenamedNode(r, g, h, m);
    }
    forall u | u in h.transitions
      ensures LegalTransition(h, u)
    {
      assert HasTransitionPreimage(r, g.transitions, u);
      var t :| t in g.transitions && RenamesTransition(r, t, u);
      RenamedTransition(r, g, h, t, u);
    }
  }

  /** Equal canonical documents get the same verdict from the validator. */
  lemma SameDigestSameVerdict(header: DocumentHeader, g: WorkflowGraph, h: WorkflowGraph)
    requires StoredShape(g) && StoredShape(h) && ComputeDigest(header, g) == ComputeDigest(header, h)
    ensures Accepts(g) <==> Accepts(h)
  {
    EqualDocumentsAreRenamed(header, g, h);
    EqualDocumentsAreRenamed(header, h, g);
    AcceptsIffWellFormed(g);
    AcceptsIffWellFormed(h);
    if WellFormed(g) {
      RenamedIsWellFormed(RenamingByKey(g, h), g, h);
    }
    if WellFormed(h) {
      RenamedIsWellFormed(RenamingByKey(h, g), h, g);
    }
  }

  /** Every graph has a twin of the same digest: an absent context schema and JSON null are not told apart. */
  lemma AbsentAndNullShareADigest(header: DocumentHeader, g: WorkflowGraph)
    ensures var absent, present := g.(contextSchema := None), g.(contextSchema := Some(Null));
      absent != present && ComputeDigest(header, absent) == ComputeDigest(header, present)
  {
  }
}
