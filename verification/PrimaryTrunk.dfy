/**
 The primary map of a graph sends a non-terminal node to the target of its primary transition.
 This module holds the two walks over it: cycle detection, whose start order is the iteration
 order of a hash map, and the trunk walk from the DRAFT node.
 */
module PrimaryTrunk {
  import opened Prelude
  import opened DefinitionModel
  import opened GraphErrors

  type PrimaryMap = map<Uuid, Uuid>

  predicate Distinct(s: seq<Uuid>) {
    forall i, j :: 0 <= i < j < |s| ==> s[i] != s[j]
  }

  /** Consecutive elements follow the map. */
  ghost predicate IsChain(f: PrimaryMap, s: seq<Uuid>) {
    forall i {:trigger s[i]} :: 0 <= i < |s| - 1 ==> s[i] in f && f[s[i]] == s[i + 1]
  }

  ghost predicate IsCycle(f: PrimaryMap, c: seq<Uuid>) {
    && |c| > 0
    && Distinct(c)
    && IsChain(f, c)
    && c[|c| - 1] in f
    && f[c[|c| - 1]] == c[0]
  }

  ghost predicate Closed(f: PrimaryMap, s: set<Uuid>) {
    forall x :: x in s && x in f ==> f[x] in s
  }

  function Elements(s: seq<Uuid>): set<Uuid> {
    set x | x in s
  }

  lemma {:induction false} ChainStaysOnClosedSet(f: PrimaryMap, s: seq<Uuid>, i: nat, j: nat, closed: set<Uuid>)
    requires IsChain(f, s) && i <= j < |s| && s[i] in closed && Closed(f, closed)
    ensures s[j] in closed
  {
    if i < j {
      ChainStaysOnClosedSet(f, s, i, j - 1, closed);
      var previous := s[j - 1];
      assert f[previous] == s[j];
      assert f[previous] in closed;
    }
  }

  lemma CycleIsClosed(f: PrimaryMap, c: seq<Uuid>)
    requires IsCycle(f, c)
    ensures Closed(f, Elements(c)) && Elements(c) <= f.Keys
  {
    forall x | x in Elements(c)
      ensures x in f && f[x] in Elements(c)
    {
      var i :| 0 <= i < |c| && c[i] == x;
      if i < |c| - 1 {
        assert f[c[i]] == c[i + 1];
      }
    }
  }

  /** A closed set that meets a cycle contains it. */
  lemma ClosedSetSwallowsCycle(f: PrimaryMap, c: seq<Uuid>, closed: set<Uuid>, x: Uuid)
    requires IsCycle(f, c) && Closed(f, closed) && x in c && x in closed
    ensures Elements(c) <= closed
  {
    var i :| 0 <= i < |c| && c[i] == x;
    ChainStaysOnClosedSet(f, c, i, |c| - 1, closed);
    forall j | 0 <= j < |c|
      ensures c[j] in closed
    {
      ChainStaysOnClosedSet(f, c, 0, j, closed);
    }
  }

  /** Two cycles that share a node have the same nodes. */
  lemma CyclesCoincide(f: PrimaryMap, c: seq<Uuid>, d: seq<Uuid>, x: Uuid)
    requires IsCycle(f, c) && IsCycle(f, d) && x in c && x in d
    ensures Elements(c) == Elements(d)
  {
    CycleIsClosed(f, c);
    CycleIsClosed(f, d);
    ClosedSetSwallowsCycle(f, c, Elements(d), x);
    ClosedSetSwallowsCycle(f, d, Elements(c), x);
  }

  /**
   `cycles` lists every cycle of the map exactly once: each entry is a cycle, entries are
   disjoint, and every node on any cycle of the map is in an entry.
   */
  ghost predicate ListsEveryCycleOnce(f: PrimaryMap, cycles: seq<seq<Uuid>>) {
    && (forall k :: 0 <= k < |cycles| ==> IsCycle(f, cycles[k]))
    && (forall k, l :: 0 <= k < l < |cycles| ==> Elements(cycles[k]) !! Elements(cycles[l]))
    && (forall c :: IsCycle(f, c) ==> exists k :: 0 <= k < |cycles| && Elements(cycles[k]) == Elements(c))
  }

  function KeyOf(nodesById: map<Uuid, NodeDefinition>, id: Uuid): string {
    if id in nodesById then nodesById[id].nodeKey else "?"
  }

  function KeysOf(nodesById: map<Uuid, NodeDefinition>, ids: seq<Uuid>): (keys: seq<string>)
    ensures |keys| == |ids| && forall i :: 0 <= i < |ids| ==> keys[i] == KeyOf(nodesById, ids[i])
  {
    if ids == [] then [] else [KeyOf(nodesById, ids[0])] + KeysOf(nodesById, ids[1..])
  }

  function CycleErrors(nodesById: map<Uuid, NodeDefinition>, cycles: seq<seq<Uuid>>): (errors: seq<GraphError>)
    ensures |errors| == |cycles|
    ensures forall k :: 0 <= k < |errors| ==> errors[k] == PrimaryCycle(KeysOf(nodesById, cycles[k]))
  {
    if cycles == [] then []
    else CycleErrors(nodesById, cycles[..|cycles| - 1]) + [PrimaryCycle(KeysOf(nodesById, cycles[|cycles| - 1]))]
  }

  lemma CycleErrorsSnoc(nodesById: map<Uuid, NodeDefinition>, cycles: seq<seq<Uuid>>, cycle: seq<Uuid>,
                        errors0: seq<GraphError>)
    ensures errors0 + CycleErrors(nodesById, cycles + [cycle])
         == errors0 + CycleErrors(nodesById, cycles) + [PrimaryCycle(KeysOf(nodesById, cycle))]
  {
    assert (cycles + [cycle])[..|cycles|] == cycles;
  }

  /** What the outer loop keeps: the visited set is closed and holds exactly the cycles found. */
  ghost predicate VisitedInv(f: PrimaryMap, visited: set<Uuid>, cycles: seq<seq<Uuid>>) {
    && Closed(f, visited)
    && (forall k :: 0 <= k < |cycles| ==> IsCycle(f, cycles[k]) && Elements(cycles[k]) <= visited)
    && (forall k, l :: 0 <= k < l < |cycles| ==> Elements(cycles[k]) !! Elements(cycles[l]))
    && (forall c :: IsCycle(f, c) && c[0] in visited ==>
          exists k :: 0 <= k < |cycles| && Elements(cycles[k]) == Elements(c))
  }

  ghost predicate DeadEnd(f: PrimaryMap, visited: set<Uuid>, last: Uuid) {
    last !in f || f[last] in visited
  }

  /** What the inner loop keeps: the path is a chain of fresh nodes that leads to `current`. */
  ghost predicate PathInv(f: PrimaryMap, visited: set<Uuid>, path: seq<Uuid>, current: Uuid) {
    && Distinct(path)
    && Elements(path) !! visited
    && IsChain(f, path + [current])
  }

  /** The path ended before a visited node or on a node without a primary target: no new cycle. */
  lemma AbsorbDeadPath(f: PrimaryMap, visited: set<Uuid>, cycles: seq<seq<Uuid>>, path: seq<Uuid>)
    requires VisitedInv(f, visited, cycles)
    requires path != [] && IsChain(f, path) && DeadEnd(f, visited, path[|path| - 1])
    ensures VisitedInv(f, visited + Elements(path), cycles)
  {
    forall x | x in Elements(path) && x in f
      ensures f[x] in visited + Elements(path)
    {
      var i :| 0 <= i < |path| && path[i] == x;
      if i < |path| - 1 {
        assert f[path[i]] == path[i + 1];
      }
    }
    forall c | IsCycle(f, c) && c[0] in visited + Elements(path)
      ensures exists k :: 0 <= k < |cycles| && Elements(cycles[k]) == Elements(c)
    {
      CycleIsClosed(f, c);
      if c[0] !in visited {
        var i :| 0 <= i < |path| && path[i] == c[0];
        ChainStaysOnClosedSet(f, path, i, |path| - 1, Elements(c));
        ClosedSetSwallowsCycle(f, c, visited, f[path[|path| - 1]]);
      }
    }
  }

  /** The path ran into itself: its tail is a new cycle, the only new one. */
  lemma AbsorbCyclicPath(f: PrimaryMap, visited: set<Uuid>, cycles: seq<seq<Uuid>>, path: seq<Uuid>, start: nat)
    requires VisitedInv(f, visited, cycles)
    requires start < |path| && PathInv(f, visited, path, path[start])
    ensures IsCycle(f, path[start..])
    ensures VisitedInv(f, visited + Elements(path), cycles + [path[start..]])
  {
    var found := path[start..];
    var chain := path + [path[start]];
    forall i | 0 <= i < |path|
      ensures path[i] in f && f[path[i]] == chain[i + 1]
    {
      assert chain[i] == path[i];
    }
    assert IsCycle(f, found);
    var cycles' := cycles + [found];
    assert cycles'[|cycles|] == found;
    forall c | IsCycle(f, c) && c[0] in visited + Elements(path)
      ensures exists k :: 0 <= k < |cycles'| && Elements(cycles'[k]) == Elements(c)
    {
      if c[0] in visited {
        var k :| 0 <= k < |cycles| && Elements(cycles[k]) == Elements(c);
        assert cycles'[k] == cycles[k];
      } else {
        CycleIsClosed(f, c);
        var i :| 0 <= i < |path| && path[i] == c[0];
        ChainStaysOnClosedSet(f, chain, i, |chain| - 1, Elements(c));
        assert found[0] == path[start];
        CyclesCoincide(f, c, found, path[start]);
      }
    }
  }

  lemma AllVisited(f: PrimaryMap, visited: set<Uuid>, cycles: seq<seq<Uuid>>)
    requires VisitedInv(f, visited, cycles) && f.Keys <= visited
    ensures ListsEveryCycleOnce(f, cycles)
  {
    forall c | IsCycle(f, c)
      ensures c[0] in visited
    {
      CycleIsClosed(f, c);
    }
  }

  /** The position of the first occurrence. */
  method Position(s: seq<Uuid>, x: Uuid) returns (i: nat)
    requires x in s
    ensures i < |s| && s[i] == x
  {
    i := 0;
    while s[i] != x
      invariant i < |s| && x in s[i..]
      decreases |s| - i
    {
      i := i + 1;
    }
  }

  /**
   One round of the detection: follow the map from a fresh start node until the path runs into
   itself, into a visited node, or out of the map. The result is the path and, in the first case,
   the index at which its cycle begins.
   */
  method WalkPath(primaryTargets: PrimaryMap, visited: set<Uuid>, startNode: Uuid)
    returns (path: seq<Uuid>, cycleStart: Option<nat>)
    requires startNode !in visited
    ensures path != [] && path[0] == startNode
    ensures cycleStart.Some? ==>
              cycleStart.value < |path| && PathInv(primaryTargets, visited, path, path[cycleStart.value])
    ensures cycleStart.None? ==>
              && Elements(path) !! visited
              && IsChain(primaryTargets, path)
              && DeadEnd(primaryTargets, visited, path[|path| - 1])
  {
    var inPath: set<Uuid> := {};
    var current := startNode;
    path := [];
    ghost var universe := {startNode} + primaryTargets.Values;
    while true
      invariant inPath == Elements(path)
      invariant PathInv(primaryTargets, visited, path, current)
      invariant Elements(path) <= universe && current in universe
      invariant startNode == (path + [current])[0]
      decreases universe - inPath
    {
      ghost var chain := path + [current];
      if current in inPath {
        var at := Position(path, current);
        return path, Some(at);
      }
      if current in visited {
        assert path != [] && chain[|path| - 1] == path[|path| - 1];
        assert forall i {:trigger path[i]} :: 0 <= i < |path| - 1 ==> chain[i] == path[i];
        return path, None;
      }
      inPath := inPath + {current};
      path := path + [current];
      if current in primaryTargets {
        current := primaryTargets[current];
        assert forall i {:trigger (path + [current])[i]} :: 0 <= i < |path| - 1 ==> (path + [current])[i] == chain[i];
      } else {
        return path, None;
      }
    }
  }

  /** `after` extends `before` by one PRIMARY_CYCLE for every cycle of the map, and by nothing else. */
  ghost predicate ReportsEveryCycleOnce(nodesById: map<Uuid, NodeDefinition>, f: PrimaryMap, before: seq<GraphError>,
                                        after: seq<GraphError>)
  {
    exists cycles :: ListsEveryCycleOnce(f, cycles) && after == before + CycleErrors(nodesById, cycles)
  }

  /**
   Cycle detection. The loop may take start nodes in any order; whatever the order, it terminates
   and appends one PRIMARY_CYCLE per cycle of the map, naming that cycle's nodes.
   */
  method ValidatePrimaryAcyclic(nodesById: map<Uuid, NodeDefinition>, primaryTargets: PrimaryMap,
                                errors0: seq<GraphError>)
    returns (errors: seq<GraphError>)
    requires primaryTargets.Keys <= nodesById.Keys
    ensures ReportsEveryCycleOnce(nodesById, primaryTargets, errors0, errors)
  {
    errors := errors0;
    ghost var cycles: seq<seq<Uuid>> := [];
    var visited: set<Uuid> := {};
    var remaining := nodesById.Keys;
    while remaining != {}
      invariant errors == errors0 + CycleErrors(nodesById, cycles)
      invariant VisitedInv(primaryTargets, visited, cycles)
      invariant nodesById.Keys <= remaining + visited
      decreases remaining
    {
      NonemptyHasElement(remaining);
      var startNode :| startNode in remaining;
      remaining := remaining - {startNode};
      if startNode !in visited {
        var path, cycleStart := WalkPath(primaryTargets, visited, startNode);
        match cycleStart {
          case Some(at) =>
            var cycle := path[at..];
            errors := errors + [PrimaryCycle(KeysOf(nodesById, cycle))];
            AbsorbCyclicPath(primaryTargets, visited, cycles, path, at);
            CycleErrorsSnoc(nodesById, cycles, cycle, errors0);
            cycles := cycles + [cycle];
          case None =>
            AbsorbDeadPath(primaryTargets, visited, cycles, path);
        }
        visited := visited + Elements(path);
      }
    }
    AllVisited(primaryTargets, visited, cycles);
  }

  /** Every primary target exists and has a larger order index than its source. */
  ghost predicate Advances(f: PrimaryMap, nodesById: map<Uuid, NodeDefinition>) {
    forall x :: x in f ==>
      x in nodesById && f[x] in nodesById && nodesById[x].orderIndex < nodesById[f[x]].orderIndex
  }

  lemma {:induction false} OrderRisesAlongChain(f: PrimaryMap, nodesById: map<Uuid, NodeDefinition>, c: seq<Uuid>, i: nat)
    requires Advances(f, nodesById) && IsChain(f, c) && i < |c| && c[0] in nodesById
    ensures c[i] in nodesById && nodesById[c[0]].orderIndex + i <= nodesById[c[i]].orderIndex
  {
    if i > 0 {
      OrderRisesAlongChain(f, nodesById, c, i - 1);
      var previous := c[i - 1];
      assert f[previous] == c[i];
    }
  }

  /** When every target exists and advances, the primary map has no cycle. */
  lemma AdvancingHasNoCycle(f: PrimaryMap, nodesById: map<Uuid, NodeDefinition>, c: seq<Uuid>)
    requires Advances(f, nodesById)
    ensures !IsCycle(f, c)
  {
    if IsCycle(f, c) {
      CycleIsClosed(f, c);
      OrderRisesAlongChain(f, nodesById, c, |c| - 1);
    }
  }

  // ----- The trunk walk -----

  /** Where the trunk loop goes next from `current`; None when it leaves the loop. */
  function TrunkNext(nodesById: map<Uuid, NodeDefinition>, f: PrimaryMap, current: Uuid): Option<Uuid> {
    if current in nodesById && !nodesById[current].nodeType.TERMINAL? && current in f && f[current] != current
    then Some(f[current])
    else None
  }

  /** The loop variable before iteration `k`, or None when the loop has ended by then. */
  function TrunkAt(nodesById: map<Uuid, NodeDefinition>, f: PrimaryMap, start: Uuid, k: nat): Option<Uuid> {
    if k == 0 then Some(start)
    else
      match TrunkAt(nodesById, f, start, k - 1)
      case None => None
      case Some(x) => TrunkNext(nodesById, f, x)
  }

  ghost predicate TrunkHalts(nodesById: map<Uuid, NodeDefinition>, f: PrimaryMap, start: Uuid) {
    exists k: nat :: TrunkAt(nodesById, f, start, k).None?
  }

  /** The walk stands on an existing, non-terminal node that has no primary target. */
  ghost predicate TrunkStuck(nodesById: map<Uuid, NodeDefinition>, f: PrimaryMap, start: Uuid) {
    exists k: nat :: StuckAt(nodesById, f, start, k)
  }

  ghost predicate StuckAt(nodesById: map<Uuid, NodeDefinition>, f: PrimaryMap, start: Uuid, k: nat) {
    var at := TrunkAt(nodesById, f, start, k);
    at.Some? && at.value in nodesById && !nodesById[at.value].nodeType.TERMINAL? && at.value !in f
  }

  /** Some chain of the map leads from `start` into a cycle of two or more nodes. */
  ghost predicate RunsIntoLongCycle(f: PrimaryMap, start: Uuid) {
    exists path, c :: LeadsIntoLongCycle(f, start, path, c)
  }

  ghost predicate LeadsIntoLongCycle(f: PrimaryMap, start: Uuid, path: seq<Uuid>, c: seq<Uuid>) {
    IsCycle(f, c) && |c| >= 2 && path != [] && IsChain(f, path) && path[0] == start && path[|path| - 1] in c
  }

  /** As built by the validator: sources are existing non-terminal nodes. */
  ghost predicate IsPrimaryMap(nodesById: map<Uuid, NodeDefinition>, f: PrimaryMap) {
    forall x :: x in f ==> x in nodesById && !nodesById[x].nodeType.TERMINAL?
  }

  lemma {:induction false} LongCycleTrapsWalk(nodesById: map<Uuid, NodeDefinition>, f: PrimaryMap, start: Uuid,
                                              path: seq<Uuid>, c: seq<Uuid>, k: nat)
    requires IsPrimaryMap(nodesById, f) && LeadsIntoLongCycle(f, start, path, c)
    ensures TrunkAt(nodesById, f, start, k).Some?
    ensures TrunkAt(nodesById, f, start, k).value in Elements(path) + Elements(c)
  {
    if k > 0 {
      LongCycleTrapsWalk(nodesById, f, start, path, c, k - 1);
      TrappedStep(f, path, c, TrunkAt(nodesById, f, start, k - 1).value);
    }
  }

  /** Inside the path or the cycle the map goes on, inside them, to another node. */
  lemma TrappedStep(f: PrimaryMap, path: seq<Uuid>, c: seq<Uuid>, x: Uuid)
    requires IsCycle(f, c) && |c| >= 2 && path != [] && IsChain(f, path) && path[|path| - 1] in c
    requires x in Elements(path) + Elements(c)
    ensures x in f && f[x] != x && f[x] in Elements(path) + Elements(c)
  {
    CycleIsClosed(f, c);
    LongCycleHasNoSelfEdge(f, c);
    if x !in c {
      PathStep(f, path, x);
    }
  }

  /** A path goes on from each of its nodes but the last, and not to the same node unless it stays there. */
  lemma PathStep(f: PrimaryMap, path: seq<Uuid>, x: Uuid)
    requires path != [] && IsChain(f, path) && x in path && x != path[|path| - 1]
    ensures x in f && f[x] != x && f[x] in path
  {
    var i :| 0 <= i < |path| && path[i] == x;
    assert f[path[i]] == path[i + 1];
    if path[i + 1] == x {
      ChainStaysOnClosedSet(f, path, i, |path| - 1, {x});
    }
  }

  lemma LongCycleHasNoSelfEdge(f: PrimaryMap, c: seq<Uuid>)
    requires IsCycle(f, c) && |c| >= 2
    ensures forall x :: x in c ==> x in f && f[x] != x
  {
    CycleIsClosed(f, c);
    assert c[0] in Elements(c) && c[1] in Elements(c);
    forall x | x in c
      ensures f[x] != x
    {
      if f[x] == x {
        ClosedSetSwallowsCycle(f, c, {x}, x);
      }
    }
  }

  /** Extending a duplicate-free walk either ends it or closes a long cycle. */
  lemma {:induction false} WalkHaltsOrCycles(nodesById: map<Uuid, NodeDefinition>, f: PrimaryMap, start: Uuid, path: seq<Uuid>)
    requires path != [] && path[0] == start && Distinct(path) && IsChain(f, path)
    requires TrunkAt(nodesById, f, start, |path| - 1) == Some(path[|path| - 1])
    requires Elements(path) <= {start} + f.Values
    ensures TrunkHalts(nodesById, f, start) || RunsIntoLongCycle(f, start)
    decreases ({start} + f.Values) - Elements(path)
  {
    var last := path[|path| - 1];
    assert TrunkAt(nodesById, f, start, |path|) == TrunkNext(nodesById, f, last);
    match TrunkNext(nodesById, f, last)
    case None =>
    case Some(next) =>
      var longer := path + [next];
      assert forall i {:trigger longer[i]} :: 0 <= i < |path| ==> longer[i] == path[i];
      if next in path {
        var i :| 0 <= i < |path| && path[i] == next;
        assert LeadsIntoLongCycle(f, start, path, path[i..]);
      } else {
        assert Elements(longer) == Elements(path) + {next};
        WalkHaltsOrCycles(nodesById, f, start, longer);
      }
  }

  /**
   The trunk loop guards only against a self edge. It ends exactly when the primary chain from its
   start does not run into a cycle of two or more nodes.
   */
  lemma TrunkHaltsIff(nodesById: map<Uuid, NodeDefinition>, f: PrimaryMap, start: Uuid)
    requires IsPrimaryMap(nodesById, f)
    ensures TrunkHalts(nodesById, f, start) <==> !RunsIntoLongCycle(f, start)
  {
    WalkHaltsOrCycles(nodesById, f, start, [start]);
    if RunsIntoLongCycle(f, start) {
      var path, c :| LeadsIntoLongCycle(f, start, path, c);
      forall k: nat
        ensures TrunkAt(nodesById, f, start, k).Some?
      {
        LongCycleTrapsWalk(nodesById, f, start, path, c, k);
      }
    }
  }

  lemma AdvancingTrunkHalts(nodesById: map<Uuid, NodeDefinition>, f: PrimaryMap, start: Uuid)
    requires IsPrimaryMap(nodesById, f) && Advances(f, nodesById)
    ensures TrunkHalts(nodesById, f, start)
  {
    TrunkHaltsIff(nodesById, f, start);
    forall path, c
      ensures !LeadsIntoLongCycle(f, start, path, c)
    {
      AdvancingHasNoCycle(f, nodesById, c);
    }
  }

  lemma {:induction false} TrunkStaysEnded(nodesById: map<Uuid, NodeDefinition>, f: PrimaryMap, start: Uuid, j: nat, k: nat)
    requires j <= k && TrunkAt(nodesById, f, start, j).None?
    ensures TrunkAt(nodesById, f, start, k).None?
  {
    if j < k {
      TrunkStaysEnded(nodesById, f, start, j, k - 1);
    }
  }

  lemma RunningTrunkIsBeforeBound(nodesById: map<Uuid, NodeDefinition>, f: PrimaryMap, start: Uuid, j: nat, bound: nat)
    requires TrunkAt(nodesById, f, start, j).Some? && TrunkAt(nodesById, f, start, bound).None?
    ensures j < bound
  {
    if bound <= j {
      TrunkStaysEnded(nodesById, f, start, bound, j);
    }
  }

  /** The trunk loop, from the first DRAFT node if there is one. */
  method ValidateTrunkReachesTerminal(draft: Option<NodeDefinition>, nodesById: map<Uuid, NodeDefinition>,
                                      primaryTargets: PrimaryMap, errors0: seq<GraphError>)
    returns (errors: seq<GraphError>)
    requires draft.Some? ==> TrunkHalts(nodesById, primaryTargets, draft.value.nodeId)
    ensures errors == errors0 +
              if draft.Some? && TrunkStuck(nodesById, primaryTargets, draft.value.nodeId)
              then [PrimaryTrunkNoTerminal(draft.value.nodeKey)] else []
  {
    errors := errors0;
    if draft.None? {
      return;
    }
    var start := draft.value.nodeId;
    var current := start;
    ghost var bound: nat :| TrunkAt(nodesById, primaryTargets, start, bound).None?;
    ghost var k: nat := 0;
    ghost var stuck := false;
    while current in nodesById
      invariant !stuck && errors == errors0
      invariant TrunkAt(nodesById, primaryTargets, start, k) == Some(current)
      invariant forall j: nat :: j < k ==> !StuckAt(nodesById, primaryTargets, start, j)
      invariant k < bound
      decreases bound - k
    {
      assert TrunkAt(nodesById, primaryTargets, start, k + 1) == TrunkNext(nodesById, primaryTargets, current);
      if nodesById[current].nodeType.TERMINAL? {
        break;
      }
      if current in primaryTargets {
        if primaryTargets[current] == current {
          break;
        }
        RunningTrunkIsBeforeBound(nodesById, primaryTargets, start, k + 1, bound);
        current := primaryTargets[current];
        k := k + 1;
      } else {
        errors := errors + [PrimaryTrunkNoTerminal(draft.value.nodeKey)];
        stuck := true;
        assert StuckAt(nodesById, primaryTargets, start, k);
        break;
      }
    }
    assert TrunkAt(nodesById, primaryTargets, start, k + 1).None?;
    forall j: nat | j > k
      ensures !StuckAt(nodesById, primaryTargets, start, j)
    {
      TrunkStaysEnded(nodesById, primaryTargets, start, k + 1, j);
    }
  }
}
