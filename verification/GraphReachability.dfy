/** Directed reachability over transitions: a stack depth-first search, exact on every edge list. */
module GraphReachability {
  import opened Prelude
  import opened DefinitionModel

  ghost predicate Edge(transitions: seq<TransitionDefinition>, a: Uuid, b: Uuid) {
    exists t :: t in transitions && t.sourceNodeId == a && t.targetNodeId == b
  }

  ghost predicate IsPath(transitions: seq<TransitionDefinition>, path: seq<Uuid>) {
    |path| > 0 && forall i :: 0 <= i < |path| - 1 ==> Edge(transitions, path[i], path[i + 1])
  }

  /** A directed path, possibly of no edges, leads from `a` to `b`. */
  ghost predicate Reaches(transitions: seq<TransitionDefinition>, a: Uuid, b: Uuid) {
    exists path :: IsPath(transitions, path) && path[0] == a && path[|path| - 1] == b
  }

  function Neighbours(adj: map<Uuid, seq<Uuid>>, a: Uuid): seq<Uuid> {
    if a in adj then adj[a] else []
  }

  ghost predicate IsAdjacency(adj: map<Uuid, seq<Uuid>>, transitions: seq<TransitionDefinition>) {
    forall a, b :: b in Neighbours(adj, a) <==> Edge(transitions, a, b)
  }

  lemma AdjacencySnoc(adj: map<Uuid, seq<Uuid>>, transitions: seq<TransitionDefinition>, t: TransitionDefinition)
    requires IsAdjacency(adj, transitions)
    ensures IsAdjacency(adj[t.sourceNodeId := Neighbours(adj, t.sourceNodeId) + [t.targetNodeId]], transitions + [t])
  {
    var adj' := adj[t.sourceNodeId := Neighbours(adj, t.sourceNodeId) + [t.targetNodeId]];
    assert t in transitions + [t];
    forall a, b
      ensures b in Neighbours(adj', a) <==> Edge(transitions + [t], a, b)
    {
      assert b in Neighbours(adj, a) <==> Edge(transitions, a, b);
    }
  }

  lemma ReachesSelf(transitions: seq<TransitionDefinition>, a: Uuid)
    ensures Reaches(transitions, a, a)
  {
    assert IsPath(transitions, [a]);
  }

  lemma ReachesStep(transitions: seq<TransitionDefinition>, a: Uuid, b: Uuid, c: Uuid)
    requires Reaches(transitions, a, b) && Edge(transitions, b, c)
    ensures Reaches(transitions, a, c)
  {
    var path :| IsPath(transitions, path) && path[0] == a && path[|path| - 1] == b;
    assert IsPath(transitions, path + [c]);
  }

  /** Everything a path can visit stays inside a set that is closed under edges. */
  lemma ClosedSetHoldsPaths(transitions: seq<TransitionDefinition>, closed: set<Uuid>, path: seq<Uuid>)
    requires IsPath(transitions, path) && path[0] in closed
    requires forall a, b :: a in closed && Edge(transitions, a, b) ==> b in closed
    ensures path[|path| - 1] in closed
  {
    if |path| > 1 {
      ClosedSetHoldsPaths(transitions, closed, path[..|path| - 1]);
      assert Edge(transitions, path[|path| - 2], path[|path| - 1]);
    }
  }

  method ComputeDirectedReachable(transitions: seq<TransitionDefinition>, start: Uuid)
    returns (reachable: set<Uuid>)
    ensures forall x :: x in reachable <==> Reaches(transitions, start, x)
  {
    var adj: map<Uuid, seq<Uuid>> := map[];
    for i := 0 to |transitions|
      invariant IsAdjacency(adj, transitions[..i])
    {
      var t := transitions[i];
      AdjacencySnoc(adj, transitions[..i], t);
      assert transitions[..i + 1] == transitions[..i] + [t];
      adj := adj[t.sourceNodeId := Neighbours(adj, t.sourceNodeId) + [t.targetNodeId]];
    }
    assert transitions[..|transitions|] == transitions;
    ghost var universe := {start} + (set t | t in transitions :: t.targetNodeId);

    reachable := {};
    var stack := [start];
    ReachesSelf(transitions, start);
    while stack != []
      invariant start in reachable || start in stack
      invariant reachable <= universe && forall x :: x in stack ==> x in universe
      invariant forall x :: x in reachable || x in stack ==> Reaches(transitions, start, x)
      invariant forall a, b :: a in reachable && Edge(transitions, a, b) ==> b in reachable || b in stack
      decreases universe - reachable, |stack|
    {
      var current := stack[|stack| - 1];
      ghost var before := stack;
      stack := stack[..|stack| - 1];
      assert forall x :: x in before ==> x in stack || x == current;
      if current in reachable {
        continue;
      }
      reachable := reachable + {current};
      if current in adj {
        var neighbours := adj[current];
        for i := 0 to |neighbours|
          invariant start in reachable || start in stack
          invariant forall x :: x in stack ==> x in universe
          invariant forall x :: x in stack ==> Reaches(transitions, start, x)
          invariant forall x :: x in before ==> x in stack || x == current
          invariant forall j :: 0 <= j < i ==> neighbours[j] in reachable || neighbours[j] in stack
        {
          var next := neighbours[i];
          if next !in reachable {
            assert Edge(transitions, current, next);
            ReachesStep(transitions, start, current, next);
            stack := stack + [next];
          }
        }
      }
      assert forall b :: Edge(transitions, current, b) ==> b in Neighbours(adj, current);
    }
    forall x | Reaches(transitions, start, x)
      ensures x in reachable
    {
      var path :| IsPath(transitions, path) && path[0] == start && path[|path| - 1] == x;
      ClosedSetHoldsPaths(transitions, reachable, path);
    }
  }
}
