/**
 * The scheduler's strongly connected components: Tarjan's algorithm with an explicit frame stack,
 * run in place on the `order`, `low` and `on_stack` buffers.
 */
module Tarjan {
  import opened Graphs
  import opened Seals

  /** `usize::MAX`: the visit number of a node not visited yet. */
  const UNVISITED: nat := 0xFFFF_FFFF_FFFF_FFFF

  // ---------------------------------------------------------------------------------------------
  // What the result means
  // ---------------------------------------------------------------------------------------------

  predicate Ascending(s: seq<nat>) {
    forall i, j :: 0 <= i < j < |s| ==> s[i] < s[j]
  }

  ghost predicate Listed(components: seq<seq<nat>>, v: nat) {
    exists i :: 0 <= i < |components| && v in components[i]
  }

  /** Every node is in exactly one component, and no component is empty or holds anything else. */
  ghost predicate Partition(components: seq<seq<nat>>, n: nat) {
    && (forall i :: 0 <= i < |components| ==> components[i] != [] && Ascending(components[i]))
    && (forall i, v: nat :: 0 <= i < |components| && v in components[i] ==> v < n)
    && (forall v :: 0 <= v < n ==> Listed(components, v))
    && (forall i, j, v: nat ::
          0 <= i < |components| && 0 <= j < |components| && v in components[i] && v in components[j] ==> i == j)
  }

  /** Two nodes share a component exactly when each reaches the other. */
  ghost predicate StronglyConnected(g: Graph, components: seq<seq<nat>>) {
    forall i, j, u, v :: 0 <= i < |components| && 0 <= j < |components| && u in components[i] && v in components[j] ==>
      (i == j <==> Reaches(g, u, v) && Reaches(g, v, u))
  }

  /** A component is listed after every component it depends on. */
  ghost predicate AfterDependencies(g: Graph, components: seq<seq<nat>>) {
    forall i, j, u, v :: 0 <= i < |components| && 0 <= j < |components| && u in components[i] && v in components[j] ==>
      Reaches(g, u, v) ==> j <= i
  }

  // ---------------------------------------------------------------------------------------------
  // The sort the code calls on each component
  // ---------------------------------------------------------------------------------------------

  function Insert(x: nat, s: seq<nat>): (r: seq<nat>)
    ensures |r| == |s| + 1
    ensures forall y :: y in r <==> y == x || y in s
    ensures Ascending(s) && x !in s ==> Ascending(r)
  {
    if s == [] || x < s[0] then [x] + s
    else
      assert forall y :: y in s <==> y == s[0] || y in s[1..];
      var rest := Insert(x, s[1..]);
      assert forall i :: 0 <= i < |rest| ==> rest[i] in rest;
      assert Ascending(s) ==> Ascending(s[1..]);
      assert Ascending(s) && x !in s ==> forall y :: y in rest ==> s[0] < y;
      [s[0]] + rest
  }

  function Sorted(s: seq<nat>): (r: seq<nat>)
    ensures |r| == |s|
    ensures forall y :: y in r <==> y in s
    ensures (forall i, j :: 0 <= i < j < |s| ==> s[i] != s[j]) ==> Ascending(r)
  {
    if s == [] then [] else
      assert forall y :: y in s <==> y == s[0] || y in s[1..];
      Insert(s[0], Sorted(s[1..]))
  }

  // ---------------------------------------------------------------------------------------------
  // The loop invariant
  // ---------------------------------------------------------------------------------------------

  /**
   * The algorithm's whole state between two steps. `id[v]` is the component a finished node went
   * to, and -1 for every other node; the code does not store it.
   */
  datatype View = View(order: seq<nat>, low: seq<nat>, onStack: seq<bool>, stack: seq<nat>,
                       frames: seq<(nat, nat)>, components: seq<seq<nat>>, next: nat, id: seq<int>)

  ghost predicate Visited(s: View, v: nat)
    requires v < |s.order|
  {
    s.order[v] != UNVISITED
  }

  ghost predicate InFrame(s: View, v: nat) {
    exists k :: 0 <= k < |s.frames| && s.frames[k].0 == v
  }

  ghost function Unvisited(order: seq<nat>): set<nat> {
    set v | 0 <= v < |order| && order[v] == UNVISITED
  }

  ghost predicate SameNumber(order: seq<nat>, u: nat, v: nat)
    requires u < |order| && v < |order|
  {
    order[u] == order[v]
  }

  /** No two visited nodes have the same visit number. */
  ghost predicate Numbered(order: seq<nat>) {
    forall u: nat, v: nat {:trigger SameNumber(order, u, v)} ::
      u < |order| && v < |order| && order[u] != UNVISITED && SameNumber(order, u, v) ==> u == v
  }

  lemma OneNumber(order: seq<nat>, u: nat, v: nat)
    requires Numbered(order) && u < |order| && v < |order| && order[u] != UNVISITED && order[u] == order[v]
    ensures u == v
  {
    assert SameNumber(order, u, v);
  }

  lemma DifferentNumber(order: seq<nat>, u: nat, v: nat)
    requires Numbered(order) && u < |order| && v < |order| && order[u] != UNVISITED && u != v
    ensures order[u] != order[v]
  {
    assert !SameNumber(order, u, v);
  }

  ghost predicate Shape(g: Graph, s: View) {
    && InRange(g) && |g| < UNVISITED
    && |s.order| == |s.low| == |s.onStack| == |s.id| == |g|
    && s.next + |Unvisited(s.order)| == |g|
    && (forall v :: 0 <= v < |g| && Visited(s, v) ==> s.order[v] < s.next)
    && Numbered(s.order)
    && (forall v :: 0 <= v < |g| ==> (s.id[v] >= 0 <==> Visited(s, v) && !s.onStack[v]))
    && (forall v :: 0 <= v < |g| && s.onStack[v] ==> Visited(s, v))
  }

  /** The node stack is in visiting order and holds exactly the nodes marked as on it. */
  ghost predicate StackOk(g: Graph, s: View)
    requires Shape(g, s)
  {
    && (forall i :: 0 <= i < |s.stack| ==> s.stack[i] < |g| && s.onStack[s.stack[i]])
    && (forall i, j :: 0 <= i < j < |s.stack| ==> s.order[s.stack[i]] < s.order[s.stack[j]])
    && (forall v :: 0 <= v < |g| && s.onStack[v] ==> v in s.stack)
  }

  /** The frames are open nodes in visiting order; the first frame is the bottom of the stack. */
  ghost predicate FramesOk(g: Graph, s: View)
    requires Shape(g, s)
  {
    && (forall k :: 0 <= k < |s.frames| ==>
          s.frames[k].0 < |g| && s.frames[k].1 <= |g[s.frames[k].0]| && s.onStack[s.frames[k].0])
    && (forall k, l :: 0 <= k < l < |s.frames| ==> s.order[s.frames[k].0] < s.order[s.frames[l].0])
    && (forall v :: 0 <= v < |g| && s.onStack[v] ==> |s.frames| > 0 && s.order[s.frames[0].0] <= s.order[v])
  }

  /** An edge out of a node on the stack that has been looked at. */
  ghost predicate EdgeSeen(g: Graph, s: View, v: nat, t: nat)
    requires Shape(g, s) && v < |g| && t < |g|
  {
    Visited(s, t) && (s.onStack[t] ==> s.low[v] <= s.order[t])
  }

  /** Every edge passed so far has been seen; with `open`, the edge the top frame just moved past is exempt. */
  ghost predicate EdgesOk(g: Graph, s: View, open: bool)
    requires Shape(g, s) && FramesOk(g, s)
  {
    && (forall v, i :: 0 <= v < |g| && s.onStack[v] && !InFrame(s, v) && 0 <= i < |g[v]| ==> EdgeSeen(g, s, v, g[v][i]))
    && (forall k, i ::
          0 <= k < |s.frames| && 0 <= i < s.frames[k].1 && !(open && k == |s.frames| - 1 && i == s.frames[k].1 - 1) ==>
          EdgeSeen(g, s, s.frames[k].0, g[s.frames[k].0][i]))
  }

  /** `low[v]` is the visit number of some stack node that `v` reaches. */
  ghost predicate LowWitness(g: Graph, s: View, v: nat, w: nat)
    requires Shape(g, s) && v < |g|
  {
    w < |g| && s.onStack[w] && s.order[w] == s.low[v] && Reaches(g, v, w)
  }

  ghost predicate HasLow(g: Graph, s: View, v: nat)
    requires Shape(g, s) && v < |g|
  {
    exists w :: LowWitness(g, s, v, w)
  }

  ghost predicate LowReached(g: Graph, s: View)
    requires Shape(g, s)
  {
    forall v {:trigger HasLow(g, s, v)} :: 0 <= v < |g| && s.onStack[v] ==> HasLow(g, s, v)
  }

  /** A node completed and still on the stack reaches below itself. */
  ghost predicate LowBelow(g: Graph, s: View)
    requires Shape(g, s)
  {
    forall v {:trigger s.low[v]} :: 0 <= v < |g| && s.onStack[v] ==>
      s.low[v] <= s.order[v] && (!InFrame(s, v) ==> s.low[v] < s.order[v])
  }

  /** `v` was completed below frame `k`, after it and before frame `k + 1`. */
  ghost predicate Under(g: Graph, s: View, k: nat, v: nat)
    requires Shape(g, s) && FramesOk(g, s) && k < |s.frames| && v < |g|
  {
    && s.onStack[v] && !InFrame(s, v)
    && s.order[s.frames[k].0] < s.order[v]
    && (k + 1 < |s.frames| ==> s.order[v] < s.order[s.frames[k + 1].0])
  }

  ghost predicate TreeOk(g: Graph, s: View)
    requires Shape(g, s) && FramesOk(g, s)
  {
    && (forall k, v {:trigger Under(g, s, k, v)} :: 0 <= k < |s.frames| && 0 <= v < |g| && Under(g, s, k, v) ==>
          s.low[s.frames[k].0] <= s.low[v])
    && (forall k, v {:trigger Reaches(g, s.frames[k].0, v)} ::
          0 <= k < |s.frames| && 0 <= v < |g| && s.onStack[v] && s.order[s.frames[k].0] <= s.order[v] ==>
          Reaches(g, s.frames[k].0, v))
  }

  ghost predicate ComponentsOk(g: Graph, s: View)
    requires Shape(g, s)
  {
    && (forall i :: 0 <= i < |s.components| ==> s.components[i] != [] && Ascending(s.components[i]))
    && (forall i, v: nat {:trigger v in s.components[i]} :: 0 <= i < |s.components| ==>
         (v in s.components[i] <==> v < |g| && s.id[v] == i))
    && (forall v :: 0 <= v < |g| ==> s.id[v] < |s.components|)
    && (forall u, v :: 0 <= u < |g| && 0 <= v < |g| && s.id[u] == s.id[v] && s.id[u] >= 0 ==> Reaches(g, u, v))
    && (forall v, i :: 0 <= v < |g| && 0 <= i < |g[v]| && s.id[v] >= 0 ==> 0 <= s.id[g[v][i]] <= s.id[v])
  }

  ghost predicate Inv(g: Graph, s: View, open: bool) {
    && Shape(g, s) && StackOk(g, s) && FramesOk(g, s) && EdgesOk(g, s, open) && LowReached(g, s) && LowBelow(g, s)
    && TreeOk(g, s)
    && ComponentsOk(g, s)
  }

  // ---------------------------------------------------------------------------------------------
  // One lemma for each step
  // ---------------------------------------------------------------------------------------------

  /** Visiting `v` for the first time: as a root (no frame yet) or as the next target of the top frame. */
  ghost function Visit(s: View, v: nat): View
    requires v < |s.order| == |s.low| == |s.onStack|
  {
    s.(order := s.order[v := s.next], low := s.low[v := s.next], next := s.next + 1,
    stack := s.stack + [v], onStack := s.onStack[v := true], frames := s.frames + [(v, 0)])
  }

  /** The top frame moves on to its next edge. */
  ghost function Advance(s: View): View
    requires |s.frames| > 0
  {
    var top := |s.frames| - 1;
    s.(frames := s.frames[top := (s.frames[top].0, s.frames[top].1 + 1)])
  }

  lemma UnvisitedShrinks(order: seq<nat>, v: nat, x: nat)
    requires v < |order| && order[v] == UNVISITED && x != UNVISITED
    ensures Unvisited(order[v := x]) == Unvisited(order) - {v}
    ensures |Unvisited(order[v := x])| == |Unvisited(order)| - 1
  {
    assert Unvisited(order[v := x]) == Unvisited(order) - {v};
  }

  lemma VisitShape(g: Graph, s: View, v: nat)
    requires Shape(g, s) && v < |g| && !Visited(s, v)
    ensures Shape(g, Visit(s, v))
  {
    UnvisitedShrinks(s.order, v, s.next);
    assert v in Unvisited(s.order);
    assert s.next < |g|;
    var order' := s.order[v := s.next];
    forall u: nat, w: nat | u < |g| && w < |g| && order'[u] != UNVISITED && SameNumber(order', u, w) ensures u == w {
      if u != v && w != v {
        OneNumber(s.order, u, w);
      }
    }
  }

  lemma VisitStack(g: Graph, s: View, v: nat)
    requires Shape(g, s) && v < |g| && !Visited(s, v) && StackOk(g, s)
    ensures Shape(g, Visit(s, v)) && StackOk(g, Visit(s, v))
  {
    VisitShape(g, s, v);
    var t := Visit(s, v);
    forall u | 0 <= u < |g| && t.onStack[u] ensures u in t.stack {
      if u == v { assert t.stack[|s.stack|] == v; } else { assert u in s.stack; }
    }
  }

  lemma VisitFrames(g: Graph, s: View, v: nat)
    requires Shape(g, s) && v < |g| && !Visited(s, v) && FramesOk(g, s)
    ensures Shape(g, Visit(s, v)) && FramesOk(g, Visit(s, v))
  {
    VisitShape(g, s, v);
    var t := Visit(s, v);
    assert forall k :: 0 <= k < |s.frames| ==> t.frames[k] == s.frames[k] && s.frames[k].0 != v;
  }

  /** The edge the top frame just moved past leads to `v`. */
  ghost predicate OpenEdge(g: Graph, s: View, v: nat)
    requires Shape(g, s) && FramesOk(g, s)
  {
    |s.frames| > 0 ==>
      var (node, i) := s.frames[|s.frames| - 1];
      i > 0 && g[node][i - 1] == v
  }

  lemma VisitInFrame(s: View, v: nat, u: nat)
    requires v < |s.order| == |s.low| == |s.onStack|
    ensures InFrame(Visit(s, v), u) <==> InFrame(s, u) || u == v
  {
    var t := Visit(s, v);
    assert t.frames[|s.frames|].0 == v;
    if InFrame(s, u) {
      var k :| 0 <= k < |s.frames| && s.frames[k].0 == u;
      assert t.frames[k].0 == u;
    }
  }

  lemma VisitEdges(g: Graph, s: View, v: nat)
    requires Shape(g, s) && v < |g| && !Visited(s, v) && FramesOk(g, s) && OpenEdge(g, s, v)
    requires EdgesOk(g, s, |s.frames| > 0)
    requires forall u :: 0 <= u < |g| && s.onStack[u] ==> s.low[u] <= s.order[u]
    ensures Shape(g, Visit(s, v)) && FramesOk(g, Visit(s, v)) && EdgesOk(g, Visit(s, v), false)
  {
    VisitFrames(g, s, v);
    var t := Visit(s, v);
    forall u, i | 0 <= u < |g| && t.onStack[u] && !InFrame(t, u) && 0 <= i < |g[u]| ensures EdgeSeen(g, t, u, g[u][i]) {
      VisitInFrame(s, v, u);
      assert EdgeSeen(g, s, u, g[u][i]);
    }
    forall k, i | 0 <= k < |t.frames| && 0 <= i < t.frames[k].1
      ensures EdgeSeen(g, t, t.frames[k].0, g[t.frames[k].0][i])
    {
      assert k < |s.frames| && t.frames[k] == s.frames[k];
      if k < |s.frames| - 1 || i < s.frames[k].1 - 1 {
        assert EdgeSeen(g, s, s.frames[k].0, g[s.frames[k].0][i]);
      }
    }
  }

  lemma VisitLowReached(g: Graph, s: View, v: nat)
    requires Shape(g, s) && v < |g| && !Visited(s, v) && LowReached(g, s)
    ensures Shape(g, Visit(s, v)) && LowReached(g, Visit(s, v))
  {
    VisitShape(g, s, v);
    var t := Visit(s, v);
    forall u | 0 <= u < |g| && t.onStack[u] ensures HasLow(g, t, u) {
      if u == v {
        ReachesSelf(g, v);
        assert LowWitness(g, t, v, v);
      } else {
        assert HasLow(g, s, u);
        var w: nat :| LowWitness(g, s, u, w);
        assert LowWitness(g, t, u, w);
      }
    }
  }

  lemma VisitLowBelow(g: Graph, s: View, v: nat)
    requires Shape(g, s) && v < |g| && !Visited(s, v) && LowBelow(g, s)
    ensures Shape(g, Visit(s, v)) && LowBelow(g, Visit(s, v))
  {
    VisitShape(g, s, v);
    var t := Visit(s, v);
    forall u | 0 <= u < |g| && t.onStack[u]
      ensures t.low[u] <= t.order[u] && (!InFrame(t, u) ==> t.low[u] < t.order[u])
    {
      VisitInFrame(s, v, u);
    }
  }

  lemma VisitTree(g: Graph, s: View, v: nat)
    requires Shape(g, s) && v < |g| && !Visited(s, v) && FramesOk(g, s) && OpenEdge(g, s, v) && TreeOk(g, s)
    ensures Shape(g, Visit(s, v)) && FramesOk(g, Visit(s, v)) && TreeOk(g, Visit(s, v))
  {
    VisitFrames(g, s, v);
    var t := Visit(s, v);
    forall k, u | 0 <= k < |t.frames| && 0 <= u < |g| && Under(g, t, k, u) ensures t.low[t.frames[k].0] <= t.low[u] {
      VisitInFrame(s, v, u);
      if k < |s.frames| { assert Under(g, s, k, u); }
    }
    forall k, u | 0 <= k < |t.frames| && 0 <= u < |g| && t.onStack[u] && t.order[t.frames[k].0] <= t.order[u]
      ensures Reaches(g, t.frames[k].0, u)
    {
      VisitReaches(g, s, v, k, u);
    }
  }

  lemma VisitReaches(g: Graph, s: View, v: nat, k: nat, u: nat)
    requires Shape(g, s) && v < |g| && !Visited(s, v) && FramesOk(g, s) && OpenEdge(g, s, v) && TreeOk(g, s)
    requires k <= |s.frames| && u < |g| && Visit(s, v).onStack[u]
    requires Visit(s, v).order[Visit(s, v).frames[k].0] <= Visit(s, v).order[u]
    ensures Reaches(g, Visit(s, v).frames[k].0, u)
  {
    if u == v {
      if k == |s.frames| {
        ReachesSelf(g, v);
      } else {
        var (top, i) := s.frames[|s.frames| - 1];
        ReachesEdge(g, top, i - 1);
        assert s.order[s.frames[k].0] <= s.order[top];
        ReachesTransitive(g, s.frames[k].0, top, v);
      }
    }
  }

  lemma VisitComponents(g: Graph, s: View, v: nat)
    requires Shape(g, s) && v < |g| && !Visited(s, v) && ComponentsOk(g, s)
    ensures Shape(g, Visit(s, v)) && ComponentsOk(g, Visit(s, v))
  {
    VisitShape(g, s, v);
  }

  lemma VisitKeepsInv(g: Graph, s: View, v: nat)
    requires Inv(g, s, |s.frames| > 0) && v < |g| && !Visited(s, v) && OpenEdge(g, s, v)
    ensures Inv(g, Visit(s, v), false)
  {
    VisitStack(g, s, v);
    VisitFrames(g, s, v);
    VisitEdges(g, s, v);
    VisitLowReached(g, s, v);
    VisitLowBelow(g, s, v);
    VisitTree(g, s, v);
    VisitComponents(g, s, v);
  }

  lemma AdvanceInFrame(s: View, u: nat)
    requires |s.frames| > 0
    ensures InFrame(Advance(s), u) <==> InFrame(s, u)
  {
    var t := Advance(s);
    if InFrame(s, u) {
      var k :| 0 <= k < |s.frames| && s.frames[k].0 == u;
      assert t.frames[k].0 == u;
    }
    if InFrame(t, u) {
      var k :| 0 <= k < |t.frames| && t.frames[k].0 == u;
      assert s.frames[k].0 == u;
    }
  }

  lemma AdvanceFrames(g: Graph, s: View)
    requires Shape(g, s) && FramesOk(g, s) && |s.frames| > 0
    requires s.frames[|s.frames| - 1].1 < |g[s.frames[|s.frames| - 1].0]|
    ensures Shape(g, Advance(s)) && FramesOk(g, Advance(s))
    ensures forall k :: 0 <= k < |s.frames| ==> Advance(s).frames[k].0 == s.frames[k].0
    ensures forall u {:trigger InFrame(s, u)} {:trigger InFrame(Advance(s), u)} :: InFrame(Advance(s), u) <==>
      InFrame(s, u)
  {
    forall u ensures InFrame(Advance(s), u) <==> InFrame(s, u) { AdvanceInFrame(s, u); }
  }

  lemma AdvanceEdges(g: Graph, s: View)
    requires Shape(g, s) && FramesOk(g, s) && EdgesOk(g, s, false) && |s.frames| > 0
    requires s.frames[|s.frames| - 1].1 < |g[s.frames[|s.frames| - 1].0]|
    ensures Shape(g, Advance(s)) && FramesOk(g, Advance(s)) && EdgesOk(g, Advance(s), true)
  {
    AdvanceFrames(g, s);
    var t := Advance(s);
    forall u, i | 0 <= u < |g| && t.onStack[u] && !InFrame(t, u) && 0 <= i < |g[u]| ensures EdgeSeen(g, t, u, g[u][i]) {
      assert EdgeSeen(g, s, u, g[u][i]);
    }
    forall k, i | 0 <= k < |t.frames| && 0 <= i < t.frames[k].1 && !(k == |t.frames| - 1 && i == t.frames[k].1 - 1)
      ensures EdgeSeen(g, t, t.frames[k].0, g[t.frames[k].0][i])
    {
      assert EdgeSeen(g, s, s.frames[k].0, g[s.frames[k].0][i]);
    }
  }

  lemma AdvanceLow(g: Graph, s: View)
    requires Shape(g, s) && FramesOk(g, s) && LowReached(g, s) && LowBelow(g, s) && |s.frames| > 0
    requires s.frames[|s.frames| - 1].1 < |g[s.frames[|s.frames| - 1].0]|
    ensures Shape(g, Advance(s)) && LowReached(g, Advance(s)) && LowBelow(g, Advance(s))
  {
    AdvanceFrames(g, s);
    var t := Advance(s);
    forall u | 0 <= u < |g| && t.onStack[u] ensures HasLow(g, t, u) {
      assert HasLow(g, s, u);
      var w: nat :| LowWitness(g, s, u, w);
      assert LowWitness(g, t, u, w);
    }
  }

  lemma AdvanceTree(g: Graph, s: View)
    requires Shape(g, s) && FramesOk(g, s) && TreeOk(g, s) && |s.frames| > 0
    requires s.frames[|s.frames| - 1].1 < |g[s.frames[|s.frames| - 1].0]|
    ensures Shape(g, Advance(s)) && FramesOk(g, Advance(s)) && TreeOk(g, Advance(s))
  {
    AdvanceFrames(g, s);
    var t := Advance(s);
    forall k, u | 0 <= k < |t.frames| && 0 <= u < |g| && Under(g, t, k, u) ensures t.low[t.frames[k].0] <= t.low[u] {
      assert Under(g, s, k, u);
    }
  }

  lemma AdvanceKeepsInv(g: Graph, s: View)
    requires Inv(g, s, false) && |s.frames| > 0
    requires s.frames[|s.frames| - 1].1 < |g[s.frames[|s.frames| - 1].0]|
    ensures Inv(g, Advance(s), true)
  {
    AdvanceFrames(g, s);
    AdvanceEdges(g, s);
    AdvanceLow(g, s);
    AdvanceTree(g, s);
  }

  function Min(a: nat, b: nat): nat {
    if a <= b then a else b
  }

  /** `low[v]` drops to `bound`, the number of a stack node that `v` reaches. */
  ghost function Lower(s: View, v: nat, bound: nat): View
    requires v < |s.low|
  {
    s.(low := s.low[v := Min(s.low[v], bound)])
  }

  lemma LowerHasLow(g: Graph, s: View, v: nat, w: nat, u: nat)
    requires Shape(g, s) && v < |g| && w < |g| && s.onStack[w] && Reaches(g, v, w)
    requires u < |g| && HasLow(g, s, u)
    ensures Shape(g, Lower(s, v, s.order[w])) && HasLow(g, Lower(s, v, s.order[w]), u)
  {
    var t := Lower(s, v, s.order[w]);
    if u == v && s.order[w] < s.low[v] {
      assert LowWitness(g, t, u, w);
    } else {
      var x: nat :| LowWitness(g, s, u, x);
      assert LowWitness(g, t, u, x);
    }
  }

  lemma LowerReached(g: Graph, s: View, v: nat, w: nat)
    requires Shape(g, s) && LowReached(g, s) && v < |g| && w < |g| && s.onStack[w] && Reaches(g, v, w)
    ensures Shape(g, Lower(s, v, s.order[w])) && LowReached(g, Lower(s, v, s.order[w]))
  {
    var t := Lower(s, v, s.order[w]);
    forall u | 0 <= u < |g| && t.onStack[u] ensures HasLow(g, t, u) {
      LowerHasLow(g, s, v, w, u);
    }
  }

  lemma LowerBelow(g: Graph, s: View, v: nat, bound: nat)
    requires Shape(g, s) && LowBelow(g, s) && v < |g|
    ensures Shape(g, Lower(s, v, bound)) && LowBelow(g, Lower(s, v, bound))
  {
    var t := Lower(s, v, bound);
    forall u | 0 <= u < |g| && t.onStack[u]
      ensures t.low[u] <= t.order[u] && (!InFrame(t, u) ==> t.low[u] < t.order[u])
    {
      assert InFrame(s, u) <==> InFrame(t, u);
    }
  }

  lemma LowerTree(g: Graph, s: View, v: nat, bound: nat)
    requires Shape(g, s) && FramesOk(g, s) && TreeOk(g, s) && v < |g| && InFrame(s, v)
    ensures Shape(g, Lower(s, v, bound)) && FramesOk(g, Lower(s, v, bound)) && TreeOk(g, Lower(s, v, bound))
  {
    var t := Lower(s, v, bound);
    assert forall u :: InFrame(t, u) <==> InFrame(s, u);
    assert forall k, u :: 0 <= k < |s.frames| && 0 <= u < |g| ==> (Under(g, t, k, u) <==> Under(g, s, k, u));
  }

  lemma LowerEdges(g: Graph, s: View, v: nat, bound: nat, open: bool)
    requires Shape(g, s) && FramesOk(g, s) && EdgesOk(g, s, open) && v < |g|
    ensures Shape(g, Lower(s, v, bound)) && FramesOk(g, Lower(s, v, bound)) && EdgesOk(g, Lower(s, v, bound), open)
  {
    var t := Lower(s, v, bound);
    assert forall u :: InFrame(t, u) <==> InFrame(s, u);
    assert forall u, x :: 0 <= u < |g| && 0 <= x < |g| && EdgeSeen(g, s, u, x) ==> EdgeSeen(g, t, u, x);
  }

  lemma LowerKeepsInv(g: Graph, s: View, v: nat, w: nat, open: bool)
    requires Inv(g, s, open) && v < |g| && w < |g| && InFrame(s, v) && s.onStack[w] && Reaches(g, v, w)
    ensures Inv(g, Lower(s, v, s.order[w]), open)
  {
    LowerReached(g, s, v, w);
    LowerBelow(g, s, v, s.order[w]);
    LowerTree(g, s, v, s.order[w]);
    LowerEdges(g, s, v, s.order[w], open);
  }

  /** The open edge is seen once its target is visited and, when on the stack, accounted for in `low`. */
  lemma CloseEdge(g: Graph, s: View, v: nat)
    requires Inv(g, s, true) && |s.frames| > 0 && v < |g| && OpenEdge(g, s, v)
    requires EdgeSeen(g, s, s.frames[|s.frames| - 1].0, v)
    ensures Inv(g, s, false)
  {
    forall k, i | 0 <= k < |s.frames| && 0 <= i < s.frames[k].1
      ensures EdgeSeen(g, s, s.frames[k].0, g[s.frames[k].0][i])
    {
    }
  }

  /** The top frame's edge to a visited node, on the stack or already in a component. */
  lemma SeeKeepsInv(g: Graph, s: View, v: nat)
    requires Inv(g, s, true) && |s.frames| > 0 && v < |g| && OpenEdge(g, s, v) && Visited(s, v)
    ensures s.onStack[v] ==> Inv(g, Lower(s, s.frames[|s.frames| - 1].0, s.order[v]), false)
    ensures !s.onStack[v] ==> Inv(g, s, false)
  {
    var (node, i) := s.frames[|s.frames| - 1];
    if s.onStack[v] {
      assert InFrame(s, node);
      ReachesEdge(g, node, i - 1);
      LowerKeepsInv(g, s, node, v, true);
      CloseEdge(g, Lower(s, node, s.order[v]), v);
    } else {
      CloseEdge(g, s, v);
    }
  }

  /** The top frame has moved past all its edges. */
  ghost predicate TopDone(g: Graph, s: View)
    requires Shape(g, s) && FramesOk(g, s)
  {
    |s.frames| > 0 && s.frames[|s.frames| - 1].1 == |g[s.frames[|s.frames| - 1].0]|
  }

  ghost function Top(s: View): nat
    requires |s.frames| > 0
  {
    s.frames[|s.frames| - 1].0
  }

  ghost function PopFrame(s: View): View
    requires |s.frames| > 0
  {
    s.(frames := s.frames[..|s.frames| - 1])
  }

  /** The parent takes over its child's `low`: it reaches whatever the child reaches. */
  lemma InheritLowKeepsInv(g: Graph, s: View)
    requires Inv(g, s, false) && |s.frames| >= 2
    ensures Inv(g, Lower(s, s.frames[|s.frames| - 2].0, s.low[Top(s)]), false)
  {
    var parent, node := s.frames[|s.frames| - 2].0, Top(s);
    assert InFrame(s, parent);
    assert HasLow(g, s, node);
    var w: nat :| LowWitness(g, s, node, w);
    assert s.order[parent] <= s.order[node];
    assert Reaches(g, parent, node);
    ReachesTransitive(g, parent, node, w);
    LowerKeepsInv(g, s, parent, w, false);
  }

  lemma PopInFrame(g: Graph, s: View, v: nat)
    requires Shape(g, s) && FramesOk(g, s) && |s.frames| > 0
    ensures InFrame(PopFrame(s), v) <==> InFrame(s, v) && v != Top(s)
  {
    var t := PopFrame(s);
    assert forall k :: 0 <= k < |t.frames| ==> t.frames[k] == s.frames[k];
    if InFrame(s, v) && v != Top(s) {
      var k :| 0 <= k < |s.frames| && s.frames[k].0 == v;
      assert t.frames[k].0 == v;
    }
  }

  /** Nothing below the root is on the stack, so a root always closes a component. */
  lemma RootCloses(g: Graph, s: View)
    requires Shape(g, s) && FramesOk(g, s) && LowReached(g, s) && |s.frames| == 1
    ensures s.low[Top(s)] >= s.order[Top(s)]
  {
    assert HasLow(g, s, Top(s));
  }

  lemma PopFrameFrames(g: Graph, s: View)
    requires Shape(g, s) && FramesOk(g, s) && |s.frames| >= 2
    ensures Shape(g, PopFrame(s)) && FramesOk(g, PopFrame(s))
  {
  }

  lemma PopFrameEdges(g: Graph, s: View)
    requires Shape(g, s) && FramesOk(g, s) && EdgesOk(g, s, false) && |s.frames| >= 2 && TopDone(g, s)
    ensures Shape(g, PopFrame(s)) && FramesOk(g, PopFrame(s)) && EdgesOk(g, PopFrame(s), false)
  {
    var t := PopFrame(s);
    PopFrameFrames(g, s);
    forall u, i | 0 <= u < |g| && t.onStack[u] && !InFrame(t, u) && 0 <= i < |g[u]| ensures EdgeSeen(g, t, u, g[u][i]) {
      PopInFrame(g, s, u);
      assert EdgeSeen(g, s, u, g[u][i]);
    }
    forall k, i | 0 <= k < |t.frames| && 0 <= i < t.frames[k].1
      ensures EdgeSeen(g, t, t.frames[k].0, g[t.frames[k].0][i])
    {
      assert EdgeSeen(g, s, s.frames[k].0, g[s.frames[k].0][i]);
    }
  }

  lemma PopFrameLow(g: Graph, s: View)
    requires Shape(g, s) && FramesOk(g, s) && LowReached(g, s) && LowBelow(g, s) && |s.frames| >= 2
    requires s.low[Top(s)] < s.order[Top(s)]
    ensures Shape(g, PopFrame(s)) && LowReached(g, PopFrame(s)) && LowBelow(g, PopFrame(s))
  {
    var t := PopFrame(s);
    PopFrameFrames(g, s);
    forall u | 0 <= u < |g| && t.onStack[u] ensures HasLow(g, t, u) {
      assert HasLow(g, s, u);
      var w: nat :| LowWitness(g, s, u, w);
      assert LowWitness(g, t, u, w);
    }
    forall u | 0 <= u < |g| && t.onStack[u]
      ensures t.low[u] <= t.order[u] && (!InFrame(t, u) ==> t.low[u] < t.order[u])
    {
      PopInFrame(g, s, u);
    }
  }

  lemma PopFrameTree(g: Graph, s: View)
    requires Shape(g, s) && FramesOk(g, s) && TreeOk(g, s) && |s.frames| >= 2
    requires s.low[s.frames[|s.frames| - 2].0] <= s.low[Top(s)]
    ensures Shape(g, PopFrame(s)) && FramesOk(g, PopFrame(s)) && TreeOk(g, PopFrame(s))
  {
    var t, top := PopFrame(s), |s.frames| - 1;
    PopFrameFrames(g, s);
    forall k, u | 0 <= k < |t.frames| && 0 <= u < |g| && Under(g, t, k, u) ensures t.low[t.frames[k].0] <= t.low[u] {
      PopInFrame(g, s, u);
      if u != Top(s) {
        DifferentNumber(s.order, u, Top(s));
        assert Under(g, s, k, u) || (k == top - 1 && Under(g, s, top, u));
      }
    }
    forall k, u | 0 <= k < |t.frames| && 0 <= u < |g| && t.onStack[u] && t.order[t.frames[k].0] <= t.order[u]
      ensures Reaches(g, t.frames[k].0, u)
    {
      assert Reaches(g, s.frames[k].0, u);
    }
  }

  /** A finished node that reaches below itself stays on the stack. */
  lemma PopFrameKeepsInv(g: Graph, s: View)
    requires Inv(g, s, false) && TopDone(g, s) && s.low[Top(s)] < s.order[Top(s)]
    requires |s.frames| >= 2 ==> s.low[s.frames[|s.frames| - 2].0] <= s.low[Top(s)]
    ensures Inv(g, PopFrame(s), false)
  {
    if |s.frames| == 1 { RootCloses(g, s); }
    PopFrameFrames(g, s);
    PopFrameEdges(g, s);
    PopFrameLow(g, s);
    PopFrameTree(g, s);
  }

  /** The stack nodes from `node` up: the component that `node` closes. */
  ghost predicate InSegment(g: Graph, s: View, v: nat)
    requires Shape(g, s) && FramesOk(g, s) && |s.frames| > 0
  {
    v < |g| && s.onStack[v] && s.order[Top(s)] <= s.order[v]
  }

  /** No node above the top frame is itself a frame. */
  lemma AboveTop(g: Graph, s: View, v: nat)
    requires Shape(g, s) && FramesOk(g, s) && |s.frames| > 0 && InSegment(g, s, v) && v != Top(s)
    ensures Under(g, s, |s.frames| - 1, v)
  {
    DifferentNumber(s.order, v, Top(s));
  }

  lemma {:induction false} SegmentReachesTop(g: Graph, s: View, v: nat)
    requires Shape(g, s) && FramesOk(g, s) && LowReached(g, s) && LowBelow(g, s) && TreeOk(g, s) && |s.frames| > 0
    requires s.low[Top(s)] == s.order[Top(s)] && InSegment(g, s, v)
    ensures Reaches(g, v, Top(s))
    decreases s.order[v]
  {
    if v == Top(s) {
      ReachesSelf(g, v);
    } else {
      AboveTop(g, s, v);
      assert HasLow(g, s, v);
      var w: nat :| LowWitness(g, s, v, w);
      assert s.order[w] == s.low[v] < s.order[v];
      SegmentReachesTop(g, s, w);
      ReachesTransitive(g, v, w, Top(s));
    }
  }

  /** No edge leaves the segment for a node lower on the stack. */
  lemma SegmentClosed(g: Graph, s: View, v: nat, i: nat)
    requires Shape(g, s) && FramesOk(g, s) && EdgesOk(g, s, false) && TreeOk(g, s) && TopDone(g, s)
    requires s.low[Top(s)] == s.order[Top(s)] && InSegment(g, s, v) && i < |g[v]|
    ensures Visited(s, g[v][i]) && (s.onStack[g[v][i]] ==> InSegment(g, s, g[v][i]))
  {
    if v != Top(s) { AboveTop(g, s, v); }
    assert EdgeSeen(g, s, v, g[v][i]);
  }

  /** The top frame closes the component `c`, the segment of the stack from position `pos`. */
  ghost function Close(g: Graph, s: View, pos: nat, c: seq<nat>): View
    requires Shape(g, s) && FramesOk(g, s) && |s.frames| > 0 && pos <= |s.stack|
  {
    s.(frames := s.frames[..|s.frames| - 1], stack := s.stack[..pos], components := s.components + [c],
    onStack := seq(|g|, v requires 0 <= v < |g| => s.onStack[v] && !InSegment(g, s, v)),
    id := seq(|g|, v requires 0 <= v < |g| => if InSegment(g, s, v) then |s.components| else s.id[v]))
  }

  ghost predicate Closing(g: Graph, s: View, pos: nat, c: seq<nat>)
    requires Shape(g, s) && StackOk(g, s) && FramesOk(g, s)
  {
    && TopDone(g, s) && s.low[Top(s)] == s.order[Top(s)]
    && pos < |s.stack| && s.stack[pos] == Top(s)
    && Ascending(c) && (forall v: nat :: v in c <==> InSegment(g, s, v))
  }

  lemma CloseShape(g: Graph, s: View, pos: nat, c: seq<nat>)
    requires Shape(g, s) && StackOk(g, s) && FramesOk(g, s) && Closing(g, s, pos, c)
    ensures Shape(g, Close(g, s, pos, c))
  {
    var t := Close(g, s, pos, c);
    forall v | 0 <= v < |g|
      ensures t.id[v] >= 0 <==> Visited(t, v) && !t.onStack[v]
      ensures t.onStack[v] ==> Visited(t, v)
    {
    }
  }

  lemma CloseStack(g: Graph, s: View, pos: nat, c: seq<nat>)
    requires Shape(g, s) && StackOk(g, s) && FramesOk(g, s) && Closing(g, s, pos, c)
    ensures Shape(g, Close(g, s, pos, c)) && StackOk(g, Close(g, s, pos, c))
  {
    CloseShape(g, s, pos, c);
    var t := Close(g, s, pos, c);
    forall v | 0 <= v < |g| && t.onStack[v] ensures v in t.stack {
      var i :| 0 <= i < |s.stack| && s.stack[i] == v;
      assert i < pos;
      assert t.stack[i] == v;
    }
  }

  lemma CloseFrames(g: Graph, s: View, pos: nat, c: seq<nat>)
    requires Shape(g, s) && StackOk(g, s) && FramesOk(g, s) && Closing(g, s, pos, c)
    ensures Shape(g, Close(g, s, pos, c)) && FramesOk(g, Close(g, s, pos, c))
  {
    CloseShape(g, s, pos, c);
    var t := Close(g, s, pos, c);
    assert forall k :: 0 <= k < |t.frames| ==> t.frames[k] == s.frames[k];
  }

  lemma CloseEdges(g: Graph, s: View, pos: nat, c: seq<nat>)
    requires Shape(g, s) && StackOk(g, s) && FramesOk(g, s) && Closing(g, s, pos, c) && EdgesOk(g, s, false)
    ensures Shape(g, Close(g, s, pos, c)) && FramesOk(g, Close(g, s, pos, c)) && EdgesOk(g, Close(g, s, pos, c), false)
  {
    CloseFrames(g, s, pos, c);
    var t := Close(g, s, pos, c);
    forall u, i | 0 <= u < |g| && t.onStack[u] && !InFrame(t, u) && 0 <= i < |g[u]| ensures EdgeSeen(g, t, u, g[u][i]) {
      PopInFrame(g, s, u);
      assert InFrame(PopFrame(s), u) <==> InFrame(t, u);
      assert EdgeSeen(g, s, u, g[u][i]);
    }
    forall k, i | 0 <= k < |t.frames| && 0 <= i < t.frames[k].1
      ensures EdgeSeen(g, t, t.frames[k].0, g[t.frames[k].0][i])
    {
      assert EdgeSeen(g, s, s.frames[k].0, g[s.frames[k].0][i]);
    }
  }

  lemma CloseLow(g: Graph, s: View, pos: nat, c: seq<nat>)
    requires Shape(g, s) && StackOk(g, s) && FramesOk(g, s) && Closing(g, s, pos, c) && LowReached(g, s)
    requires LowBelow(g, s)
    ensures Shape(g, Close(g, s, pos, c)) && LowReached(g, Close(g, s, pos, c)) && LowBelow(g, Close(g, s, pos, c))
  {
    CloseShape(g, s, pos, c);
    var t := Close(g, s, pos, c);
    forall u | 0 <= u < |g| && t.onStack[u] ensures HasLow(g, t, u) {
      assert HasLow(g, s, u);
      var w: nat :| LowWitness(g, s, u, w);
      assert LowWitness(g, t, u, w);
    }
    forall u | 0 <= u < |g| && t.onStack[u]
      ensures t.low[u] <= t.order[u] && (!InFrame(t, u) ==> t.low[u] < t.order[u])
    {
      PopInFrame(g, s, u);
      assert InFrame(PopFrame(s), u) <==> InFrame(t, u);
    }
  }

  lemma CloseUnder(g: Graph, s: View, pos: nat, c: seq<nat>, k: nat, u: nat)
    requires Shape(g, s) && StackOk(g, s) && FramesOk(g, s) && Closing(g, s, pos, c)
    requires Shape(g, Close(g, s, pos, c)) && FramesOk(g, Close(g, s, pos, c))
    requires k < |s.frames| - 1 && u < |g| && Under(g, Close(g, s, pos, c), k, u)
    ensures Under(g, s, k, u)
  {
    PopInFrame(g, s, u);
    assert InFrame(PopFrame(s), u) <==> InFrame(Close(g, s, pos, c), u);
  }

  lemma CloseTree(g: Graph, s: View, pos: nat, c: seq<nat>)
    requires Shape(g, s) && StackOk(g, s) && FramesOk(g, s) && Closing(g, s, pos, c) && TreeOk(g, s)
    ensures Shape(g, Close(g, s, pos, c)) && FramesOk(g, Close(g, s, pos, c)) && TreeOk(g, Close(g, s, pos, c))
  {
    CloseFrames(g, s, pos, c);
    var t := Close(g, s, pos, c);
    forall k, u | 0 <= k < |t.frames| && 0 <= u < |g| && Under(g, t, k, u) ensures t.low[t.frames[k].0] <= t.low[u] {
      CloseUnder(g, s, pos, c, k, u);
    }
    forall k, u | 0 <= k < |t.frames| && 0 <= u < |g| && t.onStack[u] && t.order[t.frames[k].0] <= t.order[u]
      ensures Reaches(g, t.frames[k].0, u)
    {
      assert Reaches(g, s.frames[k].0, u);
    }
  }

  lemma SegmentConnected(g: Graph, s: View, u: nat, v: nat)
    requires Shape(g, s) && FramesOk(g, s) && LowReached(g, s) && LowBelow(g, s) && TreeOk(g, s) && |s.frames| > 0
    requires s.low[Top(s)] == s.order[Top(s)] && InSegment(g, s, u) && InSegment(g, s, v)
    ensures Reaches(g, u, v)
  {
    SegmentReachesTop(g, s, u);
    assert Reaches(g, s.frames[|s.frames| - 1].0, v);
    ReachesTransitive(g, u, Top(s), v);
  }

  lemma CloseMembers(g: Graph, s: View, pos: nat, c: seq<nat>, i: nat, v: nat)
    requires Shape(g, s) && StackOk(g, s) && FramesOk(g, s) && ComponentsOk(g, s) && Closing(g, s, pos, c)
    requires i <= |s.components|
    ensures v in Close(g, s, pos, c).components[i] <==> v < |g| && Close(g, s, pos, c).id[v] == i
  {
    if i < |s.components| {
      assert v in s.components[i] <==> v < |g| && s.id[v] == i;
    } else {
      assert v in c <==> InSegment(g, s, v);
    }
  }

  lemma CloseComponents(g: Graph, s: View, pos: nat, c: seq<nat>)
    requires Inv(g, s, false) && Closing(g, s, pos, c)
    ensures Shape(g, Close(g, s, pos, c)) && ComponentsOk(g, Close(g, s, pos, c))
  {
    CloseShape(g, s, pos, c);
    var t, last := Close(g, s, pos, c), |s.components|;
    assert InSegment(g, s, Top(s));
    forall i | 0 <= i < |t.components| ensures t.components[i] != [] && Ascending(t.components[i]) {
    }
    forall i, v: nat | 0 <= i < |t.components| ensures v in t.components[i] <==> v < |g| && t.id[v] == i {
      CloseMembers(g, s, pos, c, i, v);
    }
    forall u, v | 0 <= u < |g| && 0 <= v < |g| && t.id[u] == t.id[v] && t.id[u] >= 0 ensures Reaches(g, u, v) {
      if t.id[u] == last { SegmentConnected(g, s, u, v); }
    }
    forall v, i | 0 <= v < |g| && 0 <= i < |g[v]| && t.id[v] >= 0 ensures 0 <= t.id[g[v][i]] <= t.id[v] {
      if InSegment(g, s, v) { SegmentClosed(g, s, v, i); }
    }
  }

  lemma CloseKeepsInv(g: Graph, s: View, pos: nat, c: seq<nat>)
    requires Inv(g, s, false) && Closing(g, s, pos, c)
    ensures Inv(g, Close(g, s, pos, c), false)
  {
    CloseStack(g, s, pos, c);
    CloseFrames(g, s, pos, c);
    CloseEdges(g, s, pos, c);
    CloseLow(g, s, pos, c);
    CloseTree(g, s, pos, c);
    CloseComponents(g, s, pos, c);
  }

  // ---------------------------------------------------------------------------------------------
  // What the invariant gives once every node is finished
  // ---------------------------------------------------------------------------------------------

  ghost predicate Finished(g: Graph, s: View) {
    && Shape(g, s) && ComponentsOk(g, s)
    && (forall v :: 0 <= v < |g| ==> s.id[v] >= 0)
  }

  lemma ReachesOnlyEarlier(g: Graph, s: View, u: nat, v: nat)
    requires Finished(g, s) && u < |g| && Reaches(g, u, v)
    ensures v < |g| && s.id[v] <= s.id[u]
  {
    var p :| PathBetween(g, p, u, v);
    var earlier := iset x: nat | x < |g| && s.id[x] <= s.id[u];
    ClosedUnderReaches(g, earlier, p);
  }

  lemma FinishedIsPartition(g: Graph, s: View)
    requires Finished(g, s)
    ensures Partition(s.components, |g|)
  {
    forall i, v: nat | 0 <= i < |s.components| && v in s.components[i] ensures v < |g| && s.id[v] == i {
    }
    forall v | 0 <= v < |g| ensures Listed(s.components, v) {
      assert v in s.components[s.id[v]];
    }
    forall i, j, v: nat | 0 <= i < |s.components| && 0 <= j < |s.components| && v in s.components[i]
      && v in s.components[j]
      ensures i == j
    {
      assert s.id[v] == i && s.id[v] == j;
    }
  }

  lemma FinishedIsStronglyConnected(g: Graph, s: View)
    requires Finished(g, s)
    ensures StronglyConnected(g, s.components) && AfterDependencies(g, s.components)
  {
    forall i, j, u, v | 0 <= i < |s.components| && 0 <= j < |s.components| && u in s.components[i]
      && v in s.components[j]
      ensures i == j <==> Reaches(g, u, v) && Reaches(g, v, u)
      ensures Reaches(g, u, v) ==> j <= i
    {
      assert s.id[u] == i && s.id[v] == j;
      if Reaches(g, u, v) { ReachesOnlyEarlier(g, s, u, v); }
      if Reaches(g, v, u) { ReachesOnlyEarlier(g, s, v, u); }
    }
  }

  // ---------------------------------------------------------------------------------------------
  // The algorithm
  // ---------------------------------------------------------------------------------------------

  /** Edges still to look at from the open frames, plus one for each frame to pop. */
  ghost function Work(g: Graph, frames: seq<(nat, nat)>): int {
    if frames == [] then 0
    else
      var (node, i) := frames[|frames| - 1];
      Work(g, frames[..|frames| - 1]) + 1 + (if node < |g| then |g[node]| - i else 0)
  }

  lemma WorkAdvances(g: Graph, frames: seq<(nat, nat)>)
    requires |frames| > 0 && frames[|frames| - 1].0 < |g|
    ensures Work(g, frames[|frames| - 1 := (frames[|frames| - 1].0, frames[|frames| - 1].1 + 1)]) < Work(g, frames)
  {
    var advanced := frames[|frames| - 1 := (frames[|frames| - 1].0, frames[|frames| - 1].1 + 1)];
    assert advanced[..|frames| - 1] == frames[..|frames| - 1];
  }

  lemma WorkPops(g: Graph, frames: seq<(nat, nat)>)
    requires |frames| > 0 && (frames[|frames| - 1].0 < |g| ==> frames[|frames| - 1].1 <= |g[frames[|frames| - 1].0]|)
    ensures Work(g, frames[..|frames| - 1]) < Work(g, frames)
  {
  }

  lemma {:induction false} WorkNonNegative(g: Graph, frames: seq<(nat, nat)>)
    requires forall k :: 0 <= k < |frames| ==> frames[k].0 < |g| && frames[k].1 <= |g[frames[k].0]|
    ensures Work(g, frames) >= 0
  {
    if frames != [] { WorkNonNegative(g, frames[..|frames| - 1]); }
  }

  /** The positions of `stack` from `k` up, last first. */
  ghost predicate PoppedFrom(stack: seq<nat>, k: nat, popped: seq<nat>)
    requires k <= |stack|
  {
    |popped| == |stack| - k && forall j :: 0 <= j < |popped| ==> popped[j] == stack[|stack| - 1 - j]
  }

  /** Pop the stack down to and including `node`. */
  method PopComponent(stack: seq<nat>, onStack: array<bool>, node: nat, ghost pos: nat) returns (rest: seq<nat>,
        component: seq<nat>)
    requires pos < |stack| && stack[pos] == node
    requires forall i :: 0 <= i < |stack| ==> stack[i] < onStack.Length
    requires forall i, j :: 0 <= i < j < |stack| ==> stack[i] != stack[j]
    modifies onStack
    ensures rest == stack[..pos]
    ensures forall v :: v in component <==> v in stack[pos..]
    ensures forall i, j :: 0 <= i < j < |component| ==> component[i] != component[j]
    ensures forall v :: 0 <= v < onStack.Length ==> onStack[v] == (old(onStack[v]) && v !in component)
  {
    rest, component := stack, [];
    while true
      invariant pos < |rest| && rest == stack[..|rest|]
      invariant PoppedFrom(stack, |rest|, component)
      invariant forall v :: 0 <= v < onStack.Length ==> onStack[v] == (old(onStack[v]) && v !in component)
      decreases |rest|
    {
      var member := rest[|rest| - 1];
      rest := rest[..|rest| - 1];
      onStack[member] := false;
      component := component + [member];
      if member == node {
        break;
      }
    }
    assert |rest| == pos;
    forall v | v in stack[pos..] ensures v in component {
      var i :| pos <= i < |stack| && stack[i] == v;
      assert component[|stack| - 1 - i] == v;
    }
  }

  /** Give `v` the next visit number and put it on the stack. */
  method Enter(order: array<nat>, low: array<nat>, onStack: array<bool>, v: nat, next: nat)
    requires v < order.Length == low.Length == onStack.Length && order != low
    modifies order, low, onStack
    ensures order[..] == old(order[..])[v := next] && low[..] == old(low[..])[v := next]
    ensures onStack[..] == old(onStack[..])[v := true]
  {
    order[v] := next;
    low[v] := next;
    onStack[v] := true;
  }

  /** `Inv`, behind a quantifier that only a `Seal` term opens, so that the methods carry it as a whole. */
  ghost predicate Sealed(g: Graph, s: View) {
    forall k {:trigger Seal(k)} :: Seal(k) ==> Inv(g, s, false)
  }

  lemma Open(g: Graph, s: View)
    requires Sealed(g, s)
    ensures Inv(g, s, false)
  {
    assert Seal(0);
  }

  /** The bounds the code relies on. */
  lemma Bounds(g: Graph, s: View)
    requires Sealed(g, s)
    ensures |s.order| == |s.low| == |s.onStack| == |s.id| == |g|
    ensures forall k :: 0 <= k < |s.frames| ==> s.frames[k].0 < |g| && s.frames[k].1 <= |g[s.frames[k].0]|
    ensures forall i :: 0 <= i < |s.stack| ==> s.stack[i] < |g|
    ensures forall i, j :: 0 <= i < j < |s.stack| ==> s.stack[i] != s.stack[j]
    ensures |s.frames| > 0 ==> exists pos :: 0 <= pos < |s.stack| && s.stack[pos] == Top(s)
    ensures forall v, i :: 0 <= v < |g| && 0 <= i < |g[v]| ==> g[v][i] < |g|
  {
    Open(g, s);
    if |s.frames| > 0 {
      assert Top(s) in s.stack;
    }
  }

  /** What the code relies on about the top frame. */
  lemma TopBounds(g: Graph, s: View)
    requires Sealed(g, s) && |s.frames| > 0
    ensures |s.order| == |s.low| == |s.onStack| == |s.id| == |g| && Top(s) < |g|
    ensures s.frames[|s.frames| - 1].1 <= |g[Top(s)]|
    ensures s.frames[|s.frames| - 1].1 < |g[Top(s)]| ==> g[Top(s)][s.frames[|s.frames| - 1].1] < |g|
  {
    Bounds(g, s);
  }

  lemma VisitTargetStep(g: Graph, s: View, target: nat)
    requires Sealed(g, s) && |s.frames| > 0 && Top(s) < |g| && s.frames[|s.frames| - 1].1 < |g[Top(s)]|
    requires target == g[Top(s)][s.frames[|s.frames| - 1].1]
    requires target < |g| == |s.order| == |s.low| == |s.onStack| && s.order[target] == UNVISITED
    ensures Sealed(g, Visit(Advance(s), target))
    ensures Unvisited(s.order[target := s.next]) < Unvisited(s.order)
  {
    Open(g, s);
    AdvanceKeepsInv(g, s);
    VisitKeepsInv(g, Advance(s), target);
    VisitShape(g, s, target);
    UnvisitedShrinks(s.order, target, s.next);
    assert target in Unvisited(s.order);
  }

  lemma SeeTargetStep(g: Graph, s: View, target: nat)
    requires Sealed(g, s) && |s.frames| > 0 && Top(s) < |g| && s.frames[|s.frames| - 1].1 < |g[Top(s)]|
    requires target == g[Top(s)][s.frames[|s.frames| - 1].1]
    requires target < |g| == |s.order| == |s.low| == |s.onStack| && s.order[target] != UNVISITED
    ensures s.onStack[target] ==> Sealed(g, Lower(Advance(s), Top(s), s.order[target]))
    ensures !s.onStack[target] ==> Sealed(g, Advance(s))
  {
    Open(g, s);
    AdvanceKeepsInv(g, s);
    SeeKeepsInv(g, Advance(s), target);
  }

  /** The top frame is popped, its parent inheriting its `low`. */
  ghost function Return(s: View): View
    requires |s.frames| > 0
    requires forall k :: 0 <= k < |s.frames| ==> s.frames[k].0 < |s.low|
  {
    if |s.frames| == 1 then s else Lower(s, s.frames[|s.frames| - 2].0, s.low[Top(s)])
  }

  lemma ReturnLow(g: Graph, s: View)
    requires Shape(g, s) && FramesOk(g, s) && TopDone(g, s)
    ensures Return(s).low[Top(s)] == s.low[Top(s)]
    ensures |s.frames| >= 2 ==> Return(s).low[s.frames[|s.frames| - 2].0] <= s.low[Top(s)]
  {
    if |s.frames| >= 2 {
      assert s.order[s.frames[|s.frames| - 2].0] < s.order[s.frames[|s.frames| - 1].0];
    }
  }

  lemma InheritSealed(g: Graph, s: View)
    requires Sealed(g, s) && |s.frames| >= 2
    requires forall k :: 0 <= k < |s.frames| ==> s.frames[k].0 < |s.low|
    ensures Sealed(g, Lower(s, s.frames[|s.frames| - 2].0, s.low[Top(s)]))
  {
    Open(g, s);
    InheritLowKeepsInv(g, s);
  }

  lemma ReturnSealed(g: Graph, s: View)
    requires Sealed(g, s) && |s.frames| > 0
    requires forall k :: 0 <= k < |s.frames| ==> s.frames[k].0 < |s.low|
    ensures Sealed(g, Return(s))
  {
    if |s.frames| >= 2 {
      InheritSealed(g, s);
      SameSealed(g, Lower(s, s.frames[|s.frames| - 2].0, s.low[Top(s)]), Return(s));
    } else {
      SameSealed(g, s, Return(s));
    }
  }

  lemma SameSealed(g: Graph, s: View, t: View)
    requires Sealed(g, s) && s == t
    ensures Sealed(g, t)
  {
  }

  lemma StayStep(g: Graph, s: View)
    requires Sealed(g, s) && |s.frames| > 0 && Top(s) < |g| && s.frames[|s.frames| - 1].1 == |g[Top(s)]|
    requires forall k :: 0 <= k < |s.frames| ==> s.frames[k].0 < |s.low| == |s.order|
    requires Return(s).low[Top(s)] != s.order[Top(s)]
    ensures Sealed(g, PopFrame(Return(s)))
  {
    ReturnSealed(g, s);
    StayLow(g, s);
    Open(g, Return(s));
    PopFrameKeepsInv(g, Return(s));
  }

  lemma StayLow(g: Graph, s: View)
    requires Sealed(g, s) && |s.frames| > 0 && Top(s) < |g| && s.frames[|s.frames| - 1].1 == |g[Top(s)]|
    requires forall k :: 0 <= k < |s.frames| ==> s.frames[k].0 < |s.low| == |s.order|
    ensures Return(s).low[Top(s)] == s.low[Top(s)]
    ensures |s.frames| >= 2 ==> Return(s).low[s.frames[|s.frames| - 2].0] <= s.low[Top(s)]
  {
    Open(g, s);
    ReturnLow(g, s);
  }

  lemma CloseStep(g: Graph, s: View, pos: nat, c: seq<nat>) returns (t: View)
    requires Sealed(g, s) && |s.frames| > 0 && Top(s) < |g| && s.frames[|s.frames| - 1].1 == |g[Top(s)]|
    requires forall k :: 0 <= k < |s.frames| ==> s.frames[k].0 < |s.low| == |s.order| == |s.onStack|
    requires Return(s).low[Top(s)] == s.order[Top(s)]
    requires pos < |s.stack| && s.stack[pos] == Top(s) && Ascending(c)
    requires forall v: nat :: v in c <==> v in s.stack[pos..]
    ensures Sealed(g, t) && t == Return(s).(frames := s.frames[..|s.frames| - 1], stack := s.stack[..pos],
                                            components := s.components + [c], onStack := t.onStack, id := t.id)
    ensures |t.onStack| == |s.onStack| && forall v :: 0 <= v < |s.onStack| ==> t.onStack[v] == (s.onStack[v] && v !in c)
  {
    ReturnSealed(g, s);
    Open(g, Return(s));
    t := CloseReturned(g, Return(s), pos, c);
  }

  lemma CloseReturned(g: Graph, s: View, pos: nat, c: seq<nat>) returns (t: View)
    requires Inv(g, s, false) && TopDone(g, s) && s.low[Top(s)] == s.order[Top(s)]
    requires pos < |s.stack| && s.stack[pos] == Top(s) && Ascending(c)
    requires forall v: nat :: v in c <==> v in s.stack[pos..]
    ensures Sealed(g, t) && t == s.(frames := s.frames[..|s.frames| - 1], stack := s.stack[..pos],
                                    components := s.components + [c], onStack := t.onStack, id := t.id)
    ensures |t.onStack| == |s.onStack| && forall v :: 0 <= v < |s.onStack| ==> t.onStack[v] == (s.onStack[v] && v !in c)
  {
    SegmentIsSuffix(g, s, pos, c);
    CloseKeepsInv(g, s, pos, c);
    t := Close(g, s, pos, c);
  }

  /** The stack from the top frame's node up is the segment it closes. */
  lemma SegmentIsSuffix(g: Graph, s: View, pos: nat, c: seq<nat>)
    requires Shape(g, s) && StackOk(g, s) && FramesOk(g, s) && |s.frames| > 0
    requires pos < |s.stack| && s.stack[pos] == Top(s) && forall v: nat :: v in c <==> v in s.stack[pos..]
    ensures forall v: nat :: v in c <==> InSegment(g, s, v)
  {
    forall v: nat ensures v in s.stack[pos..] <==> InSegment(g, s, v) {
      if InSegment(g, s, v) {
        var i :| 0 <= i < |s.stack| && s.stack[i] == v;
        assert i >= pos;
        assert s.stack[pos..][i - pos] == v;
      }
    }
  }

  /** One step of the top frame with an edge left: visit the edge's target, or account for it in `low`. */
  method FollowEdge(g: Graph, order: array<nat>, low: array<nat>, onStack: array<bool>, stack: seq<nat>,
        frames: seq<(nat, nat)>, next: nat, ghost components: seq<seq<nat>>, ghost id: seq<int>)
    returns (stack': seq<nat>, frames': seq<(nat, nat)>, next': nat)
    requires order != low && |frames| > 0 && frames[|frames| - 1].0 < |g|
    requires frames[|frames| - 1].1 < |g[frames[|frames| - 1].0]|
    requires Sealed(g, View(order[..], low[..], onStack[..], stack, frames, components, next, id))
    modifies order, low, onStack
    ensures Sealed(g, View(order[..], low[..], onStack[..], stack', frames', components, next', id))
    ensures KeepsVisited(old(order[..]), order[..])
    ensures Unvisited(order[..]) < Unvisited(old(order[..])) ||
            (Unvisited(order[..]) == Unvisited(old(order[..])) && Work(g, frames') < Work(g, frames))
  {
    ghost var s := View(order[..], low[..], onStack[..], stack, frames, components, next, id);
    TopBounds(g, s);
    var (node, edge) := frames[|frames| - 1];
    var target := g[node][edge];
    stack', next' := stack, next;
    frames' := frames[|frames| - 1 := (node, edge + 1)];
    if order[target] == UNVISITED {
      VisitTargetStep(g, s, target);
      Enter(order, low, onStack, target, next);
      next' := next + 1;
      stack' := stack + [target];
      frames' := frames' + [(target, 0)];
      assert View(order[..], low[..], onStack[..], stack', frames', components, next', id) == Visit(Advance(s), target);
    } else {
      SeeTargetStep(g, s, target);
      WorkAdvances(g, frames);
      if onStack[target] {
        low[node] := Min(low[node], order[target]);
        assert View(order[..], low[..], onStack[..], stack', frames', components, next', id)
            == Lower(Advance(s), node, s.order[target]);
      }
    }
  }

  /** One step of the top frame with no edge left: its node closes a component or stays on the stack. */
  method FinishNode(g: Graph, order: array<nat>, low: array<nat>, onStack: array<bool>, stack: seq<nat>,
        frames: seq<(nat, nat)>, components: seq<seq<nat>>, ghost next: nat, ghost id: seq<int>)
    returns (stack': seq<nat>, frames': seq<(nat, nat)>, components': seq<seq<nat>>, ghost id': seq<int>)
    requires order != low && |frames| > 0 && frames[|frames| - 1].0 < |g|
    requires frames[|frames| - 1].1 == |g[frames[|frames| - 1].0]|
    requires Sealed(g, View(order[..], low[..], onStack[..], stack, frames, components, next, id))
    modifies low, onStack
    ensures Sealed(g, View(order[..], low[..], onStack[..], stack', frames', components', next, id'))
    ensures frames' == frames[..|frames| - 1]
  {
    ghost var s := View(order[..], low[..], onStack[..], stack, frames, components, next, id);
    Bounds(g, s);
    var node := frames[|frames| - 1].0;
    frames' := frames[..|frames| - 1];
    stack', components', id' := stack, components, id;
    if |frames'| > 0 {
      var parent := frames'[|frames'| - 1].0;
      low[parent] := Min(low[parent], low[node]);
    }
    assert low[..] == Return(s).low;
    if low[node] == order[node] {
      ghost var pos :| 0 <= pos < |stack| && stack[pos] == node;
      var popped;
      stack', popped := PopComponent(stack, onStack, node, pos);
      var component := Sorted(popped);
      components' := components + [component];
      ghost var t := CloseStep(g, s, pos, component);
      id' := t.id;
      assert onStack[..] == t.onStack;
      assert View(order[..], low[..], onStack[..], stack', frames', components', next, id') == t;
    } else {
      StayStep(g, s);
      assert View(order[..], low[..], onStack[..], stack', frames', components', next, id') == PopFrame(Return(s));
    }
  }

  /** One step of the top frame. */
  method StepTop(g: Graph, order: array<nat>, low: array<nat>, onStack: array<bool>, stack: seq<nat>,
        frames: seq<(nat, nat)>, components: seq<seq<nat>>, next: nat, ghost id: seq<int>)
    returns (stack': seq<nat>, frames': seq<(nat, nat)>, components': seq<seq<nat>>, next': nat, ghost id': seq<int>)
    requires order != low && |frames| > 0
    requires Sealed(g, View(order[..], low[..], onStack[..], stack, frames, components, next, id))
    modifies order, low, onStack
    ensures Sealed(g, View(order[..], low[..], onStack[..], stack', frames', components', next', id'))
    ensures KeepsVisited(old(order[..]), order[..])
    ensures Unvisited(order[..]) < Unvisited(old(order[..])) ||
            (Unvisited(order[..]) == Unvisited(old(order[..])) && 0 <= Work(g, frames') < Work(g, frames))
  {
    ghost var s := View(order[..], low[..], onStack[..], stack, frames, components, next, id);
    TopBounds(g, s);
    stack', frames', components', next', id' := stack, frames, components, next, id;
    WorkPops(g, frames);
    if frames[|frames| - 1].1 < |g[frames[|frames| - 1].0]| {
      stack', frames', next' := FollowEdge(g, order, low, onStack, stack, frames, next, components, id);
    } else {
      stack', frames', components', id' := FinishNode(g, order, low, onStack, stack, frames, components, next, id);
    }
    WorkLeft(g, View(order[..], low[..], onStack[..], stack', frames', components', next', id'));
  }

  lemma WorkLeft(g: Graph, s: View)
    requires Sealed(g, s)
    ensures Work(g, s.frames) >= 0
  {
    Bounds(g, s);
    WorkNonNegative(g, s.frames);
  }

  /** Visit everything the root reaches. */
  method Explore(g: Graph, order: array<nat>, low: array<nat>, onStack: array<bool>, root: nat, stack: seq<nat>,
        components: seq<seq<nat>>, next: nat, ghost id: seq<int>)
    returns (stack': seq<nat>, components': seq<seq<nat>>, next': nat, ghost id': seq<int>)
    requires order != low && root < order.Length == low.Length == onStack.Length == |g| && order[root] == UNVISITED
    requires Sealed(g, View(order[..], low[..], onStack[..], stack, [], components, next, id))
    modifies order, low, onStack
    ensures Sealed(g, View(order[..], low[..], onStack[..], stack', [], components', next', id'))
    ensures KeepsVisited(old(order[..]), order[..]) && order[root] != UNVISITED
  {
    ghost var s := View(order[..], low[..], onStack[..], stack, [], components, next, id);
    RootStep(g, s, root);
    Enter(order, low, onStack, root, next);
    stack', components', next', id' := stack + [root], components, next + 1, id;
    var frames: seq<(nat, nat)> := [(root, 0)];
    assert View(order[..], low[..], onStack[..], stack', frames, components', next', id') == Visit(s, root);
    assert KeepsVisited(s.order, order[..]);
    WorkLeft(g, View(order[..], low[..], onStack[..], stack', frames, components', next', id'));
    while |frames| > 0
      invariant Sealed(g, View(order[..], low[..], onStack[..], stack', frames, components', next', id'))
      invariant KeepsVisited(s.order, order[..]) && order[..][root] != UNVISITED && Work(g, frames) >= 0
      decreases Unvisited(order[..]), Work(g, frames)
    {
      ghost var before := order[..];
      stack', frames, components', next', id' :=
        StepTop(g, order, low, onStack, stack', frames, components', next', id');
      assert before[root] != UNVISITED;
      if Unvisited(order[..]) != Unvisited(before) {
        WorkLeft(g, View(order[..], low[..], onStack[..], stack', frames, components', next', id'));
      }
    }
  }

  /** Strongly connected components of a dependency graph, each listed after every component it depends on. */
  method ComponentsAfterDependencies(dependencies: Graph) returns (components: seq<seq<nat>>)
    requires InRange(dependencies) && |dependencies| < UNVISITED
    ensures Partition(components, |dependencies|)
    ensures StronglyConnected(dependencies, components)
    ensures AfterDependencies(dependencies, components)
  {
    var n := |dependencies|;
    var order := new nat[n](_ => UNVISITED);
    var low := new nat[n](_ => 0);
    var onStack := new bool[n](_ => false);
    var stack: seq<nat> := [];
    components := [];
    var next: nat := 0;
    ghost var id: seq<int> := seq(n, _ => -1);
    StartInv(dependencies, View(order[..], low[..], onStack[..], stack, [], components, next, id));
    for root := 0 to n
      invariant Sealed(dependencies, View(order[..], low[..], onStack[..], stack, [], components, next, id))
      invariant VisitedUpTo(order[..], root)
    {
      if order[root] != UNVISITED {
        continue;
      }
      stack, components, next, id := Explore(dependencies, order, low, onStack, root, stack, components, next, id);
    }
    FinishedResult(dependencies, View(order[..], low[..], onStack[..], stack, [], components, next, id));
  }

  /** Visit numbers are given once. */
  ghost predicate KeepsVisited(before: seq<nat>, after: seq<nat>) {
    |before| == |after| && forall v :: 0 <= v < |before| && before[v] != UNVISITED ==> after[v] == before[v]
  }

  ghost predicate VisitedUpTo(order: seq<nat>, n: nat) {
    n <= |order| && forall v :: 0 <= v < n ==> order[v] != UNVISITED
  }

  lemma RootStep(g: Graph, s: View, root: nat)
    requires Sealed(g, s) && s.frames == [] && root < |g| == |s.order| == |s.low| == |s.onStack|
    requires s.order[root] == UNVISITED
    ensures Sealed(g, Visit(s, root)) && s.next != UNVISITED
  {
    Open(g, s);
    VisitKeepsInv(g, s, root);
    VisitShape(g, s, root);
  }

  lemma FinishedResult(g: Graph, s: View)
    requires Sealed(g, s) && s.frames == [] && |s.order| == |g| && forall v :: 0 <= v < |g| ==> Visited(s, v)
    ensures Partition(s.components, |g|) && StronglyConnected(g, s.components) && AfterDependencies(g, s.components)
  {
    Open(g, s);
    assert Finished(g, s);
    FinishedIsPartition(g, s);
    FinishedIsStronglyConnected(g, s);
  }

  lemma StartInv(g: Graph, s: View)
    requires InRange(g) && |g| < UNVISITED
    requires s.order == seq(|g|, _ => UNVISITED) && |s.low| == |g| && s.onStack == seq(|g|, _ => false)
    requires s.stack == [] && s.frames == [] && s.components == [] && s.next == 0 && s.id == seq(|g|, _ => -1)
    ensures Sealed(g, s)
  {
    AllUnvisited(s.order);
    assert Inv(g, s, false);
  }

  lemma {:induction false} AllUnvisited(order: seq<nat>)
    requires forall v :: 0 <= v < |order| ==> order[v] == UNVISITED
    ensures |Unvisited(order)| == |order|
  {
    if |order| > 0 {
      var rest := order[..|order| - 1];
      AllUnvisited(rest);
      assert Unvisited(order) == Unvisited(rest) + {|rest|};
    } else {
      assert Unvisited(order) == {};
    }
  }
}
