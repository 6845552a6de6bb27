/** Directed graphs in the adjacency-list form the scheduler builds, and reachability in them. */
module Graphs {

  /** `g[v]` lists the nodes that `v` depends on, repeats allowed. */
  type Graph = seq<seq<nat>>

  /** Every edge ends at a node of the graph. */
  ghost predicate InRange(g: Graph) {
    forall v, i :: 0 <= v < |g| && 0 <= i < |g[v]| ==> g[v][i] < |g|
  }

  ghost predicate Step(g: Graph, p: seq<nat>, i: nat)
    requires i + 1 < |p|
  {
    p[i] < |g| && p[i + 1] in g[p[i]]
  }

  ghost predicate Path(g: Graph, p: seq<nat>) {
    && |p| > 0
    && p[|p| - 1] < |g|
    && (forall i {:trigger Step(g, p, i)} :: 0 <= i < |p| - 1 ==> Step(g, p, i))
  }

  ghost predicate PathBetween(g: Graph, p: seq<nat>, u: nat, v: nat) {
    Path(g, p) && p[0] == u && p[|p| - 1] == v
  }

  /** `v` can be reached from `u` along zero or more edges. */
  ghost predicate Reaches(g: Graph, u: nat, v: nat) {
    exists p :: PathBetween(g, p, u, v)
  }

  lemma ReachesSelf(g: Graph, u: nat)
    requires u < |g|
    ensures Reaches(g, u, u)
  {
    assert PathBetween(g, [u], u, u);
  }

  lemma ReachesTransitive(g: Graph, u: nat, v: nat, w: nat)
    requires Reaches(g, u, v) && Reaches(g, v, w)
    ensures Reaches(g, u, w)
  {
    var p :| PathBetween(g, p, u, v);
    var q :| PathBetween(g, q, v, w);
    var r := p + q[1..];
    forall i | 0 <= i < |r| - 1 ensures Step(g, r, i) {
      if i < |p| - 1 { assert Step(g, p, i); } else { assert Step(g, q, i - (|p| - 1)); }
    }
    assert PathBetween(g, r, u, w);
  }

  lemma ReachesEdge(g: Graph, u: nat, i: nat)
    requires InRange(g) && u < |g| && i < |g[u]|
    ensures Reaches(g, u, g[u][i])
  {
    var p := [u, g[u][i]];
    assert Step(g, p, 0);
    assert PathBetween(g, p, u, g[u][i]);
  }

  /** A set that every edge from it stays inside is not left by any path. */
  lemma {:induction false} ClosedUnderReaches(g: Graph, s: iset<nat>, p: seq<nat>)
    requires Path(g, p) && p[0] in s
    requires forall v, i :: v in s && v < |g| && 0 <= i < |g[v]| ==> g[v][i] in s
    ensures p[|p| - 1] in s
    decreases |p|
  {
    if |p| > 1 {
      assert Step(g, p, 0);
      forall i | 0 <= i < |p| - 2 ensures Step(g, p[1..], i) {
        assert Step(g, p, i + 1);
      }
      var i :| 0 <= i < |g[p[0]]| && g[p[0]][i] == p[1];
      ClosedUnderReaches(g, s, p[1..]);
    }
  }
}
