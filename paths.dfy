/** Reachability in a directed graph given as a set of edges: the "is there still a path to
    the goal sentinel" query that the sentinel edges of construire_graphe exist for
    (quoridor.py:71-74), in the role of networkx's has_path. */
module Paths {
  import opened Board

  /** p is a non-empty walk along edges of g. */
  ghost predicate IsPath(g: set<(Node, Node)>, p: seq<Node>) {
    |p| >= 1 && forall i :: 0 <= i < |p| - 1 ==> (p[i], p[i + 1]) in g
  }

  ghost predicate Reachable(g: set<(Node, Node)>, a: Node, b: Node) {
    exists p :: IsPath(g, p) && p[0] == a && p[|p| - 1] == b
  }

  /** The successors of n in g. */
  function Next(g: set<(Node, Node)>, n: Node): (s: set<Node>)
    ensures forall m :: m in s <==> (n, m) in g
  {
    set e | e in g && e.0 == n :: e.1
  }

  /** Every node an edge of g leads to. */
  function Heads(g: set<(Node, Node)>): (s: set<Node>)
    ensures forall n, m :: (n, m) in g ==> m in s
  {
    set e | e in g :: e.1
  }

  lemma ReachableStep(g: set<(Node, Node)>, a: Node, n: Node, m: Node)
    requires Reachable(g, a, n) && (n, m) in g
    ensures Reachable(g, a, m)
  {
    var p :| IsPath(g, p) && p[0] == a && p[|p| - 1] == n;
    var q := p + [m];
    forall i | 0 <= i < |q| - 1 ensures (q[i], q[i + 1]) in g {
      if i + 1 < |p| { assert q[i] == p[i] && q[i + 1] == p[i + 1]; }
    }
    assert IsPath(g, q) && q[0] == a && q[|q| - 1] == m;
  }

  /** A set that holds a and is closed under the edges of g holds the end of every path from a. */
  lemma {:induction false} ClosedHoldsPath(g: set<(Node, Node)>, s: set<Node>, p: seq<Node>)
    requires IsPath(g, p) && p[0] in s
    requires forall n, m :: n in s && (n, m) in g ==> m in s
    ensures p[|p| - 1] in s
  {
    if |p| > 1 {
      var q := p[..|p| - 1];
      assert IsPath(g, q) by {
        forall i | 0 <= i < |q| - 1 ensures (q[i], q[i + 1]) in g {
          assert q[i] == p[i] && q[i + 1] == p[i + 1];
        }
      }
      ClosedHoldsPath(g, s, q);
      assert (p[|p| - 2], p[|p| - 1]) in g;
    }
  }

  /** Explores the nodes reachable from src, one node of the frontier at a time, and
      reports whether dst is among them. */
  method HasPath(g: set<(Node, Node)>, src: Node, dst: Node) returns (found: bool)
    ensures found <==> Reachable(g, src, dst)
  {
    var all := Heads(g) + {src};
    var visited, frontier := {src}, {src};
    assert IsPath(g, [src]);
    while frontier != {}
      invariant frontier <= visited <= all
      invariant src in visited
      invariant forall n :: n in visited ==> Reachable(g, src, n)
      invariant forall n, m :: n in visited - frontier && (n, m) in g ==> m in visited
      decreases all - visited, |frontier|
    {
      var n :| n in frontier;
      var newly := Next(g, n) - visited;
      forall m | m in newly ensures Reachable(g, src, m) {
        ReachableStep(g, src, n, m);
      }
      visited := visited + newly;
      frontier := frontier - {n} + newly;
    }
    found := dst in visited;
    if Reachable(g, src, dst) {
      var p :| IsPath(g, p) && p[0] == src && p[|p| - 1] == dst;
      ClosedHoldsPath(g, visited, p);
    }
  }
}
