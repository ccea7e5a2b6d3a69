/** The movement graph of construire_graphe (quoridor.py:12-76).

    The graph is a set of directed edges. The spec functions below describe
    each of its five construction stages as a value; the methods build the
    same graph step by step with the loops of the source and are proved equal
    to those values. */
module Graph {
  import opened Board

  /** The 81 squares of the board. */
  function Cells(): (s: set<Cell>)
    ensures forall c :: c in s <==> OnBoard(c)
  {
    var s := set x, y | 1 <= x <= 9 && 1 <= y <= 9 :: Cell(x, y);
    assert forall c | OnBoard(c) :: c == Cell(c.x, c.y) && Cell(c.x, c.y) in s;
    s
  }

  /** Stage 1: an edge from every square to each orthogonal neighbour on the board. */
  function BaseGraph(): (g: set<Edge>)
    ensures forall a, b :: (a, b) in g <==> OnBoard(a) && OnBoard(b) && Adjacent(a, b)
  {
    set a, b | a in Cells() && b in Cells() && Adjacent(a, b) :: (a, b)
  }

  /** Every edge the walls of the list ws remove. */
  function Cuts(ws: seq<Cell>, o: Orientation): (cut: set<Edge>)
  {
    if ws == [] then {} else Cuts(ws[..|ws| - 1], o) + Cut(ws[|ws| - 1], o)
  }

  /** Stages 2 and 3: the base graph less the edges the horizontal and the vertical walls cut. */
  function WallGraph(murh: seq<Cell>, murv: seq<Cell>): (g: set<Edge>)
    ensures g <= BaseGraph()
  {
    BaseGraph() - Cuts(murh, Horizontal) - Cuts(murv, Vertical)
  }

  function Preds(g: set<Edge>, j: Cell): (s: set<Cell>)
    ensures forall p :: p in s <==> (p, j) in g
  {
    set e | e in g && e.1 == j :: e.0
  }

  function Succs(g: set<Edge>, j: Cell): (s: set<Cell>)
    ensures forall d :: d in s <==> (j, d) in g
  {
    set e | e in g && e.0 == j :: e.1
  }

  predicate NoSelfLoop(g: set<Edge>) {
    forall e :: e in g ==> e.0 != e.1
  }

  /** Where a pawn standing on p may go instead of onto the occupied square j
      (quoridor.py:59-69): the straight jump Beyond(p, j) when it is still a
      successor of j and is not a pawn's square; otherwise every successor of
      j other than p that is not a pawn's square. */
  function JumpTargets(g: set<Edge>, j: Cell, p: Cell, occ: seq<Cell>): (r: set<Cell>)
    ensures forall t :: t in r <==>
      if (j, Beyond(p, j)) in g && Beyond(p, j) !in occ then t == Beyond(p, j)
      else (j, t) in g && t != p && t !in occ
  {
    var s := Beyond(p, j);
    if s in Succs(g, j) && s !in occ then {s}
    else set d | d in Succs(g, j) && d != p && d !in occ
  }

  /** Stage 4 for one pawn on j: every edge into j is replaced by the edges to its jump targets. */
  function Occupy(g: set<Edge>, j: Cell, occ: seq<Cell>): (h: set<Edge>)
  {
    (set e | e in g && e.1 != j)
    + (set p, t | p in Preds(g, j) && t in JumpTargets(g, j, p, occ) :: (p, t))
  }

  /** Stage 4 for the pawns of ps, in list order. */
  function OccupyAll(g: set<Edge>, ps: seq<Cell>, occ: seq<Cell>): (h: set<Edge>)
  {
    if ps == [] then g else Occupy(OccupyAll(g, ps[..|ps| - 1], occ), ps[|ps| - 1], occ)
  }

  /** Stage 5: the square graph with the goal sentinels, B1 after every row-9 square, B2 after every row-1 square. */
  function WithGoals(g: set<Edge>): (r: set<(Node, Node)>)
    ensures forall a, b :: (a, b) in g ==> (At(a), At(b)) in r
  {
    (set e | e in g :: (At(e.0), At(e.1)))
    + (set x | 1 <= x <= 9 :: (At(Cell(x, 9)), B1))
    + (set x | 1 <= x <= 9 :: (At(Cell(x, 1)), B2))
  }

  /** The graph construire_graphe returns for the pawns ps and the walls murh and murv. */
  function MoveGraph(ps: seq<Cell>, murh: seq<Cell>, murv: seq<Cell>): (graphe: set<(Node, Node)>)
  {
    WithGoals(OccupyAll(WallGraph(murh, murv), ps, ps))
  }

  // ---------------------------------------------------------------------------
  // Facts the construction methods rely on

  /** Two sets of pairs with the same members are equal. */
  lemma PairSetsEqual<A, B>(s: set<(A, B)>, t: set<(A, B)>)
    requires forall a, b :: (a, b) in s <==> (a, b) in t
    ensures s == t
  {
    forall e | e in s ensures e in t { assert (e.0, e.1) == e; }
    forall e | e in t ensures e in s { assert (e.0, e.1) == e; }
  }

  lemma {:induction false} CutsExact(ws: seq<Cell>, o: Orientation, e: Edge)
    ensures e in Cuts(ws, o) <==> exists i :: 0 <= i < |ws| && e in Cut(ws[i], o)
  {
    if ws != [] {
      var n := |ws| - 1;
      CutsExact(ws[..n], o, e);
      if e in Cuts(ws[..n], o) {
        var i :| 0 <= i < n && e in Cut(ws[..n][i], o);
        assert ws[..n][i] == ws[i];
      }
      if exists i :: 0 <= i < |ws| && e in Cut(ws[i], o) {
        var i :| 0 <= i < |ws| && e in Cut(ws[i], o);
        if i < n { assert ws[..n][i] == ws[i]; }
      }
    }
  }

  /** A wall inside its anchor range cuts only edges of the base graph. */
  lemma CutInBase(w: Cell, o: Orientation)
    requires AnchorInBounds(w, o)
    ensures Cut(w, o) <= BaseGraph()
  {
  }

  /** Horizontal walls cut only edges within a column, vertical walls only edges within a row. */
  lemma {:induction false} CutsAxis(ws: seq<Cell>, o: Orientation, e: Edge)
    requires e in Cuts(ws, o)
    ensures o.Horizontal? ==> e.0.x == e.1.x
    ensures o.Vertical? ==> e.0.y == e.1.y && e.0.x != e.1.x
  {
    CutsExact(ws, o, e);
  }

  lemma OccupyExact(g: set<Edge>, j: Cell, occ: seq<Cell>, a: Cell, b: Cell)
    ensures (a, b) in Occupy(g, j, occ) <==>
      ((a, b) in g && b != j) || ((a, j) in g && b in JumpTargets(g, j, a, occ))
  {
    if (a, j) in g && b in JumpTargets(g, j, a, occ) {
      assert a in Preds(g, j);
    }
  }

  lemma OccupyNoSelfLoop(g: set<Edge>, j: Cell, occ: seq<Cell>)
    requires NoSelfLoop(g)
    ensures NoSelfLoop(Occupy(g, j, occ))
  {
    forall e | e in Occupy(g, j, occ) ensures e.0 != e.1 {
      OccupyExact(g, j, occ, e.0, e.1);
    }
  }

  // ---------------------------------------------------------------------------
  // The construction, stage by stage

  /** Stage 1 (quoridor.py:21-35): for every square, add the edges to its neighbours on the board. */
  method BaseEdges() returns (g: set<Edge>)
    ensures g == BaseGraph()
  {
    g := {};
    for x := 1 to 10
      invariant forall a, b :: (a, b) in g <==>
        OnBoard(a) && OnBoard(b) && Adjacent(a, b) && a.x < x
    {
      for y := 1 to 10
        invariant forall a, b :: (a, b) in g <==>
          OnBoard(a) && OnBoard(b) && Adjacent(a, b) && (a.x < x || (a.x == x && a.y < y))
      {
        var c := Cell(x, y);
        if x > 1 { g := g + {(c, Cell(x - 1, y))}; }
        if x < 9 { g := g + {(c, Cell(x + 1, y))}; }
        if y > 1 { g := g + {(c, Cell(x, y - 1))}; }
        if y < 9 { g := g + {(c, Cell(x, y + 1))}; }
      }
    }
    PairSetsEqual(g, BaseGraph());
  }

  /** Stages 2 and 3 (quoridor.py:37-49): remove the four edges of each wall in turn.
      networkx raises on the removal of a missing edge; the requires clauses are the
      condition under which every removed edge is still present, as the asserts check. */
  method RemoveWallEdges(g: set<Edge>, ws: seq<Cell>, o: Orientation) returns (r: set<Edge>)
    requires forall i :: 0 <= i < |ws| ==> Cut(ws[i], o) <= g
    requires NoOverlap(ws, o)
    ensures r == g - Cuts(ws, o)
  {
    r := g;
    for i := 0 to |ws|
      invariant r == g - Cuts(ws[..i], o)
    {
      assert ws[..i + 1][..i] == ws[..i];
      forall e | e in Cut(ws[i], o) ensures e !in Cuts(ws[..i], o) {
        CutsExact(ws[..i], o, e);
        if e in Cuts(ws[..i], o) {
          var k :| 0 <= k < i && e in Cut(ws[..i][k], o);
          assert ws[..i][k] == ws[k];
          OverlapExact(ws[k], ws[i], o);
        }
      }
      assert Cut(ws[i], o) <= r;
      r := r - Cut(ws[i], o);
    }
    assert ws[..|ws|] == ws;
  }

  /** Adds an edge from p to every square of ds other than p that holds no pawn (quoridor.py:67-69). */
  method AddDiagonals(h: set<Edge>, p: Cell, ds: set<Cell>, occ: seq<Cell>) returns (r: set<Edge>)
    ensures forall a, b :: (a, b) in r <==> (a, b) in h || (a == p && b in ds && b != p && b !in occ)
  {
    r := h;
    var rest := ds;
    while rest != {}
      invariant rest <= ds
      invariant forall a, b :: (a, b) in r <==>
        (a, b) in h || (a == p && b in ds - rest && b != p && b !in occ)
      decreases |rest|
    {
      var d :| d in rest;
      if p != d && d !in occ {
        r := r + {(p, d)};
      }
      rest := rest - {d};
    }
  }

  /** Stage 4 for the pawn on j (quoridor.py:55-69): the predecessors of j are taken once,
      then each edge p -> j is removed and replaced by the jump edges from p.
      The successors of j do not change during the loop, so the order in which the
      predecessors are visited does not matter. */
  method OccupyCell(g: set<Edge>, j: Cell, occ: seq<Cell>) returns (h: set<Edge>)
    requires NoSelfLoop(g)
    ensures h == Occupy(g, j, occ)
  {
    var preds := Preds(g, j);
    var todo := preds;
    h := g;
    while todo != {}
      invariant todo <= preds
      invariant forall a, b :: (a, b) in h <==>
        ((a, b) in g && !(b == j && a in preds - todo)) ||
        (a in preds - todo && b in JumpTargets(g, j, a, occ))
      decreases |todo|
    {
      var p :| p in todo;
      assert p != j;
      assert (p, j) in h;
      h := h - {(p, j)};
      assert Succs(h, j) == Succs(g, j);
      var s := Beyond(p, j);
      if s in Succs(h, j) && s !in occ {
        h := h + {(p, s)};
      } else {
        h := AddDiagonals(h, p, Succs(h, j), occ);
      }
      todo := todo - {p};
    }
    forall a, b ensures (a, b) in h <==> (a, b) in Occupy(g, j, occ) {
      OccupyExact(g, j, occ, a, b);
    }
    PairSetsEqual(h, Occupy(g, j, occ));
  }

  /** Stage 4 (quoridor.py:53-69): the pawns of ps in list order. */
  method OccupyPlayers(g: set<Edge>, ps: seq<Cell>, occ: seq<Cell>) returns (h: set<Edge>)
    requires NoSelfLoop(g)
    ensures h == OccupyAll(g, ps, occ)
  {
    h := g;
    for i := 0 to |ps|
      invariant h == OccupyAll(g, ps[..i], occ)
      invariant NoSelfLoop(h)
    {
      assert ps[..i + 1][..i] == ps[..i];
      OccupyNoSelfLoop(h, ps[i], occ);
      h := OccupyCell(h, ps[i], occ);
    }
    assert ps[..|ps|] == ps;
  }

  /** Stage 5 (quoridor.py:71-74): the sentinel edges of rows 9 and 1. */
  method AddGoals(g: set<Edge>) returns (r: set<(Node, Node)>)
    ensures r == WithGoals(g)
  {
    r := set e | e in g :: (At(e.0), At(e.1));
    for x := 1 to 10
      invariant forall a, b :: (a, b) in r <==>
        (a.At? && b.At? && (a.c, b.c) in g) ||
        (b == B1 && a.At? && a.c.y == 9 && 1 <= a.c.x < x) ||
        (b == B2 && a.At? && a.c.y == 1 && 1 <= a.c.x < x)
    {
      r := r + {(At(Cell(x, 9)), B1)};
      r := r + {(At(Cell(x, 1)), B2)};
    }
    forall a, b ensures (a, b) in r <==> (a, b) in WithGoals(g) {
      WithGoalsExact(g, a, b);
    }
    PairSetsEqual(r, WithGoals(g));
  }

  lemma WithGoalsExact(g: set<Edge>, a: Node, b: Node)
    ensures (a, b) in WithGoals(g) <==>
      (a.At? && b.At? && (a.c, b.c) in g) ||
      (b == B1 && a.At? && a.c.y == 9 && 1 <= a.c.x <= 9) ||
      (b == B2 && a.At? && a.c.y == 1 && 1 <= a.c.x <= 9)
  {
    if a.At? && b.At? && (a.c, b.c) in g {
      assert (At(a.c), At(b.c)) == (a, b);
    }
    if a.At? && (b == B1 || b == B2) {
      assert a == At(Cell(a.c.x, a.c.y));
    }
  }

  /** construire_graphe (quoridor.py:12-76). The requires clauses are what the source
      needs to run without a networkx error: every pawn's square is a node of the
      graph, and each wall removes edges that are present (anchors in range, no overlap). */
  method ConstruireGraphe(ps: seq<Cell>, murh: seq<Cell>, murv: seq<Cell>) returns (graphe: set<(Node, Node)>)
    requires forall k :: 0 <= k < |ps| ==> OnBoard(ps[k])
    requires WallsFit(murh, Horizontal) && WallsFit(murv, Vertical)
    ensures graphe == MoveGraph(ps, murh, murv)
  {
    var g := BaseEdges();
    forall i | 0 <= i < |murh| ensures Cut(murh[i], Horizontal) <= g {
      CutInBase(murh[i], Horizontal);
    }
    g := RemoveWallEdges(g, murh, Horizontal);
    forall i | 0 <= i < |murv| ensures Cut(murv[i], Vertical) <= g {
      CutInBase(murv[i], Vertical);
      forall e | e in Cut(murv[i], Vertical) ensures e !in Cuts(murh, Horizontal) {
        if e in Cuts(murh, Horizontal) { CutsAxis(murh, Horizontal, e); }
      }
    }
    g := RemoveWallEdges(g, murv, Vertical);
    g := OccupyPlayers(g, ps, ps);
    graphe := AddGoals(g);
  }
}
