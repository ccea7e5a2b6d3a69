/** Properties of the movement graph built by construire_graphe (quoridor.py:12-76). */
module GraphProps {
  import opened Board
  import opened Graph

  /** Stage 1 is symmetric: every step can be taken back (quoridor.py:24-35). */
  lemma BaseGraphSymmetric(a: Cell, b: Cell)
    ensures (a, b) in BaseGraph() <==> (b, a) in BaseGraph()
  {
  }

  /** Stages 2 and 3 remove exactly the edges the walls cut and no other (quoridor.py:37-49). */
  lemma WallGraphExact(murh: seq<Cell>, murv: seq<Cell>, a: Cell, b: Cell)
    ensures (a, b) in WallGraph(murh, murv) <==>
      OnBoard(a) && OnBoard(b) && Adjacent(a, b) &&
      (forall i :: 0 <= i < |murh| ==> (a, b) !in Cut(murh[i], Horizontal)) &&
      (forall i :: 0 <= i < |murv| ==> (a, b) !in Cut(murv[i], Vertical))
  {
    CutsExact(murh, Horizontal, (a, b));
    CutsExact(murv, Vertical, (a, b));
  }

  /** A horizontal wall at (x, y) severs both directions of (x, y-1)-(x, y) and of (x+1, y-1)-(x+1, y);
      a vertical wall at (x, y) severs both directions of (x-1, y)-(x, y) and of (x-1, y+1)-(x, y+1). */
  lemma WallSevers(murh: seq<Cell>, murv: seq<Cell>, w: Cell, o: Orientation)
    requires if o.Horizontal? then w in murh else w in murv
    ensures o.Horizontal? ==>
      var x, y := w.x, w.y;
      (Cell(x, y - 1), Cell(x, y)) !in WallGraph(murh, murv) && (Cell(x, y), Cell(x, y - 1)) !in WallGraph(murh, murv) &&
      (Cell(x + 1, y - 1), Cell(x + 1, y)) !in WallGraph(murh, murv) && (Cell(x + 1, y), Cell(x + 1, y - 1)) !in WallGraph(murh, murv)
    ensures o.Vertical? ==>
      var x, y := w.x, w.y;
      (Cell(x - 1, y), Cell(x, y)) !in WallGraph(murh, murv) && (Cell(x, y), Cell(x - 1, y)) !in WallGraph(murh, murv) &&
      (Cell(x - 1, y + 1), Cell(x, y + 1)) !in WallGraph(murh, murv) && (Cell(x, y + 1), Cell(x - 1, y + 1)) !in WallGraph(murh, murv)
  {
    var ws := if o.Horizontal? then murh else murv;
    var i :| 0 <= i < |ws| && ws[i] == w;
    forall e | e in Cut(w, o) ensures e !in WallGraph(murh, murv) {
      CutsExact(ws, o, e);
    }
  }

  /** Every square edge of the graph joins two squares of the board: stage 4 only adds
      edges from predecessors to successors of a pawn's square. */
  lemma {:induction false} OccupyAllOnBoard(g: set<Edge>, ps: seq<Cell>, occ: seq<Cell>)
    requires forall e :: e in g ==> OnBoard(e.0) && OnBoard(e.1)
    ensures forall e :: e in OccupyAll(g, ps, occ) ==> OnBoard(e.0) && OnBoard(e.1)
  {
    if ps != [] {
      var n := |ps| - 1;
      OccupyAllOnBoard(g, ps[..n], occ);
      forall e | e in OccupyAll(g, ps, occ) ensures OnBoard(e.0) && OnBoard(e.1) {
        OccupyExact(OccupyAll(g, ps[..n], occ), ps[n], occ, e.0, e.1);
      }
    }
  }

  /** After stage 4 no edge ends on a square listed among the pawns (quoridor.py:53-69). */
  lemma {:induction false} OccupyAllAvoidsPawns(g: set<Edge>, ps: seq<Cell>, occ: seq<Cell>)
    requires forall k :: 0 <= k < |ps| ==> ps[k] in occ
    ensures forall e :: e in OccupyAll(g, ps, occ) ==> e.1 !in ps
  {
    if ps != [] {
      var n := |ps| - 1;
      var h := OccupyAll(g, ps[..n], occ);
      OccupyAllAvoidsPawns(g, ps[..n], occ);
      forall e | e in OccupyAll(g, ps, occ) ensures e.1 !in ps {
        OccupyExact(h, ps[n], occ, e.0, e.1);
        if (e.0, e.1) in h && e.1 != ps[n] {
          assert e.1 !in ps[..n];
          assert ps == ps[..n] + [ps[n]];
        }
      }
    }
  }

  /** No edge of the movement graph leads onto a pawn's square. */
  lemma NoEdgeIntoPawns(ps: seq<Cell>, murh: seq<Cell>, murv: seq<Cell>, a: Node, k: int)
    requires 0 <= k < |ps|
    ensures (a, At(ps[k])) !in MoveGraph(ps, murh, murv)
  {
    var g := OccupyAll(WallGraph(murh, murv), ps, ps);
    OccupyAllAvoidsPawns(WallGraph(murh, murv), ps, ps);
    WithGoalsExact(g, a, At(ps[k]));
    if a.At? {
      assert (a.c, ps[k]) !in g;
    }
  }

  /** Stage 4 on a non-empty list handles the last pawn on the graph left by the others. */
  lemma OccupyAllLast(g: set<Edge>, ps: seq<Cell>, occ: seq<Cell>)
    requires ps != []
    ensures OccupyAll(g, ps, occ) == Occupy(OccupyAll(g, ps[..|ps| - 1], occ), ps[|ps| - 1], occ)
  {
  }

  /** An edge not leading onto the last pawn's square survives its handling. */
  lemma KeptByLast(g: set<Edge>, ps: seq<Cell>, occ: seq<Cell>, p: Cell, t: Cell)
    requires ps != [] && (p, t) in OccupyAll(g, ps[..|ps| - 1], occ) && t != ps[|ps| - 1]
    ensures (p, t) in OccupyAll(g, ps, occ)
  {
    OccupyAllLast(g, ps, occ);
    OccupyExact(OccupyAll(g, ps[..|ps| - 1], occ), ps[|ps| - 1], occ, p, t);
  }

  /** A jump edge of the last pawn is in the graph left by its handling. */
  lemma AddedByLast(g: set<Edge>, ps: seq<Cell>, occ: seq<Cell>, p: Cell, t: Cell)
    requires ps != []
    requires var before := OccupyAll(g, ps[..|ps| - 1], occ);
      (p, ps[|ps| - 1]) in before && t in JumpTargets(before, ps[|ps| - 1], p, occ)
    ensures (p, t) in OccupyAll(g, ps, occ)
  {
    OccupyAllLast(g, ps, occ);
    OccupyExact(OccupyAll(g, ps[..|ps| - 1], occ), ps[|ps| - 1], occ, p, t);
  }

  /** A jump edge added while the k-th pawn is handled survives the later pawns: those only
      remove edges into their own squares, and a jump target is never a pawn's square. */
  lemma {:induction false} JumpEdgeKept(g: set<Edge>, ps: seq<Cell>, occ: seq<Cell>, k: int, p: Cell, t: Cell)
    requires 0 <= k < |ps|
    requires (p, ps[k]) in OccupyAll(g, ps[..k], occ)
    requires t in JumpTargets(OccupyAll(g, ps[..k], occ), ps[k], p, occ)
    requires forall i :: 0 <= i < |ps| ==> ps[i] in occ
    ensures (p, t) in OccupyAll(g, ps, occ)
  {
    var n := |ps| - 1;
    if k == n {
      AddedByLast(g, ps, occ, p, t);
    } else {
      var ps' := ps[..n];
      assert (p, t) in OccupyAll(g, ps', occ) by {
        assert ps'[..k] == ps[..k] && ps'[k] == ps[k];
        assert forall i :: 0 <= i < |ps'| ==> ps'[i] in occ;
        JumpEdgeKept(g, ps', occ, k, p, t);
      }
      assert t != ps[n] by {
        assert t !in occ by {
          assert t in JumpTargets(OccupyAll(g, ps[..k], occ), ps[k], p, occ);
        }
        assert ps[n] in occ;
      }
      KeptByLast(g, ps, occ, p, t);
    }
  }

  /** The jump rule, as seen in the finished graph (quoridor.py:59-69). Let 'before' be the graph
      just before the k-th pawn, on j, is handled, and p -> j one of its edges. If the square
      s beyond j is a successor of j in 'before' and holds no pawn, the finished graph has p -> s;
      otherwise it has p -> d for every successor d of j in 'before' other than p that holds no pawn. */
  lemma JumpRule(ps: seq<Cell>, murh: seq<Cell>, murv: seq<Cell>, k: int, p: Cell)
    requires 0 <= k < |ps|
    requires (p, ps[k]) in OccupyAll(WallGraph(murh, murv), ps[..k], ps)
    ensures var before, j, s := OccupyAll(WallGraph(murh, murv), ps[..k], ps), ps[k], Beyond(p, ps[k]);
      if (j, s) in before && s !in ps then (At(p), At(s)) in MoveGraph(ps, murh, murv)
      else forall d :: (j, d) in before && d != p && d !in ps ==> (At(p), At(d)) in MoveGraph(ps, murh, murv)
  {
    var g0 := WallGraph(murh, murv);
    var before, j, s := OccupyAll(g0, ps[..k], ps), ps[k], Beyond(p, ps[k]);
    var g := OccupyAll(g0, ps, ps);
    if (j, s) in before && s !in ps {
      JumpEdgeKept(g0, ps, ps, k, p, s);
      WithGoalsExact(g, At(p), At(s));
    } else {
      forall d | (j, d) in before && d != p && d !in ps ensures (At(p), At(d)) in MoveGraph(ps, murh, murv) {
        JumpEdgeKept(g0, ps, ps, k, p, d);
        WithGoalsExact(g, At(p), At(d));
      }
    }
  }

  /** Every square edge of the finished graph is, for the pawn handled last, either an edge
      already there that does not lead onto its square, or one of its jump edges. */
  lemma SquareEdgesExact(ps: seq<Cell>, murh: seq<Cell>, murv: seq<Cell>, a: Cell, b: Cell)
    requires ps != []
    ensures var n := |ps| - 1; var before := OccupyAll(WallGraph(murh, murv), ps[..n], ps);
      (At(a), At(b)) in MoveGraph(ps, murh, murv) <==>
        ((a, b) in before && b != ps[n]) || ((a, ps[n]) in before && b in JumpTargets(before, ps[n], a, ps))
  {
    var n := |ps| - 1;
    var before := OccupyAll(WallGraph(murh, murv), ps[..n], ps);
    WithGoalsExact(OccupyAll(WallGraph(murh, murv), ps, ps), At(a), At(b));
    OccupyExact(before, ps[n], ps, a, b);
  }

  /** Stage 5 (quoridor.py:71-74): exactly the row-9 squares lead to B1 and exactly the row-1 squares to B2. */
  lemma GoalEdges(ps: seq<Cell>, murh: seq<Cell>, murv: seq<Cell>, n: Node)
    ensures (n, B1) in MoveGraph(ps, murh, murv) <==> n.At? && OnBoard(n.c) && n.c.y == 9
    ensures (n, B2) in MoveGraph(ps, murh, murv) <==> n.At? && OnBoard(n.c) && n.c.y == 1
  {
    var g := OccupyAll(WallGraph(murh, murv), ps, ps);
    WithGoalsExact(g, n, B1);
    WithGoalsExact(g, n, B2);
  }

  /** The sentinels have no successors. */
  lemma GoalsAreSinks(ps: seq<Cell>, murh: seq<Cell>, murv: seq<Cell>, n: Node)
    ensures (B1, n) !in MoveGraph(ps, murh, murv) && (B2, n) !in MoveGraph(ps, murh, murv)
  {
    var g := OccupyAll(WallGraph(murh, murv), ps, ps);
    WithGoalsExact(g, B1, n);
    WithGoalsExact(g, B2, n);
  }

  /** Every square-to-square edge of the finished graph joins two squares of the board. */
  lemma StepsStayOnBoard(ps: seq<Cell>, murh: seq<Cell>, murv: seq<Cell>, a: Cell, b: Cell)
    requires (At(a), At(b)) in MoveGraph(ps, murh, murv)
    ensures OnBoard(a) && OnBoard(b)
  {
    var g := OccupyAll(WallGraph(murh, murv), ps, ps);
    OccupyAllOnBoard(WallGraph(murh, murv), ps, ps);
    WithGoalsExact(g, At(a), At(b));
  }
}
