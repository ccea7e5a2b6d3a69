/** What the movement graph of a two-pawn board allows a pawn to do (quoridor.py:12-76 as
    used by déplacer_jeton, quoridor.py:252-273), and the situations of the rules worked out
    on concrete boards. */
module Moves {
  import opened Board
  import opened Graph
  import opened GraphProps

  lemma WallGraphNoSelfLoop(murh: seq<Cell>, murv: seq<Cell>)
    ensures NoSelfLoop(WallGraph(murh, murv))
  {
  }

  /** Stage 4 keeps every edge that does not lead onto a pawn's square. */
  lemma {:induction false} OccupyAllKeeps(g: set<Edge>, ps: seq<Cell>, occ: seq<Cell>, a: Cell, t: Cell)
    requires (a, t) in g && t !in ps
    ensures (a, t) in OccupyAll(g, ps, occ)
  {
    if ps != [] {
      var n := |ps| - 1;
      assert t !in ps[..n] && t != ps[n] by {
        assert ps == ps[..n] + [ps[n]];
      }
      OccupyAllKeeps(g, ps[..n], occ, a, t);
      OccupyExact(OccupyAll(g, ps[..n], occ), ps[n], occ, a, t);
    }
  }

  /** A pawn may always step to a neighbouring square that no wall cuts off and no pawn holds. */
  lemma StepAllowed(ps: seq<Cell>, murh: seq<Cell>, murv: seq<Cell>, a: Cell, t: Cell)
    requires (a, t) in WallGraph(murh, murv) && t !in ps
    ensures (At(a), At(t)) in MoveGraph(ps, murh, murv)
  {
    OccupyAllKeeps(WallGraph(murh, murv), ps, ps, a, t);
    WithGoalsExact(OccupyAll(WallGraph(murh, murv), ps, ps), At(a), At(t));
  }

  /** With two pawns, stage 4 handles the first and then the second. */
  lemma TwoPawns(g: set<Edge>, ps: seq<Cell>)
    requires |ps| == 2
    ensures OccupyAll(g, ps, ps) == Occupy(Occupy(g, ps[0], ps), ps[1], ps)
  {
    assert ps[..1][..0] == [] && ps[..1] == [ps[0]];
    assert OccupyAll(g, ps[..1], ps) == Occupy(g, ps[0], ps);
  }

  /** An edge after one pawn is handled was there before, or is a hop: onto the pawn's
      square and from there onto a free square. */
  lemma OccupyShape(g: set<Edge>, j: Cell, occ: seq<Cell>, a: Cell, t: Cell)
    requires (a, t) in Occupy(g, j, occ)
    ensures (a, t) in g || ((a, j) in g && (j, t) in g && t !in occ)
  {
    OccupyExact(g, j, occ, a, t);
  }

  /** After two pawns on j1 and j2 are handled, an edge leaving one of their squares is an
      edge of g, or a hop over the other pawn's square by two edges of g. */
  lemma TwoPawnShape(g: set<Edge>, j1: Cell, j2: Cell, occ: seq<Cell>, a: Cell, t: Cell)
    requires NoSelfLoop(g) && j2 in occ
    requires (a == j1 || a == j2) && (a, t) in Occupy(Occupy(g, j1, occ), j2, occ)
    ensures var o := if a == j1 then j2 else j1;
      (a, t) in g || ((a, o) in g && (o, t) in g)
  {
    var b := Occupy(g, j1, occ);
    OccupyShape(b, j2, occ, a, t);
    if (a, t) in b {
      OccupyShape(g, j1, occ, a, t);
    } else {
      OccupyShape(g, j1, occ, a, j2);
      OccupyShape(g, j1, occ, j2, t);
    }
  }

  /** Stage 4 with two pawns, on a graph g without self-loops: an edge leaving a pawn's square
      leads onto a free square, by an edge of g or by a hop over the other pawn. */
  lemma {:induction false} PawnEdgeShape(g: set<Edge>, ps: seq<Cell>, k: int, t: Cell)
    requires NoSelfLoop(g) && |ps| == 2 && 0 <= k < 2
    requires (ps[k], t) in OccupyAll(g, ps, ps)
    ensures t != ps[0] && t != ps[1]
    ensures var o := ps[1 - k]; (ps[k], t) in g || ((ps[k], o) in g && (o, t) in g)
  {
    var j1, j2 := ps[0], ps[1];
    var a, o := ps[k], ps[1 - k];
    assert o == (if a == j1 then j2 else j1) || a == o;
    assert t !in ps by {
      OccupyAllAvoidsPawns(g, ps, ps);
    }
    assert (a, t) in Occupy(Occupy(g, j1, ps), j2, ps) by {
      TwoPawns(g, ps);
    }
    assert j2 in ps;
    assert a == j1 || a == j2;
    assert NoSelfLoop(g);
    TwoPawnShape(g, j1, j2, ps, a, t);
  }

  /** Every move the graph offers a pawn is a legal Quoridor move: onto a free square, and
      either a step not cut off by a wall, or a hop onto the other pawn's square (a step
      that no wall cuts off) followed by one more such step from there. */
  lemma MoveShape(ps: seq<Cell>, murh: seq<Cell>, murv: seq<Cell>, k: int, t: Cell)
    requires |ps| == 2 && 0 <= k < 2
    requires (At(ps[k]), At(t)) in MoveGraph(ps, murh, murv)
    ensures t != ps[0] && t != ps[1]
    ensures var w, o := WallGraph(murh, murv), ps[1 - k];
      (ps[k], t) in w || ((ps[k], o) in w && (o, t) in w)
  {
    var w := WallGraph(murh, murv);
    WithGoalsExact(OccupyAll(w, ps, ps), At(ps[k]), At(t));
    WallGraphNoSelfLoop(murh, murv);
    PawnEdgeShape(w, ps, k, t);
  }

  /** The straight jump of the rules: player 1 on (5, 6), player 2 on (5, 7), no walls;
      player 1 may go to (5, 8). */
  lemma StraightJump()
    ensures (At(Cell(5, 6)), At(Cell(5, 8))) in MoveGraph([Cell(5, 6), Cell(5, 7)], [], [])
  {
    var ps := [Cell(5, 6), Cell(5, 7)];
    var w := WallGraph([], []);
    var b := Occupy(w, ps[0], ps);
    assert (Cell(5, 6), Cell(5, 7)) in w && (Cell(5, 7), Cell(5, 8)) in w;
    OccupyExact(w, ps[0], ps, Cell(5, 6), Cell(5, 7));
    OccupyExact(w, ps[0], ps, Cell(5, 7), Cell(5, 8));
    assert Cell(5, 8) in JumpTargets(b, ps[1], Cell(5, 6), ps);
    TwoPawns(w, ps);
    OccupyExact(b, ps[1], ps, Cell(5, 6), Cell(5, 8));
    WithGoalsExact(Occupy(b, ps[1], ps), At(Cell(5, 6)), At(Cell(5, 8)));
  }

  /** The diagonal jump on the graph b left after player 1's pawn on (5, 6) is handled: the
      edges of player 2's pawn on (5, 7) that player 1's jumps are made of. */
  lemma DiagonalJumpFrom(b: set<Edge>)
    requires (Cell(5, 6), Cell(5, 7)) in b && (Cell(5, 6), Cell(5, 8)) !in b
    requires (Cell(5, 7), Cell(5, 8)) !in b && (Cell(5, 7), Cell(4, 7)) in b && (Cell(5, 7), Cell(6, 7)) in b
    ensures var f := WithGoals(Occupy(b, Cell(5, 7), [Cell(5, 6), Cell(5, 7)]));
      (At(Cell(5, 6)), At(Cell(5, 8))) !in f && (At(Cell(5, 6)), At(Cell(4, 7))) in f && (At(Cell(5, 6)), At(Cell(6, 7))) in f
  {
    var ps := [Cell(5, 6), Cell(5, 7)];
    var f := Occupy(b, ps[1], ps);
    OccupyExact(b, ps[1], ps, Cell(5, 6), Cell(5, 8));
    OccupyExact(b, ps[1], ps, Cell(5, 6), Cell(4, 7));
    OccupyExact(b, ps[1], ps, Cell(5, 6), Cell(6, 7));
    WithGoalsExact(f, At(Cell(5, 6)), At(Cell(5, 8)));
    WithGoalsExact(f, At(Cell(5, 6)), At(Cell(4, 7)));
    WithGoalsExact(f, At(Cell(5, 6)), At(Cell(6, 7)));
  }

  /** The diagonal jump on any graph g with the edges of the board around the two pawns. */
  lemma DiagonalJumpIn(g: set<Edge>)
    requires (Cell(5, 6), Cell(5, 7)) in g && (Cell(5, 6), Cell(5, 5)) in g && (Cell(5, 6), Cell(5, 8)) !in g
    requires (Cell(5, 7), Cell(5, 8)) !in g && (Cell(5, 7), Cell(4, 7)) in g && (Cell(5, 7), Cell(6, 7)) in g
    requires (Cell(5, 6), Cell(5, 6)) !in g
    ensures var f := WithGoals(OccupyAll(g, [Cell(5, 6), Cell(5, 7)], [Cell(5, 6), Cell(5, 7)]));
      (At(Cell(5, 6)), At(Cell(5, 8))) !in f && (At(Cell(5, 6)), At(Cell(4, 7))) in f && (At(Cell(5, 6)), At(Cell(6, 7))) in f
  {
    var ps := [Cell(5, 6), Cell(5, 7)];
    OccupyExact(g, ps[0], ps, Cell(5, 7), Cell(5, 8));
    assert Cell(5, 8) !in JumpTargets(g, ps[0], Cell(5, 7), ps);
    OccupyExact(g, ps[0], ps, Cell(5, 6), Cell(5, 7));
    OccupyExact(g, ps[0], ps, Cell(5, 7), Cell(4, 7));
    OccupyExact(g, ps[0], ps, Cell(5, 7), Cell(6, 7));
    OccupyExact(g, ps[0], ps, Cell(5, 6), Cell(5, 8));
    TwoPawns(g, ps);
    DiagonalJumpFrom(Occupy(g, ps[0], ps));
  }

  /** The diagonal jump of the rules: the same pawns with a horizontal wall anchored at (5, 8)
      behind player 2; player 1 may no longer go to (5, 8) but may go to (4, 7) and to (6, 7). */
  lemma DiagonalJump()
    ensures (At(Cell(5, 6)), At(Cell(5, 8))) !in MoveGraph([Cell(5, 6), Cell(5, 7)], [Cell(5, 8)], [])
    ensures (At(Cell(5, 6)), At(Cell(4, 7))) in MoveGraph([Cell(5, 6), Cell(5, 7)], [Cell(5, 8)], [])
    ensures (At(Cell(5, 6)), At(Cell(6, 7))) in MoveGraph([Cell(5, 6), Cell(5, 7)], [Cell(5, 8)], [])
  {
    var hs: seq<Cell> := [Cell(5, 8)];
    WallGraphExact(hs, [], Cell(5, 6), Cell(5, 7));
    WallGraphExact(hs, [], Cell(5, 6), Cell(5, 5));
    WallGraphExact(hs, [], Cell(5, 6), Cell(5, 8));
    WallGraphExact(hs, [], Cell(5, 7), Cell(5, 8));
    WallGraphExact(hs, [], Cell(5, 7), Cell(4, 7));
    WallGraphExact(hs, [], Cell(5, 7), Cell(6, 7));
    WallGraphNoSelfLoop(hs, []);
    DiagonalJumpIn(WallGraph(hs, []));
  }

  /** The inherited jump edge on any graph g with the edges of the board around the two pawns. */
  lemma InheritedJumpIn(g: set<Edge>)
    requires (Cell(5, 6), Cell(5, 5)) in g && (Cell(5, 5), Cell(5, 4)) in g
    requires (Cell(4, 6), Cell(5, 6)) in g && (Cell(5, 6), Cell(6, 6)) !in g && (Cell(5, 5), Cell(6, 6)) !in g
    ensures (At(Cell(4, 6)), At(Cell(5, 4))) in WithGoals(OccupyAll(g, [Cell(5, 5), Cell(5, 6)], [Cell(5, 5), Cell(5, 6)]))
  {
    var ps := [Cell(5, 5), Cell(5, 6)];
    var b := Occupy(g, ps[0], ps);
    var f := Occupy(b, ps[1], ps);
    assert Cell(5, 4) in JumpTargets(g, ps[0], Cell(5, 6), ps);
    OccupyExact(g, ps[0], ps, Cell(5, 6), Cell(5, 4));
    OccupyExact(g, ps[0], ps, Cell(4, 6), Cell(5, 6));
    OccupyExact(g, ps[0], ps, Cell(5, 6), Cell(6, 6));
    assert Cell(5, 4) in JumpTargets(b, ps[1], Cell(4, 6), ps);
    TwoPawns(g, ps);
    OccupyExact(b, ps[1], ps, Cell(4, 6), Cell(5, 4));
    WithGoalsExact(f, At(Cell(4, 6)), At(Cell(5, 4)));
  }

  /** Stage 4 handles the pawns one after the other, so the second pawn's diagonal jumps start
      from a graph that already holds the first pawn's jump edges: with pawns on (5, 5) and
      (5, 6) and a vertical wall anchored at (6, 6), the empty square (4, 6) gets an edge to
      (5, 4), two rows and one column away. No pawn stands on (4, 6), so no move takes it;
      it only lengthens the reach of the path test. */
  lemma InheritedJump()
    ensures (At(Cell(4, 6)), At(Cell(5, 4))) in MoveGraph([Cell(5, 5), Cell(5, 6)], [], [Cell(6, 6)])
  {
    var vs: seq<Cell> := [Cell(6, 6)];
    WallGraphExact([], vs, Cell(5, 6), Cell(5, 5));
    WallGraphExact([], vs, Cell(5, 5), Cell(5, 4));
    WallGraphExact([], vs, Cell(4, 6), Cell(5, 6));
    WallGraphExact([], vs, Cell(5, 6), Cell(6, 6));
    WallGraphExact([], vs, Cell(5, 5), Cell(6, 6));
    InheritedJumpIn(WallGraph([], vs));
  }
}
