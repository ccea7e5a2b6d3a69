/** Coordinates, nodes and wall geometry of the 9x9 Quoridor board (quoridor.py). */
module Board {

  /** A square of the board: x is the column, y the row, both 1..9 on the board. */
  datatype Cell = Cell(x: int, y: int)

  /** A node of the movement graph: a square, or one of the two goal sentinels,
      'B1' (row 9, player 1's goal) and 'B2' (row 1, player 2's goal). */
  datatype Node = At(c: Cell) | B1 | B2

  /** A directed pawn step between two squares. */
  type Edge = (Cell, Cell)

  /** A wall is horizontal or vertical; its position is its anchor square. */
  datatype Orientation = Horizontal | Vertical

  predicate OnBoard(c: Cell) {
    1 <= c.x <= 9 && 1 <= c.y <= 9
  }

  /** b is one orthogonal step away from a. */
  predicate Adjacent(a: Cell, b: Cell) {
    (a.x == b.x && (a.y == b.y + 1 || a.y + 1 == b.y)) ||
    (a.y == b.y && (a.x == b.x + 1 || a.x + 1 == b.x))
  }

  /** The square beyond j seen from p, that is 2j - p (quoridor.py:59). */
  function Beyond(p: Cell, j: Cell): (s: Cell)
    ensures p != j ==> s != j && s != p
    ensures Adjacent(p, j) ==> Adjacent(j, s) && s.x - j.x == j.x - p.x && s.y - j.y == j.y - p.y
  {
    Cell(2 * j.x - p.x, 2 * j.y - p.y)
  }

  /** The anchor ranges of a wall: horizontal 1 <= x <= 8, 2 <= y <= 9;
      vertical 2 <= x <= 9, 1 <= y <= 8. */
  predicate AnchorInBounds(w: Cell, o: Orientation) {
    match o
    case Horizontal => 1 <= w.x <= 8 && 2 <= w.y <= 9
    case Vertical => 2 <= w.x <= 9 && 1 <= w.y <= 8
  }

  /** The four directed edges a wall anchored at w removes (quoridor.py:39-42 and 46-49):
      a horizontal wall separates rows y-1 and y in columns x and x+1,
      a vertical wall separates columns x-1 and x in rows y and y+1. */
  function Cut(w: Cell, o: Orientation): set<Edge> {
    match o
    case Horizontal =>
      var a, b, c, d := Cell(w.x, w.y - 1), w, Cell(w.x + 1, w.y - 1), Cell(w.x + 1, w.y);
      {(a, b), (b, a), (c, d), (d, c)}
    case Vertical =>
      var a, b, c, d := Cell(w.x - 1, w.y), w, Cell(w.x - 1, w.y + 1), Cell(w.x, w.y + 1);
      {(a, b), (b, a), (c, d), (d, c)}
  }

  /** Two walls of one orientation overlap: same anchor, or anchors one unit apart along the wall's span. */
  predicate Overlap(v: Cell, w: Cell, o: Orientation) {
    match o
    case Horizontal => v.y == w.y && -1 <= v.x - w.x <= 1
    case Vertical => v.x == w.x && -1 <= v.y - w.y <= 1
  }

  predicate NoOverlap(ws: seq<Cell>, o: Orientation) {
    forall i, j :: 0 <= i < j < |ws| ==> !Overlap(ws[i], ws[j], o)
  }

  /** The walls of one orientation that the graph builder can remove without error:
      each inside its anchor range and no two overlapping. */
  predicate WallsFit(ws: seq<Cell>, o: Orientation) {
    (forall i :: 0 <= i < |ws| ==> AnchorInBounds(ws[i], o)) && NoOverlap(ws, o)
  }

  /** Overlap is exactly "the two walls would remove a common edge". */
  lemma OverlapExact(v: Cell, w: Cell, o: Orientation)
    ensures Overlap(v, w, o) <==> Cut(v, o) * Cut(w, o) != {}
  {
    if Overlap(v, w, o) {
      match o
      case Horizontal =>
        if v.x == w.x + 1 {
          assert (Cell(v.x, v.y - 1), v) in Cut(v, o) * Cut(w, o);
        } else {
          assert (Cell(v.x + 1, v.y - 1), Cell(v.x + 1, v.y)) in Cut(v, o) * Cut(w, o);
        }
      case Vertical =>
        if v.y == w.y + 1 {
          assert (Cell(v.x - 1, v.y), v) in Cut(v, o) * Cut(w, o);
        } else {
          assert (Cell(v.x - 1, v.y + 1), Cell(v.x, v.y + 1)) in Cut(v, o) * Cut(w, o);
        }
    }
  }

  /** Adding one wall keeps a wall list free of overlaps exactly when it overlaps none already there. */
  lemma NoOverlapAppend(ws: seq<Cell>, w: Cell, o: Orientation)
    ensures NoOverlap(ws + [w], o) <==>
      NoOverlap(ws, o) && forall i :: 0 <= i < |ws| ==> !Overlap(ws[i], w, o)
  {
    var ws' := ws + [w];
    if NoOverlap(ws, o) && forall i :: 0 <= i < |ws| ==> !Overlap(ws[i], w, o) {
      forall i, j | 0 <= i < j < |ws'| ensures !Overlap(ws'[i], ws'[j], o) {
        if j == |ws| { assert ws'[j] == w; } else { assert ws'[i] == ws[i] && ws'[j] == ws[j]; }
      }
    }
    if NoOverlap(ws', o) {
      forall i | 0 <= i < |ws| ensures !Overlap(ws[i], w, o) {
        assert ws'[i] == ws[i] && ws'[|ws|] == w;
      }
      forall i, j | 0 <= i < j < |ws| ensures !Overlap(ws[i], ws[j], o) {
        assert ws'[i] == ws[i] && ws'[j] == ws[j];
      }
    }
  }

  /** A new wall w collides with one already in ws. */
  predicate Collides(ws: seq<Cell>, w: Cell, o: Orientation) {
    exists i :: 0 <= i < |ws| && Overlap(ws[i], w, o)
  }

  /** The anchor one unit further along the wall's own span (d = 1) or one unit back (d = -1). */
  function Shifted(w: Cell, o: Orientation, d: int): Cell {
    match o
    case Horizontal => Cell(w.x + d, w.y)
    case Vertical => Cell(w.x, w.y + d)
  }

  /** A collision is the same anchor, or the anchor shifted by one either way, already in the list. */
  lemma CollidesExact(ws: seq<Cell>, w: Cell, o: Orientation)
    ensures Collides(ws, w, o) <==> w in ws || Shifted(w, o, 1) in ws || Shifted(w, o, -1) in ws
  {
    if Collides(ws, w, o) {
      var i :| 0 <= i < |ws| && Overlap(ws[i], w, o);
      assert ws[i] == w || ws[i] == Shifted(w, o, 1) || ws[i] == Shifted(w, o, -1);
    }
  }
}
