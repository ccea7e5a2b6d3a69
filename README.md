# Quoridor rules engine in Dafny

A model of the rules engine of `quoridor.py`. The game is played on a 9×9 board by two
players. Each player moves a pawn towards the far row, and between moves the players place
walls that block steps.

The model covers:

- the movement graph `construire_graphe`, in its five stages: neighbour edges, removal of the
  edges cut by horizontal walls, the same for vertical walls, the jump rule around each pawn,
  and the goal sentinels `B1` and `B2`;
- the `Quoridor` game state: the constructor's checks, `déplacer_jeton`, `placer_mur` and
  `partie_terminée`;
- the reachability query ("can each pawn still reach its goal sentinel?") that a wall
  placement must pass.

Modules, one per file:

- `Board` (`board.dfy`): squares, graph nodes, wall anchors and the edges each wall cuts.
- `Graph` (`graph.dfy`): the graph as a set of edges. Each stage is a specification
  function and an imperative method with loop invariants, proved equal to it.
  `ConstruireGraphe` chains the stages.
- `GraphProps` (`graph_props.dfy`): properties of the finished graph. These cover walls,
  pawns, the jump rule and the sentinels.
- `Moves` (`moves.dfy`): what the graph lets a pawn do on a board with two pawns, and the
  rules' jump situations worked out on concrete boards.
- `Paths` (`paths.dfy`): paths, reachability and a frontier search proved sound and complete.
- `Game` (`game.dfy`): the player records, the error kinds and the class `Quoridor`. Each
  operation returns `Done`, `Failed(error)` or a `Result`, in place of raising
  `QuoridorError`, and leaves the state unchanged when it fails.

The networkx `DiGraph` is a `set<(Node, Node)>`, where `Node` is a square or one of the two
sentinels. I/O, rendering and the demo script are not modelled.

### Where the model follows the evident intent rather than the letter of the code

- Chained comparisons. Those at quoridor.py:120, 125, 155, 261 and 366 test other
  bounds than their comments state: `1 < p > 9` means `p > 9`, and `1 > x > 8` never holds.
  quoridor.py:158 compares an int with the position tuple, which raises `TypeError` in
  Python 3, so as written every full player record is rejected there.
  The model checks the intended ranges:
  - a square: 1..9 on both axes;
  - a horizontal anchor: 1 ≤ x ≤ 8 and 2 ≤ y ≤ 9;
  - a vertical anchor: 2 ≤ x ≤ 9 and 1 ≤ y ≤ 8.
- quoridor.py:270 asks for the successors of the whole player record. The model uses the
  record's square.
- quoridor.py:151 and 161 assign into an empty list. The model builds the list of the two
  records.
- quoridor.py:122 and 127 (`self.murh += mur`) splice the two coordinates into the list. The
  model appends the anchor.
- quoridor.py:129 reads `joueurs[k]['murs']`, which fails for a bare name and for fewer than
  two players. For the budget check the model gives a bare name the 10 walls it receives
  later (quoridor.py:138-150). It reports fewer than two players as the player-count error.
- The 20-wall budget is checked whether or not walls are passed, as quoridor.py:129 does:
  the check sits outside the `if murs:` branch.
- The code of `placer_mur` stops after the horizontal anchor-range check (quoridor.py:364-367);
  quoridor.py:368 is a comment announcing an occupancy test. The model completes the
  operation itself, so that a placed wall can ever be recorded:
  - the vertical anchor range, the counterpart of lines 364-367;
  - a collision test against the placed walls of the same orientation: the same anchor, or
    an anchor one unit away along the wall's span, in either direction. A wall that
    overlaps another from either side cuts an edge the other already cut, and
    `construire_graphe` would then fail on `remove_edge` (`Board.OverlapExact`), so both
    sides are tested;
  - the path test on the graph with the new wall, the query the sentinel edges of
    quoridor.py:71-74 prepare;
  - the commit: the wall joins its list and one wall is taken from the player's stock.

### A behaviour of the graph worth knowing

Stage 4 handles the pawns in list order. The second pawn's diagonal jumps are computed on a
graph that already holds the first pawn's jump edges, so an empty square next to the second
pawn can receive an edge that is not one Quoridor move (`Moves.InheritedJump`).

`Moves.MoveShape` shows that edges leaving a pawn's own square are never of this kind:
every move the graph offers a pawn is a step, or a hop over the other pawn, along edges
that no wall cuts. The extra edges only widen what the path test counts as reachable.

## Model

| member | source | states |
|---|---|---|
| Board.AnchorInBounds | quoridor.py:118-127 | the intended anchor ranges of these tests and of quoridor.py:366: horizontal 1 ≤ x ≤ 8 and 2 ≤ y ≤ 9, vertical 2 ≤ x ≤ 9 and 1 ≤ y ≤ 8 |
| Board.Cut | quoridor.py:37-49 | the four directed edges one wall removes: a horizontal wall at (x, y) separates rows y−1 and y in columns x and x+1, a vertical wall separates columns x−1 and x in rows y and y+1 |
| Board.Overlap | quoridor.py:368 | the occupancy test the model supplies: two walls of one orientation overlap when they share the anchor or their anchors lie one unit apart along the span |
| Board.Collides | quoridor.py:368 | a new wall collides when it overlaps some wall already in the list |
| Board.Beyond | quoridor.py:59 | the square beyond an adjacent occupied square continues the same step, so it is adjacent to the occupied square and differs from both squares |
| Board.OverlapExact | quoridor.py:38-49 | two walls of one orientation overlap exactly when the edge sets they cut intersect, i.e. when removing both would remove some edge twice |
| Board.NoOverlapAppend | quoridor.py:38-49 | adding a wall keeps a wall list overlap-free exactly when the new wall overlaps none of the walls already listed |
| Board.CollidesExact | quoridor.py:342-367 | a new wall collides with a placed one exactly when its anchor, or its anchor shifted one unit either way along its span, is already in the list |
| Graph.BaseGraph | quoridor.py:24-35 | stage 1: an edge joins two squares exactly when both are on the board and one orthogonal step apart |
| Graph.Cuts | quoridor.py:37-49 | every edge the walls of one list remove, the union of their cuts in list order |
| Graph.Preds | quoridor.py:55 | networkx `predecessors`: the squares with an edge onto j, exactly |
| Graph.Succs | quoridor.py:61-69 | networkx `successors`: the squares j has an edge onto, exactly |
| Graph.WallGraph | quoridor.py:37-49 | stages 2 and 3: the base graph less the edges the walls cut; it has no edge the base graph lacks |
| Graph.JumpTargets | quoridor.py:59-69 | where a pawn coming from p may go instead of onto the occupied j: the square beyond j when it is a successor of j and free, otherwise every free successor of j other than p |
| Graph.Occupy | quoridor.py:55-69 | stage 4 for one pawn: the edges not leading onto its square, plus an edge from each predecessor of the square to each of its jump targets |
| Graph.OccupyAll | quoridor.py:53-69 | stage 4 for the pawns in list order, each on the graph the earlier ones left |
| Graph.WithGoals | quoridor.py:71-74 | stage 5: every square edge is kept as an edge between nodes, and the row-9 squares lead to B1, the row-1 squares to B2 |
| Graph.MoveGraph | quoridor.py:12-76 | the graph of the five stages for the given pawns and walls |
| Graph.BaseEdges | quoridor.py:24-35 | the nested loops over x and y add exactly the edges between orthogonally adjacent squares of the board |
| Graph.RemoveWallEdges | quoridor.py:38-49 | removing the walls of one orientation, one at a time, leaves the graph minus exactly the edges those walls cut; every edge removed is present when it is removed |
| Graph.CutsExact | quoridor.py:38-49 | an edge is removed by a wall list exactly when one wall of the list cuts it |
| Graph.CutInBase | quoridor.py:38-49 | every edge cut by a wall inside its anchor range is an edge of the base graph |
| Graph.CutsAxis | quoridor.py:38-49 | horizontal walls cut only vertical steps, vertical walls only horizontal ones |
| Graph.OccupyExact | quoridor.py:53-69 | after a pawn's square is handled, an edge is an old edge not leading onto that square, or a jump edge from a predecessor of the square to one of its jump targets |
| Graph.OccupyNoSelfLoop | quoridor.py:53-69 | handling a pawn never creates an edge from a square to itself |
| Graph.AddDiagonals | quoridor.py:67-69 | the diagonal loop adds exactly the edges from the predecessor to each candidate successor that is not the predecessor and holds no pawn |
| Graph.OccupyCell | quoridor.py:55-69 | the loop over the predecessors of a pawn's square, in any order, yields exactly the graph of the jump rule for that square |
| Graph.OccupyPlayers | quoridor.py:53-69 | handling the pawns in list order yields the graph of the jump rule applied pawn after pawn |
| Graph.AddGoals | quoridor.py:71-74 | the sentinel loop lifts every square edge and adds exactly the edges from row 9 to B1 and from row 1 to B2 |
| Graph.WithGoalsExact | quoridor.py:71-74 | an edge of the finished graph is a lifted square edge, a row-9 square to B1, or a row-1 square to B2, and nothing else |
| Graph.ConstruireGraphe | quoridor.py:12-76 | the five stages, for pawns on the board, anchors in range and non-overlapping walls, build exactly the movement graph of the pawns and walls |
| GraphProps.BaseGraphSymmetric | quoridor.py:24-35 | the base graph is symmetric: every step can be taken back |
| GraphProps.WallGraphExact | quoridor.py:37-49 | after stages 2 and 3 an edge remains exactly when it joins adjacent board squares and no wall of either list cuts it |
| GraphProps.WallSevers | quoridor.py:38-49 | a placed horizontal wall at (x, y) severs both directions of (x, y-1)-(x, y) and (x+1, y-1)-(x+1, y); a vertical one both directions of (x-1, y)-(x, y) and (x-1, y+1)-(x, y+1) |
| GraphProps.OccupyAllOnBoard | quoridor.py:53-69 | the jump rule only adds edges between squares of the board |
| GraphProps.OccupyAllAvoidsPawns | quoridor.py:53-69 | after every pawn is handled no edge leads onto any listed pawn's square |
| GraphProps.NoEdgeIntoPawns | quoridor.py:53-69 | no edge of the movement graph, from any node, leads onto a pawn's square |
| GraphProps.JumpEdgeKept | quoridor.py:59-69 | a jump edge added for one pawn survives the handling of the later pawns |
| GraphProps.KeptByLast | quoridor.py:53-58 | an edge not leading onto the last pawn's square survives its handling |
| GraphProps.AddedByLast | quoridor.py:59-69 | the jump edges of the last pawn are in the graph its handling leaves |
| GraphProps.JumpRule | quoridor.py:59-69 | for each edge into a pawn's square: the straight jump is in the finished graph when the square beyond is a successor and free, otherwise every free successor other than the origin is |
| GraphProps.SquareEdgesExact | quoridor.py:53-69 | the square edges of the finished graph are exactly the edges kept and the jump edges added for the pawn handled last |
| GraphProps.GoalEdges | quoridor.py:71-74 | exactly the row-9 squares lead to B1 and exactly the row-1 squares lead to B2 |
| GraphProps.GoalsAreSinks | quoridor.py:71-74 | the sentinels B1 and B2 have no outgoing edges |
| GraphProps.StepsStayOnBoard | quoridor.py:24-69 | every square edge of the finished graph joins two squares of the board |
| Moves.OccupyAllKeeps | quoridor.py:53-69 | an edge that does not lead onto a pawn's square survives the jump rule |
| Moves.StepAllowed | quoridor.py:24-69 | a pawn may always step to a neighbouring square that no wall cuts off and no pawn holds |
| Moves.TwoPawns | quoridor.py:53 | with two pawns, stage 4 handles player 1 and then player 2 |
| Moves.OccupyShape | quoridor.py:55-69 | an edge after a pawn is handled is an old edge, or a hop through the pawn's square onto a free square |
| Moves.TwoPawnShape | quoridor.py:53-69 | after two pawns are handled, an edge leaving a pawn's square is an old edge or a hop over the other pawn's square |
| Moves.PawnEdgeShape | quoridor.py:53-69 | on any graph without self-loops, an edge leaving a pawn's square leads onto a free square, directly or by a hop over the other pawn |
| Moves.MoveShape | quoridor.py:12-76 | every move the graph offers a pawn is onto a free square, either one wall-free step or a wall-free step onto the other pawn plus one more wall-free step |
| Moves.StraightJump | quoridor.py:59-63 | with pawns on (5, 6) and (5, 7) and no walls, player 1 may jump to (5, 8) |
| Moves.DiagonalJumpFrom | quoridor.py:65-69 | once player 1's pawn is handled, the edges of player 2's square give player 1 the diagonals and not the blocked straight jump |
| Moves.DiagonalJumpIn | quoridor.py:53-69 | on a graph with the wall behind player 2, player 1 gets (4, 7) and (6, 7) and not (5, 8) |
| Moves.DiagonalJump | quoridor.py:59-69 | with a horizontal wall anchored at (5, 8), player 1 on (5, 6) may not jump to (5, 8) but may go to (4, 7) and (6, 7) |
| Moves.InheritedJumpIn | quoridor.py:53-69 | on any graph with the edges around pawns on (5, 5) and (5, 6) and none through the wall at (6, 6), the empty square (4, 6) gets an edge to (5, 4) by way of player 1's jump edge (5, 6) to (5, 4) |
| Moves.InheritedJump | quoridor.py:53-69 | with pawns on (5, 5) and (5, 6) and a vertical wall at (6, 6), the empty square (4, 6) gets an edge to (5, 4) |
| Paths.ReachableStep | quoridor.py:71-74 | reachability extends along any edge |
| Paths.ClosedHoldsPath | quoridor.py:71-74 | a node set that contains the start of a path and is closed under edges contains its end |
| Paths.HasPath | quoridor.py:71-74 | the frontier search answers true exactly when the target node is reachable from the source node |
| Game.Resolve | quoridor.py:135-161 | a bare name stands for a valid record with 10 walls on (5, 1) for player 1 and (5, 9) for player 2; a full record stands for itself |
| Game.Positions | quoridor.py:265 | the list of pawn squares has one entry per player record, its square |
| Game.Spend | quoridor.py:342-367 | taking a wall from player k lowers its stock by one and leaves its name, its square and the other record unchanged |
| Game.CheckPaths | quoridor.py:12-76 | the path test holds exactly when player 1 can reach B1 and player 2 can reach B2 in the graph of the given walls |
| Game.Setup | quoridor.py:108-161 | in the source's order, each error exactly when it applies: an anchor out of range, a wall total other than 20, a player count other than 2, then for player 1 and then player 2 a wall stock outside 0..10 before a square off the board; otherwise the two resolved records and the wall lists are returned, and exactly then |
| Game.NewQuoridor | quoridor.py:90-161 | the same errors, each exactly when Setup reports it; a state is built exactly when the checks pass, holds the resolved records and the given walls, and admits the graph builder when the given walls do not overlap |
| Game.Quoridor.constructor | quoridor.py:109-161 | the new state holds the records and walls it was given |
| Game.Quoridor.DeplacerJeton | quoridor.py:252-273 | rejects a player number other than 1 or 2, then a target off the board, then a target that is not a successor of the pawn's square in the current graph, each exactly when it applies and without change; on success only that pawn's square changes, to the target |
| Game.Quoridor.PartieTerminee | quoridor.py:327-339 | player 1's name when its pawn is on row 9, otherwise player 2's name when its pawn is on row 1, otherwise none |
| Game.ExaminerMur | quoridor.py:342-367 | in order: a bad player number, no wall left, an anchor out of range, a collision, a wall that cuts a pawn off from its goal, each exactly when it applies; otherwise the wall is accepted, and the new wall lists stay fit for the graph builder |
| Game.Quoridor.PlacerMur | quoridor.py:342-367 | the checks of ExaminerMur on the current state; on rejection nothing changes; on acceptance the wall joins its list, the player has one wall fewer, and both pawns can still reach their goals |

## Left out

- `Quoridor.__str__` (quoridor.py:164-249): it renders the board as text. This is presentation only.
- `jouer_coup` (quoridor.py:301-324): an unfinished stub. It asks networkx for a shortest path and then does nothing with it.
- `état_partie` (quoridor.py:276-298): a getter that returns the fields, with the player list wrongly nested.
- The `print` in the body of `QuoridorError` (quoridor.py:85): output only.
- `main.py`: the interactive input/print loop and the demo script. These are I/O and orchestration.
- networkx is replaced by an explicit edge set. `has_path` is replaced by `Paths.HasPath`.
- Graph.ConstruireGraphe: `remove_edge` raises on an edge that is not there, and `predecessors` raises on a square that is not a node. The model makes these preconditions instead: every pawn on the board, every anchor in range and no two walls of one orientation overlapping. `Quoridor.Valid` gives the first two.
- Game.Quoridor.DeplacerJeton and Game.Quoridor.PlacerMur require `Buildable()`, no two placed walls of one orientation overlapping, besides `Valid()`. The constructor does not test for overlap, as quoridor.py:113-127 does not. A state resumed from overlapping walls is built (`Game.NewQuoridor` only promises `Buildable()` when the given walls do not overlap), and the model leaves the operations on it unspecified where the source would raise inside networkx.
- The check "murs is not a dictionary" (quoridor.py:115-116): Dafny's types already rule it out.
- The checks of the record's field types: Dafny's types cover what Python's duck typing leaves open.
  - The wall orientation is a two-case datatype, so a string other than 'horizontal' or 'vertical' is not modelled.
  - A player is a tagged value: a bare name or a full record.
- Game.ExaminerMur: crossing walls are not checked. A horizontal and a vertical wall whose centres coincide are both accepted. Such walls cut no common edge, so `construire_graphe` accepts them, and quoridor.py up to line 368 announces no crossing test.
- The order in which networkx lists predecessors and successors is not modelled. `Graph.OccupyCell` and `Graph.AddDiagonals` choose elements in an arbitrary order, and their contracts hold for every order.
- Python's mutation of the shared player dict in place (quoridor.py:273): the model replaces the record in the sequence. The dict might be aliased by the caller, and that aliasing is not modelled.
- Python compares a pawn square with the pawn list by value (quoridor.py:61 and 68, `successeur not in joueurs`). A position given as a list rather than a tuple would never match, so no pawn square would be excluded. The model compares `Cell` values, which stands for tuple positions only.
