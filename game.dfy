/** The game state of class Quoridor (quoridor.py:88-367) and the operations that
    validate and commit pawn moves and wall placements. */
module Game {
  import opened Board
  import opened Graph
  import opened Paths

  /** A player record: its name ('nom'), the walls it may still place ('murs') and its square ('pos'). */
  datatype Joueur = Joueur(nom: string, murs: int, pos: Cell)

  /** A constructor argument: a bare name (new game) or a full player record (resumed game). */
  datatype JoueurArg = Nom(nom: string) | Fiche(joueur: Joueur)

  /** The optional walls argument of the constructor: its 'horizontaux' and 'verticaux' lists. */
  datatype Murs = Murs(horizontaux: seq<Cell>, verticaux: seq<Cell>)

  datatype Option<T> = None | Some(value: T)

  /** The cases of QuoridorError, one per message of the source. */
  datatype Erreur =
    | MurNonValide      // "position du mur non-valide!" / "position du mur invalide!"
    | TotalDeMurs       // "mauvaise quantité totale de murs!"
    | NombreDeJoueurs   // "Il n'y a pas exactement 2 joueurs!"
    | NombreDeMurs      // "mauvais nombre de murs!"
    | PositionJoueur    // "position du joueur invalide!"
    | JoueurInvalide    // "joueur invalide!"
    | PositionInvalide  // "position invalide!"
    | MouvementInvalide // "mouvement invalide!"
    | PlusDeMurs        // "le joueur ne peut plus placer de murs!"
    | MurExistant       // the wall collides with one already placed
    | MurBloquant       // the wall would cut a player off from its goal

  datatype Result<T> = Ok(value: T) | Err(error: Erreur)

  datatype Outcome = Done | Failed(error: Erreur)

  /** The record a constructor argument stands for: a bare name gets 10 walls and the
      starting square of its seat, (5, 1) for player 1 and (5, 9) for player 2. */
  function Resolve(a: JoueurArg, numero: int): (j: Joueur)
    ensures a.Nom? ==> j.nom == a.nom && ValidJoueur(j) && j.murs == 10
    ensures a.Nom? ==> j.pos == Cell(5, if numero == 0 then 1 else 9)
    ensures a.Fiche? ==> j == a.joueur
  {
    match a
    case Nom(nom) => Joueur(nom, 10, if numero == 0 then Cell(5, 1) else Cell(5, 9))
    case Fiche(fiche) => fiche
  }

  /** A player record the constructor accepts: 0..10 walls left, a square of the board. */
  predicate ValidJoueur(j: Joueur) {
    0 <= j.murs <= 10 && OnBoard(j.pos)
  }

  predicate AllInBounds(ws: seq<Cell>, o: Orientation) {
    forall i :: 0 <= i < |ws| ==> AnchorInBounds(ws[i], o)
  }

  /** The state the constructor establishes and every operation keeps: two valid player
      records, every wall anchor in its range, and 20 walls in all, placed or to place. */
  predicate GoodState(js: seq<Joueur>, murh: seq<Cell>, murv: seq<Cell>) {
    |js| == 2 && ValidJoueur(js[0]) && ValidJoueur(js[1]) &&
    AllInBounds(murh, Horizontal) && AllInBounds(murv, Vertical) &&
    |murh| + |murv| + js[0].murs + js[1].murs == 20
  }

  /** The squares of the pawns, in player order. */
  function Positions(js: seq<Joueur>): (ps: seq<Cell>)
    ensures |ps| == |js| && forall k :: 0 <= k < |js| ==> ps[k] == js[k].pos
  {
    if js == [] then [] else [js[0].pos] + Positions(js[1..])
  }

  /** The player numbered joueur (1 or 2) still has a wall to place. */
  predicate MayPlace(js: seq<Joueur>, joueur: int) {
    (joueur == 1 || joueur == 2) && joueur - 1 < |js| && js[joueur - 1].murs > 0
  }

  /** Each pawn can still reach its goal sentinel, player 1 B1 and player 2 B2, in the
      graph of the given walls. */
  ghost predicate PathsOpen(js: seq<Joueur>, hs: seq<Cell>, vs: seq<Cell>)
    requires |js| == 2
  {
    var g := MoveGraph(Positions(js), hs, vs);
    Reachable(g, At(js[0].pos), B1) && Reachable(g, At(js[1].pos), B2)
  }

  /** The records after player k + 1 placed a wall: one wall fewer, nothing else changed. */
  function Spend(js: seq<Joueur>, k: int): (r: seq<Joueur>)
    requires 0 <= k < |js|
    ensures |r| == |js| && r[k].murs == js[k].murs - 1
    ensures r[k].nom == js[k].nom && r[k].pos == js[k].pos
    ensures forall i :: 0 <= i < |js| && i != k ==> r[i] == js[i]
  {
    js[k := js[k].(murs := js[k].murs - 1)]
  }

  /** The wall list of orientation side after placing the wall w of orientation o. */
  function WithWall(ws: seq<Cell>, w: Cell, o: Orientation, side: Orientation): (r: seq<Cell>)
  {
    if o == side then ws + [w] else ws
  }

  /** The path test of a wall placement: builds the graph of the given walls and asks
      whether player 1 can reach B1 and player 2 can reach B2. */
  method CheckPaths(js: seq<Joueur>, hs: seq<Cell>, vs: seq<Cell>) returns (ouvert: bool)
    requires |js| == 2 && OnBoard(js[0].pos) && OnBoard(js[1].pos)
    requires WallsFit(hs, Horizontal) && WallsFit(vs, Vertical)
    ensures ouvert <==> PathsOpen(js, hs, vs)
  {
    var candidat := ConstruireGraphe(Positions(js), hs, vs);
    var chemin1 := HasPath(candidat, At(js[0].pos), B1);
    var chemin2 := HasPath(candidat, At(js[1].pos), B2);
    ouvert := chemin1 && chemin2;
  }

  /** The horizontal walls passed to the constructor, none when the argument is absent. */
  function Horizontaux(murs: Option<Murs>): seq<Cell> {
    if murs.Some? then murs.value.horizontaux else []
  }

  /** The vertical walls passed to the constructor, none when the argument is absent. */
  function Verticaux(murs: Option<Murs>): seq<Cell> {
    if murs.Some? then murs.value.verticaux else []
  }

  /** Every wall passed to the constructor lies inside the anchor range of its orientation. */
  predicate WallsInRange(murs: Option<Murs>) {
    AllInBounds(Horizontaux(murs), Horizontal) && AllInBounds(Verticaux(murs), Vertical)
  }

  /** The walls placed and the walls the first two players may still place. */
  function Total(joueurs: seq<JoueurArg>, murs: Option<Murs>): int
    requires |joueurs| >= 2
  {
    |Horizontaux(murs)| + |Verticaux(murs)| + Resolve(joueurs[0], 0).murs + Resolve(joueurs[1], 1).murs
  }

  /** The wall ranges, the 20-wall total and the player count have passed. */
  predicate Counted(joueurs: seq<JoueurArg>, murs: Option<Murs>) {
    WallsInRange(murs) && |joueurs| == 2 && Total(joueurs, murs) == 20
  }

  /** The record's wall stock is outside 0..10. */
  predicate BadStock(j: Joueur) {
    !(0 <= j.murs <= 10)
  }

  /** The record's square is off the board. */
  predicate BadSquare(j: Joueur) {
    !OnBoard(j.pos)
  }

  /** The checks of Quoridor.__init__ (quoridor.py:108-161), in the source's order: every
      wall anchor in range, the 20-wall total, exactly two players, then each player record,
      its wall stock before its square, player 1 before player 2. */
  method Setup(joueurs: seq<JoueurArg>, murs: Option<Murs>) returns (r: Result<(seq<Joueur>, seq<Cell>, seq<Cell>)>)
    ensures r == Err(MurNonValide) <==> !WallsInRange(murs)
    ensures r == Err(TotalDeMurs) <==> (WallsInRange(murs) && |joueurs| >= 2 && Total(joueurs, murs) != 20)
    ensures r == Err(NombreDeJoueurs) <==>
      (WallsInRange(murs) && (|joueurs| < 2 || (|joueurs| > 2 && Total(joueurs, murs) == 20)))
    ensures r == Err(NombreDeMurs) <==> (Counted(joueurs, murs) &&
      (BadStock(Resolve(joueurs[0], 0)) || (!BadSquare(Resolve(joueurs[0], 0)) && BadStock(Resolve(joueurs[1], 1)))))
    ensures r == Err(PositionJoueur) <==> (Counted(joueurs, murs) && !BadStock(Resolve(joueurs[0], 0)) &&
      (BadSquare(Resolve(joueurs[0], 0)) || (!BadStock(Resolve(joueurs[1], 1)) && BadSquare(Resolve(joueurs[1], 1)))))
    ensures r.Err? ==> r.error in {MurNonValide, TotalDeMurs, NombreDeJoueurs, NombreDeMurs, PositionJoueur}
    ensures r.Ok? <==>
      |joueurs| == 2 && GoodState([Resolve(joueurs[0], 0), Resolve(joueurs[1], 1)], Horizontaux(murs), Verticaux(murs))
    ensures r.Ok? ==> r.value == ([Resolve(joueurs[0], 0), Resolve(joueurs[1], 1)], Horizontaux(murs), Verticaux(murs))
  {
    var murh: seq<Cell> := [];
    var murv: seq<Cell> := [];
    if murs.Some? {
      var hs := murs.value.horizontaux;
      for i := 0 to |hs|
        invariant murh == hs[..i] && AllInBounds(murh, Horizontal)
      {
        // intended range 1 <= x <= 8, 2 <= y <= 9 (the chained comparison of quoridor.py:120 tests less)
        if !AnchorInBounds(hs[i], Horizontal) {
          return Err(MurNonValide);
        }
        // the source's 'self.murh += mur' splices the coordinates in; the intent is to append the anchor
        murh := murh + [hs[i]];
      }
      var vs := murs.value.verticaux;
      for i := 0 to |vs|
        invariant murv == vs[..i] && AllInBounds(murv, Vertical)
      {
        // intended range 2 <= x <= 9, 1 <= y <= 8 (quoridor.py:125)
        if !AnchorInBounds(vs[i], Vertical) {
          return Err(MurNonValide);
        }
        murv := murv + [vs[i]];
      }
      assert murh == hs && murv == vs;
    }
    // quoridor.py:129 reads the first two records before the player count is checked
    if |joueurs| < 2 {
      return Err(NombreDeJoueurs);
    }
    if |murh| + |murv| + Resolve(joueurs[0], 0).murs + Resolve(joueurs[1], 1).murs != 20 {
      return Err(TotalDeMurs);
    }
    if |joueurs| != 2 {
      return Err(NombreDeJoueurs);
    }
    var js: seq<Joueur> := [];
    for numero := 0 to 2
      invariant |js| == numero
      invariant forall k :: 0 <= k < numero ==> js[k] == Resolve(joueurs[k], k) && ValidJoueur(js[k])
    {
      var joueur := joueurs[numero];
      match joueur
      case Nom(nom) =>
        js := js + [Joueur(nom, 10, if numero == 0 then Cell(5, 1) else Cell(5, 9))];
      case Fiche(j) =>
        // intended 0 <= murs <= 10 (quoridor.py:155)
        if !(0 <= j.murs <= 10) {
          return Err(NombreDeMurs);
        }
        // intended 1 <= x, y <= 9 (quoridor.py:158)
        if !OnBoard(j.pos) {
          return Err(PositionJoueur);
        }
        js := js + [j];
    }
    assert js == [Resolve(joueurs[0], 0), Resolve(joueurs[1], 1)];
    return Ok((js, murh, murv));
  }

  /** The checks of placer_mur (quoridor.py:342-367) on the state (js, hs, vs), in the source's
      order: the player number, the walls left, the horizontal anchor range. After that check
      (quoridor.py:368 announces an occupancy test) the model completes the operation itself:
      the vertical anchor range, a collision test against the placed walls of the same
      orientation on both sides, since a wall overlapping another from either side would cut
      an edge that is already gone, then the path test on the graph with the new wall. */
  method ExaminerMur(js: seq<Joueur>, hs: seq<Cell>, vs: seq<Cell>, joueur: int, position: Cell, orientation: Orientation)
    returns (r: Outcome)
    requires GoodState(js, hs, vs) && NoOverlap(hs, Horizontal) && NoOverlap(vs, Vertical)
    ensures r.Failed? ==> r.error in {JoueurInvalide, PlusDeMurs, MurNonValide, MurExistant, MurBloquant}
    ensures r == Failed(JoueurInvalide) <==> joueur != 1 && joueur != 2
    ensures r == Failed(PlusDeMurs) <==> ((joueur == 1 || joueur == 2) && js[joueur - 1].murs <= 0)
    ensures r == Failed(MurNonValide) <==> (MayPlace(js, joueur) && !AnchorInBounds(position, orientation))
    ensures var ws := if orientation == Horizontal then hs else vs;
      r == Failed(MurExistant) <==>
        (MayPlace(js, joueur) && AnchorInBounds(position, orientation) && Collides(ws, position, orientation))
    ensures var ws := if orientation == Horizontal then hs else vs;
      r == Done <==>
        (MayPlace(js, joueur) && AnchorInBounds(position, orientation) && !Collides(ws, position, orientation) &&
         PathsOpen(js, WithWall(hs, position, orientation, Horizontal), WithWall(vs, position, orientation, Vertical)))
    ensures r == Done ==>
      WallsFit(WithWall(hs, position, orientation, Horizontal), Horizontal) &&
      WallsFit(WithWall(vs, position, orientation, Vertical), Vertical)
  {
    if joueur != 1 && joueur != 2 {
      return Failed(JoueurInvalide);
    }
    var k := joueur - 1;
    if js[k].murs <= 0 {
      return Failed(PlusDeMurs);
    }
    // the source builds the graph of the placed walls at this point (quoridor.py:358-362)
    var graphe := ConstruireGraphe(Positions(js), hs, vs);
    // intended ranges: horizontal 1 <= x <= 8, 2 <= y <= 9 (the chained comparison of
    // quoridor.py:366 never holds for x); vertical 2 <= x <= 9, 1 <= y <= 8
    if !AnchorInBounds(position, orientation) {
      return Failed(MurNonValide);
    }
    var ws := if orientation == Horizontal then hs else vs;
    CollidesExact(ws, position, orientation);
    if position in ws || Shifted(position, orientation, 1) in ws || Shifted(position, orientation, -1) in ws {
      return Failed(MurExistant);
    }
    var hs' := WithWall(hs, position, orientation, Horizontal);
    var vs' := WithWall(vs, position, orientation, Vertical);
    NoOverlapAppend(ws, position, orientation);
    var ouvert := CheckPaths(js, hs', vs');
    if !ouvert {
      return Failed(MurBloquant);
    }
    return Done;
  }

  class Quoridor {
    var joueurs: seq<Joueur>
    var murh: seq<Cell>
    var murv: seq<Cell>

    ghost predicate Valid()
      reads this
    {
      GoodState(joueurs, murh, murv)
    }

    /** No two placed walls overlap, so the graph can be built from them. */
    ghost predicate Buildable()
      reads this
    {
      NoOverlap(murh, Horizontal) && NoOverlap(murv, Vertical)
    }

    /** Stores the records and walls Setup accepted (the assignments of quoridor.py:109-111, 122, 127, 151, 161). */
    constructor (js: seq<Joueur>, hs: seq<Cell>, vs: seq<Cell>)
      requires GoodState(js, hs, vs)
      ensures Valid()
      ensures joueurs == js && murh == hs && murv == vs
    {
      joueurs, murh, murv := js, hs, vs;
    }

    /** déplacer_jeton (quoridor.py:252-273): checks the player number and the target square,
        builds the graph of the current state and moves the pawn when the target is a
        successor of its square. */
    method DeplacerJeton(joueur: int, position: Cell) returns (r: Outcome)
      requires Valid() && Buildable()
      modifies this
      ensures Valid() && Buildable()
      ensures murh == old(murh) && murv == old(murv)
      ensures r == Failed(JoueurInvalide) <==> joueur != 1 && joueur != 2
      ensures r == Failed(PositionInvalide) <==> (joueur == 1 || joueur == 2) && !OnBoard(position)
      ensures r == Done <==> ((joueur == 1 || joueur == 2) && OnBoard(position) &&
        (At(old(joueurs)[joueur - 1].pos), At(position)) in MoveGraph(Positions(old(joueurs)), murh, murv))
      ensures r.Failed? ==> r.error in {JoueurInvalide, PositionInvalide, MouvementInvalide} && joueurs == old(joueurs)
      ensures r == Done ==> joueurs == old(joueurs)[joueur - 1 := old(joueurs)[joueur - 1].(pos := position)]
    {
      if joueur != 1 && joueur != 2 {
        return Failed(JoueurInvalide);
      }
      // intended range 1..9 on both axes (the chained comparison of quoridor.py:261 only tests > 9)
      if !OnBoard(position) {
        return Failed(PositionInvalide);
      }
      var graphe := ConstruireGraphe(Positions(joueurs), murh, murv);
      var k := joueur - 1;
      // the successors of the pawn's square (quoridor.py:270 passes the whole player record)
      if (At(joueurs[k].pos), At(position)) !in graphe {
        return Failed(MouvementInvalide);
      }
      joueurs := joueurs[k := joueurs[k].(pos := position)];
      return Done;
    }

    /** partie_terminée (quoridor.py:327-339): the name of player 1 if its pawn is on row 9,
        otherwise the name of player 2 if its pawn is on row 1, otherwise nothing. */
    method PartieTerminee() returns (gagnant: Option<string>)
      requires Valid()
      ensures joueurs[0].pos.y == 9 ==> gagnant == Some(joueurs[0].nom)
      ensures joueurs[0].pos.y != 9 && joueurs[1].pos.y == 1 ==> gagnant == Some(joueurs[1].nom)
      ensures joueurs[0].pos.y != 9 && joueurs[1].pos.y != 1 ==> gagnant == None
    {
      var conditionDeVictoire := [9, 1];
      for numero := 0 to |joueurs|
        invariant forall k :: 0 <= k < numero ==> joueurs[k].pos.y != conditionDeVictoire[k]
      {
        if joueurs[numero].pos.y == conditionDeVictoire[numero] {
          return Some(joueurs[numero].nom);
        }
      }
      return None;
    }

    /** placer_mur (quoridor.py:342-367): examines the wall with ExaminerMur and, when it is
        accepted, records it and takes one wall from the player's stock. */
    method PlacerMur(joueur: int, position: Cell, orientation: Orientation) returns (r: Outcome)
      requires Valid() && Buildable()
      modifies this
      ensures Valid() && Buildable()
      ensures r.Failed? ==> joueurs == old(joueurs) && murh == old(murh) && murv == old(murv)
      ensures r.Failed? ==> r.error in {JoueurInvalide, PlusDeMurs, MurNonValide, MurExistant, MurBloquant}
      ensures r == Failed(JoueurInvalide) <==> joueur != 1 && joueur != 2
      ensures r == Failed(PlusDeMurs) <==> ((joueur == 1 || joueur == 2) && old(joueurs)[joueur - 1].murs <= 0)
      ensures r == Failed(MurNonValide) <==> (MayPlace(old(joueurs), joueur) && !AnchorInBounds(position, orientation))
      ensures var ws := if orientation == Horizontal then old(murh) else old(murv);
        r == Failed(MurExistant) <==>
          (MayPlace(old(joueurs), joueur) && AnchorInBounds(position, orientation) && Collides(ws, position, orientation))
      ensures var ws := if orientation == Horizontal then old(murh) else old(murv);
        r == Done <==>
          (MayPlace(old(joueurs), joueur) && AnchorInBounds(position, orientation) && !Collides(ws, position, orientation) &&
           PathsOpen(old(joueurs), WithWall(old(murh), position, orientation, Horizontal),
                                   WithWall(old(murv), position, orientation, Vertical)))
      ensures r == Done ==>
        murh == WithWall(old(murh), position, orientation, Horizontal) &&
        murv == WithWall(old(murv), position, orientation, Vertical) &&
        joueurs == Spend(old(joueurs), joueur - 1)
      ensures r == Done ==> PathsOpen(joueurs, murh, murv)
    {
      r := ExaminerMur(joueurs, murh, murv, joueur, position, orientation);
      if r == Done {
        var js := Spend(joueurs, joueur - 1);
        assert Positions(js) == Positions(joueurs);
        murh, murv, joueurs := WithWall(murh, position, orientation, Horizontal),
                               WithWall(murv, position, orientation, Vertical), js;
      }
    }
  }

  /** Quoridor(joueurs, murs): runs the constructor's checks and builds the state. */
  method NewQuoridor(joueurs: seq<JoueurArg>, murs: Option<Murs>) returns (r: Result<Quoridor>)
    ensures r.Ok? ==> fresh(r.value) && r.value.Valid() && |joueurs| == 2
    ensures r.Ok? ==>
      r.value.joueurs == [Resolve(joueurs[0], 0), Resolve(joueurs[1], 1)] &&
      r.value.murh == Horizontaux(murs) && r.value.murv == Verticaux(murs)
    ensures r.Ok? <==>
      |joueurs| == 2 && GoodState([Resolve(joueurs[0], 0), Resolve(joueurs[1], 1)], Horizontaux(murs), Verticaux(murs))
    ensures r.Ok? && NoOverlap(Horizontaux(murs), Horizontal) && NoOverlap(Verticaux(murs), Vertical) ==> r.value.Buildable()
    ensures r.Err? ==> r.error in {MurNonValide, TotalDeMurs, NombreDeJoueurs, NombreDeMurs, PositionJoueur}
    ensures (r.Err? && r.error == MurNonValide) <==> !WallsInRange(murs)
    ensures (r.Err? && r.error == TotalDeMurs) <==> (WallsInRange(murs) && |joueurs| >= 2 && Total(joueurs, murs) != 20)
    ensures (r.Err? && r.error == NombreDeJoueurs) <==>
      (WallsInRange(murs) && (|joueurs| < 2 || (|joueurs| > 2 && Total(joueurs, murs) == 20)))
    ensures (r.Err? && r.error == NombreDeMurs) <==> (Counted(joueurs, murs) &&
      (BadStock(Resolve(joueurs[0], 0)) || (!BadSquare(Resolve(joueurs[0], 0)) && BadStock(Resolve(joueurs[1], 1)))))
    ensures (r.Err? && r.error == PositionJoueur) <==> (Counted(joueurs, murs) && !BadStock(Resolve(joueurs[0], 0)) &&
      (BadSquare(Resolve(joueurs[0], 0)) || (!BadStock(Resolve(joueurs[1], 1)) && BadSquare(Resolve(joueurs[1], 1)))))
  {
    var s := Setup(joueurs, murs);
    if s.Err? {
      return Err(s.error);
    }
    var q := new Quoridor(s.value.0, s.value.1, s.value.2);
    return Ok(q);
  }
}
