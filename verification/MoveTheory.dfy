/** What moving and capturing mean, field by field: who may go where, what is taken, and when
    black wins. */
module MoveTheory {
  import opened Rules
  import opened RulesTheory

  // ----- Legal moves

  /** The stone on `p` belongs to the player on turn, and the `n`-th square in direction `d` is
      on the board, open to it, and reached over empty squares and the throne only. */
  ghost predicate Slides(g: Game, p: Square, d: Dir, n: nat) {
    && OnBoard(p) && OnBoard(At(p, d, n)) && n >= 1
    && (forall k :: 0 < k < n && OnBoard(At(p, d, k)) ==> g.board[At(p, d, k)] in {Empty, Throne})
    && match g.board[p]
       case Black => g.onTurn == g.black && g.board[At(p, d, n)] == Empty
       case White => g.onTurn == g.white && g.board[At(p, d, n)] == Empty
       case King => g.onTurn == g.white && g.board[At(p, d, n)] in {Empty, Throne, Escape}
       case _ => false
  }

  /** How far apart two squares on a line are, and in which direction. */
  function Heading(from: Square, to: Square): Dir {
    Opposite(Backwards(from, to))
  }

  function Distance(from: Square, to: Square): nat {
    (if from.x < to.x then to.x - from.x else from.x - to.x) + (if from.y < to.y then to.y - from.y else from.y - to.y)
  }

  lemma OnTheLine(from: Square, to: Square)
    requires Aligned(from, to) && from != to
    ensures At(from, Heading(from, to), Distance(from, to)) == to && Distance(from, to) >= 1
  {
  }

  lemma BetweenOnTheLine(from: Square, d: Dir, n: nat, p: Square)
    ensures Between(from, p, At(from, d, n)) <==> exists k :: 0 < k < n && p == At(from, d, k)
  {
    if Between(from, p, At(from, d, n)) {
      assert p == At(from, d, Distance(from, p));
    }
  }

  lemma SlidesIsLegal(g: Game, p: Square, d: Dir, n: nat)
    requires n >= 1
    ensures Legal(g, Coords(p, At(p, d, n))) <==> Slides(g, p, d, n)
  {
    var to := At(p, d, n);
    if Slides(g, p, d, n) {
      forall q | Between(p, q, to) && OnBoard(q) ensures Passable(g.board[q]) {
        BetweenOnTheLine(p, d, n, q);
      }
    }
    if Legal(g, Coords(p, to)) {
      forall k | 0 < k < n && OnBoard(At(p, d, k)) ensures g.board[At(p, d, k)] in {Empty, Throne} {
        BetweenOnTheLine(p, d, n, At(p, d, k));
      }
    }
  }

  /** A move is legal exactly when it goes some squares in one direction over empty squares
      and the throne: a warrior of the player on turn to an empty square, the king, in white's
      turn, to an empty square, the throne or an escape square. */
  lemma LegalExactly(g: Game, m: Coords)
    ensures Legal(g, m) <==> exists d, n: nat :: n >= 1 && m.to == At(m.from, d, n) && Slides(g, m.from, d, n)
  {
    if Legal(g, m) {
      assert m.from != m.to;
      OnTheLine(m.from, m.to);
      SlidesIsLegal(g, m.from, Heading(m.from, m.to), Distance(m.from, m.to));
    }
    if d, n: nat :| n >= 1 && m.to == At(m.from, d, n) && Slides(g, m.from, d, n) {
      SlidesIsLegal(g, m.from, d, n);
    }
  }

  // ----- Captures

  /** The field on `p` once the stone of `m` has gone, and nothing else has happened. */
  function Vacated(p: Square): Field {
    if p == CENTRE then Throne else Empty
  }

  /** The neighbour of the square a warrior goes to, in direction `d`, is an enemy warrior, and
      behind it is a stone of the mover's colour, the throne or an escape square. */
  predicate Taken(b: Board, m: Coords, d: Dir)
    requires OnBoard(m.from)
  {
    var near, far := At(m.to, d, 1), At(m.to, d, 2);
    && OnBoard(near) && OnBoard(far)
    && match b[m.from]
       case White => b[near] == Black && b[far] in {White, Throne, Escape}
       case Black => b[near] == White && b[far] in {Black, Throne, Escape}
       case _ => false
  }

  /** The neighbour in direction `d` after a legal move, judged on the board before it: taken
      exactly when it is an enemy warrior with a hostile field behind it, and otherwise as it
      was, unless the stone came from there. */
  lemma CapturedExactly(g: Game, m: Coords, d: Dir)
    requires Legal(g, m) && OnBoard(At(m.to, d, 1))
    ensures var near := At(m.to, d, 1);
      Play(g, m).board[near] ==
        if near == m.from then Vacated(near) else if Taken(g.board, m, d) then Empty else g.board[near]
  {
    var near, far := At(m.to, d, 1), At(m.to, d, 2);
    PlaySquareBySquare(g, m);
    TakenIsLost(g, m, d);
  }

  lemma TakenIsLost(g: Game, m: Coords, d: Dir)
    requires Legal(g, m) && OnBoard(At(m.to, d, 1))
    ensures At(m.to, d, 1) in Losses(g, m) <==> Taken(g.board, m, d)
  {
  }

  /** Only neighbours of the square a stone goes to can be taken, and a king takes nothing. */
  lemma OthersStay(g: Game, m: Coords, p: Square)
    requires Legal(g, m) && OnBoard(p) && p != m.from && p != m.to
    requires g.board[m.from] == King || forall d :: p != At(m.to, d, 1)
    ensures Play(g, m).board[p] == g.board[p]
  {
    PlaySquareBySquare(g, m);
  }

  // ----- The end

  lemma ClosedSides(b: Board, k: Square)
    requires KingAt(b, k) && forall p :: KingAt(b, p) ==> p == k
    ensures Hemmed(b, k) <==> forall d :: OnBoard(At(k, d, 1)) ==> b[At(k, d, 1)] in {Black, Throne, Escape}
  {
    GapOrHemmed(b, k);
    hide Hemmed;
    forall d | OnBoard(At(k, d, 1)) ensures Gap(b, At(k, d, 1)) <==> b[At(k, d, 1)] !in {Black, Throne, Escape} {
      assert !KingAt(b, At(k, d, 1));
    }
  }

  /** A black move ends the game exactly when the stone lands next to the king and, once the
      captured warriors are gone, every neighbour of the king on the board is a black warrior,
      the throne or an escape square. */
  lemma BlackWinsExactly(g: Game, m: Coords, k: Square)
    requires !g.over && InOrder(g.board, k) && Legal(g, m) && g.board[m.from] == Black
    ensures Play(g, m).over <==>
      && (exists d :: At(m.to, d, 1) == k)
      && forall d :: OnBoard(At(k, d, 1)) ==> Play(g, m).board[At(k, d, 1)] in {Black, Throne, Escape}
  {
    hide Hemmed, Legal, Play;
    assert KingAt(g.board, k) && m.from != k;
    GameOverExactly(g, m, k);
    KingMoves(g, m, k);
    ClosedSides(Play(g, m).board, k);
  }

  // ----- Going back

  /** The same game with the other player on turn. */
  function Returned(g: Game): Game {
    g.(onTurn := g.onStand, onStand := g.onTurn)
  }

  /** The field a stone has left lies open for it to go back. */
  lemma StoneMayReturn(g: Game, m: Coords, k: Square)
    requires InOrder(g.board, k) && Legal(g, m) && !(g.board[m.from] == King && Corner(m.to))
    ensures Legal(Returned(Play(g, m)), Coords(m.to, m.from))
  {
  }

  /** The board after a king's move, and where the king then is. */
  lemma KingMoved(g: Game, m: Coords)
    requires Legal(g, m) && g.board[m.from] == King
    ensures OnBoard(m.from) && OnBoard(m.to) && m.from != m.to
    ensures Play(g, m).board == g.board[m.to := King][m.from := Vacated(m.from)]
  {
    PlaySquareBySquare(g, m);
    hide Legal, Play;
  }

  /** A king's move that does not end the game can be taken back: moving straight back, onto
      the throne too, is legal and restores the whole board. */
  lemma KingReturns(g: Game, m: Coords, k: Square)
    requires !g.over && InOrder(g.board, k) && Legal(g, m) && g.board[m.from] == King && !Play(g, m).over
    ensures var g' := Returned(Play(g, m));
      Legal(g', Coords(m.to, m.from)) && Play(g', Coords(m.to, m.from)).board == g.board
  {
    var g', back := Returned(Play(g, m)), Coords(m.to, m.from);
    GameOverExactly(g, m, k);
    KingMoved(g, m);
    WhereItWent(g, m, k);
    StoneMayReturn(g, m, k);
    hide Legal, Play, InOrder;
    KingMoved(g', back);
    assert g'.board[m.from := King][m.to := Vacated(m.to)] == g.board;
  }

  /** A king's target is as it will be left again, unless it is a corner. */
  lemma WhereItWent(g: Game, m: Coords, k: Square)
    requires InOrder(g.board, k) && Legal(g, m) && g.board[m.from] == King
    ensures m.from == k && (!Corner(m.to) ==> g.board[m.to] == Vacated(m.to))
  {
    assert KingAt(g.board, m.from);
    hide ClearPath, Hemmed;
  }
}
