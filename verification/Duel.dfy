/** A short game, ply by ply: black moves one stone to and fro, and white opens a way for the
    king and takes him to a corner. */
module Duel {
  import opened Rules
  import opened RulesTheory

  /** The ply that takes the king to the corner. */
  const LAST_PLY := 11

  /** The stone, and where it goes, in each ply. */
  function PlyOf(k: nat): Coords {
    if k % 4 == 0 then Coords(Square(7, 10), Square(8, 10))
    else if k % 4 == 2 then Coords(Square(8, 10), Square(7, 10))
    else if k == 1 then Coords(Square(4, 4), Square(4, 2))
    else if k == 3 then Coords(Square(5, 4), Square(1, 4))
    else if k == 5 then Coords(CENTRE, Square(5, 4))
    else if k == 7 then Coords(Square(5, 4), Square(2, 4))
    else if k == 9 then Coords(Square(2, 4), Square(2, 0))
    else Coords(Square(2, 0), Square(0, 0))
  }

  /** The game after `k` plies. */
  ghost function Played(k: nat): Game {
    if k == 0 then NewGame("ann", "bob") else Play(Played(k - 1), PlyOf(k - 1))
  }

  /** What stands on each square after `k` plies. */
  function FieldAfter(k: nat, p: Square): Field {
    if p == Square(7, 10) then (if k % 4 == 1 || k % 4 == 2 then Empty else Black)
    else if p == Square(8, 10) then (if k % 4 == 1 || k % 4 == 2 then Black else Empty)
    else if p == Square(4, 4) then (if k > 1 then Empty else White)
    else if p == Square(4, 2) then (if k > 1 then White else Empty)
    else if p == Square(5, 4) then (if k <= 3 then White else if 5 < k <= 7 then King else Empty)
    else if p == Square(1, 4) then (if k > 3 then White else Empty)
    else if p == CENTRE then (if k > 5 then Throne else King)
    else if p == Square(2, 4) then (if 7 < k <= 9 then King else Empty)
    else if p == Square(2, 0) then (if 9 < k <= LAST_PLY then King else Empty)
    else StartField(p)
  }

  /** The game goes on, and its board is the one described. */
  ghost predicate OnTrack(g: Game, k: nat) {
    && !g.over && g.black == "ann" && g.white == "bob"
    && g.onTurn == (if k % 2 == 0 then "ann" else "bob") && g.onStand == (if k % 2 == 0 then "bob" else "ann")
    && forall p :: OnBoard(p) ==> g.board[p] == FieldAfter(k, p)
  }

  /** The stone of ply `k` may go where it goes. */
  ghost predicate MayGo(k: nat) {
    var m := PlyOf(k);
    && OnBoard(m.from) && OnBoard(m.to) && Aligned(m.from, m.to)
    && (if k % 2 == 0 then FieldAfter(k, m.from) == Black else FieldAfter(k, m.from) in {White, King})
    && FieldAfter(k, m.to) == (if k == LAST_PLY then Escape else Empty)
    && (k == LAST_PLY ==> FieldAfter(k, m.from) == King)
    && forall p :: Between(m.from, p, m.to) && OnBoard(p) ==> Passable(FieldAfter(k, p))
  }

  lemma BlackMayGo(k: nat)
    requires k < LAST_PLY && k % 2 == 0
    ensures MayGo(k)
  {
  }

  lemma WhiteOpens(k: nat)
    requires k == 1 || k == 3
    ensures MayGo(k)
  {
  }

  lemma KingGoes(k: nat)
    requires k == 5 || k == 7 || k == 9 || k == LAST_PLY
    ensures MayGo(k)
  {
  }

  lemma PlyMayGo(k: nat)
    requires k <= LAST_PLY
    ensures MayGo(k)
  {
    if k % 2 == 0 { BlackMayGo(k); } else if k <= 3 { WhiteOpens(k); } else { KingGoes(k); }
  }

  lemma PlyLegal(g: Game, k: nat)
    requires k <= LAST_PLY && OnTrack(g, k)
    ensures Legal(g, PlyOf(k))
  {
    PlyMayGo(k);
    hide PlyOf, FieldAfter;
  }

  /** No stone of the other side stands sandwiched, and no king next to a black stone. */
  predicate Quiet(k: nat, d: Dir) {
    var m := PlyOf(k);
    var near, far := At(m.to, d, 1), At(m.to, d, 2);
    if k % 2 == 0 then FieldAfter(k, near) !in {White, King}
    else FieldAfter(k, near) != Black || !OnBoard(far) || (far != m.from && FieldAfter(k, far) in {Black, Empty})
  }

  lemma BlackQuiet(k: nat, d: Dir)
    requires k < LAST_PLY && k % 2 == 0
    ensures Quiet(k, d)
  {
  }

  lemma WhiteQuiet(k: nat, d: Dir)
    requires k == 1 || k == 3
    ensures Quiet(k, d)
  {
  }

  lemma NothingTaken(g: Game, k: nat)
    requires k < LAST_PLY && OnTrack(g, k) && Legal(g, PlyOf(k))
    ensures Losses(g, PlyOf(k)) == {}
  {
    var m := PlyOf(k);
    if g.board[m.from] != King {
      assert k % 2 == 0 || k == 1 || k == 3;
      forall d: Dir ensures !Sandwiched(Relocate(g.board, m.from, m.to), m.to, d, Rival(g.board[m.from])) {
        if k % 2 == 0 { BlackQuiet(k, d); } else { WhiteQuiet(k, d); }
        StillQuiet(g, k, d);
      }
    }
  }

  lemma StillQuiet(g: Game, k: nat, d: Dir)
    requires k < LAST_PLY && OnTrack(g, k) && Legal(g, PlyOf(k)) && Quiet(k, d) && g.board[PlyOf(k).from] != King
    ensures !Sandwiched(Relocate(g.board, PlyOf(k).from, PlyOf(k).to), PlyOf(k).to, d, Rival(g.board[PlyOf(k).from]))
  {
    hide PlyOf, FieldAfter, Legal, OnTrack;
    var m := PlyOf(k);
    PlyMayGo(k);
    TrackField(g, k, m.from);
    if OnBoard(At(m.to, d, 2)) {
      TrackField(g, k, At(m.to, d, 1));
      TrackField(g, k, At(m.to, d, 2));
    }
  }

  lemma TrackField(g: Game, k: nat, p: Square)
    requires OnTrack(g, k) && OnBoard(p)
    ensures g.board[p] == FieldAfter(k, p)
  {
  }

  lemma NoKingBeside(g: Game, k: nat)
    requires k < LAST_PLY && k % 2 == 0 && OnTrack(g, k) && Legal(g, PlyOf(k))
    ensures !LastKingHemmed(Play(g, PlyOf(k)).board, PlyOf(k).to)
  {
    var m := PlyOf(k);
    PlySquares(g, k);
    forall d: Dir ensures !KingAt(Play(g, m).board, At(m.to, d, 1)) {
      BlackQuiet(k, d);
    }
    hide PlyOf, FieldAfter, Play, Hemmed, Legal;
  }

  lemma PlySquares(g: Game, k: nat)
    requires k < LAST_PLY && OnTrack(g, k) && Legal(g, PlyOf(k))
    ensures BoardMoved(g.board, PlyOf(k), {}, Play(g, PlyOf(k)).board)
  {
    NothingTaken(g, k);
    PlaySquareBySquare(g, PlyOf(k));
  }

  lemma NotOverYet(g: Game, k: nat)
    requires k < LAST_PLY && OnTrack(g, k) && Legal(g, PlyOf(k))
    ensures !Play(g, PlyOf(k)).over
  {
    var m := PlyOf(k);
    PlyMayGo(k);
    if k % 2 == 0 {
      NoKingBeside(g, k);
    } else {
      assert !Corner(m.to);
    }
    hide FieldAfter, PlyOf, ClearPath, LastKingHemmed, ClearSquares, Caught;
  }

  /** The field on `p` after ply `k`. */
  function NextField(k: nat, p: Square): Field {
    var m := PlyOf(k);
    if p == m.from then (if m.from == CENTRE then Throne else Empty)
    else if p == m.to then FieldAfter(k, m.from)
    else FieldAfter(k, p)
  }

  lemma FieldsFollow(k: nat, p: Square)
    requires k < LAST_PLY
    ensures FieldAfter(k + 1, p) == NextField(k, p)
  {
  }

  lemma BoardFollows(g: Game, k: nat)
    requires k < LAST_PLY && OnTrack(g, k) && Legal(g, PlyOf(k))
    ensures forall p :: OnBoard(p) ==> Play(g, PlyOf(k)).board[p] == FieldAfter(k + 1, p)
  {
    PlySquares(g, k);
    forall p | OnBoard(p) ensures Play(g, PlyOf(k)).board[p] == FieldAfter(k + 1, p) {
      FieldsFollow(k, p);
    }
    hide PlyOf, FieldAfter, Play, Legal;
  }

  /** Ply `k` is legal and leads to the game after one ply more. */
  lemma PlyKeepsTrack(g: Game, k: nat)
    requires k < LAST_PLY && OnTrack(g, k)
    ensures Legal(g, PlyOf(k)) && OnTrack(Play(g, PlyOf(k)), k + 1)
  {
    hide PlyOf, FieldAfter, Play, Legal;
    PlyLegal(g, k);
    BoardFollows(g, k);
    NotOverYet(g, k);
    PlayUnfold(g, PlyOf(k));
  }

  lemma StartOnTrack()
    ensures OnTrack(NewGame("ann", "bob"), 0)
  {
  }

  lemma {:induction false} PlayedOnTrack(k: nat)
    requires k <= LAST_PLY
    ensures OnTrack(Played(k), k)
  {
    hide OnTrack, Legal, Play, PlyOf;
    if k == 0 {
      StartOnTrack();
    } else {
      PlayedOnTrack(k - 1);
      PlyKeepsTrack(Played(k - 1), k - 1);
    }
  }

  lemma KingInTheCorner(g: Game)
    requires OnTrack(g, LAST_PLY) && Legal(g, PlyOf(LAST_PLY))
    ensures Play(g, PlyOf(LAST_PLY)).over
  {
    hide FieldAfter, ClearPath;
    PlyMayGo(LAST_PLY);
    assert Corner(PlyOf(LAST_PLY).to);
  }

  /** Every ply is legal, and the last one, and no other, ends the game: white has won. */
  lemma LastPlyWins(k: nat)
    requires k <= LAST_PLY
    ensures Legal(Played(k), PlyOf(k)) && (Play(Played(k), PlyOf(k)).over <==> k == LAST_PLY)
  {
    hide OnTrack, Legal, Play, PlyOf;
    PlayedOnTrack(k);
    PlyLegal(Played(k), k);
    if k < LAST_PLY {
      NotOverYet(Played(k), k);
    } else {
      KingInTheCorner(Played(k));
    }
  }
}
