/** What the rules guarantee over whole games. */
module RulesTheory {
  import opened Rules

  // ----- Scanning a path

  /** Two squares apart by one step on a row or a column. */
  predicate Adjacent(p: Square, q: Square) {
    || (p.y == q.y && (p.x + 1 == q.x || q.x + 1 == p.x))
    || (p.x == q.x && (p.y + 1 == q.y || q.y + 1 == p.y))
  }

  lemma ClearAtFirst(b: Board, from: Square, next: Square)
    requires Adjacent(from, next)
    ensures ClearPath(b, from, next)
  {
  }

  /** One step further along the way to `to`. */
  lemma ClearOneMore(b: Board, from: Square, at: Square, next: Square, to: Square)
    requires OnBoard(at) && Between(from, at, to) && Adjacent(at, next) && Between(from, at, next)
    ensures ClearPath(b, from, next) <==> ClearPath(b, from, at) && Passable(b[at])
    ensures !Passable(b[at]) ==> !ClearPath(b, from, to)
  {
    if ClearPath(b, from, next) {
      assert forall p :: Between(from, p, at) ==> Between(from, p, next);
    }
    if ClearPath(b, from, at) && Passable(b[at]) {
      assert forall p :: Between(from, p, next) ==> p == at || Between(from, p, at);
    }
  }

  // ----- Captures: order does not matter, at most three at a time

  /** One capture check, as the game does it for one direction on the current board. */
  function CaptureStep(b: Board, to: Square, d: Dir, victim: Field): Board {
    if Sandwiched(b, to, d, victim) then b[At(to, d, 1) := Empty] else b
  }

  function CaptureSteps(b: Board, to: Square, ds: seq<Dir>, victim: Field): Board {
    if ds == [] then b else CaptureSteps(CaptureStep(b, to, ds[0], victim), to, ds[1..], victim)
  }

  /** The squares caught in one of the directions `ds`, judged on one board. */
  ghost function CaughtAlong(b: Board, to: Square, ds: seq<Dir>, victim: Field): set<Square> {
    set d | d in ds && Sandwiched(b, to, d, victim) :: At(to, d, 1)
  }

  /** Checking the directions one after the other, each on the board the previous check
      left behind, removes exactly the warriors that were sandwiched at the start: in any
      order, with or without repetition, and nothing else changes. */
  lemma {:induction false} CapturesInAnyOrder(b: Board, to: Square, ds: seq<Dir>, victim: Field)
    requires victim == Black || victim == White
    ensures CaptureSteps(b, to, ds, victim) == ClearSquares(b, CaughtAlong(b, to, ds, victim))
  {
    if ds != [] {
      var b' := CaptureStep(b, to, ds[0], victim);
      CapturesInAnyOrder(b', to, ds[1..], victim);
      StepsDoNotMeet(b, to, ds[0], victim);
      var c, c' := CaughtAlong(b, to, ds, victim), CaughtAlong(b', to, ds[1..], victim);
      assert forall d :: d in ds <==> d == ds[0] || d in ds[1..];
      forall p | OnBoard(p) ensures ClearSquares(b', c')[p] == ClearSquares(b, c)[p] {
        if p in c {
          var d :| d in ds && Sandwiched(b, to, d, victim) && p == At(to, d, 1);
          assert d == ds[0] || (d in ds[1..] && (Sandwiched(b', to, d, victim)));
        }
      }
    }
  }

  lemma CaptureStepHere(b: Board, to: Square, d: Dir, victim: Field)
    requires OnBoard(to)
    ensures var near, far := At(to, d, 1), At(to, d, 2);
      && (OnBoard(far) ==> OnBoard(near))
      && CaptureStep(b, to, d, victim) ==
           if OnBoard(far) && b[near] == victim && Hostile(b[far], victim) then b[near := Empty] else b
  {
  }

  /** A capture in one direction changes no other direction's verdict. */
  lemma StepsDoNotMeet(b: Board, to: Square, d: Dir, victim: Field)
    ensures forall e :: e != d ==> Sandwiched(CaptureStep(b, to, d, victim), to, e, victim) == Sandwiched(b, to, e, victim)
  {
    forall e | e != d ensures Sandwiched(CaptureStep(b, to, d, victim), to, e, victim) == Sandwiched(b, to, e, victim) {
      assert At(to, e, 1) != At(to, d, 1) && At(to, e, 2) != At(to, d, 1);
    }
  }

  /** Any enumeration of the four directions computes the simultaneous rule. */
  lemma AllDirections(b: Board, to: Square, ds: seq<Dir>, victim: Field)
    requires victim == Black || victim == White
    requires forall d: Dir :: d in ds
    ensures CaptureSteps(b, to, ds, victim) == ClearSquares(b, Caught(b, to, victim))
  {
    CapturesInAnyOrder(b, to, ds, victim);
    assert CaughtAlong(b, to, ds, victim) == Caught(b, to, victim);
  }

  lemma OneMoreStep(b: Board, to: Square, d: Dir, ds: seq<Dir>, victim: Field)
    ensures CaptureSteps(b, to, [d] + ds, victim) == CaptureSteps(CaptureStep(b, to, d, victim), to, ds, victim)
  {
    assert ([d] + ds)[1..] == ds;
  }

  /** The game checks right, left, down, up. */
  lemma FourCaptureSteps(b: Board, to: Square, victim: Field)
    requires victim == Black || victim == White
    ensures CaptureStep(CaptureStep(CaptureStep(CaptureStep(b, to, Right, victim), to, Left, victim), to, Down, victim), to, Up, victim)
         == ClearSquares(b, Caught(b, to, victim))
  {
    var ds := [Right] + ([Left] + ([Down] + ([Up] + [])));
    var b1 := CaptureStep(b, to, Right, victim);
    var b2 := CaptureStep(b1, to, Left, victim);
    var b3 := CaptureStep(b2, to, Down, victim);
    OneMoreStep(b, to, Right, [Left] + ([Down] + ([Up] + [])), victim);
    OneMoreStep(b1, to, Left, [Down] + ([Up] + []), victim);
    OneMoreStep(b2, to, Down, [Up] + [], victim);
    OneMoreStep(b3, to, Up, [], victim);
    EveryDirection(ds);
    AllDirections(b, to, ds, victim);
  }

  lemma EveryDirection(ds: seq<Dir>)
    requires ds == [Right] + ([Left] + ([Down] + ([Up] + [])))
    ensures forall d: Dir :: d in ds
  {
    assert ds[0] == Right && ds[1] == Left && ds[2] == Down && ds[3] == Up;
    forall d: Dir ensures d in ds {
      match d case Right => case Left => case Down => case Up =>
    }
  }

  /** The direction from the square a stone landed on back to where it came from. */
  function Backwards(from: Square, to: Square): Dir {
    if from.y == to.y then (if from.x < to.x then Left else Right)
    else (if from.y < to.y then Up else Down)
  }

  /** Behind a stone that just moved there is always an empty square or the throne. */
  lemma NothingBehind(g: Game, m: Coords)
    requires Legal(g, m)
    ensures var back := At(m.to, Backwards(m.from, m.to), 1);
      OnBoard(back) && Passable(Relocate(g.board, m.from, m.to)[back])
  {
    var back := At(m.to, Backwards(m.from, m.to), 1);
    assert m.from != m.to;
    if back != m.from {
      assert Between(m.from, back, m.to);
    }
  }

  lemma FourSquares(to: Square, c: set<Square>, skip: Dir)
    requires forall p :: p in c ==> exists d: Dir :: d != skip && p == At(to, d, 1)
    ensures |c| <= 3
  {
    var all := {At(to, Right, 1), At(to, Left, 1), At(to, Down, 1), At(to, Up, 1)};
    var three := all - {At(to, skip, 1)};
    assert At(to, skip, 1) in all;
    assert |all| <= 4;
    assert c <= three;
    Subset(c, three);
  }

  lemma {:induction false} Subset<T>(a: set<T>, b: set<T>)
    requires a <= b
    ensures |a| <= |b|
  {
    if a != {} {
      var x :| x in a;
      Subset(a - {x}, b - {x});
    }
  }

  ghost function Stones(b: Board, colour: Field): set<Square> {
    set p | p in b && b[p] == colour
  }

  /** Moving a stone onto a field without one changes no count, and captured squares leave
      the victim's count only. */
  lemma RelocatedStones(b: Board, from: Square, to: Square, colour: Field)
    requires OnBoard(from) && OnBoard(to) && from != to && colour in {Black, White}
    requires b[from] in {Black, White, King} && b[to] !in {Black, White, King}
    ensures |Stones(Relocate(b, from, to), colour)| == |Stones(b, colour)|
  {
    var before, after := Stones(b, colour), Stones(Relocate(b, from, to), colour);
    MovedStones(b, from, to, colour);
    hide Stones, Relocate;
    if colour == b[from] {
      assert |before - {from}| == |before| - 1;
    }
  }

  lemma MovedStones(b: Board, from: Square, to: Square, colour: Field)
    requires OnBoard(from) && OnBoard(to) && from != to && colour in {Black, White}
    requires b[from] in {Black, White, King} && b[to] !in {Black, White, King}
    ensures var before, after := Stones(b, colour), Stones(Relocate(b, from, to), colour);
      if colour == b[from] then from in before && to !in before && after == before - {from} + {to} else after == before
  {
  }

  lemma ClearedStones(b: Board, gone: set<Square>, victim: Field)
    requires victim != Empty
    requires forall p :: p in gone ==> OnBoard(p) && b[p] == victim
    ensures |Stones(ClearSquares(b, gone), victim)| == |Stones(b, victim)| - |gone|
    ensures forall colour :: colour != victim && colour != Empty ==> Stones(ClearSquares(b, gone), colour) == Stones(b, colour)
  {
    assert Stones(ClearSquares(b, gone), victim) == Stones(b, victim) - gone;
    assert gone <= Stones(b, victim);
  }

  /** The warriors that one legal move captures. */
  ghost function Losses(g: Game, m: Coords): set<Square>
    requires Legal(g, m)
  {
    var stone := g.board[m.from];
    if stone == King then {} else Caught(Relocate(g.board, m.from, m.to), m.to, Rival(stone))
  }

  lemma AtMostThree(g: Game, m: Coords)
    requires Legal(g, m)
    ensures |Losses(g, m)| <= 3
  {
    if g.board[m.from] != King {
      NothingBehind(g, m);
      FourSquares(m.to, Losses(g, m), Backwards(m.from, m.to));
    }
  }

  /** What a legal move does to the number of stones: the mover keeps all of them, and the
      opponent loses exactly the captured ones, of which there are at most three although
      four directions are checked. */
  lemma MaterialBalance(g: Game, m: Coords)
    requires Legal(g, m)
    ensures |Losses(g, m)| <= 3
    ensures g.board[m.from] != White ==> |Stones(Play(g, m).board, Black)| == |Stones(g.board, Black)|
    ensures g.board[m.from] != Black ==> |Stones(Play(g, m).board, White)| == |Stones(g.board, White)|
    ensures g.board[m.from] == White ==> |Stones(Play(g, m).board, Black)| == |Stones(g.board, Black)| - |Losses(g, m)|
    ensures g.board[m.from] == Black ==> |Stones(Play(g, m).board, White)| == |Stones(g.board, White)| - |Losses(g, m)|
  {
    var stone, moved := g.board[m.from], Relocate(g.board, m.from, m.to);
    AtMostThree(g, m);
    RelocatedStones(g.board, m.from, m.to, Black);
    RelocatedStones(g.board, m.from, m.to, White);
    if stone != King {
      ClearedStones(moved, Losses(g, m), Rival(stone));
    }
  }

  // ----- The board invariant

  /** A board in play, with its king on `k`: there is no other king; the throne shows on
      the centre exactly when the king is elsewhere; the corners are the escape squares and
      there are no others; no side has more stones than it started with; and a king
      without a free neighbour stands next to the throne. */
  ghost predicate InOrder(b: Board, k: Square) {
    && KingAt(b, k)
    && (forall p :: KingAt(b, p) ==> p == k)
    && (forall p :: OnBoard(p) ==> (b[p] == Throne <==> p == CENTRE && k != CENTRE))
    && (forall p :: OnBoard(p) ==> (b[p] == Escape <==> Corner(p)))
    && |Stones(b, Black)| <= 24
    && |Stones(b, White)| <= 12
    && (Hemmed(b, k) ==> NextToCentre(k))
  }

  predicate NextToCentre(k: Square) {
    exists d: Dir :: At(k, d, 1) == CENTRE
  }

  ghost predicate BoardOk(b: Board) {
    exists k :: InOrder(b, k)
  }

  ghost predicate TwoPlayers(g: Game) {
    && g.black != g.white
    && ((g.onTurn == g.black && g.onStand == g.white) || (g.onTurn == g.white && g.onStand == g.black))
  }

  /** A game in play between two different players. */
  ghost predicate GameOk(g: Game) {
    !g.over && TwoPlayers(g) && BoardOk(g.board)
  }

  function Side(p: Square): Dir {
    if p.y <= 1 then Up else if p.y >= 9 then Down else if p.x <= 1 then Left else Right
  }

  /** The six attackers that start out on the side of the board in direction `d`. */
  function Camp(d: Dir): set<Square> {
    match d
    case Up => {Square(3, 0), Square(4, 0), Square(5, 0), Square(6, 0), Square(7, 0), Square(5, 1)}
    case Down => {Square(3, 10), Square(4, 10), Square(5, 10), Square(6, 10), Square(7, 10), Square(5, 9)}
    case Left => {Square(0, 3), Square(0, 4), Square(0, 5), Square(0, 6), Square(0, 7), Square(1, 5)}
    case Right => {Square(10, 3), Square(10, 4), Square(10, 5), Square(10, 6), Square(10, 7), Square(9, 5)}
  }

  lemma CampHasSix(d: Dir)
    ensures |Camp(d)| == 6
  {
  }

  lemma CampIs(d: Dir)
    ensures forall p :: p in Camp(d) <==> OnBoard(p) && StartField(p) == Black && Side(p) == d
  {
  }

  lemma StartBlack()
    ensures |Stones(StartBoard(), Black)| == 24
  {
    hide Camp, StartField;
    var upDown, leftRight := Camp(Up) + Camp(Down), Camp(Left) + Camp(Right);
    FourCamps();
    CampHasSix(Up); CampHasSix(Down); CampHasSix(Left); CampHasSix(Right);
    assert |upDown| == 12 && |leftRight| == 12;
    assert |upDown + leftRight| == 24;
  }

  lemma FourCamps()
    ensures Camp(Up) !! Camp(Down) && Camp(Left) !! Camp(Right) && Camp(Up) + Camp(Down) !! Camp(Left) + Camp(Right)
    ensures Stones(StartBoard(), Black) == (Camp(Up) + Camp(Down)) + (Camp(Left) + Camp(Right))
  {
    hide Camp, StartField;
    CampIs(Up); CampIs(Down); CampIs(Left); CampIs(Right);
    var all := (Camp(Up) + Camp(Down)) + (Camp(Left) + Camp(Right));
    forall p ensures p in Stones(StartBoard(), Black) <==> p in all {
      assert p in all <==> p in Camp(Side(p));
    }
  }

  lemma StartWhite()
    ensures |Stones(StartBoard(), White)| == 12
  {
    var arms := {Square(5, 3), Square(3, 5), Square(7, 5), Square(5, 7)};
    var ring := {Square(4, 4), Square(5, 4), Square(6, 4), Square(4, 5),
                 Square(6, 5), Square(4, 6), Square(5, 6), Square(6, 6)};
    assert |arms + ring| == 12;
    WhiteCamp(arms, ring);
  }

  lemma WhiteCamp(arms: set<Square>, ring: set<Square>)
    requires arms == {Square(5, 3), Square(3, 5), Square(7, 5), Square(5, 7)}
    requires ring == {Square(4, 4), Square(5, 4), Square(6, 4), Square(4, 5),
                      Square(6, 5), Square(4, 6), Square(5, 6), Square(6, 6)}
    ensures Stones(StartBoard(), White) == arms + ring
  {
  }

  lemma StartOk(black: string, white: string)
    requires black != white
    ensures GameOk(NewGame(black, white))
  {
    var b := StartBoard();
    StartBlack();
    StartWhite();
    assert At(CENTRE, Right, 1) == Square(6, 5) && b[Square(6, 5)] == White;
    assert InOrder(b, CENTRE);
  }

  lemma PlayUnfold(g: Game, m: Coords)
    ensures Legal(g, m) ==> OnBoard(m.from) && OnBoard(m.to)
    ensures Legal(g, m) ==>
      var moved := Relocate(g.board, m.from, m.to);
      Play(g, m) == Game(AfterCaptures(moved, m.to), g.over || EndsGame(moved, m.to), g.black, g.white, g.onStand, g.onTurn)
    ensures !Legal(g, m) ==> Play(g, m) == g
  {
  }

  // ----- One move, square by square

  ghost predicate BoardMoved(b: Board, m: Coords, gone: set<Square>, b': Board) {
    && OnBoard(m.from) && OnBoard(m.to)
    && forall p :: OnBoard(p) ==>
         b'[p] == (if p == m.from then (if m.from == CENTRE then Throne else Empty)
                   else if p == m.to then b[m.from]
                   else if p in gone then Empty
                   else b[p])
  }

  lemma PlaySquareBySquare(g: Game, m: Coords)
    requires Legal(g, m)
    ensures BoardMoved(g.board, m, Losses(g, m), Play(g, m).board)
    ensures forall p :: p in Losses(g, m) ==> g.board[m.from] != King && p != m.to && p != m.from && OnBoard(p) && g.board[p] == Rival(g.board[m.from])
    ensures m.from != m.to
  {
    var moved := Relocate(g.board, m.from, m.to);
    assert forall p :: p in Losses(g, m) ==> moved[p] == Rival(g.board[m.from]);
    hide EndsGame, ClearPath, Sandwiched;
  }

  // ----- The end of the game

  /** With one king on the board, what the four overwriting assignments compute is: some
      neighbour of the moved stone holds the king, and that king is hemmed in. */
  lemma OnlyKingDecides(b: Board, to: Square)
    requires forall p, q :: KingAt(b, p) && KingAt(b, q) ==> p == q
    ensures LastKingHemmed(b, to) <==> exists d :: KingAt(b, At(to, d, 1)) && Hemmed(b, At(to, d, 1))
  {
    if k :| KingAt(b, k) && exists d :: At(to, d, 1) == k {
      assert forall d :: KingAt(b, At(to, d, 1)) ==> At(to, d, 1) == k;
    }
  }

  /** Where the king stands after a move. */
  function KingAfter(m: Coords, k: Square): Square {
    if k == m.from then m.to else k
  }

  lemma KingMoves(g: Game, m: Coords, k: Square)
    requires InOrder(g.board, k) && Legal(g, m)
    ensures KingAt(Play(g, m).board, KingAfter(m, k))
    ensures forall p :: KingAt(Play(g, m).board, p) ==> p == KingAfter(m, k)
  {
    PlaySquareBySquare(g, m);
    assert KingAt(g.board, m.from) <==> m.from == k;
    forall p | KingAt(Play(g, m).board, p) ensures p == KingAfter(m, k) {
      assert KingAt(g.board, if p == m.to then m.from else p);
    }
  }

  /** A white move ends the game exactly when it takes the king to a corner; a black move
      ends it exactly when the moved stone stands next to the king and the king is hemmed in
      once the captured warriors are gone. */
  lemma GameOverExactly(g: Game, m: Coords, k: Square)
    requires !g.over && InOrder(g.board, k) && Legal(g, m)
    ensures g.board[m.from] != Black ==> (Play(g, m).over <==> Corner(KingAfter(m, k)))
    ensures g.board[m.from] == Black ==>
      (Play(g, m).over <==> (exists d: Dir :: At(m.to, d, 1) == k) && Hemmed(Play(g, m).board, k))
  {
    KingMoves(g, m, k);
    var moved := Relocate(g.board, m.from, m.to);
    assert Play(g, m).over == EndsGame(moved, m.to);
    if g.board[m.from] == Black {
      OnlyKingDecides(AfterCaptures(moved, m.to), m.to);
    } else {
      assert !Corner(k) by { assert KingAt(g.board, k); }
      assert KingAt(g.board, m.from) <==> m.from == k;
    }
  }

  lemma GapOrHemmed(b: Board, k: Square)
    ensures Hemmed(b, k) <==> forall d :: !Gap(b, At(k, d, 1))
  {
    if Hemmed(b, k) {
      forall d ensures !Gap(b, At(k, d, 1)) {
        match d case Right => case Left => case Down => case Up =>
      }
    }
  }

  /** A king that just moved has a free square behind it unless the throne is there. */
  lemma ArrivingKing(g: Game, m: Coords, k: Square)
    requires InOrder(g.board, k) && Legal(g, m) && k == m.from
    requires Hemmed(Play(g, m).board, m.to)
    ensures NextToCentre(m.to)
  {
    NothingBehind(g, m);
    PlaySquareBySquare(g, m);
    var d := Backwards(m.from, m.to);
    var back := At(m.to, d, 1);
    GapOrHemmed(Play(g, m).board, m.to);
    assert !Gap(Play(g, m).board, back);
    assert Play(g, m).board[back] == Relocate(g.board, m.from, m.to)[back] == Throne;
    assert back == CENTRE;
  }

  /** A king that stayed put and is hemmed in now was hemmed in before, or the move that
      closed the last gap was a black stone landing beside it. */
  lemma StayingKing(b: Board, m: Coords, gone: set<Square>, b': Board, k: Square)
    requires BoardMoved(b, m, gone, b') && k != m.from && OnBoard(k)
    requires m.from != CENTRE && (b[m.from] == Black || b[m.from] == White)
    requires Hemmed(b', k) && !Hemmed(b, k)
    ensures b[m.from] == Black && exists d: Dir :: At(m.to, d, 1) == k
  {
    GapOrHemmed(b, k);
    GapOrHemmed(b', k);
    var d :| Gap(b, At(k, d, 1));
    var p := At(k, d, 1);
    assert !Gap(b', p);
    assert p == m.from || p == m.to;
    assert p != m.from;
    assert At(m.to, Opposite(d), 1) == k;
  }

  lemma SpecialFields(g: Game, m: Coords, k: Square)
    requires InOrder(g.board, k) && Legal(g, m) && !Corner(KingAfter(m, k))
    ensures forall p :: OnBoard(p) ==> (Play(g, m).board[p] == Throne <==> p == CENTRE && KingAfter(m, k) != CENTRE)
    ensures forall p :: OnBoard(p) ==> (Play(g, m).board[p] == Escape <==> Corner(p))
  {
    PlaySquareBySquare(g, m);
    assert KingAt(g.board, k);
    assert KingAt(g.board, m.from) <==> m.from == k;
  }

  /** Every accepted move that does not end the game keeps the board in order. */
  lemma PlayKeepsOrder(g: Game, m: Coords, k: Square)
    requires !g.over && InOrder(g.board, k) && Legal(g, m) && !Play(g, m).over
    ensures InOrder(Play(g, m).board, KingAfter(m, k))
  {
    var b', k' := Play(g, m).board, KingAfter(m, k);
    KingMoves(g, m, k);
    MaterialBalance(g, m);
    GameOverExactly(g, m, k);
    assert !Corner(k) by { assert KingAt(g.board, k); }
    assert KingAt(g.board, m.from) <==> m.from == k;
    SpecialFields(g, m, k);
    if Hemmed(b', k') {
      if k == m.from {
        ArrivingKing(g, m, k);
      } else if !Hemmed(g.board, k) {
        PlaySquareBySquare(g, m);
        StayingKing(g.board, m, Losses(g, m), b', k);
      }
    }
  }

  lemma PlayKeepsGameOk(g: Game, m: Coords)
    requires GameOk(g) && !Play(g, m).over
    ensures GameOk(Play(g, m))
  {
    if Legal(g, m) {
      var k :| InOrder(g.board, k);
      PlayKeepsOrder(g, m, k);
    }
  }

  lemma NoGapBeside(b: Board, k: Square, to: Square)
    requires Hemmed(b, k) && OnBoard(to) && b[to] == Empty
    ensures forall d: Dir :: At(to, d, 1) != k
  {
    GapOrHemmed(b, k);
    forall d: Dir ensures At(to, d, 1) != k {
      assert Gap(b, to);
      assert At(At(to, d, 1), Opposite(d), 1) == to;
    }
  }

  /** A king that is already hemmed in cannot be captured by the next black move. */
  lemma HemmedKingIsSafe(g: Game, m: Coords, k: Square)
    requires !g.over && InOrder(g.board, k) && Hemmed(g.board, k)
    requires Legal(g, m) && g.board[m.from] == Black
    ensures NextToCentre(k) && !Play(g, m).over
  {
    GameOverExactly(g, m, k);
    NoGapBeside(g.board, k, m.to);
  }

  // ----- Whole games

  /** Where a list of move requests leads, and how many of them were accepted. */
  datatype Record = Record(game: Game, accepted: nat)

  /** As in the lobby, nobody moves once the game is over. */
  ghost function Run(g: Game, ms: seq<Coords>): Record
    decreases |ms|
  {
    if ms == [] || g.over then Record(g, 0)
    else
      var r := Run(Play(g, ms[0]), ms[1..]);
      if Legal(g, ms[0]) then Record(r.game, r.accepted + 1) else r
  }

  /** In every game that starts in order the invariant holds until it is over, and no
      side ever gains a stone. */
  lemma {:induction false} RunKeepsGameOk(g: Game, ms: seq<Coords>)
    requires GameOk(g)
    ensures Run(g, ms).game.over || GameOk(Run(g, ms).game)
    ensures |Stones(Run(g, ms).game.board, Black)| <= |Stones(g.board, Black)|
    ensures |Stones(Run(g, ms).game.board, White)| <= |Stones(g.board, White)|
    decreases |ms|
  {
    if ms != [] {
      var g' := Play(g, ms[0]);
      if Legal(g, ms[0]) { MaterialBalance(g, ms[0]); }
      if !g'.over {
        PlayKeepsGameOk(g, ms[0]);
        RunKeepsGameOk(g', ms[1..]);
      }
    }
  }

  /** Every position that can be reached from the start position while the game is on. */
  lemma EveryGame(black: string, white: string, ms: seq<Coords>)
    requires black != white
    ensures var g := Run(NewGame(black, white), ms).game;
      && (g.over || BoardOk(g.board))
      && |Stones(g.board, Black)| <= 24 && |Stones(g.board, White)| <= 12
  {
    StartOk(black, white);
    StartBlack();
    StartWhite();
    RunKeepsGameOk(NewGame(black, white), ms);
  }

  lemma PlayerSwap(g: Game, m: Coords)
    ensures var g' := Play(g, m);
      && g'.black == g.black && g'.white == g.white
      && (if Legal(g, m) then g'.onTurn == g.onStand && g'.onStand == g.onTurn
          else g'.onTurn == g.onTurn && g'.onStand == g.onStand)
  {
  }

  lemma SwapKeepsTwo(g: Game, m: Coords)
    requires TwoPlayers(g)
    ensures TwoPlayers(Play(g, m)) && Play(g, m).black == g.black && Play(g, m).white == g.white
    ensures Play(g, m).onTurn == g.onTurn <==> !Legal(g, m)
  {
    PlayerSwap(g, m);
  }

  lemma RunStep(g: Game, ms: seq<Coords>)
    ensures ms == [] || g.over ==> Run(g, ms) == Record(g, 0)
    ensures ms != [] && !g.over ==>
      var r := Run(Play(g, ms[0]), ms[1..]);
      Run(g, ms) == Record(r.game, r.accepted + if Legal(g, ms[0]) then 1 else 0)
  {
  }

  /** Black is on turn exactly after an even number of accepted moves from a position with
      black on turn, such as the start. */
  lemma {:induction false} TurnsAlternate(g: Game, ms: seq<Coords>)
    requires TwoPlayers(g)
    ensures var r := Run(g, ms);
      && TwoPlayers(r.game) && r.game.black == g.black
      && (r.game.onTurn == g.black <==> (r.accepted % 2 == 0 <==> g.onTurn == g.black))
    decreases |ms|
  {
    hide Run, Play, Legal;
    RunStep(g, ms);
    if ms != [] && !g.over {
      SwapKeepsTwo(g, ms[0]);
      TurnsAlternate(Play(g, ms[0]), ms[1..]);
    }
  }
}
