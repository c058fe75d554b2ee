/** The rules of the game, stated declaratively: what a legal move is, which warriors
    a move captures, and when it ends the game.  The class in Room.dfy, which plays on an
    array in place, is proved against these definitions. */
module Rules {

  datatype Field = Empty | Throne | Escape | Black | White | King

  datatype Square = Square(x: int, y: int)

  const SIZE := 11
  const CENTRE := Square(SIZE / 2, SIZE / 2)

  predicate OnBoard(p: Square) {
    0 <= p.x < SIZE && 0 <= p.y < SIZE
  }

  predicate Corner(p: Square) {
    (p.x == 0 || p.x == SIZE - 1) && (p.y == 0 || p.y == SIZE - 1)
  }

  function Squares(): (s: set<Square>)
    ensures forall p :: p in s <==> OnBoard(p)
  {
    set x: int, y: int | 0 <= x < SIZE && 0 <= y < SIZE :: Square(x, y)
  }

  /** A playfield: one field for every square on the board. */
  type Board = b: map<Square, Field> | forall p :: p in b <==> OnBoard(p)
    witness map p | p in Squares() :: Empty

  datatype Dir = Right | Left | Down | Up

  /** The square `n` steps away from `p`; it may lie off the board. */
  function At(p: Square, d: Dir, n: int): Square {
    match d
    case Right => Square(p.x + n, p.y)
    case Left => Square(p.x - n, p.y)
    case Down => Square(p.x, p.y + n)
    case Up => Square(p.x, p.y - n)
  }

  function Opposite(d: Dir): Dir {
    match d
    case Right => Left
    case Left => Right
    case Down => Up
    case Up => Down
  }

  /** Coordinates of one requested move. */
  datatype Coords = Coords(from: Square, to: Square)

  /** One room's game: the board, whether it is over, and the four nicks. */
  datatype Game = Game(board: Board, over: bool, black: string, white: string,
                       onTurn: string, onStand: string)

  // ----- Legal moves

  /** `p` lies strictly between `from` and `to` on a common row or column. */
  predicate Between(from: Square, p: Square, to: Square) {
    || (from.y == p.y == to.y && (from.x < p.x < to.x || to.x < p.x < from.x))
    || (from.x == p.x == to.x && (from.y < p.y < to.y || to.y < p.y < from.y))
  }

  predicate Passable(f: Field) {
    f == Empty || f == Throne
  }

  ghost predicate ClearPath(b: Board, from: Square, to: Square) {
    forall p :: Between(from, p, to) && OnBoard(p) ==> Passable(b[p])
  }

  predicate Aligned(from: Square, to: Square) {
    from.x == to.x || from.y == to.y
  }

  /** The stone belongs to the player on turn and may stand on the field it goes to. */
  predicate MayEnter(g: Game, stone: Field, target: Field) {
    || (g.onTurn == g.black && stone == Black && target == Empty)
    || (g.onTurn == g.white && stone == White && target == Empty)
    || (g.onTurn == g.white && stone == King && (target == Empty || target == Throne || target == Escape))
  }

  ghost predicate Legal(g: Game, m: Coords) {
    && OnBoard(m.from) && OnBoard(m.to)
    && MayEnter(g, g.board[m.from], g.board[m.to])
    && Aligned(m.from, m.to)
    && ClearPath(g.board, m.from, m.to)
  }

  /** The stone stands on its new square; the square it left is the throne or empty. */
  function Relocate(b: Board, from: Square, to: Square): Board
    requires OnBoard(from) && OnBoard(to)
  {
    b[to := b[from]][from := if from == CENTRE then Throne else Empty]
  }

  // ----- Captures

  function Rival(colour: Field): Field {
    if colour == Black then White else Black
  }

  predicate Hostile(f: Field, victim: Field) {
    f == Rival(victim) || f == Throne || f == Escape
  }

  /** A `victim` warrior next to `to` in direction `d`, with a hostile field behind it. */
  predicate Sandwiched(b: Board, to: Square, d: Dir, victim: Field) {
    && OnBoard(At(to, d, 1)) && OnBoard(At(to, d, 2))
    && b[At(to, d, 1)] == victim && Hostile(b[At(to, d, 2)], victim)
  }

  /** All squares whose warrior a stone landing on `to` captures, judged on one board. */
  ghost function Caught(b: Board, to: Square, victim: Field): (c: set<Square>)
    ensures forall p :: p in c ==> OnBoard(p) && b[p] == victim
  {
    set d: Dir | Sandwiched(b, to, d, victim) :: At(to, d, 1)
  }

  function ClearSquares(b: Board, gone: set<Square>): Board {
    map p | p in b :: if p in gone then Empty else b[p]
  }

  // ----- The king

  /** A square the king could still turn to: empty, or held by one of his own. */
  predicate Gap(b: Board, p: Square) {
    OnBoard(p) && (b[p] == Empty || b[p] == White)
  }

  /** The king on `k` has no gap on any side; the edge of the board, the throne, an escape
      square and a black warrior all close a side. */
  predicate Hemmed(b: Board, k: Square) {
    && !Gap(b, At(k, Right, 1)) && !Gap(b, At(k, Left, 1))
    && !Gap(b, At(k, Down, 1)) && !Gap(b, At(k, Up, 1))
  }

  predicate KingAt(b: Board, p: Square) {
    OnBoard(p) && b[p] == King
  }

  /** The neighbours of `to` are looked at right, left, down, up, and the last one that
      holds a king decides. */
  predicate LastKingHemmed(b: Board, to: Square) {
    if KingAt(b, At(to, Up, 1)) then Hemmed(b, At(to, Up, 1))
    else if KingAt(b, At(to, Down, 1)) then Hemmed(b, At(to, Down, 1))
    else if KingAt(b, At(to, Left, 1)) then Hemmed(b, At(to, Left, 1))
    else KingAt(b, At(to, Right, 1)) && Hemmed(b, At(to, Right, 1))
  }

  // ----- One move

  /** The board after the stone on `to` captured what it captures. */
  ghost function AfterCaptures(b: Board, to: Square): Board
    requires OnBoard(to)
  {
    match b[to]
    case White => ClearSquares(b, Caught(b, to, Black))
    case Black => ClearSquares(b, Caught(b, to, White))
    case _ => b
  }

  ghost predicate EndsGame(b: Board, to: Square)
    requires OnBoard(to)
  {
    match b[to]
    case King => Corner(to)
    case Black => LastKingHemmed(AfterCaptures(b, to), to)
    case _ => false
  }

  ghost function Play(g: Game, m: Coords): Game
  {
    if Legal(g, m) then
      var moved := Relocate(g.board, m.from, m.to);
      g.(board := AfterCaptures(moved, m.to), over := g.over || EndsGame(moved, m.to),
         onTurn := g.onStand, onStand := g.onTurn)
    else g
  }

  // ----- The start position

  function StartField(p: Square): Field {
    var dx, dy := if p.x < 5 then 5 - p.x else p.x - 5, if p.y < 5 then 5 - p.y else p.y - 5;
    if dx == 5 && dy == 5 then Escape
    else if dx == 0 && dy == 0 then King
    else if dx + dy <= 2 then White
    else if (dx == 5 && dy <= 2) || (dy == 5 && dx <= 2) || (dx + dy == 4 && (dx == 0 || dy == 0)) then Black
    else Empty
  }

  function StartBoard(): Board {
    map p | p in Squares() :: StartField(p)
  }

  function NewGame(black: string, white: string): Game {
    Game(StartBoard(), false, black, white, black, white)
  }
}
