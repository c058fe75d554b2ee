/** The two texts a game exchanges with the outside: move coordinates and the playfield. */
module MoveText {
  import opened Rules

  predicate IsDigit(c: char) {
    '0' <= c <= '9'
  }

  predicate AllDigits(s: string) {
    forall i :: 0 <= i < |s| ==> IsDigit(s[i])
  }

  /** Four numbers of two digits each: x and y to move from, x and y to move to. */
  predicate IsMoveText(s: string) {
    |s| == 8 && AllDigits(s)
  }

  /** The decimal value of a string of digits. */
  function Number(s: string): nat
    requires AllDigits(s)
  {
    if s == [] then 0 else 10 * Number(s[..|s| - 1]) + (s[|s| - 1] - '0') as nat
  }

  function MoveOf(s: string): Coords
    requires IsMoveText(s)
  {
    Coords(Square(Number(s[0..2]), Number(s[2..4])), Square(Number(s[4..6]), Number(s[6..8])))
  }

  function Digit(n: int): char
    requires 0 <= n < 10
  {
    '0' + n as char
  }

  function TwoDigits(n: int): (s: string)
    requires 0 <= n < 100
    ensures |s| == 2 && AllDigits(s)
  {
    [Digit(n / 10), Digit(n % 10)]
  }

  predicate Printable(m: Coords) {
    && 0 <= m.from.x < 100 && 0 <= m.from.y < 100
    && 0 <= m.to.x < 100 && 0 <= m.to.y < 100
  }

  function PrintMove(m: Coords): string
    requires Printable(m)
  {
    TwoDigits(m.from.x) + TwoDigits(m.from.y) + TwoDigits(m.to.x) + TwoDigits(m.to.y)
  }

  lemma NumberOfTwoDigits(s: string)
    requires |s| == 2 && AllDigits(s)
    ensures Number(s) == 10 * (s[0] - '0') as int + (s[1] - '0') as int
    ensures Number(s) < 100 && TwoDigits(Number(s)) == s
  {
    assert s[..1] == [s[0]] && s[..1][..0] == [];
    assert Number(s[..1]) == (s[0] - '0') as int;
  }

  /** Reading coordinates inverts printing them, in both directions. */
  lemma MoveRoundTrip(m: Coords, s: string)
    requires Printable(m) && IsMoveText(s)
    ensures IsMoveText(PrintMove(m)) && MoveOf(PrintMove(m)) == m
    ensures Printable(MoveOf(s)) && PrintMove(MoveOf(s)) == s
  {
    ReadPrinted(m);
    PrintRead(s);
    hide MoveOf, PrintMove;
  }

  lemma ReadPrinted(m: Coords)
    requires Printable(m)
    ensures IsMoveText(PrintMove(m)) && MoveOf(PrintMove(m)) == m
  {
    var t := PrintMove(m);
    assert t[0..2] == TwoDigits(m.from.x) && t[2..4] == TwoDigits(m.from.y);
    assert t[4..6] == TwoDigits(m.to.x) && t[6..8] == TwoDigits(m.to.y);
    NumberOfTwoDigits(t[0..2]);
    NumberOfTwoDigits(t[2..4]);
    NumberOfTwoDigits(t[4..6]);
    NumberOfTwoDigits(t[6..8]);
    hide Number;
  }

  lemma PrintRead(s: string)
    requires IsMoveText(s)
    ensures Printable(MoveOf(s)) && PrintMove(MoveOf(s)) == s
  {
    NumberOfTwoDigits(s[0..2]);
    NumberOfTwoDigits(s[2..4]);
    NumberOfTwoDigits(s[4..6]);
    NumberOfTwoDigits(s[6..8]);
    hide Number, TwoDigits;
    assert s == s[0..2] + s[2..4] + s[4..6] + s[6..8];
  }

  function Value(c: char): int {
    c as int - '0' as int
  }

  /** Which digit stands for what: tens before units, x before y, and the square to move from
      before the one to move to. */
  lemma MoveDigits(s: string)
    requires IsMoveText(s)
    ensures MoveOf(s) == Coords(Square(10 * Value(s[0]) + Value(s[1]), 10 * Value(s[2]) + Value(s[3])),
                                Square(10 * Value(s[4]) + Value(s[5]), 10 * Value(s[6]) + Value(s[7])))
  {
    NumberOfTwoDigits(s[0..2]);
    NumberOfTwoDigits(s[2..4]);
    NumberOfTwoDigits(s[4..6]);
    NumberOfTwoDigits(s[6..8]);
    hide Number;
  }

  // ----- The playfield

  function Code(f: Field): char {
    match f
    case Empty => '0'
    case Throne => '1'
    case Escape => '2'
    case Black => '3'
    case White => '4'
    case King => '5'
  }

  function FieldOf(c: char): Field {
    if c == '1' then Throne else if c == '2' then Escape else if c == '3' then Black
    else if c == '4' then White else if c == '5' then King else Empty
  }

  function SquareOf(i: nat): (p: Square)
    ensures i < SIZE * SIZE ==> OnBoard(p)
  {
    Square(i % SIZE, i / SIZE)
  }

  function IndexOf(p: Square): int {
    SIZE * p.y + p.x
  }

  /** The board row by row, one digit a field. */
  function PlayfieldText(b: Board): (s: string)
    ensures |s| == SIZE * SIZE
    ensures forall i :: 0 <= i < |s| ==> '0' <= s[i] <= '5'
  {
    seq(SIZE * SIZE, i requires 0 <= i < SIZE * SIZE => Code(b[SquareOf(i)]))
  }

  function ReadPlayfield(s: string): Board
    requires |s| == SIZE * SIZE
  {
    map p | p in Squares() :: FieldOf(s[IndexOf(p)])
  }

  lemma IndexAndSquare(p: Square)
    requires OnBoard(p)
    ensures 0 <= IndexOf(p) < SIZE * SIZE && SquareOf(IndexOf(p)) == p
  {
    assert IndexOf(p) / SIZE == p.y;
  }

  /** The digit for each square: eleven to a row, the top row first, left to right. */
  lemma PlayfieldDigits(b: Board, x: int, y: int)
    requires 0 <= x < 11 && 0 <= y < 11
    ensures PlayfieldText(b)[11 * y + x] ==
      match b[Square(x, y)]
      case Empty => '0' case Throne => '1' case Escape => '2' case Black => '3' case White => '4' case King => '5'
  {
    IndexAndSquare(Square(x, y));
  }

  lemma FieldAndCode(f: Field)
    ensures FieldOf(Code(f)) == f
  {
  }

  /** The board can be read back from its text, so two boards never share one. */
  lemma PlayfieldRoundTrip(b: Board)
    ensures ReadPlayfield(PlayfieldText(b)) == b
  {
    var s := PlayfieldText(b);
    forall p | OnBoard(p) ensures ReadPlayfield(s)[p] == b[p] {
      IndexAndSquare(p);
      assert s[IndexOf(p)] == Code(b[p]);
      FieldAndCode(b[p]);
    }
  }
}
