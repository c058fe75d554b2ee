/** The game room: the playfield is an array updated in place, and every method is tied to
    the declarative rules in Rules.dfy. */
module Room {
  import opened Rules
  import opened MoveText
  import opened RulesTheory

  datatype GameState = Playing | Gameover

  const START_ROWS: seq<seq<Field>> :=
    [[Escape, Empty, Empty, Black, Black, Black, Black, Black, Empty, Empty, Escape],
     [Empty, Empty, Empty, Empty, Empty, Black, Empty, Empty, Empty, Empty, Empty],
     [Empty, Empty, Empty, Empty, Empty, Empty, Empty, Empty, Empty, Empty, Empty],
     [Black, Empty, Empty, Empty, Empty, White, Empty, Empty, Empty, Empty, Black],
     [Black, Empty, Empty, Empty, White, White, White, Empty, Empty, Empty, Black],
     [Black, Black, Empty, White, White, King, White, White, Empty, Black, Black],
     [Black, Empty, Empty, Empty, White, White, White, Empty, Empty, Empty, Black],
     [Black, Empty, Empty, Empty, Empty, White, Empty, Empty, Empty, Empty, Black],
     [Empty, Empty, Empty, Empty, Empty, Empty, Empty, Empty, Empty, Empty, Empty],
     [Empty, Empty, Empty, Empty, Empty, Black, Empty, Empty, Empty, Empty, Empty],
     [Escape, Empty, Empty, Black, Black, Black, Black, Black, Empty, Empty, Escape]]

  function StartRow(y: int): seq<Field> {
    seq(SIZE, x requires 0 <= x < SIZE => StartField(Square(x, y)))
  }

  /** The table of the start position is the position the rules start from. */
  lemma StartRowsMatch()
    ensures |START_ROWS| == SIZE
    ensures forall y :: 0 <= y < SIZE ==> START_ROWS[y] == StartRow(y)
  {
    assert START_ROWS[0] == StartRow(0);
    assert START_ROWS[1] == StartRow(1);
    assert START_ROWS[2] == StartRow(2);
    assert START_ROWS[3] == StartRow(3);
    assert START_ROWS[4] == StartRow(4);
    assert START_ROWS[5] == StartRow(5);
    assert START_ROWS[6] == StartRow(6);
    assert START_ROWS[7] == StartRow(7);
    assert START_ROWS[8] == StartRow(8);
    assert START_ROWS[9] == StartRow(9);
    assert START_ROWS[10] == StartRow(10);
  }

  function StartTable(y: nat, x: nat): Field {
    StartRowsMatch();
    if y < SIZE && x < SIZE then START_ROWS[y][x] else Empty
  }

  class RoomHnefatafl {
    var roomId: int
    var gameState: GameState
    var onTurn: string
    var onStand: string
    var black: string
    var white: string
    var xFrom: int
    var yFrom: int
    var xTo: int
    var yTo: int
    const pf: array2<Field>

    predicate Shaped() {
      pf.Length0 == SIZE && pf.Length1 == SIZE
    }

    ghost function BoardView(): Board
      requires Shaped()
      reads pf
    {
      map p | p in Squares() :: pf[p.y, p.x]
    }

    ghost function GameView(): Game
      requires Shaped()
      reads this, pf
    {
      Game(BoardView(), gameState == Gameover, black, white, onTurn, onStand)
    }

    ghost function MoveView(): Coords
      reads this
    {
      Coords(Square(xFrom, yFrom), Square(xTo, yTo))
    }

    constructor (id: int, pB: string, pW: string)
      ensures Shaped() && fresh(pf)
      ensures roomId == id && GameView() == NewGame(pB, pW)
    {
      roomId, gameState := id, Playing;
      onTurn, onStand := pB, pW;
      black, white := pB, pW;
      StartRowsMatch();
      pf := new Field[SIZE, SIZE]((y: nat, x: nat) => StartTable(y, x));
    }

    // ----- Move checks

    predicate IsWithinPf()
      reads this
    {
      0 <= xFrom < SIZE && 0 <= yFrom < SIZE && 0 <= xTo < SIZE && 0 <= yTo < SIZE
    }

    predicate IsOrthogonal()
      reads this
    {
      xFrom == xTo || yFrom == yTo
    }

    /** The scan only ends because the two squares differ: it steps until it meets the
        destination. */
    method IsFreePath() returns (freePath: bool)
      requires Shaped() && IsWithinPf() && IsOrthogonal()
      requires MoveView().from != MoveView().to
      ensures freePath <==> ClearPath(BoardView(), MoveView().from, MoveView().to)
    {
      ghost var b, from, to := BoardView(), MoveView().from, MoveView().to;
      hide ClearPath;
      freePath := true;
      if yFrom == yTo {
        var shift := if xFrom < xTo then 1 else -1;
        var i := xFrom + shift;
        ClearAtFirst(b, from, Square(i, yFrom));
        while i != xTo
          invariant if shift == 1 then xFrom < i <= xTo else xTo <= i < xFrom
          invariant ClearPath(b, from, Square(i, yFrom))
          decreases if shift == 1 then xTo - i else i - xTo
        {
          ClearOneMore(b, from, Square(i, yFrom), Square(i + shift, yFrom), to);
          if pf[yFrom, i] != Empty && pf[yFrom, i] != Throne {
            freePath := false;
            break;
          }
          i := i + shift;
        }
      } else if xFrom == xTo {
        var shift := if yFrom < yTo then 1 else -1;
        var i := yFrom + shift;
        ClearAtFirst(b, from, Square(xFrom, i));
        while i != yTo
          invariant if shift == 1 then yFrom < i <= yTo else yTo <= i < yFrom
          invariant ClearPath(b, from, Square(xFrom, i))
          decreases if shift == 1 then yTo - i else i - yTo
        {
          ClearOneMore(b, from, Square(xFrom, i), Square(xFrom, i + shift), to);
          if pf[i, xFrom] != Empty && pf[i, xFrom] != Throne {
            freePath := false;
            break;
          }
          i := i + shift;
        }
      }
    }

    method ParseMove(coorStr: string)
      requires IsMoveText(coorStr)
      modifies `xFrom, `yFrom, `xTo, `yTo
      ensures MoveView() == MoveOf(coorStr)
    {
      xFrom := Number(coorStr[0..2]);
      yFrom := Number(coorStr[2..4]);
      xTo := Number(coorStr[4..6]);
      yTo := Number(coorStr[6..8]);
    }

    method IsValidMove() returns (valid: bool)
      requires Shaped()
      ensures valid <==> Legal(GameView(), MoveView())
    {
      valid := false;
      if IsWithinPf() {
        var from, to := pf[yFrom, xFrom], pf[yTo, xTo];
        assert BoardView()[MoveView().from] == from && BoardView()[MoveView().to] == to;
        if onTurn == black && from == Black {
          if to == Empty {
            if IsOrthogonal() { valid := IsFreePath(); }
          }
        } else if onTurn == white && from == White {
          if to == Empty {
            if IsOrthogonal() { valid := IsFreePath(); }
          }
        } else if onTurn == white && from == King {
          if to == Empty || to == Throne || to == Escape {
            if IsOrthogonal() { valid := IsFreePath(); }
          }
        }
      }
    }

    // ----- The move and its captures

    method Place(p: Square, f: Field)
      requires Shaped() && OnBoard(p)
      modifies pf
      ensures BoardView() == old(BoardView())[p := f]
    {
      pf[p.y, p.x] := f;
    }

    method Move()
      requires Shaped() && IsWithinPf()
      modifies pf
      ensures BoardView() == Relocate(old(BoardView()), MoveView().from, MoveView().to)
    {
      assert BoardView()[MoveView().from] == pf[yFrom, xFrom];
      Place(Square(xTo, yTo), pf[yFrom, xFrom]);
      if yFrom == SIZE / 2 && xFrom == SIZE / 2 {
        Place(Square(xFrom, yFrom), Throne);
      } else {
        Place(Square(xFrom, yFrom), Empty);
      }
    }

    static predicate IsSurroundedBlack(adjacent: Field, ally: Field) {
      adjacent == Black && (ally == White || ally == Throne || ally == Escape)
    }

    static predicate IsSurroundedWhite(adjacent: Field, ally: Field) {
      adjacent == White && (ally == Black || ally == Throne || ally == Escape)
    }

    /** One of the four checks: nothing happens when the square two steps away is off the
        board, and otherwise the neighbour is captured if it is surrounded. */
    method CaptureTowards(d: Dir, surrounded: (Field, Field) -> bool, ghost victim: Field)
      requires Shaped() && IsWithinPf()
      requires forall a, f :: surrounded(a, f) <==> a == victim && Hostile(f, victim)
      modifies pf
      ensures BoardView() == CaptureStep(old(BoardView()), MoveView().to, d, victim)
    {
      var near, far := At(Square(xTo, yTo), d, 1), At(Square(xTo, yTo), d, 2);
      ghost var b := BoardView();
      CaptureStepHere(b, Square(xTo, yTo), d, victim);
      hide CaptureStep, Hostile, At;
      if OnBoard(far) {
        assert b[near] == pf[near.y, near.x] && b[far] == pf[far.y, far.x];
        if surrounded(pf[near.y, near.x], pf[far.y, far.x]) {
          Place(near, Empty);
        }
      }
    }

    method CheckCaptureWarrior(surrounded: (Field, Field) -> bool, ghost victim: Field)
      requires Shaped() && IsWithinPf()
      requires victim == Black || victim == White
      requires forall a, f :: surrounded(a, f) <==> a == victim && Hostile(f, victim)
      modifies pf
      ensures BoardView() == ClearSquares(old(BoardView()), Caught(old(BoardView()), MoveView().to, victim))
    {
      FourCaptureSteps(BoardView(), MoveView().to, victim);
      CaptureTowards(Right, surrounded, victim);
      CaptureTowards(Left, surrounded, victim);
      CaptureTowards(Down, surrounded, victim);
      CaptureTowards(Up, surrounded, victim);
    }

    predicate IsSurroundedKing(y: int, x: int)
      requires Shaped() && OnBoard(Square(x, y))
      reads pf
      ensures IsSurroundedKing(y, x) <==> Hemmed(BoardView(), Square(x, y))
    {
      !IsGap(y, x + 1) && !IsGap(y, x - 1) && !IsGap(y + 1, x) && !IsGap(y - 1, x)
    }

    /** On the board, and empty or white. */
    predicate IsGap(y: int, x: int)
      requires Shaped()
      reads pf
      ensures IsGap(y, x) <==> Gap(BoardView(), Square(x, y))
    {
      0 <= x < SIZE && 0 <= y < SIZE && (pf[y, x] == Empty || pf[y, x] == White)
    }

    predicate HoldsKing(y: int, x: int)
      requires Shaped()
      reads pf
      ensures HoldsKing(y, x) <==> KingAt(BoardView(), Square(x, y))
    {
      0 <= x < SIZE && 0 <= y < SIZE && pf[y, x] == King
    }

    method IsCapturedKing() returns (captured: bool)
      requires Shaped() && IsWithinPf()
      ensures captured <==> LastKingHemmed(BoardView(), MoveView().to)
    {
      ghost var to := MoveView().to;
      assert At(to, Right, 1) == Square(xTo + 1, yTo) && At(to, Left, 1) == Square(xTo - 1, yTo);
      assert At(to, Down, 1) == Square(xTo, yTo + 1) && At(to, Up, 1) == Square(xTo, yTo - 1);
      captured := false;
      if HoldsKing(yTo, xTo + 1) { captured := IsSurroundedKing(yTo, xTo + 1); }
      if HoldsKing(yTo, xTo - 1) { captured := IsSurroundedKing(yTo, xTo - 1); }
      if HoldsKing(yTo + 1, xTo) { captured := IsSurroundedKing(yTo + 1, xTo); }
      if HoldsKing(yTo - 1, xTo) { captured := IsSurroundedKing(yTo - 1, xTo); }
    }

    method CheckCaptures()
      requires Shaped() && IsWithinPf()
      modifies pf, `gameState
      ensures BoardView() == AfterCaptures(old(BoardView()), MoveView().to)
      ensures gameState == if EndsGame(old(BoardView()), MoveView().to) then Gameover else old(gameState)
    {
      assert pf[yTo, xTo] == BoardView()[MoveView().to];
      if pf[yTo, xTo] == King {
        if (xTo == 0 || xTo == SIZE - 1) && (yTo == 0 || yTo == SIZE - 1) {
          gameState := Gameover;
        }
      } else if pf[yTo, xTo] == White {
        CheckCaptureWarrior(IsSurroundedBlack, Black);
      } else if pf[yTo, xTo] == Black {
        CheckCaptureWarrior(IsSurroundedWhite, White);
        var captured := IsCapturedKing();
        if captured {
          gameState := Gameover;
        }
      }
    }

    method SwapPlayers()
      modifies `onTurn, `onStand
      ensures onTurn == old(onStand) && onStand == old(onTurn)
    {
      onStand, onTurn := onTurn, onStand;
    }

    /** The stone is moved, it captures, and the turn passes. */
    method MakeMove()
      requires Shaped() && IsWithinPf()
      modifies pf, `gameState, `onTurn, `onStand
      ensures var g := old(GameView()); var to := MoveView().to;
        var moved := Relocate(g.board, MoveView().from, to);
        GameView() == Game(AfterCaptures(moved, to), g.over || EndsGame(moved, to), g.black, g.white, g.onStand, g.onTurn)
    {
      hide EndsGame, AfterCaptures, Relocate;
      Move();
      CheckCaptures();
      SwapPlayers();
    }

    /** A rejected move changes nothing but the coordinates last asked for. */
    method ProcessMove(coorStr: string) returns (moved: bool)
      requires Shaped() && IsMoveText(coorStr)
      modifies this, pf
      ensures roomId == old(roomId)
      ensures moved <==> Legal(old(GameView()), MoveOf(coorStr))
      ensures GameView() == Play(old(GameView()), MoveOf(coorStr))
    {
      hide EndsGame, AfterCaptures, Relocate, Legal, Play;
      moved := false;
      ParseMove(coorStr);
      PlayUnfold(GameView(), MoveView());
      var valid := IsValidMove();
      if valid {
        MakeMove();
        moved := true;
      }
    }

    method GetPlayfieldString() returns (text: string)
      requires Shaped()
      ensures text == PlayfieldText(BoardView())
    {
      text := "";
      ghost var whole := PlayfieldText(BoardView());
      for y := 0 to SIZE
        invariant text == whole[..SIZE * y]
      {
        for x := 0 to SIZE
          invariant text == whole[..SIZE * y + x]
        {
          assert SquareOf(SIZE * y + x) == Square(x, y);
          text := text + [Code(pf[y, x])];
        }
      }
    }
  }
}
