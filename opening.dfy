/** The starting position (the content of `board.bin` that the test table describes) and the
    legal moves the engine gives each of its pieces. */
module Opening {
  import opened Squares
  import opened Generation
  import opened Game
  import opened Terminal

  /** The back rank from file a to file h: rook, knight, bishop, queen, king with its castling
      bit, bishop, knight, rook. */
  function BackRank(file: int): int
    requires 1 <= file <= 8
  {
    [Rook, Knight, Bishop, Queen, WhiteKingCastling, Bishop, Knight, Rook][file - 1]
  }

  /** Black's pieces on rows 2 and 3, White's on rows 8 and 9, the colour bit 32 on Black's. */
  function StartCell(i: int): int
  {
    if !OnBoard(i) then OffBoard
    else if i / 10 == 2 then BackRank(i % 10) + 32
    else if i / 10 == 3 then Pawn + 32
    else if i / 10 == 8 then Pawn
    else if i / 10 == 9 then BackRank(i % 10)
    else Empty
  }

  const Start: seq<int> := seq(Size, i => StartCell(i))

  /** `new_game`: White to move, no en-passant or promotion cell, kings on e1 (95) and e8 (25). */
  const NewGame: ChessBoard := ChessBoard(Start, true, 0, 0, 95, 25, false)

  /** The start is a valid state whose cached king cells hold the two kings with their
      castling bits. */
  lemma OpeningValid()
    ensures Valid(NewGame)
    ensures Start[95] == WhiteKingCastling && Start[25] == BlackKingCastling
  {
  }

  /** The rows of the start position: the frame, Black's pieces on row 2 and pawns on row 3,
      empty rows 4 to 7, White's pawns on row 8 and pieces on row 9. */
  lemma StartRows()
    ensures Framed(Start)
    ensures forall i | 0 <= i < Size && !OnBoard(i) :: Start[i] == OffBoard
    ensures forall i | 21 <= i <= 28 :: IsPiece(Start[i]) && IsBlack(Start[i])
    ensures forall i | 31 <= i <= 38 :: Start[i] == Pawn + 32
    ensures forall i | 40 <= i < 80 && OnBoard(i) :: Start[i] == Empty
    ensures forall i | 81 <= i <= 88 :: Start[i] == Pawn
    ensures forall i | 91 <= i <= 98 :: IsPiece(Start[i]) && !IsBlack(Start[i])
  {
    OpeningValid();
  }

  /** The kinds on the back ranks: rooks, knights, bishops, the queen, the king. */
  lemma StartKinds()
    ensures forall i | 21 <= i <= 28 || 91 <= i <= 98 :: Kind(Start[i]) == Kind(BackRank(i % 10))
    ensures forall i | 0 <= i < Size && 0 < Start[i] < OffBoard && Kind(Start[i]) == King :: i == 25 || i == 95
    ensures forall i | 0 <= i < Size && 0 < Start[i] < OffBoard && Kind(Start[i]) == Knight :: i in {22, 27, 92, 97}
    ensures forall i | 0 <= i < Size && 0 < Start[i] < OffBoard && Kind(Start[i]) == Pawn :: 31 <= i <= 38 || 81 <= i <= 88
  {
  }

  /** A ray in a positive direction that starts at or before a wall of eleven occupied cells
      q..q+10 never passes the wall: each step is at most 11 cells, so it lands on the wall and
      stops there. */
  lemma {:induction false} RayStopsAtWall(b: seq<int>, sq: int, d: int, pos: int, q: int, t: int)
    requires Origin(b, sq) && Direction(d) && d > 0 && 0 <= pos < Size
    requires 0 <= q && q + 10 < Size && pos <= q + 10
    requires forall i | q <= i <= q + 10 :: b[i] != Empty
    requires t in Ray(b, sq, d, pos)
    ensures t <= q + 10
    decreases Size - pos
  {
    if b[pos] == Empty && t != pos {
      RayStopsAtWall(b, sq, d, pos + d, q, t);
    }
  }

  /** Without en passant and castling, a Black piece on sq reaches no cell past sq + 21, and a
      Black bishop, rook or queen above the wall reaches no cell past the wall. */
  lemma {:induction false} BlackTargetsBounded(b: seq<int>, sq: int, q: int, t: int)
    requires Origin(b, sq) && IsBlack(b[sq])
    requires 0 <= q && q + 10 < Size && forall i | q <= i <= q + 10 :: b[i] != Empty
    requires Kind(b[sq]) in {Bishop, Rook, Queen} ==> sq < q
    requires t in PieceTargets(b, sq, 0, false)
    ensures t <= sq + 21 || t <= q + 10
  {
    var kind := Kind(b[sq]);
    if kind == Knight {
      LeapsExactly(b, sq, KnightOffsets, |KnightOffsets|, t);
    } else if kind == King {
      LeapsExactly(b, sq, KingOffsets, |KingOffsets|, t);
    } else if kind in {Bishop, Rook, Queen} {
      var d: int;
      if t in Ray(b, sq, 11, sq + 11) { d := 11; }
      else if t in Ray(b, sq, -11, sq - 11) { d := -11; }
      else if t in Ray(b, sq, 9, sq + 9) { d := 9; }
      else if t in Ray(b, sq, -9, sq - 9) { d := -9; }
      else if t in Ray(b, sq, 10, sq + 10) { d := 10; }
      else if t in Ray(b, sq, -10, sq - 10) { d := -10; }
      else if t in Ray(b, sq, 1, sq + 1) { d := 1; }
      else { d := -1; }
      assert t in Ray(b, sq, d, sq + d);
      if d > 0 {
        RayStopsAtWall(b, sq, d, sq + d, q, t);
      } else {
        RayContiguous(b, sq, d, sq + d, t);
      }
    }
  }

  /** No Black piece attacks a cell beyond both sq + 21 for every Black piece and the wall, as
      long as every Black slider stands above the wall. */
  lemma NotAttackedByBlack(b: seq<int>, target: int, p: int, q: int)
    requires Framed(b)
    requires 0 <= q && q + 10 < Size && forall i | q <= i <= q + 10 :: b[i] != Empty
    requires forall i | 21 <= i < 100 && IsAttacker(b, i, false) :: i <= p && (Kind(b[i]) in {Bishop, Rook, Queen} ==> i < q)
    requires target > p + 21 && target > q + 10
    ensures !Attacked(b, target, false, 0)
  {
    forall i | 21 <= i < 100 && IsAttacker(b, i, false) && target in PieceTargets(b, i, 0, false)
      ensures false
    {
      BlackTargetsBounded(b, i, q, target);
    }
  }

  /** Black's pieces stand on cells 21..38, its bishops, rooks and queen on 21..28, White's
      pieces on 81..98, and the cells 29..39 and 79..89 are all occupied. */
  lemma StartLayout()
    ensures forall i | 0 <= i < Size && 0 < Start[i] < OffBoard && IsBlack(Start[i]) ::
              21 <= i <= 38 && (Kind(Start[i]) in {Bishop, Rook, Queen} ==> i <= 28)
    ensures forall i | 0 <= i < Size && 0 < Start[i] < OffBoard && !IsBlack(Start[i]) :: 81 <= i <= 98
    ensures forall i | 29 <= i <= 39 || 79 <= i <= 89 :: Start[i] != Empty
  {
  }

  /** The cells a simulated move may change, and what each may then hold. */
  lemma AppliedChanges(b: seq<int>, s: int, t: int, castle: bool)
    requires |b| == Size && OnBoard(s) && OnBoard(t)
    ensures forall i | 0 <= i < Size :: var n := Applied(b, s, t, castle);
              n[i] == b[i]
              || ((i == s || i == t || i == t - 1 || i == t + 1 || i == s + 3 || i == s - 4)
                  && (n[i] == Empty || n[i] == b[s] || n[i] == b[s + 3] || n[i] == b[s - 4]))
  {
  }

  /** A simulated move of a Black piece in the start position leaves every Black piece on
      cells up to 59 and White's row of pawns in place: no Black piece attacks e1. */
  lemma BlackSimulationSafe(s: int, t: int, castle: bool)
    requires OnBoard(s) && OnBoard(t) && IsPiece(Start[s]) && IsBlack(Start[s]) && t <= 58
    ensures !Attacked(Applied(Start, s, t, castle), 95, false, 0)
  {
    var n := Applied(Start, s, t, castle);
    assert Framed(n) by { StartRows(); }
    StartLayout();
    BlackMoveKeepsLowerBoard(s, t, castle);
    assert forall i | 79 <= i <= 89 :: n[i] != Empty;
    assert forall i | 21 <= i < 100 && IsAttacker(n, i, false) :: i <= 59;
    NotAttackedByBlack(n, 95, 59, 79);
  }

  /** A simulated move of a Black piece in the start position changes no cell below row 5. */
  lemma BlackMoveKeepsLowerBoard(s: int, t: int, castle: bool)
    requires OnBoard(s) && OnBoard(t) && IsPiece(Start[s]) && IsBlack(Start[s]) && t <= 58
    ensures forall i | 60 <= i < Size :: Applied(Start, s, t, castle)[i] == Start[i]
  {
    StartLayout();
    AppliedChanges(Start, s, t, castle);
    assert s <= 38;
  }

  /** A simulated move of a White piece in the start position changes no cell above row 6
      and puts no Black piece anywhere. */
  lemma WhiteMoveKeepsBlack(s: int, t: int, castle: bool)
    requires OnBoard(s) && OnBoard(t) && IsPiece(Start[s]) && !IsBlack(Start[s]) && 61 <= t
    ensures forall i | 0 <= i < 60 :: Applied(Start, s, t, castle)[i] == Start[i]
    ensures forall i | 0 <= i < Size && 0 < Applied(Start, s, t, castle)[i] < OffBoard && IsBlack(Applied(Start, s, t, castle)[i]) ::
              Applied(Start, s, t, castle)[i] == Start[i]
  {
    StartLayout();
    AppliedChanges(Start, s, t, castle);
    assert 81 <= s <= 98;
  }

  /** After a simulated move of a White piece in the start position, Black's pieces and its row
      of pawns are where they started, and no Black piece attacks e1. */
  lemma WhiteSimulationSafe(s: int, t: int, castle: bool)
    requires OnBoard(s) && OnBoard(t) && IsPiece(Start[s]) && !IsBlack(Start[s]) && 61 <= t
    ensures !Attacked(Applied(Start, s, t, castle), 95, false, 0)
  {
    var n := Applied(Start, s, t, castle);
    assert Framed(n) by { StartRows(); }
    StartLayout();
    WhiteMoveKeepsBlack(s, t, castle);
    forall i | 21 <= i < 100 && IsAttacker(n, i, false)
      ensures i <= 38 && (Kind(n[i]) in {Bishop, Rook, Queen} ==> i < 29)
    {
      assert n[i] == Start[i];
    }
    NotAttackedByBlack(n, 95, 38, 29);
  }

  /** The targets the test table expects in the start position: two for each knight, the
      single and double step for each pawn, none for the other pieces. */
  function ExpectedTargets(s: int): (r: set<int>)
    ensures forall t | t in r :: OnBoard(t) && (s <= 38 ==> t <= 58) && (s > 38 ==> 61 <= t)
  {
    if s == 22 then {41, 43}
    else if s == 27 then {46, 48}
    else if s == 92 then {71, 73}
    else if s == 97 then {76, 78}
    else if 31 <= s <= 38 then {s + 10, s + 20}
    else if 81 <= s <= 88 then {s - 10, s - 20}
    else {}
  }

  /** Black's pawns may step one or two cells down the board. */
  lemma OpeningBlackPawnTargets(s: int)
    requires 31 <= s <= 38
    ensures Origin(Start, s) && Kind(Start[s]) == Pawn
    ensures PieceTargets(Start, s, 0, true) == {s + 10, s + 20}
  {
    PawnSurroundings(s, 10);
    assert !Capturable(Start, s, s + 9) && !Capturable(Start, s, s + 11);
    assert PawnTargets(Start, s, 0) == {s + 10, s + 20};
  }

  /** White's pawns may step one or two cells up the board. */
  lemma OpeningWhitePawnTargets(s: int)
    requires 81 <= s <= 88
    ensures Origin(Start, s) && Kind(Start[s]) == Pawn
    ensures PieceTargets(Start, s, 0, true) == {s - 10, s - 20}
  {
    PawnSurroundings(s, -10);
    assert !Capturable(Start, s, s - 9) && !Capturable(Start, s, s - 11);
    assert PawnTargets(Start, s, 0) == {s - 10, s - 20};
  }

  /** The cells in front of a pawn of the start position, d being its forward step: the two
      cells straight ahead are empty, the two diagonal ones empty or off the board. */
  lemma PawnSurroundings(s: int, d: int)
    requires (d == 10 && 31 <= s <= 38) || (d == -10 && 81 <= s <= 88)
    ensures Origin(Start, s) && Kind(Start[s]) == Pawn && IsBlack(Start[s]) == (d == 10)
    ensures Start[s + d] == Empty && Start[s + 2 * d] == Empty
    ensures Start[s + d - 1] in {Empty, OffBoard} && Start[s + d + 1] in {Empty, OffBoard}
  {
    StartRows();
  }

  /** The knights of the start position may leap to the two cells in front of the pawns. */
  lemma OpeningKnightTargets(s: int)
    requires s in {22, 27, 92, 97}
    ensures Origin(Start, s) && Kind(Start[s]) == Knight
    ensures PieceTargets(Start, s, 0, true) == ExpectedTargets(s)
  {
    forall t | 0 <= t
      ensures t in Leaps(Start, s, KnightOffsets, |KnightOffsets|) <==> t in ExpectedTargets(s)
    {
      KnightTarget(s, t);
    }
    StartRows();
  }

  /** One cell t: a leap of a start-position knight reaches it exactly when the table lists it. */
  lemma KnightTarget(s: int, t: int)
    requires s in {22, 27, 92, 97} && 0 <= t
    ensures Origin(Start, s)
    ensures t in Leaps(Start, s, KnightOffsets, |KnightOffsets|) <==> t in ExpectedTargets(s)
  {
    KnightLanding(s, 8);
    LeapsExactly(Start, s, KnightOffsets, |KnightOffsets|, t);
    var o := t - s;
    if o in {8, -8, 12, -12, 19, -19, 21, -21} {
      KnightLanding(s, o);
      var k := if o == 8 || o == -8 then 0 else if o == 12 || o == -12 then 1 else if o == 19 || o == -19 then 2 else 3;
      assert t == s + KnightOffsets[k] || t == s - KnightOffsets[k];
    } else {
      assert t !in ExpectedTargets(s);
    }
  }

  /** A knight of the start position may enter the cell o away exactly when the table lists it. */
  lemma KnightLanding(s: int, o: int)
    requires s in {22, 27, 92, 97} && o in {8, -8, 12, -12, 19, -19, 21, -21}
    ensures Origin(Start, s) && 0 <= s + o
    ensures Enterable(Start, s, s + o) <==> s + o in ExpectedTargets(s)
  {
    StartRows();
  }

  /** The back-rank pieces other than the knights. */
  predicate Boxed(s: int)
  {
    s in {21, 23, 24, 25, 26, 28, 91, 93, 94, 95, 96, 98}
  }

  /** Every neighbour of a back-rank piece is a piece of its own colour or the frame. */
  lemma BoxedNeighbour(s: int, d: int)
    requires Boxed(s) && Direction(d)
    ensures Origin(Start, s)
    ensures Start[s + d] == OffBoard || (IsPiece(Start[s + d]) && IsBlack(Start[s + d]) == IsBlack(Start[s]))
  {
    StartRows();
  }

  /** A ray from a back-rank piece of the start position meets its own pieces or the frame at
      once. */
  lemma OpeningRayBlocked(s: int, d: int)
    requires Boxed(s) && Direction(d)
    ensures Origin(Start, s)
    ensures Ray(Start, s, d, s + d) == {}
  {
    BoxedNeighbour(s, d);
  }

  /** The diagonal rays of a back-rank piece are all blocked. */
  lemma OpeningDiagonalsBlocked(s: int)
    requires Boxed(s)
    ensures Origin(Start, s)
    ensures MoveBishop(Start, s) == {}
  {
    OpeningRayBlocked(s, 11);
    OpeningRayBlocked(s, -11);
    OpeningRayBlocked(s, 9);
    OpeningRayBlocked(s, -9);
  }

  /** The orthogonal rays of a back-rank piece are all blocked. */
  lemma OpeningLinesBlocked(s: int)
    requires Boxed(s)
    ensures Origin(Start, s)
    ensures MoveRook(Start, s) == {}
  {
    OpeningRayBlocked(s, 10);
    OpeningRayBlocked(s, -10);
    OpeningRayBlocked(s, 1);
    OpeningRayBlocked(s, -1);
  }

  /** The bishops, rooks and queens of the start position have no targets. */
  lemma OpeningSliderTargets(s: int)
    requires Boxed(s) && 0 <= Start[s] && Kind(Start[s]) in {Bishop, Rook, Queen}
    ensures Origin(Start, s)
    ensures PieceTargets(Start, s, 0, true) == {}
  {
    OpeningDiagonalsBlocked(s);
    OpeningLinesBlocked(s);
  }

  /** The kings of the start position have no targets: every neighbour is an own piece or
      the frame, and both castling tests find a piece next to the king. */
  lemma OpeningKingTargets(s: int)
    requires s == 25 || s == 95
    ensures Origin(Start, s) && Kind(Start[s]) == King
    ensures PieceTargets(Start, s, 0, true) == {}
  {
    OpeningValid();
    forall t | 0 <= t
      ensures t !in Leaps(Start, s, KingOffsets, |KingOffsets|)
    {
      KingStep(s, t);
    }
    BoxedNeighbour(s, 1);
    BoxedNeighbour(s, -1);
  }

  /** One cell t: no step of a start-position king reaches it. */
  lemma KingStep(s: int, t: int)
    requires (s == 25 || s == 95) && 0 <= t
    ensures Origin(Start, s)
    ensures t !in Leaps(Start, s, KingOffsets, |KingOffsets|)
  {
    BoxedNeighbour(s, 1);
    LeapsExactly(Start, s, KingOffsets, |KingOffsets|, t);
    if Direction(t - s) {
      BoxedNeighbour(s, t - s);
    }
  }

  /** Every piece of the start position has exactly the targets the test table lists. */
  lemma OpeningTargets(s: int)
    requires 21 <= s < 100 && 0 < Start[s] < OffBoard
    ensures Origin(Start, s)
    ensures PieceTargets(Start, s, 0, true) == ExpectedTargets(s)
  {
    StartRows();
    if 31 <= s <= 38 {
      OpeningBlackPawnTargets(s);
    } else if 81 <= s <= 88 {
      OpeningWhitePawnTargets(s);
    } else {
      assert 21 <= s <= 28 || 91 <= s <= 98;
      OpeningBackRankTargets(s);
    }
  }

  /** The pieces of the two back ranks: the knights leap, the others are boxed in. */
  lemma OpeningBackRankTargets(s: int)
    requires 21 <= s <= 28 || 91 <= s <= 98
    ensures Origin(Start, s)
    ensures PieceTargets(Start, s, 0, true) == ExpectedTargets(s)
  {
    StartRows();
    if s in {22, 27, 92, 97} {
      OpeningKnightTargets(s);
    } else if s == 25 || s == 95 {
      OpeningKingTargets(s);
    } else {
      StartKinds();
      assert Kind(Start[s]) != Knight && Kind(Start[s]) != King && Kind(Start[s]) != Pawn;
      OpeningSliderTargets(s);
    }
  }

  /** `legal_moves(new_game(), s, castle=True)` is the set the test table lists for every piece
      of either colour: no simulated move exposes e1, so the filter keeps every target. */
  lemma OpeningLegalMoves(s: int)
    requires 21 <= s < 100 && 0 < Start[s] < OffBoard
    ensures OnBoard(s) && IsPiece(Start[s])
    ensures LegalTargets(NewGame, s, true) == ExpectedTargets(s)
  {
    OpeningValid();
    OpeningTargets(s);
    forall t | t in PieceTargets(Start, s, 0, true)
      ensures KeepsKingSafe(NewGame, s, t, true)
    {
      OpeningTargetSafe(s, t);
    }
    AllTargetsSafe(NewGame, s, true);
  }

  /** The simulated move of a piece of the start position to one of the table's targets
      leaves e1 unattacked. */
  lemma OpeningTargetSafe(s: int, t: int)
    requires 21 <= s < 100 && 0 < Start[s] < OffBoard && t in ExpectedTargets(s)
    ensures OnBoard(s) && IsPiece(Start[s]) && OnBoard(t)
    ensures Valid(NewGame) && KeepsKingSafe(NewGame, s, t, true)
  {
    OpeningValid();
    StartRows();
    StartKinds();
    assert MoverKing(NewGame, s, t) == 95;
    if s <= 38 {
      BlackSimulationSafe(s, t, true);
    } else {
      WhiteSimulationSafe(s, t, true);
    }
  }

  /** In the start position White has a legal move (`__bool__` is true): e2 to e3. */
  lemma OpeningHasLegalMove()
    ensures Valid(NewGame) && HasLegalMove(NewGame)
  {
    OpeningValid();
    OpeningWhitePawnTargets(85);
    assert 75 in PieceTargets(Start, 85, 0, false);
    WhiteSimulationSafe(85, 75, false);
    assert 75 in LegalTargets(NewGame, 85, false);
    assert MoverPiece(NewGame, 85);
  }

  /** The start position has sufficient material. */
  lemma OpeningMaterial()
    ensures Material(NewGame)
  {
    assert Start[91] == Rook;
    HeavyPieceSuffices(NewGame);
  }

  /** The ownership test lets White move a Black piece: from the start position, the request
      e7 e5 succeeds, moves Black's pawn two cells, records the en-passant cell e5 and passes the
      turn to Black. */
  lemma WhiteMovesBlackPawn()
    ensures Valid(NewGame)
    ensures var r := Play(NewGame, "e7", "e5");
            && r.Ok? && !r.value.player && r.value.enPassant == 55
            && r.value.board[55] == Pawn + 32 && r.value.board[35] == Empty
  {
    OpeningValid();
    assert An2i("e7") == Ok(35) && An2i("e5") == Ok(55);
    var q := Request(35, 55, false);
    assert ParseRequest(NewGame, "e7", "e5") == Ok(q);
    OpeningBlackPawnTargets(35);
    assert 55 in PieceTargets(Start, 35, 0, false);
    BlackSimulationSafe(35, 55, false);
    assert 55 in LegalTargets(NewGame, 35, false);
    PlayOutcome(NewGame, "e7", "e5");
    NextFields(NewGame, q);
    NextBoardMoved(NewGame, q);
    StartRows();
  }
}
