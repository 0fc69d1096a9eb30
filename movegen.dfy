/** The move generator and the attack oracle as the engine runs them: loops that collect
    target cells, each proved equal to its specification function in Generation. */
module MoveGen {
  import opened Squares
  import opened Generation

  /** `_slide`: walk from sq in direction d until the sentinel, an own piece (excluded) or an
      enemy piece (included). */
  method Slide(b: seq<int>, sq: int, d: int) returns (moves: set<int>)
    requires Origin(b, sq) && Direction(d)
    ensures moves == Ray(b, sq, d, sq + d)
  {
    moves := {};
    var position := sq + d;
    while b[position] != OffBoard
      invariant 0 <= position < Size
      invariant moves + Ray(b, sq, d, position) == Ray(b, sq, d, sq + d)
      decreases if d > 0 then Size - position else position
    {
      if b[position] == Empty {
        moves := moves + {position};
      } else if IsBlack(b[sq]) != IsBlack(b[position]) {
        moves := moves + {position};
        break;
      } else {
        break;
      }
      position := position + d;
    }
  }

  /** `_move_pawn`. */
  method MovePawn(b: seq<int>, sq: int, ep: int) returns (moves: set<int>)
    requires Origin(b, sq)
    ensures moves == PawnTargets(b, sq, ep)
  {
    moves := {};
    if IsBlack(b[sq]) {
      if b[sq + 10] == Empty {
        moves := moves + {sq + 10};
      }
      if b[sq + 9] != Empty && b[sq + 9] != OffBoard && IsBlack(b[sq]) != IsBlack(b[sq + 9]) {
        moves := moves + {sq + 9};
      }
      if b[sq + 11] != Empty && b[sq + 11] != OffBoard && IsBlack(b[sq]) != IsBlack(b[sq + 11]) {
        moves := moves + {sq + 11};
      }
      if b[sq + 20] == Empty && sq / 10 == 3 {
        moves := moves + {sq + 20};
      }
      if ep != 0 && sq / 10 == 6 && Abs(ep - sq) == 1 {
        moves := moves + {ep + 10};
      }
      assert moves == PawnTargets(b, sq, ep);
    } else {
      if b[sq - 10] == Empty {
        moves := moves + {sq - 10};
      }
      if b[sq - 9] != Empty && b[sq - 9] != OffBoard && IsBlack(b[sq]) != IsBlack(b[sq - 9]) {
        moves := moves + {sq - 9};
      }
      if b[sq - 11] != Empty && b[sq - 11] != OffBoard && IsBlack(b[sq]) != IsBlack(b[sq - 11]) {
        moves := moves + {sq - 11};
      }
      if b[sq - 20] == Empty && sq / 10 == 8 {
        moves := moves + {sq - 20};
      }
      if ep != 0 && sq / 10 == 5 && Abs(ep - sq) == 1 {
        moves := moves + {ep - 10};
      }
      assert moves == PawnTargets(b, sq, ep);
    }
  }

  /** `_move_knight`: for each offset, try sq + offset and sq - offset. */
  method MoveKnight(b: seq<int>, sq: int) returns (moves: set<int>)
    requires Origin(b, sq)
    ensures moves == Leaps(b, sq, KnightOffsets, |KnightOffsets|)
  {
    moves := {};
    for k := 0 to |KnightOffsets|
      invariant moves == Leaps(b, sq, KnightOffsets, k)
    {
      var i := KnightOffsets[k];
      ghost var before := moves;
      if Cell(b, sq + i) == Empty {
        moves := moves + {sq + i};
      } else if Cell(b, sq + i) != OffBoard && IsBlack(b[sq]) != IsBlack(Cell(b, sq + i)) {
        moves := moves + {sq + i};
      }
      assert moves == before + Step(b, sq, sq + i);
      ghost var middle := moves;
      if Cell(b, sq - i) == Empty {
        moves := moves + {sq - i};
      } else if Cell(b, sq - i) != OffBoard && IsBlack(b[sq]) != IsBlack(Cell(b, sq - i)) {
        moves := moves + {sq - i};
      }
      assert moves == middle + Step(b, sq, sq - i);
    }
  }

  /** `_move_king`: the eight neighbours, then the two castling tests, each of which asks the
      attack oracle about the two cells next to the king. */
  method MoveKing(b: seq<int>, sq: int, ep: int, castle: bool) returns (moves: set<int>)
    requires Origin(b, sq)
    ensures moves == KingTargets(b, sq, ep, castle)
    decreases if castle then 1 else 0, 2
  {
    moves := {};
    for k := 0 to |KingOffsets|
      invariant moves == Leaps(b, sq, KingOffsets, k)
    {
      var i := KingOffsets[k];
      ghost var before := moves;
      if b[sq + i] == Empty || (b[sq + i] != OffBoard && IsBlack(b[sq]) != IsBlack(b[sq + i])) {
        moves := moves + {sq + i};
      }
      assert moves == before + Step(b, sq, sq + i);
      ghost var middle := moves;
      if b[sq - i] == Empty || (b[sq - i] != OffBoard && IsBlack(b[sq]) != IsBlack(b[sq - i])) {
        moves := moves + {sq - i};
      }
      assert moves == middle + Step(b, sq, sq - i);
    }
    if castle && HasCastleRight(b[sq]) {
      var kingside := KingsideMove(b, sq, ep);
      var queenside := QueensideMove(b, sq, ep);
      moves := moves + kingside + queenside;
    }
  }

  /** The king's-side castling test of `_move_king`: the attack oracle is asked about the two
      cells next to the king only when the rook and the empty cells are in place. */
  method KingsideMove(b: seq<int>, sq: int, ep: int) returns (moves: set<int>)
    requires Origin(b, sq)
    ensures moves == if KingsideCastle(b, sq, ep) then {sq + 2} else {}
    decreases 1, 1
  {
    moves := {};
    var opponent := IsBlack(b[sq]);
    if Kind(b[sq + 3]) == Rook && b[sq + 1] == Empty && b[sq + 2] == Empty {
      var first := UnderAttack(b, sq + 1, opponent, ep);
      if !first {
        var second := UnderAttack(b, sq + 2, opponent, ep);
        if !second {
          moves := {sq + 2};
        }
      }
    }
  }

  /** The queen's-side castling test of `_move_king`, with three empty cells to the rook. */
  method QueensideMove(b: seq<int>, sq: int, ep: int) returns (moves: set<int>)
    requires Origin(b, sq)
    ensures moves == if QueensideCastle(b, sq, ep) then {sq - 2} else {}
    decreases 1, 1
  {
    moves := {};
    var opponent := IsBlack(b[sq]);
    if Kind(b[sq - 4]) == Rook && b[sq - 1] == Empty && b[sq - 2] == Empty && b[sq - 3] == Empty {
      var first := UnderAttack(b, sq - 1, opponent, ep);
      if !first {
        var second := UnderAttack(b, sq - 2, opponent, ep);
        if !second {
          moves := {sq - 2};
        }
      }
    }
  }

  /** `_move_piece`: dispatch on the kind; the bishop, rook and queen cases are the unions
      of `_slide` rays that `_move_bishop`, `_move_rook` and `_move_queen` form. */
  method MovePiece(b: seq<int>, sq: int, ep: int, castle: bool) returns (moves: set<int>)
    requires Origin(b, sq)
    ensures moves == PieceTargets(b, sq, ep, castle)
    decreases if castle then 1 else 0, 3
  {
    var piece := Kind(b[sq]);
    if piece == Pawn {
      moves := MovePawn(b, sq, ep);
    } else if piece == Knight {
      moves := MoveKnight(b, sq);
    } else if piece == Bishop || piece == Queen {
      var ne := Slide(b, sq, 11);
      var sw := Slide(b, sq, -11);
      var nw := Slide(b, sq, 9);
      var se := Slide(b, sq, -9);
      moves := ne + sw + nw + se;
      if piece == Queen {
        var down := Slide(b, sq, 10);
        var up := Slide(b, sq, -10);
        var right := Slide(b, sq, 1);
        var left := Slide(b, sq, -1);
        moves := moves + (down + up + right + left);
      }
    } else if piece == Rook {
      var down := Slide(b, sq, 10);
      var up := Slide(b, sq, -10);
      var right := Slide(b, sq, 1);
      var left := Slide(b, sq, -1);
      moves := down + up + right + left;
    } else {
      moves := MoveKing(b, sq, ep, castle);
    }
  }

  /** `_under_attack`: scan cells 21..99 for a piece of the attacking side whose targets
      (without castling) include `target`; stop at the first. */
  method UnderAttack(b: seq<int>, target: int, byWhite: bool, ep: int) returns (attacked: bool)
    requires Framed(b)
    ensures attacked == Attacked(b, target, byWhite, ep)
    decreases 1, 0
  {
    for square := 21 to 100
      invariant forall j | 21 <= j < square :: !(IsAttacker(b, j, byWhite) && target in PieceTargets(b, j, ep, false))
    {
      if IsAttacker(b, square, byWhite) {
        var moves := MovePiece(b, square, ep, false);
        if target in moves {
          return true;
        }
      }
    }
    return false;
  }
}
