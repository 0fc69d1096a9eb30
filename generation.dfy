/** Pseudo-legal move generation and the attack oracle, as specification functions.
    Each returns the set of target cells of the piece on `sq`. */
module Generation {
  import opened Squares

  /** A sliding direction of a bishop or a rook. */
  predicate Direction(d: int)
  {
    d == 1 || d == -1 || d == 9 || d == -9 || d == 10 || d == -10 || d == 11 || d == -11
  }

  /** A cell a piece may stand on while it generates moves: the attack oracle scans 21..99. */
  predicate Origin(b: seq<int>, sq: int)
  {
    Framed(b) && 21 <= sq < 100 && IsPiece(b[sq])
  }

  /** Cell i of b; a read past the last cell counts as off-board. */
  function Cell(b: seq<int>, i: int): int
    requires 0 <= i
  {
    if i < |b| then b[i] else OffBoard
  }

  /** The occupancy rule: an empty cell, or a piece of the other colour. */
  predicate Enterable(b: seq<int>, sq: int, t: int)
    requires Origin(b, sq) && 0 <= t
  {
    Cell(b, t) == Empty || (Cell(b, t) != OffBoard && IsBlack(b[sq]) != IsBlack(Cell(b, t)))
  }

  function Step(b: seq<int>, sq: int, t: int): set<int>
    requires Origin(b, sq) && 0 <= t
  {
    if Enterable(b, sq, t) then {t} else {}
  }

  /** The leaps of a knight or a king with the first n offsets: both sq + o and sq - o for
      each offset o. */
  function Leaps(b: seq<int>, sq: int, offsets: seq<int>, n: nat): (r: set<int>)
    requires Origin(b, sq) && n <= |offsets|
    requires forall k | 0 <= k < |offsets| :: 0 < offsets[k] <= 21
    ensures forall t | t in r :: 0 <= t < Size && Enterable(b, sq, t)
  {
    if n == 0 then {}
    else Leaps(b, sq, offsets, n - 1) + Step(b, sq, sq + offsets[n - 1]) + Step(b, sq, sq - offsets[n - 1])
  }

  const KnightOffsets: seq<int> := [8, 12, 19, 21]
  const KingOffsets: seq<int> := [1, 9, 10, 11]

  /** `_slide` from cell `pos` on: the empty cells up to the first occupied one, which is
      included when it holds a piece of the other colour. */
  function Ray(b: seq<int>, sq: int, d: int, pos: int): set<int>
    requires Origin(b, sq) && Direction(d) && 0 <= pos < Size
    decreases if d > 0 then Size - pos else pos
  {
    if b[pos] == OffBoard then {}
    else if b[pos] == Empty then {pos} + Ray(b, sq, d, pos + d)
    else if IsBlack(b[sq]) != IsBlack(b[pos]) then {pos}
    else {}
  }

  /** `_move_bishop`: the four diagonal rays. */
  function MoveBishop(b: seq<int>, sq: int): set<int>
    requires Origin(b, sq)
  {
    Ray(b, sq, 11, sq + 11) + Ray(b, sq, -11, sq - 11) + Ray(b, sq, 9, sq + 9) + Ray(b, sq, -9, sq - 9)
  }

  /** `_move_rook`: the four orthogonal rays. */
  function MoveRook(b: seq<int>, sq: int): set<int>
    requires Origin(b, sq)
  {
    Ray(b, sq, 10, sq + 10) + Ray(b, sq, -10, sq - 10) + Ray(b, sq, 1, sq + 1) + Ray(b, sq, -1, sq - 1)
  }

  /** `_move_queen`: the union of the bishop's and the rook's rays. */
  function MoveQueen(b: seq<int>, sq: int): set<int>
    requires Origin(b, sq)
  {
    MoveBishop(b, sq) + MoveRook(b, sq)
  }

  /** A diagonal capture: a piece (not the sentinel) of the other colour. */
  predicate Capturable(b: seq<int>, sq: int, t: int)
    requires Origin(b, sq) && 0 <= t < Size
  {
    b[t] != Empty && b[t] != OffBoard && IsBlack(b[sq]) != IsBlack(b[t])
  }

  /** The cell an en-passant capture lands on, if the pawn on sq may make one. */
  predicate EnPassantFrom(b: seq<int>, sq: int, ep: int)
    requires Origin(b, sq)
  {
    ep != 0 && Abs(ep - sq) == 1 && sq / 10 == (if IsBlack(b[sq]) then 6 else 5)
  }

  /** `_move_pawn`: Black moves down the array (+), White up (-). */
  function PawnTargets(b: seq<int>, sq: int, ep: int): set<int>
    requires Origin(b, sq)
  {
    if IsBlack(b[sq]) then
      (if b[sq + 10] == Empty then {sq + 10} else {})
      + (if Capturable(b, sq, sq + 9) then {sq + 9} else {})
      + (if Capturable(b, sq, sq + 11) then {sq + 11} else {})
      + (if b[sq + 20] == Empty && sq / 10 == 3 then {sq + 20} else {})
      + (if ep != 0 && sq / 10 == 6 && Abs(ep - sq) == 1 then {ep + 10} else {})
    else
      (if b[sq - 10] == Empty then {sq - 10} else {})
      + (if Capturable(b, sq, sq - 9) then {sq - 9} else {})
      + (if Capturable(b, sq, sq - 11) then {sq - 11} else {})
      + (if b[sq - 20] == Empty && sq / 10 == 8 then {sq - 20} else {})
      + (if ep != 0 && sq / 10 == 5 && Abs(ep - sq) == 1 then {ep - 10} else {})
  }

  /** The castling test toward the king's side: a rook kind three cells away, two empty cells
      between, neither of them attacked by the other colour. */
  predicate KingsideCastle(b: seq<int>, sq: int, ep: int)
    requires Origin(b, sq)
    decreases 1, 1
  {
    && Kind(b[sq + 3]) == Rook && b[sq + 1] == Empty && b[sq + 2] == Empty
    && !Attacked(b, sq + 1, IsBlack(b[sq]), ep) && !Attacked(b, sq + 2, IsBlack(b[sq]), ep)
  }

  /** The castling test toward the queen's side: a rook kind four cells away, three empty
      cells between, the two next to the king not attacked by the other colour. */
  predicate QueensideCastle(b: seq<int>, sq: int, ep: int)
    requires Origin(b, sq)
    decreases 1, 1
  {
    && Kind(b[sq - 4]) == Rook && b[sq - 1] == Empty && b[sq - 2] == Empty && b[sq - 3] == Empty
    && !Attacked(b, sq - 1, IsBlack(b[sq]), ep) && !Attacked(b, sq - 2, IsBlack(b[sq]), ep)
  }

  /** `_move_king`: the eight neighbours, plus the castling targets when `castle` is requested
      and the king still has its castling bit. */
  function KingTargets(b: seq<int>, sq: int, ep: int, castle: bool): set<int>
    requires Origin(b, sq)
    decreases if castle then 1 else 0, 2
  {
    Leaps(b, sq, KingOffsets, |KingOffsets|)
    + (if castle && HasCastleRight(b[sq]) && KingsideCastle(b, sq, ep) then {sq + 2} else {})
    + (if castle && HasCastleRight(b[sq]) && QueensideCastle(b, sq, ep) then {sq - 2} else {})
  }

  /** `_move_piece`: dispatch on the kind of the piece on sq. */
  function PieceTargets(b: seq<int>, sq: int, ep: int, castle: bool): set<int>
    requires Origin(b, sq)
    decreases if castle then 1 else 0, 3
  {
    var kind := Kind(b[sq]);
    if kind == Pawn then PawnTargets(b, sq, ep)
    else if kind == Knight then Leaps(b, sq, KnightOffsets, |KnightOffsets|)
    else if kind == Bishop then MoveBishop(b, sq)
    else if kind == Rook then MoveRook(b, sq)
    else if kind == Queen then MoveQueen(b, sq)
    else KingTargets(b, sq, ep, castle)
  }

  /** A piece the attack oracle scans: White's when `byWhite`, Black's otherwise. */
  predicate IsAttacker(b: seq<int>, i: int, byWhite: bool)
    requires 0 <= i < |b|
  {
    0 < b[i] < OffBoard && (if byWhite then !IsBlack(b[i]) else IsBlack(b[i]))
  }

  /** `_under_attack`: some piece of the attacking side on cells 21..99 has `target` among
      its targets, castling left out. */
  predicate Attacked(b: seq<int>, target: int, byWhite: bool, ep: int)
    requires Framed(b)
    decreases 1, 0
  {
    exists i | 21 <= i < 100 :: IsAttacker(b, i, byWhite) && target in PieceTargets(b, i, ep, false)
  }

  /** A leap lands exactly on the cells sq +/- o that the occupancy rule admits. */
  lemma {:induction false} LeapsExactly(b: seq<int>, sq: int, offsets: seq<int>, n: nat, t: int)
    requires Origin(b, sq) && 0 <= t && n <= |offsets|
    requires forall k | 0 <= k < |offsets| :: 0 < offsets[k] <= 21
    ensures t in Leaps(b, sq, offsets, n) <==>
              Enterable(b, sq, t) && exists k | 0 <= k < n :: t == sq + offsets[k] || t == sq - offsets[k]
  {
    if n != 0 {
      LeapsExactly(b, sq, offsets, n - 1, t);
    }
  }

  /** The occupancy rule of a piece that is not a pawn: a target is empty or holds a piece of
      the other colour, never the sentinel. */
  predicate EmptyOrEnemy(b: seq<int>, sq: int, t: int)
    requires Origin(b, sq)
  {
    0 <= t < Size && (b[t] == Empty || (IsPiece(b[t]) && IsBlack(b[sq]) != IsBlack(b[t])))
  }

  /** `_slide` only reaches empty cells and enemy pieces. */
  lemma {:induction false} RayOccupancy(b: seq<int>, sq: int, d: int, pos: int, t: int)
    requires Origin(b, sq) && Direction(d) && 0 <= pos < Size
    requires t in Ray(b, sq, d, pos)
    ensures EmptyOrEnemy(b, sq, t)
    decreases if d > 0 then Size - pos else pos
  {
    if b[pos] == Empty && t != pos {
      RayOccupancy(b, sq, d, pos + d, t);
    }
  }

  /** `_slide` walks a contiguous ray: it starts at `pos`, every target but the first is one
      step past an empty target, and nothing lies beyond an occupied target. */
  lemma {:induction false} RayContiguous(b: seq<int>, sq: int, d: int, pos: int, t: int)
    requires Origin(b, sq) && Direction(d) && 0 <= pos < Size
    requires t in Ray(b, sq, d, pos)
    ensures pos in Ray(b, sq, d, pos) && 0 <= t < Size
    ensures if d > 0 then pos <= t else t <= pos
    ensures t != pos ==> 0 <= t - d < Size && t - d in Ray(b, sq, d, pos) && b[t - d] == Empty
    ensures b[t] != Empty ==> t + d !in Ray(b, sq, d, pos)
    decreases if d > 0 then Size - pos else pos
  {
    if b[pos] == Empty {
      if t != pos {
        RayContiguous(b, sq, d, pos + d, t);
      }
      if t + d in Ray(b, sq, d, pos + d) {
        RayContiguous(b, sq, d, pos + d, t + d);
      }
    }
  }

  /** `_slide` does not stop early: its first cell is a target when it is empty or holds an
      enemy piece, and the cell past an empty target is a target when it is empty or holds an
      enemy piece. */
  lemma {:induction false} RayComplete(b: seq<int>, sq: int, d: int, pos: int, t: int)
    requires Origin(b, sq) && Direction(d) && 0 <= pos < Size && 0 <= t < Size
    ensures b[pos] != OffBoard && (b[pos] == Empty || IsBlack(b[sq]) != IsBlack(b[pos])) ==> pos in Ray(b, sq, d, pos)
    ensures t in Ray(b, sq, d, pos) && b[t] == Empty && 0 <= t + d < Size && b[t + d] != OffBoard
            && (b[t + d] == Empty || IsBlack(b[sq]) != IsBlack(b[t + d]))
            ==> t + d in Ray(b, sq, d, pos)
    decreases if d > 0 then Size - pos else pos
  {
    if t in Ray(b, sq, d, pos) && b[pos] == Empty {
      if t != pos {
        RayComplete(b, sq, d, pos + d, t);
      } else {
        RayComplete(b, sq, d, pos + d, pos + d);
      }
    }
  }

  /** The targets of a piece are empty cells or enemy pieces, except the cell an en-passant
      capture lands on, which `_move_pawn` adds without looking at it. */
  lemma TargetsOccupancy(b: seq<int>, sq: int, ep: int, castle: bool, t: int)
    requires Origin(b, sq)
    requires t in PieceTargets(b, sq, ep, castle)
    ensures EmptyOrEnemy(b, sq, t)
            || (Kind(b[sq]) == Pawn && EnPassantFrom(b, sq, ep) && t == (if IsBlack(b[sq]) then ep + 10 else ep - 10))
  {
    var kind := Kind(b[sq]);
    if kind == Pawn {
      PawnOccupancy(b, sq, ep, t);
      return;
    }
    if kind == Knight {
      assert Enterable(b, sq, t);
      return;
    }
    if kind == King {
      if t in Leaps(b, sq, KingOffsets, |KingOffsets|) {
        assert Enterable(b, sq, t);
      } else {
        if t == sq + 2 && KingsideCastle(b, sq, ep) {
          assert b[t] == Empty;
        } else {
          assert t == sq - 2 && QueensideCastle(b, sq, ep);
          assert b[t] == Empty;
        }
      }
      return;
    }
    if kind == Bishop || kind == Queen {
      if t in MoveBishop(b, sq) {
        if t in Ray(b, sq, 11, sq + 11) { RayOccupancy(b, sq, 11, sq + 11, t); }
        else if t in Ray(b, sq, -11, sq - 11) { RayOccupancy(b, sq, -11, sq - 11, t); }
        else if t in Ray(b, sq, 9, sq + 9) { RayOccupancy(b, sq, 9, sq + 9, t); }
        else { RayOccupancy(b, sq, -9, sq - 9, t); }
        return;
      }
    }
    if kind == Rook || kind == Queen {
      if t in Ray(b, sq, 10, sq + 10) { RayOccupancy(b, sq, 10, sq + 10, t); }
      else if t in Ray(b, sq, -10, sq - 10) { RayOccupancy(b, sq, -10, sq - 10, t); }
      else if t in Ray(b, sq, 1, sq + 1) { RayOccupancy(b, sq, 1, sq + 1, t); }
      else { RayOccupancy(b, sq, -1, sq - 1, t); }
    }
  }

  /** A pawn pushes only onto empty cells and captures diagonally only enemy pieces. */
  lemma PawnOccupancy(b: seq<int>, sq: int, ep: int, t: int)
    requires Origin(b, sq) && Kind(b[sq]) == Pawn
    requires t in PawnTargets(b, sq, ep)
    ensures var fwd := if IsBlack(b[sq]) then 10 else -10;
            || ((t == sq + fwd || t == sq + 2 * fwd) && b[t] == Empty)
            || ((t == sq + fwd - 1 || t == sq + fwd + 1) && Capturable(b, sq, t))
            || (EnPassantFrom(b, sq, ep) && t == ep + fwd)
  {
  }
}
