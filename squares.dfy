/** The padded 10x12 board of the engine: cell indices, the byte code held in
    each cell, and the conversion between indices and algebraic square names. */
module Squares {

  /** The three exception classes of the engine. */
  datatype Error = SquareError | MoveError | PromotionError

  datatype Result<T> = Ok(value: T) | Err(error: Error)

  /** The board is 12 rows of 10 cells; rows 0, 1, 10, 11 and columns 0, 9 are off the board. */
  const Size: int := 120
  const OffBoard: int := 255
  const Empty: int := 0

  /** Piece kinds, as held in the low three bits of a cell. */
  const Pawn: int := 2
  const Knight: int := 3
  const Bishop: int := 4
  const Rook: int := 5
  const Queen: int := 6
  const King: int := 7

  /** Codes the state transition compares against whole: rooks, and kings with and without
      their castling bit. */
  const WhiteRook: int := 5
  const BlackRook: int := 37
  const WhiteKing: int := 7
  const BlackKing: int := 39
  const WhiteKingCastling: int := 15
  const BlackKingCastling: int := 47

  /** `v & 7`: the piece kind of a cell. */
  function Kind(v: int): int
    requires 0 <= v
  {
    v % 8
  }

  /** `v & 8 != 0`: the castling-right bit, only ever tested on kings. */
  predicate HasCastleRight(v: int)
    requires 0 <= v
  {
    v % 16 >= 8
  }

  /** `v & 32 != 0`: the colour bit, set for Black (and for the off-board sentinel). */
  predicate IsBlack(v: int)
    requires 0 <= v
  {
    v % 64 >= 32
  }

  /** A piece byte: kind 2..7, optional castling bit 8, optional colour bit 32. */
  predicate IsPiece(v: int)
  {
    2 <= v <= 7 || 10 <= v <= 15 || 34 <= v <= 39 || 42 <= v <= 47
  }

  /** A byte that may stand in any cell. */
  predicate IsCode(v: int)
  {
    v == Empty || v == OffBoard || IsPiece(v)
  }

  /** The 64 playing squares: rows 2..9, columns 1..8. */
  predicate OnBoard(i: int)
  {
    20 <= i < 100 && 1 <= i % 10 <= 8
  }

  /** A position as the engine keeps it: sentinels on the frame, empty or a piece inside. */
  predicate WellFormed(b: seq<int>)
  {
    && |b| == Size
    && forall i | 0 <= i < Size :: if OnBoard(i) then b[i] == Empty || IsPiece(b[i]) else b[i] == OffBoard
  }

  /** The weaker shape of the trial boards built while filtering legal moves: every cell
      holds a code and the outer cells 0..16 and 100..119 still hold the sentinel. */
  predicate Framed(b: seq<int>)
  {
    && |b| == Size
    && forall i | 0 <= i < Size :: IsCode(b[i]) && (i < 17 || 100 <= i ==> b[i] == OffBoard)
  }

  lemma WellFormedIsFramed(b: seq<int>)
    requires WellFormed(b)
    ensures Framed(b)
  {
  }

  function Abs(x: int): nat
  {
    if x < 0 then -x else x
  }

  const Files: string := "abcdefgh"

  /** A token of the form [a-h][1-8]. */
  predicate IsSquareName(an: string)
  {
    |an| == 2 && 'a' <= an[0] <= 'h' && '1' <= an[1] <= '8'
  }

  /** `_an2i`: file index + 1 + (10 - rank) * 10, or SquareError. */
  function An2i(an: string): (r: Result<int>)
    ensures r.Ok? <==> IsSquareName(an)
    ensures r.Err? ==> r.error == SquareError
    ensures r.Ok? ==> OnBoard(r.value) && r.value % 10 == (an[0] - 'a') as int + 1
                      && r.value / 10 == 10 - (an[1] - '0') as int
  {
    if IsSquareName(an) then
      Ok((an[0] - 'a') as int + 1 + (10 - (an[1] - '0') as int) * 10)
    else
      Err(SquareError)
  }

  /** `_i2an`: the file letter of column i % 10 and the rank digit 10 - i / 10. */
  function I2an(i: int): (an: string)
    requires OnBoard(i)
    ensures IsSquareName(an)
  {
    [Files[i % 10 - 1], ('0' as int + 10 - i / 10) as char]
  }

  /** Naming an on-board square and reading the name back gives the square. */
  lemma {:induction false} SquareNameRoundTrip(i: int)
    requires OnBoard(i)
    ensures An2i(I2an(i)) == Ok(i)
  {
    var an := I2an(i);
    assert (an[0] - 'a') as int == i % 10 - 1;
    assert (an[1] - '0') as int == 10 - i / 10;
  }

  /** Reading a name and naming the square gives the name back. */
  lemma {:induction false} NameRoundTrip(an: string)
    requires IsSquareName(an)
    ensures I2an(An2i(an).value) == an
  {
    var i := An2i(an).value;
    assert Files[i % 10 - 1] == an[0];
  }
}
