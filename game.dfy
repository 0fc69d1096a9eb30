/** The immutable game state and its transitions: move simulation (`_apply_move`), the
    legality filter (`legal_moves`), the move request (`move`) and promotion (`promote`). */
module Game {
  import opened Squares
  import opened Generation
  import opened MoveGen

  /** `ChessBoard`: `player` is true when White is to move; `enPassant` is the cell a pawn
      just double-stepped to (0 if none), `promoted` the cell of a pawn awaiting promotion
      (0 if none), `wKing` and `bKing` the cached king cells. */
  datatype ChessBoard = ChessBoard(
    board: seq<int>,
    player: bool,
    enPassant: int,
    promoted: int,
    wKing: int,
    bKing: int,
    check: bool)

  predicate Valid(cb: ChessBoard)
  {
    && WellFormed(cb.board)
    && (cb.enPassant == 0 || OnBoard(cb.enPassant))
    && (cb.promoted == 0 || OnBoard(cb.promoted))
    && OnBoard(cb.wKing) && OnBoard(cb.bKing)
  }

  /** `_apply_move` as a value: the piece on s goes to t and s is emptied; with `castle`,
      the rook of a kingside castle (t == s + 2) goes from s + 3 to t - 1, and otherwise the
      content of s - 4 goes to t + 1. */
  function Applied(b: seq<int>, s: int, t: int, castle: bool): (r: seq<int>)
    requires |b| == Size && OnBoard(s) && OnBoard(t)
    ensures |r| == Size
    ensures Framed(b) ==> Framed(r)
  {
    var moved := b[t := b[s]][s := Empty];
    if !castle then moved
    else if t == s + 2 then moved[t - 1 := moved[s + 3]][s + 3 := Empty]
    else moved[t + 1 := moved[s - 4]][s - 4 := Empty]
  }

  /** `_apply_move`: copy the board into a fresh buffer and move the pieces in it. */
  method ApplyMove(b: seq<int>, s: int, t: int, castle: bool) returns (next: array<int>)
    requires |b| == Size && OnBoard(s) && OnBoard(t)
    ensures fresh(next) && next[..] == Applied(b, s, t, castle)
  {
    next := new int[|b|](i requires 0 <= i < |b| => b[i]);
    var piece := next[s];
    next[t] := piece;
    next[s] := Empty;
    if castle {
      if t == s + 2 {
        var rook := next[s + 3];
        next[t - 1] := rook;
        next[s + 3] := Empty;
      } else {
        var rook := next[s - 4];
        next[t + 1] := rook;
        next[s - 4] := Empty;
      }
    }
  }

  /** Every pseudo-legal target of a piece of a valid state is a playing square. */
  lemma TargetsOnBoard(cb: ChessBoard, s: int, castle: bool)
    requires Valid(cb) && OnBoard(s) && IsPiece(cb.board[s])
    ensures Origin(cb.board, s)
    ensures forall t | t in PieceTargets(cb.board, s, cb.enPassant, castle) :: OnBoard(t)
  {
    WellFormedIsFramed(cb.board);
    forall t | t in PieceTargets(cb.board, s, cb.enPassant, castle)
      ensures OnBoard(t)
    {
      TargetsOccupancy(cb.board, s, cb.enPassant, castle, t);
    }
  }

  /** The king whose safety decides a move from s to t: the moving king itself, otherwise
      the cached king of the side to move. */
  function MoverKing(cb: ChessBoard, s: int, t: int): int
    requires Valid(cb) && OnBoard(s)
  {
    if Kind(cb.board[s]) == King then t else if cb.player then cb.wKing else cb.bKing
  }

  /** After the simulated move, no piece of the side not to move attacks that king. */
  predicate KeepsKingSafe(cb: ChessBoard, s: int, t: int, castle: bool)
    requires Valid(cb) && OnBoard(s) && OnBoard(t)
  {
    WellFormedIsFramed(cb.board);
    !Attacked(Applied(cb.board, s, t, castle), MoverKing(cb, s, t), !cb.player, cb.enPassant)
  }

  /** `legal_moves`: the pseudo-legal targets (castling only when requested and the side to
      move is not in check) after which the king is not attacked. */
  function LegalTargets(cb: ChessBoard, s: int, castle: bool): (r: set<int>)
    requires Valid(cb) && OnBoard(s) && IsPiece(cb.board[s])
    ensures Origin(cb.board, s)
    ensures forall t | t in r :: OnBoard(t)
  {
    TargetsOnBoard(cb, s, castle && !cb.check);
    set t | t in PieceTargets(cb.board, s, cb.enPassant, castle && !cb.check) && KeepsKingSafe(cb, s, t, castle)
  }

  /** `legal_moves` as the engine runs it: simulate each pseudo-legal target, in increasing
      order of cell, and keep those that leave the king unattacked. */
  method LegalMoves(cb: ChessBoard, s: int, castle: bool) returns (legal: set<int>)
    requires Valid(cb) && OnBoard(s) && IsPiece(cb.board[s])
    ensures legal == LegalTargets(cb, s, castle)
  {
    TargetsOnBoard(cb, s, castle && !cb.check);
    var moves := MovePiece(cb.board, s, cb.enPassant, castle && !cb.check);
    legal := {};
    for move := 0 to Size
      invariant forall t :: t in legal <==> t in moves && t < move && KeepsKingSafe(cb, s, t, castle)
    {
      if move in moves {
        var next := ApplyMove(cb.board, s, move, castle);
        var king := if Kind(cb.board[s]) == King then move else if cb.player then cb.wKing else cb.bKing;
        WellFormedIsFramed(cb.board);
        var attacked := UnderAttack(next[..], king, !cb.player, cb.enPassant);
        assert attacked == !KeepsKingSafe(cb, s, move, castle);
        if !attacked {
          legal := legal + {move};
        }
      }
    }
    forall t ensures t in legal <==> t in LegalTargets(cb, s, castle) {
    }
  }

  /** A move request after its two tokens have been read: the cell moved from, the cell
      moved to, and whether the destination token was a castling token. */
  datatype Request = Request(from: int, to: int, castle: bool)

  /** The token tests of `move`: the source must name a square holding something; the
      destination must name a square, or be `0-0` / `0-0-0` when a king moves. */
  function ParseRequest(cb: ChessBoard, square: string, position: string): (r: Result<Request>)
    requires Valid(cb)
    ensures r == Err(SquareError) <==> !IsSquareName(square) || cb.board[An2i(square).value] == Empty
    ensures r == Err(MoveError) <==>
              && IsSquareName(square) && cb.board[An2i(square).value] != Empty
              && !IsSquareName(position)
              && !(Kind(cb.board[An2i(square).value]) == King && (position == "0-0" || position == "0-0-0"))
    ensures r.Err? ==> r.error != PromotionError
    ensures r.Ok? ==>
              var q := r.value;
              && q.from == An2i(square).value && IsPiece(cb.board[q.from])
              && (if q.castle
                  then Kind(cb.board[q.from]) == King
                       && ((position == "0-0" && q.to == q.from + 2) || (position == "0-0-0" && q.to == q.from - 2))
                  else IsSquareName(position) && q.to == An2i(position).value)
  {
    match An2i(square)
    case Err(e) => Err(e)
    case Ok(s) =>
      if cb.board[s] == Empty then Err(SquareError)
      else match An2i(position)
        case Ok(t) => Ok(Request(s, t, false))
        case Err(_) =>
          if Kind(cb.board[s]) == King then
            if position == "0-0" then Ok(Request(s, s + 2, true))
            else if position == "0-0-0" then Ok(Request(s, s - 2, true))
            else Err(MoveError)
          else Err(MoveError)
  }

  /** Python's `==` between a bool and an int: True equals 1 and False equals 0. */
  predicate BoolEqualsInt(p: bool, v: int)
  {
    (if p then 1 else 0) == v
  }

  /** `v & 32`. */
  function ColourBits(v: int): int
    requires 0 <= v
  {
    if IsBlack(v) then 32 else 0
  }

  /** The ownership test `player == board[s] & 32`, as Python evaluates it. */
  predicate OwnerRejected(cb: ChessBoard, s: int)
    requires Valid(cb) && OnBoard(s)
  {
    BoolEqualsInt(cb.player, ColourBits(cb.board[s]))
  }

  /** The ownership test only ever rejects Black to move naming a White piece. */
  lemma OwnerRejectedExactly(cb: ChessBoard, s: int)
    requires Valid(cb) && OnBoard(s)
    ensures OwnerRejected(cb, s) <==> !cb.player && !IsBlack(cb.board[s])
  {
  }

  /** The target holds a piece of the moving piece's own colour. */
  predicate SelfCapture(b: seq<int>, s: int, t: int)
    requires |b| == Size && 0 <= s < Size && 0 <= t < Size && 0 <= b[s] && 0 <= b[t]
  {
    b[t] != Empty && IsBlack(b[s]) == IsBlack(b[t])
  }

  /** The castling bookkeeping of `move`: a rook code 5/37 landing clears the castling bit of
      the mover's king (15 -> 7, 47 -> 39); a king 15/47 landing loses its own bit. */
  function ClearCastling(b: seq<int>, t: int, king: int): (r: seq<int>)
    requires WellFormed(b) && OnBoard(t) && OnBoard(king)
    ensures WellFormed(r)
    ensures forall i | 0 <= i < Size && i != t && i != king :: r[i] == b[i]
    ensures forall i | 0 <= i < Size :: Kind(r[i]) == Kind(b[i]) && IsBlack(r[i]) == IsBlack(b[i])
    ensures forall i | 0 <= i < Size :: r[i] == b[i] || (b[i] in {WhiteKingCastling, BlackKingCastling} && r[i] == b[i] - 8)
  {
    if b[t] == WhiteRook then (if b[king] == WhiteKingCastling then b[king := WhiteKing] else b)
    else if b[t] == BlackRook then (if b[king] == BlackKingCastling then b[king := BlackKing] else b)
    else if b[t] == WhiteKingCastling then b[t := WhiteKing]
    else if b[t] == BlackKingCastling then b[t := BlackKing]
    else b
  }

  /** What a request needs before its state can be built: a valid state, a piece moving
      between playing squares, and a simulated board that is well formed again. */
  predicate Ready(cb: ChessBoard, q: Request)
  {
    && Valid(cb) && OnBoard(q.from) && OnBoard(q.to) && IsPiece(cb.board[q.from])
    && WellFormed(Applied(cb.board, q.from, q.to, q.castle))
  }

  /** The state after an accepted request (`move`, lines after the legality test). */
  function Next(cb: ChessBoard, q: Request): (r: ChessBoard)
    requires Ready(cb, q)
    ensures Valid(r)
  {
    var moved := Applied(cb.board, q.from, q.to, q.castle);
    var t := q.to;
    var king := if Kind(moved[t]) == King then t else if cb.player then cb.wKing else cb.bKing;
    var nextKing := if cb.player then cb.bKing else cb.wKing;
    var promoted := if Kind(moved[t]) == Pawn && (t / 10 == 2 || t / 10 == 9) then t else 0;
    var doubleStep := Kind(moved[t]) == Pawn && Abs(q.from - t) == 20;
    var enPassant := if doubleStep then t else 0;
    var board := if doubleStep then moved else ClearCastling(moved, t, king);
    WellFormedIsFramed(board);
    ChessBoard(
      board,
      !cb.player,
      enPassant,
      promoted,
      if cb.player then king else nextKing,
      if cb.player then nextKing else king,
      Attacked(board, nextKing, cb.player, enPassant))
  }

  /** A castling target of a king is never one of its ordinary steps: it comes from one of
      the two castling tests. */
  lemma CastleTargetSource(b: seq<int>, s: int, ep: int, castle: bool, t: int)
    requires Origin(b, s) && Kind(b[s]) == King && (t == s + 2 || t == s - 2)
    requires t in PieceTargets(b, s, ep, castle)
    ensures castle && HasCastleRight(b[s])
    ensures t == s + 2 ==> KingsideCastle(b, s, ep)
    ensures t == s - 2 ==> QueensideCastle(b, s, ep)
  {
    LeapsExactly(b, s, KingOffsets, |KingOffsets|, t);
  }

  /** The board simulated for an accepted request is well formed: an ordinary move carries a
      piece between playing squares, and a castling move carries a real rook. */
  lemma AcceptedIsReady(cb: ChessBoard, q: Request)
    requires Valid(cb) && OnBoard(q.from) && IsPiece(cb.board[q.from])
    requires q.to in LegalTargets(cb, q.from, q.castle)
    requires q.castle ==> Kind(cb.board[q.from]) == King && (q.to == q.from + 2 || q.to == q.from - 2)
    ensures Ready(cb, q)
  {
    var b, s, t := cb.board, q.from, q.to;
    if q.castle {
      CastleTargetSource(b, s, cb.enPassant, q.castle && !cb.check, t);
      if t == s + 2 {
        assert b[s + 3] != OffBoard && OnBoard(s + 3);
      } else {
        assert b[s - 4] != OffBoard && OnBoard(s - 4);
      }
    }
  }

  /** `move`: read the tokens, refuse moving a White piece when Black is to move, a target
      of the mover's own colour and a target outside `legal_moves`, then build the state. */
  function Play(cb: ChessBoard, square: string, position: string): (r: Result<ChessBoard>)
    requires Valid(cb)
    ensures r.Ok? ==> Valid(r.value)
  {
    match ParseRequest(cb, square, position)
    case Err(e) => Err(e)
    case Ok(q) =>
      if OwnerRejected(cb, q.from) || SelfCapture(cb.board, q.from, q.to)
         || q.to !in LegalTargets(cb, q.from, q.castle)
      then Err(MoveError)
      else
        AcceptedIsReady(cb, q);
        Ok(Next(cb, q))
  }

  /** `move` as the engine runs it: the move is applied to a fresh buffer whose cells are
      then updated for the castling bookkeeping. */
  method Move(cb: ChessBoard, square: string, position: string) returns (r: Result<ChessBoard>)
    requires Valid(cb)
    ensures r == Play(cb, square, position)
  {
    var parsed := ReadRequest(cb, square, position);
    if parsed.Err? {
      return Err(parsed.error);
    }
    var q := parsed.value;
    var s, target, castle := q.from, q.to, q.castle;
    if BoolEqualsInt(cb.player, ColourBits(cb.board[s]))
       || (cb.board[target] != Empty && IsBlack(cb.board[s]) == IsBlack(cb.board[target])) {
      assert OwnerRejected(cb, s) || SelfCapture(cb.board, s, target);
      return Err(MoveError);
    }
    var legal := LegalMoves(cb, s, castle);
    if target !in legal {
      return Err(MoveError);
    }
    AcceptedIsReady(cb, q);
    var state := Commit(cb, q);
    r := Ok(state);
  }

  /** The first lines of `move`: the source square must name a piece, the destination a
      square, or "0-0" / "0-0-0" when the piece is a king. */
  method ReadRequest(cb: ChessBoard, square: string, position: string) returns (r: Result<Request>)
    requires Valid(cb)
    ensures r == ParseRequest(cb, square, position)
  {
    var source := An2i(square);
    if source.Err? {
      return Err(SquareError);
    }
    var s := source.value;
    if cb.board[s] == Empty {
      return Err(SquareError);
    }
    var destination := An2i(position);
    if destination.Ok? {
      return Ok(Request(s, destination.value, false));
    } else if Kind(cb.board[s]) == King {
      if position == "0-0" {
        return Ok(Request(s, s + 2, true));
      } else if position == "0-0-0" {
        return Ok(Request(s, s - 2, true));
      }
    }
    return Err(MoveError);
  }

  /** The second half of `move`: apply the request on a fresh buffer, set the en-passant and
      promotion cells, clear castling bits, and ask the attack oracle about the other king. */
  method Commit(cb: ChessBoard, q: Request) returns (r: ChessBoard)
    requires Ready(cb, q)
    ensures r == Next(cb, q)
  {
    var s, target := q.from, q.to;
    var next := ApplyMove(cb.board, s, target, q.castle);
    var king := if Kind(next[target]) == King then target else if cb.player then cb.wKing else cb.bKing;
    var nextKing := if cb.player then cb.bKing else cb.wKing;
    var enPassant := 0;
    var promoted := if Kind(next[target]) == Pawn && (target / 10 == 2 || target / 10 == 9) then target else 0;
    ghost var moved := next[..];
    if Kind(next[target]) == Pawn && Abs(s - target) == 20 {
      enPassant := target;
    } else {
      ClearCastlingIn(next, target, king);
    }
    assert next[..] == if enPassant != 0 then moved else ClearCastling(moved, target, king);
    WellFormedIsFramed(next[..]);
    var check := UnderAttack(next[..], nextKing, cb.player, enPassant);
    r := ChessBoard(
      next[..],
      !cb.player,
      enPassant,
      promoted,
      if cb.player then king else nextKing,
      if cb.player then nextKing else king,
      check);
  }

  /** The castling bookkeeping of `move` on the new buffer. */
  method ClearCastlingIn(next: array<int>, target: int, king: int)
    requires WellFormed(next[..]) && OnBoard(target) && OnBoard(king)
    modifies next
    ensures next[..] == ClearCastling(old(next[..]), target, king)
  {
    if next[target] == WhiteRook {
      if next[king] == WhiteKingCastling {
        next[king] := WhiteKing;
      }
    } else if next[target] == BlackRook {
      if next[king] == BlackKingCastling {
        next[king] := BlackKing;
      }
    } else if next[target] == WhiteKingCastling {
      next[target] := WhiteKing;
    } else if next[target] == BlackKingCastling {
      next[target] := BlackKing;
    }
  }

  /** `promote`: choices 1..4 put a queen, rook, bishop or knight of the colour `player` names
      on the `promoted` cell of a copy of the board; any other choice is a PromotionError. The
      new state keeps the side to move, the en-passant cell and the kings, clears `promoted`,
      and has `check` at its default, false. */
  method Promote(cb: ChessBoard, choice: int) returns (r: Result<ChessBoard>)
    requires Valid(cb)
    ensures r.Err? <==> !(1 <= choice <= 4)
    ensures r.Err? ==> r.error == PromotionError
    ensures r.Ok? ==>
              var n, p := r.value, cb.promoted;
              && |n.board| == Size && IsPiece(n.board[p])
              && Kind(n.board[p]) == [Queen, Rook, Bishop, Knight][choice - 1]
              && IsBlack(n.board[p]) == !cb.player && !HasCastleRight(n.board[p])
              && (forall i | 0 <= i < Size && i != p :: n.board[i] == cb.board[i])
              && n.player == cb.player && n.enPassant == cb.enPassant && n.promoted == 0
              && n.wKing == cb.wKing && n.bKing == cb.bKing && !n.check
    ensures r.Ok? && cb.promoted != 0 ==> Valid(r.value)
  {
    var board := new int[|cb.board|](i requires 0 <= i < |cb.board| => cb.board[i]);
    if choice == 1 {
      board[cb.promoted] := if cb.player then 6 else 38;
    } else if choice == 2 {
      board[cb.promoted] := if cb.player then 5 else 37;
    } else if choice == 3 {
      board[cb.promoted] := if cb.player then 4 else 36;
    } else if choice == 4 {
      board[cb.promoted] := if cb.player then 3 else 35;
    } else {
      return Err(PromotionError);
    }
    r := Ok(ChessBoard(board[..], cb.player, cb.enPassant, 0, cb.wKing, cb.bKing, false));
  }

  /** The cached king cell of White (`white`) or of Black. */
  function KingOf(cb: ChessBoard, white: bool): int
  {
    if white then cb.wKing else cb.bKing
  }

  /** A request of the shape `move` builds: it moves a piece, and a castling request moves a
      king two cells along its row. */
  predicate Shaped(cb: ChessBoard, q: Request)
    requires Ready(cb, q)
  {
    && q.from != q.to
    && (q.castle ==> Kind(cb.board[q.from]) == King && (q.to == q.from + 2 || q.to == q.from - 2))
  }

  /** `_apply_move` on a request of that shape: the piece lands on the target and its cell is
      emptied; a castling move also carries the rook from s + 3 to s + 1 or from s - 4 to s - 1;
      every other cell keeps its content. */
  lemma AppliedCells(b: seq<int>, s: int, t: int, castle: bool)
    requires |b| == Size && OnBoard(s) && OnBoard(t) && s != t
    requires castle ==> t == s + 2 || t == s - 2
    ensures var r := Applied(b, s, t, castle);
            && r[t] == b[s] && r[s] == Empty
            && (castle && t == s + 2 ==> r[s + 1] == b[s + 3] && r[s + 3] == Empty)
            && (castle && t == s - 2 ==> r[s - 1] == b[s - 4] && r[s - 4] == Empty)
            && forall i | && 0 <= i < Size && i != s && i != t
                          && (castle && t == s + 2 ==> i != s + 1 && i != s + 3)
                          && (castle && t == s - 2 ==> i != s - 1 && i != s - 4)
                 :: r[i] == b[i]
  {
  }

  /** An ordinary move to an empty cell is undone by the move back. */
  lemma QuietMoveUndone(b: seq<int>, s: int, t: int)
    requires |b| == Size && OnBoard(s) && OnBoard(t) && s != t && b[t] == Empty
    ensures Applied(Applied(b, s, t, false), t, s, false) == b
  {
    var r := Applied(Applied(b, s, t, false), t, s, false);
    assert forall i | 0 <= i < Size :: r[i] == b[i];
  }

  /** The fields of the state after a request: the side to move flips; the en-passant cell is
      the target exactly when a pawn moved 20 cells; the promotion cell is the target exactly
      when a pawn lands on row 2 or 9; the mover's king cell follows a moving king and the other
      king cell stays; `check` says whether the mover now attacks the other king's cell. */
  lemma NextFields(cb: ChessBoard, q: Request)
    requires Ready(cb, q) && Shaped(cb, q)
    ensures var n, s, t, p := Next(cb, q), q.from, q.to, cb.board[q.from];
            && n.player == !cb.player
            && (n.enPassant != 0 <==> Kind(p) == Pawn && Abs(s - t) == 20)
            && (n.enPassant != 0 ==> n.enPassant == t)
            && (n.promoted != 0 <==> Kind(p) == Pawn && (t / 10 == 2 || t / 10 == 9))
            && (n.promoted != 0 ==> n.promoted == t)
            && KingOf(n, cb.player) == (if Kind(p) == King then t else KingOf(cb, cb.player))
            && KingOf(n, !cb.player) == KingOf(cb, !cb.player)
            && (n.check <==> Attacked(n.board, KingOf(cb, !cb.player), cb.player, n.enPassant))
  {
    AppliedCells(cb.board, q.from, q.to, q.castle);
  }

  /** The board after a request: the source is empty, the target holds the moved piece with
      the castling bit of a king cleared, and a castling move has moved its rook. */
  lemma NextBoardMoved(cb: ChessBoard, q: Request)
    requires Ready(cb, q) && Shaped(cb, q)
    ensures var n, s, t, p := Next(cb, q).board, q.from, q.to, cb.board[q.from];
            && n[s] == Empty
            && n[t] == (if p in {WhiteKingCastling, BlackKingCastling} then p - 8 else p)
            && Kind(n[t]) == Kind(p) && IsBlack(n[t]) == IsBlack(p)
            && (Kind(p) == King ==> !HasCastleRight(n[t]))
            && (q.castle && t == s + 2 ==> n[s + 1] == cb.board[s + 3] && n[s + 3] == Empty)
            && (q.castle && t == s - 2 ==> n[s - 1] == cb.board[s - 4] && n[s - 4] == Empty)
  {
    var s, t, k := q.from, q.to, KingOf(cb, cb.player);
    AppliedCells(cb.board, s, t, q.castle);
    var moved := Applied(cb.board, s, t, q.castle);
    var king := if Kind(moved[t]) == King then t else k;
    var doubleStep := Kind(moved[t]) == Pawn && Abs(s - t) == 20;
    var n := Next(cb, q).board;
    assert n == if doubleStep then moved else ClearCastling(moved, t, king);
    if !doubleStep {
      ClearedCells(moved, t, king);
    }
  }

  /** The cells `ClearCastling` may change: the target, which keeps its kind and colour and
      loses the bit of a king, and the king cell. */
  lemma ClearedCells(b: seq<int>, t: int, king: int)
    requires WellFormed(b) && OnBoard(t) && OnBoard(king)
    requires Kind(b[t]) == King ==> king == t
    ensures var r := ClearCastling(b, t, king);
            && Kind(r[t]) == Kind(b[t]) && IsBlack(r[t]) == IsBlack(b[t])
            && (Kind(b[t]) == King ==> !HasCastleRight(r[t]))
            && forall i | 0 <= i < Size && i != t && i != king :: r[i] == b[i]
  {
  }

  /** A rook of code 5 (37) landing clears the castling bit of a king 15 (47) on the cached
      king cell of the side to move; every other cell than the source, the target and the
      castling rook's two cells keeps its content. */
  lemma NextBoardRest(cb: ChessBoard, q: Request)
    requires Ready(cb, q) && Shaped(cb, q)
    ensures var n, s, t, p, k := Next(cb, q).board, q.from, q.to, cb.board[q.from], KingOf(cb, cb.player);
            && (p == WhiteRook && k != s && k != t && cb.board[k] == WhiteKingCastling ==> n[k] == WhiteKing)
            && (p == BlackRook && k != s && k != t && cb.board[k] == BlackKingCastling ==> n[k] == BlackKing)
            && forall i | && 0 <= i < Size && i != s && i != t
                          && (q.castle && t == s + 2 ==> i != s + 1 && i != s + 3)
                          && (q.castle && t == s - 2 ==> i != s - 1 && i != s - 4)
                          && !(i == k && p == WhiteRook && cb.board[i] == WhiteKingCastling)
                          && !(i == k && p == BlackRook && cb.board[i] == BlackKingCastling)
                 :: n[i] == cb.board[i]
  {
    AppliedCells(cb.board, q.from, q.to, q.castle);
  }

  /** The whole board after a request, cell by cell, from the board `_apply_move` leaves: a
      king landing with its castling bit loses it, a rook of code 5 (37) landing clears the bit
      of a king 15 (47) on the cached king cell of the side to move, and every other cell is
      as `_apply_move` left it. */
  lemma NextBoardExact(cb: ChessBoard, q: Request)
    requires Ready(cb, q) && Shaped(cb, q)
    ensures var n, m, t, k := Next(cb, q).board, Applied(cb.board, q.from, q.to, q.castle), q.to, KingOf(cb, cb.player);
            forall i | 0 <= i < Size ::
              n[i] == (if i == t && m[t] in {WhiteKingCastling, BlackKingCastling} then m[t] - 8
                       else if i == k && i != t && ((m[t] == WhiteRook && m[i] == WhiteKingCastling)
                                                    || (m[t] == BlackRook && m[i] == BlackKingCastling)) then m[i] - 8
                       else m[i])
  {
    AppliedCells(cb.board, q.from, q.to, q.castle);
  }

  /** A legal target never holds a piece of the mover's colour or the sentinel, except the
      en-passant cell beside a pawn, which is added whatever it holds. */
  lemma LegalTargetsOccupancy(cb: ChessBoard, s: int, castle: bool, t: int)
    requires Valid(cb) && OnBoard(s) && IsPiece(cb.board[s])
    requires t in LegalTargets(cb, s, castle)
    ensures t in PieceTargets(cb.board, s, cb.enPassant, castle && !cb.check)
    ensures KeepsKingSafe(cb, s, t, castle)
    ensures t != s
    ensures EmptyOrEnemy(cb.board, s, t)
            || (Kind(cb.board[s]) == Pawn && EnPassantFrom(cb.board, s, cb.enPassant)
                && t == (if IsBlack(cb.board[s]) then cb.enPassant + 10 else cb.enPassant - 10))
  {
    TargetsOccupancy(cb.board, s, cb.enPassant, castle && !cb.check, t);
  }

  /** A king is offered s + 2 or s - 2 only when castling was asked for, the side to move is
      not in check, the king keeps its castling bit and the castling test of that side passes. */
  lemma LegalCastling(cb: ChessBoard, s: int, castle: bool, t: int)
    requires Valid(cb) && OnBoard(s) && IsPiece(cb.board[s]) && Kind(cb.board[s]) == King
    requires t == s + 2 || t == s - 2
    ensures t in LegalTargets(cb, s, castle) <==>
              && castle && !cb.check && HasCastleRight(cb.board[s])
              && (if t == s + 2 then KingsideCastle(cb.board, s, cb.enPassant)
                  else QueensideCastle(cb.board, s, cb.enPassant))
              && KeepsKingSafe(cb, s, t, castle)
  {
    var b, ep, c := cb.board, cb.enPassant, castle && !cb.check;
    TargetsOnBoard(cb, s, c);
    if t in LegalTargets(cb, s, castle) {
      CastleTargetSource(b, s, ep, c, t);
    }
    if c && HasCastleRight(b[s]) && (if t == s + 2 then KingsideCastle(b, s, ep) else QueensideCastle(b, s, ep)) {
      assert t in KingTargets(b, s, ep, c);
      assert t in PieceTargets(b, s, ep, c);
    }
  }

  /** The outcome of `move`: SquareError exactly for a bad or empty source; never a
      PromotionError; success exactly when the tokens form a request, the ownership test passes
      (it fails only for Black to move naming a White piece), the target holds no piece of the
      mover's colour and the target is legal; and then the new state is `Next` of a request of
      the shape that `NextFields`, `NextBoardMoved` and `NextBoardRest` describe. */
  lemma PlayOutcome(cb: ChessBoard, square: string, position: string)
    requires Valid(cb)
    ensures Play(cb, square, position) == Err(SquareError) <==>
              !IsSquareName(square) || cb.board[An2i(square).value] == Empty
    ensures Play(cb, square, position) != Err(PromotionError)
    ensures Play(cb, square, position).Ok? <==>
              && ParseRequest(cb, square, position).Ok?
              && var q := ParseRequest(cb, square, position).value;
                 && !(!cb.player && !IsBlack(cb.board[q.from]))
                 && !SelfCapture(cb.board, q.from, q.to)
                 && q.to in LegalTargets(cb, q.from, q.castle)
    ensures Play(cb, square, position).Ok? ==>
              var q := ParseRequest(cb, square, position).value;
              && Ready(cb, q) && Shaped(cb, q)
              && Play(cb, square, position).value == Next(cb, q)
  {
    var r := ParseRequest(cb, square, position);
    if r.Ok? {
      var q := r.value;
      OwnerRejectedExactly(cb, q.from);
      if q.to in LegalTargets(cb, q.from, q.castle) {
        LegalTargetsOccupancy(cb, q.from, q.castle, q.to);
        AcceptedIsReady(cb, q);
      }
    }
  }

  /** When no pseudo-legal target exposes the king, `legal_moves` keeps them all. */
  lemma AllTargetsSafe(cb: ChessBoard, s: int, castle: bool)
    requires Valid(cb) && OnBoard(s) && IsPiece(cb.board[s])
    requires AllSafe(cb, s, castle)
    ensures LegalTargets(cb, s, castle) == PieceTargets(cb.board, s, cb.enPassant, castle && !cb.check)
  {
  }

  /** Every pseudo-legal target is a playing square and keeps the king safe. */
  predicate AllSafe(cb: ChessBoard, s: int, castle: bool)
    requires Valid(cb) && OnBoard(s) && IsPiece(cb.board[s])
  {
    TargetsOnBoard(cb, s, castle && !cb.check);
    forall t | t in PieceTargets(cb.board, s, cb.enPassant, castle && !cb.check) :: KeepsKingSafe(cb, s, t, castle)
  }
}
