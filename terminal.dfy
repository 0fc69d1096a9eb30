/** The two end-of-game queries of a state: whether the side to move has a legal move
    (`__bool__`) and whether the material left can still mate (`material`). */
module Terminal {
  import opened Squares
  import opened Generation
  import opened Game

  /** The cells `__bool__` and `material` count for a colour: 1..31 for White, 32..63 for Black
      (the sentinel 255 is neither). */
  predicate OfSide(v: int, black: bool)
  {
    if black then 32 <= v < 64 else 0 < v < 32
  }

  /** A cell holding a piece of the side to move. */
  predicate MoverPiece(cb: ChessBoard, i: int)
    requires 0 <= i < |cb.board|
  {
    OfSide(cb.board[i], !cb.player)
  }

  /** `__bool__`: some piece of the side to move has a legal move without castling. */
  predicate HasLegalMove(cb: ChessBoard)
    requires Valid(cb)
  {
    exists i | 0 <= i < Size && MoverPiece(cb, i) :: LegalTargets(cb, i, false) != {}
  }

  /** When the side to move has no legal move, `move` refuses every ordinary request naming
      one of its pieces. */
  lemma NoLegalMoveRefusesPlay(cb: ChessBoard, square: string, position: string)
    requires Valid(cb) && !HasLegalMove(cb)
    requires ParseRequest(cb, square, position).Ok?
    requires !ParseRequest(cb, square, position).value.castle
    requires MoverPiece(cb, ParseRequest(cb, square, position).value.from)
    ensures Play(cb, square, position) == Err(MoveError)
  {
    var q := ParseRequest(cb, square, position).value;
    assert LegalTargets(cb, q.from, false) == {};
    PlayOutcome(cb, square, position);
  }

  /** The kinds of the pieces of one colour, with their multiplicities: the sorted list of
      kinds that `material` builds, up to order. */
  function Kinds(b: seq<int>, black: bool): (r: multiset<int>)
    ensures |r| <= |b|
  {
    if b == [] then multiset{}
    else
      var v := b[|b| - 1];
      Kinds(b[..|b| - 1], black) + if OfSide(v, black) && 0 <= v then multiset{Kind(v)} else multiset{}
  }

  /** Cell i of b holds a piece of kind k of the given colour. */
  predicate HoldsKind(b: seq<int>, black: bool, k: int, i: int)
    requires 0 <= i < |b|
  {
    OfSide(b[i], black) && 0 <= b[i] && Kind(b[i]) == k
  }

  /** A kind is among a colour's kinds exactly when a cell of that colour holds it. */
  lemma {:induction false} KindsMember(b: seq<int>, black: bool, k: int)
    ensures k in Kinds(b, black) <==> exists i | 0 <= i < |b| :: HoldsKind(b, black, k, i)
  {
    if b != [] {
      var front := b[..|b| - 1];
      var last := |b| - 1;
      KindsMember(front, black, k);
      assert forall i | 0 <= i < |front| :: HoldsKind(front, black, k, i) == HoldsKind(b, black, k, i);
      assert Kinds(b, black) == Kinds(front, black) + if OfSide(b[last], black) && 0 <= b[last] then multiset{Kind(b[last])} else multiset{};
      if k in Kinds(b, black) && k !in Kinds(front, black) {
        assert HoldsKind(b, black, k, last);
      }
      if HoldsKind(b, black, k, last) {
        assert k in Kinds(b, black);
      }
    }
  }

  /** The list `[i & 7 for i in board if i == 4]`: one entry, 4, per cell holding exactly 4. */
  function Bishops(b: seq<int>): (r: seq<int>)
    ensures |r| <= |b|
  {
    if b == [] then []
    else Bishops(b[..|b| - 1]) + if b[|b| - 1] == 4 then [Kind(4)] else []
  }

  /** The parity test of `material` on one entry x: `(10 - x // 10 + x % 10) % 2 == 0`. */
  predicate EvenSquare(x: int)
  {
    (10 - x / 10 + x % 10) % 2 == 0
  }

  /** `all(map(EvenSquare, bishops))`. */
  predicate AllEven(xs: seq<int>)
  {
    forall k | 0 <= k < |xs| :: EvenSquare(xs[k])
  }

  /** The bishop test compares cell values with 4 rather than cell indices, so every entry is
      the value 4, whose parity sum 14 is even: the test never fails. */
  lemma {:induction false} BishopTestPasses(b: seq<int>)
    ensures forall x | x in Bishops(b) :: x == Bishop
    ensures AllEven(Bishops(b))
  {
    if b != [] {
      BishopTestPasses(b[..|b| - 1]);
    }
  }

  const K: multiset<int> := multiset{King}
  const KP: multiset<int> := multiset{Pawn, King}
  const KN: multiset<int> := multiset{Knight, King}
  const KB: multiset<int> := multiset{Bishop, King}
  const KNN: multiset<int> := multiset{Knight, Knight, King}
  const KBN: multiset<int> := multiset{Knight, Bishop, King}

  /** The if/elif chain of `material` on White's kinds, Black's kinds and the outcome of the
      bishop test, as written: lines 73 and 79 test a king and pawn where their comments say a
      king and bishop, and line 73 repeats its first clause instead of swapping the colours. */
  predicate Verdict(wp: multiset<int>, bp: multiset<int>, bishopsEven: bool)
  {
    if wp == K && bp == K then false
    else if (wp == K && bp == KN) || (bp == K && wp == KN) then false
    else if (wp == K && bp == KB) || (bp == K && wp == KB) then false
    else if wp == KB && bp == KB then !bishopsEven
    else if (wp == K && bp == KNN) || (bp == K && wp == KNN) then false
    else if (wp == KP && bp == KNN) || (wp == KP && bp == KNN) then false
    else if (wp == KN && bp == KNN) || (bp == KN && wp == KNN) then false
    else if (wp == KP && bp == KN) || (bp == KP && wp == KN) then false
    else if wp == KN && bp == KN then false
    else if (wp == KN && bp == KBN) || (bp == KN && wp == KBN) then false
    else if (wp == KB && bp == KBN) || (bp == KB && wp == KBN) then false
    else true
  }

  /** `material`: false when the position is one of the listed draws. */
  predicate Material(cb: ChessBoard)
  {
    Verdict(Kinds(cb.board, false), Kinds(cb.board, true), AllEven(Bishops(cb.board)))
  }

  /** The pairs (White's kinds, Black's kinds) the chain lists as draws, written out. */
  const DrawTable: set<(multiset<int>, multiset<int>)> :=
    {(K, K), (K, KN), (KN, K), (K, KB), (KB, K), (KB, KB), (K, KNN), (KNN, K), (KP, KNN),
     (KN, KNN), (KNN, KN), (KP, KN), (KN, KP), (KN, KN), (KN, KBN), (KBN, KN), (KB, KBN), (KBN, KB)}

  /** The six lists the chain compares with are pairwise different: they differ in their
      number of pawns, knights or bishops. */
  lemma ListsDistinct()
    ensures K[Pawn] == 0 && K[Knight] == 0 && K[Bishop] == 0
    ensures KP[Pawn] == 1 && KP[Knight] == 0 && KP[Bishop] == 0
    ensures KN[Pawn] == 0 && KN[Knight] == 1 && KN[Bishop] == 0
    ensures KB[Pawn] == 0 && KB[Knight] == 0 && KB[Bishop] == 1
    ensures KNN[Pawn] == 0 && KNN[Knight] == 2 && KNN[Bishop] == 0
    ensures KBN[Pawn] == 0 && KBN[Knight] == 1 && KBN[Bishop] == 1
  {
  }

  /** With the bishop test passing, the chain is false exactly for the listed pairs. */
  lemma VerdictExactly(wp: multiset<int>, bp: multiset<int>)
    ensures !Verdict(wp, bp, true) <==> (wp, bp) in DrawTable
  {
    ListedDraws(wp, bp);
  }

  /** Every pair of the table is called a draw: no earlier branch of the chain catches it. */
  lemma ListedDraws(wp: multiset<int>, bp: multiset<int>)
    ensures (wp, bp) in DrawTable ==> !Verdict(wp, bp, true)
  {
    ListsDistinct();
  }

  /** `material` is false exactly for the listed pairs, two bishops against each other
      included whatever squares they stand on. */
  lemma MaterialExactly(cb: ChessBoard)
    ensures !Material(cb) <==> (Kinds(cb.board, false), Kinds(cb.board, true)) in DrawTable
  {
    BishopTestPasses(cb.board);
    VerdictExactly(Kinds(cb.board, false), Kinds(cb.board, true));
  }

  /** A queen or a rook on either side is always sufficient material. */
  lemma HeavyPieceSuffices(cb: ChessBoard)
    requires exists i | 0 <= i < |cb.board| :: 0 < cb.board[i] < 64 && Kind(cb.board[i]) in {Rook, Queen}
    ensures Material(cb)
  {
    var i :| 0 <= i < |cb.board| && 0 < cb.board[i] < 64 && Kind(cb.board[i]) in {Rook, Queen};
    var black := cb.board[i] >= 32;
    assert HoldsKind(cb.board, black, Kind(cb.board[i]), i);
    KindsMember(cb.board, black, Kind(cb.board[i]));
    MaterialExactly(cb);
  }

  /** As written, a king and pawn against a king and knight is called a draw, and so is a king
      and pawn against a king and two knights, but not with the colours swapped. */
  lemma PawnCountedAsBishop()
    ensures !Verdict(KP, KN, true) && !Verdict(KN, KP, true)
    ensures !Verdict(KP, KNN, true) && Verdict(KNN, KP, true)
  {
  }

  /** The chain as its comments describe it: a king and bishop at lines 73 and 79, and the
      second clause of line 73 with the colours swapped. */
  predicate IntendedVerdict(wp: multiset<int>, bp: multiset<int>, bishopsEven: bool)
  {
    if wp == K && bp == K then false
    else if (wp == K && bp == KN) || (bp == K && wp == KN) then false
    else if (wp == K && bp == KB) || (bp == K && wp == KB) then false
    else if wp == KB && bp == KB then !bishopsEven
    else if (wp == K && bp == KNN) || (bp == K && wp == KNN) then false
    else if (wp == KB && bp == KNN) || (bp == KB && wp == KNN) then false
    else if (wp == KN && bp == KNN) || (bp == KN && wp == KNN) then false
    else if (wp == KB && bp == KN) || (bp == KB && wp == KN) then false
    else if wp == KN && bp == KN then false
    else if (wp == KN && bp == KBN) || (bp == KN && wp == KBN) then false
    else if (wp == KB && bp == KBN) || (bp == KB && wp == KBN) then false
    else true
  }

  /** The intended chain treats both colours alike, and a pawn on either side always leaves
      sufficient material. */
  lemma IntendedVerdictProperties(wp: multiset<int>, bp: multiset<int>, bishopsEven: bool)
    ensures IntendedVerdict(wp, bp, bishopsEven) == IntendedVerdict(bp, wp, bishopsEven)
    ensures Pawn in wp || Pawn in bp ==> IntendedVerdict(wp, bp, bishopsEven)
  {
  }
}
