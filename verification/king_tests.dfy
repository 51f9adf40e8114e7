/** The King's unit tests restated as lemmas over the start position. Each
    test places a king, queries `KingAllowed`, clears squares or revokes a
    right, and queries again. */
module KingTests {
  import opened Optional
  import opened Position
  import opened Pieces
  import opened Board
  import opened KingMovement

  // The squares the tests name.
  const B1 := Pos(1, 0)
  const C1 := Pos(2, 0)
  const D1 := Pos(3, 0)
  const E1 := Pos(4, 0)
  const F1 := Pos(5, 0)
  const G1 := Pos(6, 0)
  const B8 := Pos(1, 7)
  const C8 := Pos(2, 7)
  const D8 := Pos(3, 7)
  const E8 := Pos(4, 7)
  const F8 := Pos(5, 7)
  const G8 := Pos(6, 7)

  /** The constants above are the squares of those algebraic names. */
  lemma SquareNames()
    ensures Name(C1) == "c1" && Name(G1) == "g1" && Name(E1) == "e1"
    ensures Name(C8) == "c8" && Name(G8) == "g8" && Name(E8) == "e8"
  {
  }

  /** The start position with `king` placed on its own square. */
  function WithKing(king: ChessPiece): BoardData {
    SetPiece(DefaultBoard(), king.position, Some(king.AsPiece()))
  }

  function Clear(b: BoardData, squares: seq<Pos>): (b': BoardData)
    ensures forall p :: p in squares ==> IsEmpty(b', p)
    ensures forall p :: p !in squares ==> PieceAt(b', p) == PieceAt(b, p)
    ensures b'.castling == b.castling
    decreases |squares|
  {
    if |squares| == 0 then b else Clear(SetPiece(b, squares[0], None), squares[1..])
  }

  /** The four castling destinations the tests probe. */
  predicate Probe(b: BoardData, king: ChessPiece, c1: bool, g1: bool, c8: bool, g8: bool) {
    && KingAllowed(b, king, C1) == c1
    && KingAllowed(b, king, G1) == g1
    && KingAllowed(b, king, C8) == c8
    && KingAllowed(b, king, G8) == g8
  }

  lemma GetType()
    ensures NewKing(White, Pos(4, 4)).kind == King
  {
  }

  lemma Allowed()
    ensures var king := NewKing(White, Pos(4, 4));
            var def := WithKing(king);
            && KingAllowed(def, king, Pos(5, 5))
            && KingAllowed(def, king, Pos(5, 3))
            && KingAllowed(def, king, Pos(3, 5))
            && KingAllowed(def, king, Pos(5, 4))
            && KingAllowed(def, king, Pos(4, 5))
            && !KingAllowed(def, king, Pos(6, 6))
            && !KingAllowed(def, king, Pos(6, 7))
            && !KingAllowed(def, king, Pos(2, 1))
            && !KingAllowed(def, king, Pos(2, 3))
            && !KingAllowed(def, king, Pos(4, 4))
  {
  }

  /** Every square of the home ranks other than the king's own is occupied
      in the start position with a king on e1 or e8. */
  lemma HomeRankOccupied(king: ChessPiece, p: Pos)
    requires king.position == KingHome(king.color)
    requires p.rank in {0, 7} && p != king.position
    ensures !IsEmpty(WithKing(king), p)
  {
    assert PieceAt(WithKing(king), p) == PieceAt(DefaultBoard(), p);
  }

  /** The four probes on a board where the king stands on its home square,
      reduced to the two castling rules: the other colour's castling squares
      are out of reach. */
  lemma ProbeByRules(b: BoardData, king: ChessPiece)
    requires king.position == KingHome(king.color)
    ensures Probe(b, king,
                  king.color == White && KingAllowed(b, king, C1),
                  king.color == White && KingAllowed(b, king, G1),
                  king.color == Black && KingAllowed(b, king, C8),
                  king.color == Black && KingAllowed(b, king, G8))
  {
    var far := if king.color == White then [C8, G8] else [C1, G1];
    LongMoveRejected(b, king, far[0]);
    LongMoveRejected(b, king, far[1]);
  }

  lemma WhiteQueenSideCastling()
    ensures var king := NewKing(White, E1);
            var def := WithKing(king);
            var cleared := Clear(def, [B1, C1, D1]);
            && !KingAllowed(def, king, C1)
            && Probe(cleared, king, true, false, false, false)
            && Probe(RemoveRight(cleared, WhiteQueenSide), king, false, false, false, false)
  {
    var king := NewKing(White, E1);
    var def := WithKing(king);
    var cleared := Clear(def, [B1, C1, D1]);
    HomeRankOccupied(king, B1);
    HomeRankOccupied(king, F1);
    assert PieceAt(cleared, F1) == PieceAt(def, F1);
    QueenSideCastleIff(cleared, king);
    KingSideCastleIff(cleared, king);
    ProbeByRules(cleared, king);
    ProbeByRules(RemoveRight(cleared, WhiteQueenSide), king);
    RevokeDisablesCastle(cleared, king, WhiteQueenSide);
    RevokeNeverEnables(cleared, king, WhiteQueenSide, C1);
    RevokeNeverEnables(cleared, king, WhiteQueenSide, G1);
    RevokeNeverEnables(cleared, king, WhiteQueenSide, C8);
    RevokeNeverEnables(cleared, king, WhiteQueenSide, G8);
  }

  lemma WhiteKingSideCastling()
    ensures var king := NewKing(White, E1);
            var def := WithKing(king);
            var cleared := Clear(def, [F1, G1]);
            && !KingAllowed(def, king, G1)
            && Probe(cleared, king, false, true, false, false)
            && Probe(RemoveRight(cleared, WhiteKingSide), king, false, false, false, false)
  {
    var king := NewKing(White, E1);
    var def := WithKing(king);
    var cleared := Clear(def, [F1, G1]);
    HomeRankOccupied(king, F1);
    HomeRankOccupied(king, B1);
    assert PieceAt(cleared, B1) == PieceAt(def, B1);
    QueenSideCastleIff(cleared, king);
    KingSideCastleIff(cleared, king);
    ProbeByRules(cleared, king);
    ProbeByRules(RemoveRight(cleared, WhiteKingSide), king);
    RevokeDisablesCastle(cleared, king, WhiteKingSide);
    RevokeNeverEnables(cleared, king, WhiteKingSide, C1);
    RevokeNeverEnables(cleared, king, WhiteKingSide, G1);
    RevokeNeverEnables(cleared, king, WhiteKingSide, C8);
    RevokeNeverEnables(cleared, king, WhiteKingSide, G8);
  }

  lemma BlackQueenSideCastling()
    ensures var king := NewKing(Black, E8);
            var def := WithKing(king);
            var cleared := Clear(def, [B8, C8, D8]);
            && !KingAllowed(def, king, C8)
            && Probe(cleared, king, false, false, true, false)
            && Probe(RemoveRight(cleared, BlackQueenSide), king, false, false, false, false)
  {
    var king := NewKing(Black, E8);
    var def := WithKing(king);
    var cleared := Clear(def, [B8, C8, D8]);
    HomeRankOccupied(king, B8);
    HomeRankOccupied(king, F8);
    assert PieceAt(cleared, F8) == PieceAt(def, F8);
    QueenSideCastleIff(cleared, king);
    KingSideCastleIff(cleared, king);
    ProbeByRules(cleared, king);
    ProbeByRules(RemoveRight(cleared, BlackQueenSide), king);
    RevokeDisablesCastle(cleared, king, BlackQueenSide);
    RevokeNeverEnables(cleared, king, BlackQueenSide, C1);
    RevokeNeverEnables(cleared, king, BlackQueenSide, G1);
    RevokeNeverEnables(cleared, king, BlackQueenSide, C8);
    RevokeNeverEnables(cleared, king, BlackQueenSide, G8);
  }

  lemma BlackKingSideCastling()
    ensures var king := NewKing(Black, E8);
            var def := WithKing(king);
            var cleared := Clear(def, [F8, G8]);
            && !KingAllowed(def, king, G8)
            && Probe(cleared, king, false, false, false, true)
            && Probe(RemoveRight(cleared, BlackKingSide), king, false, false, false, false)
  {
    var king := NewKing(Black, E8);
    var def := WithKing(king);
    var cleared := Clear(def, [F8, G8]);
    HomeRankOccupied(king, F8);
    HomeRankOccupied(king, B8);
    assert PieceAt(cleared, B8) == PieceAt(def, B8);
    QueenSideCastleIff(cleared, king);
    KingSideCastleIff(cleared, king);
    ProbeByRules(cleared, king);
    ProbeByRules(RemoveRight(cleared, BlackKingSide), king);
    RevokeDisablesCastle(cleared, king, BlackKingSide);
    RevokeNeverEnables(cleared, king, BlackKingSide, C1);
    RevokeNeverEnables(cleared, king, BlackKingSide, G1);
    RevokeNeverEnables(cleared, king, BlackKingSide, C8);
    RevokeNeverEnables(cleared, king, BlackKingSide, G8);
  }
}
