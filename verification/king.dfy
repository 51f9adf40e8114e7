/** The King's movement contract: one-square steps in any direction, and
    castling two squares toward a rook from the home square when the matching
    right is held and every square between king and rook is empty. */
module KingMovement {
  import opened Optional
  import opened Position
  import opened Pieces
  import opened Board

  /** The rank a colour's king and rooks start on. */
  function HomeRank(c: Color): (rank: Coord) {
    if c == White then 0 else 7
  }

  function KingSideRight(c: Color): CastlingAvailability {
    if c == White then WhiteKingSide else BlackKingSide
  }

  function QueenSideRight(c: Color): CastlingAvailability {
    if c == White then WhiteQueenSide else BlackQueenSide
  }

  /** The king's start square: e1 for white, e8 for black. */
  function KingHome(c: Color): Pos {
    Pos(4, HomeRank(c))
  }

  /** King-side castling destination: g1 / g8. */
  function KingSideTarget(c: Color): Pos {
    Pos(6, HomeRank(c))
  }

  /** Queen-side castling destination: c1 / c8. */
  function QueenSideTarget(c: Color): Pos {
    Pos(2, HomeRank(c))
  }

  predicate OwnPieceAt(b: BoardData, c: Color, p: Pos) {
    p in b.pieces && b.pieces[p].color == c
  }

  /** King-side castling: f and g on the home rank must be empty. */
  predicate CanCastleKingSide(b: BoardData, king: ChessPiece, to: Pos) {
    var home := HomeRank(king.color);
    && king.position == KingHome(king.color)
    && to == KingSideTarget(king.color)
    && KingSideRight(king.color) in b.castling
    && IsEmpty(b, Pos(5, home))
    && IsEmpty(b, Pos(6, home))
  }

  /** Queen-side castling: b, c and d on the home rank must be empty. */
  predicate CanCastleQueenSide(b: BoardData, king: ChessPiece, to: Pos) {
    var home := HomeRank(king.color);
    && king.position == KingHome(king.color)
    && to == QueenSideTarget(king.color)
    && QueenSideRight(king.color) in b.castling
    && IsEmpty(b, Pos(1, home))
    && IsEmpty(b, Pos(2, home))
    && IsEmpty(b, Pos(3, home))
  }

  /** `king.allowed(board, to)`: may the king move to `to`? Either a
      one-square step onto a square its own colour does not hold, or a castle
      from e1/e8 with the right held and the squares between king and rook
      empty. Whatever is allowed never lands on an own piece and is either a
      step or a castling move. */
  function KingAllowed(b: BoardData, king: ChessPiece, to: Pos): (allowed: bool)
    ensures allowed ==> !OwnPieceAt(b, king.color, to)
    ensures allowed ==> Distance(king.position, to) == 1 || IsCastlingShape(king, to)
  {
    || (Distance(king.position, to) == 1 && !OwnPieceAt(b, king.color, to))
    || CanCastleKingSide(b, king, to)
    || CanCastleQueenSide(b, king, to)
  }

  /** A castling move: the king on its home square going to c or g of its home rank. */
  predicate IsCastlingShape(king: ChessPiece, to: Pos) {
    king.position == KingHome(king.color)
    && (to == KingSideTarget(king.color) || to == QueenSideTarget(king.color))
  }

  /** A one-square step is allowed exactly when the king's own colour does
      not already occupy the target; in particular every step to an empty
      neighbour is allowed. */
  lemma StepAllowed(b: BoardData, king: ChessPiece, to: Pos)
    requires Distance(king.position, to) == 1
    ensures KingAllowed(b, king, to) <==> !OwnPieceAt(b, king.color, to)
    ensures IsEmpty(b, to) ==> KingAllowed(b, king, to)
  {
  }

  /** Staying in place is never allowed, and neither is any move of two or
      more squares that is not a castling move. */
  lemma LongMoveRejected(b: BoardData, king: ChessPiece, to: Pos)
    requires Distance(king.position, to) != 1
    requires !IsCastlingShape(king, to)
    ensures !KingAllowed(b, king, to)
  {
  }

  /** King-side castling from the home square is allowed exactly when the
      right is held and f and g are empty. */
  lemma KingSideCastleIff(b: BoardData, king: ChessPiece)
    requires king.position == KingHome(king.color)
    ensures KingAllowed(b, king, KingSideTarget(king.color))
        <==> (&& KingSideRight(king.color) in b.castling
              && IsEmpty(b, Pos(5, HomeRank(king.color)))
              && IsEmpty(b, Pos(6, HomeRank(king.color))))
  {
  }

  /** Queen-side castling from the home square is allowed exactly when the
      right is held and b, c and d are empty. */
  lemma QueenSideCastleIff(b: BoardData, king: ChessPiece)
    requires king.position == KingHome(king.color)
    ensures KingAllowed(b, king, QueenSideTarget(king.color))
        <==> (&& QueenSideRight(king.color) in b.castling
              && IsEmpty(b, Pos(1, HomeRank(king.color)))
              && IsEmpty(b, Pos(2, HomeRank(king.color)))
              && IsEmpty(b, Pos(3, HomeRank(king.color))))
  {
  }

  /** Revoking a castling right never enables a move: whatever the king may
      do afterwards it could already do before. */
  lemma RevokeNeverEnables(b: BoardData, king: ChessPiece, right: CastlingAvailability, to: Pos)
    ensures KingAllowed(RemoveRight(b, right), king, to) ==> KingAllowed(b, king, to)
  {
  }

  /** From the home square, revoking a wing's right disables that wing's
      castle even when the path between king and rook is clear. */
  lemma RevokeDisablesCastle(b: BoardData, king: ChessPiece, right: CastlingAvailability)
    requires king.position == KingHome(king.color)
    ensures right == KingSideRight(king.color) ==> !KingAllowed(RemoveRight(b, right), king, KingSideTarget(king.color))
    ensures right == QueenSideRight(king.color) ==> !KingAllowed(RemoveRight(b, right), king, QueenSideTarget(king.color))
  {
  }
}
