/** The board data the movement rules read: which piece stands on each
    occupied square, and which castling rights are still held. */
module Board {
  import opened Optional
  import opened Position
  import opened Pieces

  datatype CastlingAvailability = WhiteKingSide | WhiteQueenSide | BlackKingSide | BlackQueenSide

  /** A square is absent from `pieces` exactly when it is empty, so a square
      never holds two pieces. */
  datatype BoardData = BoardData(pieces: map<Pos, Piece>, castling: set<CastlingAvailability>)

  function PieceAt(b: BoardData, p: Pos): (x: Option<Piece>) {
    if p in b.pieces then Some(b.pieces[p]) else None
  }

  predicate IsEmpty(b: BoardData, p: Pos) {
    p !in b.pieces
  }

  /** The piece type standing on file `f` of a home rank in the start position. */
  function BackRankPiece(f: Coord): PieceType {
    if f == 0 || f == 7 then Rook
    else if f == 1 || f == 6 then Knight
    else if f == 2 || f == 5 then Bishop
    else if f == 3 then Queen
    else King
  }

  function StartPiece(f: Coord, r: Coord): Piece
    requires r == 0 || r == 1 || r == 6 || r == 7
  {
    if r == 0 then Piece(White, BackRankPiece(f))
    else if r == 1 then Piece(White, Pawn)
    else if r == 6 then Piece(Black, Pawn)
    else Piece(Black, BackRankPiece(f))
  }

  /** The standard start position with all four castling rights. */
  function DefaultBoard(): (b: BoardData)
    ensures forall p: Pos :: p in b.pieces <==> p.rank in {0, 1, 6, 7}
    ensures b.castling == {WhiteKingSide, WhiteQueenSide, BlackKingSide, BlackQueenSide}
  {
    var pieces := map f: Coord, r: Coord | 0 <= f < 8 && (r == 0 || r == 1 || r == 6 || r == 7)
                    :: Pos(f, r) := StartPiece(f, r);
    assert forall p: Pos :: p.rank in {0, 1, 6, 7} ==> p == Pos(p.file, p.rank) && p in pieces;
    BoardData(pieces, {WhiteKingSide, WhiteQueenSide, BlackKingSide, BlackQueenSide})
  }

  /** Puts `x` on square `p` (or clears it when `x` is absent); every other
      square and the castling rights are untouched. */
  function SetPiece(b: BoardData, p: Pos, x: Option<Piece>): (b': BoardData)
    ensures PieceAt(b', p) == x
    ensures forall q :: q != p ==> PieceAt(b', q) == PieceAt(b, q)
    ensures b'.castling == b.castling
  {
    match x
    case Some(piece) => b.(pieces := b.pieces[p := piece])
    case None => b.(pieces := b.pieces - {p})
  }

  /** Revokes one castling right; the pieces are untouched. */
  function RemoveRight(b: BoardData, right: CastlingAvailability): (b': BoardData)
    ensures right !in b'.castling
    ensures forall r :: r != right ==> (r in b'.castling <==> r in b.castling)
    ensures b'.pieces == b.pieces
  {
    b.(castling := b.castling - {right})
  }
}
