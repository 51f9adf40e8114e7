/** Piece colours and types, and the positioned piece object that the
    movement rules are asked about. */
module Pieces {
  import opened Position

  datatype Color = White | Black {
    function Opponent(): (c: Color)
      ensures c != this
    {
      if this == White then Black else White
    }
  }

  datatype PieceType = Pawn | Knight | Bishop | Rook | Queen | King

  /** What a board square holds. */
  datatype Piece = Piece(color: Color, kind: PieceType)

  /** A piece together with the square it stands on. */
  datatype ChessPiece = ChessPiece(color: Color, kind: PieceType, position: Pos) {
    function AsPiece(): Piece {
      Piece(color, kind)
    }
  }

  /** The King constructor: a piece of the given colour and square whose
      type tag is KING. */
  function NewKing(color: Color, position: Pos): (k: ChessPiece)
    ensures k.kind == King
    ensures k.color == color && k.position == position
  {
    ChessPiece(color, King, position)
  }
}
