/** The immutable move value: a source square, an end square and an optional
    promotion piece type. Being a datatype, a move cannot change once built. */
module ChessMoves {
  import opened Optional
  import opened Position
  import opened Pieces

  datatype ChessMove = ChessMove(source: Pos, end: Pos, promotion: Option<PieceType>)

  /** The two-position constructor: no promotion. */
  function FromPositions(source: Pos, end: Pos): (m: ChessMove)
    ensures m.source == source && m.end == end
    ensures m.promotion == None
  {
    ChessMove(source, end, None)
  }

  /** The three-argument constructor: the promotion is kept as given, absent included. */
  function WithPromotion(source: Pos, end: Pos, promotion: Option<PieceType>): (m: ChessMove)
    ensures m.source == source && m.end == end
    ensures m.promotion == promotion
    ensures promotion == None ==> m == FromPositions(source, end)
  {
    ChessMove(source, end, promotion)
  }

  /** The string constructor: both names are parsed as squares; a malformed
      name is an invalid coordinate, so no move is built. */
  function FromStrings(source: string, end: string): (r: Option<ChessMove>)
    ensures r.Some? <==> Parse(source).Some? && Parse(end).Some?
    ensures r.Some? ==> Name(r.value.source) == source && Name(r.value.end) == end
    ensures r.Some? ==> r.value.promotion == None
  {
    var s := Parse(source);
    var e := Parse(end);
    if s.Some? && e.Some? then Some(FromPositions(s.value, e.value)) else None
  }

  /** Naming the squares of a promotion-free move and building a move from
      those names reproduces the move. */
  lemma FromStringsRoundTrip(m: ChessMove)
    requires m.promotion == None
    ensures FromStrings(Name(m.source), Name(m.end)) == Some(m)
  {
    ParseName(m.source);
    ParseName(m.end);
  }

  /** The string constructor agrees with the position constructor applied to
      the parsed squares: any move it builds is that one. */
  lemma FromStringsIsFromPositions(source: string, end: string, s: Pos, e: Pos)
    requires Name(s) == source && Name(e) == end
    ensures FromStrings(source, end) == Some(FromPositions(s, e))
  {
  }
}
