/** Board coordinates: a file/rank pair on the 8x8 board and its two-character
    algebraic name (`a1` .. `h8`). */
module Position {
  import opened Optional

  /** A file or rank index, 0 through 7. */
  type Coord = i: int | 0 <= i < 8

  /** File 0 is the a-file, rank 0 is the first rank (white's home rank). */
  datatype Pos = Pos(file: Coord, rank: Coord)

  function Abs(x: int): nat {
    if x < 0 then -x else x
  }

  /** Number of king steps between two squares (Chebyshev distance). */
  function Distance(a: Pos, b: Pos): (d: nat) {
    var df := Abs(a.file - b.file);
    var dr := Abs(a.rank - b.rank);
    if df < dr then dr else df
  }

  /** The algebraic name of a square, e.g. `Pos(4, 0)` is "e1". */
  function Name(p: Pos): (name: string) {
    [('a' as int + p.file) as char, ('1' as int + p.rank) as char]
  }

  /** Parses an algebraic square name; any string other than `[a-h][1-8]`
      is an invalid coordinate. Parsing is the exact inverse of `Name`. */
  function Parse(s: string): (r: Option<Pos>)
    ensures r.Some? ==> Name(r.value) == s
    ensures forall p :: Name(p) == s ==> r == Some(p)
  {
    if |s| == 2 && 'a' <= s[0] <= 'h' && '1' <= s[1] <= '8' then
      Some(Pos(s[0] as int - 'a' as int, s[1] as int - '1' as int))
    else
      None
  }

  /** Formatting a square and parsing it back yields the square. */
  lemma ParseName(p: Pos)
    ensures Parse(Name(p)) == Some(p)
  {
  }
}
