/** Coordinates, sides and the constants of the chess board (the static
    helpers and constants of class ChessBoard). A coordinate is a pair
    (rank, file): rank 0 is the first rank ('1'), file 0 is file 'A'. */
module Coords {

  /** (rank, file); the source's std::pair<int, int>. */
  type Coord = (int, int)

  const SIDE: int := 2
  const WHITE: int := 0
  const BLACK: int := 1
  const UNKNOWN: int := -1
  const ROW: int := 8
  const COL: int := 8

  /** A side index: WHITE or BLACK. */
  type Side = s: int | 0 <= s < 2

  /** The square off the board that the source uses as "no square". */
  const NoSquare: Coord := (-1, -1)

  /** Reads a two-character square name such as "A1": the rank comes from
      the second character and the file from the first. Any string whose
      length is not 2 gives (-1, -1). Characters are not range-checked here;
      CheckCoord does that. */
  function StrCoord(s: string): (p: Coord)
    ensures |s| != 2 ==> p == NoSquare
    ensures |s| == 2 ==> p.0 + '1' as int == s[1] as int && p.1 + 'A' as int == s[0] as int
  {
    if |s| != 2 then NoSquare else (s[1] as int - '1' as int, s[0] as int - 'A' as int)
  }

  /** One character of a square name: the source builds it from an int
      converted to char, which keeps the low eight bits. */
  function ByteChar(x: int): (ch: char)
    ensures ch as int < 256
    ensures 0 <= x < 256 ==> ch as int == x
  {
    (x % 256) as char
  }

  /** Writes a coordinate back as a square name: file letter, then rank digit. */
  function CoordStr(p: Coord): (s: string)
    ensures |s| == 2
    ensures CheckCoord(p) ==> 'A' <= s[0] <= 'H' && '1' <= s[1] <= '8'
  {
    [ByteChar(p.1 + 'A' as int), ByteChar(p.0 + '1' as int)]
  }

  /** A coordinate is on the board iff both parts lie in [0, 8). */
  predicate CheckCoord(p: Coord) {
    0 <= p.0 < ROW && 0 <= p.1 < COL
  }

  /** The display name of a side: 0 is White, every other value Black. */
  function GetPlayer(side: int): (name: string)
    ensures side == WHITE <==> name == "White"
    ensures side != WHITE <==> name == "Black"
  {
    if side != 0 then "Black" else "White"
  }

  /** The corner square "A1" is the origin. */
  lemma StrCoordOrigin()
    ensures StrCoord("A1") == (0, 0)
    ensures StrCoord("H8") == (7, 7)
    ensures StrCoord("E1") == (0, 4) && StrCoord("E8") == (7, 4)
  {
  }

  /** Writing an on-board coordinate and reading it back gives it again. */
  lemma CoordRoundTrip(p: Coord)
    requires CheckCoord(p)
    ensures StrCoord(CoordStr(p)) == p
  {
  }

  /** Every name that reads as an on-board coordinate is written back
      unchanged, so names and squares are in one-to-one correspondence. */
  lemma NameRoundTrip(s: string)
    requires CheckCoord(StrCoord(s))
    ensures |s| == 2 && CoordStr(StrCoord(s)) == s
  {
  }

  /** The names accepted as squares are exactly the letter 'A'..'H'
      followed by the digit '1'..'8'. */
  lemma ValidNames(s: string)
    ensures CheckCoord(StrCoord(s)) <==> |s| == 2 && 'A' <= s[0] <= 'H' && '1' <= s[1] <= '8'
  {
  }
}
