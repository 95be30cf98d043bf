/**
 * The board geometry of pkg/client.go: how a cell of the on-screen table
 * becomes a square of the chess engine, depending on the side the local
 * player plays, and the engine's algebraic names of squares.
 */
module Board {
  import opened Messages

  const NumRows := 8
  const NumCols := 8

  /**
   * A square of the engine: A1 is 0, B1 is 1, ..., H8 is 63. The engine's
   * Square is an 8-bit signed integer, so a conversion keeps only the low
   * byte of its argument.
   */
  type Square = int

  /** Go's conversion of an integer to int8: two's-complement truncation to the low byte. */
  function Int8(x: int): (r: int)
    ensures -128 <= r < 128
    ensures (x - r) % 256 == 0
  {
    (x + 128) % 256 - 128
  }

  /** A cell of the table that holds a square: row 8 shows the file letters and column 0 the rank digits. */
  predicate OnBoardCell(row: int, col: int) {
    0 <= row < NumRows && 1 <= col <= NumCols
  }

  predicate IsSquare(sq: Square) {
    0 <= sq < 64
  }

  function Rank(sq: Square): int { sq / 8 }
  function File(sq: Square): int { sq % 8 }

  /**
   * posToSquare: the square shown at a table cell. Unless the player is
   * Black, table row 0 shows the eighth rank; column 0 is the rank gutter.
   */
  function PosToSquare(row: int, col: int, role: PlayerRole): (sq: Square)
    ensures -128 <= sq < 128
    ensures OnBoardCell(row, col) ==> IsSquare(sq)
    ensures OnBoardCell(row, col) ==> File(sq) == col - 1
    ensures OnBoardCell(row, col) ==> Rank(sq) == if role != Black then NumRows - 1 - row else row
  {
    var r := if role != Black then NumRows - row - 1 else row;
    var c := col - 1;
    Int8(r * 8 + c)
  }

  /** The cell that shows a square: the inverse of PosToSquare on the board. */
  function SquareToPos(sq: Square, role: PlayerRole): (pos: (int, int))
    requires IsSquare(sq)
    ensures OnBoardCell(pos.0, pos.1)
  {
    (if role != Black then NumRows - 1 - Rank(sq) else Rank(sq), File(sq) + 1)
  }

  /** Every board cell shows one square, and going back gives the same cell. */
  lemma PosToSquareRoundTrip(row: int, col: int, role: PlayerRole)
    requires OnBoardCell(row, col)
    ensures SquareToPos(PosToSquare(row, col, role), role) == (row, col)
  {
  }

  /** Every square is shown by some board cell. */
  lemma SquareToPosRoundTrip(sq: Square, role: PlayerRole)
    requires IsSquare(sq)
    ensures PosToSquare(SquareToPos(sq, role).0, SquareToPos(sq, role).1, role) == sq
  {
  }

  /** For each role the board cells and the squares correspond one to one. */
  lemma PosToSquareInjective(row1: int, col1: int, row2: int, col2: int, role: PlayerRole)
    requires OnBoardCell(row1, col1) && OnBoardCell(row2, col2)
    requires PosToSquare(row1, col1, role) == PosToSquare(row2, col2, role)
    ensures row1 == row2 && col1 == col2
  {
  }

  /** The White and Black views are the same board flipped upside down. */
  lemma OrientationFlip(row: int, col: int)
    requires OnBoardCell(row, col)
    ensures PosToSquare(row, col, White) == PosToSquare(NumRows - 1 - row, col, Black)
  {
  }

  /** The top-left board cell is a8 for White and a1 for Black. */
  lemma TopLeftCell()
    ensures SquareName(PosToSquare(0, 1, White)) == "a8"
    ensures SquareName(PosToSquare(0, 1, Black)) == "a1"
  {
  }

  const FileNames := "abcdefgh"
  const RankNames := "12345678"

  /** The engine's algebraic name of a square: its file letter, then its rank digit. */
  function SquareName(sq: Square): (s: string)
    requires IsSquare(sq)
    ensures |s| == 2
    ensures 'a' <= s[0] <= 'h' && '1' <= s[1] <= '8'
  {
    [FileNames[File(sq)], RankNames[Rank(sq)]]
  }

  /** The rank digit of a name reads back the square's rank. */
  lemma SquareNameRank(sq: Square)
    requires IsSquare(sq)
    ensures SquareName(sq)[1] as int - '1' as int == Rank(sq)
  {
  }

  /** The file letter of a name reads back the square's file. */
  lemma SquareNameFile(sq: Square)
    requires IsSquare(sq)
    ensures SquareName(sq)[0] as int - 'a' as int == File(sq)
  {
  }

  /** Different squares have different names. */
  lemma SquareNameInjective(a: Square, b: Square)
    requires IsSquare(a) && IsSquare(b)
    ensures SquareName(a) == SquareName(b) <==> a == b
  {
  }
}
