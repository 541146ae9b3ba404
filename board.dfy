/** Pieces, cells, squares and the 9x9 board shared by the live engine (pages/index.js)
    and the older draft (lib/game.js). Both programs store a board as nine rows of nine
    one-character piece strings; this module gives those strings a datatype. */
module Board {

  datatype Option<T> = None | Some(value: T)

  datatype Kind = Pawn | Lance | Knight | Silver | Gold | Bishop | Rook | King

  /** A piece string such as "p", "R" or "S+": the case of the letter is `upper`, a
      trailing '+' is `promoted`. In the live engine upper case is Gote; in the draft it
      is 'player'. */
  datatype Piece = Piece(kind: Kind, upper: bool, promoted: bool)

  /** A board cell: the string " " or a piece string. */
  datatype Cell = Empty | Occupied(piece: Piece)

  /** The live engine's two players: Gote writes upper case and moves toward row 0,
      Sente writes lower case and moves toward row 8. */
  datatype Side = Gote | Sente

  /** A `[row, col]` pair; the board is indexed `board[row][col]`. */
  datatype Square = Square(row: int, col: int)

  type Board = b: seq<seq<Cell>> | |b| == 9 && forall i :: 0 <= i < 9 ==> |b[i]| == 9
    witness seq(9, _ => seq(9, _ => Empty))

  predicate InBounds(r: int, c: int) { 0 <= r < 9 && 0 <= c < 9 }

  predicate OnBoard(s: Square) { InBounds(s.row, s.col) }

  /** The board with one cell replaced (the source's copy-then-assign of one cell). */
  function Place(b: Board, r: int, c: int, cell: Cell): (b': Board)
    requires InBounds(r, c)
    ensures b'[r][c] == cell
    ensures forall i, j :: 0 <= i < 9 && 0 <= j < 9 && (i != r || j != c) ==> b'[i][j] == b[i][j]
  {
    b[r := b[r][c := cell]]
  }

  function LowerLetter(k: Kind): char {
    match k
    case Pawn => 'p'
    case Lance => 'l'
    case Knight => 'n'
    case Silver => 's'
    case Gold => 'g'
    case Bishop => 'b'
    case Rook => 'r'
    case King => 'k'
  }

  function UpperLetter(k: Kind): char {
    match k
    case Pawn => 'P'
    case Lance => 'L'
    case Knight => 'N'
    case Silver => 'S'
    case Gold => 'G'
    case Bishop => 'B'
    case Rook => 'R'
    case King => 'K'
  }

  /** The string the source stores for a cell. */
  function Text(c: Cell): string {
    match c
    case Empty => " "
    case Occupied(p) =>
      [if p.upper then UpperLetter(p.kind) else LowerLetter(p.kind)] + (if p.promoted then "+" else "")
  }

  /** `piece === piece.toUpperCase()`: true of " " and of every upper-case piece. */
  predicate IsUpperCell(c: Cell) { c.Empty? || c.piece.upper }

  /** `piece === piece.toLowerCase()`: true of " " and of every lower-case piece. */
  predicate IsLowerCell(c: Cell) { c.Empty? || !c.piece.upper }

  function ToUpper(c: Cell): Cell {
    match c
    case Empty => Empty
    case Occupied(p) => Occupied(p.(upper := true))
  }

  function ToLower(c: Cell): Cell {
    match c
    case Empty => Empty
    case Occupied(p) => Occupied(p.(upper := false))
  }

  /** `piece.replace("+", "")`. */
  function Demote(c: Cell): Cell {
    match c
    case Empty => Empty
    case Occupied(p) => Occupied(p.(promoted := false))
  }

  function Other(s: Side): Side {
    if s == Gote then Sente else Gote
  }

  /** The king string of a side: "K" for Gote, "k" for Sente. */
  function KingOf(s: Side): Piece {
    Piece(King, s == Gote, false)
  }

  /** The player whose pieces the live engine counts as `side`'s own: upper case (and " ")
      for Gote, lower case (and " ") for Sente. */
  predicate OwnCell(c: Cell, side: Side) {
    if side == Gote then IsUpperCell(c) else IsLowerCell(c)
  }

  /** The cells the live engine scans as `side`'s opponents: the other case, and " ". */
  predicate OpposingCell(c: Cell, side: Side) {
    if side == Gote then IsLowerCell(c) else IsUpperCell(c)
  }

  function BackRow(upper: bool): seq<Cell> {
    var pc := (kd: Kind) => Occupied(Piece(kd, upper, false));
    [pc(Lance), pc(Knight), pc(Silver), pc(Gold), pc(King), pc(Gold), pc(Silver), pc(Knight), pc(Lance)]
  }

  /** The opening position of both programs: lower case on rows 0-2, upper case on rows 6-8. */
  function InitialBoard(): Board {
    var e := seq(9, _ => Empty);
    var lo := (k: Kind) => Occupied(Piece(k, false, false));
    var up := (k: Kind) => Occupied(Piece(k, true, false));
    [ BackRow(false),
      [Empty, lo(Rook), Empty, Empty, Empty, Empty, Empty, lo(Bishop), Empty],
      seq(9, _ => lo(Pawn)),
      e, e, e,
      seq(9, _ => up(Pawn)),
      [Empty, up(Bishop), Empty, Empty, Empty, Empty, Empty, up(Rook), Empty],
      BackRow(true) ]
  }
}
