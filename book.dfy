/** The opening books and the move hash: `openingBook` and `hashMove` of
    lib/openingBook.js, and the live engine's own copies of both (pages/index.js:9-61),
    which add two openings and a guard to the hash. */
module OpeningBook {
  import opened Board

  /** One book entry `{ from, to, piece }`, coordinates `[row, col]`. */
  datatype BookMove = BookMove(from: Square, to: Square, piece: Piece)

  /** A named line of alternating Sente and Gote moves. */
  datatype Opening = Opening(name: string, sequence: seq<BookMove>)

  /** A lower-case (Sente) piece string of the book. */
  function Lo(k: Kind): Piece { Piece(k, false, false) }

  /** An upper-case (Gote) piece string of the book. */
  function Up(k: Kind): Piece { Piece(k, true, false) }

  function Mv(fromRow: int, fromCol: int, toRow: int, toCol: int, p: Piece): BookMove {
    BookMove(Square(fromRow, fromCol), Square(toRow, toCol), p)
  }

  /** `openingBook` of lib/openingBook.js. */
  function LibBook(): seq<Opening> {
    [ Opening("Yagura (矢倉)", LibYagura()),
      Opening("Double Wing Attack (相掛かり)", LibDoubleWing()) ]
  }

  function LibYagura(): seq<BookMove> {
    [ Mv(6, 6, 5, 6, Lo(Pawn)), Mv(2, 2, 3, 2, Up(Pawn)),
      Mv(8, 5, 7, 5, Lo(Gold)), Mv(0, 3, 1, 3, Up(Gold)),
      Mv(8, 2, 7, 3, Lo(Silver)), Mv(0, 6, 1, 5, Up(Silver)),
      Mv(6, 1, 5, 1, Lo(Pawn)), Mv(2, 7, 3, 7, Up(Pawn)) ]
  }

  function LibDoubleWing(): seq<BookMove> {
    [ Mv(6, 1, 5, 1, Lo(Pawn)), Mv(2, 7, 3, 7, Up(Pawn)),
      Mv(6, 7, 5, 7, Lo(Pawn)), Mv(2, 1, 3, 1, Up(Pawn)),
      Mv(7, 7, 5, 7, Lo(Rook)), Mv(1, 1, 3, 1, Up(Rook)) ]
  }

  /** The live engine's `openingBook`. */
  function LiveBook(): seq<Opening> {
    [ Opening("Yagura", LiveYagura()),
      Opening("Double Wing Attack", LiveDoubleWing()),
      Opening("Static Rook", LiveStaticRook()),
      Opening("Fourth File Rook", LiveFourthFileRook()) ]
  }

  function LiveYagura(): seq<BookMove> {
    [ Mv(6, 6, 5, 6, Lo(Pawn)), Mv(2, 2, 3, 2, Up(Pawn)),
      Mv(8, 5, 7, 5, Lo(Gold)), Mv(0, 3, 1, 3, Up(Gold)),
      Mv(8, 2, 7, 3, Lo(Silver)), Mv(0, 6, 1, 5, Up(Silver)),
      Mv(6, 1, 5, 1, Lo(Pawn)), Mv(2, 7, 3, 7, Up(Pawn)) ]
  }

  function LiveDoubleWing(): seq<BookMove> {
    [ Mv(6, 1, 5, 1, Lo(Pawn)), Mv(2, 7, 3, 7, Up(Pawn)),
      Mv(6, 7, 5, 7, Lo(Pawn)), Mv(2, 1, 3, 1, Up(Pawn)),
      Mv(7, 7, 5, 7, Lo(Rook)), Mv(1, 1, 3, 1, Up(Rook)) ]
  }

  function LiveStaticRook(): seq<BookMove> {
    [ Mv(6, 6, 5, 6, Lo(Pawn)), Mv(2, 2, 3, 2, Up(Pawn)),
      Mv(7, 7, 6, 7, Lo(Rook)), Mv(1, 1, 2, 1, Up(Rook)),
      Mv(8, 6, 7, 6, Lo(Gold)), Mv(0, 2, 1, 2, Up(Gold)) ]
  }

  function LiveFourthFileRook(): seq<BookMove> {
    [ Mv(6, 3, 5, 3, Lo(Pawn)), Mv(2, 5, 3, 5, Up(Pawn)),
      Mv(7, 7, 7, 3, Lo(Rook)), Mv(1, 1, 1, 5, Up(Rook)),
      Mv(8, 3, 7, 3, Lo(Silver)), Mv(0, 5, 1, 5, Up(Silver)) ]
  }

  /** A line whose coordinates all lie on the board and which alternates a lower-case
      (Sente) and an upper-case (Gote) piece, Sente first, naming only unpromoted pieces. */
  predicate WellFormedLine(line: seq<BookMove>) {
    forall i :: 0 <= i < |line| ==>
      OnBoard(line[i].from) && OnBoard(line[i].to)
      && line[i].piece.upper == (i % 2 == 1) && !line[i].piece.promoted
  }

  /** Every line of the book is well formed. */
  predicate WellFormedBook(book: seq<Opening>) {
    forall o :: o in book ==> WellFormedLine(o.sequence)
  }

  lemma LibBookWellFormed()
    ensures WellFormedBook(LibBook())
  {
    LiveBookExtendsLibBook();
    YaguraWellFormed();
    DoubleWingWellFormed();
  }

  lemma LiveBookWellFormed()
    ensures WellFormedBook(LiveBook())
  {
    YaguraWellFormed();
    DoubleWingWellFormed();
    assert WellFormedLine(LiveStaticRook());
    FourthFileRookWellFormed();
  }

  lemma YaguraWellFormed()
    ensures WellFormedLine(LiveYagura())
  {
  }

  lemma DoubleWingWellFormed()
    ensures WellFormedLine(LiveDoubleWing())
  {
  }

  lemma FourthFileRookWellFormed()
    ensures WellFormedLine(LiveFourthFileRook())
  {
  }

  /** The live engine's first two lines are those of lib/openingBook.js, entry for entry;
      only the names lost their Japanese glosses. */
  lemma LiveBookExtendsLibBook()
    ensures |LiveBook()| == |LibBook()| + 2
    ensures forall i :: 0 <= i < |LibBook()| ==> LiveBook()[i].sequence == LibBook()[i].sequence
    ensures LibYagura() == LiveYagura() && LibDoubleWing() == LiveDoubleWing()
  {
  }

  // ---------------------------------------------------------------------------------
  // The hash

  function DigitChar(d: int): char
    requires 0 <= d < 10
  {
    (48 + d) as char
  }

  /** The decimal digits of a natural number, as a template string prints it. */
  function Digits(n: nat): (s: string)
    ensures |s| >= 1
    ensures n < 10 ==> s == [DigitChar(n)]
  {
    if n < 10 then [DigitChar(n)] else Digits(n / 10) + [DigitChar(n % 10)]
  }

  /** `${n}` for an integer. */
  function NumberText(n: int): (s: string)
    ensures |s| >= 1
  {
    if n < 0 then "-" + Digits(-n) else Digits(n)
  }

  /** `hashMove({ from, to, piece })` of lib/openingBook.js: the four coordinates printed
      one after another, then the piece string. With coordinates on the board that is four
      digits followed by the piece. */
  function HashMove(from: Square, to: Square, piece: string): (h: string)
    ensures |h| >= 4 + |piece| && h[|h| - |piece|..] == piece
    ensures OnBoard(from) && OnBoard(to) ==>
      h == [DigitChar(from.row), DigitChar(from.col), DigitChar(to.row), DigitChar(to.col)] + piece
  {
    NumberText(from.row) + NumberText(from.col) + NumberText(to.row) + NumberText(to.col) + piece
  }

  /** The live engine's `hashMove`: the empty string when `from` or `to` is missing or the
      piece is the empty string, the library's hash otherwise. */
  function LiveHashMove(from: Option<Square>, to: Option<Square>, piece: string): (h: string)
    ensures h == "" <==> from.None? || to.None? || piece == ""
    ensures h != "" ==> h == HashMove(from.value, to.value, piece)
  {
    if from.None? || to.None? || piece == "" then "" else HashMove(from.value, to.value, piece)
  }

  /** On the board, the hash tells moves apart: equal hashes mean equal origins, targets
      and pieces. */
  lemma HashInjective(f1: Square, t1: Square, p1: string, f2: Square, t2: Square, p2: string)
    requires OnBoard(f1) && OnBoard(t1) && OnBoard(f2) && OnBoard(t2)
    requires HashMove(f1, t1, p1) == HashMove(f2, t2, p2)
    ensures f1 == f2 && t1 == t2 && p1 == p2
  {
    var h1 := HashMove(f1, t1, p1);
    var h2 := HashMove(f2, t2, p2);
    assert h1[0] == h2[0] && h1[1] == h2[1] && h1[2] == h2[2] && h1[3] == h2[3];
    assert h1[4..] == p1 && h2[4..] == p2;
  }

  /** Off the board it does not: coordinates of two digits run into their neighbours. */
  lemma HashCollidesOffBoard()
    ensures HashMove(Square(1, 12), Square(3, 4), "p") == HashMove(Square(11, 2), Square(3, 4), "p")
    ensures Square(1, 12) != Square(11, 2)
  {
    assert Digits(12) == "12" && Digits(11) == "11";
  }
}
