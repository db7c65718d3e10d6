/**
  The browser client's pure board helpers (public/js/chessgame.js): square
  naming, the queen-promotion default, the piece-image names, square shading,
  the draggable and flip rules, and the checkmate winner.
*/
module Board {
  import opened Wrappers
  import opened Chess

  /** A row or column index of the 8x8 board as rendered: row 0 is drawn first. */
  type Coord = i: int | 0 <= i < 8

  datatype Square = Square(row: Coord, col: Coord)

  /** The piece types of the engine: "p", "r", "n", "b", "q", "k". */
  datatype Kind = Pawn | Rook | Knight | Bishop | Queen | King

  /** A piece as the engine reports it: a side and a type. */
  datatype Piece = Piece(color: Color, kind: Kind)

  /** The move object sent to the server: `from`, `to` and an optional `promotion`. */
  datatype MoveRequest = MoveRequest(from: string, to: string, promotion: Option<string>)

  /**
    The algebraic name of a board square: the file letter `'a' + col` then
    the rank digit `8 - row`, so row 0 is rank 8 and row 7 is rank 1.
  */
  function SquareName(sq: Square): (name: string)
    ensures |name| == 2
    ensures 'a' <= name[0] <= 'h' && '1' <= name[1] <= '8'
    ensures name[0] as int - 'a' as int == sq.col
    ensures '8' as int - name[1] as int == sq.row
  {
    [(97 + sq.col) as char, ('0' as int + (8 - sq.row)) as char]
  }

  /** The square an algebraic name denotes, for names of the form file letter then rank digit. */
  function ParseSquare(name: string): (r: Option<Square>)
    ensures r.Some? <==> |name| == 2 && 'a' <= name[0] <= 'h' && '1' <= name[1] <= '8'
  {
    if |name| == 2 && 'a' <= name[0] <= 'h' && '1' <= name[1] <= '8' then
      Some(Square('8' as int - name[1] as int, name[0] as int - 'a' as int))
    else None
  }

  /** Naming a square and reading the name back gives the square. */
  lemma SquareNameRoundTrip(sq: Square)
    ensures ParseSquare(SquareName(sq)) == Some(sq)
  {
  }

  /** Every well-formed name is the name of the square it denotes. */
  lemma ParseSquareRoundTrip(name: string)
    requires ParseSquare(name).Some?
    ensures SquareName(ParseSquare(name).value) == name
  {
  }

  /** Distinct squares have distinct names. */
  lemma SquareNameInjective(a: Square, b: Square)
    requires SquareName(a) == SquareName(b)
    ensures a == b
  {
  }

  /**
    The move built on a drop: `from` and `to` name the source and target
    squares, and the promotion "q" is added exactly when the engine reports a
    pawn on the source square and the target lies on rank 8 or rank 1 (row 0
    or row 7), whatever the pawn's side.
  */
  function HandleMove(source: Square, target: Square, pieceAt: string -> Option<Piece>): (m: MoveRequest)
    ensures ParseSquare(m.from) == Some(source) && ParseSquare(m.to) == Some(target)
    ensures m.promotion.Some? <==>
      pieceAt(m.from).Some? && pieceAt(m.from).value.kind == Pawn && (target.row == 0 || target.row == 7)
    ensures m.promotion.Some? ==> m.promotion.value == "q"
  {
    SquareNameRoundTrip(source);
    SquareNameRoundTrip(target);
    var from, to := SquareName(source), SquareName(target);
    var piece := pieceAt(from);
    if piece.Some? && piece.value.kind == Pawn && (to[1] == '8' || to[1] == '1') then
      MoveRequest(from, to, Some("q"))
    else
      MoveRequest(from, to, None)
  }

  /** The engine's side letter. */
  function ColorLetter(c: Color): char
  {
    if c == White then 'w' else 'b'
  }

  /** The engine's (lower-case) piece-type letter. */
  function KindLetter(k: Kind): char
  {
    match k
    case Pawn => 'p'
    case Rook => 'r'
    case Knight => 'n'
    case Bishop => 'b'
    case Queen => 'q'
    case King => 'k'
  }

  /** `toUpperCase` and `toLowerCase` on one ASCII character. */
  function ToUpper(c: char): char
  {
    if 'a' <= c <= 'z' then (c as int - 32) as char else c
  }

  function ToLower(c: char): char
  {
    if 'A' <= c <= 'Z' then (c as int + 32) as char else c
  }

  /** The key into `pieceMap`: the type letter upper-cased for white, lower-cased for black. */
  function PieceKey(p: Piece): char
  {
    if p.color == White then ToUpper(KindLetter(p.kind)) else ToLower(KindLetter(p.kind))
  }

  /** The `pieceMap` table from FEN piece letters to image names. */
  const PieceMap: map<char, string> := map[
    'p' := "bp", 'r' := "br", 'n' := "bn", 'b' := "bb", 'q' := "bq", 'k' := "bk",
    'P' := "wp", 'R' := "wr", 'N' := "wn", 'B' := "wb", 'Q' := "wq", 'K' := "wk"]

  /**
    The image name of a piece: the table lookup always succeeds and yields the
    side letter followed by the lower-case type letter.
  */
  function ImageName(p: Piece): (name: string)
    ensures |name| == 2 && name[0] == ColorLetter(p.color) && name[1] == KindLetter(p.kind)
  {
    PieceMap[PieceKey(p)]
  }

  /** Different pieces get different images. */
  lemma ImageNameInjective(p: Piece, q: Piece)
    requires ImageName(p) == ImageName(q)
    ensures p == q
  {
  }

  /** A square is drawn light when its row and column sum to an even number. */
  predicate IsLight(sq: Square): (light: bool)
    ensures light <==> sq.row % 2 == sq.col % 2
  {
    (sq.row + sq.col) % 2 == 0
  }

  predicate Adjacent(a: Square, b: Square)
  {
    (a.row == b.row && (a.col == b.col + 1 || b.col == a.col + 1)) ||
    (a.col == b.col && (a.row == b.row + 1 || b.row == a.row + 1))
  }

  /** Horizontally or vertically neighbouring squares always differ in shade. */
  lemma AdjacentSquaresDifferInShade(a: Square, b: Square)
    requires Adjacent(a, b)
    ensures IsLight(a) != IsLight(b)
  {
  }

  /**
    A piece may be dragged when the client's role string equals the piece's
    side letter; a client without a role drags nothing.
  */
  predicate Draggable(role: Option<Color>, p: Piece): (r: bool)
    ensures r <==> role.Some? && ColorLetter(role.value) == ColorLetter(p.color)
  {
    role == Some(p.color)
  }

  /** The board is drawn upside down exactly when the role string is "b". */
  predicate Flipped(role: Option<Color>): (r: bool)
    ensures r <==> role.Some? && ColorLetter(role.value) == 'b'
  {
    role == Some(Black)
  }

  /**
    The side whose pieces the client may drag is the side drawn nearest to
    it: black on a flipped board, white on an unflipped one.
  */
  lemma FlipMatchesOwnSide(role: Option<Color>, p: Piece)
    requires Draggable(role, p)
    ensures Flipped(role) <==> p.color == Black
  {
  }

  /** On checkmate the side to move has lost: the winner is the other side. */
  function CheckmateWinner(turn: Color): (winner: Color)
    ensures winner != turn
  {
    if turn == White then Black else White
  }
}
