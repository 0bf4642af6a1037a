/**
 * `Position::from_fen` (crates/chess_core/src/board.rs): the Forsyth-Edwards
 * Notation parser. The fields are split on whitespace; the placement is
 * read rank by rank (rank 8 first) with a file counter, digits skipping
 * empty squares and letters placing pieces; then the side to move, the
 * castling letters, the en-passant square and the two optional clocks.
 * Every `panic!`/`assert!`/`expect` of the source is an `Err` here.
 *
 * A FEN writer (`ToFen`) is defined as an independent reference, and the
 * parser is proved to read back every position it writes.
 */
module Fen {
  import opened Wrappers
  import opened Types
  import opened Positions
  import opened Board

  /** The reasons `from_fen` panics, one per failed `assert!`/`expect`/`panic!`. */
  datatype FenError =
    | TooFewFields
    | BadBoardSection
    | BadPieceChar(c: char)
    | SquareOutOfBounds
    | TooManyFiles
    | NotEnoughFiles
    | BadSide
    | BadCastlingChar(c: char)
    | BadHalfmove
    | BadFullmove

  /** The board `from_fen` starts from: `[None; 64]`. */
  function EmptyBoard(): (b: Mailbox)
    ensures forall q :: 0 <= q < 64 ==> b[q].None?
  {
    seq(64, _ => None)
  }
  const NO_RIGHTS := CastlingRights(false, false, false, false)

  // ---------------------------------------------------------------------
  // Splitting text: `split_whitespace` and `split('/')`

  /** `char::is_whitespace`: the Unicode White_Space characters. */
  predicate IsWhitespace(c: char)
  {
    || c == ' ' || ('\t' <= c <= '\r') || c == '\U{0085}' || c == '\U{00A0}' || c == '\U{1680}'
    || ('\U{2000}' <= c <= '\U{200A}') || c == '\U{2028}' || c == '\U{2029}' || c == '\U{202F}'
    || c == '\U{205F}' || c == '\U{3000}'
  }

  predicate NoWhitespace(w: string)
  {
    forall i :: 0 <= i < |w| ==> !IsWhitespace(w[i])
  }

  /** A field of `split_whitespace`: non-empty, without whitespace. */
  predicate IsWord(w: string)
  {
    |w| > 0 && forall i :: 0 <= i < |w| ==> !IsWhitespace(w[i])
  }

  /** The length of the run of non-whitespace characters that starts the text. */
  function WordLen(s: string): (n: nat)
    ensures n <= |s|
    ensures forall i :: 0 <= i < n ==> !IsWhitespace(s[i])
    ensures n < |s| ==> IsWhitespace(s[n])
  {
    if s == [] || IsWhitespace(s[0]) then 0 else 1 + WordLen(s[1..])
  }

  /** `str::split_whitespace`: the maximal runs of non-whitespace characters, in order. */
  function Fields(s: string): (ws: seq<string>)
    ensures forall i :: 0 <= i < |ws| ==> IsWord(ws[i])
    decreases |s|
  {
    if s == [] then []
    else if IsWhitespace(s[0]) then Fields(s[1..])
    else
      var n := WordLen(s);
      [s[..n]] + Fields(s[n..])
  }

  /** Words joined by single spaces. */
  function Unwords(ws: seq<string>): string
  {
    if ws == [] then []
    else if |ws| == 1 then ws[0]
    else ws[0] + ([' '] + Unwords(ws[1..]))
  }

  lemma {:induction false} WordLenOfWord(w: string, rest: string)
    requires IsWord(w) && (rest == [] || IsWhitespace(rest[0]))
    ensures WordLen(w + rest) == |w|
    decreases |w|
  {
    if |w| > 1 {
      assert (w + rest)[1..] == w[1..] + rest;
      WordLenOfWord(w[1..], rest);
    } else {
      assert (w + rest)[1..] == rest;
    }
  }

  /** A word followed by whitespace (or nothing) is the first field. */
  lemma FieldsAfterWord(w: string, rest: string)
    requires IsWord(w) && (rest == [] || IsWhitespace(rest[0]))
    ensures Fields(w + rest) == [w] + Fields(rest)
  {
    WordLenOfWord(w, rest);
    assert (w + rest)[..|w|] == w;
    assert (w + rest)[|w|..] == rest;
  }

  /** Splitting words joined by spaces gives back the words. */
  lemma {:induction false} FieldsUnwords(ws: seq<string>)
    requires forall i :: 0 <= i < |ws| ==> IsWord(ws[i])
    ensures Fields(Unwords(ws)) == ws
  {
    if |ws| == 1 {
      FieldsAfterWord(ws[0], []);
      assert ws[0] + [] == ws[0];
    } else if |ws| > 1 {
      var tail := [' '] + Unwords(ws[1..]);
      FieldsAfterWord(ws[0], tail);
      assert tail[1..] == Unwords(ws[1..]);
      FieldsUnwords(ws[1..]);
    }
  }

  /** `str::split(sep)`: the pieces between the separators, empty pieces included. */
  function SplitOn(s: string, sep: char): (ps: seq<string>)
    ensures |ps| >= 1
    ensures forall i :: 0 <= i < |ps| ==> sep !in ps[i]
    decreases |s|
  {
    if s == [] then [[]]
    else
      var rest := SplitOn(s[1..], sep);
      if s[0] == sep then [[]] + rest else [[s[0]] + rest[0]] + rest[1..]
  }

  /** The pieces joined by the separator. */
  function JoinWith(ps: seq<string>, sep: char): string
    requires |ps| >= 1
  {
    if |ps| == 1 then ps[0] else ps[0] + ([sep] + JoinWith(ps[1..], sep))
  }

  /** Joining the pieces of a split gives back the text. */
  lemma {:induction false} JoinSplit(s: string, sep: char)
    ensures JoinWith(SplitOn(s, sep), sep) == s
    decreases |s|
  {
    if s != [] {
      var rest := SplitOn(s[1..], sep);
      JoinSplit(s[1..], sep);
      if s[0] == sep {
        assert ([[]] + rest)[1..] == rest;
      } else if |rest| > 1 {
        var ps := [[s[0]] + rest[0]] + rest[1..];
        assert ps[1..] == rest[1..];
        assert JoinWith(rest, sep) == rest[0] + ([sep] + JoinWith(rest[1..], sep));
        assert JoinWith(ps, sep) == ([s[0]] + rest[0]) + ([sep] + JoinWith(rest[1..], sep));
        assert [s[0]] + s[1..] == s;
      } else {
        assert [s[0]] + s[1..] == s;
      }
    }
  }

  /** A text without the separator, followed by more, is the start of the first piece. */
  lemma {:induction false} SplitPrefix(a: string, t: string, sep: char)
    requires sep !in a
    ensures SplitOn(a + t, sep) == [a + SplitOn(t, sep)[0]] + SplitOn(t, sep)[1..]
    decreases |a|
  {
    if a != [] {
      assert (a + t)[1..] == a[1..] + t;
      SplitPrefix(a[1..], t, sep);
      assert [a[0]] + (a[1..] + SplitOn(t, sep)[0]) == a + SplitOn(t, sep)[0];
    } else {
      assert a + t == t;
      assert a + SplitOn(t, sep)[0] == SplitOn(t, sep)[0];
      assert [SplitOn(t, sep)[0]] + SplitOn(t, sep)[1..] == SplitOn(t, sep);
    }
  }

  /** Splitting pieces joined by a separator they do not contain gives back the pieces. */
  lemma {:induction false} SplitJoin(ps: seq<string>, sep: char)
    requires |ps| >= 1
    requires forall i :: 0 <= i < |ps| ==> sep !in ps[i]
    ensures SplitOn(JoinWith(ps, sep), sep) == ps
    decreases |ps|
  {
    if |ps| == 1 {
      SplitPrefix(ps[0], [], sep);
      assert ps[0] + [] == ps[0];
    } else {
      var tail := [sep] + JoinWith(ps[1..], sep);
      SplitPrefix(ps[0], tail, sep);
      SplitJoin(ps[1..], sep);
      assert tail[1..] == JoinWith(ps[1..], sep);
      assert SplitOn(tail, sep) == [[]] + ps[1..];
      assert ps[0] + [] == ps[0];
    }
  }

  /** Joining keeps every character of the pieces and the separator out of whitespace. */
  lemma {:induction false} JoinNoWhitespace(ps: seq<string>, sep: char)
    requires |ps| >= 1 && IsWord(ps[0]) && !IsWhitespace(sep)
    requires forall i :: 0 <= i < |ps| ==> NoWhitespace(ps[i])
    ensures IsWord(JoinWith(ps, sep))
    decreases |ps|
  {
    if |ps| > 1 {
      if IsWord(ps[1]) {
        JoinNoWhitespace(ps[1..], sep);
      } else {
        assert ps[1] == [];
        if |ps| == 2 {
          assert JoinWith(ps[1..], sep) == [];
        } else {
          var rest := ps[2..];
          assert ps[1..][1..] == rest;
          JoinNoWhitespace([[sep]] + rest, sep);
          assert JoinWith(ps[1..], sep) == [sep] + JoinWith(rest, sep);
          assert JoinWith([[sep]] + rest, sep) == [sep] + ([sep] + JoinWith(rest, sep));
        }
      }
    }
  }

  // ---------------------------------------------------------------------
  // Numbers: `str::parse::<u32>`

  predicate IsDigit(c: char)
  {
    '0' <= c <= '9'
  }

  predicate AllDigits(s: string)
  {
    forall i :: 0 <= i < |s| ==> IsDigit(s[i])
  }

  /** `char::to_digit(10)` of an ASCII digit. */
  function DigitValue(c: char): (d: nat)
    requires IsDigit(c)
    ensures d <= 9
  {
    c as int - '0' as int
  }

  function DigitChar(d: nat): (c: char)
    requires d <= 9
    ensures IsDigit(c) && DigitValue(c) == d
  {
    ('0' as int + d) as char
  }

  /** The value of a string of decimal digits, most significant first. */
  function DigitsValue(ds: string): nat
    requires AllDigits(ds)
    decreases |ds|
  {
    if ds == [] then 0 else DigitsValue(ds[..|ds| - 1]) * 10 + DigitValue(ds[|ds| - 1])
  }

  const U32_LIMIT: nat := 0x1_0000_0000

  /**
   * `str::parse::<u32>`: an optional `+`, then at least one ASCII digit,
   * with a value that fits in 32 bits; anything else is an error.
   */
  function ParseU32(s: string): (r: Option<nat>)
    ensures r.Some? ==> r.value < U32_LIMIT
    ensures r.Some? ==> |s| > 0 && (s[0] == '+' || IsDigit(s[0]))
    ensures (|s| == 0 || s == "+") ==> r.None?
  {
    var ds := if |s| > 0 && s[0] == '+' then s[1..] else s;
    if |ds| > 0 && AllDigits(ds) && DigitsValue(ds) < U32_LIMIT then Some(DigitsValue(ds)) else None
  }

  /** The decimal numeral of a natural number, without leading zeros. */
  function Decimal(n: nat): (s: string)
    ensures |s| >= 1 && AllDigits(s)
    ensures IsWord(s)
  {
    if n < 10 then [DigitChar(n)] else Decimal(n / 10) + [DigitChar(n % 10)]
  }

  lemma {:induction false} DecimalValue(n: nat)
    ensures DigitsValue(Decimal(n)) == n
  {
    if n >= 10 {
      var s := Decimal(n);
      assert s[..|s| - 1] == Decimal(n / 10);
      DecimalValue(n / 10);
    }
  }

  /** Every 32-bit number parses back from its numeral. */
  lemma ParseU32Decimal(n: nat)
    requires n < U32_LIMIT
    ensures ParseU32(Decimal(n)) == Some(n)
  {
    DecimalValue(n);
  }

  // ---------------------------------------------------------------------
  // The piece placement

  /** The index of the square on a file and a rank, `rank * 8 + file`. */
  function Square(file: nat, rank: nat): nat
  {
    rank * 8 + file
  }

  /** A FEN piece letter: upper case is White, the letter names the kind. */
  function PieceOfChar(c: char): Option<Piece>
  {
    match c
    case 'P' => Some(Piece(White, Pawn))
    case 'N' => Some(Piece(White, Knight))
    case 'B' => Some(Piece(White, Bishop))
    case 'R' => Some(Piece(White, Rook))
    case 'Q' => Some(Piece(White, Queen))
    case 'K' => Some(Piece(White, King))
    case 'p' => Some(Piece(Black, Pawn))
    case 'n' => Some(Piece(Black, Knight))
    case 'b' => Some(Piece(Black, Bishop))
    case 'r' => Some(Piece(Black, Rook))
    case 'q' => Some(Piece(Black, Queen))
    case 'k' => Some(Piece(Black, King))
    case _ => None
  }

  /** The twelve piece letters are exactly the characters read as pieces; upper case is White. */
  lemma PieceLetters(c: char)
    ensures PieceOfChar(c).Some? <==> c in "PNBRQKpnbrqk"
    ensures PieceOfChar(c).Some? ==> (PieceOfChar(c).value.color == White <==> 'A' <= c <= 'Z')
  {
  }

  /** The letter of a piece, the inverse of `PieceOfChar`. */
  function PieceLetter(p: Piece): (c: char)
    ensures PieceOfChar(c) == Some(p)
  {
    match (p.color, p.kind)
    case (White, Pawn) => 'P' case (White, Knight) => 'N' case (White, Bishop) => 'B'
    case (White, Rook) => 'R' case (White, Queen) => 'Q' case (White, King) => 'K'
    case (Black, Pawn) => 'p' case (Black, Knight) => 'n' case (Black, Bishop) => 'b'
    case (Black, Rook) => 'r' case (Black, Queen) => 'q' case (Black, King) => 'k'
  }

  /**
   * The rest of one rank from `file` on: a digit skips that many files, a
   * piece letter places the piece and moves one file on. The file count
   * may never pass 8, a piece may not be placed past the last file, and
   * the rank must end on exactly 8 files.
   */
  function RankFrom(text: string, rank: nat, file: nat, board: Mailbox): Result<Mailbox, FenError>
    requires rank < 8 && file <= 8
    decreases |text|
  {
    if text == [] then (if file == 8 then Ok(board) else Err(NotEnoughFiles))
    else
      var c := text[0];
      if IsDigit(c) then
        if file + DigitValue(c) > 8 then Err(TooManyFiles)
        else RankFrom(text[1..], rank, file + DigitValue(c), board)
      else
        match PieceOfChar(c)
        case None => Err(BadPieceChar(c))
        case Some(p) =>
          match Sq(file, rank)
          case None => Err(SquareOutOfBounds)
          case Some(q) => RankFrom(text[1..], rank, file + 1, board[q := Some(p)])
  }

  /** The ranks of the list from index i on, the first of them rank 8 (index 7). */
  function RanksFrom(ranks: seq<string>, i: nat, board: Mailbox): Result<Mailbox, FenError>
    requires |ranks| == 8 && i <= 8
    decreases 8 - i
  {
    if i == 8 then Ok(board)
    else
      match RankFrom(ranks[i], 7 - i, 0, board)
      case Err(e) => Err(e)
      case Ok(b) => RanksFrom(ranks, i + 1, b)
  }

  /** The placement field: exactly eight `/`-separated ranks, read onto an empty board. */
  function ParsePlacement(text: string): Result<Mailbox, FenError>
  {
    var ranks := SplitOn(text, '/');
    if |ranks| != 8 then Err(BadBoardSection) else RanksFrom(ranks, 0, EmptyBoard())
  }

  /** A rank's characters are all digits or piece letters. */
  predicate RankChars(text: string)
  {
    forall i :: 0 <= i < |text| ==> IsDigit(text[i]) || PieceOfChar(text[i]).Some?
  }

  /** The number of files a rank's text covers: each digit its value, each letter one. */
  function Width(text: string): nat
    requires RankChars(text)
  {
    if text == [] then 0
    else (if IsDigit(text[0]) then DigitValue(text[0]) else 1) + Width(text[1..])
  }

  /** The text of a rank `from_fen` accepts: digits and piece letters covering exactly 8 files. */
  predicate RankAccepted(text: string)
  {
    RankChars(text) && Width(text) == 8
  }

  /** A rank with a character that is neither a digit nor a piece letter is rejected. */
  lemma {:induction false} RankRejectsBadChar(text: string, rank: nat, file: nat, board: Mailbox)
    requires rank < 8 && file <= 8 && !RankChars(text)
    ensures RankFrom(text, rank, file, board).Err?
    decreases |text|
  {
    var c := text[0];
    if IsDigit(c) || PieceOfChar(c).Some? {
      assert !RankChars(text[1..]) by {
        var i :| 0 <= i < |text| && !(IsDigit(text[i]) || PieceOfChar(text[i]).Some?);
        assert text[1..][i - 1] == text[i];
      }
      if IsDigit(c) {
        if file + DigitValue(c) <= 8 {
          RankRejectsBadChar(text[1..], rank, file + DigitValue(c), board);
        }
      } else if Sq(file, rank).Some? {
        RankRejectsBadChar(text[1..], rank, file + 1, board[Sq(file, rank).value := PieceOfChar(c)]);
      }
    }
  }

  /**
   * A rank of digits and letters is accepted exactly when it covers the
   * remaining files; too few files is the `Not enough files` error.
   */
  lemma {:induction false} RankFitsIff(text: string, rank: nat, file: nat, board: Mailbox)
    requires rank < 8 && file <= 8 && RankChars(text)
    ensures RankFrom(text, rank, file, board).Ok? <==> file + Width(text) == 8
    ensures file + Width(text) < 8 ==> RankFrom(text, rank, file, board) == Err(NotEnoughFiles)
    decreases |text|
  {
    if text != [] {
      var c := text[0];
      assert RankChars(text[1..]) by {
        forall i | 0 <= i < |text[1..]|
          ensures IsDigit(text[1..][i]) || PieceOfChar(text[1..][i]).Some?
        {
          assert text[1..][i] == text[i + 1];
        }
      }
      if IsDigit(c) {
        if file + DigitValue(c) <= 8 {
          RankFitsIff(text[1..], rank, file + DigitValue(c), board);
        }
      } else if Sq(file, rank).Some? {
        RankFitsIff(text[1..], rank, file + 1, board[Sq(file, rank).value := PieceOfChar(c)]);
      }
    }
  }

  /** A rank's text is accepted exactly when it is made of digits and letters covering 8 files. */
  lemma RankOkIff(text: string, rank: nat, board: Mailbox)
    requires rank < 8
    ensures RankFrom(text, rank, 0, board).Ok? <==> RankAccepted(text)
  {
    if RankChars(text) {
      RankFitsIff(text, rank, 0, board);
    } else {
      RankRejectsBadChar(text, rank, 0, board);
    }
  }

  /** Reading a rank changes squares of that rank only. */
  lemma {:induction false} RankFrame(text: string, rank: nat, file: nat, board: Mailbox)
    requires rank < 8 && file <= 8
    requires RankFrom(text, rank, file, board).Ok?
    ensures forall r: nat, f: nat :: r < 8 && r != rank && f < 8 ==>
              RankFrom(text, rank, file, board).value[Square(f, r)] == board[Square(f, r)]
    decreases |text|
  {
    if text != [] {
      var c := text[0];
      if IsDigit(c) {
        RankFrame(text[1..], rank, file + DigitValue(c), board);
      } else {
        var sq := Sq(file, rank).value;
        RankFrame(text[1..], rank, file + 1, board[sq := PieceOfChar(c)]);
      }
    }
  }

  /** Every rank of the list from index i on is accepted. */
  predicate RanksAccepted(ranks: seq<string>, i: nat)
  {
    forall j :: i <= j < |ranks| ==> RankAccepted(ranks[j])
  }

  lemma {:induction false} RanksOkIff(ranks: seq<string>, i: nat, board: Mailbox)
    requires |ranks| == 8 && i <= 8
    ensures RanksFrom(ranks, i, board).Ok? <==> RanksAccepted(ranks, i)
    decreases 8 - i
  {
    if i < 8 {
      RankOkIff(ranks[i], 7 - i, board);
      var r := RankFrom(ranks[i], 7 - i, 0, board);
      if r.Ok? {
        RanksOkIff(ranks, i + 1, r.value);
      }
    }
  }

  /**
   * The placement is accepted exactly when it has eight `/`-separated
   * ranks and each is made of digits and piece letters covering 8 files.
   */
  lemma PlacementOkIff(text: string)
    ensures ParsePlacement(text).Ok? <==> |SplitOn(text, '/')| == 8 && RanksAccepted(SplitOn(text, '/'), 0)
  {
    var ranks := SplitOn(text, '/');
    if |ranks| == 8 {
      RanksOkIff(ranks, 0, EmptyBoard());
    }
  }

  /** `rank_str.chars()` loop: the file counter and the board, proved against `RankFrom`. */
  method ParseRank(text: string, rank: nat, board: Mailbox) returns (r: Result<Mailbox, FenError>)
    requires rank < 8
    ensures r == RankFrom(text, rank, 0, board)
  {
    var file: nat := 0;
    var b := board;
    for i := 0 to |text|
      invariant file <= 8
      invariant RankFrom(text[i..], rank, file, b) == RankFrom(text, rank, 0, board)
    {
      var ch := text[i];
      assert text[i..][1..] == text[i + 1..];
      if IsDigit(ch) {
        file := file + DigitValue(ch);
      } else {
        var pc := PieceOfChar(ch);
        if pc.None? {
          return Err(BadPieceChar(ch));
        }
        var sq := Sq(file, rank);
        if sq.None? {
          return Err(SquareOutOfBounds);
        }
        b := b[sq.value := pc];
        file := file + 1;
      }
      if file > 8 {
        return Err(TooManyFiles);
      }
    }
    if file != 8 {
      return Err(NotEnoughFiles);
    }
    return Ok(b);
  }

  // ---------------------------------------------------------------------
  // The remaining fields

  /** The side-to-move field: `w` or `b`. */
  function ParseSide(text: string): (r: Result<Color, FenError>)
    ensures r.Ok? <==> text == "w" || text == "b"
    ensures r.Ok? ==> (r.value == White <==> text == "w")
  {
    if text == "w" then Ok(White) else if text == "b" then Ok(Black) else Err(BadSide)
  }

  /** The castling letters from the start of the text on, each granting its right. */
  function CastlingFrom(text: string, cr: CastlingRights): Result<CastlingRights, FenError>
    decreases |text|
  {
    if text == [] then Ok(cr)
    else
      match text[0]
      case 'K' => CastlingFrom(text[1..], cr.(wk := true))
      case 'Q' => CastlingFrom(text[1..], cr.(wq := true))
      case 'k' => CastlingFrom(text[1..], cr.(bk := true))
      case 'q' => CastlingFrom(text[1..], cr.(bq := true))
      case c => Err(BadCastlingChar(c))
  }

  /** The castling field: `-` for none, otherwise letters among `KQkq`. */
  function ParseCastling(text: string): Result<CastlingRights, FenError>
  {
    if text == "-" then Ok(NO_RIGHTS) else CastlingFrom(text, NO_RIGHTS)
  }

  predicate CastlingChars(text: string)
  {
    forall i :: 0 <= i < |text| ==> text[i] in "KQkq"
  }

  lemma {:induction false} CastlingFromIff(text: string, cr: CastlingRights)
    ensures CastlingFrom(text, cr).Ok? <==> CastlingChars(text)
    ensures CastlingFrom(text, cr).Ok? ==>
              var r := CastlingFrom(text, cr).value;
              && (r.wk <==> cr.wk || 'K' in text) && (r.wq <==> cr.wq || 'Q' in text)
              && (r.bk <==> cr.bk || 'k' in text) && (r.bq <==> cr.bq || 'q' in text)
    decreases |text|
  {
    if text != [] {
      var t := text[1..];
      assert text == [text[0]] + t;
      assert CastlingChars(text) <==> text[0] in "KQkq" && CastlingChars(t) by {
        if text[0] in "KQkq" && CastlingChars(t) {
          forall i | 0 <= i < |text| ensures text[i] in "KQkq" {
            if i > 0 { assert text[i] == t[i - 1]; }
          }
        }
        if CastlingChars(text) {
          forall i | 0 <= i < |t| ensures t[i] in "KQkq" {
            assert t[i] == text[i + 1];
          }
        }
      }
      match text[0]
      case 'K' => CastlingFromIff(t, cr.(wk := true));
      case 'Q' => CastlingFromIff(t, cr.(wq := true));
      case 'k' => CastlingFromIff(t, cr.(bk := true));
      case 'q' => CastlingFromIff(t, cr.(bq := true));
      case _ =>
    }
  }

  /**
   * The castling field is accepted exactly when it is `-` or made of
   * letters among `KQkq`; each right is held exactly when its letter occurs.
   */
  lemma CastlingOkIff(text: string)
    ensures ParseCastling(text).Ok? <==> text == "-" || CastlingChars(text)
    ensures ParseCastling(text).Ok? && text != "-" ==>
              var r := ParseCastling(text).value;
              && (r.wk <==> 'K' in text) && (r.wq <==> 'Q' in text)
              && (r.bk <==> 'k' in text) && (r.bq <==> 'q' in text)
    ensures text == "-" ==> ParseCastling(text) == Ok(NO_RIGHTS)
  {
    CastlingFromIff(text, NO_RIGHTS);
  }

  /** The `for c in castle_part.chars()` loop, proved against `ParseCastling`. */
  method ParseCastlingField(text: string) returns (r: Result<CastlingRights, FenError>)
    ensures r == ParseCastling(text)
  {
    var castling := NO_RIGHTS;
    if text == "-" {
      return Ok(castling);
    }
    for i := 0 to |text|
      invariant CastlingFrom(text[i..], castling) == CastlingFrom(text, NO_RIGHTS)
    {
      assert text[i..][1..] == text[i + 1..];
      match text[i]
      case 'K' => castling := castling.(wk := true);
      case 'Q' => castling := castling.(wq := true);
      case 'k' => castling := castling.(bk := true);
      case 'q' => castling := castling.(bq := true);
      case c => return Err(BadCastlingChar(c));
    }
    return Ok(castling);
  }

  /** The en-passant field: `-` for none, otherwise the named square; a field that names no square also gives none. */
  function ParseEnPassant(text: string): (ep: Option<nat>)
    ensures ep.Some? <==> text != "-" && CoordToSq(text).Some?
    ensures ep.Some? ==> ep.value < 64 && SqToCoord(ep.value) == text
  {
    if text == "-" then None
    else
    if CoordToSq(text).Some? then
      CoordToSqInverse(text);
      CoordToSq(text)
    else None
  }

  /** The halfmove field, "0" when absent. */
  function HalfmoveText(parts: seq<string>): string
  {
    if |parts| > 4 then parts[4] else "0"
  }

  /** The fullmove field, "1" when absent. */
  function FullmoveText(parts: seq<string>): string
  {
    if |parts| > 5 then parts[5] else "1"
  }

  // ---------------------------------------------------------------------
  // The whole parser

  /** `from_fen` as a value: the position, or the reason it panics. Fields past the sixth are ignored. */
  function ParseFen(fen: string): Result<PosState, FenError>
  {
    var parts := Fields(fen);
    if |parts| < 4 then Err(TooFewFields) else FromFields(parts)
  }

  /** The position read from the fields, the first four of them present. */
  function FromFields(parts: seq<string>): Result<PosState, FenError>
    requires |parts| >= 4
  {
      match ParsePlacement(parts[0])
      case Err(e) => Err(e)
      case Ok(board) =>
        match ParseSide(parts[1])
        case Err(e) => Err(e)
        case Ok(side) =>
          match ParseCastling(parts[2])
          case Err(e) => Err(e)
          case Ok(castling) =>
            var ep := ParseEnPassant(parts[3]);
            var hm := ParseU32(HalfmoveText(parts));
            var fm := ParseU32(FullmoveText(parts));
            if hm.None? then Err(BadHalfmove)
            else if fm.None? then Err(BadFullmove)
            else Ok(PosState(board, side, castling, ep, hm.value, fm.value))
  }

  /**
   * Which FENs are accepted: at least four fields, an accepted placement,
   * `w` or `b`, `-` or castling letters, and clocks that parse as 32-bit
   * numbers (absent clocks read as 0 and 1).
   */
  lemma FenOkIff(fen: string)
    ensures var parts := Fields(fen);
            ParseFen(fen).Ok? <==>
              && |parts| >= 4
              && |SplitOn(parts[0], '/')| == 8 && RanksAccepted(SplitOn(parts[0], '/'), 0)
              && (parts[1] == "w" || parts[1] == "b")
              && (parts[2] == "-" || CastlingChars(parts[2]))
              && ParseU32(HalfmoveText(parts)).Some? && ParseU32(FullmoveText(parts)).Some?
  {
    var parts := Fields(fen);
    if |parts| >= 4 {
      PlacementOkIff(parts[0]);
      CastlingOkIff(parts[2]);
    }
  }

  /** The fields of an accepted FEN end up in the position; missing clocks read as 0 and 1. */
  lemma FenFieldsRead(fen: string)
    requires ParseFen(fen).Ok?
    ensures var parts := Fields(fen); var s := ParseFen(fen).value;
            && ParsePlacement(parts[0]) == Ok(s.board)
            && (s.side == White <==> parts[1] == "w")
            && ParseCastling(parts[2]) == Ok(s.castling)
            && s.enPassant == ParseEnPassant(parts[3])
            && (|parts| == 4 ==> s.halfmove == 0 && s.fullmove == 1)
            && (|parts| == 5 ==> s.fullmove == 1)
            && s.halfmove < U32_LIMIT && s.fullmove < U32_LIMIT
  {
    FromFieldsRead(Fields(fen));
    DefaultClocks();
  }

  /** The absent clocks' texts read as 0 and 1. */
  lemma DefaultClocks()
    ensures ParseU32("0") == Some(0) && ParseU32("1") == Some(1)
  {
    assert DigitsValue("0") == 0 by {
      assert "0"[..0] == [];
    }
    assert DigitsValue("1") == 1 by {
      assert "1"[..0] == [];
    }
  }

  /** Each field of the list goes to its part of the position. */
  lemma FromFieldsRead(parts: seq<string>)
    requires |parts| >= 4 && FromFields(parts).Ok?
    ensures var s := FromFields(parts).value;
            && ParsePlacement(parts[0]) == Ok(s.board)
            && (s.side == White <==> parts[1] == "w")
            && ParseCastling(parts[2]) == Ok(s.castling)
            && s.enPassant == ParseEnPassant(parts[3])
            && Some(s.halfmove) == ParseU32(HalfmoveText(parts))
            && Some(s.fullmove) == ParseU32(FullmoveText(parts))
  {
  }

  /**
   * `from_fen`: split the fields, read the eight ranks into the mailbox,
   * read the remaining fields, then build the bitboards from the mailbox.
   */
  method FromFen(fen: string) returns (r: Result<Position, FenError>)
    ensures r.Ok? <==> ParseFen(fen).Ok?
    ensures r.Ok? ==> fresh(r.value) && r.value.Valid() && r.value.State() == ParseFen(fen).value
    ensures r.Err? ==> r.error == ParseFen(fen).error
  {
    var parts := Fields(fen);
    if |parts| < 4 {
      return Err(TooFewFields);
    }
    var ranks := SplitOn(parts[0], '/');
    if |ranks| != 8 {
      return Err(BadBoardSection);
    }
    var board := EmptyBoard();
    for i := 0 to 8
      invariant RanksFrom(ranks, i, board) == RanksFrom(ranks, 0, EmptyBoard())
    {
      var res := ParseRank(ranks[i], 7 - i, board);
      if res.Err? {
        return Err(res.error);
      }
      board := res.value;
    }
    var side := ParseSide(parts[1]);
    if side.Err? {
      return Err(side.error);
    }
    var castling := ParseCastlingField(parts[2]);
    if castling.Err? {
      return Err(castling.error);
    }
    var ep := ParseEnPassant(parts[3]);
    var hm := ParseU32(HalfmoveText(parts));
    if hm.None? {
      return Err(BadHalfmove);
    }
    var fm := ParseU32(FullmoveText(parts));
    if fm.None? {
      return Err(BadFullmove);
    }
    var pos := new Position.FromParts(board, side.value, castling.value, ep, hm.value, fm.value);
    return Ok(pos);
  }

  // ---------------------------------------------------------------------
  // A FEN writer, and the parser reading back what it writes

  /** The digit for a run of empty files, nothing for no run. */
  function RunText(run: nat): (t: string)
    requires run <= 8
    ensures RankChars(t) && Width(t) == run
    ensures |t| <= 1
  {
    if run == 0 then [] else [DigitChar(run)]
  }

  lemma {:induction false} WidthAppend(a: string, b: string)
    requires RankChars(a) && RankChars(b)
    ensures RankChars(a + b) && Width(a + b) == Width(a) + Width(b)
    decreases |a|
  {
    if a == [] {
      assert a + b == b;
    } else {
      assert (a + b)[1..] == a[1..] + b;
      assert (a + b)[0] == a[0];
      assert RankChars(a[1..]) by {
        forall i | 0 <= i < |a[1..]| ensures IsDigit(a[1..][i]) || PieceOfChar(a[1..][i]).Some? {
          assert a[1..][i] == a[i + 1];
        }
      }
      WidthAppend(a[1..], b);
    }
  }

  /**
   * The text of rank `rank` from `file` on, with `run` empty files
   * pending: runs of empty files as one digit, pieces as their letters.
   */
  function RankText(b: Mailbox, rank: nat, file: nat, run: nat): (t: string)
    requires rank < 8 && run <= file <= 8
    ensures file < 8 || run > 0 ==> |t| > 0
    decreases 8 - file
  {
    if file == 8 then RunText(run)
    else
      match b[Square(file, rank)]
      case None => RankText(b, rank, file + 1, run + 1)
      case Some(p) => RunText(run) + ([PieceLetter(p)] + RankText(b, rank, file + 1, 0))
  }

  /** A written rank is made of digits and piece letters, and covers the files from `file` on plus the pending run. */
  lemma {:induction false} RankTextChars(b: Mailbox, rank: nat, file: nat, run: nat)
    requires rank < 8 && run <= file <= 8
    ensures var t := RankText(b, rank, file, run);
            RankChars(t) && Width(t) == run + (8 - file)
    decreases 8 - file
  {
    if file < 8 {
      match b[Square(file, rank)]
      case None =>
        RankTextChars(b, rank, file + 1, run + 1);
      case Some(p) =>
        var rest := RankText(b, rank, file + 1, 0);
        RankTextChars(b, rank, file + 1, 0);
        WidthAppend([PieceLetter(p)], rest);
        WidthAppend(RunText(run), [PieceLetter(p)] + rest);
    }
  }

  /** The texts of the ranks, rank 8 first. */
  function RankTexts(b: Mailbox): (ts: seq<string>)
    ensures |ts| == 8
  {
    seq(8, i requires 0 <= i < 8 => RankText(b, 7 - i, 0, 0))
  }

  /** The placement field: the ranks from 8 down to 1, separated by `/`. */
  function PlacementText(b: Mailbox): string
  {
    JoinWith(RankTexts(b), '/')
  }

  function SideText(c: Color): string
  {
    if c == White then "w" else "b"
  }

  /** The castling field: the letters of the rights held in the order `KQkq`, `-` for none. */
  function CastlingText(cr: CastlingRights): string
  {
    var t := (if cr.wk then "K" else "") + (if cr.wq then "Q" else "")
           + (if cr.bk then "k" else "") + (if cr.bq then "q" else "");
    if t == "" then "-" else t
  }

  function EnPassantText(ep: Option<nat>): string
    requires ep.Some? ==> ep.value < 64
  {
    if ep.None? then "-" else SqToCoord(ep.value)
  }

  /** The positions the writer can express: the en-passant square on the board, clocks within 32 bits. */
  predicate Writable(s: PosState)
  {
    && (s.enPassant.Some? ==> s.enPassant.value < 64)
    && s.halfmove < U32_LIMIT && s.fullmove < U32_LIMIT
  }

  /** The six fields of a position's FEN. */
  function FenFields(s: PosState): (ws: seq<string>)
    requires Writable(s)
    ensures |ws| == 6
  {
    [PlacementText(s.board), SideText(s.side), CastlingText(s.castling),
     EnPassantText(s.enPassant), Decimal(s.halfmove), Decimal(s.fullmove)]
  }

  /** The FEN of a position: the six fields separated by single spaces. */
  function ToFen(s: PosState): string
    requires Writable(s)
  {
    Unwords(FenFields(s))
  }

  /**
   * Reading a rank's text onto a board whose remaining squares of that
   * rank are empty places exactly the pieces of the written board there.
   */
  lemma {:induction false} RankTextParses(b: Mailbox, rank: nat, file: nat, run: nat, acc: Mailbox)
    requires rank < 8 && run <= file <= 8
    requires forall f: nat :: file - run <= f < 8 ==> acc[Square(f, rank)].None?
    requires forall f: nat :: file - run <= f < file ==> b[Square(f, rank)].None?
    ensures var r := RankFrom(RankText(b, rank, file, run), rank, file - run, acc);
            && r.Ok?
            && forall f: nat :: f < 8 ==>
                 r.value[Square(f, rank)] == if f >= file - run then b[Square(f, rank)] else acc[Square(f, rank)]
    decreases 8 - file
  {
    if file == 8 {
      if run > 0 {
        assert RankText(b, rank, file, run) == [DigitChar(run)];
        assert [DigitChar(run)][1..] == [];
      }
    } else {
      var here := Square(file, rank);
      match b[here]
      case None =>
        RankTextParses(b, rank, file + 1, run + 1, acc);
      case Some(p) =>
        PieceTextParses(b, rank, file, run, acc, p);
    }
  }

  /** The case of `RankTextParses` where the next file holds a piece. */
  lemma {:induction false} PieceTextParses(b: Mailbox, rank: nat, file: nat, run: nat, acc: Mailbox, p: Piece)
    requires rank < 8 && run <= file < 8 && b[Square(file, rank)] == Some(p)
    requires forall f: nat :: file - run <= f < 8 ==> acc[Square(f, rank)].None?
    requires forall f: nat :: file - run <= f < file ==> b[Square(f, rank)].None?
    ensures var r := RankFrom(RankText(b, rank, file, run), rank, file - run, acc);
            && r.Ok?
            && forall f: nat :: f < 8 ==>
                 r.value[Square(f, rank)] == if f >= file - run then b[Square(f, rank)] else acc[Square(f, rank)]
    decreases 8 - file, 0
  {
    var acc2 := acc[Square(file, rank) := Some(p)];
    TextAfterPiece(b, rank, file, run, acc, p);
    RankTextParses(b, rank, file + 1, 0, acc2);
    var r := RankFrom(RankText(b, rank, file + 1, 0), rank, file + 1, acc2).value;
    forall f: nat | f < 8
      ensures r[Square(f, rank)] == if f >= file - run then b[Square(f, rank)] else acc[Square(f, rank)]
    {
      if f != file {
        assert Square(f, rank) != Square(file, rank);
      }
    }
  }

  /** Reading the pending run and the next piece letter of a written rank. */
  lemma TextAfterPiece(b: Mailbox, rank: nat, file: nat, run: nat, acc: Mailbox, p: Piece)
    requires rank < 8 && run <= file < 8 && b[Square(file, rank)] == Some(p)
    ensures RankFrom(RankText(b, rank, file, run), rank, file - run, acc)
         == RankFrom(RankText(b, rank, file + 1, 0), rank, file + 1, acc[Square(file, rank) := Some(p)])
  {
    var rest := RankText(b, rank, file + 1, 0);
    var tail := [PieceLetter(p)] + rest;
    RankTextAtPiece(b, rank, file, run, p);
    LetterStep(PieceLetter(p), p, rest, rank, file, acc);
    if run > 0 {
      assert RunText(run) + tail == [DigitChar(run)] + tail;
      DigitStep(DigitChar(run), tail, rank, file - run, acc);
    } else {
      assert RunText(run) + tail == tail;
    }
  }

  /** At a file holding a piece, the written rank is the pending run, the letter, and the rest. */
  lemma RankTextAtPiece(b: Mailbox, rank: nat, file: nat, run: nat, p: Piece)
    requires rank < 8 && run <= file < 8 && b[Square(file, rank)] == Some(p)
    ensures RankText(b, rank, file, run) == RunText(run) + ([PieceLetter(p)] + RankText(b, rank, file + 1, 0))
  {
  }

  /** Reading a piece letter places the piece and moves one file on. */
  lemma LetterStep(c: char, p: Piece, rest: string, rank: nat, file: nat, acc: Mailbox)
    requires rank < 8 && file < 8 && PieceOfChar(c) == Some(p)
    ensures RankFrom([c] + rest, rank, file, acc) == RankFrom(rest, rank, file + 1, acc[Square(file, rank) := Some(p)])
  {
    assert ([c] + rest)[1..] == rest;
  }

  /** Reading a digit that stays within the rank skips that many files. */
  lemma DigitStep(c: char, rest: string, rank: nat, file: nat, acc: Mailbox)
    requires rank < 8 && IsDigit(c) && file + DigitValue(c) <= 8
    ensures RankFrom([c] + rest, rank, file, acc) == RankFrom(rest, rank, file + DigitValue(c), acc)
  {
    assert ([c] + rest)[1..] == rest;
  }

  /** The board holds the written board's ranks above rank 8 - i, and nothing below. */
  predicate HoldsRanksAbove(acc: Mailbox, b: Mailbox, i: nat)
  {
    forall r: nat, f: nat :: r < 8 && f < 8 ==>
      acc[Square(f, r)] == if r > 7 - i then b[Square(f, r)] else None
  }

  /** Reading the i-th listed rank (rank 8 - i) extends the ranks held by one. */
  lemma HoldsNextRank(b: Mailbox, i: nat, rank: nat, acc: Mailbox, next: Mailbox)
    requires i < 8 && rank == 7 - i && HoldsRanksAbove(acc, b, i)
    requires forall f: nat :: f < 8 ==> next[Square(f, rank)] == b[Square(f, rank)]
    requires forall r: nat, f: nat :: r < 8 && r != rank && f < 8 ==> next[Square(f, r)] == acc[Square(f, r)]
    ensures HoldsRanksAbove(next, b, i + 1)
  {
  }

  /** A board holding every rank is the written board. */
  lemma HoldsAllRanks(acc: Mailbox, b: Mailbox)
    requires HoldsRanksAbove(acc, b, 8)
    ensures acc == b
  {
    forall q | 0 <= q < 64 ensures acc[q] == b[q] {
      assert q == Square(q % 8, q / 8);
    }
  }

  /** Reading the written ranks from index i on completes a board that already holds the ranks above. */
  lemma {:induction false} RankTextsParse(b: Mailbox, i: nat, acc: Mailbox)
    requires i <= 8 && HoldsRanksAbove(acc, b, i)
    ensures RanksFrom(RankTexts(b), i, acc) == Ok(b)
    decreases 8 - i
  {
    if i == 8 {
      HoldsAllRanks(acc, b);
    } else {
      var next := RankTextStep(b, i, acc);
      RankTextsParse(b, i + 1, next);
      assert RanksFrom(RankTexts(b), i, acc) == RanksFrom(RankTexts(b), i + 1, next);
    }
  }

  /** Reading the i-th written rank onto a board holding the ranks above it. */
  lemma RankTextStep(b: Mailbox, i: nat, acc: Mailbox) returns (next: Mailbox)
    requires i < 8 && HoldsRanksAbove(acc, b, i)
    ensures RankFrom(RankTexts(b)[i], 7 - i, 0, acc) == Ok(next)
    ensures HoldsRanksAbove(next, b, i + 1)
  {
    var rank := 7 - i;
    var t := RankTexts(b)[i];
    assert t == RankText(b, rank, 0, 0);
    RankTextParses(b, rank, 0, 0, acc);
    var r := RankFrom(t, rank, 0, acc);
    RankFrame(t, rank, 0, acc);
    next := r.value;
    HoldsNextRank(b, i, rank, acc, next);
  }

  /** Digits and piece letters lie between `0` and `r`. */
  lemma RankCharRange(c: char)
    requires IsDigit(c) || PieceOfChar(c).Some?
    ensures '0' <= c <= 'r'
  {
  }

  /** The characters of a rank's text are neither whitespace nor `/`. */
  lemma RankCharsPlain(t: string)
    requires RankChars(t)
    ensures NoWhitespace(t) && '/' !in t
  {
    forall k | 0 <= k < |t| ensures '0' <= t[k] <= 'r' {
      RankCharRange(t[k]);
    }
  }

  /** A written rank holds neither whitespace nor `/`. */
  lemma RankTextPlain(b: Mailbox, rank: nat)
    requires rank < 8
    ensures NoWhitespace(RankText(b, rank, 0, 0)) && '/' !in RankText(b, rank, 0, 0)
  {
    RankTextChars(b, rank, 0, 0);
    RankCharsPlain(RankText(b, rank, 0, 0));
  }

  /** The ranks of the placement text hold neither whitespace nor `/`. */
  lemma RankTextsPlain(b: Mailbox)
    ensures forall i :: 0 <= i < 8 ==> NoWhitespace(RankTexts(b)[i]) && '/' !in RankTexts(b)[i]
  {
    forall i | 0 <= i < 8 ensures NoWhitespace(RankTexts(b)[i]) && '/' !in RankTexts(b)[i] {
      RankTextPlain(b, 7 - i);
    }
  }

  /** The placement text is one word. */
  lemma PlacementPlain(b: Mailbox)
    ensures IsWord(PlacementText(b))
  {
    var ts := RankTexts(b);
    RankTextsPlain(b);
    assert |ts[0]| > 0;
    JoinNoWhitespace(ts, '/');
  }

  /** Every board reads back from its placement text. */
  lemma PlacementRoundTrip(b: Mailbox)
    ensures ParsePlacement(PlacementText(b)) == Ok(b)
  {
    RankTextsPlain(b);
    SplitJoin(RankTexts(b), '/');
    assert HoldsRanksAbove(EmptyBoard(), b, 0);
    RankTextsParse(b, 0, EmptyBoard());
  }

  /** Every castling field the writer produces reads back as the same rights. */
  lemma CastlingRoundTrip(cr: CastlingRights)
    ensures ParseCastling(CastlingText(cr)) == Ok(cr)
  {
    var t := CastlingText(cr);
    if t != "-" {
      CastlingOkIff(t);
      assert CastlingChars(t);
    }
  }

  /** The fields the writer produces are words. */
  lemma FenFieldsAreWords(s: PosState)
    requires Writable(s)
    ensures forall i :: 0 <= i < 6 ==> IsWord(FenFields(s)[i])
  {
    forall i | 0 <= i < 6 ensures IsWord(FenFields(s)[i]) {
      if i == 0 {
        PlacementPlain(s.board);
      } else if i == 2 {
        CastlingTextIsWord(s.castling);
      } else if i == 3 {
        EnPassantTextIsWord(s.enPassant);
      }
    }
  }

  lemma CastlingTextIsWord(cr: CastlingRights)
    ensures IsWord(CastlingText(cr))
  {
    var t := CastlingText(cr);
    forall k | 0 <= k < |t| ensures !IsWhitespace(t[k]) {
      assert t[k] in "-KQkq";
    }
  }

  lemma EnPassantTextIsWord(ep: Option<nat>)
    requires ep.Some? ==> ep.value < 64
    ensures IsWord(EnPassantText(ep))
  {
    var t := EnPassantText(ep);
    forall k | 0 <= k < |t| ensures !IsWhitespace(t[k]) {
      assert 'a' <= t[k] <= 'h' || '1' <= t[k] <= '8' || t[k] == '-';
    }
  }

  /** Every writable position reads back from its FEN. */
  lemma FenRoundTrip(s: PosState)
    requires Writable(s)
    ensures ParseFen(ToFen(s)) == Ok(s)
  {
    FenFieldsAreWords(s);
    FieldsUnwords(FenFields(s));
    PlacementRoundTrip(s.board);
    CastlingRoundTrip(s.castling);
    ParseU32Decimal(s.halfmove);
    ParseU32Decimal(s.fullmove);
    if s.enPassant.Some? {
      CoordRoundTrip(s.enPassant.value);
    }
  }

  /** The clocks may be left off: the first four fields read back with the default clocks. */
  lemma ClocksDefault(s: PosState)
    requires Writable(s)
    ensures ParseFen(Unwords(FenFields(s)[..4])) == Ok(s.(halfmove := 0, fullmove := 1))
  {
    var parts := FenFields(s)[..4];
    FenFieldsAreWords(s);
    FieldsUnwords(parts);
    DefaultClocks();
    assert HalfmoveText(parts) == "0" && FullmoveText(parts) == "1";
    PlacementRoundTrip(s.board);
    CastlingRoundTrip(s.castling);
    if s.enPassant.Some? {
      CoordRoundTrip(s.enPassant.value);
    }
  }
}
