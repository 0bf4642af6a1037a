/**
 * UCI move text (crates/chess_core/src/uci.rs): a move is written as its
 * two coordinates and an optional promotion letter, and read back by
 * matching the coordinates against the legal moves, so that the castle and
 * en-passant flags come from the move generator. Text is a sequence of
 * characters; the source measures and slices it in bytes, which agree
 * with characters for the ASCII text UCI uses.
 */
module Uci {
  import opened Wrappers
  import opened Types
  import opened Positions
  import opened Generation
  import opened Board
  import opened MoveGen
  import opened Play

  /** The letter `move_to_uci` writes for a promotion (a pawn or king promotion, which never occurs, writes 'q'). */
  function PromoChar(k: PieceKind): char
  {
    match k
    case Queen => 'q'
    case Rook => 'r'
    case Bishop => 'b'
    case Knight => 'n'
    case _ => 'q'
  }

  /** The promotion `parse_uci_move` reads from a letter, in either case. */
  function ParsePromo(c: char): (k: Option<PieceKind>)
    ensures k.Some? ==> k.value in PROMOTION_ORDER
    ensures k.Some? <==> c in "qQrRbBnN"
  {
    if c == 'q' || c == 'Q' then Some(Queen)
    else if c == 'r' || c == 'R' then Some(Rook)
    else if c == 'b' || c == 'B' then Some(Bishop)
    else if c == 'n' || c == 'N' then Some(Knight)
    else None
  }

  /** Every promotion piece's letter reads back as that piece. */
  lemma PromoCharParses(k: PieceKind)
    requires k in PROMOTION_ORDER
    ensures ParsePromo(PromoChar(k)) == Some(k)
  {
  }

  /** `move_to_uci`: the from-coordinate, the to-coordinate, then the promotion letter if any. */
  function MoveToUci(mv: Move): (txt: string)
    requires mv.from < 256 && mv.to < 256
    ensures |txt| == if mv.promo.Some? then 5 else 4
    ensures txt[0..2] == SqToCoord(mv.from) && txt[2..4] == SqToCoord(mv.to)
    ensures mv.promo.Some? ==> txt[4] == PromoChar(mv.promo.value)
  {
    SqToCoord(mv.from) + SqToCoord(mv.to) + (if mv.promo.Some? then [PromoChar(mv.promo.value)] else [])
  }

  /** The text is long enough and both of its coordinates name squares. */
  predicate SquaresParse(txt: string)
  {
    |txt| >= 4 && CoordToSq(txt[0..2]).Some? && CoordToSq(txt[2..4]).Some?
  }

  /** The promotion suffix: the fifth character, when there is one. */
  function SuffixPromo(txt: string): (k: Option<PieceKind>)
    ensures k.Some? ==> |txt| >= 5 && k.value in PROMOTION_ORDER
  {
    if |txt| >= 5 then ParsePromo(txt[4]) else None
  }

  /** The move with the suffix's promotion written into it when the suffix names one. */
  function WithPromo(m: Move, promo: Option<PieceKind>): Move
  {
    if promo.Some? then m.(promo := promo) else m
  }

  /** The index of the first move of the list between the two squares, or the list's length when there is none. */
  function FirstMatch(moves: seq<Move>, from: nat, to: nat): (i: nat)
    ensures i <= |moves|
    ensures i < |moves| ==> moves[i].from == from && moves[i].to == to
    ensures forall j :: 0 <= j < i ==> !(moves[j].from == from && moves[j].to == to)
    decreases |moves|
  {
    if moves == [] then 0
    else if moves[0].from == from && moves[0].to == to then 0
    else 1 + FirstMatch(moves[1..], from, to)
  }

  /** The first move of the list between the two squares, with the promotion written into it when there is one. */
  function MatchAmong(moves: seq<Move>, from: nat, to: nat, promo: Option<PieceKind>): (r: Option<Move>)
    ensures r.Some? ==> r.value.from == from && r.value.to == to
    ensures r.Some? <==> exists m :: m in moves && m.from == from && m.to == to
  {
    var i := FirstMatch(moves, from, to);
    if i == |moves| then None
    else
      assert moves[i] in moves;
      Some(WithPromo(moves[i], promo))
  }

  /** Reading UCI text against a list of candidate moves. */
  function ParseAmong(moves: seq<Move>, txt: string): (r: Option<Move>)
    ensures |txt| < 4 ==> r.None?
    ensures r.Some? ==> SquaresParse(txt)
                        && CoordToSq(txt[0..2]) == Some(r.value.from) && CoordToSq(txt[2..4]) == Some(r.value.to)
  {
    if !SquaresParse(txt) then None
    else MatchAmong(moves, CoordToSq(txt[0..2]).value, CoordToSq(txt[2..4]).value, SuffixPromo(txt))
  }

  /**
   * `parse_uci_move`: None for text shorter than four characters or with a
   * coordinate that names no square; otherwise the first legal move between
   * the two squares, with the suffix's promotion written into it, or None
   * when no legal move joins them.
   */
  function ParseUci(s: PosState, txt: string): (r: Option<Move>)
    requires SquaresParse(txt) ==> Restorable(s)
    ensures |txt| < 4 ==> r.None?
    ensures r.Some? ==> SquaresParse(txt)
                        && CoordToSq(txt[0..2]) == Some(r.value.from) && CoordToSq(txt[2..4]) == Some(r.value.to)
  {
    if SquaresParse(txt) then ParseAmong(LegalMoves(s), txt) else None
  }

  /** A parse succeeds exactly when the coordinates parse and some candidate joins the two squares. */
  lemma ParseAmongSome(moves: seq<Move>, txt: string)
    requires SquaresParse(txt)
    ensures ParseAmong(moves, txt).Some? <==>
              exists m :: m in moves && Some(m.from) == CoordToSq(txt[0..2]) && Some(m.to) == CoordToSq(txt[2..4])
  {
  }

  /** A successful parse is the first candidate between its squares, with the suffix's promotion written into it. */
  lemma ParseAmongFirst(moves: seq<Move>, txt: string) returns (i: nat)
    requires ParseAmong(moves, txt).Some?
    ensures i < |moves| && ParseAmong(moves, txt).value == WithPromo(moves[i], SuffixPromo(txt))
    ensures moves[i].from == ParseAmong(moves, txt).value.from && moves[i].to == ParseAmong(moves, txt).value.to
    ensures forall j :: 0 <= j < i ==> !(moves[j].from == moves[i].from && moves[j].to == moves[i].to)
  {
    i := FirstMatch(moves, CoordToSq(txt[0..2]).value, CoordToSq(txt[2..4]).value);
  }

  /** Moves between the same two squares carry the same flags and agree on whether they promote. */
  predicate SquaresDetermine(moves: seq<Move>)
  {
    forall a, b :: a in moves && b in moves && a.from == b.from && a.to == b.to ==>
      a.isEnPassant == b.isEnPassant && a.isCastle == b.isCastle && a.promo.Some? == b.promo.Some?
  }

  /** Every move is between two squares of the board and promotes, if at all, to a piece with a letter. */
  predicate Nameable(moves: seq<Move>)
  {
    forall a :: a in moves ==> a.from < 64 && a.to < 64 && (a.promo.Some? ==> a.promo.value in PROMOTION_ORDER)
  }

  /** Among candidates whose squares determine their flags, every candidate reads back from its own text. */
  lemma ParseAmongRoundTrip(moves: seq<Move>, m: Move)
    requires m in moves && SquaresDetermine(moves) && Nameable(moves)
    ensures ParseAmong(moves, MoveToUci(m)) == Some(m)
  {
    var txt := MoveToUci(m);
    CoordRoundTrip(m.from);
    CoordRoundTrip(m.to);
    var i := FirstMatch(moves, m.from, m.to);
    var j :| 0 <= j < |moves| && moves[j] == m;
    assert i <= j;
    assert moves[i] in moves;
    if m.promo.Some? {
      PromoCharParses(m.promo.value);
      assert SuffixPromo(txt) == m.promo;
    } else {
      assert SuffixPromo(txt) == None;
    }
  }

  /** The legal moves of a playable position are named by their squares. */
  lemma LegalMovesNameable(s: PosState)
    requires Playable(s)
    ensures SquaresDetermine(LegalMoves(s)) && Nameable(LegalMoves(s))
  {
    var moves := LegalMoves(s);
    forall a, b | a in moves && b in moves && a.from == b.from && a.to == b.to
      ensures a.isEnPassant == b.isEnPassant && a.isCastle == b.isCastle && a.promo.Some? == b.promo.Some?
    {
      LegalGenerated(s, a);
      LegalGenerated(s, b);
      SameSquaresSameFlags(s, a, b);
    }
    forall a | a in moves
      ensures a.from < 64 && a.to < 64 && (a.promo.Some? ==> a.promo.value in PROMOTION_ORDER)
    {
      LegalGenerated(s, a);
    }
  }

  /** Every legal move of a playable position reads back from its own UCI text. */
  lemma UciRoundTrip(s: PosState, m: Move)
    requires Playable(s) && m in LegalMoves(s)
    ensures m.from < 64 && m.to < 64 && ParseUci(s, MoveToUci(m)) == Some(m)
  {
    LegalMovesNameable(s);
    ParseAmongRoundTrip(LegalMoves(s), m);
  }

  /** What a parse returns can be made on a playable position and leads to a playable position. */
  lemma ParsedKeepsPlayable(s: PosState, txt: string)
    requires Playable(s)
    ensures ParseUci(s, txt).Some? ==>
              CanMake(s, ParseUci(s, txt).value) && Playable(MakeState(s, ParseUci(s, txt).value))
  {
    if ParseUci(s, txt).Some? {
      var moves := LegalMoves(s);
      var i := ParseAmongFirst(moves, txt);
      var m := moves[i];
      var promo := SuffixPromo(txt);
      if promo.Some? {
        OverwriteKeepsPlayable(s, m, promo.value);
      } else {
        LegalKeepsPlayable(s, m);
      }
    }
  }

  /** Playing one token: the parsed move when it parses, nothing otherwise. */
  function Step(s: PosState, tok: string): (r: PosState)
    requires Playable(s)
    ensures ParseUci(s, tok).None? ==> r == s
  {
    ParsedKeepsPlayable(s, tok);
    var parsed := ParseUci(s, tok);
    if parsed.Some? then MakeState(s, parsed.value) else s
  }

  /** Playing a token keeps the position playable. */
  lemma StepPlayable(s: PosState, tok: string)
    requires Playable(s)
    ensures Playable(Step(s, tok))
  {
    ParsedKeepsPlayable(s, tok);
  }

  /** The position after playing the tokens in order, skipping those that do not parse. */
  function Replay(s: PosState, tokens: seq<string>): PosState
    requires Playable(s)
    decreases |tokens|
  {
    if tokens == [] then s
    else
      StepPlayable(s, tokens[0]);
      Replay(Step(s, tokens[0]), tokens[1..])
  }

  /** Every position a replay passes through is playable. */
  lemma {:induction false} ReplayPlayable(s: PosState, tokens: seq<string>)
    requires Playable(s)
    ensures Playable(Replay(s, tokens))
    decreases |tokens|
  {
    if tokens != [] {
      StepPlayable(s, tokens[0]);
      ReplayPlayable(Step(s, tokens[0]), tokens[1..]);
    }
  }

  /** The position a token list leads to from the initial position. */
  function PlayFromStart(tokens: seq<string>): (r: PosState)
    ensures tokens == [] ==> r == StartState()
  {
    StartPlayable();
    Replay(StartState(), tokens)
  }

  /** Play from the initial position stays playable. */
  lemma PlayFromStartPlayable(tokens: seq<string>)
    ensures Playable(PlayFromStart(tokens))
  {
    StartPlayable();
    ReplayPlayable(StartState(), tokens);
  }

  /**
   * The move tokens `set_position_from_uci` plays: those after a "moves"
   * token that comes first, or second after "startpos". Whatever the first
   * token is, the game starts from the initial position.
   */
  function MoveTokens(args: seq<string>): (tokens: seq<string>)
    ensures |tokens| < |args| || args == []
    ensures tokens != [] ==> |args| > 0 && ((args[0] == "moves" && tokens == args[1..])
                             || (|args| >= 2 && args[0] == "startpos" && args[1] == "moves" && tokens == args[2..]))
  {
    if args == [] then []
    else
      var i := if args[0] == "startpos" then 1 else 0;
      if i < |args| && args[i] == "moves" then args[i + 1..] else []
  }

  /** Replaying a token list and then one more token replays the longer list. */
  lemma {:induction false} ReplaySnoc(s: PosState, a: seq<string>, tok: string)
    requires Playable(s)
    ensures Playable(Replay(s, a)) && Replay(s, a + [tok]) == Step(Replay(s, a), tok)
    decreases |a|
  {
    if a == [] {
      assert [] + [tok] == [tok];
    } else {
      assert (a + [tok])[0] == a[0] && (a + [tok])[1..] == a[1..] + [tok];
      StepPlayable(s, a[0]);
      ReplaySnoc(Step(s, a[0]), a[1..], tok);
    }
  }

  /** Playing one more token from the initial position. */
  lemma PlayFromStartSnoc(a: seq<string>, tok: string)
    ensures Playable(PlayFromStart(a)) && PlayFromStart(a + [tok]) == Step(PlayFromStart(a), tok)
  {
    PlayFromStartPlayable(a);
    StartPlayable();
    ReplaySnoc(StartState(), a, tok);
  }

  /** `parse_uci_move` on a position: parse the squares and the suffix, then search the legal moves. */
  method ParseUciMove(pos: Position, txt: string) returns (r: Option<Move>)
    requires pos.Valid()
    requires SquaresParse(txt) ==> Restorable(pos.State()) && (pos.enPassant.Some? ==> pos.enPassant.value < 64)
    ensures r == ParseUci(pos.State(), txt)
  {
    if |txt| < 4 {
      return None;
    }
    var fromSq := CoordToSq(txt[0..2]);
    if fromSq.None? {
      return None;
    }
    var toSq := CoordToSq(txt[2..4]);
    if toSq.None? {
      return None;
    }
    var promo: Option<PieceKind> := None;
    if |txt| >= 5 {
      promo := ParsePromo(txt[4]);
    }
    var legals := LegalMovesOf(pos);
    r := FindMove(legals, fromSq.value, toSq.value, promo);
  }

  /** The loop of `parse_uci_move` over the legal moves, in generation order. */
  method FindMove(legals: seq<Move>, from: nat, to: nat, promo: Option<PieceKind>) returns (r: Option<Move>)
    ensures r == MatchAmong(legals, from, to, promo)
  {
    for i := 0 to |legals|
      invariant forall j :: 0 <= j < i ==> !(legals[j].from == from && legals[j].to == to)
    {
      var m := legals[i];
      if m.from == from && m.to == to {
        if promo.Some? {
          m := m.(promo := promo);
        }
        if promo.Some? && m.promo != promo {
          assert false;
        } else {
          FirstMatchAt(legals, from, to, i);
          return Some(m);
        }
      }
    }
    FirstMatchNone(legals, from, to);
    return None;
  }

  /** The first index whose move joins the squares is what `FirstMatch` finds. */
  lemma {:induction false} FirstMatchAt(moves: seq<Move>, from: nat, to: nat, i: nat)
    requires i < |moves| && moves[i].from == from && moves[i].to == to
    requires forall j :: 0 <= j < i ==> !(moves[j].from == from && moves[j].to == to)
    ensures FirstMatch(moves, from, to) == i
    decreases i
  {
    if i > 0 {
      FirstMatchAt(moves[1..], from, to, i - 1);
    }
  }

  /** With no move joining the squares, `FirstMatch` runs off the end. */
  lemma {:induction false} FirstMatchNone(moves: seq<Move>, from: nat, to: nat)
    requires forall j :: 0 <= j < |moves| ==> !(moves[j].from == from && moves[j].to == to)
    ensures FirstMatch(moves, from, to) == |moves|
    decreases |moves|
  {
    if moves != [] {
      FirstMatchNone(moves[1..], from, to);
    }
  }

  /** `*pos = Position::startpos()`: every field of the position replaced by the initial position's. */
  method ResetToStart(pos: Position)
    modifies pos
    ensures pos.Valid() && pos.State() == StartState()
  {
    var start := new Position.StartPos();
    pos.board := start.board;
    pos.bitboards := start.bitboards;
    pos.sideToMove := start.sideToMove;
    pos.castling := start.castling;
    pos.enPassant := start.enPassant;
    pos.halfmoveClock := start.halfmoveClock;
    pos.fullmoveNumber := start.fullmoveNumber;
  }

  /** One pass of the loop of `set_position_from_uci`: play the token if it parses. */
  method PlayToken(pos: Position, tok: string)
    requires pos.Valid() && Playable(pos.State())
    modifies pos
    ensures pos.Valid() && pos.State() == Step(old(pos.State()), tok)
  {
    ghost var s := pos.State();
    ParsedKeepsPlayable(s, tok);
    var parsed := ParseUciMove(pos, tok);
    if parsed.Some? {
      var _ := pos.MakeMove(parsed.value);
    }
  }

  /**
   * `set_position_from_uci`: restart from the initial position, then play
   * the tokens after "moves" in order, skipping those that do not parse
   * as a legal move.
   */
  method SetPositionFromUci(pos: Position, args: seq<string>)
    modifies pos
    ensures pos.Valid() && pos.State() == PlayFromStart(MoveTokens(args))
  {
    ResetToStart(pos);
    assert pos.State() == PlayFromStart([]);
    if |args| == 0 {
      return;
    }
    var i := 0;
    if args[i] == "startpos" {
      i := i + 1;
    }
    if i < |args| && args[i] == "moves" {
      i := i + 1;
      var first := i;
      assert args[first..i] == [];
      while i < |args|
        invariant first <= i <= |args|
        invariant pos.Valid() && pos.State() == PlayFromStart(args[first..i])
      {
        assert args[first..i + 1] == args[first..i] + [args[i]];
        PlayFromStartSnoc(args[first..i], args[i]);
        PlayToken(pos, args[i]);
        i := i + 1;
      }
      assert args[first..i] == args[first..] == MoveTokens(args);
    }
  }
}
