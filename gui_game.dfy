/**
 * `GameState` of crates/gui/src/game.rs: the game the board view plays.
 * A click on a piece of the side to move selects it and lists its
 * targets; any other click plays the selected piece there when that is a
 * target, then clears the selection. Each move played is recorded in
 * simplified algebraic notation and the result is brought up to date.
 *
 * The methods are proved against `GameView` functions of the state
 * before and of the `Rules` of the kernel.
 */
module Gui {
  import opened Wrappers
  import opened Types
  import opened Positions
  import opened Generation
  import opened Board
  import opened MoveGen
  import opened Perft
  import opened Play
  import Threats
  import opened GameRules

  datatype GameResult = InProgress | WhiteWins | BlackWins | Draw

  /** `GameState` as a value: position, move records, selection, targets, last move, result, and whether the engine thinks. */
  datatype GameView = GameView(
    state: PosState,
    history: seq<string>,
    selected: Option<nat>,
    targets: set<nat>,
    lastMove: Option<(nat, nat)>,
    result: GameResult,
    thinking: bool)

  /** `GameState::new()`. */
  function Initial(): GameView
  {
    GameView(StartState(), [], None, {}, None, InProgress, false)
  }

  /** The destinations of the legal moves from a square. */
  function DestinationsFrom(legal: seq<Move>, from: nat): set<nat>
  {
    set mv | mv in legal && mv.from == from :: mv.to
  }

  /** The first move of the list joining the squares with this promotion; `find` on the move list. */
  function FindWith(legal: seq<Move>, from: nat, to: nat, promo: Option<PieceKind>): (r: Option<Move>)
    ensures r.Some? ==> r.value in legal && r.value.from == from && r.value.to == to && r.value.promo == promo
    ensures r.None? <==> forall m :: m in legal ==> !(m.from == from && m.to == to && m.promo == promo)
  {
    if legal == [] then None
    else if legal[0].from == from && legal[0].to == to && legal[0].promo == promo then Some(legal[0])
    else FindWith(legal[1..], from, to, promo)
  }

  /** `make_move_from_to`'s choice: the move without promotion, or failing that the queen promotion. */
  function Chosen(legal: seq<Move>, from: nat, to: nat): Option<Move>
  {
    match FindWith(legal, from, to, None)
    case Some(m) => Some(m)
    case None => FindWith(legal, from, to, Some(Queen))
  }

  /** The winner when the side to move is checkmated. */
  function Winner(mated: Color): GameResult
  {
    if mated == White then BlackWins else WhiteWins
  }

  /** `update_result`: no legal move decides the game, checkmate or stalemate; else the fifty-move rule draws; else no change. */
  function ResultOf(r: Rules, s: PosState, previous: GameResult): GameResult
  {
    if r.legal(s) == [] then (if r.inCheck(s) then Winner(s.side) else Draw)
    else if s.halfmove >= 100 then Draw
    else previous
  }

  /** The file letter of a square. */
  function FileChar(sq: nat): char
  {
    ('a' as int + sq % 8) as char
  }

  /** The rank digit of a square on the board. */
  function RankChar(sq: nat): char
    requires sq < 64
  {
    ('1' as int + sq / 8) as char
  }

  /** The letter of a moving piece: none for pawns, kings castling or an empty square. */
  function PieceLetter(piece: Option<Piece>, castle: bool): string
  {
    match piece
    case None => ""
    case Some(p) =>
      match p.kind
      case King => if castle then "" else "K"
      case Queen => "Q"
      case Rook => "R"
      case Bishop => "B"
      case Knight => "N"
      case Pawn => ""
  }

  /** The promotion suffix. */
  function PromoSuffix(promo: Option<PieceKind>): string
  {
    match promo
    case Some(Queen) => "=Q"
    case Some(Rook) => "=R"
    case Some(Bishop) => "=B"
    case Some(Knight) => "=N"
    case _ => ""
  }

  /**
   * `move_to_san`, simplified: castling by the direction of the king,
   * otherwise the piece letter, the origin file for a capture without
   * one, `x` for a capture (en passant included), the target square and
   * the promotion.
   */
  function San(board: Mailbox, mv: Move): string
    requires mv.from < 64 && mv.to < 64
  {
    var piece := board[mv.from];
    var isCapture := board[mv.to].Some? || mv.isEnPassant;
    var pieceChar := PieceLetter(piece, mv.isCastle);
    if mv.isCastle then (if mv.to % 8 > mv.from % 8 then "O-O" else "O-O-O")
    else
      var capture := if isCapture then "x" else "";
      var filePrefix := if pieceChar == "" && isCapture then [FileChar(mv.from)] else "";
      pieceChar + filePrefix + capture + [FileChar(mv.to), RankChar(mv.to)] + PromoSuffix(mv.promo)
  }

  /** Castling is written O-O towards the h-file and O-O-O towards the a-file. */
  lemma SanCastle(board: Mailbox, mv: Move)
    requires mv.from < 64 && mv.to < 64 && mv.isCastle
    ensures mv.to % 8 > mv.from % 8 ==> San(board, mv) == "O-O"
    ensures mv.to % 8 <= mv.from % 8 ==> San(board, mv) == "O-O-O"
  {
  }

  /** A pawn capture starts with the origin file and `x`. */
  lemma SanPawnCapture(board: Mailbox, mv: Move)
    requires mv.from < 64 && mv.to < 64 && !mv.isCastle
    requires board[mv.from].Some? && board[mv.from].value.kind == Pawn
    requires board[mv.to].Some? || mv.isEnPassant
    ensures |San(board, mv)| >= 4 && San(board, mv)[0] == FileChar(mv.from) && San(board, mv)[1] == 'x'
  {
  }

  /** A promotion to a queen, rook, bishop or knight ends in `=` and the piece's letter. */
  lemma SanPromotion(board: Mailbox, mv: Move, k: PieceKind)
    requires mv.from < 64 && mv.to < 64 && !mv.isCastle && mv.promo == Some(k) && k in {Queen, Rook, Bishop, Knight}
    ensures var san := San(board, mv);
      |san| >= 4 && san[|san| - 2] == '=' && san[|san| - 1] == (match k case Queen => 'Q' case Rook => 'R' case Bishop => 'B' case _ => 'N')
  {
  }

  /** A quiet piece move is the letter and the target square, such as `Nf3`. */
  lemma SanQuietPiece(board: Mailbox, mv: Move, p: Piece)
    requires mv.from < 64 && mv.to < 64 && !mv.isCastle && !mv.isEnPassant && mv.promo.None?
    requires board[mv.from] == Some(p) && p.kind != Pawn && board[mv.to].None?
    ensures San(board, mv) == PieceLetter(Some(p), false) + [FileChar(mv.to), RankChar(mv.to)]
    ensures |San(board, mv)| == 3
  {
  }

  /** `apply_move`: the move made, its record appended, last move set, selection cleared, result updated. */
  function Applied(r: Rules, v: GameView, mv: Move): GameView
    requires mv.from < 64 && mv.to < 64
  {
    var s := r.play(v.state, mv);
    GameView(s, v.history + [San(v.state.board, mv)], None, {}, Some((mv.from, mv.to)), ResultOf(r, s, v.result), v.thinking)
  }

  /** The view after `apply_move`, field by field. */
  lemma AppliedView(r: Rules, v: GameView, mv: Move, s: PosState, result: GameResult)
    requires mv.from < 64 && mv.to < 64 && s == r.play(v.state, mv) && result == ResultOf(r, s, v.result)
    ensures Applied(r, v, mv) == GameView(s, v.history + [San(v.state.board, mv)], None, {}, Some((mv.from, mv.to)), result, v.thinking)
  {
  }

  /** `make_move_from_to`: the chosen move applied, or nothing when there is none. */
  function MovedFromTo(r: Rules, v: GameView, from: nat, to: nat): GameView
  {
    var chosen := Chosen(r.legal(v.state), from, to);
    if chosen.Some? && chosen.value.from < 64 && chosen.value.to < 64 then Applied(r, v, chosen.value) else v
  }

  /** `select_square`. */
  function Clicked(r: Rules, v: GameView, sq: nat): GameView
    requires sq < 64
  {
    var piece := v.state.board[sq];
    if piece.Some? && piece.value.color == v.state.side then
      v.(selected := Some(sq), targets := DestinationsFrom(r.legal(v.state), sq))
    else
      var moved := if v.selected.Some? && sq in v.targets then MovedFromTo(r, v, v.selected.value, sq) else v;
      moved.(selected := None, targets := {})
  }

  /** A click on a piece of the side to move: that square selected with the destinations of its legal moves. */
  lemma ClickedOwn(r: Rules, v: GameView, sq: nat)
    requires sq < 64 && v.state.board[sq].Some? && v.state.board[sq].value.color == v.state.side
    ensures Clicked(r, v, sq) == v.(selected := Some(sq), targets := DestinationsFrom(r.legal(v.state), sq))
  {
  }

  /** A click that is not on a piece of the side to move: the move to a target of the selection, if any, then no selection. */
  lemma ClickedOther(r: Rules, v: GameView, sq: nat, moved: GameView)
    requires sq < 64 && !(v.state.board[sq].Some? && v.state.board[sq].value.color == v.state.side)
    requires moved == if v.selected.Some? && sq in v.targets then MovedFromTo(r, v, v.selected.value, sq) else v
    ensures Clicked(r, v, sq) == moved.(selected := None, targets := {})
  {
  }

  /** The move chosen joins the squares and is legal; it is the plain move when one exists, else the queen promotion. */
  lemma ChosenPrefersPlain(legal: seq<Move>, from: nat, to: nat)
    ensures Chosen(legal, from, to).Some? ==>
      var m := Chosen(legal, from, to).value;
      m in legal && m.from == from && m.to == to && (m.promo.None? || m.promo == Some(Queen))
    ensures (exists m :: m in legal && m.from == from && m.to == to && m.promo.None?) ==>
      Chosen(legal, from, to).Some? && Chosen(legal, from, to).value.promo.None?
    ensures Chosen(legal, from, to).None? <==>
      forall m :: m in legal && m.from == from && m.to == to ==> m.promo.Some? && m.promo != Some(Queen)
  {
  }

  /** A click on a piece of the side to move selects it, with exactly the destinations of its legal moves. */
  lemma ClickOwnPiece(r: Rules, v: GameView, sq: nat)
    requires sq < 64 && v.state.board[sq].Some? && v.state.board[sq].value.color == v.state.side
    ensures Clicked(r, v, sq).selected == Some(sq)
    ensures forall t :: t in Clicked(r, v, sq).targets <==> exists mv :: mv in r.legal(v.state) && mv.from == sq && mv.to == t
    ensures Clicked(r, v, sq).state == v.state && Clicked(r, v, sq).history == v.history
  {
  }

  /**
   * Any other click clears the selection; a move is played exactly when a
   * piece was selected, the square is one of its targets and a move is
   * chosen, and then exactly one record is added.
   */
  lemma ClickElsewhere(r: Rules, v: GameView, sq: nat)
    requires sq < 64 && !(v.state.board[sq].Some? && v.state.board[sq].value.color == v.state.side)
    ensures Clicked(r, v, sq).selected.None? && Clicked(r, v, sq).targets == {}
    ensures var w := Clicked(r, v, sq);
      if v.selected.Some? && sq in v.targets && Chosen(r.legal(v.state), v.selected.value, sq).Some?
         && v.selected.value < 64 then
        w.history == v.history + [San(v.state.board, Chosen(r.legal(v.state), v.selected.value, sq).value)]
        && w.lastMove == Some((v.selected.value, sq))
        && w.state == r.play(v.state, Chosen(r.legal(v.state), v.selected.value, sq).value)
      else
        w.history == v.history && w.state == v.state && w.lastMove == v.lastMove && w.result == v.result
  {
    if v.selected.Some? && sq in v.targets {
      ChosenPrefersPlain(r.legal(v.state), v.selected.value, sq);
    }
  }

  /**
   * Starting from a game in progress, the result is decided exactly when
   * the side to move has no legal move or the halfmove clock has reached
   * 100; checkmate gives the game to the side that just moved.
   */
  lemma ResultDecided(r: Rules, s: PosState)
    ensures ResultOf(r, s, InProgress) != InProgress <==> r.legal(s) == [] || s.halfmove >= 100
    ensures ResultOf(r, s, InProgress) in {WhiteWins, BlackWins} <==> r.legal(s) == [] && r.inCheck(s)
    ensures ResultOf(r, s, InProgress) == WhiteWins ==> s.side == Black
    ensures ResultOf(r, s, InProgress) == BlackWins ==> s.side == White
  {
  }

  /** `update_result` never sets a game back in progress: a decided result stays decided. */
  lemma ResultSticky(r: Rules, s: PosState, previous: GameResult)
    requires previous != InProgress
    ensures ResultOf(r, s, previous) != InProgress
  {
  }

  /**
   * A click either leaves the position and the records as they were, or
   * plays one legal move to the clicked square and records it: the
   * records only ever grow by one.
   */
  lemma ClickPlaysLegal(r: Rules, v: GameView, sq: nat)
    requires sq < 64
    ensures var w := Clicked(r, v, sq);
      || (w.state == v.state && w.history == v.history)
      || (exists mv :: mv in r.legal(v.state) && mv.to == sq && mv.from < 64
           && w.state == r.play(v.state, mv) && w.history == v.history + [San(v.state.board, mv)])
  {
    var piece := v.state.board[sq];
    if !(piece.Some? && piece.value.color == v.state.side) && v.selected.Some? && sq in v.targets {
      var chosen := Chosen(r.legal(v.state), v.selected.value, sq);
      ChosenPrefersPlain(r.legal(v.state), v.selected.value, sq);
      if chosen.Some? && chosen.value.from < 64 && chosen.value.to < 64 {
        var mv := chosen.value;
        assert mv in r.legal(v.state) && mv.to == sq;
      }
    }
  }

  /** Targets are only ever shown for a selected piece. */
  lemma ClickKeepsTargetsSelected(r: Rules, v: GameView, sq: nat)
    requires sq < 64
    ensures Clicked(r, v, sq).targets != {} ==> Clicked(r, v, sq).selected.Some?
  {
  }

  class GameState {
    var position: Position
    var history: seq<string>
    var selected: Option<nat>
    var targets: set<nat>
    var lastMove: Option<(nat, nat)>
    var result: GameResult
    var engineThinking: bool

    /** The position is kept in sync and playable. */
    ghost predicate Valid()
      reads this`position, position
    {
      position.Valid() && Playable(position.State())
    }

    function View(): GameView
      reads this, position
    {
      GameView(position.State(), history, selected, targets, lastMove, result, engineThinking)
    }

    /** `GameState::new()`: the initial position, nothing recorded, selected or decided. */
    constructor ()
      ensures Valid() && View() == Initial()
    {
      position := new Position.StartPos();
      history := [];
      selected := None;
      targets := {};
      lastMove := None;
      result := InProgress;
      engineThinking := false;
      StartPlayable();
    }

    /** `reset`: the state of a new game. */
    method Reset()
      modifies this
      ensures Valid() && View() == Initial()
    {
      history := [];
      selected := None;
      targets := {};
      lastMove := None;
      result := InProgress;
      engineThinking := false;
      position := new Position.StartPos();
      StartPlayable();
    }

    /**
     * `select_square`: as `Clicked` says. The rules and the state before
     * are named by ghost parameters.
     */
    method SelectSquare(sq: nat, ghost r: Rules, ghost v: GameView)
      requires Valid() && sq < 64 && r == ChessRules() && View() == v
      modifies this, position
      ensures Valid() && View() == Clicked(r, v, sq)
    {
      var piece := position.board[sq];
      if piece.Some? && piece.value.color == position.sideToMove {
        SelectPiece(sq, r, v);
        ClickedOwn(r, v, sq);
      } else {
        ClickOther(sq, r, v);
      }
    }

    /** The first branch of `select_square`: a piece of the side to move is selected. */
    method SelectPiece(sq: nat, ghost r: Rules, ghost v: GameView)
      requires Valid() && sq < 64 && r == ChessRules() && View() == v
      requires v.state.board[sq].Some? && v.state.board[sq].value.color == v.state.side
      modifies this`selected, this`targets
      ensures selected == Some(sq) && targets == DestinationsFrom(r.legal(v.state), sq)
      ensures Valid() && View() == v.(selected := Some(sq), targets := DestinationsFrom(r.legal(v.state), sq))
    {
      selected := Some(sq);
      UpdateLegalMoves(r, v.state);
      ShowView(v.(selected := Some(sq), targets := DestinationsFrom(r.legal(v.state), sq)));
    }

    /** The rest of `select_square`: the move to a target of the selection, then the selection cleared. */
    method ClickOther(sq: nat, ghost r: Rules, ghost v: GameView)
      requires Valid() && sq < 64 && r == ChessRules() && View() == v
      requires !(v.state.board[sq].Some? && v.state.board[sq].value.color == v.state.side)
      modifies this, position
      ensures Valid() && View() == Clicked(r, v, sq)
    {
      ghost var moved := v;
      if selected.Some? && sq in targets {
        moved := MovedFromTo(r, v, selected.value, sq);
        MakeMoveFromTo(selected.value, sq, r, v);
      }
      selected := None;
      targets := {};
      ClickedOther(r, v, sq, moved);
    }

    /** `update_legal_moves`: the destinations of the legal moves from the selected square. */
    method UpdateLegalMoves(ghost r: Rules, ghost s: PosState)
      requires Valid() && r == ChessRules() && position.State() == s
      modifies this`targets
      ensures targets == if selected.Some? then DestinationsFrom(r.legal(s), selected.value) else {}
      ensures history == old(history) && selected == old(selected) && lastMove == old(lastMove)
      ensures result == old(result) && engineThinking == old(engineThinking)
    {
      targets := {};
      if selected.Some? {
        var from := selected.value;
        var moves := RuleMoves(r, s);
        targets := CollectDestinations(moves, from);
      }
    }

    /** `make_move_from_to`: as `MovedFromTo` says. */
    method MakeMoveFromTo(from: nat, to: nat, ghost r: Rules, ghost v: GameView)
      requires Valid() && r == ChessRules() && View() == v
      modifies this, position
      ensures Valid() && View() == MovedFromTo(r, v, from, to)
    {
      var mv := ChooseMove(from, to, r, v.state);
      if mv.Some? {
        ApplyMove(mv.value, r, v);
      }
    }

    /** The move `make_move_from_to` looks for: the plain one, else the queen promotion. */
    method ChooseMove(from: nat, to: nat, ghost r: Rules, ghost s: PosState) returns (mv: Option<Move>)
      requires Valid() && r == ChessRules() && position.State() == s
      ensures mv == Chosen(r.legal(s), from, to)
      ensures mv.Some? ==> mv.value in r.legal(s) && mv.value.from < 64 && mv.value.to < 64
    {
      var moves := RuleMoves(r, s);
      mv := FindMove(moves, from, to, None);
      if mv.None? {
        mv := FindMove(moves, from, to, Some(Queen));
      }
    }

    /** `position.legal_moves()`: the moves the rules list, each between squares of the board. */
    method RuleMoves(ghost r: Rules, ghost s: PosState) returns (moves: seq<Move>)
      requires Valid() && r == ChessRules() && position.State() == s
      ensures moves == r.legal(s)
      ensures forall mv :: mv in moves ==> mv.from < 64 && mv.to < 64
    {
      RulesMoves(r, s);
      moves := LegalMovesOf(position);
      forall mv | mv in moves
        ensures mv.from < 64 && mv.to < 64
      {
        RulesPlay(r, s, mv);
      }
    }

    /** The loop of `update_legal_moves` collecting the destinations from one square. */
    static method CollectDestinations(moves: seq<Move>, from: nat) returns (targets: set<nat>)
      ensures targets == DestinationsFrom(moves, from)
    {
      targets := {};
      for i := 0 to |moves|
        invariant targets == DestinationsFrom(moves[..i], from)
      {
        assert moves[..i + 1] == moves[..i] + [moves[i]];
        if moves[i].from == from {
          targets := targets + {moves[i].to};
        }
      }
      assert moves[..|moves|] == moves;
    }

    /** `iter().find(..)` over the moves. */
    static method FindMove(moves: seq<Move>, from: nat, to: nat, promo: Option<PieceKind>) returns (r: Option<Move>)
      ensures r == FindWith(moves, from, to, promo)
    {
      for i := 0 to |moves|
        invariant FindWith(moves, from, to, promo) == FindWith(moves[i..], from, to, promo)
      {
        assert moves[i..][1..] == moves[i + 1..];
        if moves[i].from == from && moves[i].to == to && moves[i].promo == promo {
          return Some(moves[i]);
        }
      }
      return None;
    }

    /** `apply_move`: as `Applied` says. */
    method ApplyMove(mv: Move, ghost r: Rules, ghost v: GameView)
      requires Valid() && r == ChessRules() && View() == v && mv in r.legal(v.state) && mv.from < 64 && mv.to < 64
      modifies this, position
      ensures Valid() && View() == Applied(r, v, mv)
    {
      var san := San(position.board, mv);
      PlayAndJudge(mv, r, v.state);
      Record(san, mv.from, mv.to);
      ShowApplied(r, v, mv);
    }

    /** The state is the view w, field by field. */
    method ShowView(ghost w: GameView)
      requires position.State() == w.state
      requires history == w.history
      requires selected == w.selected
      requires targets == w.targets
      requires lastMove == w.lastMove
      requires result == w.result
      requires engineThinking == w.thinking
      ensures View() == w
    {
    }

    /** The state after the move and its record is the view `Applied` describes. */
    method ShowApplied(ghost r: Rules, ghost v: GameView, mv: Move)
      requires mv.from < 64 && mv.to < 64
      requires position.State() == r.play(v.state, mv)
      requires result == ResultOf(r, r.play(v.state, mv), v.result)
      requires history == v.history + [San(v.state.board, mv)]
      requires lastMove == Some((mv.from, mv.to))
      requires selected.None?
      requires targets == {}
      requires engineThinking == v.thinking
      ensures View() == Applied(r, v, mv)
    {
      AppliedView(r, v, mv, position.State(), result);
    }

    /** The bookkeeping of `apply_move`: the record appended, the last move set, the selection cleared. */
    method Record(san: string, from: nat, to: nat)
      modifies this`history, this`lastMove, this`selected, this`targets
      ensures engineThinking == old(engineThinking)
      ensures history == old(history) + [san] && lastMove == Some((from, to)) && selected.None? && targets == {}
    {
      history := history + [san];
      lastMove := Some((from, to));
      selected := None;
      targets := {};
    }

    /** The move made on the board, then `update_result` on the position reached. */
    method PlayAndJudge(mv: Move, ghost r: Rules, ghost s: PosState)
      requires Valid() && r == ChessRules() && position.State() == s && mv in r.legal(s)
      modifies position, this`result
      ensures engineThinking == old(engineThinking)
      ensures Valid() && position.State() == r.play(s, mv)
      ensures result == ResultOf(r, r.play(s, mv), old(result))
    {
      PlayRule(mv, r, s);
      UpdateResult(r, position.State());
    }

    /** `position.make_move(mv)` of `apply_move`: the position becomes the one the rules play to. */
    method PlayRule(mv: Move, ghost r: Rules, ghost s: PosState)
      requires Valid() && r == ChessRules() && position.State() == s && mv in r.legal(s)
      modifies position
      ensures Valid() && position.State() == r.play(s, mv)
    {
      RulesPlay(r, s, mv);
      PlayOnBoard(mv, s, r.play(s, mv));
    }

    /** `make_move` on a move that can be made and leads to a playable position. */
    method PlayOnBoard(mv: Move, ghost s: PosState, ghost t: PosState)
      requires Valid() && position.State() == s && CanMake(s, mv) && t == MakeState(s, mv) && Playable(t)
      modifies position
      ensures Valid() && position.State() == t
    {
      var _ := position.MakeMove(mv);
    }

    /** `update_result`: as `ResultOf` says. */
    method UpdateResult(ghost r: Rules, ghost s: PosState)
      requires Valid() && r == ChessRules() && position.State() == s
      modifies this`result
      ensures Valid() && position.State() == s && engineThinking == old(engineThinking)
      ensures result == ResultOf(r, s, old(result))
    {
      RulesMoves(r, s);
      RulesCheck(r, s);
      Judge(s);
    }

    /** The body of `update_result` on the kernel's legal moves and check test. */
    method Judge(ghost s: PosState)
      requires Valid() && position.State() == s
      modifies this`result
      ensures Valid() && position.State() == s && engineThinking == old(engineThinking)
      ensures result == if LegalMoves(s) == [] then (if Threats.InCheck(s.board, s.side) then Winner(s.side) else Draw)
                        else if s.halfmove >= 100 then Draw else old(result)
    {
      var moves := LegalMovesOf(position);
      if |moves| == 0 {
        var check := position.InCheck(position.sideToMove);
        if check {
          result := if position.sideToMove == White then BlackWins else WhiteWins;
        } else {
          result := Draw;
        }
      } else if position.halfmoveClock >= 100 {
        result := Draw;
      }
    }
  }
}
