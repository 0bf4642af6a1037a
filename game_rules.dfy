/**
 * The rules a game front end consults, as a record of functions: the
 * legal moves, making a move, and whether the side to move is in check.
 * `ChessRules` is the kernel's; on every playable position its fields are
 * `legal_moves`, `make_move` and `in_check`. Stating the game logic over
 * such a record keeps it apart from the move generator's definitions.
 */
module GameRules {
  import opened Types
  import opened Positions
  import opened Generation
  import opened Perft
  import opened Play
  import Threats
  import SearchSpec
  import CoreSearch

  /** What a game asks of the rules. */
  datatype Rules = Rules(legal: PosState -> seq<Move>, play: (PosState, Move) -> PosState, inCheck: PosState -> bool)

  /** The move made where it can be made; elsewhere the position is kept. */
  function PlayOrStay(s: PosState, mv: Move): PosState
  {
    if CanMake(s, mv) then MakeState(s, mv) else s
  }

  /** `in_check` of the side to move. */
  function InCheckOf(s: PosState): bool
  {
    Threats.InCheck(s.board, s.side)
  }

  /** The rules of the kernel. */
  function ChessRules(): Rules
  {
    Rules(SearchSpec.ChessMoves, PlayOrStay, InCheckOf)
  }

  /** On a playable position the rules list the kernel's legal moves. */
  lemma RulesMoves(r: Rules, s: PosState)
    requires r == ChessRules() && Playable(s)
    ensures Generable(s) && r.legal(s) == LegalMoves(s)
  {
    CoreSearch.ReadyChildren(s);
  }

  /** The rules' check test is the kernel's `in_check` of the side to move. */
  lemma RulesCheck(r: Rules, s: PosState)
    requires r == ChessRules()
    ensures r.inCheck(s) == Threats.InCheck(s.board, s.side)
  {
  }

  /** A legal move of a playable position is made as the kernel makes it, and leaves a playable position. */
  lemma RulesPlay(r: Rules, s: PosState, mv: Move)
    requires r == ChessRules() && Playable(s) && mv in r.legal(s)
    ensures CanMake(s, mv) && r.play(s, mv) == MakeState(s, mv) && Playable(MakeState(s, mv))
  {
    RulesMoves(r, s);
    LegalKeepsPlayable(s, mv);
  }
}
