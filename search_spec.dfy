/**
 * The value computed by the negamax searches of crates/chess_core/src/search.rs,
 * crates/classical_engine/src/search.rs and crates/engines/neural/src/lib.rs,
 * stated once over position states. All three share the draw rules, the mate
 * score, the fail-soft alpha-beta loop and the root scan; they differ only in
 * whether insufficient material is a draw and in the leaf evaluation, which
 * `Rules` carries.
 *
 * Next to the pruned search stands plain negamax without cutoffs (`Minimax`),
 * and the fail-soft theorem relates the two: a value strictly inside the
 * window is exact, a value at or below alpha is an upper bound and one at or
 * above beta a lower bound. With evaluations inside the mate score the root
 * window of the engines is wide enough for the value to be exact.
 */
module SearchSpec {
  import opened Wrappers
  import opened Types
  import opened Positions
  import opened Generation
  import opened Perft
  import Threats
  import Hashing
  import Draws
  import Eval

  /** The score of being checkmated. */
  const MATE: int := 100000
  /** `i32::MIN + 1`, the starting `best` of every move loop. */
  const NO_SCORE: int := -0x7fff_ffff
  /** `i32::MIN / 2` and `i32::MAX / 2`, the window of the root's children. */
  const ROOT_ALPHA: int := -0x4000_0000
  const ROOT_BETA: int := 0x3fff_ffff

  /**
   * A game tree as negamax walks it: the verdict of a node before its moves
   * are generated (a draw by rule, checkmate, stalemate), the evaluation at
   * the leaves, the moves of a node, the position a move leads to (none when
   * the move cannot be made) and the key a position adds to the history.
   */
  datatype Game = Game(
    terminal: (PosState, seq<bv64>) -> Option<int>,
    eval: PosState -> int,
    moves: PosState -> seq<Move>,
    play: (PosState, Move) -> Option<PosState>,
    key: PosState -> bv64)

  /** How often k occurs among the keys (`iter().filter(..).count()`). */
  function Occurrences(keys: seq<bv64>, k: bv64): nat
  {
    if keys == [] then 0
    else Occurrences(keys[..|keys| - 1], k) + (if keys[|keys| - 1] == k then 1 else 0)
  }

  /** `*history.last().unwrap_or(&position_key(pos))`. */
  function CurrentKey(keys: seq<bv64>, s: PosState): bv64
  {
    if keys == [] then Hashing.PositionHash(s) else keys[|keys| - 1]
  }

  /** The draws a node scores 0 before generating moves; material says whether insufficient material is one. */
  predicate RuleDraw(s: PosState, keys: seq<bv64>, material: bool)
  {
    || Draws.FiftyMoveDraw(s)
    || Occurrences(keys, CurrentKey(keys, s)) >= 3
    || (material && Draws.InsufficientMaterial(s.board))
  }

  /**
   * The verdict of a chess node before its moves are searched: 0 for a draw
   * by rule, -MATE when checkmated, 0 when stalemated. A position move
   * generation cannot run on scores 0; it never occurs below a playable
   * position.
   */
  function Terminal(s: PosState, keys: seq<bv64>, material: bool): Option<int>
  {
    if RuleDraw(s, keys, material) then Some(0)
    else if !Generable(s) then Some(0)
    else if LegalMoves(s) == [] then Some(if Threats.InCheck(s.board, s.side) then -MATE else 0)
    else None
  }

  /** The legal moves, where move generation can run. */
  function ChessMoves(s: PosState): seq<Move>
  {
    if Generable(s) then LegalMoves(s) else []
  }

  /** `make_move`, where it can be made. */
  function ChessPlay(s: PosState, mv: Move): Option<PosState>
  {
    if CanMake(s, mv) then Some(MakeState(s, mv)) else None
  }

  /** The chess game of an engine: whether insufficient material is a draw, and the leaf evaluation. */
  function Chess(material: bool, ev: PosState -> int): Game
  {
    Game((s, keys) => Terminal(s, keys, material), ev, ChessMoves, ChessPlay, Hashing.PositionHash)
  }

  /** crates/chess_core/src/search.rs: no insufficient-material rule, mailbox material at the leaves. */
  function CoreGame(): Game
  {
    Chess(false, Eval.Evaluate)
  }

  /**
   * Every verdict and every evaluation lies within the mate score (the
   * evaluation strictly), and a node without a verdict has moves to search.
   */
  ghost predicate Bounded(g: Game)
  {
    && (forall t :: -MATE < g.eval(t) < MATE)
    && (forall t, keys :: g.terminal(t, keys).Some? ==> -MATE <= g.terminal(t, keys).value <= MATE)
    && (forall t, keys :: g.terminal(t, keys).None? ==> g.moves(t) != [])
  }

  /**
   * The chess verdicts are 0 or -MATE and a position without one has legal
   * moves, so an evaluation inside the mate score bounds the game.
   */
  lemma ChessBounded(material: bool, ev: PosState -> int)
    requires forall t :: -MATE < ev(t) < MATE
    ensures Bounded(Chess(material, ev))
  {
    var g := Chess(material, ev);
    forall t, keys
      ensures g.terminal(t, keys).Some? ==> -MATE <= g.terminal(t, keys).value <= MATE
      ensures g.terminal(t, keys).None? ==> g.moves(t) != []
    {
      TerminalBound(t, keys, material);
    }
  }

  /** A chess verdict is 0 or -MATE, and none is given to a position without legal moves. */
  lemma TerminalBound(s: PosState, keys: seq<bv64>, material: bool)
    ensures Terminal(s, keys, material).Some? ==> Terminal(s, keys, material).value in {0, -MATE}
    ensures Terminal(s, keys, material).None? ==> ChessMoves(s) != []
  {
  }

  /** Mailbox material never reaches the mate score. */
  lemma CoreBounded()
    ensures Bounded(CoreGame())
  {
    forall t
      ensures -MATE < Eval.Evaluate(t) < MATE
    {
      Eval.EvaluateBound(t);
    }
    ChessBounded(false, Eval.Evaluate);
  }

  /** `negamax(pos, depth, alpha, beta, history)`, fail-soft: the best child score found before a cutoff. */
  function AlphaBeta(g: Game, s: PosState, depth: nat, alpha: int, beta: int, keys: seq<bv64>): int
    decreases depth, 1
  {
    var t := g.terminal(s, keys);
    if t.Some? then t.value
    else if depth == 0 then g.eval(s)
    else Cutoff(g, s, g.moves(s), 0, depth - 1, alpha, beta, NO_SCORE, keys)
  }

  /** The score of playing mv and searching the child with the window negated and swapped. */
  function ChildScore(g: Game, s: PosState, mv: Move, d: nat, alpha: int, beta: int, keys: seq<bv64>): int
    decreases d, 2
  {
    match g.play(s, mv)
    case None => 0
    case Some(t) => -AlphaBeta(g, t, d, -beta, -alpha, keys + [g.key(t)])
  }

  /** The move loop of `negamax` from move i on, with the current alpha and best. */
  function Cutoff(g: Game, s: PosState, moves: seq<Move>, i: nat, d: nat, alpha: int, beta: int, best: int, keys: seq<bv64>): int
    requires i <= |moves|
    decreases d, 3, |moves| - i
  {
    if i == |moves| then best
    else
      var score := ChildScore(g, s, moves[i], d, alpha, beta, keys);
      var best' := if score > best then score else best;
      var alpha' := if best' > alpha then best' else alpha;
      if alpha' >= beta then best' else Cutoff(g, s, moves, i + 1, d, alpha', beta, best', keys)
  }

  /** Negamax without pruning: the reference value the cutoffs must not change. */
  function Minimax(g: Game, s: PosState, depth: nat, keys: seq<bv64>): int
    decreases depth, 1
  {
    var t := g.terminal(s, keys);
    if t.Some? then t.value
    else if depth == 0 then g.eval(s)
    else MaxChild(g, s, g.moves(s), 0, depth - 1, NO_SCORE, keys)
  }

  /** The unpruned value of playing mv. */
  function ChildValue(g: Game, s: PosState, mv: Move, d: nat, keys: seq<bv64>): int
    decreases d, 2
  {
    match g.play(s, mv)
    case None => 0
    case Some(t) => -Minimax(g, t, d, keys + [g.key(t)])
  }

  /** The largest of best and the values of moves i and later. */
  function MaxChild(g: Game, s: PosState, moves: seq<Move>, i: nat, d: nat, best: int, keys: seq<bv64>): int
    requires i <= |moves|
    decreases d, 3, |moves| - i
  {
    if i == |moves| then best
    else
      var v := ChildValue(g, s, moves[i], d, keys);
      MaxChild(g, s, moves, i + 1, d, if v > best then v else best, keys)
  }

  /** The chess game plays a move that can be made by `make_move`, and keys positions by their hash. */
  lemma ChessPlays(material: bool, ev: PosState -> int, s: PosState, mv: Move)
    requires CanMake(s, mv)
    ensures Chess(material, ev).play(s, mv) == Some(MakeState(s, mv))
    ensures Chess(material, ev).key(MakeState(s, mv)) == Hashing.PositionHash(MakeState(s, mv))
  {
  }

  /** A child that is played is searched with the negated, swapped window and its key pushed. */
  lemma PlayedChildScore(g: Game, s: PosState, mv: Move, t: PosState, d: nat, alpha: int, beta: int, keys: seq<bv64>,
                         childAlpha: int, childBeta: int, key: bv64)
    requires g.play(s, mv) == Some(t) && key == g.key(t)
    requires childAlpha == -beta && childBeta == -alpha
    ensures ChildScore(g, s, mv, d, alpha, beta, keys) == -AlphaBeta(g, t, d, childAlpha, childBeta, keys + [key])
  {
  }

  /** One step of the move loop: the cutoff ends it, otherwise it goes on with the raised alpha and best. */
  lemma CutoffStep(g: Game, s: PosState, moves: seq<Move>, i: nat, d: nat, alpha: int, beta: int, best: int, keys: seq<bv64>,
                   score: int, best': int, alpha': int)
    requires i < |moves| && score == ChildScore(g, s, moves[i], d, alpha, beta, keys)
    requires best' == (if score > best then score else best) && alpha' == (if best' > alpha then best' else alpha)
    ensures Cutoff(g, s, moves, i, d, alpha, beta, best, keys)
         == if alpha' >= beta then best' else Cutoff(g, s, moves, i + 1, d, alpha', beta, best', keys)
  {
  }

  /** A node without a verdict above depth zero is the loop over its moves, one ply shallower. */
  lemma SearchedNode(g: Game, s: PosState, depth: nat, alpha: int, beta: int, keys: seq<bv64>, d: nat)
    requires g.terminal(s, keys).None? && depth > 0 && d == depth - 1
    ensures AlphaBeta(g, s, depth, alpha, beta, keys) == Cutoff(g, s, g.moves(s), 0, d, alpha, beta, NO_SCORE, keys)
  {
  }

  /** A chess position with legal moves and no draw by rule has no verdict, and its moves are the legal moves. */
  lemma ChessOpen(material: bool, ev: PosState -> int, s: PosState, keys: seq<bv64>)
    requires !RuleDraw(s, keys, material) && Generable(s) && LegalMoves(s) != []
    ensures Chess(material, ev).terminal(s, keys).None?
    ensures Chess(material, ev).moves(s) == LegalMoves(s)
  {
  }

  /** The chess game lists the legal moves of a generable position, and keys positions by their hash. */
  lemma ChessMovesKey(material: bool, ev: PosState -> int, s: PosState)
    requires Generable(s)
    ensures Chess(material, ev).moves(s) == LegalMoves(s)
    ensures Chess(material, ev).key(s) == Hashing.PositionHash(s)
  {
  }

  // Node counts, step by step.

  /** A node with a verdict, or at depth zero, makes no move. */
  lemma ChessTerminalNodes(material: bool, ev: PosState -> int, s: PosState, depth: nat, alpha: int, beta: int, keys: seq<bv64>)
    requires RuleDraw(s, keys, material) || (Generable(s) && LegalMoves(s) == []) || depth == 0
    ensures AlphaBetaNodes(Chess(material, ev), s, depth, alpha, beta, keys) == 0
  {
  }

  /** A searched node makes the moves of its loop. */
  lemma SearchedNodeCount(g: Game, s: PosState, depth: nat, alpha: int, beta: int, keys: seq<bv64>, d: nat)
    requires g.terminal(s, keys).None? && depth > 0 && d == depth - 1
    ensures AlphaBetaNodes(g, s, depth, alpha, beta, keys) == CutoffNodes(g, s, g.moves(s), 0, d, alpha, beta, NO_SCORE, keys)
  {
  }

  /** A child that is played makes the moves of its own search. */
  lemma PlayedChildNodes(g: Game, s: PosState, mv: Move, t: PosState, d: nat, alpha: int, beta: int, keys: seq<bv64>,
                         childAlpha: int, childBeta: int, key: bv64)
    requires g.play(s, mv) == Some(t) && key == g.key(t)
    requires childAlpha == -beta && childBeta == -alpha
    ensures ChildNodes(g, s, mv, d, alpha, beta, keys) == AlphaBetaNodes(g, t, d, childAlpha, childBeta, keys + [key])
  {
  }

  /** One step of the move loop's count: the move itself, its child's moves, and the rest unless the cutoff ends it. */
  lemma CutoffNodesStep(g: Game, s: PosState, moves: seq<Move>, i: nat, d: nat, alpha: int, beta: int, best: int, keys: seq<bv64>,
                        score: int, sub: nat, best': int, alpha': int)
    requires i < |moves| && score == ChildScore(g, s, moves[i], d, alpha, beta, keys) && sub == ChildNodes(g, s, moves[i], d, alpha, beta, keys)
    requires best' == (if score > best then score else best) && alpha' == (if best' > alpha then best' else alpha)
    ensures CutoffNodes(g, s, moves, i, d, alpha, beta, best, keys)
         == 1 + sub + if alpha' >= beta then 0 else CutoffNodes(g, s, moves, i + 1, d, alpha', beta, best', keys)
  {
  }

  /** Past the last move the loop returns its best and makes no more moves. */
  lemma CutoffDone(g: Game, s: PosState, moves: seq<Move>, d: nat, alpha: int, beta: int, best: int, keys: seq<bv64>)
    ensures Cutoff(g, s, moves, |moves|, d, alpha, beta, best, keys) == best
    ensures CutoffNodes(g, s, moves, |moves|, d, alpha, beta, best, keys) == 0
  {
  }

  // Draw rules, mate and leaves of the chess game.

  /** A draw by rule scores 0 whatever the window and depth. */
  lemma RuleDrawScoresZero(material: bool, ev: PosState -> int, s: PosState, depth: nat, alpha: int, beta: int, keys: seq<bv64>)
    requires RuleDraw(s, keys, material)
    ensures AlphaBeta(Chess(material, ev), s, depth, alpha, beta, keys) == 0
    ensures Minimax(Chess(material, ev), s, depth, keys) == 0
  {
  }

  /** The position repeated for the third time in the history is a draw. */
  lemma RepetitionScoresZero(material: bool, ev: PosState -> int, s: PosState, depth: nat, alpha: int, beta: int, keys: seq<bv64>)
    requires |keys| > 0 && Occurrences(keys, keys[|keys| - 1]) >= 3
    ensures AlphaBeta(Chess(material, ev), s, depth, alpha, beta, keys) == 0
  {
  }

  /** Without legal moves: checkmate scores -MATE and stalemate 0, unless a draw rule applied first. */
  lemma NoMovesScore(material: bool, ev: PosState -> int, s: PosState, depth: nat, alpha: int, beta: int, keys: seq<bv64>)
    requires !RuleDraw(s, keys, material) && Generable(s) && LegalMoves(s) == []
    ensures AlphaBeta(Chess(material, ev), s, depth, alpha, beta, keys) == (if Threats.InCheck(s.board, s.side) then -MATE else 0)
  {
  }

  /** At depth zero a position with moves and no draw is evaluated. */
  lemma LeafEvaluates(material: bool, ev: PosState -> int, s: PosState, alpha: int, beta: int, keys: seq<bv64>)
    requires !RuleDraw(s, keys, material) && Generable(s) && LegalMoves(s) != []
    ensures AlphaBeta(Chess(material, ev), s, 0, alpha, beta, keys) == ev(s)
  {
  }

  // Fail-soft alpha-beta, for every game.

  /** v is a fail-soft alpha-beta value for the exact value m in the window (alpha, beta). */
  predicate FailSoft(v: int, m: int, alpha: int, beta: int)
  {
    && (v <= alpha ==> m <= v)
    && (v >= beta ==> m >= v)
    && (alpha < v < beta ==> m == v)
  }

  /**
   * A window inside the `i32` scores above `i32::MIN`: alpha is no lower
   * than the loops' starting best, and beta no higher than its negation, so
   * the negated windows of the children stay inside it too.
   */
  predicate InWindow(alpha: int, beta: int)
  {
    NO_SCORE <= alpha < beta <= -NO_SCORE
  }

  /** The unpruned loop never returns less than its starting best. */
  lemma {:induction false} MaxChildAtLeast(g: Game, s: PosState, moves: seq<Move>, i: nat, d: nat, best: int, keys: seq<bv64>)
    requires i <= |moves|
    ensures MaxChild(g, s, moves, i, d, best, keys) >= best
    decreases |moves| - i
  {
    if i < |moves| {
      var v := ChildValue(g, s, moves[i], d, keys);
      MaxChildAtLeast(g, s, moves, i + 1, d, if v > best then v else best, keys);
    }
  }

  /** The standard alpha-beta guarantee for a node. */
  lemma {:induction false} AlphaBetaFailSoft(g: Game, s: PosState, depth: nat, alpha: int, beta: int, keys: seq<bv64>)
    requires InWindow(alpha, beta)
    ensures FailSoft(AlphaBeta(g, s, depth, alpha, beta, keys), Minimax(g, s, depth, keys), alpha, beta)
    decreases depth, 1
  {
    if g.terminal(s, keys).None? && depth > 0 {
      CutoffFailSoft(g, s, g.moves(s), 0, depth - 1, alpha, alpha, beta, NO_SCORE, NO_SCORE, keys);
    }
  }

  /** The guarantee for one child: the negated, swapped window gives the negated bounds. */
  lemma ChildFailSoft(g: Game, s: PosState, mv: Move, d: nat, alpha: int, beta: int, keys: seq<bv64>)
    requires InWindow(alpha, beta)
    ensures FailSoft(ChildScore(g, s, mv, d, alpha, beta, keys), ChildValue(g, s, mv, d, keys), alpha, beta)
    decreases d, 2
  {
    match g.play(s, mv)
    case None =>
    case Some(t) =>
      AlphaBetaFailSoft(g, t, d, -beta, -alpha, keys + [g.key(t)]);
  }

  /**
   * The loop's invariant: alpha is the starting alpha0 or the best so far,
   * which it bounds from above; the unpruned maximum mbest never exceeds
   * best, and agrees with it once best has risen above alpha0.
   */
  lemma {:induction false} CutoffFailSoft(g: Game, s: PosState, moves: seq<Move>, i: nat, d: nat, alpha0: int, alpha: int, beta: int, best: int, mbest: int, keys: seq<bv64>)
    requires i <= |moves| && InWindow(alpha0, beta) && alpha0 <= alpha < beta
    requires best <= alpha && (alpha > alpha0 ==> alpha == best)
    requires mbest <= best && (best > alpha0 ==> mbest == best)
    ensures FailSoft(Cutoff(g, s, moves, i, d, alpha, beta, best, keys), MaxChild(g, s, moves, i, d, mbest, keys), alpha0, beta)
    decreases d, 3, |moves| - i
  {
    if i < |moves| {
      var score := ChildScore(g, s, moves[i], d, alpha, beta, keys);
      var v := ChildValue(g, s, moves[i], d, keys);
      ChildFailSoft(g, s, moves[i], d, alpha, beta, keys);
      var best' := if score > best then score else best;
      var alpha' := if best' > alpha then best' else alpha;
      var mbest' := if v > mbest then v else mbest;
      if alpha' >= beta {
        MaxChildAtLeast(g, s, moves, i + 1, d, mbest', keys);
      } else {
        CutoffFailSoft(g, s, moves, i + 1, d, alpha0, alpha', beta, best', mbest', keys);
      }
    }
  }

  // Bounds.

  /** Unpruned values stay within the mate score. */
  lemma {:induction false} MinimaxBound(g: Game, s: PosState, depth: nat, keys: seq<bv64>)
    requires Bounded(g)
    ensures -MATE <= Minimax(g, s, depth, keys) <= MATE
    decreases depth, 1
  {
    if g.terminal(s, keys).None? && depth > 0 {
      MaxChildBound(g, s, g.moves(s), 0, depth - 1, NO_SCORE, keys);
    }
  }

  lemma {:induction false} MaxChildBound(g: Game, s: PosState, moves: seq<Move>, i: nat, d: nat, best: int, keys: seq<bv64>)
    requires Bounded(g) && i <= |moves|
    requires -MATE <= best <= MATE || (best == NO_SCORE && i < |moves|)
    ensures -MATE <= MaxChild(g, s, moves, i, d, best, keys) <= MATE
    decreases d, 3, |moves| - i
  {
    if i < |moves| {
      match g.play(s, moves[i]) {
        case None =>
        case Some(t) => MinimaxBound(g, t, d, keys + [g.key(t)]);
      }
      var v := ChildValue(g, s, moves[i], d, keys);
      MaxChildBound(g, s, moves, i + 1, d, if v > best then v else best, keys);
    }
  }

  /** Alpha-beta values stay within the mate score too, so negating them never overflows an `i32`. */
  lemma {:induction false} AlphaBetaBound(g: Game, s: PosState, depth: nat, alpha: int, beta: int, keys: seq<bv64>)
    requires Bounded(g)
    ensures -MATE <= AlphaBeta(g, s, depth, alpha, beta, keys) <= MATE
    decreases depth, 1
  {
    if g.terminal(s, keys).None? && depth > 0 {
      CutoffBound(g, s, g.moves(s), 0, depth - 1, alpha, beta, NO_SCORE, keys);
    }
  }

  lemma {:induction false} CutoffBound(g: Game, s: PosState, moves: seq<Move>, i: nat, d: nat, alpha: int, beta: int, best: int, keys: seq<bv64>)
    requires Bounded(g) && i <= |moves|
    requires -MATE <= best <= MATE || (best == NO_SCORE && i < |moves|)
    ensures -MATE <= Cutoff(g, s, moves, i, d, alpha, beta, best, keys) <= MATE
    decreases d, 3, |moves| - i
  {
    if i < |moves| {
      ChildScoreBound(g, s, moves[i], d, alpha, beta, keys);
      var score := ChildScore(g, s, moves[i], d, alpha, beta, keys);
      var best' := if score > best then score else best;
      var alpha' := if best' > alpha then best' else alpha;
      if alpha' < beta {
        CutoffBound(g, s, moves, i + 1, d, alpha', beta, best', keys);
      }
    }
  }

  lemma ChildScoreBound(g: Game, s: PosState, mv: Move, d: nat, alpha: int, beta: int, keys: seq<bv64>)
    requires Bounded(g)
    ensures -MATE <= ChildScore(g, s, mv, d, alpha, beta, keys) <= MATE
    decreases d, 2
  {
    match g.play(s, mv)
    case None =>
    case Some(t) =>
      AlphaBetaBound(g, t, d, -beta, -alpha, keys + [g.key(t)]);
  }

  /** A window wider than the mate score on both sides gives the exact negamax value. */
  lemma WideWindowExact(g: Game, s: PosState, depth: nat, alpha: int, beta: int, keys: seq<bv64>)
    requires Bounded(g) && InWindow(alpha, beta) && alpha < -MATE && MATE < beta
    ensures AlphaBeta(g, s, depth, alpha, beta, keys) == Minimax(g, s, depth, keys)
  {
    AlphaBetaFailSoft(g, s, depth, alpha, beta, keys);
    AlphaBetaBound(g, s, depth, alpha, beta, keys);
    MinimaxBound(g, s, depth, keys);
  }

  // The root.

  /** A root pick: the index of the move in the move list, and its score. */
  datatype Choice = Choice(index: nat, score: int)

  /** `depth.saturating_sub(1)`. */
  function ChildDepth(depth: nat): nat
  {
    if depth == 0 then 0 else depth - 1
  }

  /**
   * The score the root gives mv: its child searched with the window
   * `(i32::MIN / 2, i32::MAX / 2)` and a history of the root's key and the
   * child's.
   */
  function RootScore(g: Game, s: PosState, mv: Move, d: nat, rootKey: bv64): int
  {
    ChildScore(g, s, mv, d, -ROOT_BETA, -ROOT_ALPHA, [rootKey])
  }

  /** The root loop from move i on: a later move replaces the choice only with a strictly higher score. */
  function RootScan(g: Game, s: PosState, moves: seq<Move>, i: nat, d: nat, c: Choice, rootKey: bv64): Choice
    requires i <= |moves|
    decreases |moves| - i
  {
    if i == |moves| then c
    else
      var score := RootScore(g, s, moves[i], d, rootKey);
      RootScan(g, s, moves, i + 1, d, if score > c.score then Choice(i, score) else c, rootKey)
  }

  /** One step of the root loop, for a score already computed. */
  lemma RootScanStep(g: Game, s: PosState, moves: seq<Move>, i: nat, d: nat, c: Choice, rootKey: bv64, score: int)
    requires i < |moves| && score == RootScore(g, s, moves[i], d, rootKey)
    ensures RootScan(g, s, moves, i, d, c, rootKey) == RootScan(g, s, moves, i + 1, d, if score > c.score then Choice(i, score) else c, rootKey)
  {
  }

  /** The root loop past the last move keeps its choice. */
  lemma RootScanDone(g: Game, s: PosState, moves: seq<Move>, d: nat, c: Choice, rootKey: bv64)
    ensures RootScan(g, s, moves, |moves|, d, c, rootKey) == c
  {
  }

  /** A child searched with the root's window and the root's key as the whole history scores its root score. */
  lemma RootChildScore(g: Game, s: PosState, mv: Move, d: nat, alpha: int, beta: int, keys: seq<bv64>, rootKey: bv64, score: int)
    requires alpha == -ROOT_BETA && beta == -ROOT_ALPHA && keys == [rootKey]
    requires score == ChildScore(g, s, mv, d, alpha, beta, keys)
    ensures score == RootScore(g, s, mv, d, rootKey)
  {
  }

  /**
   * The choice after the first k root moves: the root loop run on a prefix,
   * as it stands when the engines that watch the clock stop early.
   */
  function RootPrefix(g: Game, s: PosState, moves: seq<Move>, k: nat, d: nat, rootKey: bv64): Choice
    requires k <= |moves|
  {
    if k == 0 then Choice(0, NO_SCORE)
    else
      var c := RootPrefix(g, s, moves, k - 1, d, rootKey);
      var score := RootScore(g, s, moves[k - 1], d, rootKey);
      if score > c.score then Choice(k - 1, score) else c
  }

  /** Move k extends the prefix choice as the root loop does. */
  lemma RootPrefixStep(g: Game, s: PosState, moves: seq<Move>, k: nat, d: nat, rootKey: bv64, c: Choice, score: int)
    requires k < |moves| && c == RootPrefix(g, s, moves, k, d, rootKey) && score == RootScore(g, s, moves[k], d, rootKey)
    ensures RootPrefix(g, s, moves, k + 1, d, rootKey) == if score > c.score then Choice(k, score) else c
  {
  }

  /** Running the root loop on from the choice after k moves finishes the whole loop. */
  lemma {:induction false} RootPrefixScan(g: Game, s: PosState, moves: seq<Move>, k: nat, d: nat, rootKey: bv64)
    requires k <= |moves|
    ensures RootScan(g, s, moves, k, d, RootPrefix(g, s, moves, k, d, rootKey), rootKey)
         == RootScan(g, s, moves, 0, d, Choice(0, NO_SCORE), rootKey)
  {
    if k > 0 {
      RootPrefixScan(g, s, moves, k - 1, d, rootKey);
      var c := RootPrefix(g, s, moves, k - 1, d, rootKey);
      RootScanStep(g, s, moves, k - 1, d, c, rootKey, RootScore(g, s, moves[k - 1], d, rootKey));
    }
  }

  /** The choice after every move is that of the full root loop. */
  lemma RootPrefixComplete(g: Game, s: PosState, moves: seq<Move>, d: nat, rootKey: bv64)
    ensures RootPrefix(g, s, moves, |moves|, d, rootKey) == RootScan(g, s, moves, 0, d, Choice(0, NO_SCORE), rootKey)
  {
    RootPrefixScan(g, s, moves, |moves|, d, rootKey);
    RootScanDone(g, s, moves, d, RootPrefix(g, s, moves, |moves|, d, rootKey), rootKey);
  }

  /** `pick_best_move`: none without moves, otherwise the first move of best score. */
  function PickBest(g: Game, s: PosState, depth: nat): Option<(Move, int)>
  {
    var moves := g.moves(s);
    if moves == [] then None
    else
      var c := RootScan(g, s, moves, 0, ChildDepth(depth), Choice(0, NO_SCORE), g.key(s));
      if c.index < |moves| then Some((moves[c.index], c.score)) else None
  }

  /** How `PickBest` reads off the root scan. */
  lemma PickBestOfScan(g: Game, s: PosState, depth: nat, moves: seq<Move>, d: nat, c: Choice)
    requires moves == g.moves(s) && d == ChildDepth(depth)
    requires moves != [] ==> c == RootScan(g, s, moves, 0, d, Choice(0, NO_SCORE), g.key(s)) && c.index < |moves|
    ensures moves == [] ==> PickBest(g, s, depth) == None
    ensures moves != [] ==> PickBest(g, s, depth) == Some((moves[c.index], c.score))
  {
  }

  /** `PickBest` on the chess game, read off a root scan over the legal moves keyed by the root's hash. */
  lemma CorePickBestOfScan(s: PosState, depth: nat, moves: seq<Move>, d: nat, c: Choice)
    requires Generable(s) && moves == LegalMoves(s) && d == ChildDepth(depth)
    requires moves != [] ==> c == RootScan(CoreGame(), s, moves, 0, d, Choice(0, NO_SCORE), Hashing.PositionHash(s)) && c.index < |moves|
    ensures PickBest(CoreGame(), s, depth) == if moves == [] then None else Some((moves[c.index], c.score))
  {
    ChessMovesKey(false, Eval.Evaluate, s);
    PickBestOfScan(CoreGame(), s, depth, moves, d, c);
  }

  /** `PickBest` on a chess game, read off the root loop run over all the legal moves, keyed by the root's hash. */
  lemma ChessPickBestOfPrefix(material: bool, ev: PosState -> int, s: PosState, depth: nat, moves: seq<Move>, d: nat, k: nat, c: Choice)
    requires Generable(s) && moves == LegalMoves(s) && d == ChildDepth(depth)
    requires moves != [] ==> k == |moves| && c == RootPrefix(Chess(material, ev), s, moves, k, d, Hashing.PositionHash(s)) && c.index < |moves|
    ensures PickBest(Chess(material, ev), s, depth) == if moves == [] then None else Some((moves[c.index], c.score))
  {
    ChessMovesKey(material, ev, s);
    RootPrefixComplete(Chess(material, ev), s, moves, d, Hashing.PositionHash(s));
    PickBestOfScan(Chess(material, ev), s, depth, moves, d, c);
  }

  /** The unpruned value of a root move. */
  function RootValue(g: Game, s: PosState, mv: Move, d: nat, rootKey: bv64): int
  {
    ChildValue(g, s, mv, d, [rootKey])
  }

  /** The root's window makes every root score exact, and within the mate score. */
  lemma RootScoreExact(g: Game, s: PosState, mv: Move, d: nat, rootKey: bv64)
    requires Bounded(g)
    ensures RootScore(g, s, mv, d, rootKey) == RootValue(g, s, mv, d, rootKey)
    ensures -MATE <= RootScore(g, s, mv, d, rootKey) <= MATE
  {
    match g.play(s, mv)
    case None =>
    case Some(t) =>
      WideWindowExact(g, t, d, ROOT_ALPHA, ROOT_BETA, [rootKey] + [g.key(t)]);
      AlphaBetaBound(g, t, d, ROOT_ALPHA, ROOT_BETA, [rootKey] + [g.key(t)]);
  }

  /** The root scan's invariant: the choice is the first maximum of the values seen so far. */
  ghost predicate FirstBest(g: Game, s: PosState, moves: seq<Move>, i: nat, d: nat, c: Choice, rootKey: bv64)
    requires i <= |moves|
  {
    && c.index < i
    && c.score == RootValue(g, s, moves[c.index], d, rootKey)
    && (forall j :: 0 <= j < i ==> RootValue(g, s, moves[j], d, rootKey) <= c.score)
    && (forall j :: 0 <= j < c.index ==> RootValue(g, s, moves[j], d, rootKey) < c.score)
  }

  lemma {:induction false} RootScanFirstBest(g: Game, s: PosState, moves: seq<Move>, i: nat, d: nat, c: Choice, rootKey: bv64)
    requires Bounded(g) && 0 < |moves| && i <= |moves|
    requires (i == 0 && c == Choice(0, NO_SCORE)) || (i > 0 && FirstBest(g, s, moves, i, d, c, rootKey))
    ensures FirstBest(g, s, moves, |moves|, d, RootScan(g, s, moves, i, d, c, rootKey), rootKey)
    decreases |moves| - i
  {
    if i < |moves| {
      RootScoreExact(g, s, moves[i], d, rootKey);
      var score := RootScore(g, s, moves[i], d, rootKey);
      var c' := if score > c.score then Choice(i, score) else c;
      assert FirstBest(g, s, moves, i + 1, d, c', rootKey);
      RootScanFirstBest(g, s, moves, i + 1, d, c', rootKey);
    }
  }

  /** After k > 0 root moves the choice is the first maximum of their exact values, as a stopped root reports it. */
  lemma {:induction false} RootPrefixFirstBest(g: Game, s: PosState, moves: seq<Move>, k: nat, d: nat, rootKey: bv64)
    requires Bounded(g) && 0 < k <= |moves|
    ensures FirstBest(g, s, moves, k, d, RootPrefix(g, s, moves, k, d, rootKey), rootKey)
  {
    RootScoreExact(g, s, moves[k - 1], d, rootKey);
    if k > 1 {
      RootPrefixFirstBest(g, s, moves, k - 1, d, rootKey);
    }
  }

  /**
   * `pick_best_move` returns nothing exactly when there is no move;
   * otherwise a move of the list whose score is the exact negamax value of
   * its child, no smaller than any other move's, and strictly larger than
   * that of every move before it.
   */
  lemma PickBestSpec(g: Game, s: PosState, depth: nat)
    requires Bounded(g)
    ensures PickBest(g, s, depth).None? <==> g.moves(s) == []
    ensures PickBest(g, s, depth).Some? ==>
      var moves := g.moves(s);
      var d := ChildDepth(depth);
      var (mv, score) := PickBest(g, s, depth).value;
      exists i :: 0 <= i < |moves| && moves[i] == mv && score == RootValue(g, s, mv, d, g.key(s))
        && (forall j :: 0 <= j < |moves| ==> RootValue(g, s, moves[j], d, g.key(s)) <= score)
        && (forall j :: 0 <= j < i ==> RootValue(g, s, moves[j], d, g.key(s)) < score)
  {
    var moves := g.moves(s);
    if moves != [] {
      var d := ChildDepth(depth);
      RootScanFirstBest(g, s, moves, 0, d, Choice(0, NO_SCORE), g.key(s));
      var c := RootScan(g, s, moves, 0, d, Choice(0, NO_SCORE), g.key(s));
      assert moves[c.index] == PickBest(g, s, depth).value.0;
    }
  }

  /** With chess rules the moves are the legal moves, and the root score of each is its exact negamax value. */
  lemma CorePickBest(s: PosState, depth: nat)
    requires Generable(s)
    ensures PickBest(CoreGame(), s, depth).None? <==> LegalMoves(s) == []
    ensures PickBest(CoreGame(), s, depth).Some? ==> PickBest(CoreGame(), s, depth).value.0 in LegalMoves(s)
  {
    CoreBounded();
    PickBestSpec(CoreGame(), s, depth);
  }

  // Node counts of the engines that count `make_move`s.

  /** The moves a complete `negamax` makes below a node. */
  function AlphaBetaNodes(g: Game, s: PosState, depth: nat, alpha: int, beta: int, keys: seq<bv64>): nat
    decreases depth, 1
  {
    if g.terminal(s, keys).Some? || depth == 0 then 0
    else CutoffNodes(g, s, g.moves(s), 0, depth - 1, alpha, beta, NO_SCORE, keys)
  }

  /** The moves made below mv, as its child is searched. */
  function ChildNodes(g: Game, s: PosState, mv: Move, d: nat, alpha: int, beta: int, keys: seq<bv64>): nat
    decreases d, 2
  {
    match g.play(s, mv)
    case None => 0
    case Some(t) => AlphaBetaNodes(g, t, d, -beta, -alpha, keys + [g.key(t)])
  }

  /** The moves made by the loop from move i on: one per move tried plus its subtree, up to the cutoff. */
  function CutoffNodes(g: Game, s: PosState, moves: seq<Move>, i: nat, d: nat, alpha: int, beta: int, best: int, keys: seq<bv64>): nat
    requires i <= |moves|
    decreases d, 3, |moves| - i
  {
    if i == |moves| then 0
    else
      var score := ChildScore(g, s, moves[i], d, alpha, beta, keys);
      var best' := if score > best then score else best;
      var alpha' := if best' > alpha then best' else alpha;
      1 + ChildNodes(g, s, moves[i], d, alpha, beta, keys)
        + if alpha' >= beta then 0 else CutoffNodes(g, s, moves, i + 1, d, alpha', beta, best', keys)
  }

  /** The moves made by the root loop over its first k moves: one per move plus its child's. */
  function RootNodes(g: Game, s: PosState, moves: seq<Move>, k: nat, d: nat, rootKey: bv64): nat
    requires k <= |moves|
  {
    if k == 0 then 0
    else RootNodes(g, s, moves, k - 1, d, rootKey) + 1 + ChildNodes(g, s, moves[k - 1], d, -ROOT_BETA, -ROOT_ALPHA, [rootKey])
  }

  /** A node whose moves are searched makes at least one move. */
  lemma NodesCountMoves(g: Game, s: PosState, depth: nat, alpha: int, beta: int, keys: seq<bv64>)
    requires g.terminal(s, keys).None? && depth > 0
    ensures AlphaBetaNodes(g, s, depth, alpha, beta, keys) >= 1 <==> g.moves(s) != []
  {
  }

  /** The root loop makes at least one move per root move searched. */
  lemma {:induction false} RootNodesAtLeast(g: Game, s: PosState, moves: seq<Move>, k: nat, d: nat, rootKey: bv64)
    requires k <= |moves|
    ensures RootNodes(g, s, moves, k, d, rootKey) >= k
  {
    if k > 0 {
      RootNodesAtLeast(g, s, moves, k - 1, d, rootKey);
    }
  }
}
