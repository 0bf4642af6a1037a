/**
 * crates/chess_core/src/search.rs: `pick_best_move` and `negamax`, alpha-beta
 * over make/unmake on one mutable position, with the repetition history kept
 * on a stack of keys. Each method is proved to compute the value of the
 * corresponding function of `SearchSpec` on the chess game `CoreGame()`, and
 * to leave the position and the history as it found them.
 */
module CoreSearch {
  import opened Wrappers
  import opened Types
  import opened Positions
  import opened Generation
  import opened Board
  import opened MoveGen
  import opened Perft
  import opened Play
  import opened SearchSpec
  import opened History
  import Eval
  import Hashing

  /** What the search needs of every legal move: it can be made, unmade, and its child searched in turn. */
  ghost predicate ChildReady(s: PosState, mv: Move)
  {
    CanMake(s, mv) && Reversible(s, mv) && Playable(MakeState(s, mv))
  }

  lemma ReadyChildren(s: PosState)
    requires Playable(s)
    ensures Generable(s)
    ensures forall mv :: mv in LegalMoves(s) ==> ChildReady(s, mv)
  {
    Children(s);
  }

  /**
   * `negamax`: a draw by the fifty-move rule or by threefold repetition of
   * the newest key scores 0; with no legal move, checkmate scores -100000
   * and stalemate 0; depth zero evaluates; otherwise the moves are searched.
   */
  method Negamax(pos: Position, depth: nat, alpha: int, beta: int, history: KeyStack) returns (value: int)
    requires pos.Valid() && Playable(pos.State())
    modifies pos, history
    ensures pos.Valid() && pos.State() == old(pos.State())
    ensures history.keys == old(history.keys)
    ensures value == AlphaBeta(CoreGame(), old(pos.State()), depth, alpha, beta, old(history.keys))
    decreases depth, 3
  {
    ghost var s := pos.State();
    ghost var keys := history.keys;
    var drawn := DrawnByRule(pos, history);
    if drawn {
      RuleDrawScoresZero(false, Eval.Evaluate, s, depth, alpha, beta, keys);
      return 0;
    }
    ReadyChildren(s);
    var moves := new MoveBuffer();
    LegalMovesInto(pos, moves);
    value := NodeValue(pos, moves, depth, alpha, beta, history);
  }

  /** The rest of `negamax` once no draw rule applies: mate or stalemate, a leaf, or the move loop. */
  method NodeValue(pos: Position, moves: MoveBuffer, depth: nat, alpha: int, beta: int, history: KeyStack) returns (value: int)
    requires pos.Valid() && Playable(pos.State()) && Generable(pos.State())
    requires !RuleDraw(pos.State(), history.keys, false) && moves.items == LegalMoves(pos.State())
    requires forall mv :: mv in moves.items ==> ChildReady(pos.State(), mv)
    modifies pos, history
    ensures pos.Valid() && pos.State() == old(pos.State())
    ensures history.keys == old(history.keys)
    ensures value == AlphaBeta(CoreGame(), old(pos.State()), depth, alpha, beta, old(history.keys))
    decreases depth, 2
  {
    if |moves.items| == 0 {
      value := NoMovesValue(pos, depth, alpha, beta, history.keys, false, Eval.Evaluate);
    } else if depth == 0 {
      value := LeafValue(pos, alpha, beta, history.keys);
    } else {
      value := SearchedValue(pos, moves, depth, alpha, beta, history);
    }
  }

  /** No legal move: checkmate scores -100000, stalemate 0, in every chess game whose draw rules do not apply. */
  method NoMovesValue(pos: Position, depth: nat, alpha: int, beta: int, ghost keys: seq<bv64>,
                      ghost material: bool, ghost ev: PosState -> int) returns (value: int)
    requires pos.Valid() && Generable(pos.State())
    requires !RuleDraw(pos.State(), keys, material) && LegalMoves(pos.State()) == []
    ensures value == AlphaBeta(Chess(material, ev), pos.State(), depth, alpha, beta, keys)
  {
    NoMovesScore(material, ev, pos.State(), depth, alpha, beta, keys);
    var check := pos.InCheck(pos.sideToMove);
    value := if check then -MATE else 0;
  }

  /** Depth zero with legal moves: the static evaluation. */
  method LeafValue(pos: Position, alpha: int, beta: int, ghost keys: seq<bv64>) returns (value: int)
    requires pos.Valid() && Generable(pos.State())
    requires !RuleDraw(pos.State(), keys, false) && LegalMoves(pos.State()) != []
    ensures value == AlphaBeta(CoreGame(), pos.State(), 0, alpha, beta, keys)
  {
    ChessOpen(false, Eval.Evaluate, pos.State(), keys);
    LeafEvaluates(false, Eval.Evaluate, pos.State(), alpha, beta, keys);
    value := Eval.EvaluateMailbox(pos);
  }

  /** Positive depth with legal moves: the move loop one ply down. */
  method SearchedValue(pos: Position, moves: MoveBuffer, depth: nat, alpha: int, beta: int, history: KeyStack) returns (value: int)
    requires pos.Valid() && Generable(pos.State()) && depth > 0
    requires !RuleDraw(pos.State(), history.keys, false) && moves.items == LegalMoves(pos.State()) && moves.items != []
    requires forall mv :: mv in moves.items ==> ChildReady(pos.State(), mv)
    modifies pos, history
    ensures pos.Valid() && pos.State() == old(pos.State())
    ensures history.keys == old(history.keys)
    ensures value == AlphaBeta(CoreGame(), old(pos.State()), depth, alpha, beta, old(history.keys))
    decreases depth, 1
  {
    ChessOpen(false, Eval.Evaluate, pos.State(), history.keys);
    var d := depth - 1;
    SearchedNode(CoreGame(), pos.State(), depth, alpha, beta, history.keys, d);
    value := SearchMoves(pos, moves, d, alpha, beta, history);
  }

  /** The draw checks of `negamax`: the fifty-move rule, then the newest key occurring three times in the history. */
  method DrawnByRule(pos: Position, history: KeyStack) returns (drawn: bool)
    ensures drawn == RuleDraw(pos.State(), history.keys, false)
  {
    if pos.halfmoveClock >= 100 {
      return true;
    }
    var fallback := pos.PositionHash();
    var last := history.Last();
    var currKey := last.UnwrapOr(fallback);
    var repeats := history.Count(currKey);
    return repeats >= 3;
  }

  /** The move loop of `negamax`: keep the best score, raise alpha to it, stop at a beta cutoff. */
  method SearchMoves(pos: Position, buf: MoveBuffer, d: nat, alpha0: int, beta: int, history: KeyStack) returns (best: int)
    requires pos.Valid()
    requires forall mv :: mv in buf.items ==> ChildReady(pos.State(), mv)
    modifies pos, history
    ensures pos.Valid() && pos.State() == old(pos.State())
    ensures history.keys == old(history.keys)
    ensures best == Cutoff(CoreGame(), old(pos.State()), buf.items, 0, d, alpha0, beta, NO_SCORE, old(history.keys))
    decreases d + 1, 0
  {
    ghost var s := pos.State();
    ghost var keys := history.keys;
    ghost var moves := buf.items;
    best := NO_SCORE;
    var alpha := alpha0;
    var i := 0;
    while i < |buf.items|
      invariant i <= |moves| && buf.items == moves
      invariant pos.Valid() && pos.State() == s && history.keys == keys
      invariant Cutoff(CoreGame(), s, moves, i, d, alpha, beta, best, keys) == Cutoff(CoreGame(), s, moves, 0, d, alpha0, beta, NO_SCORE, keys)
      decreases |moves| - i
    {
      var mv := buf.items[i];
      var score := PlayChild(pos, mv, d, alpha, beta, history);
      ghost var best0, alpha0' := best, alpha;
      if score > best {
        best := score;
      }
      if best > alpha {
        alpha := best;
      }
      CutoffStep(CoreGame(), s, moves, i, d, alpha0', beta, best0, keys, score, best, alpha);
      if alpha >= beta {
        return;
      }
      i := i + 1;
    }
  }

  /** Make mv, push the new key, search the child with the negated window, pop, unmake. */
  method PlayChild(pos: Position, mv: Move, d: nat, alpha: int, beta: int, history: KeyStack) returns (score: int)
    requires pos.Valid() && ChildReady(pos.State(), mv)
    modifies pos, history
    ensures pos.Valid() && pos.State() == old(pos.State())
    ensures history.keys == old(history.keys)
    ensures score == ChildScore(CoreGame(), old(pos.State()), mv, d, alpha, beta, old(history.keys))
    decreases d, 4
  {
    ghost var s := pos.State();
    ghost var keys := history.keys;
    ghost var t := MakeState(s, mv);
    var undo := pos.MakeMove(mv);
    var key := pos.PositionHash();
    history.Push(key);
    var childAlpha, childBeta := -beta, -alpha;
    var v := Negamax(pos, d, childAlpha, childBeta, history);
    score := -v;
    history.Pop();
    PushPop(history.keys, key, keys);
    UnmakeMake(s, mv);
    pos.UnmakeMove(mv, undo);
    ChessPlays(false, Eval.Evaluate, s, mv);
    PlayedChildScore(CoreGame(), s, mv, t, d, alpha, beta, keys, childAlpha, childBeta, key);
  }

  /**
   * `pick_best_move`: on a copy of the position, no move without legal
   * moves; otherwise each move's child is searched with the window
   * `(i32::MIN / 2, i32::MAX / 2)` and the first move of highest score wins.
   */
  method PickBestMove(pos: Position, depth: nat) returns (result: Option<(Move, int)>)
    requires pos.Valid() && Playable(pos.State())
    ensures result == PickBest(CoreGame(), pos.State(), depth)
  {
    ghost var s := pos.State();
    var tmp := new Position.Clone(pos);
    ReadyChildren(s);
    var moves := new MoveBuffer();
    LegalMovesInto(tmp, moves);
    result := PickFromMoves(tmp, moves, depth);
  }

  /** `pick_best_move` once the legal moves of its copy are generated. */
  method PickFromMoves(tmp: Position, moves: MoveBuffer, depth: nat) returns (result: Option<(Move, int)>)
    requires tmp.Valid() && Generable(tmp.State()) && moves.items == LegalMoves(tmp.State())
    requires forall mv :: mv in moves.items ==> ChildReady(tmp.State(), mv)
    modifies tmp
    ensures result == PickBest(CoreGame(), old(tmp.State()), depth)
  {
    ghost var s := tmp.State();
    ghost var items := moves.items;
    var d := if depth == 0 then 0 else depth - 1;
    ghost var c := Choice(0, NO_SCORE);
    if |moves.items| == 0 {
      result := None;
    } else {
      var best, bestScore, bestIndex := PickAmong(tmp, moves, d);
      c := Choice(bestIndex, bestScore);
      result := Some((best, bestScore));
    }
    CorePickBestOfScan(s, depth, items, d, c);
  }

  /** `pick_best_move` with at least one legal move: the history starts with the root's key. */
  method PickAmong(tmp: Position, moves: MoveBuffer, d: nat) returns (best: Move, bestScore: int, ghost bestIndex: nat)
    requires tmp.Valid() && |moves.items| > 0
    requires forall mv :: mv in moves.items ==> ChildReady(tmp.State(), mv)
    modifies tmp
    ensures bestIndex < |moves.items| && best == moves.items[bestIndex]
    ensures Choice(bestIndex, bestScore)
         == RootScan(CoreGame(), old(tmp.State()), moves.items, 0, d, Choice(0, NO_SCORE), Hashing.PositionHash(old(tmp.State())))
  {
    var history := new KeyStack();
    var rootKey := tmp.PositionHash();
    history.Push(rootKey);
    best, bestScore, bestIndex := ScanRoot(tmp, moves, d, history, rootKey);
  }

  /** The loop of `pick_best_move`: a move replaces the best so far only with a strictly higher score. */
  method ScanRoot(tmp: Position, moves: MoveBuffer, d: nat, history: KeyStack, ghost rootKey: bv64)
    returns (best: Move, bestScore: int, ghost bestIndex: nat)
    requires tmp.Valid() && |moves.items| > 0 && history.keys == [rootKey]
    requires forall mv :: mv in moves.items ==> ChildReady(tmp.State(), mv)
    modifies tmp, history
    ensures tmp.Valid() && tmp.State() == old(tmp.State()) && history.keys == old(history.keys)
    ensures bestIndex < |moves.items| && best == moves.items[bestIndex]
    ensures Choice(bestIndex, bestScore) == RootScan(CoreGame(), old(tmp.State()), moves.items, 0, d, Choice(0, NO_SCORE), rootKey)
  {
    ghost var s := tmp.State();
    ghost var items := moves.items;
    best := moves.items[0];
    bestScore := NO_SCORE;
    bestIndex := 0;
    var i := 0;
    while i < |moves.items|
      invariant i <= |items| && moves.items == items
      invariant tmp.Valid() && tmp.State() == s && history.keys == [rootKey]
      invariant bestIndex < |items| && best == items[bestIndex]
      invariant RootScan(CoreGame(), s, items, i, d, Choice(bestIndex, bestScore), rootKey)
             == RootScan(CoreGame(), s, items, 0, d, Choice(0, NO_SCORE), rootKey)
      decreases |items| - i
    {
      best, bestScore, bestIndex := RootStep(tmp, moves, i, d, history, rootKey, best, bestScore, bestIndex);
      i := i + 1;
    }
    RootScanDone(CoreGame(), s, items, d, Choice(bestIndex, bestScore), rootKey);
  }

  /** One pass of the `pick_best_move` loop: move i replaces the best so far only with a strictly higher score. */
  method RootStep(tmp: Position, moves: MoveBuffer, i: nat, d: nat, history: KeyStack, ghost rootKey: bv64,
                  best: Move, bestScore: int, ghost bestIndex: nat)
    returns (best': Move, bestScore': int, ghost bestIndex': nat)
    requires tmp.Valid() && i < |moves.items| && history.keys == [rootKey]
    requires ChildReady(tmp.State(), moves.items[i])
    requires bestIndex < |moves.items| && best == moves.items[bestIndex]
    modifies tmp, history
    ensures tmp.Valid() && tmp.State() == old(tmp.State()) && history.keys == old(history.keys)
    ensures bestIndex' < |moves.items| && best' == moves.items[bestIndex']
    ensures RootScan(CoreGame(), old(tmp.State()), moves.items, i + 1, d, Choice(bestIndex', bestScore'), rootKey)
         == RootScan(CoreGame(), old(tmp.State()), moves.items, i, d, Choice(bestIndex, bestScore), rootKey)
  {
    ghost var s := tmp.State();
    var mv := moves.items[i];
    var score := RootChild(tmp, mv, d, history, rootKey);
    RootScanStep(CoreGame(), s, moves.items, i, d, Choice(bestIndex, bestScore), rootKey, score);
    if score > bestScore {
      best', bestScore', bestIndex' := mv, score, i;
    } else {
      best', bestScore', bestIndex' := best, bestScore, bestIndex;
    }
  }

  /** One root move: its child searched with the window `(i32::MIN / 2, i32::MAX / 2)`, negated. */
  method RootChild(tmp: Position, mv: Move, d: nat, history: KeyStack, ghost rootKey: bv64) returns (score: int)
    requires tmp.Valid() && ChildReady(tmp.State(), mv) && history.keys == [rootKey]
    modifies tmp, history
    ensures tmp.Valid() && tmp.State() == old(tmp.State()) && history.keys == old(history.keys)
    ensures score == RootScore(CoreGame(), old(tmp.State()), mv, d, rootKey)
  {
    var rootAlpha, rootBeta := ROOT_ALPHA, ROOT_BETA;
    var childAlpha, childBeta := -rootBeta, -rootAlpha;
    ghost var s, keys := tmp.State(), history.keys;
    score := PlayChild(tmp, mv, d, childAlpha, childBeta, history);
    RootChildScore(CoreGame(), s, mv, d, childAlpha, childBeta, keys, rootKey, score);
  }
}
