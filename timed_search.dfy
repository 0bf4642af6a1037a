/**
 * The alpha-beta search of the engines that count nodes and watch the clock:
 * `pick_best_move`/`negamax` of crates/classical_engine/src/search.rs and
 * `search_internal`/`negamax` of crates/engines/neural/src/lib.rs. The two
 * differ only in where the node counter lives (a `&mut u64` or the engine's
 * `nodes` field) and in the leaf evaluation, which is a parameter here.
 *
 * Against `negamax` of crates/chess_core/src/search.rs these add a clock
 * check every 1024 nodes, insufficient material as a third draw rule, and a
 * count of one node per `make_move`. A search the clock does not stop
 * returns the value of `SearchSpec.AlphaBeta` on the game `Timed(src)` and
 * adds exactly `SearchSpec.AlphaBetaNodes` to the count; a stopped one
 * still restores the position and the history.
 */
module TimedSearch {
  import opened Wrappers
  import opened Types
  import opened Positions
  import opened Generation
  import opened Board
  import opened MoveGen
  import opened Perft
  import opened Play
  import opened SearchSpec
  import opened History
  import opened Engines
  import CoreSearch
  import Eval
  import Hashing

  /** Where the leaf score comes from: mailbox material, popcount material, or a loaded network. */
  datatype EvalSource = Mailbox | Popcount | Network(net: PosState -> int)

  /** The leaf evaluation of a source: a network's own score, otherwise material from the side to move. */
  function LeafEval(src: EvalSource): PosState -> int
  {
    if src.Network? then src.net else Eval.Evaluate
  }

  /** The game these engines search: insufficient material is a draw, and the leaves score by the source. */
  function Timed(src: EvalSource): Game
  {
    Chess(true, LeafEval(src))
  }

  /**
   * The leaf score: `evaluate` of crates/classical_engine/src/eval.rs walks
   * the mailbox; `NeuralEngine::evaluate` asks the network when one is
   * loaded and falls back to `material_eval`, which counts with popcount.
   */
  method Evaluate(pos: Position, src: EvalSource) returns (score: int)
    requires pos.Valid()
    ensures score == LeafEval(src)(pos.State())
  {
    match src
    case Mailbox =>
      score := Eval.EvaluateMailbox(pos);
    case Popcount =>
      score := Eval.EvaluateBitboards(pos);
    case Network(net) =>
      score := net(pos.State());
  }

  /**
   * `negamax`: when the count is a multiple of 1024 the clock is read and a
   * stop returns at once; otherwise the draw rules, mate, stalemate and the
   * leaf are scored, and the moves searched.
   */
  method Negamax(pos: Position, depth: nat, alpha: int, beta: int, history: KeyStack, tc: TimeOracle,
                 src: EvalSource, nodes: nat)
    returns (value: int, stopped: bool, nodes': nat)
    requires pos.Valid() && Playable(pos.State())
    modifies pos, history, tc
    ensures pos.Valid() && pos.State() == old(pos.State()) && history.keys == old(history.keys)
    ensures tc.started == old(tc.started) && tc.stopped == (old(tc.stopped) || stopped)
    ensures old(tc.stopped) && ShouldCheckTime(nodes) ==> stopped
    ensures nodes' >= nodes
    ensures !stopped ==> value == AlphaBeta(Timed(src), old(pos.State()), depth, alpha, beta, old(history.keys))
    ensures !stopped ==> nodes' == nodes + AlphaBetaNodes(Timed(src), old(pos.State()), depth, alpha, beta, old(history.keys))
    decreases depth, 5
  {
    if ShouldCheckTime(nodes) {
      var up := tc.CheckTime();
      if up {
        return 0, true, nodes;
      }
    }
    value, stopped, nodes' := Unclocked(pos, depth, alpha, beta, history, tc, src, nodes);
  }

  /** `negamax` after the clock: the three draw rules, then the legal moves. */
  method Unclocked(pos: Position, depth: nat, alpha: int, beta: int, history: KeyStack, tc: TimeOracle,
                   src: EvalSource, nodes: nat)
    returns (value: int, stopped: bool, nodes': nat)
    requires pos.Valid() && Playable(pos.State())
    modifies pos, history, tc
    ensures pos.Valid() && pos.State() == old(pos.State()) && history.keys == old(history.keys)
    ensures tc.started == old(tc.started) && tc.stopped == (old(tc.stopped) || stopped)
    ensures nodes' >= nodes
    ensures !stopped ==> value == AlphaBeta(Timed(src), old(pos.State()), depth, alpha, beta, old(history.keys))
    ensures !stopped ==> nodes' == nodes + AlphaBetaNodes(Timed(src), old(pos.State()), depth, alpha, beta, old(history.keys))
    decreases depth, 4
  {
    ghost var s := pos.State();
    ghost var keys := history.keys;
    var drawn := DrawnByAnyRule(pos, history);
    if drawn {
      RuleDrawScoresZero(true, LeafEval(src), s, depth, alpha, beta, keys);
      ChessTerminalNodes(true, LeafEval(src), s, depth, alpha, beta, keys);
      return 0, false, nodes;
    }
    CoreSearch.ReadyChildren(s);
    var moves := new MoveBuffer();
    LegalMovesInto(pos, moves);
    value, stopped, nodes' := NodeValue(pos, moves, depth, alpha, beta, history, tc, src, nodes);
  }

  /** The draw checks in their order: the fifty-move rule, threefold repetition of the newest key, insufficient material. */
  method DrawnByAnyRule(pos: Position, history: KeyStack) returns (drawn: bool)
    requires pos.Valid()
    ensures drawn == RuleDraw(pos.State(), history.keys, true)
  {
    drawn := CoreSearch.DrawnByRule(pos, history);
    if !drawn {
      drawn := pos.IsInsufficientMaterial();
    }
  }

  /** The rest of `negamax` once no draw rule applies: mate or stalemate, a leaf, or the move loop. */
  method NodeValue(pos: Position, moves: MoveBuffer, depth: nat, alpha: int, beta: int, history: KeyStack,
                   tc: TimeOracle, src: EvalSource, nodes: nat)
    returns (value: int, stopped: bool, nodes': nat)
    requires pos.Valid() && Generable(pos.State())
    requires !RuleDraw(pos.State(), history.keys, true) && moves.items == LegalMoves(pos.State())
    requires forall mv :: mv in moves.items ==> CoreSearch.ChildReady(pos.State(), mv)
    modifies pos, history, tc
    ensures pos.Valid() && pos.State() == old(pos.State()) && history.keys == old(history.keys)
    ensures tc.started == old(tc.started) && tc.stopped == (old(tc.stopped) || stopped)
    ensures nodes' >= nodes
    ensures !stopped ==> value == AlphaBeta(Timed(src), old(pos.State()), depth, alpha, beta, old(history.keys))
    ensures !stopped ==> nodes' == nodes + AlphaBetaNodes(Timed(src), old(pos.State()), depth, alpha, beta, old(history.keys))
    decreases depth, 3
  {
    if |moves.items| == 0 {
      ChessTerminalNodes(true, LeafEval(src), pos.State(), depth, alpha, beta, history.keys);
      value := CoreSearch.NoMovesValue(pos, depth, alpha, beta, history.keys, true, LeafEval(src));
      stopped, nodes' := false, nodes;
    } else if depth == 0 {
      ChessTerminalNodes(true, LeafEval(src), pos.State(), depth, alpha, beta, history.keys);
      value := LeafValue(pos, alpha, beta, history.keys, src);
      stopped, nodes' := false, nodes;
    } else {
      value, stopped, nodes' := SearchedValue(pos, moves, depth, alpha, beta, history, tc, src, nodes);
    }
  }

  /** Depth zero with legal moves: the leaf evaluation of the source. */
  method LeafValue(pos: Position, alpha: int, beta: int, ghost keys: seq<bv64>, src: EvalSource) returns (value: int)
    requires pos.Valid() && Generable(pos.State())
    requires !RuleDraw(pos.State(), keys, true) && LegalMoves(pos.State()) != []
    ensures value == AlphaBeta(Timed(src), pos.State(), 0, alpha, beta, keys)
  {
    LeafEvaluates(true, LeafEval(src), pos.State(), alpha, beta, keys);
    value := Evaluate(pos, src);
  }

  /** Positive depth with legal moves: the move loop one ply down. */
  method SearchedValue(pos: Position, moves: MoveBuffer, depth: nat, alpha: int, beta: int, history: KeyStack,
                       tc: TimeOracle, src: EvalSource, nodes: nat)
    returns (value: int, stopped: bool, nodes': nat)
    requires pos.Valid() && Generable(pos.State()) && depth > 0
    requires !RuleDraw(pos.State(), history.keys, true) && moves.items == LegalMoves(pos.State()) && moves.items != []
    requires forall mv :: mv in moves.items ==> CoreSearch.ChildReady(pos.State(), mv)
    modifies pos, history, tc
    ensures pos.Valid() && pos.State() == old(pos.State()) && history.keys == old(history.keys)
    ensures tc.started == old(tc.started) && tc.stopped == (old(tc.stopped) || stopped)
    ensures nodes' >= nodes
    ensures !stopped ==> value == AlphaBeta(Timed(src), old(pos.State()), depth, alpha, beta, old(history.keys))
    ensures !stopped ==> nodes' == nodes + AlphaBetaNodes(Timed(src), old(pos.State()), depth, alpha, beta, old(history.keys))
    decreases depth, 2
  {
    var d := depth - 1;
    TimedOpen(src, pos.State(), moves.items, depth, d, alpha, beta, history.keys);
    value, stopped, nodes' := SearchMoves(pos, moves, d, alpha, beta, history, tc, src, nodes);
  }

  /** A position with legal moves, no draw by rule and depth left is the move loop over its legal moves, in value and in count. */
  lemma TimedOpen(src: EvalSource, s: PosState, moves: seq<Move>, depth: nat, d: nat, alpha: int, beta: int, keys: seq<bv64>)
    requires !RuleDraw(s, keys, true) && Generable(s) && moves == LegalMoves(s) && moves != [] && depth > 0 && d == depth - 1
    ensures AlphaBeta(Timed(src), s, depth, alpha, beta, keys) == Cutoff(Timed(src), s, moves, 0, d, alpha, beta, NO_SCORE, keys)
    ensures AlphaBetaNodes(Timed(src), s, depth, alpha, beta, keys) == CutoffNodes(Timed(src), s, moves, 0, d, alpha, beta, NO_SCORE, keys)
  {
    ChessOpen(true, LeafEval(src), s, keys);
    SearchedNode(Timed(src), s, depth, alpha, beta, keys, d);
    SearchedNodeCount(Timed(src), s, depth, alpha, beta, keys, d);
  }

  /**
   * The move loop: a stopped child ends it with the best so far; otherwise
   * the best and alpha rise until the beta cutoff or the last move.
   */
  method SearchMoves(pos: Position, buf: MoveBuffer, d: nat, alpha0: int, beta: int, history: KeyStack,
                     tc: TimeOracle, src: EvalSource, nodes: nat)
    returns (best: int, stopped: bool, nodes': nat)
    requires pos.Valid()
    requires forall mv :: mv in buf.items ==> CoreSearch.ChildReady(pos.State(), mv)
    modifies pos, history, tc
    ensures pos.Valid() && pos.State() == old(pos.State()) && history.keys == old(history.keys)
    ensures tc.started == old(tc.started) && tc.stopped == (old(tc.stopped) || stopped)
    ensures nodes' >= nodes
    ensures !stopped ==> best == Cutoff(Timed(src), old(pos.State()), buf.items, 0, d, alpha0, beta, NO_SCORE, old(history.keys))
    ensures !stopped ==> nodes' == nodes + CutoffNodes(Timed(src), old(pos.State()), buf.items, 0, d, alpha0, beta, NO_SCORE, old(history.keys))
    decreases d + 1, 1
  {
    ghost var s := pos.State();
    ghost var keys := history.keys;
    ghost var moves := buf.items;
    ghost var stopped0 := tc.stopped;
    ghost var g := Timed(src);
    best, stopped, nodes' := NO_SCORE, false, nodes;
    var alpha := alpha0;
    var i := 0;
    var cut := false;
    while i < |buf.items| && !stopped && !cut
      invariant buf.items == moves
      invariant pos.Valid() && pos.State() == s && history.keys == keys
      invariant tc.started == old(tc.started) && tc.stopped == (stopped0 || stopped)
      invariant CutoffSoFar(g, s, moves, i, d, alpha0, alpha, beta, best, keys, nodes, nodes', stopped, cut)
      decreases |moves| - i, if stopped || cut then 0 else 1
    {
      best, alpha, stopped, cut, nodes' := MoveStep(pos, buf, i, d, alpha0, alpha, beta, best, history, tc, src, nodes, nodes');
      if !stopped && !cut {
        i := i + 1;
      }
    }
    CutoffSoFarDone(g, s, moves, i, d, alpha0, alpha, beta, best, keys, nodes, nodes', stopped, cut);
  }

  /**
   * The move loop after move i: going on from there with this alpha and best
   * gives the loop's value and count; a cutoff has already reached them,
   * and a stop leaves only a count that has grown.
   */
  ghost predicate CutoffSoFar(g: Game, s: PosState, moves: seq<Move>, i: nat, d: nat, alpha0: int, alpha: int, beta: int,
                              best: int, keys: seq<bv64>, nodes0: nat, nodes: nat, stopped: bool, cut: bool)
  {
    && i <= |moves| && nodes >= nodes0
    && (!stopped && cut ==>
          best == Cutoff(g, s, moves, 0, d, alpha0, beta, NO_SCORE, keys)
          && nodes == nodes0 + CutoffNodes(g, s, moves, 0, d, alpha0, beta, NO_SCORE, keys))
    && (!stopped && !cut ==>
          Cutoff(g, s, moves, i, d, alpha, beta, best, keys) == Cutoff(g, s, moves, 0, d, alpha0, beta, NO_SCORE, keys)
          && nodes + CutoffNodes(g, s, moves, i, d, alpha, beta, best, keys)
             == nodes0 + CutoffNodes(g, s, moves, 0, d, alpha0, beta, NO_SCORE, keys))
  }

  /** The loop ends at a stop, at a cutoff, or past the last move, where the rest of the loop is empty. */
  lemma CutoffSoFarDone(g: Game, s: PosState, moves: seq<Move>, i: nat, d: nat, alpha0: int, alpha: int, beta: int,
                        best: int, keys: seq<bv64>, nodes0: nat, nodes: nat, stopped: bool, cut: bool)
    requires CutoffSoFar(g, s, moves, i, d, alpha0, alpha, beta, best, keys, nodes0, nodes, stopped, cut)
    requires stopped || cut || i == |moves|
    ensures nodes >= nodes0
    ensures !stopped ==> best == Cutoff(g, s, moves, 0, d, alpha0, beta, NO_SCORE, keys)
    ensures !stopped ==> nodes == nodes0 + CutoffNodes(g, s, moves, 0, d, alpha0, beta, NO_SCORE, keys)
  {
    if !stopped && !cut {
      CutoffDone(g, s, moves, d, alpha, beta, best, keys);
    }
  }

  /** A move searched in full raises the best and alpha; the loop then goes on, or has reached its value at a cutoff. */
  lemma CutoffSoFarStep(g: Game, s: PosState, moves: seq<Move>, i: nat, d: nat, alpha0: int, alpha: int, beta: int,
                        best: int, keys: seq<bv64>, nodes0: nat, nodes: nat, score: int, nodes': nat, best': int, alpha': int)
    requires i < |moves| && CutoffSoFar(g, s, moves, i, d, alpha0, alpha, beta, best, keys, nodes0, nodes, false, false)
    requires score == ChildScore(g, s, moves[i], d, alpha, beta, keys)
    requires nodes' == nodes + 1 + ChildNodes(g, s, moves[i], d, alpha, beta, keys)
    requires best' == (if score > best then score else best) && alpha' == (if best' > alpha then best' else alpha)
    ensures CutoffSoFar(g, s, moves, i + 1, d, alpha0, alpha', beta, best', keys, nodes0, nodes', false, alpha' >= beta)
  {
    CutoffStep(g, s, moves, i, d, alpha, beta, best, keys, score, best', alpha');
    CutoffNodesStep(g, s, moves, i, d, alpha, beta, best, keys, score, nodes' - nodes - 1, best', alpha');
  }

  /**
   * One pass of the move loop: search move i; a stop keeps the best so
   * far, otherwise the score raises the best, the best raises alpha, and
   * alpha reaching beta is the cutoff.
   */
  method MoveStep(pos: Position, buf: MoveBuffer, i: nat, d: nat, ghost alpha0: int, alpha: int, beta: int, best: int,
                  history: KeyStack, tc: TimeOracle, src: EvalSource, ghost nodes0: nat, nodes: nat)
    returns (best': int, alpha': int, stopped: bool, cut: bool, nodes': nat)
    requires pos.Valid() && i < |buf.items| && forall mv :: mv in buf.items ==> CoreSearch.ChildReady(pos.State(), mv)
    requires CutoffSoFar(Timed(src), pos.State(), buf.items, i, d, alpha0, alpha, beta, best, history.keys, nodes0, nodes, false, false)
    modifies pos, history, tc
    ensures pos.Valid() && pos.State() == old(pos.State()) && history.keys == old(history.keys)
    ensures tc.started == old(tc.started) && tc.stopped == (old(tc.stopped) || stopped)
    ensures stopped ==> best' == best
    ensures CutoffSoFar(Timed(src), old(pos.State()), buf.items, if stopped || cut then i else i + 1, d, alpha0, alpha', beta, best',
                        old(history.keys), nodes0, nodes', stopped, cut)
    decreases d + 1, 0
  {
    ghost var s := pos.State();
    ghost var keys := history.keys;
    var mv := buf.items[i];
    var score;
    score, stopped, nodes' := PlayChild(pos, buf.items, mv, d, alpha, beta, history, tc, src, nodes);
    if stopped {
      return best, alpha, true, false, nodes';
    }
    best' := if score > best then score else best;
    alpha' := if best' > alpha then best' else alpha;
    cut := alpha' >= beta;
    CutoffSoFarStep(Timed(src), s, buf.items, i, d, alpha0, alpha, beta, best, keys, nodes0, nodes, score, nodes', best', alpha');
  }

  /** A child searched with the negated, swapped window: its value negated, and its node counted with its subtree. */
  method PlayChild(pos: Position, ghost moves: seq<Move>, mv: Move, d: nat, alpha: int, beta: int, history: KeyStack,
                   tc: TimeOracle, src: EvalSource, nodes: nat)
    returns (score: int, stopped: bool, nodes': nat)
    requires pos.Valid() && mv in moves && forall m :: m in moves ==> CoreSearch.ChildReady(pos.State(), m)
    modifies pos, history, tc
    ensures pos.Valid() && pos.State() == old(pos.State()) && history.keys == old(history.keys)
    ensures tc.started == old(tc.started) && tc.stopped == (old(tc.stopped) || stopped)
    ensures nodes' > nodes
    ensures !stopped ==> score == ChildScore(Timed(src), old(pos.State()), mv, d, alpha, beta, old(history.keys))
    ensures !stopped ==> nodes' == nodes + 1 + ChildNodes(Timed(src), old(pos.State()), mv, d, alpha, beta, old(history.keys))
    decreases d, 8
  {
    ghost var s := pos.State();
    ghost var keys := history.keys;
    var childAlpha, childBeta := -beta, -alpha;
    var v;
    ghost var key;
    v, stopped, nodes', key := Descend(pos, mv, d, childAlpha, childBeta, history, tc, src, nodes);
    score := -v;
    ChessPlays(true, LeafEval(src), s, mv);
    PlayedChildScore(Timed(src), s, mv, MakeState(s, mv), d, alpha, beta, keys, childAlpha, childBeta, key);
    PlayedChildNodes(Timed(src), s, mv, MakeState(s, mv), d, alpha, beta, keys, childAlpha, childBeta, key);
  }

  /** Make mv, search the position it leads to, unmake. */
  method Descend(pos: Position, mv: Move, d: nat, alpha: int, beta: int, history: KeyStack,
                 tc: TimeOracle, src: EvalSource, nodes: nat)
    returns (value: int, stopped: bool, nodes': nat, ghost key: bv64)
    requires pos.Valid() && CoreSearch.ChildReady(pos.State(), mv)
    modifies pos, history, tc
    ensures pos.Valid() && pos.State() == old(pos.State()) && history.keys == old(history.keys)
    ensures tc.started == old(tc.started) && tc.stopped == (old(tc.stopped) || stopped)
    ensures nodes' > nodes && key == Hashing.PositionHash(MakeState(old(pos.State()), mv))
    ensures !stopped ==> value == AlphaBeta(Timed(src), MakeState(old(pos.State()), mv), d, alpha, beta, old(history.keys) + [key])
    ensures !stopped ==> nodes' == nodes + 1 + AlphaBetaNodes(Timed(src), MakeState(old(pos.State()), mv), d, alpha, beta, old(history.keys) + [key])
    decreases d, 7
  {
    ghost var s := pos.State();
    var undo := pos.MakeMove(mv);
    value, stopped, nodes', key := SearchKeyed(pos, d, alpha, beta, history, tc, src, nodes);
    UnmakeMake(s, mv);
    pos.UnmakeMove(mv, undo);
  }

  /** Push the key of the position, count its node, search it, pop. */
  method SearchKeyed(pos: Position, d: nat, alpha: int, beta: int, history: KeyStack,
                     tc: TimeOracle, src: EvalSource, nodes: nat)
    returns (value: int, stopped: bool, nodes': nat, ghost key: bv64)
    requires pos.Valid() && Playable(pos.State())
    modifies pos, history, tc
    ensures pos.Valid() && pos.State() == old(pos.State()) && history.keys == old(history.keys)
    ensures tc.started == old(tc.started) && tc.stopped == (old(tc.stopped) || stopped)
    ensures nodes' > nodes && key == Hashing.PositionHash(old(pos.State()))
    ensures !stopped ==> value == AlphaBeta(Timed(src), old(pos.State()), d, alpha, beta, old(history.keys) + [key])
    ensures !stopped ==> nodes' == nodes + 1 + AlphaBetaNodes(Timed(src), old(pos.State()), d, alpha, beta, old(history.keys) + [key])
    decreases d, 6
  {
    ghost var keys := history.keys;
    var k := pos.PositionHash();
    key := k;
    history.Push(k);
    value, stopped, nodes' := Negamax(pos, d, alpha, beta, history, tc, src, nodes + 1);
    history.Pop();
    PushPop(history.keys, k, keys);
  }

  /**
   * `pick_best_move` / `search_internal`: without legal moves, no move
   * and no stop. Otherwise the root moves are searched in order until the
   * clock stops the search, and the result is the first best of the moves
   * searched in full: `moves[0]` with score `i32::MIN + 1` when none was.
   * A search the clock does not stop picks as `SearchSpec.PickBest` does.
   */
  method PickBestMove(pos: Position, depth: nat, tc: TimeOracle, src: EvalSource, nodes: nat)
    returns (result: Option<(Move, int)>, stopped: bool, nodes': nat, ghost searched: nat)
    requires pos.Valid() && Playable(pos.State())
    modifies tc
    ensures tc.started == old(tc.started) && tc.stopped == (old(tc.stopped) || stopped)
    ensures RootOutcome(Timed(src), old(pos.State()), LegalMoves(old(pos.State())), depth, nodes, result, stopped, nodes', searched)
  {
    var tmp := new Position.Clone(pos);
    result, stopped, nodes', searched := PickOnCopy(tmp, depth, tc, src, nodes);
  }

  /** The root on the engine's own copy of the position: generate its legal moves, then search them. */
  method PickOnCopy(tmp: Position, depth: nat, tc: TimeOracle, src: EvalSource, nodes: nat)
    returns (result: Option<(Move, int)>, stopped: bool, nodes': nat, ghost searched: nat)
    requires tmp.Valid() && Playable(tmp.State())
    modifies tmp, tc
    ensures tc.started == old(tc.started) && tc.stopped == (old(tc.stopped) || stopped)
    ensures RootOutcome(Timed(src), old(tmp.State()), LegalMoves(old(tmp.State())), depth, nodes, result, stopped, nodes', searched)
  {
    ghost var s := tmp.State();
    CoreSearch.ReadyChildren(s);
    var moves := new MoveBuffer();
    LegalMovesInto(tmp, moves);
    result, stopped, nodes', searched := PickFromMoves(tmp, moves, depth, tc, src, nodes);
  }

  /**
   * What a root search over moves reports: nothing exactly when there is
   * no move, and then no stop and no node; otherwise the first best of the
   * first `searched` moves. Unstopped, it searched every move, picks as
   * `PickBest` and counts one node per move made.
   */
  ghost predicate RootOutcome(g: Game, s: PosState, moves: seq<Move>, depth: nat, nodes: nat,
                              result: Option<(Move, int)>, stopped: bool, nodes': nat, searched: nat)
  {
    && nodes' >= nodes
    && (result.None? <==> moves == [])
    && (result.None? ==> !stopped && nodes' == nodes)
    && (result.Some? ==> searched <= |moves| && RootReport(g, s, moves, searched, depth, result.value))
    && (!stopped ==> result == PickBest(g, s, depth))
    && (!stopped && result.Some? ==>
          searched == |moves| && nodes' == nodes + RootNodes(g, s, moves, searched, ChildDepth(depth), Hashing.PositionHash(s)))
  }

  /** The report of a root that searched its first k moves: the first best among them, from `moves[0]` and `i32::MIN + 1`. */
  ghost predicate RootReport(g: Game, s: PosState, moves: seq<Move>, k: nat, depth: nat, report: (Move, int))
    requires k <= |moves|
  {
    var c := RootPrefix(g, s, moves, k, ChildDepth(depth), Hashing.PositionHash(s));
    c.index < |moves| && report == (moves[c.index], c.score)
  }

  /** The root loop after k moves: the prefix choice, and, unless stopped, one node per move made since nodes0. */
  ghost predicate RootSoFar(g: Game, s: PosState, moves: seq<Move>, k: nat, d: nat, rootKey: bv64, c: Choice,
                            nodes0: nat, nodes: nat, stopped: bool)
  {
    && k <= |moves| && c.index < |moves|
    && c == RootPrefix(g, s, moves, k, d, rootKey)
    && nodes >= nodes0
    && (!stopped ==> nodes == nodes0 + RootNodes(g, s, moves, k, d, rootKey))
  }

  /** The root once the legal moves of its copy are generated. */
  method PickFromMoves(tmp: Position, moves: MoveBuffer, depth: nat, tc: TimeOracle, src: EvalSource, nodes: nat)
    returns (result: Option<(Move, int)>, stopped: bool, nodes': nat, ghost searched: nat)
    requires tmp.Valid() && Generable(tmp.State()) && moves.items == LegalMoves(tmp.State())
    requires forall mv :: mv in moves.items ==> CoreSearch.ChildReady(tmp.State(), mv)
    modifies tmp, tc
    ensures tc.started == old(tc.started) && tc.stopped == (old(tc.stopped) || stopped)
    ensures RootOutcome(Timed(src), old(tmp.State()), LegalMoves(old(tmp.State())), depth, nodes, result, stopped, nodes', searched)
  {
    ghost var s := tmp.State();
    var d := if depth == 0 then 0 else depth - 1;
    if |moves.items| == 0 {
      NoMovesOutcome(src, s, depth, nodes);
      return None, false, nodes, 0;
    }
    var best, bestScore;
    ghost var bestIndex;
    best, bestScore, bestIndex, stopped, nodes', searched := RootSearch(tmp, moves, d, tc, src, nodes);
    result := Some((best, bestScore));
    SearchedOutcome(src, s, moves.items, depth, d, nodes, bestIndex, bestScore, stopped, nodes', searched);
  }

  /** A root without legal moves reports nothing, stops nothing and counts nothing. */
  lemma NoMovesOutcome(src: EvalSource, s: PosState, depth: nat, nodes: nat)
    requires Generable(s) && LegalMoves(s) == []
    ensures RootOutcome(Timed(src), s, [], depth, nodes, None, false, nodes, 0)
  {
    ChessPickBestOfPrefix(true, LeafEval(src), s, depth, [], ChildDepth(depth), 0, Choice(0, NO_SCORE));
  }

  /** What the root loop leaves, reported as its first best: once every move is searched, the pick of `PickBest`. */
  lemma SearchedOutcome(src: EvalSource, s: PosState, moves: seq<Move>, depth: nat, d: nat, nodes: nat,
                        bestIndex: nat, bestScore: int, stopped: bool, nodes': nat, searched: nat)
    requires Generable(s) && moves == LegalMoves(s) && moves != [] && d == ChildDepth(depth)
    requires RootSoFar(Timed(src), s, moves, searched, d, Hashing.PositionHash(s), Choice(bestIndex, bestScore), nodes, nodes', stopped)
    requires !stopped ==> searched == |moves|
    ensures RootOutcome(Timed(src), s, moves, depth, nodes, Some((moves[bestIndex], bestScore)), stopped, nodes', searched)
  {
    if !stopped {
      ChessPickBestOfPrefix(true, LeafEval(src), s, depth, moves, d, searched, Choice(bestIndex, bestScore));
    }
  }

  /** The root with at least one legal move: the history starts with the root's key. */
  method RootSearch(tmp: Position, moves: MoveBuffer, d: nat, tc: TimeOracle, src: EvalSource, nodes: nat)
    returns (best: Move, bestScore: int, ghost bestIndex: nat, stopped: bool, nodes': nat, ghost searched: nat)
    requires tmp.Valid() && |moves.items| > 0
    requires forall mv :: mv in moves.items ==> CoreSearch.ChildReady(tmp.State(), mv)
    modifies tmp, tc
    ensures tc.started == old(tc.started) && tc.stopped == (old(tc.stopped) || stopped)
    ensures RootSoFar(Timed(src), old(tmp.State()), moves.items, searched, d, Hashing.PositionHash(old(tmp.State())),
                      Choice(bestIndex, bestScore), nodes, nodes', stopped)
    ensures best == moves.items[bestIndex] && (!stopped ==> searched == |moves.items|)
  {
    ghost var s, items := tmp.State(), moves.items;
    var history := new KeyStack();
    var rootKey := tmp.PositionHash();
    history.Push(rootKey);
    ghost var g := Timed(src);
    ghost var scores, counts := RootScores(g, s, items, d, rootKey), RootCounts(g, s, items, d, rootKey);
    RootTableOf(g, s, items, d, rootKey);
    best, bestScore, bestIndex, stopped, nodes', searched := ScanRoot(tmp, s, moves, d, history, rootKey, tc, src, nodes, scores, counts);
    RootTalliesSoFar(g, s, items, searched, d, rootKey, scores, counts, Choice(bestIndex, bestScore), nodes, nodes', stopped);
  }

  /** The score of each root move, in order. */
  ghost function RootScores(g: Game, s: PosState, moves: seq<Move>, d: nat, rootKey: bv64): seq<int>
  {
    seq(|moves|, j requires 0 <= j < |moves| => RootScore(g, s, moves[j], d, rootKey))
  }

  /** The node count of each root move, in order. */
  ghost function RootCounts(g: Game, s: PosState, moves: seq<Move>, d: nat, rootKey: bv64): seq<nat>
  {
    seq(|moves|, j requires 0 <= j < |moves| => RootCount(g, s, moves[j], d, rootKey))
  }

  /** The scores and counts listed in order make up the table of the root moves. */
  lemma RootTableOf(g: Game, s: PosState, moves: seq<Move>, d: nat, rootKey: bv64)
    ensures RootTable(g, s, moves, d, rootKey, RootScores(g, s, moves, d, rootKey), RootCounts(g, s, moves, d, rootKey))
  {
  }

  /** What the root loop keeps over the table is the prefix choice and, unless stopped, the prefix count of the root. */
  lemma RootTalliesSoFar(g: Game, s: PosState, moves: seq<Move>, k: nat, d: nat, rootKey: bv64,
                         scores: seq<int>, counts: seq<nat>, c: Choice, nodes0: nat, nodes: nat, stopped: bool)
    requires k <= |moves| && RootTable(g, s, moves, d, rootKey, scores, counts)
    requires c == BestOf(scores, k) && c.index < |moves| && nodes >= nodes0
    requires !stopped ==> nodes == nodes0 + Total(counts, k)
    ensures RootSoFar(g, s, moves, k, d, rootKey, c, nodes0, nodes, stopped)
  {
    RootTallies(g, s, moves, k, d, rootKey, scores, counts);
  }

  /** The nodes one root move adds when searched in full: its own and its child's. */
  ghost function RootCount(g: Game, s: PosState, mv: Move, d: nat, rootKey: bv64): nat
  {
    1 + ChildNodes(g, s, mv, d, -ROOT_BETA, -ROOT_ALPHA, [rootKey])
  }

  /** The choice of the root loop over the scores of its first k moves: the first strictly best, from index 0 and `NO_SCORE`. */
  function BestOf(scores: seq<int>, k: nat): (c: Choice)
    requires k <= |scores|
    ensures c.index < |scores| || (c.index == 0 && scores == [])
  {
    if k == 0 then Choice(0, NO_SCORE)
    else
      var c := BestOf(scores, k - 1);
      if scores[k - 1] > c.score then Choice(k - 1, scores[k - 1]) else c
  }

  /** The sum of the first k counts. */
  function Total(counts: seq<nat>, k: nat): nat
    requires k <= |counts|
  {
    if k == 0 then 0 else Total(counts, k - 1) + counts[k - 1]
  }

  /** The scores and counts of the root moves, one per move. */
  ghost predicate RootTable(g: Game, s: PosState, moves: seq<Move>, d: nat, rootKey: bv64, scores: seq<int>, counts: seq<nat>)
  {
    && |scores| == |moves| && |counts| == |moves|
    && (forall j {:trigger RootScore(g, s, moves[j], d, rootKey)} :: 0 <= j < |moves| ==>
          scores[j] == RootScore(g, s, moves[j], d, rootKey) && counts[j] == RootCount(g, s, moves[j], d, rootKey))
  }

  /** Over the table of the root moves, the choice and the count of the first k moves are those of the root loop. */
  lemma {:induction false} RootTallies(g: Game, s: PosState, moves: seq<Move>, k: nat, d: nat, rootKey: bv64,
                                       scores: seq<int>, counts: seq<nat>)
    requires k <= |moves| && RootTable(g, s, moves, d, rootKey, scores, counts)
    ensures BestOf(scores, k) == RootPrefix(g, s, moves, k, d, rootKey)
    ensures Total(counts, k) == RootNodes(g, s, moves, k, d, rootKey)
  {
    if k > 0 {
      RootTallies(g, s, moves, k - 1, d, rootKey, scores, counts);
    }
  }

  /** The root loop: before each move the clock may be read and stop the loop, as may a stopped child. */
  method ScanRoot(tmp: Position, ghost s: PosState, moves: MoveBuffer, d: nat, history: KeyStack, ghost rootKey: bv64,
                  tc: TimeOracle, src: EvalSource, nodes: nat, ghost scores: seq<int>, ghost counts: seq<nat>)
    returns (best: Move, bestScore: int, ghost bestIndex: nat, stopped: bool, nodes': nat, ghost searched: nat)
    requires tmp.Valid() && tmp.State() == s && |moves.items| > 0 && history.keys == [rootKey]
    requires forall mv :: mv in moves.items ==> CoreSearch.ChildReady(s, mv)
    requires RootTable(Timed(src), s, moves.items, d, rootKey, scores, counts)
    modifies tmp, history, tc
    ensures tmp.Valid() && tmp.State() == s && history.keys == [rootKey]
    ensures tc.started == old(tc.started) && tc.stopped == (old(tc.stopped) || stopped)
    ensures searched <= |moves.items| && Choice(bestIndex, bestScore) == BestOf(scores, searched)
    ensures nodes' >= nodes && (!stopped ==> searched == |moves.items| && nodes' == nodes + Total(counts, searched))
    ensures bestIndex < |moves.items| && best == moves.items[bestIndex]
  {
    ghost var stopped0 := tc.stopped;
    best, bestScore, bestIndex := moves.items[0], NO_SCORE, 0;
    stopped, nodes' := false, nodes;
    var i := 0;
    while i < |moves.items|
      invariant tmp.Valid() && tmp.State() == s && history.keys == [rootKey]
      invariant tc.started == old(tc.started) && tc.stopped == stopped0
      invariant i <= |moves.items| && Choice(bestIndex, bestScore) == BestOf(scores, i)
      invariant nodes' == nodes + Total(counts, i)
      invariant bestIndex < |moves.items| && best == moves.items[bestIndex]
    {
      var stop;
      best, bestScore, bestIndex, stop, nodes' := RootStep(tmp, s, moves, i, d, history, rootKey, tc, src, nodes', best, bestScore, bestIndex, scores, counts);
      if stop {
        stopped := true;
        break;
      }
      i := i + 1;
    }
    searched := i;
  }

  /**
   * One pass of the root loop: read the clock when due, then search move
   * i; a move replaces the best so far only with a strictly higher score,
   * and a stop leaves the best as it was.
   */
  method RootStep(tmp: Position, ghost s: PosState, moves: MoveBuffer, i: nat, d: nat, history: KeyStack, ghost rootKey: bv64,
                  tc: TimeOracle, src: EvalSource, nodes: nat, best: Move, bestScore: int, ghost bestIndex: nat,
                  ghost scores: seq<int>, ghost counts: seq<nat>)
    returns (best': Move, bestScore': int, ghost bestIndex': nat, stop: bool, nodes': nat)
    requires tmp.Valid() && tmp.State() == s && i < |moves.items| && history.keys == [rootKey]
    requires forall mv :: mv in moves.items ==> CoreSearch.ChildReady(s, mv)
    requires RootTable(Timed(src), s, moves.items, d, rootKey, scores, counts)
    requires Choice(bestIndex, bestScore) == BestOf(scores, i) && bestIndex < |moves.items| && best == moves.items[bestIndex]
    modifies tmp, history, tc
    ensures tmp.Valid() && tmp.State() == s && history.keys == [rootKey]
    ensures tc.started == old(tc.started) && tc.stopped == (old(tc.stopped) || stop)
    ensures nodes' >= nodes
    ensures stop ==> Choice(bestIndex', bestScore') == Choice(bestIndex, bestScore)
    ensures !stop ==> Choice(bestIndex', bestScore') == BestOf(scores, i + 1) && nodes' == nodes + counts[i]
    ensures bestIndex' < |moves.items| && best' == moves.items[bestIndex']
  {
    best', bestScore', bestIndex', nodes' := best, bestScore, bestIndex, nodes;
    if ShouldCheckTime(nodes) {
      var up := tc.CheckTime();
      if up {
        return best, bestScore, bestIndex, true, nodes;
      }
    }
    var mv := moves.items[i];
    var score;
    score, stop, nodes' := RootChild(tmp, moves.items, mv, d, history, rootKey, tc, src, nodes);
    if !stop && score > bestScore {
      best', bestScore', bestIndex' := mv, score, i;
    }
  }

  /** One root move: its child searched with the window `(i32::MIN / 2, i32::MAX / 2)` and counted, its score negated. */
  method RootChild(tmp: Position, ghost moves: seq<Move>, mv: Move, d: nat, history: KeyStack, ghost rootKey: bv64,
                   tc: TimeOracle, src: EvalSource, nodes: nat)
    returns (score: int, stopped: bool, nodes': nat)
    requires tmp.Valid() && history.keys == [rootKey]
    requires mv in moves && forall m :: m in moves ==> CoreSearch.ChildReady(tmp.State(), m)
    modifies tmp, history, tc
    ensures tmp.Valid() && tmp.State() == old(tmp.State()) && history.keys == old(history.keys)
    ensures tc.started == old(tc.started) && tc.stopped == (old(tc.stopped) || stopped)
    ensures nodes' > nodes
    ensures !stopped ==> score == RootScore(Timed(src), old(tmp.State()), mv, d, rootKey)
    ensures !stopped ==> nodes' == nodes + RootCount(Timed(src), old(tmp.State()), mv, d, rootKey)
  {
    var rootAlpha, rootBeta := ROOT_ALPHA, ROOT_BETA;
    var childAlpha, childBeta := -rootBeta, -rootAlpha;
    ghost var s, keys := tmp.State(), history.keys;
    score, stopped, nodes' := PlayChild(tmp, moves, mv, d, childAlpha, childBeta, history, tc, src, nodes);
    if !stopped {
      RootChildScore(Timed(src), s, mv, d, childAlpha, childBeta, keys, rootKey, score);
    }
  }

  /** Material always lies inside the mate score, so the timed game is bounded unless a network leaves it. */
  lemma TimedBounded(src: EvalSource)
    requires src.Network? ==> forall t :: -MATE < src.net(t) < MATE
    ensures Bounded(Timed(src))
  {
    forall t
      ensures -MATE < LeafEval(src)(t) < MATE
    {
      if !src.Network? {
        Eval.EvaluateBound(t);
      }
    }
    ChessBounded(true, LeafEval(src));
  }

  /**
   * What a root stopped by the clock reports is still one of its moves:
   * `moves[0]` with `i32::MIN + 1` when no move was searched in full,
   * otherwise the first move of highest exact value among those searched.
   */
  lemma StoppedReport(src: EvalSource, s: PosState, moves: seq<Move>, k: nat, depth: nat, report: (Move, int))
    requires src.Network? ==> forall t :: -MATE < src.net(t) < MATE
    requires k <= |moves| && RootReport(Timed(src), s, moves, k, depth, report)
    ensures report.0 in moves
    ensures k == 0 ==> report == (moves[0], NO_SCORE)
    ensures k > 0 ==>
      exists i :: 0 <= i < k && moves[i] == report.0
        && report.1 == RootValue(Timed(src), s, moves[i], ChildDepth(depth), Hashing.PositionHash(s))
        && (forall j :: 0 <= j < k ==> RootValue(Timed(src), s, moves[j], ChildDepth(depth), Hashing.PositionHash(s)) <= report.1)
        && (forall j :: 0 <= j < i ==> RootValue(Timed(src), s, moves[j], ChildDepth(depth), Hashing.PositionHash(s)) < report.1)
  {
    var c := RootPrefix(Timed(src), s, moves, k, ChildDepth(depth), Hashing.PositionHash(s));
    if k > 0 {
      TimedBounded(src);
      RootPrefixFirstBest(Timed(src), s, moves, k, ChildDepth(depth), Hashing.PositionHash(s));
      assert moves[c.index] == report.0;
    }
  }

  /** A search the clock does not stop makes at least one move per root move. */
  lemma UnstoppedCountsRootMoves(g: Game, s: PosState, moves: seq<Move>, depth: nat, nodes: nat,
                                 result: Option<(Move, int)>, nodes': nat, searched: nat)
    requires RootOutcome(g, s, moves, depth, nodes, result, false, nodes', searched)
    ensures nodes' >= nodes + |moves|
  {
    if result.Some? {
      RootNodesAtLeast(g, s, moves, searched, ChildDepth(depth), Hashing.PositionHash(s));
    }
  }
}
