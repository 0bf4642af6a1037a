/**
 * The older `NeuralEngine` of crates/ml_engine/src/lib.rs: a search without
 * pruning, draw rules or clock. Every legal move is made and scored by the
 * negated evaluation of the child, or, with depth above 1, by the negated
 * score of the child's own search, a child without moves scoring 0. The
 * first move of strictly highest score wins, starting from `i32::MIN`.
 */
module MlEngine {
  import opened Wrappers
  import opened Types
  import opened Positions
  import opened Generation
  import opened Board
  import opened MoveGen
  import opened Perft
  import opened Play
  import opened SearchSpec
  import opened Engines
  import opened TimedSearch
  import CoreSearch
  import Eval
  import Neural

  /** `i32::MIN`, the starting best score. */
  const I32_MIN: int := -0x8000_0000

  /** `search_internal(pos, depth)` in a game: the chess moves, and the engine's evaluation at the leaves. */
  function Value(g: Game, s: PosState, depth: nat): Option<(Move, int)>
    decreases depth, 2, 0
  {
    var moves := g.moves(s);
    if moves == [] then None
    else
      var c := Prefix(g, s, moves, |moves|, depth);
      if c.index < |moves| then Some((moves[c.index], c.score)) else None
  }

  /** The choice after the first k moves: a move replaces the best only with a strictly higher score. */
  function Prefix(g: Game, s: PosState, moves: seq<Move>, k: nat, depth: nat): Choice
    requires k <= |moves|
    decreases depth, 1, k
  {
    if k == 0 then Choice(0, I32_MIN)
    else
      var c := Prefix(g, s, moves, k - 1, depth);
      var score := Score(g, s, moves[k - 1], depth);
      if score > c.score then Choice(k - 1, score) else c
  }

  /** The score of mv: what the position it leads to earns its parent. */
  function Score(g: Game, s: PosState, mv: Move, depth: nat): int
    decreases depth, 0, 1
  {
    match g.play(s, mv)
    case None => 0
    case Some(t) => Reply(g, t, depth)
  }

  /** Minus the evaluation of t, or above depth 1 minus the score of its own search, 0 without one. */
  function Reply(g: Game, t: PosState, depth: nat): int
    decreases depth, 0, 0
  {
    if depth > 1 then -(match Value(g, t, depth - 1) case None => 0 case Some(r) => r.1)
    else -g.eval(t)
  }

  /** The moves made: one per move of the node, plus those of each child's search above depth 1. */
  function Nodes(g: Game, s: PosState, depth: nat): nat
    decreases depth, 2, 0
  {
    var moves := g.moves(s);
    PrefixNodes(g, s, moves, |moves|, depth)
  }

  function PrefixNodes(g: Game, s: PosState, moves: seq<Move>, k: nat, depth: nat): nat
    requires k <= |moves|
    decreases depth, 1, k
  {
    if k == 0 then 0
    else PrefixNodes(g, s, moves, k - 1, depth) + 1 + MoveNodes(g, s, moves[k - 1], depth)
  }

  function MoveNodes(g: Game, s: PosState, mv: Move, depth: nat): nat
    decreases depth, 0, 1
  {
    match g.play(s, mv)
    case None => 0
    case Some(t) => ReplyNodes(g, t, depth)
  }

  function ReplyNodes(g: Game, t: PosState, depth: nat): nat
    decreases depth, 0, 0
  {
    if depth > 1 then Nodes(g, t, depth - 1) else 0
  }

  /** The first index holding the choice's score, every score of the first k moves at most it. */
  ghost predicate FirstMax(g: Game, s: PosState, moves: seq<Move>, k: nat, depth: nat, c: Choice)
    requires k <= |moves|
  {
    && c.index < k
    && c.score == Score(g, s, moves[c.index], depth)
    && (forall j :: 0 <= j < k ==> Score(g, s, moves[j], depth) <= c.score)
    && (forall j :: 0 <= j < c.index ==> Score(g, s, moves[j], depth) < c.score)
  }

  /** Every score lies within b when every evaluation does and b is below `-i32::MIN`. */
  ghost predicate EvalWithin(g: Game, b: int)
  {
    0 <= b < -I32_MIN && forall t :: -b <= g.eval(t) <= b
  }

  /** With evaluations within b, every move scores within b, and so does every search. */
  lemma {:induction false} ScoreWithin(g: Game, b: int, s: PosState, mv: Move, depth: nat)
    requires EvalWithin(g, b)
    ensures -b <= Score(g, s, mv, depth) <= b
    decreases depth, 0, 1
  {
    match g.play(s, mv)
    case None =>
    case Some(t) =>
      if depth > 1 {
        ValueWithin(g, b, t, depth - 1);
      }
  }

  lemma {:induction false} ValueWithin(g: Game, b: int, s: PosState, depth: nat)
    requires EvalWithin(g, b)
    ensures Value(g, s, depth).Some? ==> -b <= Value(g, s, depth).value.1 <= b
    decreases depth, 2, 0
  {
    var moves := g.moves(s);
    if moves != [] {
      PrefixFirstMax(g, b, s, moves, |moves|, depth);
      var c := Prefix(g, s, moves, |moves|, depth);
      ScoreWithin(g, b, s, moves[c.index], depth);
    }
  }

  /** After k > 0 moves whose scores lie within b, the choice is their first maximum. */
  lemma {:induction false} PrefixFirstMax(g: Game, b: int, s: PosState, moves: seq<Move>, k: nat, depth: nat)
    requires EvalWithin(g, b) && 0 < k <= |moves|
    ensures FirstMax(g, s, moves, k, depth, Prefix(g, s, moves, k, depth))
    decreases depth, 1, k
  {
    ScoreWithin(g, b, s, moves[k - 1], depth);
    if k > 1 {
      PrefixFirstMax(g, b, s, moves, k - 1, depth);
    }
  }

  /**
   * `search_internal` is none exactly without moves; otherwise its move is
   * one of them, the first of highest score, and its score that score.
   */
  lemma ValueSpec(g: Game, b: int, s: PosState, depth: nat)
    requires EvalWithin(g, b)
    ensures Value(g, s, depth).None? <==> g.moves(s) == []
    ensures Value(g, s, depth).Some? ==>
      var moves := g.moves(s);
      var (mv, score) := Value(g, s, depth).value;
      exists i :: 0 <= i < |moves| && moves[i] == mv && score == Score(g, s, mv, depth)
        && (forall j :: 0 <= j < |moves| ==> Score(g, s, moves[j], depth) <= score)
        && (forall j :: 0 <= j < i ==> Score(g, s, moves[j], depth) < score)
  {
    var moves := g.moves(s);
    if moves != [] {
      PrefixFirstMax(g, b, s, moves, |moves|, depth);
      var c := Prefix(g, s, moves, |moves|, depth);
      assert moves[c.index] == Value(g, s, depth).value.0;
    }
  }

  /** Above depth 1, a child without moves, checkmate included, scores 0. */
  lemma MovelessChildScoresZero(g: Game, t: PosState, depth: nat)
    requires depth > 1 && g.moves(t) == []
    ensures Reply(g, t, depth) == 0
  {
  }

  /** Depth 0 scores the moves as depth 1 does: by the negated evaluation of the child. */
  lemma DepthZeroIsDepthOne(g: Game, s: PosState)
    ensures Value(g, s, 0) == Value(g, s, 1)
  {
    var moves := g.moves(s);
    PrefixDepthZeroOne(g, s, moves, |moves|);
  }

  lemma {:induction false} PrefixDepthZeroOne(g: Game, s: PosState, moves: seq<Move>, k: nat)
    requires k <= |moves|
    ensures Prefix(g, s, moves, k, 0) == Prefix(g, s, moves, k, 1)
  {
    if k > 0 {
      PrefixDepthZeroOne(g, s, moves, k - 1);
    }
  }

  /** The game the engine searches: the chess moves, and its evaluation at the leaves. */
  function MlGame(src: EvalSource): Game
  {
    Chess(false, LeafEval(src))
  }

  /** On a chess position the answer is none exactly without legal moves, and otherwise a legal move. */
  lemma ChessValue(src: EvalSource, s: PosState, depth: nat)
    requires Generable(s)
    ensures Value(MlGame(src), s, depth).None? <==> LegalMoves(s) == []
    ensures Value(MlGame(src), s, depth).Some? ==> Value(MlGame(src), s, depth).value.0 in LegalMoves(s)
  {
    ChessMovesKey(false, LeafEval(src), s);
    ValueMoves(MlGame(src), s, depth);
  }

  /** The answer is none exactly without moves, and otherwise one of the moves. */
  lemma ValueMoves(g: Game, s: PosState, depth: nat)
    ensures Value(g, s, depth).None? <==> g.moves(s) == []
    ensures Value(g, s, depth).Some? ==> Value(g, s, depth).value.0 in g.moves(s)
  {
    var moves := g.moves(s);
    if moves != [] {
      PrefixIndex(g, s, moves, |moves|, depth);
    }
  }

  /** After k > 0 moves the choice is one of them. */
  lemma {:induction false} PrefixIndex(g: Game, s: PosState, moves: seq<Move>, k: nat, depth: nat)
    requires 0 < k <= |moves|
    ensures Prefix(g, s, moves, k, depth).index < k
  {
    if k > 1 {
      PrefixIndex(g, s, moves, k - 1, depth);
    }
  }

  /** One step of the scan: the next move's score decides the choice, and its moves are counted. */
  lemma ScanStep(g: Game, s: PosState, moves: seq<Move>, i: nat, depth: nat, c: Choice, score: int)
    requires i < |moves| && Prefix(g, s, moves, i, depth) == c && score == Score(g, s, moves[i], depth)
    ensures Prefix(g, s, moves, i + 1, depth) == if score > c.score then Choice(i, score) else c
    ensures PrefixNodes(g, s, moves, i + 1, depth) == PrefixNodes(g, s, moves, i, depth) + 1 + MoveNodes(g, s, moves[i], depth)
  {
  }

  /** The scan of all the moves is the answer. */
  lemma ScanDone(g: Game, s: PosState, depth: nat, c: Choice)
    requires g.moves(s) != [] && Prefix(g, s, g.moves(s), |g.moves(s)|, depth) == c && c.index < |g.moves(s)|
    ensures Value(g, s, depth) == Some((g.moves(s)[c.index], c.score))
    ensures Nodes(g, s, depth) == PrefixNodes(g, s, g.moves(s), |g.moves(s)|, depth)
  {
  }

  /** The evaluation of the engine: the network when one is loaded, otherwise mailbox material. */
  function SourceOf(network: Option<PosState -> int>): (src: EvalSource)
    ensures LeafEval(src) == if network.Some? then network.value else Eval.Evaluate
  {
    if network.Some? then Network(network.value) else Mailbox
  }

  /** The engine's answer as a search result: the move and its score, or none with score 0; never stopped. */
  function Reported(result: Option<(Move, int)>, depth: nat, nodes: nat): (r: SearchResult)
    ensures r.depth == depth && !r.stopped && r.nodes == nodes
    ensures r.bestMove.None? ==> r.score == 0
    ensures result == if r.bestMove.None? then None else Some((r.bestMove.value, r.score))
  {
    match result
    case None => SearchResult(None, 0, depth, nodes, false)
    case Some((mv, score)) => SearchResult(Some(mv), score, depth, nodes, false)
  }

  /** The reported answer of a chess position: no move exactly without legal moves, otherwise a legal one. */
  lemma ReportedValue(src: EvalSource, s: PosState, depth: nat, result: Option<(Move, int)>)
    requires Generable(s) && result == Value(MlGame(src), s, depth)
    ensures result.None? <==> LegalMoves(s) == []
    ensures result.Some? ==> result.value.0 in LegalMoves(s)
  {
    ChessValue(src, s, depth);
  }

  class NeuralEngine {
    var modelPath: Option<string>
    var version: string
    var nodes: nat
    var network: Option<PosState -> int>

    /** `NeuralEngine::new`: no model, version `random-v0`, nothing counted. */
    constructor ()
      ensures modelPath == None && version == "random-v0" && nodes == 0 && network == None
    {
      modelPath := None;
      version := "random-v0";
      nodes := 0;
      network := None;
    }

    /** `with_model` once the model is found (and, with ONNX support, loaded): its path and version, nothing counted. */
    constructor WithModel(v: string, net: Option<PosState -> int>)
      ensures modelPath == Some(Neural.ModelPath(v)) && version == v && nodes == 0 && network == net
    {
      modelPath := Some(Neural.ModelPath(v));
      version := v;
      nodes := 0;
      network := net;
    }

    /** `name`: `Neural-` and the version. */
    function Name(): (r: string)
      reads this`version
      ensures |r| == 7 + |version| && r[..7] == "Neural-" && r[7..] == version
    {
      "Neural-" + version
    }

    /** The game this engine searches, by its evaluation. */
    function Searched(): Game
      reads this`network
    {
      MlGame(SourceOf(network))
    }

    /** `search_internal`: on a copy of the position, the answer of `Value`, counting `Nodes` moves. */
    method SearchInternal(pos: Position, depth: nat, ghost g: Game) returns (result: Option<(Move, int)>)
      requires pos.Valid() && Playable(pos.State()) && g == Searched()
      modifies this`nodes
      ensures result == Value(g, old(pos.State()), depth)
      ensures nodes == old(nodes) + Nodes(g, old(pos.State()), depth)
      decreases depth, 6
    {
      var tmp := new Position.Clone(pos);
      result := SearchCopy(tmp, depth, g);
    }

    /** The engine's copy: its legal moves, then the scan. */
    method SearchCopy(tmp: Position, depth: nat, ghost g: Game) returns (result: Option<(Move, int)>)
      requires tmp.Valid() && Playable(tmp.State()) && g == Searched()
      modifies tmp, this`nodes
      ensures result == Value(g, old(tmp.State()), depth)
      ensures nodes == old(nodes) + Nodes(g, old(tmp.State()), depth)
      decreases depth, 5
    {
      ghost var s := tmp.State();
      var moves := GenerateMoves(tmp, g, s);
      if |moves.items| == 0 {
        return None;
      }
      var bestIndex, bestScore := ScanMoves(tmp, moves, depth, g, s);
      ScanDone(g, s, depth, Choice(bestIndex, bestScore));
      result := Some((moves.items[bestIndex], bestScore));
    }

    /** The legal moves of the copy, as the game lists them, each one that can be made and taken back. */
    method GenerateMoves(tmp: Position, ghost g: Game, ghost s: PosState) returns (moves: MoveBuffer)
      requires tmp.Valid() && Playable(tmp.State()) && tmp.State() == s && g == Searched()
      modifies tmp
      ensures fresh(moves) && tmp.Valid() && tmp.State() == s
      ensures moves.items == g.moves(s)
      ensures forall mv :: mv in moves.items ==> CoreSearch.ChildReady(s, mv)
    {
      CoreSearch.ReadyChildren(s);
      ChessMovesKey(false, LeafEval(SourceOf(network)), s);
      moves := new MoveBuffer();
      LegalMovesInto(tmp, moves);
    }

    /** The move loop: make, count, score, unmake, and keep the first best. */
    method ScanMoves(tmp: Position, moves: MoveBuffer, depth: nat, ghost g: Game, ghost s: PosState)
      returns (bestIndex: nat, bestScore: int)
      requires tmp.Valid() && tmp.State() == s && g == Searched() && moves.items != []
      requires forall mv :: mv in moves.items ==> CoreSearch.ChildReady(s, mv)
      modifies tmp, this`nodes
      ensures tmp.Valid() && tmp.State() == s && moves.items == old(moves.items)
      ensures Prefix(g, s, moves.items, |moves.items|, depth) == Choice(bestIndex, bestScore)
      ensures bestIndex < |moves.items|
      ensures nodes == old(nodes) + PrefixNodes(g, s, moves.items, |moves.items|, depth)
      decreases depth, 4
    {
      ghost var items := moves.items;
      bestIndex, bestScore := 0, I32_MIN;
      var i := 0;
      while i < |moves.items|
        invariant moves.items == items && i <= |items|
        invariant tmp.Valid() && tmp.State() == s
        invariant Prefix(g, s, items, i, depth) == Choice(bestIndex, bestScore)
        invariant bestIndex < |items|
        invariant nodes == old(nodes) + PrefixNodes(g, s, items, i, depth)
      {
        var score := ChildScore(tmp, moves.items, moves.items[i], depth, g, s);
        ScanStep(g, s, items, i, depth, Choice(bestIndex, bestScore), score);
        if score > bestScore {
          bestIndex, bestScore := i, score;
        }
        i := i + 1;
      }
    }

    /** One move of the loop, which can be made and taken back. */
    method ChildScore(tmp: Position, ghost moves: seq<Move>, mv: Move, depth: nat, ghost g: Game, ghost s: PosState)
      returns (score: int)
      requires tmp.Valid() && tmp.State() == s && g == Searched()
      requires mv in moves && forall m :: m in moves ==> CoreSearch.ChildReady(s, m)
      modifies tmp, this`nodes
      ensures tmp.Valid() && tmp.State() == s
      ensures score == Score(g, s, mv, depth)
      ensures nodes == old(nodes) + 1 + MoveNodes(g, s, mv, depth)
      decreases depth, 3
    {
      score := MoveScore(tmp, mv, depth, g, s);
    }

    /** Make mv, count it, score the position it leads to, unmake. */
    method MoveScore(tmp: Position, mv: Move, depth: nat, ghost g: Game, ghost s: PosState) returns (score: int)
      requires tmp.Valid() && tmp.State() == s && g == Searched() && CoreSearch.ChildReady(s, mv)
      modifies tmp, this`nodes
      ensures tmp.Valid() && tmp.State() == s
      ensures score == Score(g, s, mv, depth)
      ensures nodes == old(nodes) + 1 + MoveNodes(g, s, mv, depth)
      decreases depth, 2
    {
      ChessPlays(false, LeafEval(SourceOf(network)), s, mv);
      var undo := tmp.MakeMove(mv);
      nodes := nodes + 1;
      score := ReplyOf(tmp, depth, g);
      UnmakeMake(s, mv);
      tmp.UnmakeMove(mv, undo);
    }

    /** The score a made move earns: minus the evaluation, or above depth 1 minus the child's search, 0 without a move. */
    method ReplyOf(tmp: Position, depth: nat, ghost g: Game) returns (score: int)
      requires tmp.Valid() && Playable(tmp.State()) && g == Searched()
      modifies this`nodes
      ensures score == Reply(g, tmp.State(), depth)
      ensures nodes == old(nodes) + ReplyNodes(g, tmp.State(), depth)
      decreases depth, 1
    {
      if depth > 1 {
        score := DeepReplyOf(tmp, depth, g);
      } else {
        score := LeafReplyOf(tmp, depth, g);
      }
    }

    /** Above depth 1: minus the answer of the child's own search, 0 when it has none. */
    method DeepReplyOf(tmp: Position, depth: nat, ghost g: Game) returns (score: int)
      requires tmp.Valid() && Playable(tmp.State()) && g == Searched() && depth > 1
      modifies this`nodes
      ensures score == Reply(g, tmp.State(), depth)
      ensures nodes == old(nodes) + ReplyNodes(g, tmp.State(), depth)
      decreases depth, 0
    {
      var r := SearchInternal(tmp, depth - 1, g);
      score := -(match r case None => 0 case Some(p) => p.1);
    }

    /** At depth 1 or below: minus the evaluation, nothing counted. */
    method LeafReplyOf(tmp: Position, depth: nat, ghost g: Game) returns (score: int)
      requires tmp.Valid() && g == Searched() && depth <= 1
      ensures score == Reply(g, tmp.State(), depth)
      ensures ReplyNodes(g, tmp.State(), depth) == 0
    {
      var e := Evaluate(tmp, SourceOf(network));
      score := -e;
    }

    /**
     * `Engine::search`: the count restarts; the answer's move, its score
     * or 0 without one, the depth echoed, never stopped. No move exactly
     * when there is no legal move; otherwise a legal one.
     */
    method Search(pos: Position, depth: nat) returns (r: SearchResult)
      requires pos.Valid() && Playable(pos.State())
      modifies this`nodes
      ensures r.bestMove.None? <==> LegalMoves(pos.State()) == []
      ensures r.bestMove.Some? ==> r.bestMove.value in LegalMoves(pos.State())
      ensures r.bestMove.None? ==> r.score == 0
      ensures r.depth == depth && !r.stopped && r.nodes == nodes
      ensures nodes == Nodes(Searched(), pos.State(), depth)
      ensures Value(Searched(), pos.State(), depth) == if r.bestMove.None? then None else Some((r.bestMove.value, r.score))
    {
      ghost var s, g := pos.State(), Searched();
      nodes := 0;
      var result := SearchInternal(pos, depth, g);
      r := Reported(result, depth, nodes);
      ReportedValue(SourceOf(network), s, depth, result);
    }

    /** `new_game`: only the node count is reset. */
    method NewGame()
      modifies this`nodes
      ensures nodes == 0
    {
      nodes := 0;
    }

    /**
     * `set_option`: `modelversion` or `model`, in any case, with a model
     * that loads replaces the engine by the new one and is accepted;
     * anything else is refused and changes nothing.
     */
    method SetOption(optName: string, value: string, load: Neural.ModelLoad) returns (accepted: bool)
      modifies this
      ensures accepted <==> Neural.ModelOption(optName) && load.Loaded?
      ensures accepted ==>
        modelPath == Some(Neural.ModelPath(value)) && version == value && nodes == 0 && network == load.net
      ensures !accepted ==>
        modelPath == old(modelPath) && version == old(version) && nodes == old(nodes) && network == old(network)
    {
      var lowered := Neural.Lower(optName);
      if lowered == "modelversion" || lowered == "model" {
        match load
        case LoadFailed =>
          accepted := false;
        case Loaded(net) =>
          modelPath := Some(Neural.ModelPath(value));
          version := value;
          nodes := 0;
          network := net;
          accepted := true;
      } else {
        accepted := false;
      }
    }
  }
}
