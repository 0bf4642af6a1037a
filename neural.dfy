/**
 * `NeuralEngine` of crates/engines/neural/src/lib.rs: an engine that
 * counts nodes in a field, searches with the timed alpha-beta of
 * `TimedSearch` and scores leaves with a loaded network, or with popcount
 * material when none is loaded. Loading a model (the path check and the
 * ONNX session) is outside the model: `SetOption` is told its outcome.
 */
module Neural {
  import opened Wrappers
  import opened Types
  import opened Positions
  import opened Generation
  import opened Board
  import opened Play
  import opened SearchSpec
  import opened Engines
  import opened TimedSearch
  import Eval
  import Hashing

  /** ASCII lower case, the only case `to_lowercase` changes in an option name the engine knows. */
  function LowerChar(c: char): char
  {
    if 'A' <= c <= 'Z' then (c as int + 32) as char else c
  }

  function Lower(s: string): (r: string)
    ensures |r| == |s| && forall i :: 0 <= i < |s| ==> r[i] == LowerChar(s[i])
  {
    seq(|s|, i requires 0 <= i < |s| => LowerChar(s[i]))
  }

  /** The option names `set_option` answers, in any case. */
  predicate ModelOption(optName: string)
  {
    Lower(optName) == "modelversion" || Lower(optName) == "model"
  }

  /** Option names are matched without regard to case. */
  lemma ModelOptionNames()
    ensures ModelOption("ModelVersion") && ModelOption("MODEL") && ModelOption("model")
    ensures !ModelOption("Hash") && !ModelOption("models")
  {
    assert Lower("ModelVersion") == "modelversion";
    assert Lower("MODEL") == "model";
    assert Lower("model") == "model";
    assert Lower("Hash") == "hash";
    assert |Lower("models")| == 6;
  }

  /** Only the lower-cased name decides. */
  lemma ModelOptionIgnoresCase(a: string, b: string)
    requires Lower(a) == Lower(b)
    ensures ModelOption(a) <==> ModelOption(b)
  {
  }

  /** `models/<version>/model.onnx`, where `with_model` looks for a version's network. */
  function ModelPath(version: string): string
  {
    "models/" + version + "/model.onnx"
  }

  /**
   * What `with_model("models/", version)` came to: no file or a load that
   * failed, or an engine whose network is the loaded model's evaluation
   * (none when the engine is built without ONNX support).
   */
  datatype ModelLoad = LoadFailed | Loaded(net: Option<PosState -> int>)

  /** `SearchResult` from the root's answer: the move, and its score or 0 when there is none. */
  function ResultOf(result: Option<(Move, int)>, depth: nat, nodes: nat, stopped: bool): SearchResult
  {
    match result
    case None => SearchResult(None, 0, depth, nodes, stopped)
    case Some((mv, score)) => SearchResult(Some(mv), score, depth, nodes, stopped)
  }

  /**
   * What `search` reports from a position with the given legal moves: no move and score 0 exactly
   * when there is no legal move, and then nothing counted and no stop.
   * A move reported is legal. Unstopped, it is `PickBest` of the timed
   * game, with one node per move made; stopped, it is the first best of
   * the root moves searched in full.
   */
  ghost predicate Reported(src: EvalSource, s: PosState, moves: seq<Move>, depth: nat, r: SearchResult)
  {
    && (r.bestMove.None? <==> moves == [])
    && (r.bestMove.None? ==> r.score == 0 && !r.stopped && r.nodes == 0)
    && (r.bestMove.Some? ==> r.bestMove.value in moves)
    && (!r.stopped && r.bestMove.Some? ==>
          PickBest(Timed(src), s, depth) == Some((r.bestMove.value, r.score))
          && r.nodes == RootNodes(Timed(src), s, moves, |moves|, ChildDepth(depth), Hashing.PositionHash(s)))
    && (r.stopped ==>
          exists k: nat :: k <= |moves| && RootReport(Timed(src), s, moves, k, depth, (r.bestMove.value, r.score)))
  }

  /** The root outcome of a search counted from zero is reported as `Reported` says. */
  lemma ReportedOfOutcome(src: EvalSource, s: PosState, moves: seq<Move>, depth: nat, result: Option<(Move, int)>,
                          stopped: bool, nodes: nat, searched: nat)
    requires RootOutcome(Timed(src), s, moves, depth, 0, result, stopped, nodes, searched)
    ensures Reported(src, s, moves, depth, ResultOf(result, depth, nodes, stopped))
  {
    if result.Some? {
      var c := RootPrefix(Timed(src), s, moves, searched, ChildDepth(depth), Hashing.PositionHash(s));
      assert moves[c.index] == result.value.0;
    }
  }

  class NeuralEngine {
    var modelPath: Option<string>
    var version: string
    var name: string
    var nodes: nat
    var network: Option<PosState -> int>

    /** `NeuralEngine::new`: no model, version `random-v0`, name `Neural-random-v0`, no node counted. */
    constructor ()
      ensures modelPath == None && version == "random-v0" && name == "Neural-random-v0"
      ensures nodes == 0 && network == None
    {
      modelPath := None;
      version := "random-v0";
      name := "Neural-" + "random-v0";
      nodes := 0;
      network := None;
    }

    /** `with_model` once the model is found and loaded: its path, version and name, no node counted. */
    constructor WithModel(v: string, net: Option<PosState -> int>)
      ensures modelPath == Some(ModelPath(v)) && version == v && name == "Neural-" + v
      ensures nodes == 0 && network == net
    {
      modelPath := Some(ModelPath(v));
      version := v;
      name := "Neural-" + v;
      nodes := 0;
      network := net;
    }

    /** `evaluate`: the network when one is loaded, otherwise `material_eval`, popcount material from the side to move. */
    function Source(): (src: EvalSource)
      reads this`network
      ensures LeafEval(src) == if network.Some? then network.value else Eval.Evaluate
      ensures src.Network? <==> network.Some?
    {
      if network.Some? then Network(network.value) else Popcount
    }

    /**
     * `search_internal`: the timed root search on a copy of the position,
     * counting into `nodes`; its outcome is `RootOutcome` of the timed game.
     */
    method SearchInternal(pos: Position, depth: nat, tc: TimeOracle)
      returns (result: Option<(Move, int)>, stopped: bool, ghost searched: nat)
      requires pos.Valid() && Playable(pos.State())
      modifies this`nodes, tc
      ensures tc.started == old(tc.started) && tc.stopped == (old(tc.stopped) || stopped)
      ensures RootOutcome(Timed(old(Source())), old(pos.State()), LegalMoves(old(pos.State())), depth, old(nodes), result, stopped, nodes, searched)
    {
      var n;
      var src := Source();
      result, stopped, n, searched := PickBestMove(pos, depth, tc, src, nodes);
      nodes := n;
    }

    /**
     * `Engine::search`: the count restarts at zero and the clock starts;
     * the depth is echoed and the report is `Reported` of the root search.
     */
    method Search(pos: Position, depth: nat, tc: TimeOracle) returns (r: SearchResult)
      requires pos.Valid() && Playable(pos.State())
      modifies this`nodes, tc
      ensures tc.started && tc.stopped == r.stopped
      ensures r.depth == depth && r.nodes == nodes
      ensures Reported(old(Source()), old(pos.State()), LegalMoves(old(pos.State())), depth, r)
    {
      ghost var src, s := Source(), pos.State();
      nodes := 0;
      tc.Start();
      var result, stopped;
      ghost var searched;
      result, stopped, searched := SearchInternal(pos, depth, tc);
      r := ResultOf(result, depth, nodes, stopped);
      ReportedOfOutcome(src, s, LegalMoves(s), depth, result, stopped, nodes, searched);
    }

    /** `new_game`: only the node count is reset. */
    method NewGame()
      modifies this`nodes
      ensures nodes == 0
    {
      nodes := 0;
    }

    /**
     * `set_option`: a `modelversion` or `model` option, in any case, with a
     * model that loads replaces the engine by the loaded one and is
     * accepted; anything else is refused and changes nothing.
     */
    method SetOption(optName: string, value: string, load: ModelLoad) returns (accepted: bool)
      modifies this
      ensures accepted <==> ModelOption(optName) && load.Loaded?
      ensures accepted ==>
        modelPath == Some(ModelPath(value)) && version == value && name == "Neural-" + value
        && nodes == 0 && network == load.net
      ensures !accepted ==>
        modelPath == old(modelPath) && version == old(version) && name == old(name)
        && nodes == old(nodes) && network == old(network)
    {
      var lowered := Lower(optName);
      if lowered == "modelversion" || lowered == "model" {
        match load
        case LoadFailed =>
          accepted := false;
        case Loaded(net) =>
          modelPath := Some(ModelPath(value));
          version := value;
          name := "Neural-" + value;
          nodes := 0;
          network := net;
          accepted := true;
      } else {
        accepted := false;
      }
    }
  }
}
