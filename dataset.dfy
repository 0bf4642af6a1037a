/**
 * The position corpus of training/dataset.py: positions encoded from the
 * side to move, labelled by Stockfish in [-1, 1], collected from the games
 * of a PGN file with a cap per game, and split into training and
 * validation sizes. Stockfish, the PGN reader, python-chess's move
 * generator, `random.sample` and `tanh` are parameters with the
 * properties the code relies on.
 */
module Dataset {
  import opened Wrappers
  import opened Types
  import opened Positions
  import Features

  /** `PIECE_TO_PLANE`: pawn 0 through king 5. */
  const PIECE_TO_PLANE: map<PieceKind, nat> := map[Pawn := 0, Knight := 1, Bishop := 2, Rook := 3, Queen := 4, King := 5]

  /** The planes of the dictionary are the kind indices of the Rust encoder. */
  lemma PlanesAreKindIndices(k: PieceKind)
    ensures k in PIECE_TO_PLANE && PIECE_TO_PLANE[k] == k.Idx()
  {
  }

  /**
   * `board_to_features_relative`: a zeroed vector of 768, and for each
   * occupied square a 1.0 at plane `PIECE_TO_PLANE` (plus 6 for a piece
   * not of the side to move) and the square, mirrored with Black to move.
   * It is entry for entry the Rust relative encoding.
   */
  method BoardToFeaturesRelative(board: PosState) returns (features: seq<real>)
    ensures features == Features.Encoded(board.board, board.side)
  {
    var a := new real[768](_ => 0.0);
    var flip := board.side == Black;
    for square := 0 to 64
      invariant forall i :: 0 <= i < Features.NUM_FEATURES ==> a[i] == Features.Partial(board.board, board.side, square, i)
    {
      match board.board[square]
      case None =>
      case Some(piece) =>
        var targetSq := if flip then 63 - square else square;
        var isFriendly := piece.color == board.side;
        PlanesAreKindIndices(piece.kind);
        var plane := PIECE_TO_PLANE[piece.kind];
        if !isFriendly {
          plane := plane + 6;
        }
        var idx := plane * 64 + targetSq;
        assert idx == Features.Index(piece, square, board.side);
        Features.IndexDecodes(piece, square, board.side, 0);
        ghost var before := a[..];
        a[idx] := 1.0;
        forall i | 0 <= i < Features.NUM_FEATURES
          ensures a[i] == Features.Partial(board.board, board.side, square + 1, i)
        {
          Features.IndexDecodes(piece, square, board.side, i);
          if i != idx {
            assert a[i] == before[i];
          }
        }
    }
    features := a[..];
  }

  /** Every entry is 0.0 or 1.0, and one entry per piece is 1.0. */
  lemma FeaturesOnePerPiece(board: PosState)
    ensures forall i :: 0 <= i < 768 ==> Features.Encoded(board.board, board.side)[i] in {0.0, 1.0}
    ensures |Features.NonZero(Features.Encoded(board.board, board.side))| == |Features.Occupied(board.board)|
  {
    Features.NonZeroIsPieceCount(board.board, board.side);
  }

  /** What `tanh` is taken to be: odd, non-decreasing, 0 at 0, and within [-1, 1]. */
  ghost predicate TanhLike(tanh: real -> real)
  {
    && tanh(0.0) == 0.0
    && (forall x :: -1.0 <= tanh(x) <= 1.0)
    && (forall x, y :: x <= y ==> tanh(x) <= tanh(y))
    && (forall x :: tanh(-x) == -tanh(x))
  }

  /**
   * `stockfish_eval_to_value`: with a mate distance, 1.0 when it is
   * positive and -1.0 otherwise, whatever the centipawns; without one,
   * `tanh(score_cp / 400)`.
   */
  function StockfishEvalToValue(scoreCp: int, mateIn: Option<int>, tanh: real -> real): (v: real)
    ensures mateIn.Some? ==> v == if mateIn.value > 0 then 1.0 else -1.0
    ensures mateIn.None? ==> v == tanh(scoreCp as real / 400.0)
  {
    match mateIn
    case Some(m) => if m > 0 then 1.0 else -1.0
    case None => tanh(scoreCp as real / 400.0)
  }

  /** Every label lies in [-1, 1]; without a mate its sign is that of the centipawns, and 0 at 0. */
  lemma ValueRange(scoreCp: int, mateIn: Option<int>, tanh: real -> real)
    requires TanhLike(tanh)
    ensures -1.0 <= StockfishEvalToValue(scoreCp, mateIn, tanh) <= 1.0
    ensures mateIn.None? && scoreCp > 0 ==> StockfishEvalToValue(scoreCp, mateIn, tanh) >= 0.0
    ensures mateIn.None? && scoreCp < 0 ==> StockfishEvalToValue(scoreCp, mateIn, tanh) <= 0.0
    ensures mateIn.None? && scoreCp == 0 ==> StockfishEvalToValue(scoreCp, mateIn, tanh) == 0.0
  {
    var x := scoreCp as real / 400.0;
    assert tanh(0.0) == 0.0;
    if scoreCp > 0 {
      assert 0.0 <= x;
    } else if scoreCp < 0 {
      assert x <= 0.0;
    }
  }

  /** Opposite centipawns give opposite labels. */
  lemma ValueOdd(scoreCp: int, tanh: real -> real)
    requires TanhLike(tanh)
    ensures StockfishEvalToValue(-scoreCp, None, tanh) == -StockfishEvalToValue(scoreCp, None, tanh)
  {
    assert (-scoreCp) as real / 400.0 == -(scoreCp as real / 400.0);
  }

  /** What Stockfish's analysis reports, relative to the side to move: centipawns or a mate distance. */
  datatype EngineScore = Centipawns(cp: int) | Mate(moves: int)

  /** `evaluate_position`: the label of the analysis, the mate branch with centipawns 0. */
  function EvaluatePosition(score: EngineScore, tanh: real -> real): (v: real)
    ensures score.Mate? ==> v == StockfishEvalToValue(0, Some(score.moves), tanh)
    ensures score.Centipawns? ==> v == StockfishEvalToValue(score.cp, None, tanh)
  {
    match score
    case Mate(m) => StockfishEvalToValue(0, Some(m), tanh)
    case Centipawns(cp) => StockfishEvalToValue(cp, None, tanh)
  }

  /** One example of the corpus: the relative features and the label. */
  datatype Example = Example(features: seq<real>, value: real)

  /** A game of the PGN file, as the positions after each mainline move. */
  datatype PgnGame = PgnGame(positions: seq<PosState>)

  /**
   * The oracles `from_pgn` consults: Stockfish's analysis, python-chess's
   * "the mover has a legal move", `tanh`, and `random.sample`.
   */
  datatype Oracles = Oracles(
    analysis: PosState -> EngineScore,
    hasLegalMove: PosState -> bool,
    tanh: real -> real,
    sample: (seq<Example>, nat) -> seq<Example>)

  /** `random.sample(xs, k)` for k at most |xs|: k of the elements, none repeated. */
  ghost predicate SampleLike(sample: (seq<Example>, nat) -> seq<Example>)
  {
    forall xs: seq<Example>, k: nat :: k <= |xs| ==> |sample(xs, k)| == k && multiset(sample(xs, k)) <= multiset(xs)
  }

  /** The example made from a position: its relative features and its Stockfish label. */
  function ExampleOf(o: Oracles, board: PosState): Example
  {
    Example(Features.Encoded(board.board, board.side), EvaluatePosition(o.analysis(board), o.tanh))
  }

  /** The candidates of the first k positions of a game: every position after which the mover has a legal move, in order. */
  function Candidates(o: Oracles, positions: seq<PosState>, k: nat): seq<Example>
    requires k <= |positions|
  {
    if k == 0 then []
    else
      Candidates(o, positions, k - 1)
      + (if o.hasLegalMove(positions[k - 1]) then [ExampleOf(o, positions[k - 1])] else [])
  }

  /** A game's contribution: all its candidates, or a sample of `positions_per_game` of them when there are more. */
  function Capped(o: Oracles, candidates: seq<Example>, perGame: nat): seq<Example>
  {
    if |candidates| > perGame then o.sample(candidates, perGame) else candidates
  }

  /** The examples of the first n games, in game order. */
  function Collected(o: Oracles, games: seq<PgnGame>, n: nat, perGame: nat): seq<Example>
    requires n <= |games|
  {
    if n == 0 then []
    else
      var ps := games[n - 1].positions;
      Collected(o, games, n - 1, perGame) + Capped(o, Candidates(o, ps, |ps|), perGame)
  }

  /** The games read: `max_games` of them, or all when the file ends first. */
  function GamesRead(games: seq<PgnGame>, maxGames: int): (n: nat)
    ensures n <= |games| && (maxGames <= 0 ==> n == 0)
    ensures maxGames > 0 ==> n <= maxGames && (n == |games| || n == maxGames)
  {
    if maxGames <= 0 then 0 else if maxGames < |games| then maxGames else |games|
  }

  /** Each game contributes the smaller of its candidate count and the cap. */
  lemma CappedSize(o: Oracles, candidates: seq<Example>, perGame: nat)
    requires SampleLike(o.sample)
    ensures |Capped(o, candidates, perGame)| == if |candidates| < perGame then |candidates| else perGame
    ensures multiset(Capped(o, candidates, perGame)) <= multiset(candidates)
  {
  }

  /** There are at most as many candidates as positions. */
  lemma {:induction false} CandidatesAtMost(o: Oracles, positions: seq<PosState>, k: nat)
    requires k <= |positions|
    ensures |Candidates(o, positions, k)| <= k
  {
    if k > 0 {
      CandidatesAtMost(o, positions, k - 1);
    }
  }

  /** The games read contribute at most `positions_per_game` examples each. */
  lemma {:induction false} CollectedAtMost(o: Oracles, games: seq<PgnGame>, n: nat, perGame: nat)
    requires n <= |games| && SampleLike(o.sample)
    ensures |Collected(o, games, n, perGame)| <= n * perGame
  {
    if n > 0 {
      CollectedAtMost(o, games, n - 1, perGame);
      var ps := games[n - 1].positions;
      CappedSize(o, Candidates(o, ps, |ps|), perGame);
      assert (n - 1) * perGame + perGame == n * perGame;
    }
  }

  /** The label of every example collected from the games read lies in [-1, 1]. */
  lemma {:induction false} CollectedValues(o: Oracles, games: seq<PgnGame>, n: nat, perGame: nat)
    requires n <= |games| && SampleLike(o.sample) && TanhLike(o.tanh)
    ensures forall e :: e in Collected(o, games, n, perGame) ==> -1.0 <= e.value <= 1.0
  {
    if n > 0 {
      CollectedValues(o, games, n - 1, perGame);
      var ps := games[n - 1].positions;
      var cands := Candidates(o, ps, |ps|);
      CandidateValues(o, ps, |ps|);
      CappedMembers(o, cands, perGame);
      var before: seq<Example>, kept: seq<Example> := Collected(o, games, n - 1, perGame), Capped(o, cands, perGame);
      assert Collected(o, games, n, perGame) == before + kept;
      forall e | e in before + kept
        ensures -1.0 <= e.value <= 1.0
      {
        assert e in before || e in kept;
      }
    }
  }

  /** The examples kept from a game are among its candidates. */
  lemma CappedMembers(o: Oracles, candidates: seq<Example>, perGame: nat)
    requires SampleLike(o.sample)
    ensures forall e :: e in Capped(o, candidates, perGame) ==> e in candidates
  {
    CappedSize(o, candidates, perGame);
    forall e | e in Capped(o, candidates, perGame)
      ensures e in candidates
    {
      assert multiset(Capped(o, candidates, perGame))[e] > 0;
    }
  }

  /** The label of every example lies in [-1, 1]. */
  lemma {:induction false} CandidateValues(o: Oracles, positions: seq<PosState>, k: nat)
    requires k <= |positions| && TanhLike(o.tanh)
    ensures forall e :: e in Candidates(o, positions, k) ==> -1.0 <= e.value <= 1.0
  {
    if k > 0 {
      CandidateValues(o, positions, k - 1);
      var b := positions[k - 1];
      match o.analysis(b)
      case Mate(m) => ValueRange(0, Some(m), o.tanh);
      case Centipawns(cp) => ValueRange(cp, None, o.tanh);
    }
  }

  /** The PGN file, read one game at a time. */
  class PgnReader {
    const games: seq<PgnGame>
    var next: nat

    /** `open(pgn_path)`: at the first game. */
    constructor (games: seq<PgnGame>)
      ensures this.games == games && next == 0
    {
      this.games := games;
      next := 0;
    }

    /** `chess.pgn.read_game`: the next game, or none at the end of the file. */
    method ReadGame() returns (game: Option<PgnGame>)
      modifies this`next
      ensures old(next) < |games| ==> game == Some(games[old(next)]) && next == old(next) + 1
      ensures old(next) >= |games| ==> game == None && next == old(next)
    {
      if next < |games| {
        game := Some(games[next]);
        next := next + 1;
      } else {
        game := None;
      }
    }
  }

  /** The Stockfish process `popen_uci` started; `quit` ends it. */
  class StockfishClient {
    var running: bool

    constructor ()
      ensures running
    {
      running := true;
    }

    method Quit()
      modifies this
      ensures !running
    {
      running := false;
    }
  }

  /**
   * The positions of one game: each move pushed, and after it, when the
   * mover has a legal move, the position's example.
   */
  method GamePositions(game: PgnGame, o: Oracles) returns (positions: seq<Example>)
    ensures positions == Candidates(o, game.positions, |game.positions|)
  {
    positions := [];
    for k := 0 to |game.positions|
      invariant positions == Candidates(o, game.positions, k)
    {
      var board := game.positions[k];
      if o.hasLegalMove(board) {
        var feat := BoardToFeaturesRelative(board);
        var value := EvaluatePosition(o.analysis(board), o.tanh);
        positions := positions + [Example(feat, value)];
      }
    }
  }

  /** A game's examples: its candidates, sampled down to `positions_per_game` when there are more. */
  method GameExamples(game: PgnGame, positionsPerGame: nat, o: Oracles) returns (positions: seq<Example>)
    ensures positions == Capped(o, Candidates(o, game.positions, |game.positions|), positionsPerGame)
  {
    positions := GamePositions(game, o);
    if |positions| > positionsPerGame {
      positions := o.sample(positions, positionsPerGame);
    }
  }

  /**
   * `ChessPositionDataset.from_pgn`: up to `max_games` games read in
   * order, each contributing its candidates capped at `positions_per_game`,
   * appended in game order; the error when nothing was collected. Stockfish
   * is quit however the loop ends.
   */
  method FromPgn(games: seq<PgnGame>, engine: StockfishClient, maxGames: int, positionsPerGame: nat, o: Oracles)
    returns (r: Result<seq<Example>, string>)
    requires engine.running
    modifies engine
    ensures !engine.running
    ensures r.Err? <==> Collected(o, games, GamesRead(games, maxGames), positionsPerGame) == []
    ensures r.Ok? ==> r.value == Collected(o, games, GamesRead(games, maxGames), positionsPerGame)
  {
    var f := new PgnReader(games);
    var examples := ReadGames(f, maxGames, positionsPerGame, o);
    engine.Quit();
    if |examples| == 0 {
      return Err("No positions extracted from PGN file");
    }
    r := Ok(examples);
  }

  /** The loop of `from_pgn`: up to `max_games` games read in turn, the examples of each appended. */
  method ReadGames(f: PgnReader, maxGames: int, positionsPerGame: nat, o: Oracles) returns (examples: seq<Example>)
    requires f.next == 0
    modifies f
    ensures examples == Collected(o, f.games, GamesRead(f.games, maxGames), positionsPerGame)
  {
    examples := [];
    var gameIdx := 0;
    while gameIdx < maxGames
      invariant f.next == gameIdx <= |f.games|
      invariant gameIdx <= GamesRead(f.games, maxGames)
      invariant examples == Collected(o, f.games, gameIdx, positionsPerGame)
      decreases |f.games| - gameIdx
    {
      var game := f.ReadGame();
      if game.None? {
        break;
      }
      var positions := GameExamples(game.value, positionsPerGame, o);
      examples := examples + positions;
      gameIdx := gameIdx + 1;
    }
  }

  /** `int(x)`: truncation toward zero. */
  function Trunc(x: real): int
  {
    if x >= 0.0 then x.Floor else -((-x).Floor)
  }

  /**
   * `create_dataloaders`: `n_val = int(n * val_split)` and the rest for
   * training; the two sizes add up to n, and with `val_split` in [0, 1]
   * both lie in [0, n], the validation size being the floor of the exact
   * product of n and `val_split`. The product is taken on reals, so the
   * rounding of the double product before `int()` is not modelled.
   */
  function SplitSizes(n: nat, valSplit: real): (sizes: (int, int))
  {
    var nVal := Trunc(n as real * valSplit);
    (n - nVal, nVal)
  }

  lemma SplitSizesSum(n: nat, valSplit: real)
    ensures SplitSizes(n, valSplit).0 + SplitSizes(n, valSplit).1 == n
    ensures 0.0 <= valSplit <= 1.0 ==>
      SplitSizes(n, valSplit).1 == (n as real * valSplit).Floor
      && 0 <= SplitSizes(n, valSplit).1 <= n && 0 <= SplitSizes(n, valSplit).0 <= n
  {
    if 0.0 <= valSplit <= 1.0 {
      assert 0.0 <= n as real * valSplit <= n as real;
    }
  }

  /** The default split of 0.1 keeps 100 of 1000 positions for validation. */
  lemma DefaultSplit()
    ensures SplitSizes(1000, 0.1) == (900, 100)
  {
    assert 1000 as real * 0.1 == 100.0;
  }
}
