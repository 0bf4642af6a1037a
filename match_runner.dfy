/**
 * crates/tournament/src/match_runner.rs: games between two engines from
 * the starting position, and matches of several games with the colours
 * alternating. An engine is the move it answers on a position under the
 * search limits; the rules are a `Rules` record, the kernel's in play.
 */
module Tournament {
  import opened Wrappers
  import opened Types
  import opened Positions
  import opened GameRules

  /** `GameResult` of crates/tournament/src/elo.rs, from the point of view of one side. */
  datatype GameResult = Win | Loss | Draw

  /** The same game seen from the other side. */
  function Flip(g: GameResult): GameResult
  {
    match g
    case Win => Loss
    case Loss => Win
    case Draw => Draw
  }

  /** Seeing a game from the other side twice gives it back; only a draw looks the same from both sides. */
  lemma FlipInvolution(g: GameResult)
    ensures Flip(Flip(g)) == g
    ensures Flip(g) == g <==> g == Draw
  {
  }

  /** `MatchResult` of crates/tournament/src/elo.rs: the counts from engine 1's point of view. */
  datatype MatchResult = MatchResult(wins: nat, losses: nat, draws: nat)

  /** `MatchResult::total_games`. */
  function TotalGames(m: MatchResult): nat
  {
    m.wins + m.losses + m.draws
  }

  /** One more game counted. */
  function Tally(m: MatchResult, g: GameResult): MatchResult
  {
    match g
    case Win => m.(wins := m.wins + 1)
    case Loss => m.(losses := m.losses + 1)
    case Draw => m.(draws := m.draws + 1)
  }

  /** The counts of the other engine. */
  function Mirror(m: MatchResult): MatchResult
  {
    MatchResult(m.losses, m.wins, m.draws)
  }

  /** `SearchLimits`: a depth, and a time per move when there is one (in milliseconds). */
  datatype Limits = Limits(depth: nat, moveTime: Option<nat>)

  /** `MatchConfig`; the times are in milliseconds. */
  datatype MatchConfig = MatchConfig(
    numGames: nat,
    depth: nat,
    timePerMove: Option<nat>,
    maxMoves: nat,
    alternateColors: bool,
    verbose: bool)

  /** `MatchConfig::default()`. */
  function DefaultConfig(): MatchConfig
  {
    MatchConfig(10, 4, None, 200, true, true)
  }

  /** `search_limits`: the depth, and the time per move when the configuration has one. */
  function SearchLimitsOf(c: MatchConfig): (l: Limits)
    ensures l.depth == c.depth && l.moveTime == c.timePerMove
  {
    Limits(c.depth, c.timePerMove)
  }

  /** The default configuration plays ten games at depth 4 without a clock, 200 moves each, alternating colours. */
  lemma DefaultConfigValues()
    ensures DefaultConfig().numGames == 10 && DefaultConfig().maxMoves == 200
    ensures DefaultConfig().alternateColors && DefaultConfig().verbose
    ensures SearchLimitsOf(DefaultConfig()) == Limits(4, None)
  {
  }

  /** An engine as the match sees it: `search` returns the best move, if any, on a position under the limits. */
  type Engine = (PosState, Limits) -> Option<Move>

  /** The result when the side to move is checkmated, from White's point of view. */
  function Mated(side: Color): GameResult
  {
    if side == White then Loss else Win
  }

  /**
   * `play_game` from a position with `left` moves to go, from White's
   * point of view. The side to move asks its engine; a move is made; no
   * move with no legal move ends the game, checkmate or stalemate; no
   * move while there are legal moves leaves the position as it is. After
   * that the fifty-move rule draws, and running out of moves draws.
   */
  function Game(r: Rules, white: Engine, black: Engine, limits: Limits, s: PosState, left: nat): GameResult
    decreases left
  {
    if left == 0 then Draw
    else
      var answer := if s.side == White then white(s, limits) else black(s, limits);
      if answer.None? && r.legal(s) == [] then (if r.inCheck(s) then Mated(s.side) else Draw)
      else
        var t := if answer.Some? then r.play(s, answer.value) else s;
        if t.halfmove >= 100 then Draw else Game(r, white, black, limits, t, left - 1)
  }

  /** A game with no moves left is a draw. */
  lemma OutOfMoves(r: Rules, white: Engine, black: Engine, limits: Limits, s: PosState)
    ensures Game(r, white, black, limits, s, 0) == Draw
  {
  }

  /**
   * When the engine to move has no move and there is no legal move, the
   * game ends at once: a checkmated White loses, a checkmated Black loses
   * the game to White, and a stalemate is drawn.
   */
  lemma NoMoveEnds(r: Rules, white: Engine, black: Engine, limits: Limits, s: PosState, left: nat)
    requires left > 0 && (if s.side == White then white(s, limits) else black(s, limits)).None? && r.legal(s) == []
    ensures r.inCheck(s) && s.side == White ==> Game(r, white, black, limits, s, left) == Loss
    ensures r.inCheck(s) && s.side == Black ==> Game(r, white, black, limits, s, left) == Win
    ensures !r.inCheck(s) ==> Game(r, white, black, limits, s, left) == Draw
  {
  }

  /**
   * An engine that answers nothing while there are legal moves changes
   * nothing: the game goes on from the same position with one move less,
   * unless the fifty-move rule already applies.
   */
  lemma SilentEngineWaits(r: Rules, white: Engine, black: Engine, limits: Limits, s: PosState, left: nat)
    requires left > 0 && (if s.side == White then white(s, limits) else black(s, limits)).None? && r.legal(s) != []
    ensures Game(r, white, black, limits, s, left) == if s.halfmove >= 100 then Draw else Game(r, white, black, limits, s, left - 1)
  {
  }

  /** A move that brings the halfmove clock to 100 draws the game. */
  lemma FiftyMoveDraw(r: Rules, white: Engine, black: Engine, limits: Limits, s: PosState, left: nat, mv: Move)
    requires left > 0 && (if s.side == White then white(s, limits) else black(s, limits)) == Some(mv)
    requires r.play(s, mv).halfmove >= 100
    ensures Game(r, white, black, limits, s, left) == Draw
  {
  }

  /** When neither engine ever answers on a position with legal moves, the game runs out of moves and is drawn. */
  lemma {:induction false} StalledGameDraws(r: Rules, white: Engine, black: Engine, limits: Limits, s: PosState, left: nat)
    requires white(s, limits).None? && black(s, limits).None? && r.legal(s) != []
    ensures Game(r, white, black, limits, s, left) == Draw
    decreases left
  {
    if left > 0 && s.halfmove < 100 {
      StalledGameDraws(r, white, black, limits, s, left - 1);
    }
  }

  /** `play_game`: new games for both engines are not modelled; the position is a value the loop replaces move by move. */
  method PlayGame(c: MatchConfig, r: Rules, white: Engine, black: Engine) returns (g: GameResult)
    ensures g == Game(r, white, black, SearchLimitsOf(c), StartState(), c.maxMoves)
  {
    var pos := StartState();
    for moveNum := 0 to c.maxMoves
      invariant Game(r, white, black, SearchLimitsOf(c), pos, c.maxMoves - moveNum)
             == Game(r, white, black, SearchLimitsOf(c), StartState(), c.maxMoves)
    {
      var limits := SearchLimitsOf(c);
      var answer := if pos.side == White then white(pos, limits) else black(pos, limits);
      match answer {
        case Some(mv) =>
          pos := r.play(pos, mv);
        case None =>
          var moves := r.legal(pos);
          if |moves| == 0 {
            if r.inCheck(pos) {
              return if pos.side == White then Loss else Win;
            } else {
              return Draw;
            }
          }
      }
      if pos.halfmove >= 100 {
        return Draw;
      }
    }
    return Draw;
  }

  /** Engine 1 has White in game i unless the colours alternate and i is odd. */
  function Engine1White(c: MatchConfig, i: nat): bool
  {
    !c.alternateColors || i % 2 == 0
  }

  /** Game i of the match, from engine 1's point of view. */
  function MatchGame(c: MatchConfig, r: Rules, e1: Engine, e2: Engine, i: nat): GameResult
  {
    if Engine1White(c, i) then Game(r, e1, e2, SearchLimitsOf(c), StartState(), c.maxMoves)
    else Flip(Game(r, e2, e1, SearchLimitsOf(c), StartState(), c.maxMoves))
  }

  /** The counts after the first k games. */
  function MatchAfter(c: MatchConfig, r: Rules, e1: Engine, e2: Engine, k: nat): MatchResult
    decreases k
  {
    if k == 0 then MatchResult(0, 0, 0) else Tally(MatchAfter(c, r, e1, e2, k - 1), MatchGame(c, r, e1, e2, k - 1))
  }

  /** Every game played is counted once. */
  lemma {:induction false} MatchTotal(c: MatchConfig, r: Rules, e1: Engine, e2: Engine, k: nat)
    ensures TotalGames(MatchAfter(c, r, e1, e2, k)) == k
  {
    if k > 0 {
      MatchTotal(c, r, e1, e2, k - 1);
    }
  }

  /** Counting a game and then swapping the engines is counting the game seen from the other side. */
  lemma MirrorTally(m: MatchResult, g: GameResult)
    ensures Mirror(Tally(m, g)) == Tally(Mirror(m), Flip(g))
  {
  }

  /**
   * With alternating colours, an even number of games gives the same
   * counts with the engines swapped, seen from the other side: each pair
   * of games is the same two games with the colours exchanged.
   */
  lemma {:induction false} SwapEngines(c: MatchConfig, r: Rules, e1: Engine, e2: Engine, k: nat)
    requires c.alternateColors && k % 2 == 0
    ensures MatchAfter(c, r, e2, e1, k) == Mirror(MatchAfter(c, r, e1, e2, k))
    decreases k
  {
    if k > 0 {
      var m := MatchAfter(c, r, e1, e2, k - 2);
      SwapEngines(c, r, e1, e2, k - 2);
      var a := Game(r, e1, e2, SearchLimitsOf(c), StartState(), c.maxMoves);
      var b := Game(r, e2, e1, SearchLimitsOf(c), StartState(), c.maxMoves);
      assert (k - 2) % 2 == 0 && (k - 1) % 2 == 1;
      assert MatchGame(c, r, e1, e2, k - 2) == a && MatchGame(c, r, e1, e2, k - 1) == Flip(b);
      assert MatchGame(c, r, e2, e1, k - 2) == b && MatchGame(c, r, e2, e1, k - 1) == Flip(a);
      FlipInvolution(a);
      FlipInvolution(b);
      MirrorTally(m, a);
      MirrorTally(Tally(m, a), Flip(b));
      assert Tally(Tally(Mirror(m), Flip(a)), b) == Tally(Tally(Mirror(m), b), Flip(a));
    }
  }

  /** An engine playing itself with alternating colours over an even number of games wins as often as it loses. */
  lemma SelfPlayBalanced(c: MatchConfig, r: Rules, e: Engine, k: nat)
    requires c.alternateColors && k % 2 == 0
    ensures MatchAfter(c, r, e, e, k).wins == MatchAfter(c, r, e, e, k).losses
  {
    SwapEngines(c, r, e, e, k);
  }

  /** Without alternating colours every game is the same game, engine 1 with White, so all count the same way. */
  lemma {:induction false} FixedColoursRepeat(c: MatchConfig, r: Rules, e1: Engine, e2: Engine, k: nat)
    requires !c.alternateColors
    ensures var g := Game(r, e1, e2, SearchLimitsOf(c), StartState(), c.maxMoves);
      MatchAfter(c, r, e1, e2, k) == MatchResult(if g == Win then k else 0, if g == Loss then k else 0, if g == Draw then k else 0)
  {
    if k > 0 {
      FixedColoursRepeat(c, r, e1, e2, k - 1);
    }
  }

  /** `MatchRunner::run_match`: the games in order, each counted from engine 1's point of view; the progress lines are not modelled. */
  method RunMatch(c: MatchConfig, r: Rules, e1: Engine, e2: Engine) returns (m: MatchResult)
    ensures m == MatchAfter(c, r, e1, e2, c.numGames)
    ensures TotalGames(m) == c.numGames
  {
    m := MatchResult(0, 0, 0);
    for gameNum := 0 to c.numGames
      invariant m == MatchAfter(c, r, e1, e2, gameNum)
    {
      var engine1White := !c.alternateColors || gameNum % 2 == 0;
      var g;
      if engine1White {
        g := PlayGame(c, r, e1, e2);
      } else {
        var h := PlayGame(c, r, e2, e1);
        g := match h case Win => Loss case Loss => Win case Draw => Draw;
      }
      match g {
        case Win => m := m.(wins := m.wins + 1);
        case Loss => m := m.(losses := m.losses + 1);
        case Draw => m := m.(draws := m.draws + 1);
      }
    }
    MatchTotal(c, r, e1, e2, c.numGames);
  }

  /** The configuration of `quick_match`: the default with the number of games and the depth given. */
  function QuickConfig(numGames: nat, depth: nat): (c: MatchConfig)
    ensures c.numGames == numGames && c.depth == depth
    ensures c.(numGames := 10, depth := 4) == DefaultConfig()
  {
    DefaultConfig().(numGames := numGames, depth := depth)
  }

  /** `quick_match`: a match under the quick configuration. */
  method QuickMatch(r: Rules, e1: Engine, e2: Engine, numGames: nat, depth: nat) returns (m: MatchResult)
    ensures m == MatchAfter(QuickConfig(numGames, depth), r, e1, e2, numGames)
    ensures TotalGames(m) == numGames
  {
    m := RunMatch(QuickConfig(numGames, depth), r, e1, e2);
  }
}
