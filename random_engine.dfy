/**
 * `RandomEngine` of crates/engines/random/src/lib.rs: one legal move chosen
 * at random, with no evaluation. The random choice is a choice the model
 * does not fix: every property holds whichever legal move is chosen.
 */
module Random {
  import opened Wrappers
  import opened Types
  import opened Positions
  import opened Generation
  import opened Board
  import opened MoveGen
  import opened Engines
  import opened Perft

  /** No move exactly when there is none to choose, otherwise one of the moves. */
  predicate Picked(moves: seq<Move>, r: SearchResult)
  {
    && (r.bestMove.None? <==> moves == [])
    && (r.bestMove.Some? ==> r.bestMove.value in moves)
  }

  class RandomEngine {
    var nodes: nat

    /** `RandomEngine::new`: nothing counted. */
    constructor ()
      ensures nodes == 0
    {
      nodes := 0;
    }

    /**
     * `Engine::search`: the legal moves of a copy of the position, counted
     * as one node, and one of them at random, whatever the limits. There is
     * no move exactly when there is no legal move, checkmate and stalemate
     * alike; the score is 0, the depth 1, and the search never stops early.
     * The position itself is not changed.
     */
    method Search(pos: Position) returns (r: SearchResult)
      requires pos.Valid() && Generable(pos.State())
      modifies this`nodes
      ensures Picked(LegalMoves(pos.State()), r)
      ensures r.score == 0 && r.depth == 1 && r.nodes == 1 && !r.stopped
      ensures nodes == 1
    {
      nodes := 0;
      var copy := new Position.Clone(pos);
      var moves := new MoveBuffer();
      LegalMovesInto(copy, moves);
      nodes := 1;
      var best: Option<Move> := None;
      if |moves.items| > 0 {
        var i :| 0 <= i < |moves.items|;
        best := Some(moves.items[i]);
      }
      r := SearchResult(best, 0, 1, nodes, false);
    }

    /** `new_game`: the count is reset. */
    method NewGame()
      modifies this`nodes
      ensures nodes == 0
    {
      nodes := 0;
    }

  }
}
