/**
 * What every engine shares: the `SearchResult` of the `Engine` trait
 * (crates/chess_core/src/lib.rs) and the clock the timed searches consult.
 * The clock of crates/chess_core/src/time_control.rs reads the wall time;
 * here whether the limit has passed is a choice the model does not fix, so
 * every property proved holds however the clock behaves.
 */
module Engines {
  import opened Wrappers
  import opened Types

  /** `SearchResult`: the move found, its score, the depth, the node count, and whether the clock stopped the search. */
  datatype SearchResult = SearchResult(bestMove: Option<Move>, score: int, depth: nat, nodes: nat, stopped: bool)

  /** `check_interval`: the clock is read once every 1024 nodes. */
  const CHECK_INTERVAL: nat := 1024

  /** `should_check_time`: the node count is a multiple of the interval. */
  function ShouldCheckTime(nodes: nat): bool
  {
    nodes % CHECK_INTERVAL == 0
  }

  /** The clock is read at nodes 0, 1024, 2048, ... and never in between. */
  lemma CheckSpacing(nodes: nat)
    requires ShouldCheckTime(nodes)
    ensures ShouldCheckTime(nodes + CHECK_INTERVAL)
    ensures forall m :: nodes < m < nodes + CHECK_INTERVAL ==> !ShouldCheckTime(m)
  {
  }

  /**
   * `TimeControl`: whether a limit was given, whether the clock was
   * started, and the stop flag. Only `check_time` can raise the flag, and
   * only `start` lowers it.
   */
  class TimeOracle {
    const limited: bool
    var started: bool
    var stopped: bool

    /** `TimeControl::new(limit)`: not started, not stopped. */
    constructor (limited: bool)
      ensures this.limited == limited && !started && !stopped
    {
      this.limited := limited;
      started := false;
      stopped := false;
    }

    /** `start`: records the start time and lowers the stop flag. */
    method Start()
      modifies this
      ensures started && !stopped
    {
      started := true;
      stopped := false;
    }

    /**
     * `check_time`: true when already stopped; otherwise, with a limit and
     * a start time, whether the limit has passed, raising the flag when it
     * has. Without a limit or before `start` it never fires.
     */
    method CheckTime() returns (up: bool)
      modifies this
      ensures started == old(started)
      ensures stopped == (old(stopped) || up)
      ensures old(stopped) ==> up
      ensures up && !old(stopped) ==> limited && started
    {
      if stopped {
        return true;
      }
      if limited && started {
        var elapsed: bool :| true;
        if elapsed {
          stopped := true;
          return true;
        }
      }
      return false;
    }
  }
}
