/**
 * Perft (crates/chess_core/src/perft.rs): the number of leaf positions of
 * the legal-move tree of a given depth. The recursion reuses one move
 * buffer per remaining ply and plays every move on the one position,
 * taking it back afterwards.
 */
module Perft {
  import opened Wrappers
  import opened Types
  import opened Positions
  import opened Generation
  import opened Board
  import opened MoveGen
  import opened Play

  /** A position the legal filter can run on: every pseudo-legal move reversible, the en-passant square on the board. */
  predicate Generable(s: PosState)
  {
    Restorable(s) && (s.enPassant.Some? ==> s.enPassant.value < 64)
  }

  /** The legal moves of a generable position can all be made and taken back. */
  lemma LegalReversible(s: PosState, mv: Move)
    requires Restorable(s) && mv in LegalMoves(s)
    ensures CanMake(s, mv) && Reversible(s, mv)
  {
    LegalMovesExactly(s, mv);
  }

  /** A playable position is generable, and its legal moves can be taken back and lead to playable positions. */
  lemma Children(s: PosState)
    requires Playable(s)
    ensures Generable(s)
    ensures forall mv :: mv in LegalMoves(s) ==> CanMake(s, mv) && Reversible(s, mv) && Playable(MakeState(s, mv))
  {
    forall mv | mv in LegalMoves(s)
      ensures CanMake(s, mv) && Reversible(s, mv) && Playable(MakeState(s, mv))
    {
      LegalReversible(s, mv);
      LegalKeepsPlayable(s, mv);
    }
  }

  /**
   * The leaf count of the tree of depth d. A move that cannot be made
   * counts nothing, and a position the filter cannot run on has no
   * children; neither happens below a playable position.
   */
  ghost function PerftCount(s: PosState, d: nat): nat
    decreases d, 0
  {
    if d == 0 then 1
    else if Generable(s) then SubtreeSum(s, d - 1, LegalMoves(s))
    else 0
  }

  /** The leaf counts of the subtrees of depth d below each move of the list, added up. */
  ghost function SubtreeSum(s: PosState, d: nat, moves: seq<Move>): nat
    decreases d, 1, |moves|
  {
    if moves == [] then 0
    else
      var last := moves[|moves| - 1];
      SubtreeSum(s, d, moves[..|moves| - 1]) + (if CanMake(s, last) then PerftCount(MakeState(s, last), d) else 0)
  }

  /** Tree of depth zero: the position itself is the only leaf. */
  lemma PerftZero(s: PosState)
    ensures PerftCount(s, 0) == 1
  {
  }

  /** Summing depth-zero subtrees counts the moves. */
  lemma {:induction false} SubtreeSumZero(s: PosState, moves: seq<Move>)
    requires forall mv :: mv in moves ==> CanMake(s, mv)
    ensures SubtreeSum(s, 0, moves) == |moves|
    decreases |moves|
  {
    if moves != [] {
      SubtreeSumZero(s, moves[..|moves| - 1]);
    }
  }

  /** Perft of depth one is the number of legal moves. */
  lemma PerftOne(s: PosState)
    requires Generable(s)
    ensures PerftCount(s, 1) == |LegalMoves(s)|
  {
    forall mv | mv in LegalMoves(s)
      ensures CanMake(s, mv)
    {
      LegalReversible(s, mv);
    }
    SubtreeSumZero(s, LegalMoves(s));
  }

  /** The step of the counting loop: one more move adds its subtree. */
  lemma SubtreeSumStep(s: PosState, d: nat, moves: seq<Move>, i: nat)
    requires i < |moves| && CanMake(s, moves[i])
    ensures SubtreeSum(s, d, moves[..i + 1]) == SubtreeSum(s, d, moves[..i]) + PerftCount(MakeState(s, moves[i]), d)
  {
    assert moves[..i + 1][..i] == moves[..i];
  }

  /** The buffers are pairwise distinct objects (`&mut [Vec<Move>]` slices cannot alias). */
  predicate Distinct(layers: seq<MoveBuffer>)
  {
    forall i, j :: 0 <= i < j < |layers| ==> layers[i] != layers[j]
  }

  /**
   * `inner`: with one buffer per remaining ply, generate the legal moves
   * into the first buffer, recurse on the rest for each, and restore the
   * position after every move.
   */
  method Inner(pos: Position, depth: nat, layers: seq<MoveBuffer>) returns (nodes: nat)
    requires pos.Valid() && Playable(pos.State())
    requires |layers| == depth && Distinct(layers)
    modifies pos, set b | b in layers
    ensures pos.Valid() && pos.State() == old(pos.State())
    ensures nodes == PerftCount(old(pos.State()), depth)
    decreases depth, 0
  {
    if depth == 0 {
      return 1;
    }
    ghost var s := pos.State();
    var buf := layers[0];
    var rest := layers[1..];
    assert buf !in rest && Distinct(rest) && |rest| == depth - 1;
    assert (set b | b in rest) <= (set b | b in layers);
    Children(s);
    buf.Clear();
    LegalMovesInto(pos, buf);
    nodes := CountChildren(pos, buf, depth - 1, rest);
  }

  /** The loop of `inner`: for each move of the buffer, the leaf count of the subtree below it. */
  method CountChildren(pos: Position, buf: MoveBuffer, depth: nat, layers: seq<MoveBuffer>) returns (nodes: nat)
    requires pos.Valid() && buf !in layers && |layers| == depth && Distinct(layers)
    requires forall mv :: mv in buf.items ==> CanMake(pos.State(), mv) && Reversible(pos.State(), mv) && Playable(MakeState(pos.State(), mv))
    modifies pos, set b | b in layers
    ensures pos.Valid() && pos.State() == old(pos.State())
    ensures nodes == SubtreeSum(old(pos.State()), depth, buf.items)
    decreases depth, 2
  {
    ghost var s := pos.State();
    ghost var moves := buf.items;
    nodes := 0;
    for i := 0 to |buf.items|
      invariant pos.Valid() && pos.State() == s && buf.items == moves
      invariant nodes == SubtreeSum(s, depth, moves[..i])
    {
      var mv := buf.items[i];
      SubtreeSumStep(s, depth, moves, i);
      var sub := PlayAndCount(pos, mv, depth, layers);
      nodes := nodes + sub;
    }
    assert moves[..|moves|] == moves;
  }

  /** The body of the loop of `inner`: make the move, count the subtree below it, unmake the move. */
  method PlayAndCount(pos: Position, mv: Move, depth: nat, layers: seq<MoveBuffer>) returns (nodes: nat)
    requires pos.Valid() && Reversible(pos.State(), mv) && Playable(MakeState(pos.State(), mv))
    requires |layers| == depth && Distinct(layers)
    modifies pos, set b | b in layers
    ensures pos.Valid() && pos.State() == old(pos.State())
    ensures nodes == PerftCount(MakeState(old(pos.State()), mv), depth)
    decreases depth, 1
  {
    ghost var s := pos.State();
    var undo := pos.MakeMove(mv);
    nodes := Inner(pos, depth, layers);
    UnmakeMake(s, mv);
    pos.UnmakeMove(mv, undo);
  }

  /** `perft`: depth zero counts one; otherwise allocate `depth` buffers and run `inner`. */
  method PerftNodes(pos: Position, depth: nat) returns (nodes: nat)
    requires pos.Valid() && Playable(pos.State())
    modifies pos
    ensures pos.Valid() && pos.State() == old(pos.State())
    ensures nodes == PerftCount(old(pos.State()), depth)
  {
    if depth == 0 {
      return 1;
    }
    var layers: seq<MoveBuffer> := [];
    while |layers| < depth
      invariant pos.Valid() && pos.State() == old(pos.State())
      invariant |layers| <= depth && Distinct(layers)
      invariant forall b :: b in layers ==> fresh(b)
    {
      var buf := new MoveBuffer();
      layers := layers + [buf];
    }
    nodes := Inner(pos, depth, layers);
  }
}
