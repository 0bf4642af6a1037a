/**
 * The repetition history of the searches: a `Vec<u64>` of position keys,
 * pushed after each `make_move` and popped before the matching
 * `unmake_move`.
 */
module History {
  import opened Wrappers
  import opened SearchSpec

  class KeyStack {
    var keys: seq<bv64>

    /** `Vec::with_capacity(..)`: an empty history. */
    constructor ()
      ensures keys == []
    {
      keys := [];
    }

    /** `push(k)`. */
    method Push(k: bv64)
      modifies this
      ensures keys == old(keys) + [k]
    {
      keys := keys + [k];
    }

    /** `pop()`: drops the newest key; an empty history stays empty. */
    method Pop()
      modifies this
      ensures old(keys) == [] ==> keys == []
      ensures old(keys) != [] ==> keys + [old(keys)[|old(keys)| - 1]] == old(keys)
    {
      if |keys| > 0 {
        keys := keys[..|keys| - 1];
      }
    }

    /** `last()`: the newest key, if any. */
    method Last() returns (k: Option<bv64>)
      ensures k.None? <==> keys == []
      ensures k.Some? ==> k.value == keys[|keys| - 1]
    {
      if |keys| == 0 {
        return None;
      }
      return Some(keys[|keys| - 1]);
    }

    /** `iter().filter(|&&x| x == k).count()`. */
    method Count(k: bv64) returns (n: nat)
      ensures n == Occurrences(keys, k)
    {
      n := 0;
      for i := 0 to |keys|
        invariant n == Occurrences(keys[..i], k)
      {
        assert keys[..i + 1][..i] == keys[..i];
        if keys[i] == k {
          n := n + 1;
        }
      }
      assert keys[..|keys|] == keys;
    }
  }

  /** Popping after a push gives back the history before it. */
  lemma PushPop(keys: seq<bv64>, k: bv64, popped: seq<bv64>)
    requires popped + [k] == keys + [k]
    ensures popped == keys
  {
    assert popped == (popped + [k])[..|popped|];
  }
}
