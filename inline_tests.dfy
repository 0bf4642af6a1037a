/**
 * scripts/move_inline_tests.py: locating the first `#[cfg(test)] mod
 * tests { ... }` block of a Rust source by counting braces, and the
 * source that replaces the block by a declaration of a sibling test
 * module. Reading and writing the files is not part of this model.
 */
module InlineTests {
  import opened Wrappers

  // ---------------------------------------------------------------------
  // `str.find`

  /** The pattern occurs at position i of the text. */
  predicate At(text: string, pat: string, i: nat)
  {
    i + |pat| <= |text| && text[i..i + |pat|] == pat
  }

  /** `text.find(pat, start)`: the first position at or after start where the pattern occurs. */
  function Find(text: string, pat: string, start: nat): (r: Option<nat>)
    ensures r.Some? ==> start <= r.value && At(text, pat, r.value)
    ensures r.Some? ==> forall k :: start <= k < r.value ==> !At(text, pat, k)
    ensures r.None? ==> forall k :: start <= k ==> !At(text, pat, k)
    decreases |text| - start
  {
    if start + |pat| > |text| then None
    else if At(text, pat, start) then Some(start)
    else Find(text, pat, start + 1)
  }

  // ---------------------------------------------------------------------
  // Brace depth

  /** The number of `{` minus the number of `}`. */
  function Depth(s: string): int
  {
    if s == [] then 0
    else Depth(s[..|s| - 1]) + Delta(s[|s| - 1])
  }

  /** The depth from b up to and including position k. */
  function Level(text: string, b: nat, k: nat): int
    requires b <= k < |text|
  {
    Depth(text[b..k + 1])
  }

  /** The closing brace of the block opened at b: the first position where the depth since b returns to 0. */
  function Close(text: string, b: nat, i: nat): (r: Option<nat>)
    requires b <= i
    ensures r.Some? ==> i <= r.value < |text| && Level(text, b, r.value) == 0
    ensures r.Some? ==> forall k :: i <= k < r.value ==> Level(text, b, k) != 0
    ensures r.None? ==> forall k :: i <= k < |text| ==> Level(text, b, k) != 0
    decreases |text| - i
  {
    if i >= |text| then None
    else if Level(text, b, i) == 0 then Some(i)
    else Close(text, b, i + 1)
  }

  /** Where the block lies: its attribute, its opening brace and its closing brace. */
  datatype Block = Block(cfg: nat, braceStart: nat, braceEnd: nat)

  const CFG_TEST: string := "#[cfg(test)]"
  const MOD_TESTS: string := "mod tests"

  /**
   * `find_test_block`: the first `#[cfg(test)]`, the first `mod tests`
   * after it, the first `{` after that, and the brace that balances it;
   * nothing when any of them is missing.
   */
  function TestBlock(text: string): Option<Block>
  {
    match Find(text, CFG_TEST, 0)
    case None => None
    case Some(c) =>
      match Find(text, MOD_TESTS, c)
      case None => None
      case Some(m) =>
        match Find(text, "{", m)
        case None => None
        case Some(b) =>
          match Close(text, b, b)
          case None => None
          case Some(e) => Some(Block(c, b, e))
  }

  /** What one character adds to the depth. */
  function Delta(c: char): int
  {
    if c == '{' then 1 else if c == '}' then -1 else 0
  }

  /** The depth after one more character. */
  lemma LevelStep(text: string, b: nat, k: nat)
    requires b <= k < |text|
    ensures Level(text, b, k) == Depth(text[b..k]) + Delta(text[k])
  {
    assert text[b..k + 1][..k - b] == text[b..k];
  }

  /**
   * A block found starts at its attribute, and its braces are a `{` and
   * the `}` that closes it: the depth from the `{` stays positive until
   * that `}`.
   */
  lemma BlockShape(text: string)
    requires TestBlock(text).Some?
    ensures var blk := TestBlock(text).value;
      && blk.cfg <= blk.braceStart < blk.braceEnd < |text|
      && At(text, CFG_TEST, blk.cfg)
      && text[blk.braceStart] == '{' && text[blk.braceEnd] == '}'
      && Level(text, blk.braceStart, blk.braceEnd) == 0
      && forall k :: blk.braceStart <= k < blk.braceEnd ==> Level(text, blk.braceStart, k) > 0
  {
    var blk := TestBlock(text).value;
    var b, e := blk.braceStart, blk.braceEnd;
    assert At(text, "{", b);
    assert text[b..b + 1] == ['{'];
    LevelStep(text, b, b);
    assert text[b..b] == [];
    assert b < e;
    DepthPositive(text, b, e);
    LevelStep(text, b, e);
    assert Depth(text[b..e]) == Level(text, b, e - 1);
  }

  /** Before the balancing position, the depth from a `{` stays positive. */
  lemma {:induction false} DepthPositive(text: string, b: nat, e: nat)
    requires b < e < |text| && text[b] == '{'
    requires forall k :: b <= k < e ==> Level(text, b, k) != 0
    ensures forall k :: b <= k < e ==> Level(text, b, k) > 0
    decreases e - b
  {
    if e - 1 > b {
      DepthPositive(text, b, e - 1);
      LevelStep(text, b, e - 1);
      assert Depth(text[b..e - 1]) == Level(text, b, e - 2);
    } else {
      LevelStep(text, b, b);
      assert text[b..b] == [];
    }
  }

  /**
   * Without the attribute, or `mod tests` after its first occurrence, or a
   * `{` after the first `mod tests` after that, there is no block.
   */
  lemma NoBlockWhenMissing(text: string)
    ensures (forall k :: !At(text, CFG_TEST, k)) ==> TestBlock(text).None?
    ensures var c := Find(text, CFG_TEST, 0);
      c.Some? && (forall k :: c.value <= k ==> !At(text, MOD_TESTS, k)) ==> TestBlock(text).None?
    ensures var c := Find(text, CFG_TEST, 0);
      (c.Some? && Find(text, MOD_TESTS, c.value).Some?
       && forall k :: Find(text, MOD_TESTS, c.value).value <= k ==> !At(text, "{", k))
      ==> TestBlock(text).None?
  {
  }

  /** A `{` that is never balanced gives no block. */
  lemma UnbalancedNoBlock(text: string)
    requires Find(text, CFG_TEST, 0).Some?
    requires Find(text, MOD_TESTS, Find(text, CFG_TEST, 0).value).Some?
    requires var m := Find(text, MOD_TESTS, Find(text, CFG_TEST, 0).value).value;
      Find(text, "{", m).Some?
    requires var m := Find(text, MOD_TESTS, Find(text, CFG_TEST, 0).value).value;
      var b := Find(text, "{", m).value;
      forall k :: b <= k < |text| ==> Level(text, b, k) > 0
    ensures TestBlock(text).None?
  {
  }

  /** The brace loop of `find_test_block`, from the `{` found: one character at a time, the depth kept up to date. */
  method MatchBrace(text: string, b: nat) returns (r: Option<nat>)
    requires b < |text| && text[b] == '{'
    ensures r == Close(text, b, b)
  {
    var depth := 0;
    assert text[b..b] == [];
    for i := b to |text|
      invariant depth == Depth(text[b..i])
      invariant i > b ==> depth > 0
      invariant Close(text, b, b) == Close(text, b, i)
    {
      LevelStep(text, b, i);
      var ch := text[i];
      if ch == '{' {
        depth := depth + 1;
      } else if ch == '}' {
        depth := depth - 1;
        if depth == 0 {
          return Some(i);
        }
      }
      assert text[b..i + 1] == text[b..i] + [text[i]];
    }
    return None;
  }

  /** `find_test_block`. */
  method FindTestBlock(text: string) returns (r: Option<Block>)
    ensures r == TestBlock(text)
  {
    var cfg := Find(text, CFG_TEST, 0);
    if cfg.None? {
      return None;
    }
    var modIdx := Find(text, MOD_TESTS, cfg.value);
    if modIdx.None? {
      return None;
    }
    var braceStart := Find(text, "{", modIdx.value);
    if braceStart.None? {
      return None;
    }
    assert At(text, "{", braceStart.value);
    assert text[braceStart.value..braceStart.value + 1] == ['{'];
    var braceEnd := MatchBrace(text, braceStart.value);
    if braceEnd.None? {
      return None;
    }
    return Some(Block(cfg.value, braceStart.value, braceEnd.value));
  }

  // ---------------------------------------------------------------------
  // The rewritten source

  /** `str.isspace` of one character: the characters Python counts as whitespace. */
  predicate IsSpace(c: char)
  {
    || ('\t' <= c <= '\r') || ('\U{001C}' <= c <= '\U{001F}') || c == ' ' || c == '\U{0085}' || c == '\U{00A0}'
    || c == '\U{1680}' || ('\U{2000}' <= c <= '\U{200A}') || c == '\U{2028}' || c == '\U{2029}'
    || c == '\U{202F}' || c == '\U{205F}' || c == '\U{3000}'
  }

  /** `s.rstrip()`: the text before its trailing whitespace. */
  function RStrip(s: string): (t: string)
    ensures |t| <= |s| && t == s[..|t|]
    ensures forall i :: |t| <= i < |s| ==> IsSpace(s[i])
    ensures |t| > 0 ==> !IsSpace(t[|t| - 1])
  {
    if s != [] && IsSpace(s[|s| - 1]) then RStrip(s[..|s| - 1]) else s
  }

  /** `s.lstrip("\n")`: the text after its leading newlines. */
  function LStripNewlines(s: string): (t: string)
    ensures |t| <= |s| && t == s[|s| - |t|..]
    ensures forall i :: 0 <= i < |s| - |t| ==> s[i] == '\n'
    ensures |t| > 0 ==> t[0] != '\n'
  {
    if s != [] && s[0] == '\n' then LStripNewlines(s[1..]) else s
  }

  /** `f"#[cfg(test)]\nmod {path.stem}_tests;\n"`. */
  function Declaration(stem: string): string
  {
    CFG_TEST + "\nmod " + stem + "_tests;\n"
  }

  /** What takes the place of the block: the declaration with a blank line either side. */
  function Replacement(stem: string): string
  {
    "\n\n" + Declaration(stem) + "\n"
  }

  /** A block found lies inside the text, its attribute before its closing brace. */
  lemma BlockBounds(text: string)
    requires TestBlock(text).Some?
    ensures TestBlock(text).value.cfg <= TestBlock(text).value.braceEnd < |text|
  {
    BlockShape(text);
  }

  /**
   * `move_tests` on a source: nothing when it has no test block, otherwise
   * the source with the block replaced by the declaration, the text
   * before it without trailing whitespace, a blank line either side, and
   * the text after it without leading newlines.
   */
  function Rewrite(src: string, stem: string): Option<string>
  {
    match TestBlock(src)
    case None => None
    case Some(blk) =>
      BlockBounds(src);
      Some(Splice(src, blk.cfg, blk.braceEnd + 1, Replacement(stem)))
  }

  /** The text before c without trailing whitespace, then mid, then the text from e on without leading newlines. */
  function Splice(src: string, c: nat, e: nat, mid: string): string
    requires c <= e <= |src|
  {
    RStrip(src[..c]) + mid + LStripNewlines(src[e..])
  }

  /**
   * out keeps everything of src outside the cut from c to e: it is the
   * text before c up to the first of its trailing whitespace, then mid,
   * then the text from e on from its first character that is not a newline.
   */
  ghost predicate KeepsOutside(src: string, c: nat, e: nat, mid: string, out: string)
  {
    && c <= e <= |src|
    && var p := |RStrip(src[..c])|;
      var q := |LStripNewlines(src[e..])|;
      && p <= c && e <= |src| - q
      && out == src[..p] + mid + src[|src| - q..]
      && (forall i :: p <= i < c ==> IsSpace(src[i]))
      && (forall i :: e <= i < |src| - q ==> src[i] == '\n')
  }

  /** A splice keeps everything outside the cut. */
  lemma SpliceKeeps(src: string, c: nat, e: nat, mid: string)
    requires c <= e <= |src|
    ensures KeepsOutside(src, c, e, mid, Splice(src, c, e, mid))
  {
    KeptPrefix(src, c);
    KeptSuffix(src, e);
    TrailingSpaces(src, c);
    LeadingNewlines(src, e);
  }

  /** `rstrip` of the text before c is a prefix of the source. */
  lemma KeptPrefix(src: string, c: nat)
    requires c <= |src|
    ensures RStrip(src[..c]) == src[..|RStrip(src[..c])|]
  {
    var t := RStrip(src[..c]);
    assert src[..c][..|t|] == src[..|t|];
  }

  /** `lstrip` of the text from e on is a suffix of the source. */
  lemma KeptSuffix(src: string, e: nat)
    requires e <= |src|
    ensures LStripNewlines(src[e..]) == src[|src| - |LStripNewlines(src[e..])|..]
  {
    var t := LStripNewlines(src[e..]);
    assert src[e..][|src| - e - |t|..] == src[|src| - |t|..];
  }

  /** What `rstrip` drops from the text before c is whitespace of the source. */
  lemma TrailingSpaces(src: string, c: nat)
    requires c <= |src|
    ensures var p := |RStrip(src[..c])|;
      p <= c && forall i :: p <= i < c ==> IsSpace(src[i])
  {
    var before := src[..c];
    forall i | |RStrip(before)| <= i < c
      ensures IsSpace(src[i])
    {
      assert src[i] == before[i];
    }
  }

  /** What `lstrip` drops from the text from e on is newlines of the source. */
  lemma LeadingNewlines(src: string, e: nat)
    requires e <= |src|
    ensures var q := |LStripNewlines(src[e..])|;
      e <= |src| - q && forall i :: e <= i < |src| - q ==> src[i] == '\n'
  {
    var after := src[e..];
    forall i | e <= i < |src| - |LStripNewlines(after)|
      ensures src[i] == '\n'
    {
      assert src[i] == after[i - e];
    }
  }

  /**
   * The rewritten source keeps everything outside the block, which starts
   * at c with the attribute and ends before e, just after the closing
   * brace: the text before c up to the first of its trailing whitespace,
   * then the declaration between blank lines, then the text from e on from
   * its first character that is not a newline.
   */
  lemma RewriteKeepsOutside(src: string, stem: string, c: nat, e: nat)
    requires TestBlock(src).Some? && c == TestBlock(src).value.cfg && e == TestBlock(src).value.braceEnd + 1
    ensures Rewrite(src, stem).Some?
    ensures KeepsOutside(src, c, e, Replacement(stem), Rewrite(src, stem).value)
  {
    BlockBounds(src);
    SpliceKeeps(src, c, e, Replacement(stem));
  }

  /** With no test block the source is left as it is. */
  lemma NoBlockNoRewrite(src: string, stem: string)
    requires TestBlock(src).None?
    ensures Rewrite(src, stem).None?
  {
  }
}
