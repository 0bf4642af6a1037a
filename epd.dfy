/**
 * The EPD reader of crates/chess_core/tests/perft_tests.rs: one line of
 * a perft suite is a FEN followed by `;`-separated entries `D<depth>
 * <nodes>`; `parse_epd_line` keeps the FEN and the entries, sorted by
 * depth. A malformed depth or node count makes the test panic, which is
 * an error here.
 */
module Epd {
  import opened Wrappers
  import Fen

  // ---------------------------------------------------------------------
  // Text helpers: `str::trim` and `str::parse` of unsigned integers

  predicate AllWhitespace(s: string)
  {
    forall i :: 0 <= i < |s| ==> Fen.IsWhitespace(s[i])
  }

  /** `str::trim_start`: the text after its leading whitespace. */
  function TrimStart(s: string): (t: string)
    ensures |t| <= |s| && t == s[|s| - |t|..]
    ensures AllWhitespace(s[..|s| - |t|])
    ensures |t| > 0 ==> !Fen.IsWhitespace(t[0])
  {
    if s != [] && Fen.IsWhitespace(s[0]) then TrimStart(s[1..]) else s
  }

  /** `str::trim_end`: the text before its trailing whitespace. */
  function TrimEnd(s: string): (t: string)
    ensures |t| <= |s| && t == s[..|t|]
    ensures AllWhitespace(s[|t|..])
    ensures |t| > 0 ==> !Fen.IsWhitespace(t[|t| - 1])
  {
    if s != [] && Fen.IsWhitespace(s[|s| - 1]) then TrimEnd(s[..|s| - 1]) else s
  }

  /** `str::trim`. */
  function Trim(s: string): string
  {
    TrimEnd(TrimStart(s))
  }

  /**
   * Trimming leaves a piece of the text that neither starts nor ends with
   * whitespace, and leaves nothing exactly when the text is all whitespace.
   */
  lemma TrimShape(s: string)
    ensures var t := Trim(s); |t| > 0 ==> !Fen.IsWhitespace(t[0]) && !Fen.IsWhitespace(t[|t| - 1])
    ensures Trim(s) == [] <==> AllWhitespace(s)
  {
    var u := TrimStart(s);
    var t := TrimEnd(u);
    var a := |s| - |u|;
    if t == [] {
      assert u[|t|..] == u;
      assert |u| == 0;
      forall i | 0 <= i < |s|
        ensures Fen.IsWhitespace(s[i])
      {
        assert s[i] == s[..a][i];
      }
    } else {
      assert t[0] == u[0];
      assert !AllWhitespace(s) by {
        assert s[a] == u[0];
      }
    }
  }

  /** A string of decimal digits after an optional `+`, read as a number below the limit (`u8` or `u64`). */
  function ParseBelow(s: string, limit: nat): (r: Option<nat>)
    ensures r.Some? ==> r.value < limit
    ensures (|s| == 0 || s == "+") ==> r.None?
  {
    var ds := if |s| > 0 && s[0] == '+' then s[1..] else s;
    if |ds| > 0 && Fen.AllDigits(ds) && Fen.DigitsValue(ds) < limit then Some(Fen.DigitsValue(ds)) else None
  }

  /** Every number below the limit is read back from its numeral. */
  lemma ParseBelowDecimal(n: nat, limit: nat)
    requires n < limit
    ensures ParseBelow(Fen.Decimal(n), limit) == Some(n)
  {
    Fen.DecimalValue(n);
  }

  /** A numeral too large for the type is refused. */
  lemma ParseBelowOverflow(n: nat, limit: nat)
    requires n >= limit
    ensures ParseBelow(Fen.Decimal(n), limit).None?
  {
    Fen.DecimalValue(n);
  }

  /** `u8::MAX + 1` and `u64::MAX + 1`. */
  const U8_LIMIT: nat := 0x100
  const U64_LIMIT: nat := 0x1_0000_0000_0000_0000

  // ---------------------------------------------------------------------
  // One entry

  /** An expected node count at a depth, `(u8, u64)`. */
  datatype Expect = Expect(depth: nat, nodes: nat)

  /** Why the test panics: the depth token or the node count that does not read. */
  datatype Panic = BadDepth(key: string) | BadCount(val: string)

  /** One suite line: the FEN and its expected counts. */
  datatype EpdCase = EpdCase(fen: string, depths: seq<Expect>)

  /** The first token of an entry, or nothing. */
  function Key(part: string): string
  {
    var items := Fen.Fields(Trim(part));
    if |items| > 0 then items[0] else ""
  }

  /** The second token of an entry, or nothing. */
  function Value(part: string): string
  {
    var items := Fen.Fields(Trim(part));
    if |items| > 1 then items[1] else ""
  }

  predicate IsDepthKey(key: string)
  {
    |key| > 0 && key[0] == 'D'
  }

  /**
   * What one `;`-separated entry contributes: nothing when it is blank or
   * its key does not start with `D`, the depth and count when both read as
   * numbers, and otherwise the token that made the test panic.
   */
  function Segment(part: string): Result<Option<Expect>, Panic>
  {
    var key := Key(part);
    var val := Value(part);
    if Trim(part) == [] || !IsDepthKey(key) then Ok(None)
    else
      match ParseBelow(key[1..], U8_LIMIT)
      case None => Err(BadDepth(key))
      case Some(depth) =>
        match ParseBelow(val, U64_LIMIT)
        case None => Err(BadCount(val))
        case Some(nodes) => Ok(Some(Expect(depth, nodes)))
  }

  /**
   * An entry is kept exactly when its key starts with `D` and both its
   * tokens read; it is an error exactly when its key starts with `D` and
   * one of them does not.
   */
  lemma SegmentCases(part: string)
    ensures Segment(part) == Ok(None) <==> !IsDepthKey(Key(part))
    ensures Segment(part).Err? <==>
      IsDepthKey(Key(part)) && (ParseBelow(Key(part)[1..], U8_LIMIT).None? || ParseBelow(Value(part), U64_LIMIT).None?)
    ensures forall e: Expect :: Segment(part) == Ok(Some(e)) <==>
      IsDepthKey(Key(part)) && ParseBelow(Key(part)[1..], U8_LIMIT) == Some(e.depth) && ParseBelow(Value(part), U64_LIMIT) == Some(e.nodes)
  {
    if Trim(part) == [] {
      assert Fen.Fields(Trim(part)) == [];
    }
  }

  /** A depth key without a count makes the test panic. */
  lemma MissingCount(part: string)
    requires IsDepthKey(Key(part)) && |Fen.Fields(Trim(part))| == 1
    ensures Segment(part).Err?
  {
    SegmentCases(part);
  }

  /** What a segment yields: an entry, nothing, or the reason for the panic. */
  type Outcome = Result<Option<Expect>, Panic>

  /** The outcome of each segment, in order. */
  function Outcomes(segs: seq<string>): (rs: seq<Outcome>)
    ensures |rs| == |segs| && forall j :: 0 <= j < |segs| ==> rs[j] == Segment(segs[j])
  {
    seq(|segs|, j requires 0 <= j < |segs| => Segment(segs[j]))
  }

  /** The entries collected from the outcomes in order, stopping at the first panic. */
  function Collect(rs: seq<Outcome>): Result<seq<Expect>, Panic>
  {
    if rs == [] then Ok([])
    else
      match Collect(rs[..|rs| - 1])
      case Err(m) => Err(m)
      case Ok(ds) =>
        match rs[|rs| - 1]
        case Err(m) => Err(m)
        case Ok(None) => Ok(ds)
        case Ok(Some(e)) => Ok(ds + [e])
  }

  /** Collecting fails exactly when one of the segments is malformed. */
  lemma {:induction false} CollectErr(rs: seq<Outcome>)
    ensures Collect(rs).Err? <==> exists j :: 0 <= j < |rs| && rs[j].Err?
  {
    if rs != [] {
      var init := rs[..|rs| - 1];
      CollectErr(init);
      if Collect(init).Err? {
        var j :| 0 <= j < |init| && init[j].Err?;
        assert rs[j] == init[j];
      } else if !rs[|rs| - 1].Err? {
        forall j | 0 <= j < |rs|
          ensures !rs[j].Err?
        {
          if j < |init| {
            assert rs[j] == init[j];
          }
        }
      }
    }
  }

  /** The entries collected are exactly those the segments yield. */
  lemma {:induction false} CollectFrom(rs: seq<Outcome>, ds: seq<Expect>)
    requires Collect(rs) == Ok(ds)
    ensures forall e :: e in ds <==> exists j :: 0 <= j < |rs| && rs[j] == Ok(Some(e))
  {
    if rs != [] {
      var init := rs[..|rs| - 1];
      var ds0 := Collect(init).value;
      CollectFrom(init, ds0);
      forall e
        ensures e in ds <==> exists j :: 0 <= j < |rs| && rs[j] == Ok(Some(e))
      {
        if e in ds {
          if e in ds0 {
            var j :| 0 <= j < |init| && init[j] == Ok(Some(e));
            assert rs[j] == init[j];
          } else {
            assert rs[|rs| - 1] == Ok(Some(e));
          }
        } else {
          forall j | 0 <= j < |rs|
            ensures rs[j] != Ok(Some(e))
          {
            if j < |init| {
              assert rs[j] == init[j];
            }
          }
        }
      }
    }
  }

  /** Collecting one more outcome: a panic stops, nothing keeps the entries, an entry is appended. */
  lemma CollectStep(rs: seq<Outcome>, i: nat)
    requires i < |rs|
    ensures Collect(rs[..i + 1]) == match Collect(rs[..i])
      case Err(m) => Err(m)
      case Ok(ds) =>
        match rs[i]
        case Err(m) => Err(m)
        case Ok(None) => Ok(ds)
        case Ok(Some(e)) => Ok(ds + [e])
  {
    assert rs[..i + 1][..i] == rs[..i];
  }

  /** Once a segment is malformed, later segments do not change the outcome. */
  lemma {:induction false} CollectStops(rs: seq<Outcome>, i: nat)
    requires i < |rs| && Collect(rs[..i + 1]).Err?
    ensures Collect(rs) == Collect(rs[..i + 1])
    decreases |rs| - i
  {
    if i + 1 < |rs| {
      var init := rs[..|rs| - 1];
      assert init[..i + 1] == rs[..i + 1];
      if i + 1 < |init| {
        CollectStops(init, i);
      } else {
        assert init == rs[..i + 1];
      }
    } else {
      assert rs[..i + 1] == rs;
    }
  }

  // ---------------------------------------------------------------------
  // Sorting: `sort_by_key(|(d, _)| *d)`, a stable sort

  predicate SortedByDepth(ds: seq<Expect>)
  {
    forall i, j :: 0 <= i < j < |ds| ==> ds[i].depth <= ds[j].depth
  }

  /** The entries at one depth, in order. */
  function AtDepth(ds: seq<Expect>, d: nat): seq<Expect>
  {
    if ds == [] then [] else (if ds[0].depth == d then [ds[0]] else []) + AtDepth(ds[1..], d)
  }

  /** e placed before the first entry that is not shallower. */
  function Insert(e: Expect, s: seq<Expect>): seq<Expect>
  {
    if s == [] || e.depth <= s[0].depth then [e] + s else [s[0]] + Insert(e, s[1..])
  }

  /** The entries sorted by depth, equal depths in their original order. */
  function SortByDepth(ds: seq<Expect>): seq<Expect>
  {
    if ds == [] then [] else Insert(ds[0], SortByDepth(ds[1..]))
  }

  /** Insertion adds e to the entries and nothing else. */
  lemma {:induction false} InsertKeeps(e: Expect, s: seq<Expect>)
    ensures multiset(Insert(e, s)) == multiset(s) + multiset{e}
  {
    if s != [] && e.depth > s[0].depth {
      InsertKeeps(e, s[1..]);
      assert s == [s[0]] + s[1..];
    }
  }

  lemma {:induction false} InsertSorted(e: Expect, s: seq<Expect>)
    requires SortedByDepth(s)
    ensures SortedByDepth(Insert(e, s))
  {
    if s != [] && e.depth > s[0].depth {
      SortedTail(s);
      InsertSorted(e, s[1..]);
      InsertAbove(e, s[1..], s[0].depth);
      ConsSorted(s[0], Insert(e, s[1..]));
    } else {
      if s != [] {
        SortedTail(s);
      }
      ConsSorted(e, s);
    }
  }

  /** The tail of a sorted list is sorted and lies no shallower than its head. */
  lemma SortedTail(s: seq<Expect>)
    requires s != [] && SortedByDepth(s)
    ensures SortedByDepth(s[1..]) && forall x :: x in s[1..] ==> s[0].depth <= x.depth
  {
    forall x | x in s[1..]
      ensures s[0].depth <= x.depth
    {
      var k :| 0 <= k < |s[1..]| && s[1..][k] == x;
      assert s[k + 1] == x;
    }
  }

  /** Inserting an entry no shallower than a bound into entries no shallower than it keeps the bound. */
  lemma InsertAbove(e: Expect, s: seq<Expect>, lo: nat)
    requires lo <= e.depth && forall x :: x in s ==> lo <= x.depth
    ensures forall x :: x in Insert(e, s) ==> lo <= x.depth
  {
    InsertKeeps(e, s);
    forall x | x in Insert(e, s)
      ensures lo <= x.depth
    {
      assert x in multiset(Insert(e, s));
      if x != e {
        assert x in multiset(s);
      }
    }
  }

  /** An entry no deeper than every entry of a sorted list, put in front, keeps it sorted. */
  lemma ConsSorted(h: Expect, rest: seq<Expect>)
    requires SortedByDepth(rest) && forall x :: x in rest ==> h.depth <= x.depth
    ensures SortedByDepth([h] + rest)
  {
    var ins := [h] + rest;
    forall i, j | 0 <= i < j < |ins|
      ensures ins[i].depth <= ins[j].depth
    {
      assert ins[j] == rest[j - 1];
      if i > 0 {
        assert ins[i] == rest[i - 1];
      } else {
        assert rest[j - 1] in rest;
      }
    }
  }

  /** Inserting before the entries of its depth puts e first among them. */
  lemma {:induction false} InsertAtDepth(e: Expect, s: seq<Expect>, d: nat)
    requires SortedByDepth(s)
    ensures AtDepth(Insert(e, s), d) == (if e.depth == d then [e] else []) + AtDepth(s, d)
  {
    if s != [] && e.depth > s[0].depth {
      InsertAtDepth(e, s[1..], d);
      var ins := Insert(e, s);
      assert ins[1..] == Insert(e, s[1..]);
      if e.depth == d {
        assert s[0].depth != d;
      }
    } else {
      var ins := Insert(e, s);
      assert ins[1..] == s;
    }
  }

  /** The sort orders by depth, keeps every entry, and keeps the order of the entries at each depth. */
  lemma {:induction false} SortByDepthCorrect(ds: seq<Expect>)
    ensures SortedByDepth(SortByDepth(ds))
    ensures multiset(SortByDepth(ds)) == multiset(ds)
    ensures forall d :: AtDepth(SortByDepth(ds), d) == AtDepth(ds, d)
  {
    if ds != [] {
      SortByDepthCorrect(ds[1..]);
      InsertSorted(ds[0], SortByDepth(ds[1..]));
      InsertKeeps(ds[0], SortByDepth(ds[1..]));
      assert ds == [ds[0]] + ds[1..];
      forall d
        ensures AtDepth(SortByDepth(ds), d) == AtDepth(ds, d)
      {
        InsertAtDepth(ds[0], SortByDepth(ds[1..]), d);
      }
    }
  }

  // ---------------------------------------------------------------------
  // The line

  /** `parse_epd_line`. */
  function ParseEpd(line: string): Result<Option<EpdCase>, Panic>
  {
    var parts := Fen.SplitOn(line, ';');
    var fen := Trim(parts[0]);
    if fen == [] then Ok(None)
    else
      match Collect(Outcomes(parts[1..]))
      case Err(m) => Err(m)
      case Ok(ds) => if ds == [] then Ok(None) else Ok(Some(EpdCase(fen, SortByDepth(ds))))
  }

  /** A line whose text before the first `;` is blank is skipped. */
  lemma BlankFenSkipped(line: string)
    requires AllWhitespace(Fen.SplitOn(line, ';')[0])
    ensures ParseEpd(line) == Ok(None)
  {
    TrimShape(Fen.SplitOn(line, ';')[0]);
  }

  /** A line with a FEN panics exactly when one of its entries is malformed. */
  lemma PanicIff(line: string)
    requires !AllWhitespace(Fen.SplitOn(line, ';')[0])
    ensures var parts := Fen.SplitOn(line, ';');
      ParseEpd(line).Err? <==> exists j :: 1 <= j < |parts| && Segment(parts[j]).Err?
  {
    var parts := Fen.SplitOn(line, ';');
    var rs := Outcomes(parts[1..]);
    TrimShape(parts[0]);
    CollectErr(rs);
    if Collect(rs).Err? {
      var j :| 0 <= j < |rs| && rs[j].Err?;
      assert rs[j] == Segment(parts[j + 1]);
    } else {
      forall j | 1 <= j < |parts|
        ensures !Segment(parts[j]).Err?
      {
        assert rs[j - 1] == Segment(parts[j]);
      }
    }
  }

  /**
   * A line read gives the trimmed FEN and at least one entry, sorted by
   * depth, each from one of its `D` entries and each of those present.
   */
  lemma LineRead(line: string, c: EpdCase)
    requires ParseEpd(line) == Ok(Some(c))
    ensures var parts := Fen.SplitOn(line, ';');
      && c.fen == Trim(parts[0]) && c.fen != []
      && |c.depths| > 0 && SortedByDepth(c.depths)
      && (forall e :: e in c.depths <==> exists j :: 1 <= j < |parts| && Segment(parts[j]) == Ok(Some(e)))
  {
    var parts := Fen.SplitOn(line, ';');
    var rs := Outcomes(parts[1..]);
    var ds := Collect(rs).value;
    SortedFrom(rs, ds);
    forall e
      ensures e in c.depths <==> exists j :: 1 <= j < |parts| && Segment(parts[j]) == Ok(Some(e))
    {
      if exists j :: 1 <= j < |parts| && Segment(parts[j]) == Ok(Some(e)) {
        var j :| 1 <= j < |parts| && Segment(parts[j]) == Ok(Some(e));
        assert rs[j - 1] == Segment(parts[j]);
      }
      if e in c.depths {
        var j :| 0 <= j < |rs| && rs[j] == Ok(Some(e));
        assert rs[j] == Segment(parts[j + 1]);
      }
    }
  }

  /** The sorted entries are exactly those the outcomes yield, and there is one when any was collected. */
  lemma SortedFrom(rs: seq<Outcome>, ds: seq<Expect>)
    requires Collect(rs) == Ok(ds)
    ensures SortedByDepth(SortByDepth(ds))
    ensures ds != [] ==> |SortByDepth(ds)| > 0
    ensures forall e :: e in SortByDepth(ds) <==> exists j :: 0 <= j < |rs| && rs[j] == Ok(Some(e))
  {
    CollectFrom(rs, ds);
    SortByDepthCorrect(ds);
    forall e
      ensures e in SortByDepth(ds) <==> e in ds
    {
      assert e in SortByDepth(ds) <==> e in multiset(SortByDepth(ds));
    }
    if ds != [] {
      assert ds[0] in multiset(SortByDepth(ds));
    }
  }

  /** A line with a FEN but no `D` entry is skipped as well. */
  lemma NoDepthsSkipped(line: string)
    requires forall j :: 1 <= j < |Fen.SplitOn(line, ';')| ==> Segment(Fen.SplitOn(line, ';')[j]) == Ok(None)
    ensures ParseEpd(line) == Ok(None)
  {
    var parts := Fen.SplitOn(line, ';');
    var rs := Outcomes(parts[1..]);
    forall j | 0 <= j < |rs|
      ensures rs[j] == Ok(None)
    {
      assert rs[j] == Segment(parts[j + 1]);
    }
    CollectNothing(rs);
  }

  /** Segments that yield nothing collect nothing. */
  lemma {:induction false} CollectNothing(rs: seq<Outcome>)
    requires forall j :: 0 <= j < |rs| ==> rs[j] == Ok(None)
    ensures Collect(rs) == Ok([])
  {
    if rs != [] {
      CollectNothing(rs[..|rs| - 1]);
    }
  }

  /** One segment of the loop: trimmed, skipped when blank or not a `D` entry, otherwise its two tokens read. */
  method ReadSegment(segment: string) returns (out: Outcome)
    ensures out == Segment(segment)
  {
    var part := Trim(segment);
    if part == [] {
      return Ok(None);
    }
    var items := Fen.Fields(part);
    var key := if |items| > 0 then items[0] else "";
    var val := if |items| > 1 then items[1] else "";
    if !(|key| > 0 && key[0] == 'D') {
      return Ok(None);
    }
    var depth := ParseBelow(key[1..], U8_LIMIT);
    if depth.None? {
      return Err(BadDepth(key));
    }
    var expected := ParseBelow(val, U64_LIMIT);
    if expected.None? {
      return Err(BadCount(val));
    }
    out := Ok(Some(Expect(depth.value, expected.value)));
  }

  /**
   * The test's loop: the trimmed FEN, then the later segments read in
   * turn, stopping at the first malformed one; a line with entries has
   * them sorted by depth.
   */
  method ParseEpdLine(line: string) returns (r: Result<Option<EpdCase>, Panic>)
    ensures r == ParseEpd(line)
  {
    var parts := Fen.SplitOn(line, ';');
    var fen := Trim(parts[0]);
    if fen == [] {
      return Ok(None);
    }
    var depths := ReadSegments(parts[1..]);
    match depths
    case Err(m) =>
      return Err(m);
    case Ok(ds) =>
      if ds == [] {
        return Ok(None);
      }
      r := Ok(Some(EpdCase(fen, SortByDepth(ds))));
  }

  /** The segments after the FEN read in turn, each entry pushed, stopping at the first malformed one. */
  method ReadSegments(segs: seq<string>) returns (r: Result<seq<Expect>, Panic>)
    ensures r == Collect(Outcomes(segs))
  {
    ghost var rs := Outcomes(segs);
    var depths: seq<Expect> := [];
    for i := 0 to |segs|
      invariant Collect(rs[..i]) == Ok(depths)
    {
      CollectStep(rs, i);
      var out := ReadSegment(segs[i]);
      match out
      case Err(m) =>
        CollectStops(rs, i);
        assert rs[..|rs|] == rs;
        return Err(m);
      case Ok(None) =>
      case Ok(Some(e)) =>
        depths := depths + [e];
    }
    assert rs[..|rs|] == rs;
    r := Ok(depths);
  }
}
