/**
 * crates/tournament/src/results.rs: the record of a tournament (its name,
 * the participants, the configuration and the matches in the order they
 * were added) and the text report made from it. Saving and loading JSON
 * are not part of this model.
 */
module Results {
  import opened Tournament
  import Fen

  /** `TournamentConfig`. */
  datatype TournamentConfig = TournamentConfig(gamesPerMatch: nat, searchDepth: nat, maxMovesPerGame: nat)

  /** `TournamentConfig::default()`: ten games a match at depth 4, 200 moves a game. */
  function DefaultTournamentConfig(): TournamentConfig
  {
    TournamentConfig(10, 4, 200)
  }

  /** The default tournament plays ten games a match at depth 4 and 200 moves a game, as the default match does. */
  lemma DefaultTournamentConfigValues()
    ensures DefaultTournamentConfig().gamesPerMatch == 10
    ensures DefaultTournamentConfig().searchDepth == 4
    ensures DefaultTournamentConfig().maxMovesPerGame == 200
    ensures DefaultTournamentConfig().gamesPerMatch == DefaultConfig().numGames
    ensures DefaultTournamentConfig().searchDepth == DefaultConfig().depth
    ensures DefaultTournamentConfig().maxMovesPerGame == DefaultConfig().maxMoves
  {
  }

  /** `MatchEntry`: the two engines by name and the result from the first one's point of view. */
  datatype MatchEntry = MatchEntry(engine1: string, engine2: string, result: MatchResult)

  /** `{:<w}`: the text, then spaces up to the width; longer text is kept whole. */
  function PadRight(s: string, w: nat): (p: string)
    ensures |p| == if |s| >= w then |s| else w
    ensures p[..|s|] == s && forall i :: |s| <= i < |p| ==> p[i] == ' '
  {
    if |s| >= w then s else s + seq(w - |s|, _ => ' ')
  }

  /** `{:>w}`: spaces up to the width, then the text; longer text is kept whole. */
  function PadLeft(s: string, w: nat): (p: string)
    ensures |p| == if |s| >= w then |s| else w
    ensures p[|p| - |s|..] == s && forall i :: 0 <= i < |p| - |s| ==> p[i] == ' '
  {
    if |s| >= w then s else seq(w - |s|, _ => ' ') + s
  }

  /** `"-".repeat(n)`. */
  function Dashes(n: nat): (d: string)
    ensures |d| == n && forall i :: 0 <= i < n ==> d[i] == '-'
  {
    seq(n, _ => '-')
  }

  /** `join(", ")`: nothing for no names. */
  function JoinNames(names: seq<string>): string
  {
    if names == [] then "" else if |names| == 1 then names[0] else names[0] + ", " + JoinNames(names[1..])
  }

  /** One line of the results table: `{:<20} vs {:<20} {:>5}-{:<5}-{:<5}`. */
  function Row(engine1: string, engine2: string, w: string, l: string, d: string): string
  {
    PadRight(engine1, 20) + " vs " + PadRight(engine2, 20) + " " + PadLeft(w, 5) + "-" + PadRight(l, 5) + "-" + PadRight(d, 5) + "\n"
  }

  /** The line of one match. */
  function EntryRow(e: MatchEntry): string
  {
    Row(e.engine1, e.engine2, Fen.Decimal(e.result.wins), Fen.Decimal(e.result.losses), Fen.Decimal(e.result.draws))
  }

  /** The lines of the matches, in order. */
  function Rows(ms: seq<MatchEntry>): string
  {
    if ms == [] then "" else EntryRow(ms[0]) + Rows(ms[1..])
  }

  /** The title, participants, configuration, table header and rule that open the report. */
  function ReportHead(name: string, participants: seq<string>, config: TournamentConfig): string
  {
    "=== Tournament: " + name + " ===\n\n"
    + "Participants: " + JoinNames(participants) + "\n"
    + "Config: " + Fen.Decimal(config.gamesPerMatch) + " games/match, depth " + Fen.Decimal(config.searchDepth) + "\n\n"
    + "Results:\n"
    + Row("Engine 1", "Engine 2", "W", "L", "D")
    + Dashes(60) + "\n"
  }

  /** `generate_report`. */
  function Report(name: string, participants: seq<string>, config: TournamentConfig, ms: seq<MatchEntry>): string
  {
    ReportHead(name, participants, config) + Rows(ms)
  }

  /** A match added at the end adds its line at the end. */
  lemma {:induction false} RowsAppend(ms: seq<MatchEntry>, e: MatchEntry)
    ensures Rows(ms + [e]) == Rows(ms) + EntryRow(e)
  {
    if ms != [] {
      assert (ms + [e])[1..] == ms[1..] + [e];
      RowsAppend(ms[1..], e);
    }
  }

  /** The lines of the first i + 1 matches are those of the first i and then the line of match i. */
  lemma RowsPrefix(ms: seq<MatchEntry>, i: nat)
    requires i < |ms|
    ensures Rows(ms[..i + 1]) == Rows(ms[..i]) + EntryRow(ms[i])
  {
    assert ms[..i + 1] == ms[..i] + [ms[i]];
    RowsAppend(ms[..i], ms[i]);
  }

  /** The report after one more match is the report before with that match's line appended. */
  lemma ReportAppend(name: string, participants: seq<string>, config: TournamentConfig, ms: seq<MatchEntry>, e: MatchEntry)
    ensures Report(name, participants, config, ms + [e]) == Report(name, participants, config, ms) + EntryRow(e)
  {
    RowsAppend(ms, e);
  }

  /** A numeral below 10^k has at most k digits. */
  lemma {:induction false} DecimalLength(n: nat, k: nat, bound: nat)
    requires bound == Power10(k) && n < bound
    ensures |Fen.Decimal(n)| <= if k == 0 then 1 else k
    decreases k
  {
    if n >= 10 {
      assert Power10(0) == 1 && Power10(1) == 10;
      assert k >= 2;
      Power10Step(k);
      DecimalLength(n / 10, k - 1, Power10(k - 1));
    }
  }

  function Power10(k: nat): nat
  {
    if k == 0 then 1 else 10 * Power10(k - 1)
  }

  lemma Power10Step(k: nat)
    requires k >= 1
    ensures Power10(k) == 10 * Power10(k - 1)
  {
  }

  /**
   * The line of a match between names of at most 20 characters, with
   * counts below 100000, is 62 characters and a newline wide: the
   * columns of the report line up.
   */
  lemma RowWidth(e: MatchEntry)
    requires |e.engine1| <= 20 && |e.engine2| <= 20
    requires e.result.wins < 100000 && e.result.losses < 100000 && e.result.draws < 100000
    ensures |EntryRow(e)| == 63
  {
    assert Power10(5) == 100000;
    DecimalLength(e.result.wins, 5, 100000);
    DecimalLength(e.result.losses, 5, 100000);
    DecimalLength(e.result.draws, 5, 100000);
  }

  /** With every match within those bounds, the table below the rule is 63 characters per match. */
  lemma {:induction false} RowsWidth(ms: seq<MatchEntry>)
    requires forall e :: e in ms ==> |e.engine1| <= 20 && |e.engine2| <= 20
    requires forall e :: e in ms ==> e.result.wins < 100000 && e.result.losses < 100000 && e.result.draws < 100000
    ensures |Rows(ms)| == 63 * |ms|
  {
    if ms != [] {
      RowWidth(ms[0]);
      assert forall e :: e in ms[1..] ==> e in ms;
      RowsWidth(ms[1..]);
    }
  }

  /** `TournamentResults`. */
  class TournamentResults {
    var name: string
    var participants: seq<string>
    var matches: seq<MatchEntry>
    var config: TournamentConfig

    /** `TournamentResults::new`: the name, participants and configuration, and no match yet. */
    constructor (name: string, participants: seq<string>, config: TournamentConfig)
      ensures this.name == name && this.participants == participants && this.config == config && matches == []
    {
      this.name := name;
      this.participants := participants;
      this.config := config;
      matches := [];
    }

    /** `add_match`: one entry appended at the end; nothing else changes. */
    method AddMatch(engine1: string, engine2: string, result: MatchResult)
      modifies this`matches
      ensures matches == old(matches) + [MatchEntry(engine1, engine2, result)]
    {
      matches := matches + [MatchEntry(engine1, engine2, result)];
    }

    /** `generate_report`: the head, then one line per match pushed in order. */
    method GenerateReport() returns (report: string)
      ensures report == Report(name, participants, config, matches)
    {
      report := ReportHead(name, participants, config);
      report := PushRows(report, matches);
    }
  }

  /** The loop of `generate_report`: the line of each match pushed in order. */
  method PushRows(head: string, ms: seq<MatchEntry>) returns (report: string)
    ensures report == head + Rows(ms)
  {
    var rows := "";
    for i := 0 to |ms|
      invariant rows == Rows(ms[..i])
    {
      RowsPrefix(ms, i);
      rows := rows + EntryRow(ms[i]);
    }
    assert ms[..|ms|] == ms;
    report := head + rows;
  }
}
