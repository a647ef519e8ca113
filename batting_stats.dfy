/**
 * printBattingStats.py: one batter's season lines. For every year in the range
 * that has event files, the batter's box-score lines of every game are added up
 * key by key as the script is written (SO, BB and IBB receiving the walks, the
 * intentional walks and the strikeouts; the RBI key following the -1 sentinel),
 * the year's line is printed
 * and `clear` rolls the year into the totals; the totals line closes the table.
 */
module BattingStats {
  import opened Common
  import opened BoxScore
  import opened Ledger
  import opened SeasonArgs

  /** The keys of the stats dictionary, in the order of their printed names. */
  datatype BatKey = G | PA | AB | R | H | B2 | B3 | HR | BI | SO | BB | IBB | SB | CS

  const KEYS: seq<BatKey> := [G, PA, AB, R, H, B2, B3, HR, BI, SO, BB, IBB, SB, CS]

  const ALL_KEYS: set<BatKey> := {G, PA, AB, R, H, B2, B3, HR, BI, SO, BB, IBB, SB, CS}

  /** The dictionary key as the script spells it. */
  function KeyName(k: BatKey): string {
    match k
    case G => "01g"  case PA => "02pa" case AB => "03ab" case R => "04r"   case H => "05h"
    case B2 => "06b2" case B3 => "07b3" case HR => "08hr" case BI => "09bi" case SO => "10so"
    case BB => "11bb" case IBB => "12ibb" case SB => "13sb" case CS => "14cs"
  }

  /** Two-digit prefixes in increasing order. */
  function Prefix(k: BatKey): nat {
    match k
    case G => 1 case PA => 2 case AB => 3 case R => 4 case H => 5 case B2 => 6 case B3 => 7
    case HR => 8 case BI => 9 case SO => 10 case BB => 11 case IBB => 12 case SB => 13 case CS => 14
  }

  lemma AllKeysListed()
    ensures forall k: BatKey :: k in ALL_KEYS && k in KEYS
  {
    forall k: BatKey
      ensures k in ALL_KEYS && k in KEYS
    {
      match k
      case G => case PA => case AB => case R => case H => case B2 => case B3 =>
      case HR => case BI => case SO => case BB => case IBB => case SB => case CS =>
    }
  }

  lemma PrefixIsPosition()
    ensures forall i :: 0 <= i < |KEYS| ==> Prefix(KEYS[i]) == i + 1
  {
  }

  lemma KeyNamePrefix(k: BatKey)
    ensures |KeyName(k)| >= 3 && IsDigit(KeyName(k)[0]) && IsDigit(KeyName(k)[1])
    ensures (KeyName(k)[0] as int - '0' as int) * 10 + (KeyName(k)[1] as int - '0' as int) == Prefix(k)
  {
  }

  /** Names whose two-digit prefixes increase are in increasing order. */
  lemma PrefixOrder(a: BatKey, b: BatKey)
    requires Prefix(a) < Prefix(b)
    ensures Less(KeyName(a), KeyName(b))
  {
    KeyNamePrefix(a);
    KeyNamePrefix(b);
    TwoDigitOrder(KeyName(a), KeyName(b));
  }

  /**
   * `sorted(bat.keys())` visits the keys in the order of KEYS: every key occurs
   * in it, the i-th has the prefix i + 1, and names with larger prefixes sort later.
   */
  lemma KeysSorted()
    ensures forall k: BatKey :: k in KEYS
    ensures forall i :: 0 <= i < |KEYS| ==> Prefix(KEYS[i]) == i + 1
    ensures forall a: BatKey, b: BatKey :: Prefix(a) < Prefix(b) ==> Less(KeyName(a), KeyName(b))
  {
    AllKeysListed();
    PrefixIsPosition();
    forall a: BatKey, b: BatKey | Prefix(a) < Prefix(b)
      ensures Less(KeyName(a), KeyName(b))
    {
      PrefixOrder(a, b);
    }
  }

  /** A stats dictionary holding every key, as the dictionary `print_stats` builds does. */
  predicate Complete(stats: map<BatKey, int>) { forall k: BatKey :: k in stats }

  lemma CompleteKeys(m: map<BatKey, int>)
    requires Complete(m)
    ensures m.Keys == ALL_KEYS
  {
    AllKeysListed();
  }

  function Zeros(): (z: map<BatKey, int>)
    ensures Complete(z) && forall k :: z[k] == 0
  {
    AllKeysListed();
    Zero(ALL_KEYS)
  }

  // ---------------------------------------------------------------- one game line

  /** The box-score field each counting key is meant to add: the key's own statistic. */
  function Credit(k: BatKey, b: Batting): int {
    match k
    case G => b.g   case PA => b.pa case AB => b.ab case R => b.r   case H => b.h
    case B2 => b.b2 case B3 => b.b3 case HR => b.hr case BI => b.bi case SO => b.so
    case BB => b.bb case IBB => b.ibb case SB => b.sb case CS => b.cs
  }

  /** The field `collect_stats` adds to each key as written: "10so" gets walks, "11bb" intentional walks, "12ibb" strikeouts. */
  function CreditAsWritten(k: BatKey, b: Batting): int {
    match k
    case SO => b.bb
    case BB => b.ibb
    case IBB => b.so
    case _ => Credit(k, b)
  }

  /** One batter's line added in: every counting key grows by its own field; RBI follows the -1 sentinel. */
  function AddBatter(stats: map<BatKey, int>, b: Batting): (r: map<BatKey, int>)
    requires Complete(stats)
    ensures Complete(r)
    ensures r[BI] == RbiStep(stats[BI], b.bi)
    ensures forall k :: k != BI ==> r[k] - stats[k] == Credit(k, b)
  {
    map k | k in stats :: if k == BI then RbiStep(stats[BI], b.bi) else stats[k] + Credit(k, b)
  }

  /** One batter's line added in as `collect_stats` is written. */
  function AddBatterAsWritten(stats: map<BatKey, int>, b: Batting): (r: map<BatKey, int>)
    requires Complete(stats)
    ensures Complete(r)
    ensures r[SO] - stats[SO] == b.bb && r[BB] - stats[BB] == b.ibb && r[IBB] - stats[IBB] == b.so
    ensures forall k :: k !in {SO, BB, IBB} ==> r[k] == AddBatter(stats, b)[k]
    ensures r[BI] == RbiStep(stats[BI], b.bi)
    ensures forall k :: k != BI ==> r[k] - stats[k] == CreditAsWritten(k, b)
  {
    map k | k in stats :: if k == BI then RbiStep(stats[BI], b.bi) else stats[k] + CreditAsWritten(k, b)
  }

  /**
   * As written, the SO, BB and IBB columns carry walks, intentional walks and
   * strikeouts: a batter with two strikeouts and no walks shows 0 under SO and 2
   * under IBB, where the intended line shows 2 under SO and 0 under IBB.
   */
  lemma StrikeoutsFiledUnderIbb()
    ensures var b := Batting(1, 4, 4, 0, 1, 0, 0, 0, 0, 0, 0, 2, 0, 0, 0, 0, 0, 0);
      AddBatterAsWritten(Zeros(), b)[SO] == 0 && AddBatterAsWritten(Zeros(), b)[IBB] == 2
      && AddBatter(Zeros(), b)[SO] == 2 && AddBatter(Zeros(), b)[IBB] == 0
  {
  }

  /**
   * The stats after the players `ps`, in order, as `collect_stats` is written: the
   * lines of those whose id is `id` are added with the SO, BB and IBB credit of
   * AddBatterAsWritten.
   */
  function Collected(stats: map<BatKey, int>, ps: seq<BoxPlayer>, id: string): (r: map<BatKey, int>)
    requires Complete(stats)
    ensures Complete(r)
  {
    if ps == [] then stats
    else
      var c := Collected(stats, ps[..|ps| - 1], id);
      var last := ps[|ps| - 1];
      if last.playerId == id then AddBatterAsWritten(c, last.batting) else c
  }

  /** The same walk with the intended credit of AddBatter, every key growing by its own field. */
  function CollectedIntended(stats: map<BatKey, int>, ps: seq<BoxPlayer>, id: string): (r: map<BatKey, int>)
    requires Complete(stats)
    ensures Complete(r)
  {
    if ps == [] then stats
    else
      var c := CollectedIntended(stats, ps[..|ps| - 1], id);
      var last := ps[|ps| - 1];
      if last.playerId == id then AddBatter(c, last.batting) else c
  }

  /**
   * The printed columns against the intended ones: every key but SO, BB and IBB
   * agrees, and those three are rotated, SO showing the intended BB gain, BB the
   * intended IBB gain and IBB the intended SO gain.
   */
  lemma {:induction false} ColumnsRotated(stats: map<BatKey, int>, ps: seq<BoxPlayer>, id: string)
    requires Complete(stats)
    ensures forall k :: k !in {SO, BB, IBB} ==> Collected(stats, ps, id)[k] == CollectedIntended(stats, ps, id)[k]
    ensures Collected(stats, ps, id)[SO] - stats[SO] == CollectedIntended(stats, ps, id)[BB] - stats[BB]
    ensures Collected(stats, ps, id)[BB] - stats[BB] == CollectedIntended(stats, ps, id)[IBB] - stats[IBB]
    ensures Collected(stats, ps, id)[IBB] - stats[IBB] == CollectedIntended(stats, ps, id)[SO] - stats[SO]
  {
    if ps != [] {
      ColumnsRotated(stats, ps[..|ps| - 1], id);
    }
  }

  /** The field `collect_stats` adds to a counting key as written, as a function to sum. */
  function FieldOf(k: BatKey): Batting -> int { b => CreditAsWritten(k, b) }

  /**
   * Only the matching batter's lines are added: each counting key grows by the sum
   * of the field the script credits to it over that batter's appearances, and RBI
   * follows the sentinel rule over them.
   */
  lemma {:induction false} CollectedIsSum(stats: map<BatKey, int>, ps: seq<BoxPlayer>, id: string)
    requires Complete(stats)
    ensures forall k :: k != BI ==> Collected(stats, ps, id)[k] == stats[k] + Sum(Matching(ps, id), FieldOf(k))
    ensures Collected(stats, ps, id)[BI] == RbiFrom(stats[BI], Matching(ps, id))
  {
    if ps != [] {
      var q := ps[..|ps| - 1];
      var last := ps[|ps| - 1];
      CollectedIsSum(stats, q, id);
      var m := Matching(q, id);
      if last.playerId == id {
        assert Matching(ps, id) == m + [last];
        assert (m + [last])[..|m|] == m;
      }
    }
  }

  /**
   * `collect_stats`: walk both lineups together and add the line of every player
   * whose id is `id`.
   */
  method CollectStats(vis: Lineup, home: Lineup, id: string, stats: map<BatKey, int>) returns (stats': map<BatKey, int>)
    requires ValidLineup(vis) && ValidLineup(home) && Complete(stats)
    ensures stats' == Collected(stats, Interleave(Flatten(vis), Flatten(home)), id)
  {
    var visited := WalkBoth(vis, home);
    stats' := stats;
    for i := 0 to |visited|
      invariant stats' == Collected(stats, visited[..i], id)
    {
      assert visited[..i + 1][..i] == visited[..i];
      var player := visited[i];
      if player.playerId == id {
        stats' := AddBatterAsWritten(stats', player.batting);
      }
    }
    assert visited[..|visited|] == visited;
  }

  /** A game's counts for the batter are those of the batter's appearances for the visitors plus those for the home team. */
  lemma CountsOverBothTeams(stats: map<BatKey, int>, vis: Lineup, home: Lineup, id: string, k: BatKey)
    requires Complete(stats) && k != BI
    ensures Collected(stats, Interleave(Flatten(vis), Flatten(home)), id)[k]
         == stats[k] + Sum(Matching(Flatten(vis), id), FieldOf(k)) + Sum(Matching(Flatten(home), id), FieldOf(k))
  {
    CollectedIsSum(stats, Interleave(Flatten(vis), Flatten(home)), id);
    SumMatchingInterleave(Flatten(vis), Flatten(home), id, FieldOf(k));
  }

  // ---------------------------------------------------------------- the year loop

  /** The year's stats after its games, in order, starting from zero. */
  function SeasonStats(games: seq<BoxGame>, id: string): (r: map<BatKey, int>)
    ensures Complete(r)
  {
    if games == [] then Zeros()
    else
      var g := games[|games| - 1];
      Collected(SeasonStats(games[..|games| - 1], id), GamePlayers(g), id)
  }

  method CollectYear(games: seq<BoxGame>, id: string) returns (stats: map<BatKey, int>)
    requires forall i :: 0 <= i < |games| ==> ValidGame(games[i])
    ensures stats == SeasonStats(games, id)
  {
    stats := Zeros();
    for i := 0 to |games|
      invariant stats == SeasonStats(games[..i], id)
    {
      assert games[..i + 1][..i] == games[..i];
      stats := CollectStats(games[i].vis, games[i].home, id, stats);
    }
    assert games[..|games|] == games;
  }

  function YearStats(events: map<int, seq<BoxGame>>, id: string, years: seq<int>): (s: seq<map<BatKey, int>>)
    requires forall i :: 0 <= i < |years| ==> years[i] in events
    ensures |s| == |years|
    ensures forall i :: 0 <= i < |years| ==> s[i] == SeasonStats(events[years[i]], id)
  {
    seq(|years|, i requires 0 <= i < |years| => SeasonStats(events[years[i]], id))
  }

  const TOTAL := "Total"

  /** A line of the table before formatting: its caption (year or "Total") and the dictionary it prints. */
  datatype StatLine = StatLine(caption: string, stats: map<BatKey, int>)

  function YearLines(events: map<int, seq<BoxGame>>, id: string, years: seq<int>): (ls: seq<StatLine>)
    requires forall i :: 0 <= i < |years| ==> years[i] in events
    ensures |ls| == |years|
    ensures forall i :: 0 <= i < |years| ==> ls[i] == StatLine(IntToString(years[i]), SeasonStats(events[years[i]], id))
  {
    seq(|years|, i requires 0 <= i < |years| => StatLine(IntToString(years[i]), SeasonStats(events[years[i]], id)))
  }

  lemma YearStatsSnoc(events: map<int, seq<BoxGame>>, id: string, years: seq<int>, y: int)
    requires forall i :: 0 <= i < |years| ==> years[i] in events
    requires y in events
    ensures YearStats(events, id, years + [y]) == YearStats(events, id, years) + [SeasonStats(events[y], id)]
    ensures YearLines(events, id, years + [y]) == YearLines(events, id, years) + [StatLine(IntToString(y), SeasonStats(events[y], id))]
  {
  }

  /** Rolling one more year into the totals gives the totals of the longer list of years. */
  lemma RollYear(events: map<int, seq<BoxGame>>, id: string, years: seq<int>, y: int)
    requires forall i :: 0 <= i < |years| ==> years[i] in events
    requires y in events
    ensures AddAll(Rolled(Zeros(), YearStats(events, id, years)), SeasonStats(events[y], id))
         == Rolled(Zeros(), YearStats(events, id, years + [y]))
  {
    var ys := YearStats(events, id, years + [y]);
    YearStatsSnoc(events, id, years, y);
    assert ys[..|ys| - 1] == YearStats(events, id, years);
    CompleteKeys(SeasonStats(events[y], id));
    CompleteKeys(Zeros());
  }

  /** One played year of `print_stats`: collect its games, print its line, then `clear` it into the totals. */
  method PlayYear(events: map<int, seq<BoxGame>>, id: string, ghost years: seq<int>, year: int,
                  lines: seq<StatLine>, totals: map<BatKey, int>) returns (lines': seq<StatLine>, totals': map<BatKey, int>)
    requires ValidEvents(events) && year in events
    requires forall i :: 0 <= i < |years| ==> years[i] in events
    requires lines == YearLines(events, id, years)
    requires totals == Rolled(Zeros(), YearStats(events, id, years))
    ensures lines' == YearLines(events, id, years + [year])
    ensures totals' == Rolled(Zeros(), YearStats(events, id, years + [year]))
  {
    var stats := CollectYear(events[year], id);
    YearStatsSnoc(events, id, years, year);
    lines' := lines + [StatLine(IntToString(year), stats)];
    RollYear(events, id, years, year);
    CompleteKeys(stats);
    CompleteKeys(totals);
    var cleared;
    cleared, totals' := Clear(stats, totals);
  }

  /** One pass of the year loop: a year without event files is skipped, any other is played. */
  method LookAtYear(events: map<int, seq<BoxGame>>, id: string, yrstart: int, year: int, ghost done: int, ghost years: seq<int>,
                    lines: seq<StatLine>, totals: map<BatKey, int>)
    returns (ghost years': seq<int>, lines': seq<StatLine>, totals': map<BatKey, int>)
    requires ValidEvents(events) && yrstart <= year
    requires years == PlayedYears(events, yrstart, done) && done == year - 1
    requires lines == YearLines(events, id, years) && totals == Rolled(Zeros(), YearStats(events, id, years))
    ensures years' == PlayedYears(events, yrstart, year)
    ensures lines' == YearLines(events, id, years') && totals' == Rolled(Zeros(), YearStats(events, id, years'))
  {
    PlayedYearsStep(events, yrstart, year);
    years' := PlayedYears(events, yrstart, year);
    if year !in events {
      lines', totals' := lines, totals;
      return;
    }
    lines', totals' := PlayYear(events, id, years, year, lines, totals);
  }

  /** The year loop of `print_stats`: the played years' lines, and their totals rolled in by `clear`. */
  method RollYears(events: map<int, seq<BoxGame>>, id: string, yrstart: int, yrend: int)
    returns (lines: seq<StatLine>, totals: map<BatKey, int>)
    requires ValidEvents(events)
    ensures lines == YearLines(events, id, PlayedYears(events, yrstart, yrend))
    ensures totals == Rolled(Zeros(), YearStats(events, id, PlayedYears(events, yrstart, yrend)))
  {
    totals := Zeros();
    lines := [];
    var year := yrstart;
    ghost var years: seq<int> := [];
    ghost var done := year - 1;  // the last year looked at
    while year <= yrend
      invariant yrstart <= year <= if yrend < yrstart then yrstart else yrend + 1
      invariant done == year - 1 && years == PlayedYears(events, yrstart, done)
      invariant lines == YearLines(events, id, years)
      invariant totals == Rolled(Zeros(), YearStats(events, id, years))
      decreases yrend - year
    {
      years, lines, totals := LookAtYear(events, id, yrstart, year, done, years, lines, totals);
      done := year;
      year := year + 1;
    }
    assert years == PlayedYears(events, yrstart, yrend) by {
      if yrend >= yrstart {
        assert year - 1 == yrend;
      }
    }
  }

  /**
   * `print_stats`: for each year from `yrstart` to `yrend` with event files, add up
   * the batter's games, print the year's line and `clear` it into the totals;
   * years without event files are skipped. Then print the totals line. Each year
   * line holds that year's games only, and the totals line holds, key by key, the
   * sum of the year lines.
   */
  method PrintStats(events: map<int, seq<BoxGame>>, id: string, yrstart: int, yrend: int) returns (lines: seq<StatLine>)
    requires ValidEvents(events)
    ensures var years := PlayedYears(events, yrstart, yrend);
      |lines| == |years| + 1 && lines[..|years|] == YearLines(events, id, years)
      && lines[|years|].caption == TOTAL && Complete(lines[|years|].stats)
      && forall k :: lines[|years|].stats[k] == SumAt(YearStats(events, id, years), k)
  {
    ghost var years := PlayedYears(events, yrstart, yrend);
    var totals;
    lines, totals := RollYears(events, id, yrstart, yrend);
    AllKeysListed();
    RolledFromZero(ALL_KEYS, YearStats(events, id, years));
    lines := lines + [StatLine(TOTAL, totals)];
    assert lines[..|years|] == YearLines(events, id, years);
  }

  /** `print_stat_line`: every key's count in sorted order, blank when negative (an RBI total left at the sentinel). */
  function Cells(stats: map<BatKey, int>): (cs: seq<Cell>)
    requires Complete(stats)
    ensures |cs| == |KEYS|
    ensures forall i :: 0 <= i < |KEYS| ==> (cs[i].Blank? <==> stats[KEYS[i]] < 0)
    ensures forall i :: 0 <= i < |KEYS| && stats[KEYS[i]] >= 0 ==> cs[i].text == NatToString(stats[KEYS[i]])
  {
    seq(|KEYS|, i requires 0 <= i < |KEYS| => CountCell(stats[KEYS[i]]))
  }

  /** printBattingStats.py's `process_input_parameters`: fallback id "maysw101", fallback start 1954. */
  function InputParameters(rawId: string, start: int, end: Option<int>): (a: Args)
    ensures WellFormedId(a.id) && |a.id| == 8
    ensures InSeasons(a.start) && InSeasons(a.end) && a.start <= a.end
    ensures !WellFormedId(rawId) ==> a.id == "maysw101"
    ensures !InSeasons(start) ==> a.start == 1954
  {
    assert IsAlphaStr("maysw101"[..5]) && IsDecimalStr("maysw101"[5..8]);
    SeasonParams(rawId, start, end, "maysw101", 1954)
  }
}
