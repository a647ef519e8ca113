/**
 * printPitchingStats.py: one pitcher's season lines. For every year in the range
 * that has event files, the pitcher's box-score lines of every game are added up
 * key by key, the year's line is printed, and `clear` rolls the year into the
 * totals; the totals line closes the table.
 *
 * The script carries its own copy of the season roll-up that printBattingStats.py
 * also has (the zeroed dictionary, the per-year lines, `clear`), over the pitching
 * keys; the module mirrors that, so each script's copy is modelled where it lives.
 */
module PitchingStats {
  import opened Common
  import opened BoxScore
  import opened Ledger
  import opened SeasonArgs
  import CwTools

  /** The keys of the stats dictionary, in the order of their printed names. */
  datatype PitchKey = G | GS | GF | CG | SHO | IP | H | R | ER | HR | SO | BB | IBB | BF
                    | W | L | SV | GBO | FBO | WP | HBP | BK | TP | TS

  const KEYS: seq<PitchKey> := [G, GS, GF, CG, SHO, IP, H, R, ER, HR, SO, BB, IBB, BF,
                                W, L, SV, GBO, FBO, WP, HBP, BK, TP, TS]

  /** The dictionary key as the script spells it. */
  function KeyName(k: PitchKey): string {
    match k
    case G => "01G"   case GS => "02GS"  case GF => "03GF"   case CG => "04CG"
    case SHO => "05SHO" case IP => "06IP" case H => "07H"    case R => "08R"
    case ER => "09ER" case HR => "10HR"  case SO => "11SO"   case BB => "12BB"
    case IBB => "13IBB" case BF => "14BF" case W => "15W"    case L => "16L"
    case SV => "17SV" case GBO => "18GBO" case FBO => "19FBO" case WP => "20WP"
    case HBP => "21HBP" case BK => "22BK" case TP => "23TP"  case TS => "24TS"
  }

  /** Two-digit prefixes in increasing order. */
  function Prefix(k: PitchKey): nat {
    match k
    case G => 1 case GS => 2 case GF => 3 case CG => 4 case SHO => 5 case IP => 6
    case H => 7 case R => 8 case ER => 9 case HR => 10 case SO => 11 case BB => 12
    case IBB => 13 case BF => 14 case W => 15 case L => 16 case SV => 17 case GBO => 18
    case FBO => 19 case WP => 20 case HBP => 21 case BK => 22 case TP => 23 case TS => 24
  }

  lemma KeyNamePrefix(k: PitchKey)
    ensures |KeyName(k)| >= 3 && IsDigit(KeyName(k)[0]) && IsDigit(KeyName(k)[1])
    ensures (KeyName(k)[0] as int - '0' as int) * 10 + (KeyName(k)[1] as int - '0' as int) == Prefix(k)
  {
  }

  /**
   * `sorted(pitch.keys())` visits the keys in the order of KEYS: every key occurs
   * in it, the i-th has the prefix i + 1, and names with larger prefixes sort later.
   */
  lemma KeysSorted()
    ensures forall k: PitchKey :: k in KEYS
    ensures forall i :: 0 <= i < |KEYS| ==> Prefix(KEYS[i]) == i + 1
    ensures forall a: PitchKey, b: PitchKey :: Prefix(a) < Prefix(b) ==> Less(KeyName(a), KeyName(b))
  {
    AllKeysListed();
    PrefixIsPosition();
    forall a: PitchKey, b: PitchKey | Prefix(a) < Prefix(b)
      ensures Less(KeyName(a), KeyName(b))
    {
      PrefixOrder(a, b);
    }
  }

  lemma PrefixIsPosition()
    ensures forall i :: 0 <= i < |KEYS| ==> Prefix(KEYS[i]) == i + 1
  {
  }

  /** Names whose two-digit prefixes increase are in increasing order. */
  lemma PrefixOrder(a: PitchKey, b: PitchKey)
    requires Prefix(a) < Prefix(b)
    ensures Less(KeyName(a), KeyName(b))
  {
    KeyNamePrefix(a);
    KeyNamePrefix(b);
    TwoDigitOrder(KeyName(a), KeyName(b));
  }

  const ALL_KEYS: set<PitchKey> := {G, GS, GF, CG, SHO, IP, H, R, ER, HR, SO, BB, IBB, BF,
                                    W, L, SV, GBO, FBO, WP, HBP, BK, TP, TS}

  /** A stats dictionary holding every key, as the copies of STATS_DICT do. */
  predicate Complete(stats: map<PitchKey, int>) { forall k: PitchKey :: k in stats }

  lemma CompleteKeys(m: map<PitchKey, int>)
    requires Complete(m)
    ensures m.Keys == ALL_KEYS
  {
    AllKeysListed();
  }

  /** The dictionary of zeros that STATS_DICT is. */
  function Zeros(): (z: map<PitchKey, int>)
    ensures Complete(z) && forall k :: z[k] == 0
  {
    AllKeysListed();
    Zero(ALL_KEYS)
  }

  lemma AllKeysListed()
    ensures forall k: PitchKey :: k in ALL_KEYS && k in KEYS
  {
    forall k: PitchKey
      ensures k in ALL_KEYS && k in KEYS
    {
      match k
      case G => case GS => case GF => case CG => case SHO => case IP => case H => case R =>
      case ER => case HR => case SO => case BB => case IBB => case BF => case W => case L =>
      case SV => case GBO => case FBO => case WP => case HBP => case BK => case TP => case TS =>
    }
  }

  /** The box-score field that `collect_stats` adds to each key; IP counts outs, HBP hit batters, TP/TS pitches and strikes. */
  function Credit(k: PitchKey, p: Pitching): int {
    match k
    case G => p.g     case GS => p.gs   case GF => p.gf   case CG => p.cg
    case SHO => p.sho case IP => p.outs case H => p.h     case R => p.r
    case ER => p.er   case HR => p.hr   case SO => p.so   case BB => p.bb
    case IBB => p.ibb case BF => p.bf   case W => p.w     case L => p.l
    case SV => p.sv   case GBO => p.gb  case FBO => p.fb  case WP => p.wp
    case HBP => p.hb  case BK => p.bk   case TP => p.pitches case TS => p.strikes
  }

  /** One game line added to every key. */
  function AddLine(stats: map<PitchKey, int>, p: Pitching): (r: map<PitchKey, int>)
    requires Complete(stats)
    ensures Complete(r)
  {
    map k | k in stats :: stats[k] + Credit(k, p)
  }

  /** The stats after the pitchers `ps`, in order: the lines of those whose id is `id` are added. */
  function Collected(stats: map<PitchKey, int>, ps: seq<BoxPitcher>, id: string): (r: map<PitchKey, int>)
    requires Complete(stats)
    ensures Complete(r)
  {
    if ps == [] then stats
    else
      var c := Collected(stats, ps[..|ps| - 1], id);
      var last := ps[|ps| - 1];
      if last.playerId == id then AddLine(c, last.pitching) else c
  }

  /** The lines of the pitchers whose id is `id`, in order. */
  function LinesOf(ps: seq<BoxPitcher>, id: string): seq<Pitching> {
    if ps == [] then []
    else (if ps[0].playerId == id then [ps[0].pitching] else []) + LinesOf(ps[1..], id)
  }

  /** A key's credit summed over game lines. */
  function CreditSum(lines: seq<Pitching>, k: PitchKey): int {
    if lines == [] then 0 else Credit(k, lines[0]) + CreditSum(lines[1..], k)
  }

  lemma {:induction false} LinesOfSnoc(ps: seq<BoxPitcher>, p: BoxPitcher, id: string)
    ensures LinesOf(ps + [p], id) == LinesOf(ps, id) + (if p.playerId == id then [p.pitching] else [])
  {
    if ps == [] {
      assert [p][1..] == [];
    } else {
      assert (ps + [p])[1..] == ps[1..] + [p];
      LinesOfSnoc(ps[1..], p, id);
    }
  }

  lemma {:induction false} CreditSumSnoc(lines: seq<Pitching>, x: Pitching, k: PitchKey)
    ensures CreditSum(lines + [x], k) == CreditSum(lines, k) + Credit(k, x)
  {
    if lines == [] {
      assert [x][1..] == [];
    } else {
      assert (lines + [x])[1..] == lines[1..] + [x];
      CreditSumSnoc(lines[1..], x, k);
    }
  }

  /**
   * Only the matching pitcher's lines are added, field by field: each key grows by
   * the sum of its field over the lines of the pitchers with that id.
   */
  lemma {:induction false} CollectedIsSum(stats: map<PitchKey, int>, ps: seq<BoxPitcher>, id: string, k: PitchKey)
    requires Complete(stats) && k in KEYS
    ensures Collected(stats, ps, id)[k] == stats[k] + CreditSum(LinesOf(ps, id), k)
  {
    if ps != [] {
      var q := ps[..|ps| - 1];
      var last := ps[|ps| - 1];
      CollectedIsSum(stats, q, id, k);
      SplitLast(ps);
      LinesOfSnoc(q, last, id);
      if last.playerId == id {
        CreditSumSnoc(LinesOf(q, id), last.pitching, k);
      } else {
        assert LinesOf(q, id) + [] == LinesOf(q, id);
      }
    }
  }

  /** A game in which the pitcher did not pitch leaves the pitcher's stats as they were. */
  lemma NoAppearanceNoChange(stats: map<PitchKey, int>, ps: seq<BoxPitcher>, id: string)
    requires Complete(stats)
    requires forall i :: 0 <= i < |ps| ==> ps[i].playerId != id
    ensures Collected(stats, ps, id) == stats
  {
    forall k | k in KEYS
      ensures Collected(stats, ps, id)[k] == stats[k]
    {
      CollectedIsSum(stats, ps, id, k);
      NoLines(ps, id);
    }
  }

  lemma {:induction false} NoLines(ps: seq<BoxPitcher>, id: string)
    requires forall i :: 0 <= i < |ps| ==> ps[i].playerId != id
    ensures LinesOf(ps, id) == []
  {
    if ps != [] { NoLines(ps[1..], id); }
  }

  /**
   * `collect_stats`: follow each team's chain of pitchers from its starter and
   * add the line of every pitcher whose id is `id`.
   */
  method CollectStats(staff: Staff, id: string, stats: map<PitchKey, int>) returns (stats': map<PitchKey, int>)
    requires |staff| == 2 && Complete(stats)
    ensures stats' == Collected(stats, Flatten(staff), id)
  {
    stats' := stats;
    for t := 0 to 2
      invariant stats' == Collected(stats, Flatten(staff[..t]), id)
    {
      var chain := staff[t];
      FlattenSnoc(staff[..t], chain);
      assert staff[..t + 1] == staff[..t] + [chain];
      assert Flatten(staff[..t]) + chain[..0] == Flatten(staff[..t]);
      for i := 0 to |chain|
        invariant stats' == Collected(stats, Flatten(staff[..t]) + chain[..i], id)
      {
        var pitcher := chain[i];
        assert Flatten(staff[..t]) + chain[..i + 1] == (Flatten(staff[..t]) + chain[..i]) + [pitcher];
        if pitcher.playerId == id {
          stats' := AddLine(stats', pitcher.pitching);
        }
      }
      assert chain[..|chain|] == chain;
    }
    assert staff[..2] == staff;
  }

  /** The year's stats after its games, in order, starting from zero. */
  function SeasonStats(games: seq<Staff>, id: string): (r: map<PitchKey, int>)
    ensures Complete(r)
  {
    if games == [] then Zeros()
    else Collected(SeasonStats(games[..|games| - 1], id), Flatten(games[|games| - 1]), id)
  }

  /** Each played year's stats. */
  function YearStats(events: map<int, seq<Staff>>, id: string, years: seq<int>): (s: seq<map<PitchKey, int>>)
    requires forall i :: 0 <= i < |years| ==> years[i] in events
    ensures |s| == |years|
    ensures forall i :: 0 <= i < |years| ==> s[i] == SeasonStats(events[years[i]], id)
  {
    seq(|years|, i requires 0 <= i < |years| => SeasonStats(events[years[i]], id))
  }

  const TOTAL := "Total"

  /** A line of the table before formatting: its caption (year or "Total") and the dictionary it prints. */
  datatype StatLine = StatLine(caption: string, stats: map<PitchKey, int>)

  /** Every game of every year has the two teams' pitcher lists. */
  predicate ValidStaffs(events: map<int, seq<Staff>>) {
    forall y, i :: y in events && 0 <= i < |events[y]| ==> |events[y][i]| == 2
  }

  /** The games of one year, added up from zero. */
  method CollectYear(games: seq<Staff>, id: string) returns (stats: map<PitchKey, int>)
    requires forall i :: 0 <= i < |games| ==> |games[i]| == 2
    ensures stats == SeasonStats(games, id)
  {
    stats := Zeros();
    for i := 0 to |games|
      invariant stats == SeasonStats(games[..i], id)
    {
      assert games[..i + 1][..i] == games[..i];
      stats := CollectStats(games[i], id, stats);
    }
    assert games[..|games|] == games;
  }

  /** The year lines: each played year with its own games' stats. */
  function YearLines(events: map<int, seq<Staff>>, id: string, years: seq<int>): (ls: seq<StatLine>)
    requires forall i :: 0 <= i < |years| ==> years[i] in events
    ensures |ls| == |years|
    ensures forall i :: 0 <= i < |years| ==> ls[i] == StatLine(IntToString(years[i]), SeasonStats(events[years[i]], id))
  {
    seq(|years|, i requires 0 <= i < |years| => StatLine(IntToString(years[i]), SeasonStats(events[years[i]], id)))
  }

  lemma YearStatsSnoc(events: map<int, seq<Staff>>, id: string, years: seq<int>, y: int)
    requires forall i :: 0 <= i < |years| ==> years[i] in events
    requires y in events
    ensures YearStats(events, id, years + [y]) == YearStats(events, id, years) + [SeasonStats(events[y], id)]
    ensures YearLines(events, id, years + [y]) == YearLines(events, id, years) + [StatLine(IntToString(y), SeasonStats(events[y], id))]
  {
  }

  /** Rolling one more year into the totals gives the totals of the longer list of years. */
  lemma RollYear(events: map<int, seq<Staff>>, id: string, years: seq<int>, y: int)
    requires forall i :: 0 <= i < |years| ==> years[i] in events
    requires y in events
    ensures AddAll(Rolled(Zeros(), YearStats(events, id, years)), SeasonStats(events[y], id))
         == Rolled(Zeros(), YearStats(events, id, years + [y]))
  {
    var ys := YearStats(events, id, years + [y]);
    YearStatsSnoc(events, id, years, y);
    assert ys[..|ys| - 1] == YearStats(events, id, years);
    CompleteKeys(SeasonStats(events[y], id));
    CompleteKeys(Zeros());
  }

  /** One played year of `print_stats`: collect its games, print its line, then `clear` it into the totals. */
  method PlayYear(events: map<int, seq<Staff>>, id: string, ghost years: seq<int>, year: int,
                  lines: seq<StatLine>, totals: map<PitchKey, int>) returns (lines': seq<StatLine>, totals': map<PitchKey, int>)
    requires ValidStaffs(events)
    requires year in events
    requires forall i :: 0 <= i < |years| ==> years[i] in events
    requires lines == YearLines(events, id, years)
    requires totals == Rolled(Zeros(), YearStats(events, id, years))
    ensures lines' == YearLines(events, id, years + [year])
    ensures totals' == Rolled(Zeros(), YearStats(events, id, years + [year]))
  {
    var stats := CollectYear(events[year], id);
    YearStatsSnoc(events, id, years, year);
    lines' := lines + [StatLine(IntToString(year), stats)];
    RollYear(events, id, years, year);
    CompleteKeys(stats);
    CompleteKeys(totals);
    var cleared;
    cleared, totals' := Clear(stats, totals);
  }

  /** One pass of the year loop: a year without event files is skipped, any other is played. */
  method LookAtYear(events: map<int, seq<Staff>>, id: string, yrstart: int, year: int, ghost done: int, ghost years: seq<int>,
                    lines: seq<StatLine>, totals: map<PitchKey, int>)
    returns (ghost years': seq<int>, lines': seq<StatLine>, totals': map<PitchKey, int>)
    requires ValidStaffs(events) && yrstart <= year
    requires years == PlayedYears(events, yrstart, done) && done == year - 1
    requires lines == YearLines(events, id, years) && totals == Rolled(Zeros(), YearStats(events, id, years))
    ensures years' == PlayedYears(events, yrstart, year)
    ensures lines' == YearLines(events, id, years') && totals' == Rolled(Zeros(), YearStats(events, id, years'))
  {
    PlayedYearsStep(events, yrstart, year);
    years' := PlayedYears(events, yrstart, year);
    if year !in events {
      lines', totals' := lines, totals;
      return;
    }
    lines', totals' := PlayYear(events, id, years, year, lines, totals);
  }

  /** The year loop of `print_stats`: the played years' lines, and their totals rolled in by `clear`. */
  method RollYears(events: map<int, seq<Staff>>, id: string, yrstart: int, yrend: int)
    returns (lines: seq<StatLine>, totals: map<PitchKey, int>)
    requires ValidStaffs(events)
    ensures lines == YearLines(events, id, PlayedYears(events, yrstart, yrend))
    ensures totals == Rolled(Zeros(), YearStats(events, id, PlayedYears(events, yrstart, yrend)))
  {
    totals := Zeros();
    lines := [];
    var year := yrstart;
    ghost var years: seq<int> := [];
    ghost var done := year - 1;  // the last year looked at
    while year <= yrend
      invariant yrstart <= year <= if yrend < yrstart then yrstart else yrend + 1
      invariant done == year - 1 && years == PlayedYears(events, yrstart, done)
      invariant lines == YearLines(events, id, years)
      invariant totals == Rolled(Zeros(), YearStats(events, id, years))
      decreases yrend - year
    {
      years, lines, totals := LookAtYear(events, id, yrstart, year, done, years, lines, totals);
      done := year;
      year := year + 1;
    }
    assert years == PlayedYears(events, yrstart, yrend) by {
      if yrend >= yrstart {
        assert year - 1 == yrend;
      }
    }
  }

  /**
   * `print_stats`: for each year from `yrstart` to `yrend` with event files, add up
   * the pitcher's games, print the year's line and `clear` it into the totals;
   * years without event files are skipped. Then print the totals line. Each year
   * line holds that year's games only, and the totals line holds, key by key, the
   * sum of the year lines.
   */
  method PrintStats(events: map<int, seq<Staff>>, id: string, yrstart: int, yrend: int) returns (lines: seq<StatLine>)
    requires ValidStaffs(events)
    ensures var years := PlayedYears(events, yrstart, yrend);
      |lines| == |years| + 1 && lines[..|years|] == YearLines(events, id, years)
      && lines[|years|].caption == TOTAL && Complete(lines[|years|].stats)
      && forall k :: lines[|years|].stats[k] == SumAt(YearStats(events, id, years), k)
  {
    ghost var years := PlayedYears(events, yrstart, yrend);
    var totals;
    lines, totals := RollYears(events, id, yrstart, yrend);
    AllKeysListed();
    RolledFromZero(ALL_KEYS, YearStats(events, id, years));
    lines := lines + [StatLine(TOTAL, totals)];
    assert lines[..|years|] == YearLines(events, id, years);
  }

  // ---------------------------------------------------------------- the printed line

  /** The cell `print_stat_line` prints for a key: IP as innings and thirds, other keys blank when negative. */
  function CellOf(k: PitchKey, v: int): (c: Cell)
    ensures k != IP ==> (c.Blank? <==> v < 0)
    ensures k != IP && v >= 0 ==> c.text == NatToString(v)
    ensures k == IP ==> c.Text? && c.text == CwTools.InningsPitched(v)
  {
    if k == IP then Text(CwTools.InningsPitched(v)) else CountCell(v)
  }

  /** The counting cells of a line, in the order of the sorted keys. */
  function Cells(stats: map<PitchKey, int>): (cs: seq<Cell>)
    requires Complete(stats)
    ensures |cs| == |KEYS|
    ensures forall i :: 0 <= i < |KEYS| ==> cs[i] == CellOf(KEYS[i], stats[KEYS[i]])
  {
    seq(|KEYS|, i requires 0 <= i < |KEYS| => CellOf(KEYS[i], stats[KEYS[i]]))
  }

  /** The IP cell reads back as whole innings and a digit 0, 1 or 2 of thirds that together give the outs. */
  lemma InningsCellReadsBack(stats: map<PitchKey, int>)
    requires Complete(stats)
    ensures var s := Cells(stats)[5].text;
      |s| >= 3 && s[|s| - 2] == '.' && s[|s| - 1] in ['0', '1', '2']
      && 3 * (stats[IP] / 3) + DigitValue(s[|s| - 1]) == stats[IP]
  {
    assert KEYS[5] == IP;
    CwTools.InningsPitchedReadsBack(stats[IP]);
  }

  /** The rate stats of a line; `wlPct` is None where the script divides by zero. */
  datatype Rates = Rates(era: real, whip: real, h9: real, hr9: real, so9: real, bb9: real,
                         soPerBb: real, wlPct: Option<real>)

  /** A count per nine innings from outs: count · 27 / outs, and 0 without outs. */
  function PerNine(count: int, outs: int): (r: real)
    ensures outs > 0 ==> r * (outs as real / 3.0) == 9.0 * count as real
    ensures outs <= 0 ==> r == 0.0
  {
    if outs > 0 then (count * 27) as real / outs as real else 0.0
  }

  /** WHIP: walks plus hits per inning, (bb + h) / outs · 3, and 0 without outs. */
  function Whip(bb: int, h: int, outs: int): (r: real)
    ensures outs > 0 ==> r * (outs as real / 3.0) == (bb + h) as real
    ensures outs <= 0 ==> r == 0.0
  {
    if outs > 0 then (bb + h) as real / outs as real * 3.0 else 0.0
  }

  /** SO/BB: strikeouts per walk, and 0 without walks. */
  function SoPerBb(so: int, bb: int): (r: real)
    ensures bb > 0 ==> r * bb as real == so as real
    ensures bb <= 0 ==> r == 0.0
  {
    if bb > 0 then so as real / bb as real else 0.0
  }

  /**
   * WL%: wins per decision times 100 when there are wins, else 0. With wins and a
   * negative loss count summing to zero the script divides by zero (None).
   */
  function WinPct(w: int, l: int): (r: Option<real>)
    ensures r.None? <==> w > 0 && w + l == 0
    ensures w > 0 && l >= 0 ==> r.Some? && 0.0 < r.value <= 100.0
    ensures w > 0 && l == 0 ==> r == Some(100.0)
    ensures w > 0 && w + l != 0 ==> r.Some? && r.value * (w + l) as real == 100.0 * w as real
    ensures w <= 0 ==> r == Some(0.0)
  {
    if w > 0 then
      if w + l == 0 then None
      else
        Percentage(w, l);
        Some(w as real / (w + l) as real * 100.0)
    else Some(0.0)
  }

  lemma Percentage(w: int, l: int)
    requires w > 0 && w + l != 0
    ensures (w as real / (w + l) as real * 100.0) * (w + l) as real == 100.0 * w as real
    ensures l >= 0 ==> 0.0 < w as real / (w + l) as real * 100.0 <= 100.0
    ensures l == 0 ==> w as real / (w + l) as real * 100.0 == 100.0
  {
    var a, b := w as real, (w + l) as real;
    Fraction(a, b);
    assert l >= 0 ==> a <= b;
    if l == 0 {
      assert a / b == 1.0;
    }
  }

  /** A part over a whole: the quotient times the whole gives the part back, and a positive part of no more than the whole is at most 1. */
  lemma Fraction(a: real, b: real)
    requires b != 0.0
    ensures (a / b * 100.0) * b == 100.0 * a
    ensures 0.0 < a <= b ==> 0.0 < a / b * 100.0 <= 100.0
  {
    var q := a / b;
    assert q * b == a;
    assert (q * 100.0) * b == 100.0 * (q * b);
    if 0.0 < a <= b {
      assert q > 0.0;
      assert q <= 1.0;
    }
  }

  /** The rate stats `print_stat_line` prints after the counts (before rounding). */
  function RatesOf(stats: map<PitchKey, int>): Rates
    requires Complete(stats)
  {
    var outs := stats[IP];
    Rates(PerNine(stats[ER], outs), Whip(stats[BB], stats[H], outs), PerNine(stats[H], outs),
          PerNine(stats[HR], outs), PerNine(stats[SO], outs), PerNine(stats[BB], outs),
          SoPerBb(stats[SO], stats[BB]), WinPct(stats[W], stats[L]))
  }

  /** ERA is earned runs per nine innings pitched; with no outs every per-inning rate is 0. */
  lemma EraPerNineInnings(stats: map<PitchKey, int>)
    requires Complete(stats)
    ensures stats[IP] > 0 ==> RatesOf(stats).era * (stats[IP] as real / 3.0) == 9.0 * stats[ER] as real
    ensures stats[IP] <= 0 ==> RatesOf(stats).era == 0.0 && RatesOf(stats).whip == 0.0 && RatesOf(stats).h9 == 0.0
  {
  }

  /** printPitchingStats.py's `process_input_parameters`: fallback id "kersc001", fallback start 2014. */
  function InputParameters(rawId: string, start: int, end: Option<int>): (a: Args)
    ensures WellFormedId(a.id) && |a.id| == 8
    ensures InSeasons(a.start) && InSeasons(a.end) && a.start <= a.end
    ensures !WellFormedId(rawId) ==> a.id == "kersc001"
    ensures !InSeasons(start) ==> a.start == 2014
  {
    assert IsAlphaStr("kersc001"[..5]) && IsDecimalStr("kersc001"[5..8]);
    SeasonParams(rawId, start, end, "kersc001", 2014)
  }
}
