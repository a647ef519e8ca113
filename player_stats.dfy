/**
 * printPlayerStats.py: a batter's PA, AB, H, BB, SO, R and RBI, one line per
 * year. The stats dictionary holds the seven keys "ab", "bb", "so", "pa", "bi",
 * "h" and "r"; each year's games are added into it, the line is printed and the
 * dictionary is zeroed again, so no totals line is kept.
 */
module PlayerStats {
  import opened Common
  import opened BoxScore
  import opened Ledger
  import opened SeasonArgs

  /** The keys `clear` zeroes and the main loop's dictionary starts with. */
  const PLAYER_KEYS: set<string> := {"ab", "bb", "so", "pa", "bi", "h", "r"}

  /** The keys `collect_stats` adds a field to (RBI follows the sentinel instead). */
  const SUMMED: set<string> := {"ab", "bb", "so", "pa", "h", "r"}

  /** The batting field added to a summed key. */
  function FieldOf(k: string): Batting -> int {
    if k == "ab" then AB
    else if k == "bb" then BB
    else if k == "so" then SO
    else if k == "pa" then PA
    else if k == "h" then H
    else R
  }

  /** The dictionary the main loop starts from. */
  function Initial(): (z: map<string, int>)
    ensures z.Keys == PLAYER_KEYS && forall k :: k in z ==> z[k] == 0
  {
    Zero(PLAYER_KEYS)
  }

  /** `stats[key] = 0` for each of the seven keys: other keys keep their counts. */
  function ZeroKeys(stats: map<string, int>): (r: map<string, int>)
    ensures r.Keys == stats.Keys + PLAYER_KEYS
    ensures forall k :: k in PLAYER_KEYS ==> r[k] == 0
    ensures forall k :: k in stats && k !in PLAYER_KEYS ==> r[k] == stats[k]
  {
    stats + Zero(PLAYER_KEYS)
  }

  /** Python's `if stats:` on an optional dictionary: given and non-empty. */
  predicate Truthy(stats: Option<map<string, int>>) { stats.Some? && stats.value.Keys != {} }

  /** One matching batter's line added in: the six summed keys grow by their fields, RBI follows the -1 sentinel. */
  function AddPlayer(stats: map<string, int>, b: Batting): (r: map<string, int>)
    requires PLAYER_KEYS <= stats.Keys
    ensures r.Keys == stats.Keys
    ensures forall k :: k in SUMMED ==> r[k] - stats[k] == FieldOf(k)(b)
    ensures r["bi"] == RbiStep(stats["bi"], b.bi)
    ensures forall k :: k in stats && k !in PLAYER_KEYS ==> r[k] == stats[k]
  {
    map k | k in stats ::
      if k == "bi" then RbiStep(stats["bi"], b.bi)
      else if k in SUMMED then stats[k] + FieldOf(k)(b)
      else stats[k]
  }

  /** The dictionary after the players `ps`, in order: the lines of those whose id is `id` are added. */
  function Collected(stats: map<string, int>, ps: seq<BoxPlayer>, id: string): (r: map<string, int>)
    requires PLAYER_KEYS <= stats.Keys
    ensures r.Keys == stats.Keys
  {
    if ps == [] then stats
    else
      var c := Collected(stats, ps[..|ps| - 1], id);
      var last := ps[|ps| - 1];
      if last.playerId == id then AddPlayer(c, last.batting) else c
  }

  /**
   * Only the matching player's lines count: each summed key grows by the sum of
   * its field over the player's appearances, and "bi" follows the sentinel rule over them.
   */
  lemma {:induction false} CollectedIsSum(stats: map<string, int>, ps: seq<BoxPlayer>, id: string)
    requires PLAYER_KEYS <= stats.Keys
    ensures forall k :: k in SUMMED ==> Collected(stats, ps, id)[k] == stats[k] + Sum(Matching(ps, id), FieldOf(k))
    ensures Collected(stats, ps, id)["bi"] == RbiFrom(stats["bi"], Matching(ps, id))
  {
    if ps != [] {
      var q := ps[..|ps| - 1];
      var last := ps[|ps| - 1];
      CollectedIsSum(stats, q, id);
      var m := Matching(q, id);
      if last.playerId == id {
        assert Matching(ps, id) == m + [last];
        assert (m + [last])[..|m|] == m;
      }
    }
  }

  /** The year's dictionary after its games, in order, starting from `Initial()`. */
  function SeasonStats(games: seq<BoxGame>, id: string): (r: map<string, int>)
    ensures r.Keys == PLAYER_KEYS
  {
    if games == [] then Initial()
    else Collected(SeasonStats(games[..|games| - 1], id), GamePlayers(games[|games| - 1]), id)
  }

  /** The cells `print_stats` prints: the year, then PA, AB, H, BB, SO and R, then RBI or a blank. */
  function StatsLine(year: string, stats: map<string, int>): (line: seq<Cell>)
    requires PLAYER_KEYS <= stats.Keys
    ensures |line| == 8 && line[0] == Text(year)
    ensures line[1..7] == [Text(IntToString(stats["pa"])), Text(IntToString(stats["ab"])), Text(IntToString(stats["h"])),
                           Text(IntToString(stats["bb"])), Text(IntToString(stats["so"])), Text(IntToString(stats["r"]))]
    ensures line[7].Blank? <==> stats["bi"] < 0
    ensures stats["bi"] >= 0 ==> line[7].text == NatToString(stats["bi"])
  {
    [Text(year), Text(IntToString(stats["pa"])), Text(IntToString(stats["ab"])), Text(IntToString(stats["h"])),
     Text(IntToString(stats["bb"])), Text(IntToString(stats["so"])), Text(IntToString(stats["r"])),
     CountCell(stats["bi"])]
  }

  /**
   * The script's object: seven per-side lists (visitors, home) that `clear`
   * resets; `collect_stats` works on the dictionary it is given.
   */
  class PrintPlayerStats {
    var ab: seq<int>
    var r: seq<int>
    var h: seq<int>
    var bi: seq<int>
    var pa: seq<int>
    var bb: seq<int>
    var so: seq<int>

    /** Every per-side list is [0, 0]. */
    predicate Cleared()
      reads this
    {
      ab == [0, 0] && r == [0, 0] && h == [0, 0] && bi == [0, 0] && pa == [0, 0] && bb == [0, 0] && so == [0, 0]
    }

    /** `__init__` ends by calling `clear()` with no dictionary. */
    constructor ()
      ensures Cleared()
    {
      ab, r, h, bi := [0, 0], [0, 0], [0, 0], [0, 0];
      pa, bb, so := [0, 0], [0, 0], [0, 0];
    }

    /**
     * `clear(stats)`: reset the per-side lists, and zero the seven keys of the
     * dictionary when one is given and it is not empty.
     */
    method Clear(stats: Option<map<string, int>>) returns (stats': Option<map<string, int>>)
      modifies this
      ensures Cleared()
      ensures stats' == if Truthy(stats) then Some(ZeroKeys(stats.value)) else stats
    {
      ab, r, h, bi := [0, 0], [0, 0], [0, 0], [0, 0];
      pa, bb, so := [0, 0], [0, 0], [0, 0];
      stats' := stats;
      if Truthy(stats) {
        var m := stats.value;
        m := m["ab" := 0];
        m := m["bb" := 0];
        m := m["so" := 0];
        m := m["pa" := 0];
        m := m["bi" := 0];
        m := m["h" := 0];
        m := m["r" := 0];
        assert m.Keys == ZeroKeys(stats.value).Keys;
        assert forall k :: k in m ==> m[k] == ZeroKeys(stats.value)[k];
        assert m == ZeroKeys(stats.value);
        stats' := Some(m);
      }
    }

    /** `collect_stats`: walk both lineups and add the line of every player whose id is `id`. */
    method CollectStats(g: BoxGame, id: string, stats: map<string, int>) returns (stats': map<string, int>)
      requires ValidGame(g) && PLAYER_KEYS <= stats.Keys
      ensures stats' == Collected(stats, GamePlayers(g), id)
    {
      var visited := WalkBoth(g.vis, g.home);
      stats' := stats;
      for i := 0 to |visited|
        invariant stats' == Collected(stats, visited[..i], id)
      {
        assert visited[..i + 1][..i] == visited[..i];
        var player := visited[i];
        if player.playerId == id {
          stats' := AddPlayer(stats', player.batting);
        }
      }
      assert visited[..|visited|] == visited;
    }
  }

  /** Zeroing the main loop's dictionary gives back the starting dictionary. */
  lemma ClearRestarts(stats: map<string, int>)
    requires stats.Keys == PLAYER_KEYS
    ensures Truthy(Some(stats)) && ZeroKeys(stats) == Initial()
  {
    assert "ab" in stats;
  }

  /** A game's summed counts are those of the batter's appearances for the visitors plus those for the home team. */
  lemma CountsOverBothTeams(stats: map<string, int>, g: BoxGame, id: string, k: string)
    requires PLAYER_KEYS <= stats.Keys && k in SUMMED
    ensures Collected(stats, GamePlayers(g), id)[k]
         == stats[k] + Sum(Matching(Flatten(g.vis), id), FieldOf(k)) + Sum(Matching(Flatten(g.home), id), FieldOf(k))
  {
    CollectedIsSum(stats, GamePlayers(g), id);
    SumMatchingInterleave(Flatten(g.vis), Flatten(g.home), id, FieldOf(k));
  }

  /** The line printed for year `y`, from that year's games alone. */
  function YearLine(events: map<int, seq<BoxGame>>, id: string, y: int): seq<Cell>
    requires y in events
  {
    StatsLine(IntToString(y), SeasonStats(events[y], id))
  }

  /** The printed lines for the years `start`, `start + 1`, ..., `start + n - 1`. */
  function YearLines(events: map<int, seq<BoxGame>>, id: string, start: int, n: nat): (ls: seq<seq<Cell>>)
    requires forall y :: start <= y < start + n ==> y in events
    ensures |ls| == n
  {
    if n == 0 then [] else YearLines(events, id, start, n - 1) + [YearLine(events, id, start + n - 1)]
  }

  /** Line i is year `start + i`'s line, from that year's games alone. */
  lemma {:induction false} YearLinesAt(events: map<int, seq<BoxGame>>, id: string, start: int, n: nat, i: nat)
    requires forall y :: start <= y < start + n ==> y in events
    requires i < n
    ensures YearLines(events, id, start, n)[i] == YearLine(events, id, start + i)
  {
    var last := YearLine(events, id, start + n - 1);
    assert YearLines(events, id, start, n) == YearLines(events, id, start, n - 1) + [last];
    if i < n - 1 {
      YearLinesAt(events, id, start, n - 1, i);
      SnocAt(YearLines(events, id, start, n - 1), last, i);
    } else {
      SnocAt(YearLines(events, id, start, n - 1), last, i);
      assert start + i == start + n - 1;
    }
  }

  /** Appending leaves the earlier elements where they were and puts the new one last. */
  lemma SnocAt<T>(s: seq<T>, x: T, i: nat)
    requires i <= |s|
    ensures (s + [x])[i] == if i < |s| then s[i] else x
  {
  }

  /**
   * `process_input_parameters` as written: fallback id "maysw001", start 1954,
   * an out-of-range end becomes 1955, and the end is reset to the start only
   * when the raw end is below the raw start.
   */
  function ParamsAsWritten(rawId: string, start: int, end: int): (a: Args)
    ensures WellFormedId(a.id) && |a.id| == 8
    ensures InSeasons(a.start) && InSeasons(a.end)
    ensures end < start ==> a.end == a.start
    ensures start <= end ==> a.end == if InSeasons(end) then end else 1955
  {
    assert IsAlphaStr("maysw001"[..5]) && IsDecimalStr("maysw001"[5..8]);
    PlayerIdShape(rawId, "maysw001");
    var s := StartParam(start, 1954);
    var e := if InSeasons(end) then end else 1955;
    Args(PlayerIdParam(rawId, "maysw001"), s, if end < start then s else e)
  }

  /**
   * As written, an end past the last season with a start after 1955 (start 2000,
   * end 2021) gives the range 2000..1955, so no year is printed; so does an
   * out-of-range start with an earlier in-range end (start 1000, end 1900).
   */
  lemma EndBeforeStart()
    ensures ParamsAsWritten("maysw001", 2000, 2021).start == 2000 && ParamsAsWritten("maysw001", 2000, 2021).end == 1955
    ensures ParamsAsWritten("maysw001", 1000, 1900).start == 1954 && ParamsAsWritten("maysw001", 1000, 1900).end == 1900
  {
  }

  /**
   * The parameters as evidently intended: the same id and start rules and the same
   * out-of-range end, but the end is compared with the cleaned start, so the range
   * is never empty.
   */
  function Params(rawId: string, start: int, end: int): (a: Args)
    ensures WellFormedId(a.id) && |a.id| == 8
    ensures InSeasons(a.start) && InSeasons(a.end) && a.start <= a.end
    ensures InSeasons(start) ==> a.start == start
    ensures a.end == a.start || a.end == (if InSeasons(end) then end else 1955)
    ensures (if InSeasons(end) then end else 1955) >= a.start ==> a.end == (if InSeasons(end) then end else 1955)
    ensures ParamsAsWritten(rawId, start, end).start <= ParamsAsWritten(rawId, start, end).end ==>
              a == ParamsAsWritten(rawId, start, end) || end < start
  {
    var w := ParamsAsWritten(rawId, start, end);
    var e := if InSeasons(end) then end else 1955;
    Args(w.id, w.start, if e < w.start then w.start else e)
  }

  /** The games of one year run through `collect_stats`, starting from the zeroed dictionary. */
  method CollectYear(playerStats: PrintPlayerStats, games: seq<BoxGame>, id: string) returns (stats: map<string, int>)
    requires forall i :: 0 <= i < |games| ==> ValidGame(games[i])
    ensures stats == SeasonStats(games, id)
  {
    stats := Initial();
    for j := 0 to |games|
      invariant stats == SeasonStats(games[..j], id)
    {
      assert games[..j + 1][..j] == games[..j];
      stats := playerStats.CollectStats(games[j], id, stats);
    }
    assert games[..|games|] == games;
  }

  /**
   * One year of `main_player_stats`: add up the year's games into the zeroed
   * dictionary, print its line, then `clear` the dictionary, which leaves it
   * zeroed for the next year.
   */
  method PlayYear(playerStats: PrintPlayerStats, events: map<int, seq<BoxGame>>, id: string, year: int, stats: map<string, int>)
    returns (stats': map<string, int>, line: seq<Cell>)
    modifies playerStats
    requires ValidEvents(events) && year in events
    requires stats == Initial()
    ensures line == YearLine(events, id, year) && stats' == Initial()
  {
    var games := events[year];
    assert forall i :: 0 <= i < |games| ==> ValidGame(games[i]);
    var counted := CollectYear(playerStats, games, id);
    line := StatsLine(IntToString(year), counted);
    stats' := ClearYear(playerStats, counted);
  }

  /** `clear(stats)` on a year's dictionary: it is zeroed back to the starting dictionary. */
  method ClearYear(playerStats: PrintPlayerStats, stats: map<string, int>) returns (stats': map<string, int>)
    modifies playerStats
    requires stats.Keys == PLAYER_KEYS
    ensures stats' == Initial()
  {
    ClearRestarts(stats);
    var cleared := playerStats.Clear(Some(stats));
    stats' := cleared.value;
  }

  /** One pass of the year loop: add up, print and clear for the year `start + n`. */
  method PrintYear(playerStats: PrintPlayerStats, events: map<int, seq<BoxGame>>, id: string, start: int, n: nat,
                   stats: map<string, int>, lines: seq<seq<Cell>>)
    returns (stats': map<string, int>, lines': seq<seq<Cell>>)
    modifies playerStats
    requires ValidEvents(events)
    requires forall y :: start <= y <= start + n ==> y in events
    requires stats == Initial() && lines == YearLines(events, id, start, n)
    ensures stats' == Initial() && lines' == YearLines(events, id, start, n + 1)
  {
    var line;
    stats', line := PlayYear(playerStats, events, id, start + n, stats);
    lines' := lines + [line];
  }

  /**
   * The year loop of `main_player_stats`: for each year of the range, add up that
   * year's games, print the year's line and clear the dictionary, so every line
   * covers only its own year. The event files of every year of the range are
   * present (the script's first loop raises otherwise).
   */
  method PrintYears(events: map<int, seq<BoxGame>>, id: string, start: int, end: int) returns (lines: seq<seq<Cell>>)
    requires ValidEvents(events)
    requires forall y :: start <= y <= end ==> y in events
    ensures lines == YearLines(events, id, start, if end < start then 0 else end - start + 1)
  {
    var playerStats := new PrintPlayerStats();
    var stats := Initial();
    lines := [];
    var count := if end < start then 0 else end - start + 1;
    for n := 0 to count
      invariant stats == Initial() && lines == YearLines(events, id, start, n)
    {
      stats, lines := PrintYear(playerStats, events, id, start, n, stats, lines);
    }
  }

  /**
   * `main_player_stats`: check the arguments as the script does, then print a line
   * for every year of the range; when the checked end lies before the checked start
   * (start 2000 with end 2021, say) no year line is printed at all.
   */
  method MainPlayerStats(events: map<int, seq<BoxGame>>, rawId: string, rawStart: int, rawEnd: int) returns (lines: seq<seq<Cell>>)
    requires ValidEvents(events)
    requires var a := ParamsAsWritten(rawId, rawStart, rawEnd); forall y :: a.start <= y <= a.end ==> y in events
    ensures var a := ParamsAsWritten(rawId, rawStart, rawEnd);
      lines == YearLines(events, a.id, a.start, if a.end < a.start then 0 else a.end - a.start + 1)
    ensures var a := ParamsAsWritten(rawId, rawStart, rawEnd); lines == [] <==> a.end < a.start
  {
    var a := ParamsAsWritten(rawId, rawStart, rawEnd);
    lines := PrintYears(events, a.id, a.start, a.end);
  }

  /** `main_player_stats` with the intended parameter check: the range is never empty, so at least one line is printed. */
  method MainPlayerStatsIntended(events: map<int, seq<BoxGame>>, rawId: string, rawStart: int, rawEnd: int) returns (lines: seq<seq<Cell>>)
    requires ValidEvents(events)
    requires var a := Params(rawId, rawStart, rawEnd); forall y :: a.start <= y <= a.end ==> y in events
    ensures var a := Params(rawId, rawStart, rawEnd);
      lines == YearLines(events, a.id, a.start, a.end - a.start + 1) && |lines| >= 1
  {
    var a := Params(rawId, rawStart, rawEnd);
    assert a.start <= a.end;
    lines := PrintYears(events, a.id, a.start, a.end);
  }
}
