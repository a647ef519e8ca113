/**
 * printGameSummary.py: the linescore, the batting section with team totals, the
 * pitchers' section, the command-line rules for team, year and date range, and
 * the selection and ordering of the games to print. The box-score printer it
 * carries is the one of cwTools.py (module CwTools).
 */
module GameSummary {
  import opened Common
  import opened BoxScore
  import opened CwTools

  // ---------------------------------------------------------------- print_linescore

  /**
   * Team `t`'s column of the box score's linescore (`linescore[ix][t]`): its runs
   * inning by inning, negative for an inning it did not bat in.
   */
  function Column(linescore: array2<int>, t: nat): (col: seq<int>)
    requires t < linescore.Length1
    reads linescore
    ensures |col| == linescore.Length0
    ensures forall k :: 0 <= k < |col| ==> col[k] == linescore[k, t]
  {
    seq(linescore.Length0, k requires 0 <= k < linescore.Length0 reads linescore => linescore[k, t])
  }

  /** The first inning from `ix` on (up to 31) whose entry is negative, or 32 when there is none. */
  function Stop(col: seq<int>, ix: nat): (s: nat)
    requires 1 <= ix <= 32 <= |col|
    ensures ix <= s <= 32
    ensures forall k :: ix <= k < s ==> col[k] >= 0
    ensures s < 32 ==> col[s] < 0
    decreases 32 - ix
  {
    if ix == 32 || col[ix] < 0 then ix else Stop(col, ix + 1)
  }

  /** The runs of innings 1 up to `hi - 1`. */
  function RunsBefore(col: seq<int>, hi: nat): int
    requires hi <= |col|
  {
    if hi <= 1 then 0 else RunsBefore(col, hi - 1) + col[hi - 1]
  }

  /** An inning's runs as printed: in parentheses from 10 on. */
  function Cell(n: nat): (c: string)
    ensures n >= 10 ==> c == "(" + NatToString(n) + ")"
    ensures n < 10 ==> c == [DigitChar(n)]
  {
    if n >= 10 then "(" + NatToString(n) + ")" else NatToString(n)
  }

  /** The printed innings 1 up to `hi - 1`, with a space after every third one. */
  function Cells(col: seq<int>, hi: nat): string
    requires hi <= |col|
    requires forall k :: 1 <= k < hi ==> col[k] >= 0
  {
    if hi <= 1 then ""
    else if (hi - 1) % 3 == 0 then Cells(col, hi - 1) + Cell(col[hi - 1]) + " "
    else Cells(col, hi - 1) + Cell(col[hi - 1])
  }

  /** The home side's unplayed last half inning, "x": only where the visitors' entry is not negative. */
  predicate HomeX(vis: seq<int>, home: seq<int>)
    requires 32 <= |vis| && 32 <= |home|
  {
    Stop(home, 1) < 32 && vis[Stop(home, 1)] >= 0
  }

  /**
   * One team's row of `print_linescore`: the innings up to the first one not
   * played, "x " for the home team when the visitors batted in it, and the runs
   * of the printed innings.
   */
  method LinescoreRow(linescore: array2<int>, t: nat) returns (text: string, runs: int)
    requires t <= 1 && linescore.Length0 >= 32 && linescore.Length1 == 2
    ensures var col := Column(linescore, t);
      runs == RunsBefore(col, Stop(col, 1))
      && text == Cells(col, Stop(col, 1)) + (if t == 1 && HomeX(Column(linescore, 0), col) then "x " else "")
  {
    ghost var col := Column(linescore, t);
    ghost var stop := Stop(col, 1);
    text := "";
    runs := 0;
    var ix := 1;
    while ix < 32
      invariant 1 <= ix <= stop
      invariant runs == RunsBefore(col, ix)
      invariant text == Cells(col, ix)
      decreases 32 - ix
    {
      var n := linescore[ix, t];
      if n >= 0 {
        text, runs := PlayedInning(col, ix, n, text, runs);
      } else {
        var ended := RowEnd(linescore, t, ix, text);
        RowFinished(Column(linescore, 0), col, t, ix, text, runs, ended);
        text := ended;
        return;
      }
      ix := ix + 1;
    }
    RowFinished(Column(linescore, 0), col, t, ix, text, runs, text);
  }

  /** Where the row stops, its text and runs are those of the innings before the first one not played. */
  lemma RowFinished(vis: seq<int>, col: seq<int>, t: nat, ix: nat, text: string, runs: int, ended: string)
    requires |vis| >= 32 && |col| >= 32 && 1 <= ix <= Stop(col, 1)
    requires ix == 32 || col[ix] < 0
    requires runs == RunsBefore(col, ix) && text == Cells(col, ix)
    requires ended == if ix < 32 && t == 1 && vis[ix] >= 0 then text + "x " else text
    ensures runs == RunsBefore(col, Stop(col, 1))
    ensures ended == Cells(col, Stop(col, 1)) + (if t == 1 && HomeX(vis, col) then "x " else "")
  {
    assert ix == Stop(col, 1);
  }

  /**
   * The first inning a team did not bat in ends its row: the visitors' row as it
   * is, the home row with "x " when the visitors batted in that inning.
   */
  method RowEnd(linescore: array2<int>, t: nat, ix: nat, text: string) returns (text': string)
    requires t <= 1 && ix < linescore.Length0 && linescore.Length1 == 2 && linescore[ix, t] < 0
    ensures text' == if t == 1 && linescore[ix, 0] >= 0 then text + "x " else text
  {
    if t == 0 {
      text' := text;
    } else if linescore[ix, 0] < 0 {
      text' := text;
    } else {
      text' := text + "x ";
    }
  }

  /** An inning the team batted in: print its cell, then a blank after every third inning, and add its runs. */
  method PlayedInning(ghost col: seq<int>, ix: nat, n: int, text: string, runs: int) returns (text': string, runs': int)
    requires 1 <= ix < 32 <= |col| && ix <= Stop(col, 1) && n == col[ix] >= 0
    requires text == Cells(col, ix) && runs == RunsBefore(col, ix)
    ensures ix < Stop(col, 1) && text' == Cells(col, ix + 1) && runs' == RunsBefore(col, ix + 1)
  {
    LinescoreStep(col, ix, Stop(col, 1));
    text' := text + Cell(n);
    runs' := runs + n;
    if ix % 3 == 0 {
      text' := text' + " ";
    }
  }

  /** An inning that was played adds its cell and its runs. */
  lemma LinescoreStep(col: seq<int>, ix: nat, stop: nat)
    requires 1 <= ix < 32 <= |col| && stop == Stop(col, 1) && ix <= stop
    requires col[ix] >= 0
    ensures ix < stop
    ensures forall k :: 1 <= k < ix + 1 ==> col[k] >= 0
    ensures RunsBefore(col, ix + 1) == RunsBefore(col, ix) + col[ix]
    ensures ix % 3 == 0 ==> Cells(col, ix + 1) == Cells(col, ix) + Cell(col[ix]) + " "
    ensures ix % 3 != 0 ==> Cells(col, ix + 1) == Cells(col, ix) + Cell(col[ix])
  {
  }

  /** Every printed inning counts: the runs are the sum of the innings before the first one not played. */
  lemma {:induction false} RunsBeforeNonNegative(col: seq<int>, hi: nat)
    requires hi <= |col|
    requires forall k :: 1 <= k < hi ==> col[k] >= 0
    ensures RunsBefore(col, hi) >= 0
    ensures hi >= 2 ==> RunsBefore(col, hi) >= col[hi - 1]
  {
    if hi > 1 { RunsBeforeNonNegative(col, hi - 1); }
  }

  /** A team's total is never negative, and no inning after the first unplayed one is counted. */
  lemma LinescoreRunsIgnoreLaterInnings(col: seq<int>, other: seq<int>)
    requires |col| >= 32 && |other| >= 32
    requires forall k :: 1 <= k <= Stop(col, 1) && k < 32 ==> other[k] == col[k]
    ensures Stop(other, 1) == Stop(col, 1)
    ensures RunsBefore(other, Stop(other, 1)) == RunsBefore(col, Stop(col, 1)) >= 0
  {
    var s := Stop(col, 1);
    StopAgrees(col, other, 1, s);
    RunsBeforeAgrees(col, other, s);
    RunsBeforeNonNegative(col, s);
  }

  lemma {:induction false} StopAgrees(col: seq<int>, other: seq<int>, ix: nat, s: nat)
    requires |col| >= 32 && |other| >= 32 && 1 <= ix <= 32
    requires s == Stop(col, ix)
    requires forall k :: ix <= k <= s && k < 32 ==> other[k] == col[k]
    ensures Stop(other, ix) == s
    decreases 32 - ix
  {
    if ix < 32 && col[ix] >= 0 {
      StopAgrees(col, other, ix + 1, s);
    }
  }

  lemma {:induction false} RunsBeforeAgrees(col: seq<int>, other: seq<int>, hi: nat)
    requires hi <= |col| && hi <= |other|
    requires forall k :: 1 <= k < hi ==> other[k] == col[k]
    ensures RunsBefore(other, hi) == RunsBefore(col, hi)
  {
    if hi > 1 { RunsBeforeAgrees(col, other, hi - 1); }
  }

  /** The walk-off wording of printGameSummary.py; myChadwick.py and the try-chadwick scripts say "was scored". */
  const WINNING_RUN_SCORED := " when winning run scored."

  /**
   * The note under the linescore when the game did not end with three outs: the
   * number of outs, "out" or "outs", and `walkOffText` when the winning run ended
   * the game, " when game ended." otherwise.
   */
  function OutsNote(outsAtEnd: int, walkOff: bool, walkOffText: string): (note: Option<string>)
    ensures note.None? <==> outsAtEnd == 3
    ensures note.Some? ==> |note.value| >= |IntToString(outsAtEnd)| + 6
    ensures note.Some? ==> note.value[..2] == "  " && note.value[2..|IntToString(outsAtEnd)| + 2] == IntToString(outsAtEnd)
    ensures note.Some? ==> EndsWith(note.value, if walkOff then walkOffText else " when game ended.")
  {
    if outsAtEnd == 3 then None
    else
      var n := IntToString(outsAtEnd);
      var ending := if walkOff then walkOffText else " when game ended.";
      var tail := " out" + (if outsAtEnd == 1 then "" else "s") + ending;
      MiddleSlice("  ", n, tail);
      assert ("  " + n + tail)[|"  " + n + tail| - |ending|..] == ending;
      Some("  " + n + tail)
  }

  /** "out" is singular exactly when one out was made (both wordings start with a blank). */
  lemma OutsNoteSingular(outsAtEnd: int, walkOff: bool, walkOffText: string)
    requires outsAtEnd != 3
    requires walkOffText != [] && walkOffText[0] == ' '
    ensures var s := OutsNote(outsAtEnd, walkOff, walkOffText).value; var k := |IntToString(outsAtEnd)| + 6;
      k < |s| && s[k - 4..k] == " out" && (s[k] == 's' <==> outsAtEnd != 1)
  {
    var n := IntToString(outsAtEnd);
    var ending := if walkOff then walkOffText else " when game ended.";
    var plural := if outsAtEnd == 1 then "" else "s";
    assert OutsNote(outsAtEnd, walkOff, walkOffText).value == "  " + n + (" out" + plural + ending);
    OutsWording(n, plural, ending);
  }

  lemma OutsWording(n: string, plural: string, ending: string)
    requires ending != [] && ending[0] == ' ' && (plural == "" || plural == "s")
    ensures var s := "  " + n + (" out" + plural + ending);
      |n| + 6 < |s| && s[|n| + 2..|n| + 6] == " out" && (s[|n| + 6] == 's' <==> plural == "s")
  {
    var s := "  " + n + (" out" + plural + ending);
    var a, c := "  " + n, plural + ending;
    assert s == a + " out" + c;
    MiddleSlice(a, " out", c);
    assert s[|a| + 4] == c[0];
  }

  // ---------------------------------------------------------------- print_text

  /** The positions of every player of the lineup can be looked up. */
  predicate ValidPlayers(ps: seq<BoxPlayer>) {
    forall k :: 0 <= k < |ps| ==> ValidPositions(ps[k])
  }

  /** The k-th printed batting row of one side, if the side still has players. */
  function Side(ps: seq<BoxPlayer>, roster: map<string, string>, k: nat): Option<PlayerLine>
    requires ValidPlayers(ps)
  {
    if k < |ps| then Some(BattingLine(ps[k], Bio(roster, ps[k].playerId))) else None
  }

  function Max(a: nat, b: nat): nat { if a < b then b else a }

  /**
   * The batting rows of `print_text`: the two walks run side by side, one player of
   * each team per row, a blank where one team has run out of players.
   */
  function Rows(vs: seq<BoxPlayer>, hs: seq<BoxPlayer>, rv: map<string, string>, rh: map<string, string>)
      : (rows: seq<(Option<PlayerLine>, Option<PlayerLine>)>)
    requires ValidPlayers(vs) && ValidPlayers(hs)
    ensures |rows| == Max(|vs|, |hs|)
    ensures forall k :: 0 <= k < |rows| ==> rows[k] == (Side(vs, rv, k), Side(hs, rh, k))
  {
    seq(Max(|vs|, |hs|), k requires 0 <= k => (Side(vs, rv, k), Side(hs, rh, k)))
  }

  /** What `print_text` prints before the linescore: the rows and both teams' totals. */
  datatype BattingSection = BattingSection(rows: seq<(Option<PlayerLine>, Option<PlayerLine>)>,
                                           visTotals: Totals, homeTotals: Totals)

  /**
   * `print_text`'s batting part: each team's lineup walked slot by slot along the
   * substitute chains, one row per player, and the totals of the players printed.
   */
  method BattingRows(vis: Lineup, home: Lineup, rv: map<string, string>, rh: map<string, string>)
      returns (section: BattingSection)
    requires ValidLineup(vis) && ValidLineup(home)
    requires ValidPlayers(Flatten(vis)) && ValidPlayers(Flatten(home))
    ensures section.rows == Rows(Flatten(vis), Flatten(home), rv, rh)
    ensures section.visTotals.ab == Sum(Flatten(vis), AB) && section.homeTotals.ab == Sum(Flatten(home), AB)
    ensures section.visTotals.h == Sum(Flatten(vis), H) && section.homeTotals.h == Sum(Flatten(home), H)
    ensures section.visTotals.r == Sum(Flatten(vis), R) && section.homeTotals.r == Sum(Flatten(home), R)
    ensures section.visTotals.bb == Sum(Flatten(vis), BB) && section.homeTotals.bb == Sum(Flatten(home), BB)
    ensures section.visTotals.pa == Sum(Flatten(vis), PA) && section.homeTotals.pa == Sum(Flatten(home), PA)
    ensures section.visTotals.so == Sum(Flatten(vis), SO) && section.homeTotals.so == Sum(Flatten(home), SO)
    ensures section.visTotals.bi == RbiFrom(0, Flatten(vis)) && section.homeTotals.bi == RbiFrom(0, Flatten(home))
  {
    var vs := Walk(vis);
    var hs := Walk(home);
    ghost var all := Rows(vs, hs, rv, rh);
    var rows: seq<(Option<PlayerLine>, Option<PlayerLine>)> := [];
    var k := 0;
    while k < |vs| || k < |hs|
      invariant 0 <= k <= |all|
      invariant rows == all[..k]
      decreases |all| - k
    {
      var left: Option<PlayerLine> := None;
      var right: Option<PlayerLine> := None;
      if k < |vs| {
        var line := PrintPlayer(vs[k], Bio(rv, vs[k].playerId));
        left := Some(line);
      }
      if k < |hs| {
        var line := PrintPlayer(hs[k], Bio(rh, hs[k].playerId));
        right := Some(line);
      }
      assert left == Side(vs, rv, k) && right == Side(hs, rh, k);
      TakeSnoc(all, k);
      rows := rows + [(left, right)];
      k := k + 1;
    }
    assert rows == all;
    var tv := LineupTotals(vis);
    var th := LineupTotals(home);
    section := BattingSection(rows, tv, th);
  }

  /** The totals line prints RBI only when not negative. */
  function TotalsRbi(t: Totals): (c: Option<int>)
    ensures c.Some? <==> t.bi >= 0
  {
    Shown(t.bi)
  }

  /** When no batter has the unrecorded-RBI sentinel the RBI total is printed and is the plain sum. */
  lemma TotalsRbiWithoutSentinel(side: Lineup)
    requires forall k :: 0 <= k < |Flatten(side)| ==> Flatten(side)[k].batting.bi >= 0
    ensures RbiFrom(0, Flatten(side)) == Sum(Flatten(side), Bi) >= 0
  {
    var ps := Flatten(side);
    RbiSentinel(0, ps);
    SumNonNegative(ps);
  }

  lemma {:induction false} SumNonNegative(ps: seq<BoxPlayer>)
    requires forall k :: 0 <= k < |ps| ==> ps[k].batting.bi >= 0
    ensures Sum(ps, Bi) >= 0
  {
    if ps != [] { SumNonNegative(ps[..|ps| - 1]); }
  }

  // ---------------------------------------------------------------- the pitchers' section

  /** The line `print_pitcher` prints for a pitcher when `m` notes came before. */
  function PitcherRow(p: BoxPitcher, roster: map<string, string>, wp: string, lp: string, save: string, m: nat)
      : PitcherLine
  {
    var bio := Bio(roster, p.playerId);
    PitcherLineOf(MarkedName(if bio.Some? then bio.value else p.name, p, wp, lp, save, m), p.pitching)
  }

  /** `print_pitcher`'s line, given the roster's display name, is the pitcher's row. */
  lemma PitcherRowPrinted(p: BoxPitcher, roster: map<string, string>, bio: Option<string>,
                          wp: string, lp: string, save: string, m: nat)
    requires bio == Bio(roster, p.playerId)
    ensures RowOf(roster, wp, lp, save)(p, m)
      == PitcherLineOf(MarkedName(if bio.Some? then bio.value else p.name, p, wp, lp, save, m), p.pitching)
  {
  }

  /** `print_pitcher` for the given roster and decisions, as a function of the pitcher and the notes before that pitcher. */
  function RowOf(roster: map<string, string>, wp: string, lp: string, save: string): (BoxPitcher, nat) -> PitcherLine {
    (p: BoxPitcher, m: nat) => PitcherRow(p, roster, wp, lp, save, m)
  }

  /** `lines` are `row` applied to each pitcher of `chain` with the number of notes before that pitcher, starting from `n`. */
  predicate RowsMatch(lines: seq<PitcherLine>, chain: seq<BoxPitcher>, n: nat, row: (BoxPitcher, nat) -> PitcherLine) {
    |lines| == |chain|
    && forall k {:trigger lines[k]} :: 0 <= k < |chain| ==> lines[k] == row(chain[k], n + |NotedPitching(chain[..k])|)
  }

  /** The lines of one team's pitchers, in order, when `n` notes came before them. */
  predicate ChainPrinted(lines: seq<PitcherLine>, chain: seq<BoxPitcher>, n: nat, roster: map<string, string>,
                         wp: string, lp: string, save: string)
  {
    RowsMatch(lines, chain, n, RowOf(roster, wp, lp, save))
  }

  /**
   * The pitching part of `print_text`: the note count starts at 0, each team's
   * pitchers are printed in order, then the notes of `print_pitcher_apparatus`.
   */
  method PitchingSection(tools: ChadwickTools, staff: Staff, rosters: seq<map<string, string>>,
                         wp: string, lp: string, save: string)
      returns (visLines: seq<PitcherLine>, homeLines: seq<PitcherLine>, notes: seq<string>)
    requires |staff| == 2 && |rosters| == 2
    modifies tools
    ensures ChainPrinted(visLines, staff[0], NotesBefore(staff, 0, 0), rosters[0], wp, lp, save)
    ensures ChainPrinted(homeLines, staff[1], NotesBefore(staff, 1, 0), rosters[1], wp, lp, save)
    ensures notes == NoteLines(NotedPitching(Flatten(staff)))
    ensures tools.noteCount == |NotedPitching(Flatten(staff))|
  {
    assert staff[0][..0] == [] && staff[1][..0] == [];
    assert NotesBefore(staff, 0, 0) == 0 && NotesBefore(staff, 1, 0) == |NotedPitching(staff[0])|;
    tools.noteCount := 0;
    visLines := PrintChain(tools, staff[0], rosters[0], wp, lp, save);
    homeLines := PrintChain(tools, staff[1], rosters[1], wp, lp, save);
    NotedPitchingAppend(staff[0], staff[1]);
    FlattenPair(staff);
    notes := PitcherApparatus(staff);
  }

  /** One team's `while pitcher:` loop of `print_text`. */
  method PrintChain(tools: ChadwickTools, chain: seq<BoxPitcher>, roster: map<string, string>,
                    wp: string, lp: string, save: string) returns (lines: seq<PitcherLine>)
    modifies tools
    ensures ChainPrinted(lines, chain, old(tools.noteCount), roster, wp, lp, save)
    ensures tools.noteCount == old(tools.noteCount) + |NotedPitching(chain)|
  {
    ghost var n := tools.noteCount;
    lines := [];
    var i := 0;
    while i < |chain|
      invariant 0 <= i <= |chain|
      invariant ChainPrinted(lines, chain[..i], n, roster, wp, lp, save)
      invariant tools.noteCount == n + |NotedPitching(chain[..i])|
    {
      lines := PrintNext(tools, chain, i, n, roster, wp, lp, save, lines);
      i := i + 1;
    }
    assert chain[..i] == chain;
  }

  /** One pass of the `while pitcher:` loop: print the next pitcher under the pitcher's roster name. */
  method PrintNext(tools: ChadwickTools, chain: seq<BoxPitcher>, i: nat, ghost n: nat, roster: map<string, string>,
                   wp: string, lp: string, save: string, lines: seq<PitcherLine>) returns (lines': seq<PitcherLine>)
    modifies tools
    requires i < |chain| && ChainPrinted(lines, chain[..i], n, roster, wp, lp, save)
    requires tools.noteCount == n + |NotedPitching(chain[..i])|
    ensures ChainPrinted(lines', chain[..i + 1], n, roster, wp, lp, save)
    ensures tools.noteCount == n + |NotedPitching(chain[..i + 1])|
  {
    ghost var before := tools.noteCount;
    var bio := Bio(roster, chain[i].playerId);
    var line := tools.PrintPitcher(chain[i], bio, wp, lp, save);
    ChainStep(lines, chain, i, n, roster, bio, wp, lp, save, line, before);
    lines' := lines + [line];
  }

  /** One more pitcher printed, with the notes before that pitcher counted, extends the team's printed lines. */
  lemma ChainStep(lines: seq<PitcherLine>, chain: seq<BoxPitcher>, i: nat, n: nat, roster: map<string, string>,
                  bio: Option<string>, wp: string, lp: string, save: string, line: PitcherLine, m: nat)
    requires i < |chain| && ChainPrinted(lines, chain[..i], n, roster, wp, lp, save)
    requires m == n + |NotedPitching(chain[..i])| && bio == Bio(roster, chain[i].playerId)
    requires line == PitcherLineOf(MarkedName(if bio.Some? then bio.value else chain[i].name, chain[i], wp, lp, save, m),
                                   chain[i].pitching)
    ensures ChainPrinted(lines + [line], chain[..i + 1], n, roster, wp, lp, save)
    ensures m + (if Noted(chain[i].pitching) then 1 else 0) == n + |NotedPitching(chain[..i + 1])|
  {
    PitcherRowPrinted(chain[i], roster, bio, wp, lp, save, m);
    NotedPitchingStep(chain, i);
    RowsMatchSnoc(lines, chain, i, n, RowOf(roster, wp, lp, save), line, m);
  }

  lemma RowsMatchSnoc(lines: seq<PitcherLine>, chain: seq<BoxPitcher>, i: nat, n: nat,
                      row: (BoxPitcher, nat) -> PitcherLine, line: PitcherLine, m: nat)
    requires i < |chain| && RowsMatch(lines, chain[..i], n, row)
    requires m == n + |NotedPitching(chain[..i])| && line == row(chain[i], m)
    ensures RowsMatch(lines + [line], chain[..i + 1], n, row)
  {
    var c := chain[..i + 1];
    var ls := lines + [line];
    forall k {:trigger ls[k]} | 0 <= k < |c|
      ensures ls[k] == row(c[k], n + |NotedPitching(c[..k])|)
    {
      if k < i {
        assert c[k] == chain[..i][k] && c[..k] == chain[..i][..k];
        assert ls[k] == lines[k];
      } else {
        assert c[k] == chain[i] && c[..k] == chain[..i];
      }
    }
  }

  /** One more pitcher adds a note when that pitcher is noted. */
  lemma NotedPitchingStep(chain: seq<BoxPitcher>, i: nat)
    requires i < |chain|
    ensures |NotedPitching(chain[..i + 1])| == |NotedPitching(chain[..i])| + (if Noted(chain[i].pitching) then 1 else 0)
  {
    assert chain[..i + 1][..i] == chain[..i];
  }

  lemma {:induction false} NotedPitchingAppend(a: seq<BoxPitcher>, b: seq<BoxPitcher>)
    ensures NotedPitching(a + b) == NotedPitching(a) + NotedPitching(b)
  {
    if b != [] {
      assert (a + b)[..|a + b| - 1] == a + b[..|b| - 1];
      NotedPitchingAppend(a, b[..|b| - 1]);
    } else {
      assert a + b == a;
    }
  }

  /** A noted pitcher at position `j` is note number |NotedPitching(chain[..j])| of the chain. */
  lemma NotedIndex(chain: seq<BoxPitcher>, j: nat)
    requires j < |chain| && Noted(chain[j].pitching)
    ensures |NotedPitching(chain[..j])| < |NotedPitching(chain)|
    ensures NotedPitching(chain)[|NotedPitching(chain[..j])|] == chain[j].pitching
  {
    assert chain == chain[..j] + [chain[j]] + chain[j + 1..];
    NotedPitchingAppend(chain[..j] + [chain[j]], chain[j + 1..]);
    assert (chain[..j] + [chain[j]])[..j] == chain[..j];
  }

  /** A noted pitcher's printed name ends with the marker of note `m`. */
  lemma PitcherRowMarker(p: BoxPitcher, roster: map<string, string>, wp: string, lp: string, save: string, m: nat)
    requires Noted(p.pitching)
    ensures EndsWith(PitcherRow(p, roster, wp, lp, save, m).name, Markers(m))
  {
    var row := PitcherRow(p, roster, wp, lp, save, m);
    var bio := Bio(roster, p.playerId);
    var base := (if bio.Some? then bio.value else p.name) + TagText(Decision(p.playerId, wp, lp, save));
    assert row.name == base + Markers(m);
  }

  /** A noted pitcher's printed name, as `print_text` prints the chain, ends with that pitcher's marker. */
  lemma ChainRowName(lines: seq<PitcherLine>, chain: seq<BoxPitcher>, n: nat, roster: map<string, string>,
                     wp: string, lp: string, save: string, j: nat)
    requires ChainPrinted(lines, chain, n, roster, wp, lp, save) && j < |chain| && Noted(chain[j].pitching)
    ensures EndsWith(lines[j].name, Markers(n + |NotedPitching(chain[..j])|))
  {
    var m := n + |NotedPitching(chain[..j])|;
    PitcherRowMarker(chain[j], roster, wp, lp, save, m);
    assert lines[j] == RowOf(roster, wp, lp, save)(chain[j], m);
  }

  /** The notes printed before pitcher `j` of team `t`: the visitors' come first. */
  function NotesBefore(staff: Staff, t: nat, j: nat): nat
    requires |staff| == 2 && t <= 1 && j <= |staff[t]|
  {
    (if t == 0 then 0 else |NotedPitching(staff[0])|) + |NotedPitching(staff[t][..j])|
  }

  /**
   * A noted pitcher of team `t` at position `j` owns note number `NotesBefore` of
   * the apparatus: the notes of the visitors' pitchers come first, then the home team's.
   */
  lemma NoteOfPitcher(staff: Staff, t: nat, j: nat)
    requires |staff| == 2 && t <= 1 && j < |staff[t]| && Noted(staff[t][j].pitching)
    ensures NotesBefore(staff, t, j) < |NotedPitching(Flatten(staff))|
    ensures NotedPitching(Flatten(staff))[NotesBefore(staff, t, j)] == staff[t][j].pitching
  {
    NotedIndex(staff[t], j);
    FlattenPair(staff);
    NotedPitchingAppend(staff[0], staff[1]);
  }

  /**
   * The pitcher's line and the note about that pitcher agree: a noted pitcher's printed
   * name ends with marker m, and note m of the apparatus, which starts with that
   * marker, is about that pitcher's pitching.
   */
  lemma MarkerAgreement(staff: Staff, rosters: seq<map<string, string>>, wp: string, lp: string, save: string,
                        t: nat, j: nat, lines: seq<PitcherLine>)
    requires |staff| == 2 && |rosters| == 2 && t <= 1 && j < |staff[t]| && Noted(staff[t][j].pitching)
    requires ChainPrinted(lines, staff[t], NotesBefore(staff, t, 0), rosters[t], wp, lp, save)
    ensures NotesBefore(staff, t, j) < |NotedPitching(Flatten(staff))|
    ensures NoteLines(NotedPitching(Flatten(staff)))[NotesBefore(staff, t, j)]
      == NoteLine(NotesBefore(staff, t, j), staff[t][j].pitching)
    ensures EndsWith(lines[j].name, Markers(NotesBefore(staff, t, j)))
  {
    var n := NotesBefore(staff, t, 0);
    assert staff[t][..0] == [];
    ChainRowName(lines, staff[t], n, rosters[t], wp, lp, save, j);
    assert n + |NotedPitching(staff[t][..j])| == NotesBefore(staff, t, j);
    NoteOfPitcher(staff, t, j);
  }

  // ---------------------------------------------------------------- process_input_parameters

  /** An alphabetic argument has no white space to strip. */
  lemma AlphaUnstripped(s: string)
    ensures IsAlphaStr(s) ==> Strip(s) == s
  {
    if IsAlphaStr(s) { StripUntrimmed(s); }
  }

  /** The team: three upper-case letters of an alphabetic argument of at least three, else "TOR". */
  function TeamParam(raw: string): (team: string)
    ensures |team| == 3 && forall i :: 0 <= i < 3 ==> 'A' <= team[i] <= 'Z'
    ensures IsAlphaStr(raw) && |raw| >= 3 ==> team == Upper(raw[..3])
    ensures !(IsAlphaStr(raw) && |raw| >= 3) ==> team == "TOR"
  {
    AlphaUnstripped(raw);
    if IsAlphaStr(raw) && |Strip(raw)| >= 3 then
      var t := Upper(Strip(raw));
      var r := if |t| > 3 then t[..3] else t;
      assert r == Upper(raw[..3]);
      r
    else
      "TOR"
  }

  /** The year: kept from 1871 to 2020, otherwise "1993". */
  function YearParam(year: int): (y: string)
    ensures |y| == 4 && IsDecimalStr(y)
    ensures 1871 <= year <= 2020 ==> DecimalValue(y) == year
    ensures !(1871 <= year <= 2020) ==> y == "1993"
  {
    if 1871 <= year <= 2020 then
      NatToStringFourDigits(year);
      NatToStringRoundTrip(year);
      NatToString(year)
    else "1993"
  }

  /**
   * A start or end date (mmdd): an absent or empty argument gives `absent`; otherwise
   * the stripped argument when it is four decimal digits, else `bad`.
   */
  function DateParam(raw: Option<string>, absent: string, bad: string): (d: string)
    ensures raw.None? || raw == Some("") ==> d == absent
    ensures raw.Some? && raw.value != "" && IsDecimalStr(Strip(raw.value)) && |Strip(raw.value)| == 4 ==> d == Strip(raw.value)
    ensures raw.Some? && raw.value != "" && !(IsDecimalStr(Strip(raw.value)) && |Strip(raw.value)| == 4) ==> d == bad
    ensures d == absent || d == bad || (|d| == 4 && IsDecimalStr(d))
  {
    if raw.None? || raw.value == "" then absent
    else
      var s := Strip(raw.value);
      if !IsDecimalStr(s) || |s| != 4 then bad else s
  }

  datatype Params = Params(team: string, year: string, start: string, end: string)

  /** `process_input_parameters` over the parsed arguments (logging options left out). */
  function InputParameters(team: string, year: int, start: Option<string>, end: Option<string>): (p: Params)
    ensures |p.team| == 3 && |p.year| == 4
    ensures |p.start| == 4 && IsDecimalStr(p.start) && |p.end| == 4 && IsDecimalStr(p.end)
  {
    var s := DateParam(start, "0301", "9999");
    var e := DateParam(end, "1031", "0000");
    FourDigitsDecimal("0301");
    FourDigitsDecimal("9999");
    FourDigitsDecimal("1031");
    FourDigitsDecimal("0000");
    Params(TeamParam(team), YearParam(year), s, e)
  }

  // ---------------------------------------------------------------- game selection and order

  /** A game as the event files give it, with the teams `process_game` reports. */
  datatype GameRec = GameRec(gameId: string, homeTeam: string, awayTeam: string)

  /** The date part of a game id, `game_id[3:11]`. */
  function GameDate(id: string): string { Slice(id, 3, 11) }

  /** The key of the games table, `game_id[3:]`. */
  function GameKey(id: string): string { Slice(id, 3, |id|) }

  /** A game is printed when its date lies in the range, compared as strings, and the team played. */
  predicate Wanted(g: GameRec, p: Params) {
    LessEq(p.year + p.start, GameDate(g.gameId)) && LessEq(GameDate(g.gameId), p.year + p.end)
    && (g.homeTeam == p.team || g.awayTeam == p.team)
  }

  /** The games table after the games `gs`, in order; a later game with the same key replaces an earlier one. */
  function GamesTable(gs: seq<GameRec>, p: Params): map<string, GameRec> {
    if gs == [] then map[]
    else
      var m := GamesTable(gs[..|gs| - 1], p);
      var g := gs[|gs| - 1];
      if Wanted(g, p) then m[GameKey(g.gameId) := g] else m
  }

  /** Every entry of the table is a wanted game filed under its own key, and every wanted game has an entry. */
  lemma {:induction false} GamesTableExact(gs: seq<GameRec>, p: Params)
    ensures forall k :: k in GamesTable(gs, p) ==> Wanted(GamesTable(gs, p)[k], p) && GameKey(GamesTable(gs, p)[k].gameId) == k
    ensures forall i :: 0 <= i < |gs| && Wanted(gs[i], p) ==> GameKey(gs[i].gameId) in GamesTable(gs, p)
  {
    if gs != [] {
      var q := gs[..|gs| - 1];
      GamesTableExact(q, p);
      assert forall i :: 0 <= i < |q| ==> q[i] == gs[i];
    }
  }

  /** One more game of a file: the table of the longer prefix is the old table, updated when the game is wanted. */
  lemma GamesTableStep(before: seq<GameRec>, file: seq<GameRec>, i: nat, p: Params)
    requires i < |file|
    ensures GamesTable(before + file[..i + 1], p)
         == if Wanted(file[i], p) then GamesTable(before + file[..i], p)[GameKey(file[i].gameId) := file[i]]
            else GamesTable(before + file[..i], p)
  {
    var s := before + file[..i + 1];
    assert s[..|s| - 1] == before + file[..i];
    assert s[|s| - 1] == file[i];
  }

  /** The inner loop of the selection: the games of one team's event file, in order. */
  method SelectFromFile(ghost before: seq<GameRec>, file: seq<GameRec>, p: Params, games0: map<string, GameRec>)
      returns (games: map<string, GameRec>)
    requires games0 == GamesTable(before, p)
    ensures games == GamesTable(before + file, p)
  {
    games := games0;
    assert before + file[..0] == before;
    var i := 0;
    while i < |file|
      invariant 0 <= i <= |file|
      invariant games == GamesTable(before + file[..i], p)
    {
      var g := file[i];
      GamesTableStep(before, file, i, p);
      var date := GameDate(g.gameId);
      if LessEq(date, p.year + p.end) && LessEq(p.year + p.start, date) {
        if g.homeTeam == p.team || g.awayTeam == p.team {
          games := games[GameKey(g.gameId) := g];
        }
      }
      i := i + 1;
    }
    assert file[..i] == file;
  }

  /** The selection loop of `main_chadwick_py3` over every team's event file. */
  method SelectGames(files: seq<seq<GameRec>>, p: Params) returns (games: map<string, GameRec>)
    ensures games == GamesTable(Flatten(files), p)
  {
    games := map[];
    var f := 0;
    while f < |files|
      invariant 0 <= f <= |files|
      invariant games == GamesTable(Flatten(files[..f]), p)
    {
      games := SelectFromFile(Flatten(files[..f]), files[f], p, games);
      assert files[..f + 1] == files[..f] + [files[f]];
      FlattenSnoc(files[..f], files[f]);
      f := f + 1;
    }
    assert files[..f] == files;
  }

  /** Strictly increasing in Python's string order. */
  predicate Sorted(ks: seq<string>) {
    forall i, j :: 0 <= i < j < |ks| ==> Less(ks[i], ks[j])
  }

  /** `ks` with `x` inserted at its place. */
  function Insert(ks: seq<string>, x: string): (r: seq<string>)
    requires Sorted(ks) && x !in ks
    ensures Sorted(r) && |r| == |ks| + 1
    ensures forall y :: y in r <==> y in ks || y == x
  {
    if ks == [] then [x]
    else if Less(x, ks[0]) then
      forall j | 0 < j < |ks| ensures Less(x, ks[j]) { LessTransitive(x, ks[0], ks[j]); }
      [x] + ks
    else
      var r := Insert(ks[1..], x);
      assert Sorted(ks[1..]) by {
        forall i, j | 0 <= i < j < |ks| - 1 ensures Less(ks[1..][i], ks[1..][j]) { assert ks[1..][i] == ks[i + 1]; }
      }
      LessTotal(x, ks[0]);
      forall j | 0 <= j < |r| ensures Less(ks[0], r[j]) {
        assert r[j] in ks[1..] || r[j] == x;
      }
      [ks[0]] + r
  }

  /** `sorted(games.keys())`: the keys of the table, each once, in increasing order. */
  method SortedKeys<T>(games: map<string, T>) returns (ks: seq<string>)
    ensures Sorted(ks)
    ensures forall k :: k in ks <==> k in games
  {
    ks := [];
    var rest := games.Keys;
    while rest != {}
      invariant rest <= games.Keys
      invariant Sorted(ks)
      invariant forall k :: k in ks <==> k in games && k !in rest
      decreases |rest|
    {
      var x :| x in rest;
      ks := Insert(ks, x);
      rest := rest - {x};
    }
  }
}
