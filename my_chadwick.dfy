/**
 * myChadwick.py: an earlier copy of the box-score printer. It has its own
 * C-string decoder, a linescore of nine innings, batting rows that blank the RBI
 * only for the -1 sentinel and mark a long position list with ",...", and a
 * pitcher line with three slips, kept here as written and set against the
 * printer of cwTools.py.
 */
module MyChadwick {
  import opened Common
  import opened CString
  import opened BoxScore
  import opened CwTools
  import opened GameSummary

  // ---------------------------------------------------------------- CwHelper.bytes_to_str

  /** The character limit of the decoder: 1 when `maxlen` is not positive, else `maxlen` (no cap). */
  function ByteLimit(maxlen: int): nat {
    if maxlen <= 0 then 1 else maxlen
  }

  /**
   * What `bytes_to_str` returns: a single byte as its character, not stripped;
   * otherwise the stripped characters before the first NUL byte, cut after the
   * limit, and nothing when the bytes run out first.
   */
  function DecodeBytes(byt: seq<Byte>, maxlen: int): (r: Option<string>)
    ensures |byt| == 1 ==> r == Some([Chr(byt[0])])
    ensures |byt| != 1 ==> (r.None? <==> FirstNul(byt) == |byt| && |byt| < ByteLimit(maxlen))
    ensures |byt| != 1 && r.Some? ==> |r.value| <= ByteLimit(maxlen)
    ensures |byt| != 1 && r.Some? ==> r.value == Strip(Chars(byt[..Min(FirstNul(byt), ByteLimit(maxlen))]))
  {
    if |byt| == 1 then Some([Chr(byt[0])]) else ScanToNul(byt, ByteLimit(maxlen))
  }

  /** `bytes_to_str`: the single-byte case, then the scan loop with its limit. */
  method BytesToStr(byt: seq<Byte>, maxlen: int) returns (r: Option<string>)
    ensures r == DecodeBytes(byt, maxlen)
  {
    if |byt| == 1 {
      return Some([Chr(byt[0])]);
    }
    var limit := if maxlen <= 0 then 1 else maxlen;
    r := Scan(byt, limit);
  }

  /** A NUL-terminated string of at least one and at most `limit` characters decodes to itself, stripped. */
  lemma DecodeTerminated(s: seq<Byte>, maxlen: int)
    requires 1 <= |s| <= ByteLimit(maxlen)
    requires forall i :: 0 <= i < |s| ==> s[i] != 0
    ensures DecodeBytes(s + [0], maxlen) == Some(Strip(Chars(s)))
  {
    var bs := s + [0];
    assert forall j :: 0 <= j < |s| ==> bs[j] == s[j];
    FirstNulAt(bs, |s|);
    assert bs[..|s|] == s;
  }

  /**
   * The roster name `print_player` and `print_pitcher` build: the decoded last name
   * (at most 20 bytes), a blank and the decoded first initial. Nothing when either
   * decoding yields nothing (Python then fails on the concatenation).
   */
  function BioName(last: seq<Byte>, first: seq<Byte>): (name: Option<string>)
    ensures name.Some? <==> DecodeBytes(Slice(last, 0, 20), 20).Some? && DecodeBytes(Slice(first, 0, 1), 1).Some?
    ensures first != [] && name.Some? ==>
      |name.value| >= 2 && name.value[|name.value| - 2..] == [' ', Chr(first[0])]
  {
    var l := DecodeBytes(Slice(last, 0, 20), 20);
    var f := DecodeBytes(Slice(first, 0, 1), 1);
    if l.Some? && f.Some? then Some(l.value + " " + f.value) else None
  }

  // ---------------------------------------------------------------- print_linescore

  /** An inning as the nine-inning linescore prints it: its cell, or "x" when negative. */
  function NineCell(n: int): string {
    if n >= 0 then Cell(n) else "x"
  }

  /** The printed innings 1 up to `hi - 1`, with a blank after every third one. */
  function NineCells(col: seq<int>, hi: nat): string
    requires 1 <= hi <= 10 <= |col|
  {
    if hi == 1 then ""
    else if (hi - 1) % 3 == 0 then NineCells(col, hi - 1) + NineCell(col[hi - 1]) + " "
    else NineCells(col, hi - 1) + NineCell(col[hi - 1])
  }

  /** The runs of innings 1 up to `hi - 1`, the negative entries left out. */
  function NineRuns(col: seq<int>, hi: nat): int
    requires 1 <= hi <= 10 <= |col|
  {
    if hi == 1 then 0 else NineRuns(col, hi - 1) + (if col[hi - 1] >= 0 then col[hi - 1] else 0)
  }

  /**
   * One team's row of `print_linescore`: innings 1 to 9, every one of them, an
   * unplayed (negative) one as "x" and not added to the runs.
   */
  method NineInningRow(linescore: array2<int>, t: nat) returns (text: string, runs: int)
    requires t <= 1 && linescore.Length0 >= 10 && linescore.Length1 == 2
    ensures text == NineCells(Column(linescore, t), 10)
    ensures runs == NineRuns(Column(linescore, t), 10)
  {
    ghost var col := Column(linescore, t);
    text := "";
    runs := 0;
    for ix := 1 to 10
      invariant text == NineCells(col, ix)
      invariant runs == NineRuns(col, ix)
    {
      var n := linescore[ix, t];
      assert n == col[ix];
      if n >= 0 {
        text := text + Cell(n);
        runs := runs + n;
      } else {
        text := text + "x";
      }
      if ix % 3 == 0 {
        text := text + " ";
      }
    }
  }

  /** The total only depends on the non-negative part of each of the nine innings. */
  lemma {:induction false} NineRunsAgree(col: seq<int>, other: seq<int>, hi: nat)
    requires 1 <= hi <= 10 <= |col| && 10 <= |other|
    requires forall k :: 1 <= k < hi ==> (if col[k] >= 0 then col[k] else 0) == (if other[k] >= 0 then other[k] else 0)
    ensures NineRuns(col, hi) == NineRuns(other, hi)
  {
    if hi > 1 { NineRunsAgree(col, other, hi - 1); }
  }

  /** An inning not played counts as no runs, and nothing after the ninth inning counts. */
  lemma NineRunsOfPlayedInnings(col: seq<int>, ix: nat, other: seq<int>)
    requires 10 <= |col| && 1 <= ix <= 9 && col[ix] < 0
    requires |other| >= 10 && other[..10] == col[..10]
    ensures NineRuns(col[ix := 0], 10) == NineRuns(col, 10)
    ensures NineRuns(other, 10) == NineRuns(col, 10)
  {
    NineRunsAgree(col, col[ix := 0], 10);
    assert forall k :: 1 <= k < 10 ==> other[k] == other[..10][k];
    NineRunsAgree(col, other, 10);
  }

  lemma {:induction false} NineRunsNonNegative(col: seq<int>, hi: nat)
    requires 1 <= hi <= 10 <= |col|
    ensures NineRuns(col, hi) >= 0
  {
    if hi > 1 { NineRunsNonNegative(col, hi - 1); }
  }

  /** With single-digit innings the row is nine characters and a blank after each third. */
  lemma {:induction false} NineCellsWidth(col: seq<int>, hi: nat)
    requires 1 <= hi <= 10 <= |col|
    requires forall k :: 1 <= k < hi ==> col[k] < 10
    ensures |NineCells(col, hi)| == (hi - 1) + (hi - 1) / 3
  {
    if hi > 1 {
      NineCellsWidth(col, hi - 1);
      assert |NineCell(col[hi - 1])| == 1;
      assert (hi - 1) / 3 == (hi - 2) / 3 + (if (hi - 1) % 3 == 0 then 1 else 0);
    }
  }

  /** While every inning was played, the nine-inning row agrees with the row that stops at the first unplayed one. */
  lemma {:induction false} NineAgreesWithLinescore(col: seq<int>, hi: nat)
    requires 1 <= hi <= 10 <= |col|
    requires forall k :: 1 <= k < hi ==> col[k] >= 0
    ensures NineRuns(col, hi) == RunsBefore(col, hi)
    ensures NineCells(col, hi) == Cells(col, hi)
  {
    if hi > 1 { NineAgreesWithLinescore(col, hi - 1); }
  }

  /** A game that stopped after nine innings gets the same total from both printers. */
  lemma NineInningGame(col: seq<int>)
    requires |col| >= 32 && Stop(col, 1) == 10
    ensures NineRuns(col, 10) == RunsBefore(col, Stop(col, 1))
    ensures NineCells(col, 10) == Cells(col, Stop(col, 1))
  {
    NineAgreesWithLinescore(col, 10);
  }

  /**
   * The nine-inning total leaves out extra innings: when the tenth inning was
   * played and scored, the total is less than that of the innings played.
   */
  lemma ExtraInningsDropped(col: seq<int>)
    requires |col| >= 32
    requires forall k :: 1 <= k <= 10 ==> col[k] >= 0
    requires col[10] > 0
    ensures NineRuns(col, 10) < RunsBefore(col, Stop(col, 1))
  {
    var s := Stop(col, 1);
    assert s >= 11;
    NineAgreesWithLinescore(col, 10);
    RunsBeforeGrows(col, 11, s);
  }

  lemma {:induction false} RunsBeforeGrows(col: seq<int>, lo: nat, hi: nat)
    requires 1 <= lo <= hi <= |col|
    requires forall k :: lo <= k < hi ==> col[k] >= 0
    ensures RunsBefore(col, lo) <= RunsBefore(col, hi)
  {
    if lo < hi { RunsBeforeGrows(col, lo, hi - 1); }
  }

  // ---------------------------------------------------------------- print_player

  /** What this copy's `print_player` prints: the name column, at-bats, runs, hits and RBI unless -1. */
  datatype ShortLine = ShortLine(column: string, ab: int, r: int, h: int, rbi: Option<int>)

  /** The batter's line, with the overflow form ending in ",...". */
  function ShortBattingLine(p: BoxPlayer, bio: Option<string>): (line: ShortLine)
    requires ValidPositions(p)
    ensures line.column == NameColumn(if bio.Some? then bio.value else p.name,
                                      DashAppend(PinchPrefix(p), PositionNames(p)), FirstPosition(p), ",...")
    ensures (line.ab, line.r, line.h) == (p.batting.ab, p.batting.r, p.batting.h)
    ensures line.rbi.Some? <==> p.batting.bi != -1
    ensures line.rbi.Some? ==> line.rbi.value == p.batting.bi
  {
    var b := p.batting;
    ShortLine(NameColumn(if bio.Some? then bio.value else p.name,
                         DashAppend(PinchPrefix(p), PositionNames(p)), FirstPosition(p), ",..."),
              b.ab, b.r, b.h, if b.bi != -1 then Some(b.bi) else None)
  }

  /** `print_player`: the position string built in a loop, then the column and the counts. */
  method PrintPlayer(p: BoxPlayer, bio: Option<string>) returns (line: ShortLine)
    requires ValidPositions(p)
    ensures line == ShortBattingLine(p, bio)
  {
    var name := if bio.Some? then bio.value else p.name;
    var posstr := PositionString(p);
    var outstr: string;
    if |posstr| <= 10 {
      if |posstr| + |name| > 18 {
        outstr := name[..18 - |posstr|] + ", ";
      } else {
        outstr := name + ", ";
      }
      outstr := outstr + posstr;
    } else {
      outstr := name + ", " + POSITIONS[p.positions[0]] + ",...";
    }
    var b := p.batting;
    line := ShortLine(outstr, b.ab, b.r, b.h, if b.bi != -1 then Some(b.bi) else None);
  }

  /**
   * This copy and cwTools.py print the same column whenever the position string
   * fits, and the same RBI for every recorded value; they differ only in the
   * overflow mark and for negative values other than -1.
   */
  lemma PrintersAgree(p: BoxPlayer, bio: Option<string>)
    requires ValidPositions(p)
    ensures |DashAppend(PinchPrefix(p), PositionNames(p))| <= 10 ==>
      ShortBattingLine(p, bio).column == BattingLine(p, bio).column
    ensures p.batting.bi >= 0 ==> ShortBattingLine(p, bio).rbi == BattingLine(p, bio).rbi
    ensures p.batting.bi < -1 ==> ShortBattingLine(p, bio).rbi == Some(p.batting.bi) && BattingLine(p, bio).rbi.None?
  {
  }

  // ---------------------------------------------------------------- print_text

  /** The k-th printed row of one side, if the side still has players. */
  function ShortSide(ps: seq<BoxPlayer>, roster: map<string, string>, k: nat): Option<ShortLine>
    requires ValidPlayers(ps)
  {
    if k < |ps| then Some(ShortBattingLine(ps[k], Bio(roster, ps[k].playerId))) else None
  }

  /** The rows of the batting section: one player of each team per row. */
  function ShortRows(vs: seq<BoxPlayer>, hs: seq<BoxPlayer>, rv: map<string, string>, rh: map<string, string>)
      : (rows: seq<(Option<ShortLine>, Option<ShortLine>)>)
    requires ValidPlayers(vs) && ValidPlayers(hs)
    ensures |rows| == Max(|vs|, |hs|)
    ensures forall k :: 0 <= k < |rows| ==> rows[k] == (ShortSide(vs, rv, k), ShortSide(hs, rh, k))
  {
    seq(Max(|vs|, |hs|), k requires 0 <= k => (ShortSide(vs, rv, k), ShortSide(hs, rh, k)))
  }

  /** The totals line prints both teams' RBI totals, or neither when either total is -1. */
  function TotalsRbiPair(vis: Totals, home: Totals): (c: Option<(int, int)>)
    ensures c.None? <==> vis.bi == -1 || home.bi == -1
    ensures c.Some? ==> c.value == (vis.bi, home.bi)
  {
    if vis.bi == -1 || home.bi == -1 then None else Some((vis.bi, home.bi))
  }

  /** What `print_text` prints before the linescore. */
  datatype TextSection = TextSection(rows: seq<(Option<ShortLine>, Option<ShortLine>)>,
                                     visTotals: Totals, homeTotals: Totals, rbi: Option<(int, int)>)

  /** `print_text`'s batting part: the walk of both lineups, the rows and the totals line. */
  method PrintText(vis: Lineup, home: Lineup, rv: map<string, string>, rh: map<string, string>)
      returns (section: TextSection)
    requires ValidLineup(vis) && ValidLineup(home)
    requires ValidPlayers(Flatten(vis)) && ValidPlayers(Flatten(home))
    ensures section.rows == ShortRows(Flatten(vis), Flatten(home), rv, rh)
    ensures section.visTotals.ab == Sum(Flatten(vis), AB) && section.homeTotals.ab == Sum(Flatten(home), AB)
    ensures section.visTotals.r == Sum(Flatten(vis), R) && section.homeTotals.r == Sum(Flatten(home), R)
    ensures section.visTotals.h == Sum(Flatten(vis), H) && section.homeTotals.h == Sum(Flatten(home), H)
    ensures section.visTotals.bi == RbiFrom(0, Flatten(vis)) && section.homeTotals.bi == RbiFrom(0, Flatten(home))
    ensures section.rbi == TotalsRbiPair(section.visTotals, section.homeTotals)
  {
    var vs := Walk(vis);
    var hs := Walk(home);
    ghost var all := ShortRows(vs, hs, rv, rh);
    var rows: seq<(Option<ShortLine>, Option<ShortLine>)> := [];
    var k := 0;
    while k < |vs| || k < |hs|
      invariant 0 <= k <= |all|
      invariant rows == all[..k]
      decreases |all| - k
    {
      var left: Option<ShortLine> := None;
      var right: Option<ShortLine> := None;
      if k < |vs| {
        var line := PrintPlayer(vs[k], Bio(rv, vs[k].playerId));
        left := Some(line);
      }
      if k < |hs| {
        var line := PrintPlayer(hs[k], Bio(rh, hs[k].playerId));
        right := Some(line);
      }
      assert left == ShortSide(vs, rv, k) && right == ShortSide(hs, rh, k);
      TakeSnoc(all, k);
      rows := rows + [(left, right)];
      k := k + 1;
    }
    assert rows == all;
    var tv := LineupTotals(vis);
    var th := LineupTotals(home);
    section := TextSection(rows, tv, th, TotalsRbiPair(tv, th));
  }

  /** Without the sentinel on either side both RBI totals are printed, and they are the plain sums. */
  lemma RbiPairWithoutSentinel(vis: Lineup, home: Lineup, tv: Totals, th: Totals)
    requires forall k :: 0 <= k < |Flatten(vis)| ==> Flatten(vis)[k].batting.bi >= 0
    requires forall k :: 0 <= k < |Flatten(home)| ==> Flatten(home)[k].batting.bi >= 0
    requires tv.bi == RbiFrom(0, Flatten(vis)) && th.bi == RbiFrom(0, Flatten(home))
    ensures TotalsRbiPair(tv, th) == Some((Sum(Flatten(vis), Bi), Sum(Flatten(home), Bi)))
  {
    TotalsRbiWithoutSentinel(vis);
    TotalsRbiWithoutSentinel(home);
  }

  // ---------------------------------------------------------------- print_pitcher, as written

  /**
   * The decision tag as this copy's `print_pitcher` computes it. The test is
   * inverted (`!=`), and the recorded ids are decoded `str` while the pitcher's id
   * is `bytes`, so in Python 3 the comparison always finds them unequal: the tag
   * depends only on which ids the game records.
   */
  function DecisionAsWritten(wp: string, lp: string, save: string): (tag: Tag)
    ensures tag == Win <==> wp != ""
    ensures tag == Loss <==> wp == "" && lp != ""
    ensures tag == Save <==> wp == "" && lp == "" && save != ""
  {
    if wp != "" then Win else if lp != "" then Loss else if save != "" then Save else NoDecision
  }

  /** As written, the marker loop runs `n / 3` times: one marker fewer than the note's number calls for. */
  function MarkersAsWritten(n: nat): (m: string)
    ensures |m| == n / 3
    ensures forall i :: 0 <= i < |m| ==> m[i] == MARKERS[n % 3]
  {
    Repeat(MARKERS[n % 3], n / 3)
  }

  /** What this copy prints for a pitcher: name, innings pitched, hits, runs, then ER, BB and SO unless -1. */
  datatype ShortPitcherLine = ShortPitcherLine(name: string, ip: string, h: int, r: int,
                                               er: Option<int>, bb: Option<int>, so: Option<int>)

  function UnlessSentinel(v: int): Option<int> {
    if v != -1 then Some(v) else None
  }

  /** The pitcher's line as written: the BB column prints the hits. */
  function PitcherRowAsWritten(name: string, p: BoxPitcher, wp: string, lp: string, save: string, n: nat)
      : (line: ShortPitcherLine)
    ensures line.bb.Some? <==> p.pitching.bb != -1
    ensures line.bb.Some? ==> line.bb.value == p.pitching.h
    ensures line.er == UnlessSentinel(p.pitching.er) && line.so == UnlessSentinel(p.pitching.so)
    ensures line.name == name + TagText(DecisionAsWritten(wp, lp, save))
                         + (if Noted(p.pitching) then MarkersAsWritten(n) else "")
  {
    var q := p.pitching;
    ShortPitcherLine(name + TagText(DecisionAsWritten(wp, lp, save)) + (if Noted(q) then MarkersAsWritten(n) else ""),
                     InningsPitched(q.outs), q.h, q.r, UnlessSentinel(q.er),
                     if q.bb != -1 then Some(q.h) else None, UnlessSentinel(q.so))
  }

  /**
   * `print_pitcher` as written: `noteCount` is the caller's value, and the
   * increment after a note changes only the local copy.
   */
  method PrintPitcher(p: BoxPitcher, bio: Option<string>, wp: string, lp: string, save: string, noteCount: nat)
      returns (line: ShortPitcherLine)
    ensures line == PitcherRowAsWritten(if bio.Some? then bio.value else p.name, p, wp, lp, save, noteCount)
  {
    var name := if bio.Some? then bio.value else p.name;
    ghost var plain := name;
    if wp != "" {
      name := name + " (W)";
    } else if lp != "" {
      name := name + " (L)";
    } else if save != "" {
      name := name + " (S)";
    }
    assert name == plain + TagText(DecisionAsWritten(wp, lp, save));
    ghost var tagged := name;
    var count := noteCount;
    var pitching := p.pitching;
    if pitching.xbinn > 0 && pitching.xb > 0 {
      for i := 0 to count / 3
        invariant name == tagged + Repeat(MARKERS[count % 3], i)
      {
        name := name + [MARKERS[count % 3]];
      }
      count := count + 1;
    }
    var bb := if pitching.bb != -1 then Some(pitching.h) else None;
    line := ShortPitcherLine(name, InningsPitched(pitching.outs), pitching.h, pitching.r,
                             UnlessSentinel(pitching.er), bb, UnlessSentinel(pitching.so));
  }

  /** The rows of one team's pitchers as `print_text` prints them: every call passes a note count of 0. */
  method PitcherRows(chain: seq<BoxPitcher>, roster: map<string, string>, wp: string, lp: string, save: string)
      returns (rows: seq<ShortPitcherLine>)
    ensures |rows| == |chain|
    ensures forall k :: 0 <= k < |chain| ==>
      rows[k] == PitcherRowAsWritten(if chain[k].playerId in roster then roster[chain[k].playerId] else chain[k].name,
                                     chain[k], wp, lp, save, 0)
  {
    var noteCount := 0;
    rows := [];
    for i := 0 to |chain|
      invariant |rows| == i
      invariant forall k :: 0 <= k < i ==>
        rows[k] == PitcherRowAsWritten(if chain[k].playerId in roster then roster[chain[k].playerId] else chain[k].name,
                                       chain[k], wp, lp, save, 0)
    {
      var line := PrintPitcher(chain[i], Bio(roster, chain[i].playerId), wp, lp, save, noteCount);
      rows := rows + [line];
    }
  }

  // ---------------------------------------------------------------- the slips, against cwTools.py

  /**
   * A pitcher who is not the winner is tagged "(W)" as written, while the
   * printer of cwTools.py tags only the recorded winner.
   */
  lemma DecisionTagsEveryPitcher(id: string, wp: string, lp: string, save: string)
    requires wp != "" && id != wp
    ensures DecisionAsWritten(wp, lp, save) == Win
    ensures Decision(id, wp, lp, save) != Win
    ensures Decision(wp, wp, lp, save) == Win
  {
  }

  /**
   * With the count always 0, no noted pitcher gets a marker as written; the first
   * three notes would need one marker each, which `Markers` gives them.
   */
  lemma FirstNotesUnmarked(name: string, p: BoxPitcher, wp: string, lp: string, save: string, n: nat)
    requires Noted(p.pitching) && n < 3
    ensures PitcherRowAsWritten(name, p, wp, lp, save, n).name == name + TagText(DecisionAsWritten(wp, lp, save))
    ensures Markers(n) == [MARKERS[n]]
    ensures EndsWith(MarkedName(name, p, wp, lp, save, n), [MARKERS[n]])
  {
    assert MarkersAsWritten(n) == "";
    var base := name + TagText(Decision(p.playerId, wp, lp, save));
    assert MarkedName(name, p, wp, lp, save, n) == base + Markers(n);
  }

  /** As written, the BB column shows the hits; the line of cwTools.py shows the walks. */
  lemma WalksColumnShowsHits(name: string, p: BoxPitcher, wp: string, lp: string, save: string, n: nat)
    requires p.pitching.bb >= 0 && p.pitching.h != p.pitching.bb
    ensures PitcherRowAsWritten(name, p, wp, lp, save, n).bb == Some(p.pitching.h)
    ensures PitcherLineOf(name, p.pitching).bb == Some(p.pitching.bb)
    ensures PitcherRowAsWritten(name, p, wp, lp, save, n).bb != PitcherLineOf(name, p.pitching).bb
  {
  }
}
