/**
 * The shared box-score printer of cwTools.py: decoding C strings, the name and
 * position column of a batter's line, the "apparatus" lists (events grouped by
 * player), the pitcher's line with its note markers, the list of pitchers who
 * faced batters without recording an out, and the DP/TP/LOB and time-of-game
 * lines. Roster and game-info lookups of the native library are inputs.
 */
module CwTools {
  import opened Common
  import opened CString
  import opened BoxScore
  import opened Grouping

  /** Position names, indexed by the native library's position numbers. */
  const POSITIONS: seq<string> := ["", "p", "c", "1b", "2b", "3b", "ss", "lf", "cf", "rf", "dh", "ph", "pr"]

  /** Markers of the pitchers' notes, used in turn. */
  const MARKERS: seq<char> := ['*', '+', '#']

  // ---------------------------------------------------------------- c_char_p_to_str

  /** The character limit: 1 when `maxlen` is at most 1, else `maxlen` capped at 256. */
  function Limit(maxlen: int): (n: nat)
    ensures 1 <= n <= 256
    ensures maxlen <= 1 ==> n == 1
    ensures maxlen > 1 ==> n <= maxlen && (n == maxlen || n == 256)
  {
    if maxlen <= 1 then 1 else if maxlen < 256 then maxlen else 256
  }

  /** The bytes the decoder looks at: the first `Limit(maxlen)` of them. */
  function Window(lpcc: seq<Byte>, maxlen: int): seq<Byte> {
    Slice(lpcc, 0, Limit(maxlen))
  }

  /**
   * `c_char_p_to_str`: an empty window gives "", a one-byte window its single
   * character as it is (even a NUL byte), anything longer the scan to the first
   * NUL byte or the limit, stripped; never more than the limit in characters.
   */
  method CCharPToStr(lpcc: seq<Byte>, maxlen: int) returns (r: Option<string>)
    ensures r.Some? ==> |r.value| <= Limit(maxlen)
    ensures |Window(lpcc, maxlen)| == 0 ==> r == Some("")
    ensures |Window(lpcc, maxlen)| == 1 ==> r == Some([Chr(lpcc[0])])
    ensures |Window(lpcc, maxlen)| >= 2 ==> r == ScanToNul(Window(lpcc, maxlen), Limit(maxlen))
  {
    var limit := Limit(maxlen);
    var bytez := Slice(lpcc, 0, limit);
    if |bytez| == 0 {
      return Some("");
    }
    if |bytez| == 1 {
      return Some([Chr(bytez[0])]);
    }
    r := Scan(bytez, limit);
  }

  /** With no NUL byte and fewer bytes than the limit the decoder returns nothing. */
  lemma CCharPToStrFallsOff(lpcc: seq<Byte>, maxlen: int)
    requires 2 <= |lpcc| < Limit(maxlen)
    requires forall i :: 0 <= i < |lpcc| ==> lpcc[i] != 0
    ensures Window(lpcc, maxlen) == lpcc
    ensures ScanToNul(Window(lpcc, maxlen), Limit(maxlen)) == None
  {
    FirstNulAt(lpcc, |lpcc|);
  }

  // ---------------------------------------------------------------- print_time_of_game

  /** `str(m)` padded with a leading zero to two characters. */
  function TwoDigits(m: nat): (s: string)
    requires m < 60
    ensures |s| == 2 && IsDecimalStr(s) && DecimalValue(s) == m
  {
    var d := NatToString(m);
    NatToStringRoundTrip(m);
    if |d| == 1 then
      assert DecimalValue("0" + d) == 10 * DecimalValue("0") + DigitValue(d[0]) by {
        assert ("0" + d)[..1] == "0";
      }
      "0" + d
    else
      assert |d| == 2 by {
        if |d| > 2 { NatToStringFourDigits2(m); }
      }
      d
  }

  lemma {:induction false} NatToStringFourDigits2(m: nat)
    requires m < 100
    ensures |NatToString(m)| <= 2
  {
    if m >= 10 { assert |NatToString(m / 10)| == 1; }
  }

  /** The time-of-game line: printed only for a positive time, as hours and two-digit minutes. */
  function TimeOfGame(tog: int): (line: Option<string>)
    ensures line.Some? <==> tog > 0
    ensures tog > 0 ==> line.value == "T -- " + NatToString(tog / 60) + ":" + TwoDigits(tog % 60)
  {
    if tog > 0 then Some("T -- " + NatToString(tog / 60) + ":" + TwoDigits(tog % 60)) else None
  }

  /** Reading the printed hours and minutes back gives the time of game in minutes. */
  lemma TimeOfGameReadsBack(tog: int)
    requires tog > 0
    ensures var s := TimeOfGame(tog).value;
      var h := s[5..|s| - 3];
      s[..5] == "T -- " && s[|s| - 3] == ':' && IsDecimalStr(h) && IsDecimalStr(s[|s| - 2..])
      && 60 * DecimalValue(h) + DecimalValue(s[|s| - 2..]) == tog
  {
    var s := TimeOfGame(tog).value;
    var hours := NatToString(tog / 60);
    assert s == "T -- " + hours + ":" + TwoDigits(tog % 60);
    assert s[5..|s| - 3] == hours;
    assert s[|s| - 2..] == TwoDigits(tog % 60);
    NatToStringRoundTrip(tog / 60);
  }

  // ---------------------------------------------------------------- print_player

  /** The positions are numbers the position table knows (the source indexes it with them). */
  predicate ValidPositions(p: BoxPlayer) {
    |p.positions| >= 1 && p.numPositions <= |p.positions| && 0 <= p.positions[0] < |POSITIONS|
    && forall i :: 0 <= i < p.numPositions ==> 0 <= p.positions[i] < |POSITIONS|
  }

  /** "ph" for a pinch hitter not listed as one, else "pr" for such a pinch runner, else "". */
  function PinchPrefix(p: BoxPlayer): (pre: string)
    requires |p.positions| >= 1
    ensures pre == "ph" <==> p.phInn > 0 && p.positions[0] != 11
    ensures pre == "pr" <==> !(p.phInn > 0 && p.positions[0] != 11) && p.prInn > 0 && p.positions[0] != 12
    ensures pre == "" || pre == "ph" || pre == "pr"
  {
    if p.phInn > 0 && p.positions[0] != 11 then "ph"
    else if p.prInn > 0 && p.positions[0] != 12 then "pr"
    else ""
  }

  function PositionNames(p: BoxPlayer): (names: seq<string>)
    requires ValidPositions(p)
    ensures |names| == p.numPositions
    ensures forall i :: 0 <= i < |names| ==> names[i] == POSITIONS[p.positions[i]]
  {
    seq(p.numPositions, i requires 0 <= i < p.numPositions => POSITIONS[p.positions[i]])
  }

  /** The effect of the position loop: each name added after a "-" unless nothing is written yet. */
  function DashAppend(acc: string, parts: seq<string>): (r: string)
    ensures |r| >= |acc| && r[..|acc|] == acc
    ensures (acc != "" || exists i :: 0 <= i < |parts| && parts[i] != "") ==> r != ""
  {
    if parts == [] then acc
    else
      var a := DashAppend(acc, parts[..|parts| - 1]);
      assert forall i :: 0 <= i < |parts| - 1 ==> parts[..|parts| - 1][i] == parts[i];
      (if |a| > 0 then a + "-" else a) + parts[|parts| - 1]
  }

  /** When every name is non-empty the loop produces Python's `"-".join` of the prefix and the names. */
  lemma {:induction false} DashAppendIsJoin(acc: string, parts: seq<string>)
    requires forall i :: 0 <= i < |parts| ==> parts[i] != ""
    ensures DashAppend(acc, parts) == Join("-", (if acc == "" then [] else [acc]) + parts)
  {
    var pre: seq<string> := if acc == "" then [] else [acc];
    if parts != [] {
      var q := parts[..|parts| - 1];
      DashAppendIsJoin(acc, q);
      var xs := pre + parts;
      assert xs[..|xs| - 1] == pre + q;
      if q != [] { assert q[0] != ""; }
    } else {
      assert pre + parts == pre;
    }
  }

  /** The position string of `print_player`, built by its loop. */
  method PositionString(p: BoxPlayer) returns (posstr: string)
    requires ValidPositions(p)
    ensures posstr == DashAppend(PinchPrefix(p), PositionNames(p))
  {
    posstr := "";
    if p.phInn > 0 && p.positions[0] != 11 {
      posstr := "ph";
    } else if p.prInn > 0 && p.positions[0] != 12 {
      posstr := "pr";
    }
    var names := PositionNames(p);
    var i := 0;
    while i < p.numPositions
      invariant 0 <= i <= p.numPositions
      invariant posstr == DashAppend(PinchPrefix(p), names[..i])
    {
      assert names[..i + 1][..i] == names[..i];
      if |posstr| > 0 {
        posstr := posstr + "-";
      }
      posstr := posstr + POSITIONS[p.positions[i]];
      i := i + 1;
    }
    assert names[..i] == names;
  }

  /**
   * The 20-character name column: with a position string of at most 10 characters
   * the name is cut so that name, ", " and positions fit in 20 characters and the
   * column ends with the position string; with a longer one the column is the name,
   * ", ", the first position and the `overflow` mark ("..." here, ",..." in myChadwick.py).
   */
  function NameColumn(name: string, posstr: string, first: string, overflow: string): (col: string)
    ensures |posstr| <= 10 ==> |posstr| + 2 <= |col| <= 20
    ensures |posstr| <= 10 ==> col[|col| - |posstr|..] == posstr
    ensures |posstr| <= 10 ==> col[|col| - |posstr| - 2..|col| - |posstr|] == ", "
    ensures |posstr| <= 10 ==> |col| - |posstr| - 2 <= |name| && col[..|col| - |posstr| - 2] == name[..|col| - |posstr| - 2]
    ensures |posstr| <= 10 && |name| + |posstr| <= 18 ==> col == name + ", " + posstr
    ensures |posstr| <= 10 && |name| + |posstr| > 18 ==> |col| == 20
    ensures |posstr| > 10 ==> col == name + ", " + first + overflow
  {
    if |posstr| <= 10 then
      (if |posstr| + |name| > 18 then name[..18 - |posstr|] else name) + ", " + posstr
    else
      name + ", " + first + overflow
  }

  /** The first position's name, which the overflow form prints. */
  function FirstPosition(p: BoxPlayer): string
    requires ValidPositions(p)
  {
    POSITIONS[p.positions[0]]
  }

  /** What `print_player` prints for a batter: the name column, the counts, and RBI unless negative. */
  datatype PlayerLine = PlayerLine(column: string, pa: int, ab: int, h: int, bb: int, so: int, r: int,
                                   rbi: Option<int>)

  /** The roster's display name for a player, if the roster lists the player. */
  function Bio(roster: map<string, string>, id: string): Option<string> {
    if id in roster then Some(roster[id]) else None
  }

  /** The batter's line: name column, the counts, and RBI unless negative. */
  function BattingLine(p: BoxPlayer, bio: Option<string>): (line: PlayerLine)
    requires ValidPositions(p)
    ensures line.column == NameColumn(if bio.Some? then bio.value else p.name,
                                      DashAppend(PinchPrefix(p), PositionNames(p)), FirstPosition(p), "...")
    ensures line.rbi.Some? <==> p.batting.bi >= 0
    ensures line.rbi.Some? ==> line.rbi.value == p.batting.bi
  {
    var b := p.batting;
    PlayerLine(NameColumn(if bio.Some? then bio.value else p.name,
                          DashAppend(PinchPrefix(p), PositionNames(p)), FirstPosition(p), "..."),
               b.pa, b.ab, b.h, b.bb, b.so, b.r, if b.bi >= 0 then Some(b.bi) else None)
  }

  /**
   * `print_player`: `bio` is the roster's display name for the player, if the
   * roster lists the player; otherwise the box score's own name is used.
   */
  method PrintPlayer(p: BoxPlayer, bio: Option<string>) returns (line: PlayerLine)
    requires ValidPositions(p)
    ensures line == BattingLine(p, bio)
  {
    var name := if bio.Some? then bio.value else p.name;
    var posstr := PositionString(p);
    var outstr: string;
    if |posstr| <= 10 {
      if |posstr| + |name| > 18 {
        outstr := name[..18 - |posstr|] + ", ";
      } else {
        outstr := name + ", ";
      }
      outstr := outstr + posstr;
    } else {
      outstr := name + ", " + POSITIONS[p.positions[0]] + "...";
    }
    var b := p.batting;
    line := PlayerLine(outstr, b.pa, b.ab, b.h, b.bb, b.so, b.r, if b.bi >= 0 then Some(b.bi) else None);
  }

  // ---------------------------------------------------------------- apparatus

  /** One entry of an event list: the players involved and the scratch `mark` flag. */
  datatype BoxEvent = BoxEvent(players: (string, string), mark: int)

  function EventKeys<K>(es: seq<BoxEvent>, key: ((string, string)) -> K): (ks: seq<K>)
    ensures |ks| == |es| && forall i :: 0 <= i < |es| ==> ks[i] == key(es[i].players)
  {
    seq(|es|, i requires 0 <= i < |es| => key(es[i].players))
  }

  /** The groups found after the first `i` events have been visited. */
  function GroupsSoFar<K(==)>(ks: seq<K>, i: nat): (gs: seq<(K, nat)>)
    requires i <= |ks|
  {
    CountsOf(ks, Distinct(ks[..i]))
  }

  /**
   * The marking scheme shared by `print_player_apparatus` and `print_hbp`: an
   * unmarked event starts a group, every event with the same key from there on is
   * counted and marked, marked events are skipped, and at the end every mark is
   * cleared again.
   */
  method GroupEvents<K(==)>(events: array<BoxEvent>, key: ((string, string)) -> K) returns (groups: seq<(K, nat)>)
    requires forall k :: 0 <= k < events.Length ==> events[k].mark == 0
    modifies events
    ensures events[..] == old(events[..])
    ensures groups == Groups(EventKeys(old(events[..]), key))
  {
    ghost var ks := EventKeys(events[..], key);
    var n := events.Length;
    groups := [];
    var i := 0;
    while i < n
      invariant 0 <= i <= n
      invariant forall k :: 0 <= k < n ==> events[k].players == old(events[k].players)
      invariant Marked(events, ks, i)
      invariant groups == GroupsSoFar(ks, i)
    {
      if events[i].mark == 0 {
        var count := MarkGroup(events, key, ks, i);
        GroupsSoFarStep(ks, i, count);
        groups := groups + [(key(events[i].players), count)];
      } else {
        MarkedSkip(events, ks, i);
      }
      i := i + 1;
    }
    assert ks[..n] == ks;
    ClearMarks(events);
  }

  /**
   * The marks after the first `i` events have been visited: those events are
   * marked, and a later one is marked exactly when its key occurred among them.
   */
  ghost predicate Marked<K>(events: array<BoxEvent>, ks: seq<K>, i: nat)
    reads events
  {
    i <= |ks| == events.Length
    && (forall k :: 0 <= k < i ==> events[k].mark == 1)
    && (forall k :: i <= k < |ks| ==> events[k].mark == if ks[k] in ks[..i] then 1 else 0)
  }

  /** A marked event's key occurred before it, so it starts no group. */
  lemma MarkedSkip<K>(events: array<BoxEvent>, ks: seq<K>, i: nat)
    requires i < |ks| && Marked(events, ks, i) && events[i].mark != 0
    ensures Marked(events, ks, i + 1)
    ensures ks[i] in ks[..i] && GroupsSoFar(ks, i + 1) == GroupsSoFar(ks, i)
  {
    assert ks[..i + 1] == ks[..i] + [ks[i]];
    DistinctSnoc(ks[..i], ks[i]);
  }

  /** The reset loop: every mark back to 0, nothing else changed. */
  method ClearMarks(events: array<BoxEvent>)
    modifies events
    ensures forall m :: 0 <= m < events.Length ==> events[m] == old(events[m]).(mark := 0)
  {
    var k := 0;
    while k < events.Length
      invariant 0 <= k <= events.Length
      invariant forall m :: 0 <= m < k ==> events[m] == old(events[m]).(mark := 0)
      invariant forall m :: k <= m < events.Length ==> events[m] == old(events[m])
    {
      events[k] := events[k].(mark := 0);
      k := k + 1;
    }
  }

  /** The inner loop of the marking scheme: count and mark the events from `i` on with the key of event `i`. */
  method MarkGroup<K(==)>(events: array<BoxEvent>, key: ((string, string)) -> K, ghost ks: seq<K>, i: nat)
      returns (count: nat)
    requires i < events.Length == |ks|
    requires forall k :: 0 <= k < events.Length ==> key(events[k].players) == ks[k]
    requires Marked(events, ks, i) && events[i].mark == 0
    modifies events
    ensures forall k :: 0 <= k < events.Length ==> events[k].players == old(events[k].players)
    ensures Marked(events, ks, i + 1)
    ensures ks[i] !in ks[..i] && count == Count(ks[i..], ks[i])
  {
    var x := key(events[i].players);
    count := 0;
    var j := i;
    while j < events.Length
      invariant i <= j <= events.Length
      invariant forall k :: 0 <= k < events.Length ==> events[k].players == old(events[k].players)
      invariant forall k :: 0 <= k < events.Length ==>
        events[k].mark == if i <= k < j && ks[k] == x then 1 else old(events[k].mark)
      invariant count == Count(ks[i..j], x)
    {
      assert ks[i..j + 1] == ks[i..j] + [ks[j]];
      if key(events[j].players) == x {
        count := count + 1;
        events[j] := events[j].(mark := 1);
      }
      j := j + 1;
    }
    assert ks[i..j] == ks[i..];
    assert ks[..i + 1] == ks[..i] + [ks[i]];
  }

  /** A key not seen before the `i`-th event adds one group, counted over the whole list. */
  lemma GroupsSoFarStep<K>(ks: seq<K>, i: nat, count: nat)
    requires i < |ks| && ks[i] !in ks[..i]
    requires count == Count(ks[i..], ks[i])
    ensures GroupsSoFar(ks, i + 1) == GroupsSoFar(ks, i) + [(ks[i], count)]
  {
    var x := ks[i];
    assert ks[..i + 1] == ks[..i] + [x];
    DistinctSnoc(ks[..i], x);
    CountsOfSnoc(ks, Distinct(ks[..i]), x);
    CountFromFirst(ks, i);
  }

  /** From a key's first occurrence on, the rest of the list holds all of its occurrences. */
  lemma CountFromFirst<K>(ks: seq<K>, i: nat)
    requires i < |ks| && ks[i] !in ks[..i]
    ensures Count(ks, ks[i]) == Count(ks[i..], ks[i])
  {
    assert ks == ks[..i] + ks[i..];
    CountAppend(ks[..i], ks[i..], ks[i]);
    CountAbsent(ks[..i], ks[i]);
  }

  /**
   * The name printed for a player: the roster's display name (last name, a blank
   * and the first initial), or else the player's id.
   */
  function DisplayName(roster: map<string, string>, id: string): string {
    if id in roster then roster[id] else id
  }

  /** One entry of an apparatus line: the name, followed by the count unless it is 1. */
  function ApparatusEntry(roster: map<string, string>, g: (string, nat)): (e: string)
    ensures g.1 == 1 ==> e == DisplayName(roster, g.0)
    ensures g.1 != 1 ==> e == DisplayName(roster, g.0) + " " + NatToString(g.1)
  {
    DisplayName(roster, g.0) + (if g.1 == 1 then "" else " " + NatToString(g.1))
  }

  function ApparatusText(title: string, roster: map<string, string>, gs: seq<(string, nat)>): string {
    title + " -- " + Join(", ", seq(|gs|, i requires 0 <= i < |gs| => ApparatusEntry(roster, gs[i])))
  }

  function PlayerAt(index: nat): ((string, string)) -> string
    requires index <= 1
  {
    if index == 0 then (ps: (string, string)) => ps.0 else (ps: (string, string)) => ps.1
  }

  /**
   * `print_player_apparatus`: one line for an event list (errors, doubles, ...):
   * each distinct `players[index]` once, in order of first occurrence, with its
   * number of events; nothing for an empty list. The list is unchanged afterwards.
   */
  method PlayerApparatus(events: array<BoxEvent>, index: nat, title: string, roster: map<string, string>)
      returns (groups: seq<(string, nat)>, line: Option<string>)
    requires index <= 1
    requires forall k :: 0 <= k < events.Length ==> events[k].mark == 0
    modifies events
    ensures events[..] == old(events[..])
    ensures groups == Groups(EventKeys(old(events[..]), PlayerAt(index)))
    ensures line == if events.Length == 0 then None else Some(ApparatusText(title, roster, groups))
  {
    if events.Length == 0 {
      return [], None;
    }
    groups := GroupEvents(events, PlayerAt(index));
    line := Some(ApparatusText(title, roster, groups));
  }

  function Pair(ps: (string, string)): (string, string) { ps }

  /**
   * One entry of the hit-by-pitch line: "by <pitcher> (<batter>)"; a count other
   * than 1 is printed by `print(" %d", count)`, that is as the literal text " %d",
   * a space, the count and a line break.
   */
  function HbpEntry(roster: map<string, string>, g: ((string, string), nat)): string {
    "by " + DisplayName(roster, g.0.1) + " (" + DisplayName(roster, g.0.0) + ")"
    + (if g.1 != 1 then " %d " + NatToString(g.1) + "\n" else "")
  }

  /**
   * `print_hbp`: events are grouped by the (batter, pitcher) pair, so the same
   * pitcher hitting two batters gives two entries; marks are cleared afterwards.
   */
  method Hbp(events: array<BoxEvent>, roster: map<string, string>)
      returns (groups: seq<((string, string), nat)>, line: Option<string>)
    requires forall k :: 0 <= k < events.Length ==> events[k].mark == 0
    modifies events
    ensures events[..] == old(events[..])
    ensures groups == Groups(EventKeys(old(events[..]), Pair))
    ensures line == if events.Length == 0 then None
      else Some("HBP -- " + Join(", ", seq(|groups|, i requires 0 <= i < |groups| => HbpEntry(roster, groups[i]))))
  {
    if events.Length == 0 {
      return [], None;
    }
    groups := GroupEvents(events, Pair);
    line := Some("HBP -- " + Join(", ", seq(|groups|, i requires 0 <= i < |groups| => HbpEntry(roster, groups[i]))));
  }

  // ---------------------------------------------------------------- pitchers

  /** A pitcher is noted after facing batters in an inning without recording an out. */
  predicate Noted(p: Pitching) { p.xbinn > 0 && p.xb > 0 }

  /** The marker of the `n`-th note (from 0): MARKERS[n % 3] written n / 3 + 1 times. */
  function Markers(n: nat): (m: string)
    ensures |m| == n / 3 + 1
    ensures forall i :: 0 <= i < |m| ==> m[i] == MARKERS[n % 3]
  {
    Repeat(MARKERS[n % 3], n / 3 + 1)
  }

  /** Different notes get different markers. */
  lemma MarkersDistinct(m: nat, n: nat)
    requires Markers(m) == Markers(n)
    ensures m == n
  {
    assert Markers(m)[0] == MARKERS[m % 3] && Markers(n)[0] == MARKERS[n % 3];
    assert m == 3 * (m / 3) + m % 3 && n == 3 * (n / 3) + n % 3;
  }

  /** "st", "nd", "rd" for a last digit 1, 2, 3 except in 11, 12, 13; "th" otherwise. */
  function OrdinalSuffix(n: int): (s: string)
    ensures s == "st" <==> n % 10 == 1 && n != 11
    ensures s == "nd" <==> n % 10 == 2 && n != 12
    ensures s == "rd" <==> n % 10 == 3 && n != 13
    ensures s == "th" <==> !(n % 10 == 1 && n != 11) && !(n % 10 == 2 && n != 12) && !(n % 10 == 3 && n != 13)
  {
    if n % 10 == 1 && n != 11 then "st"
    else if n % 10 == 2 && n != 12 then "nd"
    else if n % 10 == 3 && n != 13 then "rd"
    else "th"
  }

  /**
   * Only exactly 11, 12 and 13 take "th" among the numbers ending in 1, 2 or 3:
   * 21 to 23 and 111 to 113 take "st", "nd" and "rd" as the script compares
   * the whole number, not its last two digits.
   */
  lemma OrdinalSuffixTeens(n: int)
    requires 11 <= n <= 13
    ensures OrdinalSuffix(n) == "th" && OrdinalSuffix(n + 10) != "th" && OrdinalSuffix(n + 100) != "th"
  {
  }

  /** Innings pitched as printed: whole innings, ".", and the outs of the unfinished inning. */
  function InningsPitched(outs: int): string {
    // Python's // and % round towards minus infinity; for the divisor 3 that is what Dafny's do
    IntToString(outs / 3) + "." + [DigitChar(outs % 3)]
  }

  /** The printed innings read back: the digit after the point is 0, 1 or 2, and the outs are recovered. */
  lemma InningsPitchedReadsBack(outs: int)
    ensures var s := InningsPitched(outs);
      |s| >= 3 && s[|s| - 2] == '.' && s[|s| - 1] in ['0', '1', '2']
      && s[..|s| - 2] == IntToString(outs / 3)
      && 3 * (outs / 3) + DigitValue(s[|s| - 1]) == outs
  {
    var s := InningsPitched(outs);
    assert s[..|s| - 2] == IntToString(outs / 3);
  }

  /** The pitchers' notes in the order they are printed. */
  function NotedPitching(ps: seq<BoxPitcher>): (ns: seq<Pitching>)
    ensures |ns| <= |ps|
    ensures forall k :: 0 <= k < |ns| ==> Noted(ns[k])
  {
    if ps == [] then []
    else
      var ns := NotedPitching(ps[..|ps| - 1]);
      if Noted(ps[|ps| - 1].pitching) then ns + [ps[|ps| - 1].pitching] else ns
  }

  /** The marker loop of the pitcher's name and of the notes: `s` followed by the `n`-th marker. */
  method AppendMarker(s: string, n: nat) returns (r: string)
    ensures r == s + Markers(n)
  {
    r := s;
    var i := 0;
    while i < n / 3 + 1
      invariant 0 <= i <= n / 3 + 1
      invariant r == s + Repeat(MARKERS[n % 3], i)
    {
      r := r + [MARKERS[n % 3]];
      i := i + 1;
    }
  }

  /** One line of the pitchers' notes. */
  function NoteLine(n: nat, p: Pitching): string
    requires Noted(p)
  {
    "  " + Markers(n) + " Pitched to " + NatToString(p.xb) + " batter" + (if p.xb == 1 then "" else "s")
    + " in " + NatToString(p.xbinn) + OrdinalSuffix(p.xbinn)
  }

  function NoteLines(ns: seq<Pitching>): (lines: seq<string>)
    requires forall k :: 0 <= k < |ns| ==> Noted(ns[k])
    ensures |lines| == |ns|
  {
    seq(|ns|, k requires 0 <= k < |ns| => NoteLine(k, ns[k]))
  }

  /** One line of `print_pitcher_apparatus`, built piece by piece as the source does. */
  method NoteFor(p: Pitching, count: nat) returns (note: string)
    requires Noted(p)
    ensures note == NoteLine(count, p)
  {
    note := AppendMarker("  ", count);
    note := note + " Pitched to " + NatToString(p.xb) + " batter" + (if p.xb == 1 then "" else "s");
    note := note + " in " + NatToString(p.xbinn);
    if p.xbinn % 10 == 1 && p.xbinn != 11 {
      note := note + "st";
    } else if p.xbinn % 10 == 2 && p.xbinn != 12 {
      note := note + "nd";
    } else if p.xbinn % 10 == 3 && p.xbinn != 13 {
      note := note + "rd";
    } else {
      note := note + "th";
    }
  }

  /**
   * `print_pitcher_apparatus`: a line for each noted pitcher, visitors' staff first,
   * the k-th line (from 0) carrying the k-th marker; the count is shared by both teams.
   */
  method PitcherApparatus(staff: Staff) returns (lines: seq<string>)
    requires |staff| == 2
    ensures lines == NoteLines(NotedPitching(Flatten(staff)))
  {
    lines := [];
    var t := 0;
    while t < 2
      invariant 0 <= t <= 2
      invariant lines == NoteLines(NotedPitching(Flatten(staff[..t])))
    {
      lines := ChainNotes(Flatten(staff[..t]), staff[t], lines);
      assert staff[..t + 1] == staff[..t] + [staff[t]];
      FlattenSnoc(staff[..t], staff[t]);
      t := t + 1;
    }
    assert staff[..2] == staff;
  }

  /** The loop over one team's pitchers, continuing the notes of the pitchers in `done`. */
  method ChainNotes(ghost done: seq<BoxPitcher>, chain: seq<BoxPitcher>, lines0: seq<string>) returns (lines: seq<string>)
    requires lines0 == NoteLines(NotedPitching(done))
    ensures lines == NoteLines(NotedPitching(done + chain))
  {
    lines := lines0;
    var count := |lines0|;
    var i := 0;
    assert done + chain[..0] == done;
    while i < |chain|
      invariant 0 <= i <= |chain|
      invariant lines == NoteLines(NotedPitching(done + chain[..i]))
      invariant count == |lines|
    {
      assert done + chain[..i + 1] == (done + chain[..i]) + [chain[i]];
      var p := chain[i].pitching;
      if p.xbinn > 0 && p.xb > 0 {
        var note := NoteFor(p, count);
        NoteLinesSnoc(NotedPitching(done + chain[..i]), p);
        lines := lines + [note];
        count := count + 1;
      }
      i := i + 1;
    }
    assert chain[..i] == chain;
  }

  lemma NoteLinesSnoc(ns: seq<Pitching>, p: Pitching)
    requires forall k :: 0 <= k < |ns| ==> Noted(ns[k])
    requires Noted(p)
    ensures NoteLines(ns + [p]) == NoteLines(ns) + [NoteLine(|ns|, p)]
  {
  }

  /** The decision a pitcher's name is tagged with. */
  datatype Tag = Win | Loss | Save | NoDecision

  function TagText(tag: Tag): string {
    match tag
    case Win => " (W)"
    case Loss => " (L)"
    case Save => " (S)"
    case NoDecision => ""
  }

  /** Win, else loss, else save, when the game's recorded id for it is non-empty and is this pitcher's. */
  function Decision(id: string, wp: string, lp: string, save: string): (tag: Tag)
    ensures tag == Win <==> wp != "" && wp == id
    ensures tag == Loss <==> !(wp != "" && wp == id) && lp != "" && lp == id
    ensures tag == Save <==> !(wp != "" && wp == id) && !(lp != "" && lp == id) && save != "" && save == id
    ensures tag == NoDecision <==> !(wp != "" && wp == id) && !(lp != "" && lp == id) && !(save != "" && save == id)
  {
    if wp != "" && wp == id then Win
    else if lp != "" && lp == id then Loss
    else if save != "" && save == id then Save
    else NoDecision
  }

  /** At most one pitcher of a game is tagged with each decision, and none with two. */
  lemma DecisionUnique(id1: string, id2: string, wp: string, lp: string, save: string)
    requires id1 != id2
    requires Decision(id1, wp, lp, save) == Decision(id2, wp, lp, save)
    ensures Decision(id1, wp, lp, save) == NoDecision
  {
  }

  /** A count as printed in a column that is left blank for negative values. */
  function Shown(v: int): (c: Option<int>)
    ensures c.Some? <==> v >= 0
    ensures c.Some? ==> c.value == v
  {
    if v >= 0 then Some(v) else None
  }

  /** What `print_pitcher` prints: name column, innings pitched and the counts (blank when negative). */
  datatype PitcherLine = PitcherLine(name: string, ip: string, h: int, r: int, er: Option<int>,
                                     bb: Option<int>, so: Option<int>, pitches: Option<int>,
                                     strikes: Option<int>, gb: Option<int>, fb: Option<int>)

  function PitcherLineOf(name: string, p: Pitching): PitcherLine {
    PitcherLine(name, InningsPitched(p.outs), p.h, p.r, Shown(p.er), Shown(p.bb), Shown(p.so),
                Shown(p.pitches), Shown(p.strikes), Shown(p.gb), Shown(p.fb))
  }

  /** The name as decorated: decision tag, then the note marker when the pitcher is noted. */
  function MarkedName(name: string, p: BoxPitcher, wp: string, lp: string, save: string, n: nat): string {
    name + TagText(Decision(p.playerId, wp, lp, save)) + (if Noted(p.pitching) then Markers(n) else "")
  }

  /** The box-score printer object: it counts the pitchers' notes printed so far. */
  class ChadwickTools {
    var noteCount: nat

    constructor()
      ensures noteCount == 0
    {
      noteCount := 0;
    }

    /**
     * `print_pitcher`: `bio` is the roster's display name, `wp`/`lp`/`save` the game's
     * decision ids. A noted pitcher gets the marker of the current note count, which
     * then advances; no other pitcher changes it.
     */
    method PrintPitcher(p: BoxPitcher, bio: Option<string>, wp: string, lp: string, save: string)
        returns (line: PitcherLine)
      modifies this
      ensures noteCount == old(noteCount) + (if Noted(p.pitching) then 1 else 0)
      ensures line == PitcherLineOf(MarkedName(if bio.Some? then bio.value else p.name, p, wp, lp, save,
                                                old(noteCount)), p.pitching)
    {
      var name := if bio.Some? then bio.value else p.name;
      ghost var plain := name;
      if wp != "" && wp == p.playerId {
        name := name + " (W)";
      } else if lp != "" && lp == p.playerId {
        name := name + " (L)";
      } else if save != "" && save == p.playerId {
        name := name + " (S)";
      }
      assert name == plain + TagText(Decision(p.playerId, wp, lp, save));
      var pitching := p.pitching;
      if pitching.xbinn > 0 && pitching.xb > 0 {
        name := AppendMarker(name, noteCount);
        noteCount := noteCount + 1;
      }
      line := PitcherLineOf(name, pitching);
    }
  }

  // ---------------------------------------------------------------- DP / TP / LOB

  /**
   * The double-play and triple-play lines: nothing when both counts are 0; only the
   * visitors when they alone have a positive count and the home count is 0; only the
   * home team in the mirror case; both teams otherwise (negative counts included).
   */
  function PlaysLine(title: string, n0: int, n1: int, vis: string, home: string): (line: Option<string>)
    ensures line.None? <==> n0 == 0 && n1 == 0
    ensures n0 > 0 && n1 == 0 ==> line == Some(title + " -- " + vis + " " + IntToString(n0))
    ensures n0 == 0 && n1 > 0 ==> line == Some(title + " -- " + home + " " + IntToString(n1))
    ensures (n0 != 0 && n1 != 0) || n0 < 0 || n1 < 0 ==>
      line == Some(title + " -- " + vis + " " + IntToString(n0) + ", " + home + " " + IntToString(n1))
  {
    if n0 == 0 && n1 == 0 then None
    else if n0 > 0 && n1 == 0 then Some(title + " -- " + vis + " " + IntToString(n0))
    else if n0 == 0 && n1 > 0 then Some(title + " -- " + home + " " + IntToString(n1))
    else Some(title + " -- " + vis + " " + IntToString(n0) + ", " + home + " " + IntToString(n1))
  }

  /** The left-on-base line: nothing when both counts are 0, else both teams. */
  function LobLine(n0: int, n1: int, vis: string, home: string): (line: Option<string>)
    ensures line.None? <==> n0 == 0 && n1 == 0
    ensures line.Some? ==> line.value == "LOB -- " + vis + " " + IntToString(n0) + ", " + home + " " + IntToString(n1)
  {
    if n0 == 0 && n1 == 0 then None
    else Some("LOB -- " + vis + " " + IntToString(n0) + ", " + home + " " + IntToString(n1))
  }
}
