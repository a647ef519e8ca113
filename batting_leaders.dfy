/**
 * battingLeaders.py: counting stats for one batter gathered from the event-file
 * box scores (`collect_stats`) and, for games missing from them, from the
 * Retrosheet boxscore files (`check_boxscores`); the printed line with total
 * bases and the rate stats (`print_stat_line`); and the checked arguments
 * (`process_bl_input`).
 */
module BattingLeaders {
  import opened Common
  import opened BoxScore
  import opened Ledger

  /** The counting stats, in the order of the constants GM .. GDP. */
  datatype LeaderKey = GM | PA | AB | RUN | HIT | B2 | B3 | HR | XBH | RBI | SO | BB | IBB | SB | CS | SH | SF | HBP | GDP

  const KEYS: seq<LeaderKey> := [GM, PA, AB, RUN, HIT, B2, B3, HR, XBH, RBI, SO, BB, IBB, SB, CS, SH, SF, HBP, GDP]

  const ALL_KEYS: set<LeaderKey> := {GM, PA, AB, RUN, HIT, B2, B3, HR, XBH, RBI, SO, BB, IBB, SB, CS, SH, SF, HBP, GDP}

  /** The keys of STATS_DICT, in order: the 19 counting stats, then TB and the four rates. */
  const HEADERS: seq<string> := ["G ", "PA", "AB", "R ", "H ", "2B", "3B", "HR", "XBH", "RBI", "SO", "BB", "IBB",
                                 "SB", "CS", "SH", "SF", "HBP", "GDP", "TB", "BA", "OBP", "SLG", "OPS"]

  /** HEADERS[RBI], the stat used when the requested one is not a header. */
  const DEFAULT_STAT := "RBI"
  const MIN_LIMIT := 10
  const MAX_LIMIT := 120
  const DEFAULT_LIMIT := 30
  const DEFAULT_YEAR := 1954

  /** Every key is in the key lists the script iterates over (ALL_KEYS and KEYS). */
  lemma AllKeysListed()
    ensures forall k: LeaderKey :: k in ALL_KEYS && k in KEYS
  {
    forall k: LeaderKey
      ensures k in ALL_KEYS && k in KEYS
    {
      match k
      case GM => case PA => case AB => case RUN => case HIT => case B2 => case B3 => case HR => case XBH =>
      case RBI => case SO => case BB => case IBB => case SB => case CS => case SH => case SF => case HBP => case GDP =>
    }
  }

  /** A stats dictionary holding every counting key. */
  predicate Complete(stats: map<LeaderKey, int>) { forall k: LeaderKey :: k in stats }

  function Zeros(): (z: map<LeaderKey, int>)
    ensures Complete(z) && forall k :: z[k] == 0
  {
    AllKeysListed();
    Zero(ALL_KEYS)
  }

  /** XBH is kept as the sum of doubles, triples and home runs. */
  predicate XbhConsistent(stats: map<LeaderKey, int>)
    requires Complete(stats)
  {
    stats[XBH] == stats[B2] + stats[B3] + stats[HR]
  }

  // ---------------------------------------------------------------- event-file box scores

  /** What `collect_stats` adds to each key for one box-score line: XBH gets 2B + 3B + HR, RBI only a positive count. */
  function Gain(k: LeaderKey, b: Batting): int {
    match k
    case GM => b.g   case PA => b.pa  case AB => b.ab  case RUN => b.r  case HIT => b.h
    case B2 => b.b2  case B3 => b.b3  case HR => b.hr
    case XBH => b.b2 + b.b3 + b.hr
    case RBI => if b.bi > 0 then b.bi else 0
    case SO => b.so  case BB => b.bb  case IBB => b.ibb case SB => b.sb  case CS => b.cs
    case SH => b.sh  case SF => b.sf  case HBP => b.hp  case GDP => b.gdp
  }

  /** One matching line added in, key by key; the RBI count never goes down and XBH stays consistent. */
  function AddBox(stats: map<LeaderKey, int>, b: Batting): (r: map<LeaderKey, int>)
    requires Complete(stats)
    ensures Complete(r)
    ensures forall k :: r[k] - stats[k] == Gain(k, b)
    ensures r[RBI] >= stats[RBI] && (b.bi > 0 ==> r[RBI] == stats[RBI] + b.bi)
    ensures XbhConsistent(stats) ==> XbhConsistent(r)
  {
    map k | k in stats :: stats[k] + Gain(k, b)
  }

  /** The stats after the players `ps`, in order: the lines of those whose id is `id` are added. */
  function Collected(stats: map<LeaderKey, int>, ps: seq<BoxPlayer>, id: string): (r: map<LeaderKey, int>)
    requires Complete(stats)
    ensures Complete(r)
  {
    if ps == [] then stats
    else
      var c := Collected(stats, ps[..|ps| - 1], id);
      var last := ps[|ps| - 1];
      if last.playerId == id then AddBox(c, last.batting) else c
  }

  /** One more player visited: the player's line and game id count only for the batter. */
  lemma CollectStep(stats: map<LeaderKey, int>, ps: seq<BoxPlayer>, i: nat, id: string, gameId: string)
    requires Complete(stats) && i < |ps|
    ensures Collected(stats, ps[..i + 1], id)
         == if ps[i].playerId == id then AddBox(Collected(stats, ps[..i], id), ps[i].batting) else Collected(stats, ps[..i], id)
    ensures Copies(gameId, |Matching(ps[..i + 1], id)|)
         == Copies(gameId, |Matching(ps[..i], id)|) + (if ps[i].playerId == id then [gameId] else [])
  {
    assert ps[..i + 1][..i] == ps[..i];
  }

  /**
   * The loop of `collect_stats` over the visited players: each time the batter
   * turns up, the game id is recorded and the batter's line is added to the stats.
   */
  method CountBatter(ps: seq<BoxPlayer>, batId: string, gameId: string, stats0: map<LeaderKey, int>, ids0: seq<string>)
      returns (stats: map<LeaderKey, int>, ids: seq<string>)
    requires Complete(stats0) && XbhConsistent(stats0)
    ensures stats == Collected(stats0, ps, batId) && XbhConsistent(stats)
    ensures ids == ids0 + Copies(gameId, |Matching(ps, batId)|)
  {
    stats, ids := stats0, ids0;
    for i := 0 to |ps|
      invariant stats == Collected(stats0, ps[..i], batId)
      invariant ids == ids0 + Copies(gameId, |Matching(ps[..i], batId)|)
    {
      CollectStep(stats0, ps, i, batId, gameId);
      if ps[i].playerId == batId {
        ids := ids + [gameId];
        stats := AddBox(stats, ps[i].batting);
      }
    }
    assert ps[..|ps|] == ps;
    CollectedKeepsXbh(stats0, ps, batId);
  }

  /** A key's gain, as a function to sum. */
  function GainOf(k: LeaderKey): Batting -> int { b => Gain(k, b) }

  /** Adding up a game's lines keeps XBH equal to doubles plus triples plus home runs. */
  lemma {:induction false} CollectedKeepsXbh(stats: map<LeaderKey, int>, ps: seq<BoxPlayer>, id: string)
    requires Complete(stats) && XbhConsistent(stats)
    ensures XbhConsistent(Collected(stats, ps, id))
  {
    if ps != [] {
      CollectedKeepsXbh(stats, ps[..|ps| - 1], id);
    }
  }

  /** Only the matching batter's lines count: each key grows by the sum of its gains over the batter's appearances. */
  lemma {:induction false} CollectedIsSum(stats: map<LeaderKey, int>, ps: seq<BoxPlayer>, id: string)
    requires Complete(stats)
    ensures forall k :: Collected(stats, ps, id)[k] == stats[k] + Sum(Matching(ps, id), GainOf(k))
  {
    if ps != [] {
      var q := ps[..|ps| - 1];
      var last := ps[|ps| - 1];
      CollectedIsSum(stats, q, id);
      var m := Matching(q, id);
      if last.playerId == id {
        assert Matching(ps, id) == m + [last];
        assert (m + [last])[..|m|] == m;
      }
    }
  }

  /** `n` copies of a game id. */
  function Copies(gameId: string, n: nat): (s: seq<string>)
    ensures |s| == n && forall i :: 0 <= i < n ==> s[i] == gameId
  {
    seq(n, _ => gameId)
  }

  // ---------------------------------------------------------------- boxscore files

  /** The fields of a `bline` row after the batter id: ab, r, h, 2b, 3b, hr, rbi, sh, sf, hbp, bb, ibb, k, sb, cs, gidp, int. */
  datatype BLine = BLine(ab: int, r: int, h: int, b2: int, b3: int, hr: int, rbi: int, sh: int, sf: int,
                         hbp: int, bb: int, ibb: int, k: int, sb: int, cs: int, gidp: int, interference: int)

  /** A row of a boxscore file: an `id` row opening a game, a `bline` row for a batter, or any other row. */
  datatype BoxRow = GameRow(gameId: string) | BattingRow(playerId: string, line: BLine) | OtherRow

  /** What a counted `bline` adds to each key: one game, PA as the sum of its parts, RBI and IBB only when positive. */
  function LineGain(k: LeaderKey, l: BLine): int {
    match k
    case GM => 1
    case PA => l.ab + l.sh + l.sf + l.hbp + l.bb + l.interference
    case AB => l.ab  case RUN => l.r  case HIT => l.h
    case B2 => l.b2  case B3 => l.b3  case HR => l.hr
    case XBH => l.b2 + l.b3 + l.hr
    case RBI => if l.rbi > 0 then l.rbi else 0
    case SO => l.k   case BB => l.bb
    case IBB => if l.ibb > 0 then l.ibb else 0
    case SB => l.sb  case CS => l.cs  case SH => l.sh  case SF => l.sf  case HBP => l.hbp  case GDP => l.gidp
  }

  function AddLine(stats: map<LeaderKey, int>, l: BLine): (r: map<LeaderKey, int>)
    requires Complete(stats)
    ensures Complete(r)
    ensures r[GM] == stats[GM] + 1
    ensures r[PA] - stats[PA] == l.ab + l.sh + l.sf + l.hbp + l.bb + l.interference
    ensures r[IBB] >= stats[IBB] && r[RBI] >= stats[RBI]
    ensures forall k :: r[k] - stats[k] == LineGain(k, l)
    ensures XbhConsistent(stats) ==> XbhConsistent(r)
  {
    map k | k in stats :: stats[k] + LineGain(k, l)
  }

  /**
   * The rows of one file read from `rows` on with the flag `find`: an `id` row sets
   * the flag to whether the game is new (not among `seen`); a `bline` row of the
   * batter is counted while the flag is set, and clears it.
   */
  function ScanFile(stats: map<LeaderKey, int>, rows: seq<BoxRow>, find: bool, id: string, seen: seq<string>): (r: map<LeaderKey, int>)
    requires Complete(stats)
    ensures Complete(r)
  {
    if rows == [] then stats
    else match rows[0]
      case GameRow(g) => ScanFile(stats, rows[1..], g !in seen, id, seen)
      case BattingRow(p, l) =>
        if find && p == id then ScanFile(AddLine(stats, l), rows[1..], false, id, seen)
        else ScanFile(stats, rows[1..], find, id, seen)
      case OtherRow => ScanFile(stats, rows[1..], find, id, seen)
  }

  /** The files in turn, each starting with the flag cleared. */
  function ScanFiles(stats: map<LeaderKey, int>, files: seq<seq<BoxRow>>, id: string, seen: seq<string>): (r: map<LeaderKey, int>)
    requires Complete(stats)
    ensures Complete(r)
  {
    if files == [] then stats else ScanFiles(ScanFile(stats, files[0], false, id, seen), files[1..], id, seen)
  }

  /** The number of `id` rows opening games not among `seen`. */
  function NewGames(rows: seq<BoxRow>, seen: seq<string>): nat {
    if rows == [] then 0
    else (if rows[0].GameRow? && rows[0].gameId !in seen then 1 else 0) + NewGames(rows[1..], seen)
  }

  /**
   * At most one `bline` is counted per new game (plus one for a game left open when
   * the scan starts): the games count grows by no more than that.
   */
  lemma {:induction false} AtMostOnePerNewGame(stats: map<LeaderKey, int>, rows: seq<BoxRow>, find: bool, id: string, seen: seq<string>)
    requires Complete(stats)
    ensures stats[GM] <= ScanFile(stats, rows, find, id, seen)[GM] <= stats[GM] + NewGames(rows, seen) + (if find then 1 else 0)
  {
    if rows != [] {
      match rows[0]
      case GameRow(g) => AtMostOnePerNewGame(stats, rows[1..], g !in seen, id, seen);
      case BattingRow(p, l) =>
        if find && p == id {
          AtMostOnePerNewGame(AddLine(stats, l), rows[1..], false, id, seen);
        } else {
          AtMostOnePerNewGame(stats, rows[1..], find, id, seen);
        }
      case OtherRow => AtMostOnePerNewGame(stats, rows[1..], find, id, seen);
    }
  }

  /** A file whose games were all found in the event files adds nothing. */
  lemma {:induction false} SeenGamesAddNothing(stats: map<LeaderKey, int>, rows: seq<BoxRow>, id: string, seen: seq<string>)
    requires Complete(stats)
    requires forall i :: 0 <= i < |rows| && rows[i].GameRow? ==> rows[i].gameId in seen
    ensures ScanFile(stats, rows, false, id, seen) == stats
  {
    if rows != [] {
      assert forall i :: 0 <= i < |rows| - 1 ==> rows[1..][i] == rows[i + 1];
      SeenGamesAddNothing(stats, rows[1..], id, seen);
    }
  }

  /** Reading the boxscore files keeps XBH consistent. */
  lemma {:induction false} ScanKeepsXbh(stats: map<LeaderKey, int>, rows: seq<BoxRow>, find: bool, id: string, seen: seq<string>)
    requires Complete(stats) && XbhConsistent(stats)
    ensures XbhConsistent(ScanFile(stats, rows, find, id, seen))
  {
    if rows != [] {
      match rows[0]
      case GameRow(g) => ScanKeepsXbh(stats, rows[1..], g !in seen, id, seen);
      case BattingRow(p, l) =>
        if find && p == id {
          ScanKeepsXbh(AddLine(stats, l), rows[1..], false, id, seen);
        } else {
          ScanKeepsXbh(stats, rows[1..], find, id, seen);
        }
      case OtherRow => ScanKeepsXbh(stats, rows[1..], find, id, seen);
    }
  }

  lemma {:induction false} ScanFilesKeepsXbh(stats: map<LeaderKey, int>, files: seq<seq<BoxRow>>, id: string, seen: seq<string>)
    requires Complete(stats) && XbhConsistent(stats)
    ensures XbhConsistent(ScanFiles(stats, files, id, seen))
  {
    if files != [] {
      ScanKeepsXbh(stats, files[0], false, id, seen);
      ScanFilesKeepsXbh(ScanFile(stats, files[0], false, id, seen), files[1..], id, seen);
    }
  }

  // ---------------------------------------------------------------- the printed line

  /** A count as printed: itself when positive, otherwise 0. */
  function Shown(v: int): (s: nat)
    ensures s == v || (s == 0 && v <= 0)
    ensures v > 0 ==> s == v
  {
    if v > 0 then v else 0
  }

  /** Total bases: a hit counts one, and doubles, triples and home runs add 1, 2 and 3 more. */
  function TotalBases(stats: map<LeaderKey, int>): (tb: int)
    requires Complete(stats)
  {
    stats[HIT] + stats[B2] + stats[B3] * 2 + stats[HR] * 3
  }

  /**
   * Total bases are the bases of each kind of hit: singles once, doubles twice,
   * triples three and home runs four times; so with non-negative counts they are
   * at least the hits.
   */
  lemma TotalBasesByHit(stats: map<LeaderKey, int>)
    requires Complete(stats)
    ensures var singles := stats[HIT] - stats[B2] - stats[B3] - stats[HR];
      TotalBases(stats) == singles + 2 * stats[B2] + 3 * stats[B3] + 4 * stats[HR]
    ensures stats[B2] >= 0 && stats[B3] >= 0 && stats[HR] >= 0 ==> TotalBases(stats) >= stats[HIT]
  {
  }

  /** A quotient of a non-negative part over a larger positive whole lies in [0, 1]. */
  lemma Ratio(a: real, b: real)
    requires b > 0.0
    ensures (a / b) * b == a
    ensures 0.0 <= a <= b ==> 0.0 <= a / b <= 1.0
  {
    var q := a / b;
    assert q * b == a;
    if 0.0 <= a <= b {
      assert q >= 0.0;
      assert q <= 1.0;
    }
  }

  /** BA = H / AB, 0 without at-bats. */
  function BattingAverage(stats: map<LeaderKey, int>): (ba: real)
    requires Complete(stats)
    ensures stats[AB] > 0 ==> ba * stats[AB] as real == stats[HIT] as real
    ensures stats[AB] <= 0 ==> ba == 0.0
    ensures 0 <= stats[HIT] <= stats[AB] ==> 0.0 <= ba <= 1.0
  {
    if stats[AB] > 0 then
      Ratio(stats[HIT] as real, stats[AB] as real);
      stats[HIT] as real / stats[AB] as real
    else 0.0
  }

  /** OBP = (H + BB + HBP) / (AB + BB + HBP + SF), 0 when the denominator is 0. */
  function OnBase(stats: map<LeaderKey, int>): (obp: real)
    requires Complete(stats)
    ensures var num := stats[HIT] + stats[BB] + stats[HBP];
      var denom := stats[AB] + stats[BB] + stats[HBP] + stats[SF];
      (denom > 0 ==> obp * denom as real == num as real) && (denom <= 0 ==> obp == 0.0)
      && (0 <= num <= denom ==> 0.0 <= obp <= 1.0)
  {
    var num := stats[HIT] + stats[BB] + stats[HBP];
    var denom := stats[AB] + stats[BB] + stats[HBP] + stats[SF];
    if denom > 0 then
      Ratio(num as real, denom as real);
      num as real / denom as real
    else 0.0
  }

  /** SLG = TB / AB, 0 without at-bats. */
  function Slugging(stats: map<LeaderKey, int>): (slg: real)
    requires Complete(stats)
    ensures stats[AB] > 0 ==> slg * stats[AB] as real == TotalBases(stats) as real
    ensures stats[AB] <= 0 ==> slg == 0.0
  {
    if stats[AB] > 0 then
      Ratio(TotalBases(stats) as real, stats[AB] as real);
      TotalBases(stats) as real / stats[AB] as real
    else 0.0
  }

  /** With consistent counts (no more hits than at-bats, extra-base hits among the hits) SLG is between BA and 4. */
  lemma SluggingBounds(stats: map<LeaderKey, int>)
    requires Complete(stats) && stats[AB] > 0
    requires 0 <= stats[B2] && 0 <= stats[B3] && 0 <= stats[HR]
    requires stats[B2] + stats[B3] + stats[HR] <= stats[HIT] <= stats[AB]
    ensures BattingAverage(stats) <= Slugging(stats) <= 4.0
  {
    TotalBasesByHit(stats);
    var h, tb := stats[HIT], TotalBases(stats);
    assert h <= tb <= 4 * stats[AB];
    QuotientOrder(BattingAverage(stats), Slugging(stats), stats[AB] as real, h as real, tb as real);
  }

  /** Two quotients over the same positive whole are ordered like their parts, and one of at most four wholes is at most 4. */
  lemma QuotientOrder(ba: real, slg: real, ab: real, h: real, tb: real)
    requires ab > 0.0 && ba * ab == h && slg * ab == tb && h <= tb <= 4.0 * ab
    ensures ba <= slg <= 4.0
  {
    Cancel(ba, slg, ab);
    Cancel(slg, 4.0, ab);
  }

  /** Dividing both sides of an inequality by a positive factor. */
  lemma Cancel(x: real, y: real, c: real)
    requires c > 0.0 && x * c <= y * c
    ensures x <= y
  {
    assert (y - x) * c == y * c - x * c;
  }

  /** The line `print_stat_line` prints: the shown counts in key order, TB, then BA, OBP, SLG and OPS (before rounding). */
  datatype LeaderLine = LeaderLine(caption: string, counts: seq<nat>, tb: nat, ba: real, obp: real, slg: real, ops: real)

  function LineOf(caption: string, stats: map<LeaderKey, int>): (line: LeaderLine)
    requires Complete(stats)
    ensures line.caption == caption && |line.counts| == |KEYS|
    ensures forall i :: 0 <= i < |KEYS| ==> line.counts[i] == Shown(stats[KEYS[i]])
    ensures line.tb == Shown(TotalBases(stats))
    ensures line.ba == BattingAverage(stats) && line.obp == OnBase(stats) && line.slg == Slugging(stats)
    ensures line.ops == line.obp + line.slg
  {
    var obp, slg := OnBase(stats), Slugging(stats);
    LeaderLine(caption, seq(|KEYS|, i requires 0 <= i < |KEYS| => Shown(stats[KEYS[i]])), Shown(TotalBases(stats)),
               BattingAverage(stats), obp, slg, obp + slg)
  }

  // ---------------------------------------------------------------- the object

  /** The object's counters: this year's stats, the totals, the games found this year and the active years. */
  class PrintBattingLeaders {
    var stats: map<LeaderKey, int>
    var totals: map<LeaderKey, int>
    var gameIds: seq<string>
    var numYears: nat

    predicate Valid()
      reads this
    {
      Complete(stats) && Complete(totals) && XbhConsistent(stats)
    }

    /** Both dictionaries start as copies of the all-zero STATS_DICT. */
    constructor ()
      ensures Valid() && stats == Zeros() && totals == Zeros() && gameIds == [] && numYears == 0
    {
      stats, totals := Zeros(), Zeros();
      gameIds, numYears := [], 0;
    }

    /**
     * `collect_stats`: walk both lineups; for each appearance of `batId` record the
     * game id and add the line. Nothing else changes.
     */
    method CollectStats(g: BoxGame, batId: string, gameId: string)
      requires Valid() && ValidGame(g)
      modifies this
      ensures Valid()
      ensures stats == Collected(old(stats), GamePlayers(g), batId)
      ensures gameIds == old(gameIds) + Copies(gameId, |Matching(GamePlayers(g), batId)|)
      ensures totals == old(totals) && numYears == old(numYears)
    {
      var visited := WalkBoth(g.vis, g.home);
      stats, gameIds := CountBatter(visited, batId, gameId, stats, gameIds);
    }

    /**
     * `check_boxscores` over the rows of the year's boxscore files: in each file
     * the flag starts cleared; an `id` row sets it iff the game is not among the
     * games already found; the batter's `bline` row is counted while it is set and
     * clears it. Only the stats change.
     */
    method CheckBoxscores(files: seq<seq<BoxRow>>, batId: string)
      requires Valid()
      modifies this
      ensures Valid()
      ensures stats == ScanFiles(old(stats), files, batId, gameIds)
      ensures totals == old(totals) && gameIds == old(gameIds) && numYears == old(numYears)
    {
      ghost var goal := ScanFiles(stats, files, batId, gameIds);
      ScanFilesKeepsXbh(stats, files, batId, gameIds);
      for i := 0 to |files|
        invariant Complete(stats) && Complete(totals)
        invariant totals == old(totals) && gameIds == old(gameIds) && numYears == old(numYears)
        invariant ScanFiles(stats, files[i..], batId, gameIds) == goal
      {
        assert files[i..][1..] == files[i + 1..];
        var rows := files[i];
        var find := false;
        for j := 0 to |rows|
          invariant Complete(stats) && Complete(totals)
          invariant totals == old(totals) && gameIds == old(gameIds) && numYears == old(numYears)
          invariant ScanFiles(ScanFile(stats, rows[j..], find, batId, gameIds), files[i + 1..], batId, gameIds) == goal
        {
          assert rows[j..][1..] == rows[j + 1..];
          match rows[j]
          case GameRow(current) =>
            find := current !in gameIds;
          case BattingRow(p, l) =>
            if find && p == batId {
              stats := AddLine(stats, l);
              find := false;
            }
          case OtherRow =>
        }
      }
    }

    /**
     * `print_stat_line`: the line for this year's stats, or for the totals when the
     * caption is the total label; a year line with games counts one more active year.
     */
    method PrintStatLine(year: string, totalLabel: string) returns (line: LeaderLine)
      requires Valid()
      modifies this
      ensures stats == old(stats) && totals == old(totals) && gameIds == old(gameIds)
      ensures line == LineOf(year, if year == totalLabel then totals else stats)
      ensures numYears == old(numYears) + (if year != totalLabel && stats[GM] > 0 then 1 else 0)
    {
      var batStats := if year == totalLabel then totals else stats;
      line := LineOf(year, batStats);
      if year != totalLabel && batStats[GM] > 0 {
        numYears := numYears + 1;
      }
    }
  }

  // ---------------------------------------------------------------- arguments

  /** The checked arguments: the stat to rank by, the year range and the number of players. */
  datatype LeaderArgs = LeaderArgs(stat: string, start: int, end: int, limit: int)

  /**
   * `process_bl_input` over the argument values: an unknown stat becomes RBI, a limit
   * outside [10, 120] becomes 30, a start outside [firstYear, lastYear] becomes 1954,
   * and the end is kept only when given (non-zero), in range and not before the
   * start, otherwise it is the start.
   */
  function LeaderParams(stat: string, limit: int, start: int, end: Option<int>, firstYear: int, lastYear: int): (a: LeaderArgs)
    ensures a.stat in HEADERS && (stat in HEADERS <==> a.stat == stat)
    ensures MIN_LIMIT <= a.limit <= MAX_LIMIT && (MIN_LIMIT <= limit <= MAX_LIMIT <==> a.limit == limit)
    ensures a.start == (if firstYear <= start <= lastYear then start else DEFAULT_YEAR)
    ensures a.start <= a.end
    ensures end.Some? && end.value != 0 && firstYear <= end.value <= lastYear && end.value >= a.start ==> a.end == end.value
    ensures !(end.Some? && end.value != 0 && firstYear <= end.value <= lastYear && end.value >= a.start) ==> a.end == a.start
    ensures a.end == a.start || (end.Some? && a.end == end.value && firstYear <= a.end <= lastYear)
  {
    var s := if stat in HEADERS then stat else DEFAULT_STAT;
    var l := if MIN_LIMIT <= limit <= MAX_LIMIT then limit else DEFAULT_LIMIT;
    var st := if firstYear <= start <= lastYear then start else DEFAULT_YEAR;
    var e := if end.Some? && end.value != 0 && firstYear <= end.value <= lastYear && end.value >= st then end.value else st;
    LeaderArgs(s, st, e, l)
  }

  /** Checking the checked arguments again changes nothing. */
  lemma LeaderParamsIdempotent(stat: string, limit: int, start: int, end: Option<int>, firstYear: int, lastYear: int)
    ensures var a := LeaderParams(stat, limit, start, end, firstYear, lastYear);
      LeaderParams(a.stat, a.limit, a.start, Some(a.end), firstYear, lastYear) == a
  {
  }
}
