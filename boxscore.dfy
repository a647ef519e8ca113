/**
 * The box score the native library builds for one game, as the scripts read it,
 * and the lineup walk they all share: batting slots 1..9 in order, each slot's
 * starter followed by the substitutes who replaced the starter, empty slots skipped.
 */
module BoxScore {
  import opened Common

  /** A batter's counting statistics for one game; `bi` is -1 when RBI were not recorded. */
  datatype Batting = Batting(g: int, pa: int, ab: int, r: int, h: int, b2: int, b3: int, hr: int,
                             bi: int, bb: int, ibb: int, so: int, sb: int, cs: int,
                             sh: int, sf: int, hp: int, gdp: int)

  /**
   * A player in the lineup: `positions[..numPositions]` are the positions played
   * (indices into the position names), `phInn`/`prInn` the innings in which the player
   * entered as pinch hitter or pinch runner (0 if not).
   */
  datatype BoxPlayer = BoxPlayer(playerId: string, name: string, phInn: int, prInn: int,
                                 positions: seq<int>, numPositions: nat, batting: Batting)

  /** One team's lineup: for each slot 1..9, the starter followed by the starter's substitutes. */
  type Lineup = seq<seq<BoxPlayer>>

  /** Nine slots, and a starter in slot 1 (the walk reads it without a check). */
  predicate ValidLineup(side: Lineup) { |side| == 9 && side[0] != [] }

  function Flatten<T>(chains: seq<seq<T>>): seq<T> {
    if chains == [] then [] else chains[0] + Flatten(chains[1..])
  }

  lemma {:induction false} FlattenSnoc<T>(chains: seq<seq<T>>, c: seq<T>)
    ensures Flatten(chains + [c]) == Flatten(chains) + c
  {
    if chains == [] {
      assert Flatten([c]) == c + Flatten([c][1..]);
    } else {
      assert (chains + [c])[1..] == chains[1..] + [c];
      FlattenSnoc(chains[1..], c);
    }
  }

  /** Two teams' chains flatten to the visitors' followed by the home team's. */
  lemma FlattenPair<T>(chains: seq<seq<T>>)
    requires |chains| == 2
    ensures Flatten(chains) == chains[0] + chains[1]
  {
    assert chains[1..][1..] == [];
    assert Flatten(chains[1..]) == chains[1] + Flatten(chains[1..][1..]);
  }

  /** The players still to visit when the walk stands at `side[slot - 1][pos]`. */
  function Rest(side: Lineup, slot: nat, pos: nat): seq<BoxPlayer>
    requires |side| == 9 && 1 <= slot <= 10
    requires slot <= 9 ==> pos <= |side[slot - 1]|
  {
    if slot <= 9 then side[slot - 1][pos..] + Flatten(side[slot..]) else []
  }

  /**
   * The walk of `print_text` and of every `collect_stats`: start at slot 1's starter,
   * follow the chain of substitutes, and when it ends move to the next slot that has
   * a starter. The players are visited in slot order, each chain in order.
   */
  method Walk(side: Lineup) returns (visited: seq<BoxPlayer>)
    requires ValidLineup(side)
    ensures visited == Flatten(side)
  {
    var slot: nat, pos: nat := 1, 0;  // the current player is side[slot - 1][pos]
    visited := [];
    RestStart(side);
    ghost var rest := Rest(side, slot, pos);
    while slot <= 9
      invariant 1 <= slot <= 10 && (slot <= 9 ==> pos < |side[slot - 1]|)
      invariant rest == Rest(side, slot, pos)
      invariant visited + rest == Flatten(side)
      decreases |rest|
    {
      // take the current player, then follow the chain or move to the next starter
      var p;
      p, slot, pos := Step(side, slot, pos);
      ShiftOne(visited, p, Rest(side, slot, pos));
      visited, rest := visited + [p], Rest(side, slot, pos);
    }
  }

  lemma RestStep(side: Lineup, slot: nat, pos: nat)
    requires |side| == 9 && 1 <= slot <= 9 && pos < |side[slot - 1]|
    ensures Rest(side, slot, pos) == [side[slot - 1][pos]] + Rest(side, slot, pos + 1)
  {
    TakeFirst(side[slot - 1], pos, Flatten(side[slot..]));
  }

  lemma TakeFirst<T>(chain: seq<T>, pos: nat, later: seq<T>)
    requires pos < |chain|
    ensures chain[pos..] + later == [chain[pos]] + (chain[pos + 1..] + later)
  {
    assert chain[pos..] == [chain[pos]] + chain[pos + 1..];
  }

  /** At the end of a chain the rest is the later slots. */
  lemma ChainEnd(side: Lineup, slot: nat)
    requires |side| == 9 && 1 <= slot <= 9
    ensures Rest(side, slot, |side[slot - 1]|) == Flatten(side[slot..])
  {
    assert side[slot - 1][|side[slot - 1]|..] == [];
  }

  /**
   * The inner loop of the walk: advance past the slots whose starter is missing.
   * The players after slot `slot` are exactly those from the slot it stops at.
   */
  method NextStarter(side: Lineup, slot: nat) returns (next: nat)
    requires |side| == 9 && 1 <= slot <= 9
    ensures slot < next <= 10
    ensures next <= 9 ==> side[next - 1] != []
    ensures forall i :: slot <= i < next - 1 ==> side[i] == []
    ensures Flatten(side[slot..]) == Rest(side, next, 0)
  {
    next := slot;
    var present := false;
    while next <= 9 && !present
      invariant slot <= next <= 10
      invariant present ==> slot < next <= 9 && side[next - 1] != []
      invariant forall i :: slot <= i < next - 1 ==> side[i] == []
      invariant !present && slot < next <= 9 ==> side[next - 1] == []
      invariant present ==> Flatten(side[slot..]) == Rest(side, next, 0)
      invariant !present && next <= 9 ==> Flatten(side[slot..]) == Flatten(side[next..])
      invariant !present && next == 10 ==> Flatten(side[slot..]) == []
      decreases 10 - next, if present then 0 else 1
    {
      next := next + 1;
      if next <= 9 {
        assert Flatten(side[next - 1..]) == side[next - 1] + Flatten(side[next..]);
        present := side[next - 1] != [];
      }
    }
  }

  /**
   * The two teams' players taken in turn, visitors first; once one team's list is
   * used up, the rest of the other's.
   */
  function Interleave<T>(a: seq<T>, b: seq<T>): (r: seq<T>)
    ensures |r| == |a| + |b|
    decreases |a| + |b|
  {
    if a == [] then b else [a[0]] + Interleave(b, a[1..])
  }

  lemma InterleaveNil<T>(a: seq<T>)
    ensures Interleave(a, []) == a
  {
    if a != [] {
      assert Interleave(a, []) == [a[0]] + Interleave([], a[1..]);
    }
  }

  /** Interleaving loses and adds no player: it is a reordering of the two lists together. */
  lemma {:induction false} InterleavePermutes<T>(a: seq<T>, b: seq<T>)
    ensures multiset(Interleave(a, b)) == multiset(a) + multiset(b)
    decreases |a| + |b|
  {
    if a != [] {
      InterleavePermutes(b, a[1..]);
      assert a == [a[0]] + a[1..];
    }
  }

  /**
   * One step of a walk standing at `side[slot - 1][pos]`: take that player and move
   * on along the chain, or to the next slot with a starter when the chain ends.
   */
  method Step(side: Lineup, slot: nat, pos: nat) returns (p: BoxPlayer, slot': nat, pos': nat)
    requires |side| == 9 && 1 <= slot <= 9 && pos < |side[slot - 1]|
    ensures 1 <= slot' <= 10 && (slot' <= 9 ==> pos' < |side[slot' - 1]|)
    ensures Rest(side, slot, pos) == [p] + Rest(side, slot', pos')
  {
    p := side[slot - 1][pos];
    RestStep(side, slot, pos);
    slot', pos' := slot, pos + 1;
    if pos' == |side[slot - 1]| {
      ChainEnd(side, slot);
      slot' := NextStarter(side, slot);
      pos' := 0;
    }
  }

  lemma RestStart(side: Lineup)
    requires ValidLineup(side)
    ensures Rest(side, 1, 0) == Flatten(side)
  {
    assert side[0][0..] == side[0];
    assert side[1..] == side[1..];
  }

  /** Visiting the first of `ra` hands the turn to the other team. */
  lemma VisitTurn<T>(visited: seq<T>, ra: seq<T>, rb: seq<T>, goal: seq<T>)
    requires ra != [] && visited + Interleave(ra, rb) == goal
    ensures (visited + [ra[0]]) + Interleave(rb, ra[1..]) == goal
  {
    ShiftOne(visited, ra[0], Interleave(rb, ra[1..]));
  }

  /** A team with no players left passes its turn. */
  lemma SkipTurn<T>(visited: seq<T>, rb: seq<T>, goal: seq<T>)
    requires visited + Interleave([], rb) == goal
    ensures visited + Interleave(rb, []) == goal
  {
    InterleaveNil(rb);
  }

  /**
   * The walk of every season script's `collect_stats`: both teams at once, each
   * round visiting the visitors' current player and then the home team's, a team
   * whose slots are exhausted being skipped, until both are past slot 9.
   */
  method WalkBoth(vis: Lineup, home: Lineup) returns (visited: seq<BoxPlayer>)
    requires ValidLineup(vis) && ValidLineup(home)
    ensures visited == Interleave(Flatten(vis), Flatten(home))
  {
    var s0: nat, p0: nat, s1: nat, p1: nat := 1, 0, 1, 0;  // slots[t] and the place in that slot's chain
    visited := [];
    RestStart(vis);
    RestStart(home);
    ghost var goal := Interleave(Flatten(vis), Flatten(home));
    ghost var ra, rb := Rest(vis, s0, p0), Rest(home, s1, p1);
    while s0 <= 9 || s1 <= 9
      invariant 1 <= s0 <= 10 && (s0 <= 9 ==> p0 < |vis[s0 - 1]|)
      invariant 1 <= s1 <= 10 && (s1 <= 9 ==> p1 < |home[s1 - 1]|)
      invariant ra == Rest(vis, s0, p0) && rb == Rest(home, s1, p1)
      invariant visited + Interleave(ra, rb) == goal
      decreases |ra| + |rb|
    {
      s0, p0, visited, ra := Turn(vis, s0, p0, visited, ra, rb, goal);  // t = 0: the visitors
      s1, p1, visited, rb := Turn(home, s1, p1, visited, rb, ra, goal);  // t = 1: the home team
    }
  }

  /**
   * One team's turn in a round of the walk: visit its current player and move on
   * along the chain, or pass when the team is past slot 9. Either way the other
   * team is next.
   */
  method Turn(side: Lineup, slot: nat, pos: nat, visited: seq<BoxPlayer>, ghost ra: seq<BoxPlayer>, ghost rb: seq<BoxPlayer>,
              ghost goal: seq<BoxPlayer>)
    returns (slot': nat, pos': nat, visited': seq<BoxPlayer>, ghost ra': seq<BoxPlayer>)
    requires |side| == 9 && 1 <= slot <= 10 && (slot <= 9 ==> pos < |side[slot - 1]|)
    requires ra == Rest(side, slot, pos) && visited + Interleave(ra, rb) == goal
    ensures 1 <= slot' <= 10 && (slot' <= 9 ==> pos' < |side[slot' - 1]|)
    ensures ra' == Rest(side, slot', pos') && visited' + Interleave(rb, ra') == goal
    ensures |ra'| <= |ra| && (slot <= 9 ==> |ra'| < |ra|)
  {
    if slot <= 9 {
      var p;
      p, slot', pos' := Step(side, slot, pos);
      VisitTurn(visited, ra, rb, goal);
      visited', ra' := visited + [p], Rest(side, slot', pos');
    } else {
      slot', pos', visited', ra' := slot, pos, visited, ra;
      SkipTurn(visited, rb, goal);
    }
  }

  /** A game's box score as the season scripts read it: the two lineups. */
  datatype BoxGame = BoxGame(vis: Lineup, home: Lineup)

  predicate ValidGame(g: BoxGame) { ValidLineup(g.vis) && ValidLineup(g.home) }

  /** Every game of every year has two valid lineups. */
  predicate ValidEvents(events: map<int, seq<BoxGame>>) {
    forall y, i :: y in events && 0 <= i < |events[y]| ==> ValidGame(events[y][i])
  }

  /** The players a game's walk visits, in the order `collect_stats` visits them. */
  function GamePlayers(g: BoxGame): seq<BoxPlayer> { Interleave(Flatten(g.vis), Flatten(g.home)) }

  /** The sum of one batting field over the players, in order. */
  function Sum(ps: seq<BoxPlayer>, f: Batting -> int): int {
    if ps == [] then 0 else Sum(ps[..|ps| - 1], f) + f(ps[|ps| - 1].batting)
  }

  lemma {:induction false} SumAppend(ps: seq<BoxPlayer>, qs: seq<BoxPlayer>, f: Batting -> int)
    ensures Sum(ps + qs, f) == Sum(ps, f) + Sum(qs, f)
  {
    if qs == [] {
      assert ps + qs == ps;
    } else {
      assert (ps + qs)[..|ps + qs| - 1] == ps + qs[..|qs| - 1];
      assert (ps + qs)[|ps + qs| - 1] == qs[|qs| - 1];
      SumAppend(ps, qs[..|qs| - 1], f);
    }
  }

  /** One step of the RBI accumulator: the -1 sentinel overwrites it, anything else is added. */
  function RbiStep(acc: int, bi: int): int { if bi != -1 then acc + bi else -1 }

  /** The RBI accumulator after the players, starting from `acc`. */
  function RbiFrom(acc: int, ps: seq<BoxPlayer>): int {
    if ps == [] then acc else RbiStep(RbiFrom(acc, ps[..|ps| - 1]), ps[|ps| - 1].batting.bi)
  }

  /** The last player whose `bi` is the sentinel -1, if any. */
  function LastSentinel(ps: seq<BoxPlayer>): (k: Option<nat>)
    ensures k.Some? ==> k.value < |ps| && ps[k.value].batting.bi == -1
    ensures k.Some? ==> forall j :: k.value < j < |ps| ==> ps[j].batting.bi != -1
    ensures k.None? ==> forall j :: 0 <= j < |ps| ==> ps[j].batting.bi != -1
  {
    if ps == [] then None
    else if ps[|ps| - 1].batting.bi == -1 then Some(|ps| - 1)
    else LastSentinel(ps[..|ps| - 1])
  }

  function Bi(b: Batting): int { b.bi }

  /**
   * The RBI accumulator is the plain sum when no player has the sentinel; otherwise
   * it is -1 plus the RBI of the players after the last sentinel, who are still added.
   */
  lemma {:induction false} RbiSentinel(acc: int, ps: seq<BoxPlayer>)
    ensures LastSentinel(ps).None? ==> RbiFrom(acc, ps) == acc + Sum(ps, Bi)
    ensures LastSentinel(ps).Some? ==>
      RbiFrom(acc, ps) == -1 + Sum(ps[LastSentinel(ps).value + 1..], Bi)
  {
    if ps != [] {
      var q := ps[..|ps| - 1];
      RbiSentinel(acc, q);
      if ps[|ps| - 1].batting.bi != -1 && LastSentinel(q).Some? {
        var j := LastSentinel(q).value;
        assert ps[j + 1..][..|ps[j + 1..]| - 1] == q[j + 1..];
      }
    }
  }

  /** The players whose id is `id`, in order. */
  function Matching(ps: seq<BoxPlayer>, id: string): (m: seq<BoxPlayer>)
    ensures |m| <= |ps|
    ensures forall j :: 0 <= j < |m| ==> m[j].playerId == id
  {
    if ps == [] then []
    else
      var m := Matching(ps[..|ps| - 1], id);
      var last := ps[|ps| - 1];
      if last.playerId == id then m + [last] else m
  }

  /** Some appearance is kept exactly when the id appears at all. */
  lemma {:induction false} MatchingNonEmpty(ps: seq<BoxPlayer>, id: string)
    ensures (exists j :: 0 <= j < |ps| && ps[j].playerId == id) <==> Matching(ps, id) != []
  {
    if ps != [] {
      var q := ps[..|ps| - 1];
      MatchingNonEmpty(q, id);
      assert forall j :: 0 <= j < |q| ==> ps[j] == q[j];
    }
  }

  lemma {:induction false} MatchingAppend(ps: seq<BoxPlayer>, qs: seq<BoxPlayer>, id: string)
    ensures Matching(ps + qs, id) == Matching(ps, id) + Matching(qs, id)
  {
    if qs == [] {
      assert ps + qs == ps;
    } else {
      assert (ps + qs)[..|ps + qs| - 1] == ps + qs[..|qs| - 1];
      MatchingAppend(ps, qs[..|qs| - 1], id);
    }
  }

  /**
   * Summing a field over one player's appearances in the interleaved walk gives the
   * same as summing over the visitors and then the home team.
   */
  lemma {:induction false} SumMatchingInterleave(a: seq<BoxPlayer>, b: seq<BoxPlayer>, id: string, f: Batting -> int)
    ensures Sum(Matching(Interleave(a, b), id), f) == Sum(Matching(a, id), f) + Sum(Matching(b, id), f)
    decreases |a| + |b|
  {
    if a != [] {
      var rest := Interleave(b, a[1..]);
      SumMatchingInterleave(b, a[1..], id, f);
      MatchingAppend([a[0]], rest, id);
      SumAppend(Matching([a[0]], id), Matching(rest, id), f);
      assert a == [a[0]] + a[1..];
      MatchingAppend([a[0]], a[1..], id);
      SumAppend(Matching([a[0]], id), Matching(a[1..], id), f);
    }
  }

  /** Team totals of the box score's text section; `bi` carries the -1 sentinel. */
  datatype Totals = Totals(ab: int, r: int, h: int, bb: int, pa: int, so: int, bi: int)

  function AB(b: Batting): int { b.ab }
  function R(b: Batting): int { b.r }
  function H(b: Batting): int { b.h }
  function BB(b: Batting): int { b.bb }
  function PA(b: Batting): int { b.pa }
  function SO(b: Batting): int { b.so }

  /**
   * The walk of `print_text` with its running totals: every visited player's
   * counts are added and the RBI total follows the -1 sentinel rule.
   */
  method LineupTotals(side: Lineup) returns (t: Totals)
    requires ValidLineup(side)
    ensures t.ab == Sum(Flatten(side), AB) && t.r == Sum(Flatten(side), R)
    ensures t.h == Sum(Flatten(side), H) && t.bb == Sum(Flatten(side), BB)
    ensures t.pa == Sum(Flatten(side), PA) && t.so == Sum(Flatten(side), SO)
    ensures t.bi == RbiFrom(0, Flatten(side))
  {
    var visited := Walk(side);
    t := Totals(0, 0, 0, 0, 0, 0, 0);
    var i := 0;
    while i < |visited|
      invariant 0 <= i <= |visited|
      invariant t.ab == Sum(visited[..i], AB) && t.r == Sum(visited[..i], R)
      invariant t.h == Sum(visited[..i], H) && t.bb == Sum(visited[..i], BB)
      invariant t.pa == Sum(visited[..i], PA) && t.so == Sum(visited[..i], SO)
      invariant t.bi == RbiFrom(0, visited[..i])
    {
      var b := visited[i].batting;
      assert visited[..i + 1][..i] == visited[..i];
      t := t.(ab := t.ab + b.ab, r := t.r + b.r, h := t.h + b.h, bb := t.bb + b.bb,
               pa := t.pa + b.pa, so := t.so + b.so,
               bi := if b.bi != -1 then t.bi + b.bi else -1);
      i := i + 1;
    }
    assert visited[..i] == visited;
  }

  /** A pitcher's line for one game; `xbinn`/`xb` record an inning left without an out. */
  datatype Pitching = Pitching(g: int, gs: int, cg: int, sho: int, gf: int, outs: int,
                               h: int, r: int, er: int, hr: int, bb: int, ibb: int, so: int,
                               bf: int, bk: int, wp: int, hb: int, gb: int, fb: int,
                               pitches: int, strikes: int, w: int, l: int, sv: int,
                               xbinn: int, xb: int)

  datatype BoxPitcher = BoxPitcher(playerId: string, name: string, pitching: Pitching)

  /** The pitchers of both teams, visitors first, each in order of appearance. */
  type Staff = seq<seq<BoxPitcher>>
}
