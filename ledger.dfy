/**
 * The stats dictionaries of the season scripts: one counter per stat key, a
 * yearly dictionary rolled into a totals dictionary by `clear`, and the sums
 * the year loop is expected to leave in the totals.
 */
module Ledger {
  import opened Common

  /** Every key of `keys` with the count 0. */
  function Zero<K>(keys: set<K>): (z: map<K, int>)
    ensures z.Keys == keys
    ensures forall k :: k in z ==> z[k] == 0
  {
    map k | k in keys :: 0
  }

  /** The totals with every key's yearly count added in; keys absent from `stats` keep their total. */
  function AddAll<K>(totals: map<K, int>, stats: map<K, int>): (r: map<K, int>)
    requires stats.Keys <= totals.Keys
    ensures r.Keys == totals.Keys
    ensures forall k :: k in stats ==> r[k] - totals[k] == stats[k]
    ensures forall k :: k in totals && k !in stats ==> r[k] == totals[k]
  {
    map k | k in totals :: if k in stats then totals[k] + stats[k] else totals[k]
  }

  /**
   * The module-level `clear(stats, totals)`: for every key of the yearly
   * dictionary, add its count into the totals and set it back to 0.
   * A key of `stats` missing from `totals` would raise KeyError, hence the requires.
   */
  method Clear<K>(stats: map<K, int>, totals: map<K, int>) returns (stats': map<K, int>, totals': map<K, int>)
    requires stats.Keys <= totals.Keys
    ensures stats' == Zero(stats.Keys)
    ensures totals' == AddAll(totals, stats)
  {
    stats', totals' := stats, totals;
    var rest := stats.Keys;
    while rest != {}
      invariant rest <= stats.Keys
      invariant stats'.Keys == stats.Keys && totals'.Keys == totals.Keys
      invariant forall k :: k in rest ==> stats'[k] == stats[k] && totals'[k] == totals[k]
      invariant forall k :: k in stats && k !in rest ==> stats'[k] == 0 && totals'[k] == totals[k] + stats[k]
      invariant forall k :: k in totals && k !in stats ==> totals'[k] == totals[k]
      decreases |rest|
    {
      var k :| k in rest;
      totals' := totals'[k := totals'[k] + stats'[k]];
      stats' := stats'[k := 0];
      rest := rest - {k};
    }
  }

  /** The count of key `k` added up over the yearly dictionaries (0 where a year lacks the key). */
  function SumAt<K>(years: seq<map<K, int>>, k: K): int {
    if years == [] then 0
    else (if k in years[0] then years[0][k] else 0) + SumAt(years[1..], k)
  }

  /** The totals after `clear` has rolled in each year in turn, starting from `totals`. */
  function Rolled<K>(totals: map<K, int>, years: seq<map<K, int>>): (r: map<K, int>)
    requires forall i :: 0 <= i < |years| ==> years[i].Keys <= totals.Keys
    ensures r.Keys == totals.Keys
  {
    if years == [] then totals
    else AddAll(Rolled(totals, years[..|years| - 1]), years[|years| - 1])
  }

  lemma {:induction false} SumAtSnoc<K>(years: seq<map<K, int>>, y: map<K, int>, k: K)
    ensures SumAt(years + [y], k) == SumAt(years, k) + (if k in y then y[k] else 0)
  {
    if years == [] {
      assert ([] + [y])[1..] == [];
    } else {
      assert (years + [y])[1..] == years[1..] + [y];
      SumAtSnoc(years[1..], y, k);
    }
  }

  /** Rolling the years in one by one leaves, for every key, the starting total plus the sum over the years. */
  lemma {:induction false} RolledIsSum<K>(totals: map<K, int>, years: seq<map<K, int>>, k: K)
    requires forall i :: 0 <= i < |years| ==> years[i].Keys <= totals.Keys
    requires k in totals
    ensures k in Rolled(totals, years)
    ensures Rolled(totals, years)[k] == totals[k] + SumAt(years, k)
  {
    if years != [] {
      var q := years[..|years| - 1];
      RolledIsSum(totals, q, k);
      assert years == q + [years[|years| - 1]];
      SumAtSnoc(q, years[|years| - 1], k);
    }
  }

  /** The totals from zero are the key-by-key sums of the yearly dictionaries. */
  lemma RolledFromZero<K>(keys: set<K>, years: seq<map<K, int>>)
    requires forall i :: 0 <= i < |years| ==> years[i].Keys <= keys
    ensures Rolled(Zero(keys), years).Keys == keys
    ensures forall k :: k in keys ==> Rolled(Zero(keys), years)[k] == SumAt(years, k)
  {
    forall k | k in keys
      ensures Rolled(Zero(keys), years)[k] == SumAt(years, k)
    {
      RolledIsSum(Zero(keys), years, k);
    }
  }

  /** The years from `lo` to `hi` that have event files, in increasing order. */
  function PlayedYears<G>(events: map<int, G>, lo: int, hi: int): (ys: seq<int>)
    ensures forall i :: 0 <= i < |ys| ==> ys[i] in events && lo <= ys[i] <= hi
    decreases hi - lo
  {
    if hi < lo then []
    else
      var ys := PlayedYears(events, lo, hi - 1);
      if hi in events then ys + [hi] else ys
  }

  /** The played years are increasing, and every year of the range with event files is among them. */
  lemma {:induction false} PlayedYearsInOrder<G>(events: map<int, G>, lo: int, hi: int)
    ensures var ys := PlayedYears(events, lo, hi);
      (forall i, j :: 0 <= i < j < |ys| ==> ys[i] < ys[j]) && (forall y :: lo <= y <= hi && y in events ==> y in ys)
    decreases hi - lo
  {
    if lo <= hi {
      PlayedYearsInOrder(events, lo, hi - 1);
    }
  }

  lemma PlayedYearsStep<G>(events: map<int, G>, lo: int, y: int)
    requires lo <= y
    ensures PlayedYears(events, lo, y) == PlayedYears(events, lo, y - 1) + (if y in events then [y] else [])
  {
    if y !in events {
      assert PlayedYears(events, lo, y - 1) + [] == PlayedYears(events, lo, y - 1);
    }
  }

  /** A printed count: the number, or a blank when it is negative. */
  datatype Cell = Text(text: string) | Blank

  function CountCell(v: int): (c: Cell)
    ensures c.Blank? <==> v < 0
    ensures v >= 0 ==> c.text == NatToString(v)
  {
    if v >= 0 then Text(NatToString(v)) else Blank
  }
}
