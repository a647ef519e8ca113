/**
 * What the box score's "apparatus" lines print: every distinct key of an event
 * list once, in the order of its first occurrence, with the number of events
 * that carry it.
 */
module Grouping {

  /** How many times `x` occurs in `ks`. */
  function Count<K(==)>(ks: seq<K>, x: K): nat {
    if ks == [] then 0 else Count(ks[..|ks| - 1], x) + (if ks[|ks| - 1] == x then 1 else 0)
  }

  lemma {:induction false} CountAbsent<K>(ks: seq<K>, x: K)
    requires x !in ks
    ensures Count(ks, x) == 0
  {
    if ks != [] {
      assert x !in ks[..|ks| - 1];
      CountAbsent(ks[..|ks| - 1], x);
    }
  }

  lemma {:induction false} CountAppend<K>(ks: seq<K>, qs: seq<K>, x: K)
    ensures Count(ks + qs, x) == Count(ks, x) + Count(qs, x)
  {
    if qs == [] {
      assert ks + qs == ks;
    } else {
      assert (ks + qs)[..|ks + qs| - 1] == ks + qs[..|qs| - 1];
      CountAppend(ks, qs[..|qs| - 1], x);
    }
  }

  /** The position of the first occurrence of `x` in `ks`. */
  function FirstIndex<K(==)>(ks: seq<K>, x: K): (i: nat)
    requires x in ks
    ensures i < |ks| && ks[i] == x && x !in ks[..i]
  {
    if ks[0] == x then 0 else 1 + FirstIndex(ks[1..], x)
  }

  lemma {:induction false} FirstIndexPrefix<K>(ks: seq<K>, n: nat, x: K)
    requires n <= |ks| && x in ks[..n]
    ensures FirstIndex(ks, x) == FirstIndex(ks[..n], x)
  {
    if ks[0] != x {
      assert ks[1..][..n - 1] == ks[..n][1..];
      FirstIndexPrefix(ks[1..], n - 1, x);
    }
  }

  /** The distinct keys of `ks`, each once, in the order in which they first occur. */
  function Distinct<K(==)>(ks: seq<K>): (d: seq<K>)
    ensures forall i :: 0 <= i < |ks| ==> ks[i] in d
    ensures forall i :: 0 <= i < |d| ==> d[i] in ks
    ensures forall i, j :: 0 <= i < j < |d| ==> d[i] != d[j]
  {
    if ks == [] then []
    else
      var q := ks[..|ks| - 1];
      var y := ks[|ks| - 1];
      var d := Distinct(q);
      assert ks == q + [y];
      if y in d then d else d + [y]
  }

  /** The distinct keys come in the order of their first occurrences. */
  lemma {:induction false} DistinctInOrder<K>(ks: seq<K>)
    ensures forall i, j :: 0 <= i < j < |Distinct(ks)| ==>
      FirstIndex(ks, Distinct(ks)[i]) < FirstIndex(ks, Distinct(ks)[j])
  {
    if ks != [] {
      var q := ks[..|ks| - 1];
      var y := ks[|ks| - 1];
      var d := Distinct(q);
      assert ks == q + [y];
      DistinctInOrder(q);
      forall x | x in q ensures FirstIndex(ks, x) == FirstIndex(q, x) {
        assert ks[..|q|] == q;
        FirstIndexPrefix(ks, |q|, x);
      }
      if y !in d {
        assert y !in q;
        assert FirstIndex(ks, y) == |q|;
      }
    }
  }

  /** One more key adds a group exactly when it has not occurred before. */
  lemma DistinctSnoc<K>(ks: seq<K>, y: K)
    ensures Distinct(ks + [y]) == if y in ks then Distinct(ks) else Distinct(ks) + [y]
  {
    assert (ks + [y])[..|ks|] == ks;
    if y in ks {
      var i :| 0 <= i < |ks| && ks[i] == y;
      assert y in Distinct(ks);
    } else {
      assert y !in Distinct(ks);
    }
  }

  /** Each key of `d` with its number of occurrences in `ks`. */
  function CountsOf<K(==)>(ks: seq<K>, d: seq<K>): (gs: seq<(K, nat)>)
    ensures |gs| == |d|
    ensures forall i :: 0 <= i < |d| ==> gs[i] == (d[i], Count(ks, d[i]))
  {
    seq(|d|, i requires 0 <= i < |d| => (d[i], Count(ks, d[i])))
  }

  lemma CountsOfSnoc<K>(ks: seq<K>, d: seq<K>, y: K)
    ensures CountsOf(ks, d + [y]) == CountsOf(ks, d) + [(y, Count(ks, y))]
  {
  }

  /** Each distinct key with its number of occurrences. */
  function Groups<K(==)>(ks: seq<K>): (gs: seq<(K, nat)>)
    ensures |gs| == |Distinct(ks)|
    ensures forall i :: 0 <= i < |gs| ==> gs[i] == (Distinct(ks)[i], Count(ks, Distinct(ks)[i]))
  {
    CountsOf(ks, Distinct(ks))
  }

  /** The number of times the keys of `d` occur in `ks`, added up. */
  function TotalCount<K(==)>(ks: seq<K>, d: seq<K>): nat {
    if d == [] then 0 else TotalCount(ks, d[..|d| - 1]) + Count(ks, d[|d| - 1])
  }

  lemma {:induction false} TotalCountEmpty<K>(d: seq<K>)
    ensures TotalCount([], d) == 0
  {
    if d != [] { TotalCountEmpty(d[..|d| - 1]); }
  }

  lemma {:induction false} TotalCountSnoc<K>(ks: seq<K>, y: K, d: seq<K>)
    ensures TotalCount(ks + [y], d) == TotalCount(ks, d) + Count(d, y)
  {
    if d != [] {
      TotalCountSnoc(ks, y, d[..|d| - 1]);
      assert (ks + [y])[..|ks + [y]| - 1] == ks;
    }
  }

  lemma {:induction false} CountDistinct<K>(d: seq<K>, y: K)
    requires forall i, j :: 0 <= i < j < |d| ==> d[i] != d[j]
    requires y in d
    ensures Count(d, y) == 1
  {
    var q := d[..|d| - 1];
    if d[|d| - 1] == y {
      assert forall i :: 0 <= i < |q| ==> q[i] != y;
      CountAbsent(q, y);
    } else {
      assert y in q;
      CountDistinct(q, y);
    }
  }

  /** Counting every key of `ks` over a duplicate-free list covering them accounts for each event once. */
  lemma {:induction false} TotalCountCovers<K>(ks: seq<K>, d: seq<K>)
    requires forall i, j :: 0 <= i < j < |d| ==> d[i] != d[j]
    requires forall i :: 0 <= i < |ks| ==> ks[i] in d
    ensures TotalCount(ks, d) == |ks|
  {
    if ks == [] {
      TotalCountEmpty(d);
    } else {
      var q := ks[..|ks| - 1];
      var y := ks[|ks| - 1];
      assert ks == q + [y];
      TotalCountCovers(q, d);
      TotalCountSnoc(q, y, d);
      CountDistinct(d, y);
    }
  }

  function SumCounts<K>(gs: seq<(K, nat)>): nat {
    if gs == [] then 0 else SumCounts(gs[..|gs| - 1]) + gs[|gs| - 1].1
  }

  lemma {:induction false} SumCountsIsTotal<K>(ks: seq<K>, n: nat)
    requires n <= |Distinct(ks)|
    ensures SumCounts(Groups(ks)[..n]) == TotalCount(ks, Distinct(ks)[..n])
  {
    if n > 0 {
      SumCountsIsTotal(ks, n - 1);
      assert Groups(ks)[..n][..n - 1] == Groups(ks)[..n - 1];
      assert Distinct(ks)[..n][..n - 1] == Distinct(ks)[..n - 1];
    }
  }

  /** The counts printed for the groups add up to the number of events. */
  lemma GroupCountsSum<K>(ks: seq<K>)
    ensures SumCounts(Groups(ks)) == |ks|
  {
    var d := Distinct(ks);
    SumCountsIsTotal(ks, |d|);
    assert Groups(ks)[..|d|] == Groups(ks) && d[..|d|] == d;
    TotalCountCovers(ks, d);
  }

  /** Every group's count is at least one, and its key occurs in the list. */
  lemma GroupCountsPositive<K>(ks: seq<K>, i: nat)
    requires i < |Groups(ks)|
    ensures Groups(ks)[i].1 >= 1 && Groups(ks)[i].0 in ks
  {
    var x := Distinct(ks)[i];
    if Count(ks, x) == 0 { CountPositive(ks, x); }
  }

  lemma {:induction false} CountPositive<K>(ks: seq<K>, x: K)
    requires x in ks
    ensures Count(ks, x) >= 1
  {
    if ks[|ks| - 1] != x {
      assert x in ks[..|ks| - 1];
      CountPositive(ks[..|ks| - 1], x);
    }
  }
}
