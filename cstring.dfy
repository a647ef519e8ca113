/**
 * The loop every C-string decoder of the box-score tools runs: copy `chr(b)` of
 * each byte until a NUL byte or until `limit` characters have been copied,
 * then strip white space; running out of bytes first yields nothing (Python's
 * implicit `None` at the end of the function).
 */
module CString {
  import opened Common

  /** Index of the first NUL byte, or the length when there is none. */
  function FirstNul(bs: seq<Byte>): (k: nat)
    ensures k <= |bs|
    ensures forall i :: 0 <= i < k ==> bs[i] != 0
    ensures k < |bs| ==> bs[k] == 0
  {
    if bs == [] then 0 else if bs[0] == 0 then 0 else 1 + FirstNul(bs[1..])
  }

  function Min(a: nat, b: nat): nat { if a <= b then a else b }

  /**
   * What the scan produces: the stripped characters before the first NUL byte,
   * cut after `limit` characters; nothing when the bytes end before either a NUL
   * byte or the limit is reached.
   */
  function ScanToNul(bs: seq<Byte>, limit: nat): (r: Option<string>)
    requires limit >= 1
    ensures r.None? <==> FirstNul(bs) == |bs| && |bs| < limit
    ensures r.Some? ==> |r.value| <= limit && |r.value| <= FirstNul(bs)
    ensures r.Some? ==> r.value == Strip(Chars(bs[..Min(FirstNul(bs), limit)]))
  {
    var k := FirstNul(bs);
    if k < |bs| || limit <= |bs| then Some(Strip(Chars(bs[..Min(k, limit)]))) else None
  }

  /** The scan loop itself, with the `result` and `ct` accumulators of the source. */
  method Scan(bs: seq<Byte>, limit: nat) returns (r: Option<string>)
    requires limit >= 1
    ensures r == ScanToNul(bs, limit)
  {
    var result := "";
    var ct := 0;
    var i := 0;
    while i < |bs|
      invariant 0 <= i <= |bs| && ct == i && i < limit
      invariant result == Chars(bs[..i])
      invariant forall j :: 0 <= j < i ==> bs[j] != 0
    {
      var b := bs[i];
      if b == 0 {
        assert FirstNul(bs) == i by { FirstNulAt(bs, i); }
        return Some(Strip(result));
      }
      assert bs[..i + 1] == bs[..i] + [b];
      result := result + [Chr(b)];
      ct := ct + 1;
      if ct == limit {
        assert Min(FirstNul(bs), limit) == limit by { FirstNulAt(bs, i + 1); }
        return Some(Strip(result));
      }
      i := i + 1;
    }
    FirstNulAt(bs, |bs|);
    return None;
  }

  /** A position preceded only by non-NUL bytes is at or before the first NUL byte. */
  lemma {:induction false} FirstNulAt(bs: seq<Byte>, i: nat)
    requires i <= |bs| && forall j :: 0 <= j < i ==> bs[j] != 0
    ensures i <= FirstNul(bs)
    ensures i < |bs| && bs[i] == 0 ==> FirstNul(bs) == i
  {
    if i > 0 { FirstNulAt(bs[1..], i - 1); }
  }
}
