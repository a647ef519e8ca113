/**
 * try-chadwick_Py3.py and its later copy src/try-chadwick-py3_2021-01-10.py:
 * experiment scripts whose linescore, totals and batting rows are those of
 * myChadwick.py (module MyChadwick). What is their own is the C-string decoder,
 * which has no character limit; the later copy also drops the single-byte case.
 */
module TryChadwick {
  import opened Common
  import opened CString
  import opened MyChadwick

  /**
   * try-chadwick_Py3.py's `bytes_to_str`: a single byte as its character, not
   * stripped; otherwise the stripped characters before the first NUL byte, and
   * nothing when there is no NUL byte.
   */
  function DecodeUnlimited(byt: seq<Byte>): (r: Option<string>)
    ensures |byt| == 1 ==> r == Some([Chr(byt[0])])
    ensures |byt| != 1 ==> (r.None? <==> forall i :: 0 <= i < |byt| ==> byt[i] != 0)
    ensures |byt| != 1 && r.Some? ==> r.value == Strip(Chars(byt[..FirstNul(byt)]))
  {
    if |byt| == 1 then Some([Chr(byt[0])]) else DecodeToNul(byt)
  }

  /**
   * The later copy's `bytes_to_str`: the stripped characters before the first NUL
   * byte, for every length, and nothing when there is no NUL byte.
   */
  function DecodeToNul(byt: seq<Byte>): (r: Option<string>)
    ensures r.None? <==> forall i :: 0 <= i < |byt| ==> byt[i] != 0
    ensures r.Some? ==> r.value == Strip(Chars(byt[..FirstNul(byt)]))
  {
    ScanToNul(byt, |byt| + 1)
  }

  /** The loop both copies share: copy characters until the first NUL byte. */
  method ScanAll(byt: seq<Byte>) returns (r: Option<string>)
    ensures r == DecodeToNul(byt)
  {
    var result := "";
    for i := 0 to |byt|
      invariant result == Chars(byt[..i])
      invariant forall j :: 0 <= j < i ==> byt[j] != 0
    {
      if byt[i] == 0 {
        FirstNulAt(byt, i);
        return Some(Strip(result));
      }
      assert byt[..i + 1] == byt[..i] + [byt[i]];
      result := result + [Chr(byt[i])];
    }
    FirstNulAt(byt, |byt|);
    return None;
  }

  /** try-chadwick_Py3.py's `bytes_to_str`. */
  method BytesToStrPy3(byt: seq<Byte>) returns (r: Option<string>)
    ensures r == DecodeUnlimited(byt)
  {
    if |byt| == 1 {
      return Some([Chr(byt[0])]);
    }
    r := ScanAll(byt);
  }

  /** The later copy's `bytes_to_str`. */
  method BytesToStr20210110(byt: seq<Byte>) returns (r: Option<string>)
    ensures r == DecodeToNul(byt)
  {
    r := ScanAll(byt);
  }

  /** A NUL-terminated string decodes to itself, stripped: always in the later copy, from one character on in the earlier. */
  lemma DecodeTerminatedUnlimited(s: seq<Byte>)
    requires forall i :: 0 <= i < |s| ==> s[i] != 0
    ensures DecodeToNul(s + [0]) == Some(Strip(Chars(s)))
    ensures s != [] ==> DecodeUnlimited(s + [0]) == Some(Strip(Chars(s)))
  {
    var bs := s + [0];
    assert forall j :: 0 <= j < |s| ==> bs[j] == s[j];
    FirstNulAt(bs, |s|);
    assert bs[..|s|] == s;
  }

  /** The two copies differ only on a single byte, which the earlier one keeps as it is. */
  lemma CopiesDifferOnSingleByte(byt: seq<Byte>)
    ensures |byt| != 1 ==> DecodeUnlimited(byt) == DecodeToNul(byt)
    ensures |byt| == 1 && byt[0] != 0 ==> DecodeToNul(byt).None? && DecodeUnlimited(byt) == Some([Chr(byt[0])])
    ensures |byt| == 1 && byt[0] == 0 ==> DecodeToNul(byt) == Some("") && DecodeUnlimited(byt) == Some([Chr(0)])
  {
    if |byt| == 1 && byt[0] == 0 {
      assert FirstNul(byt) == 0;
      assert Chars(byt[..0]) == "";
    }
  }

  /**
   * Against myChadwick.py's decoder: when the first NUL byte comes within the limit
   * both decoders return the same string.
   */
  lemma UnlimitedAgreesWithinLimit(byt: seq<Byte>, maxlen: int)
    requires FirstNul(byt) < |byt| && FirstNul(byt) <= ByteLimit(maxlen)
    ensures DecodeUnlimited(byt) == DecodeBytes(byt, maxlen)
  {
  }
}
