/**
 * The command-line checks the season scripts share: a Retrosheet player id
 * (five letters and three digits) with a per-script fallback, and a range of
 * season years from 1871 to 2020.
 */
module SeasonArgs {
  import opened Common

  const FIRST_SEASON := 1871
  const LAST_SEASON := 2020

  predicate InSeasons(y: int) { FIRST_SEASON <= y <= LAST_SEASON }

  /** The id test of `process_input_parameters`: at least 8 characters, letters in 0..4 and digits in 5..7. */
  predicate WellFormedId(raw: string) {
    |raw| >= 8 && IsAlphaStr(raw[..5]) && IsDecimalStr(raw[5..8])
  }

  /** A well-formed id starts with its eight id characters, so stripping keeps them. */
  lemma StripKeepsId(raw: string)
    requires WellFormedId(raw)
    ensures |Strip(raw)| >= 8 && Strip(raw)[..8] == raw[..8]
  {
    var r := Strip(raw);
    var l := LeadingSpace(raw);
    assert raw[..5][0] == raw[0] && raw[5..8][2] == raw[7];
    assert !IsSpace(raw[0]) && !IsSpace(raw[7]);
    assert l == 0;
    assert |r| >= 8;
    assert r[..8] == raw[..8];
  }

  /**
   * The player id: the first eight characters of a well-formed argument (the
   * script strips it and cuts it to 8), otherwise the fallback cut to 8.
   */
  function PlayerIdParam(raw: string, fallback: string): (id: string)
    ensures WellFormedId(raw) ==> id == raw[..8]
    ensures !WellFormedId(raw) ==> id == Slice(fallback, 0, 8)
  {
    if WellFormedId(raw) then
      StripKeepsId(raw);
      Strip(raw)[..8]
    else if |fallback| > 8 then fallback[..8] else fallback
  }

  /** With a well-formed fallback the id is always a well-formed 8-character id, and checking it again keeps it. */
  lemma PlayerIdShape(raw: string, fallback: string)
    requires WellFormedId(fallback)
    ensures WellFormedId(PlayerIdParam(raw, fallback)) && |PlayerIdParam(raw, fallback)| == 8
    ensures PlayerIdParam(PlayerIdParam(raw, fallback), fallback) == PlayerIdParam(raw, fallback)
  {
    var id := PlayerIdParam(raw, fallback);
    var src := if WellFormedId(raw) then raw else fallback;
    assert id == src[..8];
    assert id[..5] == src[..5] && id[5..8] == src[5..8];
    assert id[..8] == id;
  }

  /** The start year: kept when it is a season year, otherwise the fallback. */
  function StartParam(start: int, fallback: int): (s: int)
    ensures s == start || s == fallback
    ensures InSeasons(start) <==> s == start && InSeasons(s)
    ensures InSeasons(fallback) ==> InSeasons(s)
  {
    if InSeasons(start) then start else fallback
  }

  /**
   * The end year of printPitchingStats.py and printBattingStats.py: kept when given
   * (non-zero) and a season year, otherwise the start; then raised to the start.
   */
  function EndParam(end: Option<int>, start: int): (e: int)
    ensures e >= start
    ensures e == start || (end.Some? && e == end.value && InSeasons(e))
    ensures end.Some? && end.value != 0 && InSeasons(end.value) && end.value >= start ==> e == end.value
  {
    var e := if end.Some? && end.value != 0 && InSeasons(end.value) then end.value else start;
    if e < start then start else e
  }

  /** The checked arguments: player id and year range. */
  datatype Args = Args(id: string, start: int, end: int)

  /** `process_input_parameters` of printPitchingStats.py and printBattingStats.py, with that script's fallbacks. */
  function SeasonParams(rawId: string, start: int, end: Option<int>, idFallback: string, startFallback: int): (a: Args)
    requires WellFormedId(idFallback) && InSeasons(startFallback)
    ensures WellFormedId(a.id) && |a.id| == 8
    ensures InSeasons(a.start) && InSeasons(a.end) && a.start <= a.end
    ensures InSeasons(start) ==> a.start == start
    ensures a.end == a.start || (end.Some? && a.end == end.value)
  {
    PlayerIdShape(rawId, idFallback);
    var s := StartParam(start, startFallback);
    Args(PlayerIdParam(rawId, idFallback), s, EndParam(end, s))
  }
}
