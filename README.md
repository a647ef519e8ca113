# chadwick box-score and season-stats scripts, in Dafny

The chadwick scripts print Retrosheet box scores and season statistics. The heavy work is done by the
native Chadwick library: it parses event files, reads rosters and builds box scores. The Python files
wrap that library and add a set of small, sequential rules, and this project models those rules:

- decoding bounded C strings (`c_char_p_to_str` and the `bytes_to_str` copies);
- the box-score text:
  - the linescore, with its cut-off and the home side's "x";
  - the batting-order walk over slots 1 to 9 along the substitute chains, with team totals and the -1 RBI sentinel;
  - the name and position column;
  - the "apparatus" group-by-and-count over an event list with scratch `mark` flags;
  - the pitchers' decision tags, note markers, ordinal suffixes, innings pitched and the outs-at-end note;
- the season accumulators:
  - per-game sums restricted to one player id;
  - `clear`, which rolls a year into the totals;
  - `check_boxscores`' reading of `bline` rows;
- the derived statistics, as exact ratios;
- the command-line validators with their fallbacks, and the selection of games by date and team.

Each file that is a divergent copy of the same logic is modelled as written, quirks included. Where a
copy is evidently wrong, the "## Findings" table pairs the as-written member with a corrected one. The
script-level pipelines (the batting season table, `main_player_stats`) follow the code as written; the
corrected members sit beside them with the intended property proved.

The modules follow the source files:

- `Common`: Python string helpers (`strip`, `isalpha`, `isdecimal`, `upper`, slicing, `str(n)`, string order).
- `CString`: the scan to the first NUL byte.
- `BoxScore`: box-score records, the lineup walk, sums and the RBI sentinel.
- `Grouping`: group-by-and-count in order of first occurrence.
- `Ledger`: dictionary roll-up over keys, years with event files.
- `CwTools`: cwTools.py.
- `GameSummary`: printGameSummary.py, and the identical parts of src/printPlayerStats_2021-01-22.py.
- `MyChadwick`: myChadwick.py, whose nine-inning linescore and totals the try-chadwick scripts share.
- `TryChadwick`: the two try-chadwick decoders.
- `SeasonArgs`: the id and year validators shared by printBattingStats.py and printPitchingStats.py.
- `BattingStats`, `PitchingStats`, `PlayerStats`, `BattingLeaders`: the season scripts.

Three kinds of input stand in for what the native library or the file system would supply:

- The box score, the pitcher lists, the event lists, the linescore, the rosters, the event files and the boxscore rows are inputs.
- What a roster lookup (`cw_roster_player_find`) or `game_info_lookup` would return is an input.
- Printed output is a returned value: a string, a row record or a sequence of cells.

## Model

| member | source | states |
|---|---|---|
| CwTools.Limit | cwTools.py:76 | The character limit is 1 when maxlen is at most 1; otherwise it is maxlen capped at 256. It is always between 1 and 256. |
| CwTools.CCharPToStr | cwTools.py:73-90 | An empty window gives "". A one-byte window gives that character unstripped, even a NUL. A longer window gives the stripped characters before the first NUL or the limit, whichever comes first. The result never exceeds the limit. The same function is at printGameSummary.py:37-54. |
| CwTools.CCharPToStrFallsOff | cwTools.py:84-90 | With no NUL byte and fewer bytes than the limit, the loop falls off the end and the function returns None. |
| CString.ScanToNul | cwTools.py:83-90 | The result is None exactly when there is no NUL byte and the bytes end before the limit. Otherwise it is the stripped text of the bytes before the first NUL, cut at the limit. |
| CString.Scan | cwTools.py:83-90 | The decoding loop, with its `result` and `ct` accumulators, computes ScanToNul. |
| CString.FirstNul | cwTools.py:85-86 | Every byte before the returned index is non-zero, and the byte at that index, when there is one, is NUL. |
| CString.FirstNulAt | cwTools.py:85-86 | A position preceded only by non-NUL bytes lies at or before the first NUL, and it is the first NUL when it holds one. |
| Common.Strip | cwTools.py:87 | Python's `strip()`: the result is a slice of the input. Only white space is dropped, and the result neither starts nor ends with white space. |
| Common.StripUntrimmed | cwTools.py:87 | Stripping a string with no white space at either end leaves it unchanged. |
| Common.NatToStringRoundTrip | cwTools.py:104-106 | Reading back the decimal digits that `str(n)` prints gives n. |
| Common.NatToStringInjective | cwTools.py:104-106 | Different numbers print as different strings. |
| Common.LessTotal | printGameSummary.py:755 | Python's string order is total. |
| Common.LessTransitive | printGameSummary.py:755 | Python's string order is transitive. |
| Common.LessAsymmetric | printGameSummary.py:755 | Python's string order is asymmetric. |
| CwTools.TwoDigits | cwTools.py:104-105 | The minutes are always two decimal digits, and they read back as the minutes. |
| CwTools.TimeOfGame | cwTools.py:103-106 | A line is printed exactly when the time is positive: "T -- ", the hours, ":" and the two-digit minutes. The same rule is at printGameSummary.py:157-164. |
| CwTools.TimeOfGameReadsBack | cwTools.py:103-106 | Reading the printed hours and minutes back gives the time of game in minutes. |
| CwTools.PinchPrefix | cwTools.py:130-133 | The prefix is "ph" exactly when ph_inn > 0 and the first position is not 11. Otherwise it is "pr" exactly when pr_inn > 0 and the first position is not 12. Otherwise it is "". |
| CwTools.PositionNames | cwTools.py:135-138 | Each position number is looked up in the position table, in order. |
| CwTools.DashAppend | cwTools.py:135-138 | The loop's result extends the prefix and is non-empty once anything non-empty has been added. |
| CwTools.DashAppendIsJoin | cwTools.py:135-138 | With non-empty names, the loop computes `"-".join` of the prefix and the names. |
| CwTools.PositionString | cwTools.py:130-138 | The position-string loop yields the dash-joined prefix and position names. |
| CwTools.NameColumn | cwTools.py:140-148 | If the position string has at most 10 characters, the column is at most 20 characters long: a prefix of the name, ", ", then the position string. It is exactly `name, posstr` when that fits in 18 characters. A longer position string gives the name, ", ", the first position and the overflow mark. |
| CwTools.BattingLine | cwTools.py:117-154 | The batter's line carries the name column, built from the roster name or the box-score name. RBI is shown exactly when it is not negative. The same printer is at printGameSummary.py:324-368. |
| CwTools.PrintPlayer | cwTools.py:114-154 | The position loop and the line assembly produce BattingLine. |
| CwTools.GroupEvents | cwTools.py:161-211 | The marking loops yield the distinct keys in order of first occurrence, each with its number of events. The event array is unchanged afterwards, every mark back to 0. |
| CwTools.MarkGroup | cwTools.py:174-178 | The inner loop counts and marks every later event with the current key. That key had not occurred before, and the count is its number of occurrences from there on. |
| CwTools.MarkedSkip | cwTools.py:171-173 | A marked event's key occurred earlier, so skipping it adds no group. |
| CwTools.ClearMarks | cwTools.py:207-211 | Every mark becomes 0, and nothing else changes. |
| CwTools.ApparatusEntry | cwTools.py:189-204 | An entry is the display name, followed by the count only when the count is not 1. |
| CwTools.PlayerApparatus | cwTools.py:158-211 | Prints each distinct `players[index]` once, in order of first occurrence, with its count. Nothing is printed for an empty list. Marks are restored afterwards. The same function is at printGameSummary.py:370-424. |
| Grouping.GroupCountsSum | cwTools.py:189-204 | The counts of the groups add up to the number of events. |
| Grouping.GroupCountsPositive | cwTools.py:189-204 | Every group's count is at least 1, and its key occurs in the list. |
| Grouping.DistinctInOrder | cwTools.py:166-178 | The groups come in the order of their keys' first occurrences. |
| Grouping.Distinct | cwTools.py:166-178 | Each key of the list occurs in the result, each once, and only keys of the list do. |
| CwTools.Hbp | cwTools.py:323-378 | Events are grouped by the (batter, pitcher) pair, in order of first occurrence, and printed as "HBP -- " with the entries. Nothing is printed for an empty list. Marks are reset at the end. |
| CwTools.Markers | cwTools.py:272-275 | Note n (counted from 0) gets MARKERS[n mod 3], repeated n/3 + 1 times. |
| CwTools.MarkersDistinct | cwTools.py:272-275 | Different notes get different markers. |
| CwTools.AppendMarker | cwTools.py:273-274 | The marker loop appends exactly the marker of the current note. |
| CwTools.OrdinalSuffix | cwTools.py:405-412 | The suffix is "st", "nd" or "rd" for a last digit of 1, 2 or 3, except for exactly 11, 12 and 13. Every other number gets "th". |
| CwTools.OrdinalSuffixTeens | cwTools.py:405-412 | 11, 12 and 13 take "th", while 21, 22 and 23 and 111, 112 and 113 do not (the whole number is compared). |
| CwTools.InningsPitchedReadsBack | cwTools.py:277 | Innings pitched print as outs//3, ".", and a digit that is 0, 1 or 2. Reading these back recovers the outs. |
| CwTools.NotedPitching | cwTools.py:400 | The pitchers' notes are those with xbinn > 0 and xb > 0, in order. |
| CwTools.NoteLines | cwTools.py:400-413 | There is exactly one note line per noted pitcher. |
| CwTools.NoteFor | cwTools.py:402-413 | One note line, built piece by piece, equals NoteLine. |
| CwTools.ChainNotes | cwTools.py:395-414 | The loop over a team's pitchers continues the note lines of the pitchers already seen. |
| CwTools.PitcherApparatus | cwTools.py:391-414 | There is one line per noted pitcher, visitors first. The k-th line carries the k-th marker, and both teams share one count. |
| CwTools.Decision | cwTools.py:264-269 | The pitcher is tagged W, L or S exactly when the recorded id for that decision is non-empty and equal to the pitcher's own id. W is checked before L, and L before S. |
| CwTools.DecisionUnique | cwTools.py:264-269 | Two different pitchers never share a decision tag. |
| CwTools.Shown | cwTools.py:279-284 | A column value is shown exactly when it is not negative. |
| CwTools.ChadwickTools.constructor | cwTools.py:94-97 | The note count starts at 0. |
| CwTools.ChadwickTools.PrintPitcher | cwTools.py:238-284 | The line is the decorated name followed by the pitching columns. The name gets its decision tag, then the current note's marker when the pitcher is noted. The note count advances by 1 exactly for a noted pitcher. printGameSummary.py:450-496 is an identical copy and is modelled by this member. |
| CwTools.PlaysLine | cwTools.py:287-320 | Double and triple plays print nothing when both counts are 0. When only one team has a positive count and the other has 0, that team alone is printed. Otherwise both teams are printed. |
| CwTools.LobLine | cwTools.py:381-388 | Nothing is printed when both counts are 0; otherwise both teams are printed. |
| GameSummary.Column | printGameSummary.py:210-216 | A team's linescore column holds its runs, inning by inning. |
| GameSummary.Stop | printGameSummary.py:210-216 | Printing stops at the first inning from 1 to 31 whose entry is negative, or at 32. Every inning before that has a non-negative entry. |
| GameSummary.Cell | printGameSummary.py:211-213 | Runs of 10 or more are printed in parentheses; fewer are printed as one digit. |
| GameSummary.LinescoreRow | printGameSummary.py:197-228 | The row is the cells of the innings before the stop, with a blank after every third. The home team adds "x " when the visitors batted in that inning. The runs are the sum of the printed innings. The same code is at src/printPlayerStats_2021-01-22.py:73-91. |
| GameSummary.PlayedInning | printGameSummary.py:211-226 | An inning the team batted in extends the row by its cell and the runs by its runs, and it lies before the stop. |
| GameSummary.RowEnd | printGameSummary.py:217-223 | At the first inning a team did not bat in, only the home row gets "x ", and only when the visitors batted in that inning. |
| GameSummary.RowFinished | printGameSummary.py:210-228 | Wherever the loop ends, the row and the runs are those of the innings before the stop. |
| GameSummary.LinescoreStep | printGameSummary.py:210-223 | A played inning adds its cell, a blank after every third, and its runs. |
| GameSummary.RunsBeforeNonNegative | printGameSummary.py:210-223 | The runs of the printed innings are never negative and include each printed inning. |
| GameSummary.LinescoreRunsIgnoreLaterInnings | printGameSummary.py:210-223 | A team's total does not depend on any inning after the first unplayed one. |
| GameSummary.OutsNote | printGameSummary.py:230-235 | The note is printed exactly when outs_at_end is not 3. It shows the count and ends with the walk-off or game-ended wording. The same rule is at src/printPlayerStats_2021-01-22.py:93-98 and src/try-chadwick-py3_2021-01-10.py:172-177. |
| GameSummary.OutsNoteSingular | printGameSummary.py:230-235 | The note says "out" exactly when one out was made, and "outs" otherwise. |
| BoxScore.Walk | printGameSummary.py:266-289 | The walk visits exactly the lineup's players: slots 1 to 9, each substitute chain in order. Slots without a starter are skipped. |
| BoxScore.NextStarter | printGameSummary.py:285-289 | The skip loop stops at the next slot with a starter, or after slot 9, passing only empty slots. |
| BoxScore.Step | printGameSummary.py:283-289 | One step takes the current player and moves along the chain or to the next starter, and none is lost. |
| BoxScore.WalkBoth | printGameSummary.py:266-289 | The two walks run in turns, visitors first, until both are past slot 9. Together they visit the interleaving of the two lineups. |
| BoxScore.Turn | printGameSummary.py:266-289 | One team's turn visits its current player and moves along its chain, or passes once the team is past slot 9. The walk still covers every player, and the other team is next. |
| BoxScore.InterleavePermutes | printGameSummary.py:266-289 | The interleaved walk visits every player of both teams once; it is a permutation of the two lineups. |
| BoxScore.LineupTotals | printGameSummary.py:272-281 | The team's at-bat, run, hit, walk, plate-appearance and strikeout totals are the sums over the visited players. RBI follows the sentinel rule. The same code is at src/printPlayerStats_2021-01-22.py:129-152. |
| BoxScore.RbiSentinel | printGameSummary.py:278-281 | With no -1 in the lineup, the RBI total is the plain sum. Otherwise it is -1 plus the RBI of the players after the last -1. |
| BoxScore.LastSentinel | printGameSummary.py:278-281 | The returned player is the last one with bi = -1, and no later player has -1. |
| BoxScore.Matching | printBattingStats.py:55-57 | Keeps exactly the appearances of the given id, in order. |
| BoxScore.MatchingNonEmpty | printBattingStats.py:55-57 | Some appearance is kept exactly when the id occurs among the visited players. |
| BoxScore.SumMatchingInterleave | printBattingStats.py:52-83 | A player's sums over the interleaved walk equal the player's sums for the visitors plus those for the home team. |
| GameSummary.Rows | printGameSummary.py:266-293 | One row per player index, up to the longer side. Each row holds that index's line from each team, or a blank. |
| GameSummary.BattingRows | printGameSummary.py:242-299 | The batting section's rows are the two walks side by side. Each team's totals are its lineup sums, with the RBI sentinel. |
| GameSummary.TotalsRbi | printGameSummary.py:297-299 | The totals line shows RBI exactly when the total is not negative. |
| GameSummary.TotalsRbiWithoutSentinel | printGameSummary.py:278-281 | Without a -1 in the lineup, the RBI total is printed and is the plain sum. |
| GameSummary.PrintChain | printGameSummary.py:311-313 | Each pitcher's line uses the notes counted before that pitcher, and the count grows by the team's noted pitchers. |
| GameSummary.PrintNext | printGameSummary.py:311-313 | Printing the next pitcher extends the team's lines by that pitcher's line and counts the pitcher's note if there is one. |
| GameSummary.PitchingSection | printGameSummary.py:305-317 | The note count starts at 0. Each team's pitchers are printed in order, then the note lines. The final count is the number of noted pitchers. |
| GameSummary.NoteOfPitcher | printGameSummary.py:305-317 | A noted pitcher of a team owns the apparatus note whose number is the count of notes before that pitcher, visitors first. |
| GameSummary.MarkerAgreement | printGameSummary.py:602-625 | A noted pitcher's printed name ends with marker m, and apparatus note m is about that pitcher's pitching. |
| GameSummary.TeamParam | printGameSummary.py:662-664 | The team is always 3 upper-case letters. It is the first three letters, upper-cased, of an alphabetic argument of at least three characters; otherwise "TOR". |
| GameSummary.YearParam | printGameSummary.py:667 | The year is always 4 digits. It is the argument when that lies between 1871 and 2020, otherwise "1993". |
| GameSummary.DateParam | printGameSummary.py:670-683 | An absent or empty date gives the default. A stripped four-digit date is kept. Anything else gives the bad-date value. |
| GameSummary.InputParameters | printGameSummary.py:647-686 | The checked team has 3 characters, the year 4, and both dates are 4 digits. |
| GameSummary.GamesTableExact | printGameSummary.py:738-752 | Every game in the table is wanted, that is in the date range compared as strings and played by the team, and is filed under `game_id[3:]`. Every wanted game has an entry. |
| GameSummary.SelectFromFile | printGameSummary.py:741-752 | The loop over one event file's games leaves the table that of all games read so far, this file's included. |
| GameSummary.SelectGames | printGameSummary.py:738-752 | The selection loop over the event files builds the games table; a later game with the same key replaces an earlier one. |
| GameSummary.Insert | printGameSummary.py:755 | Inserting a new key keeps the list sorted and adds exactly that key. |
| GameSummary.SortedKeys | printGameSummary.py:755 | The keys come out strictly increasing in string order, and each key of the table appears exactly once. |
| MyChadwick.DecodeBytes | myChadwick.py:27-40 | The limit is 1 when maxlen is not positive and maxlen otherwise, with no cap. One byte gives its character. Otherwise the result is None exactly when there is no NUL and fewer bytes than the limit; else it is the stripped text before the first NUL or the limit. |
| MyChadwick.BytesToStr | myChadwick.py:27-40 | The loop computes DecodeBytes. |
| MyChadwick.DecodeTerminated | myChadwick.py:27-40 | A NUL-terminated string within the limit decodes to itself, stripped. |
| MyChadwick.BioName | myChadwick.py:324 | The name is the decoded last name, a blank and the decoded initial. It is absent when either decoding yields None. |
| MyChadwick.NineInningRow | myChadwick.py:198-212 | The row prints innings 1 to 9, an unplayed one as "x". The runs are the sum of the non-negative entries among them. The same code is at try-chadwick_Py3.py:154-168 and src/try-chadwick-py3_2021-01-10.py:153-170. |
| MyChadwick.NineRunsOfPlayedInnings | myChadwick.py:198-212 | An unplayed inning counts as 0, and nothing after the ninth inning counts. |
| MyChadwick.NineRunsNonNegative | myChadwick.py:198-212 | The nine-inning total is never negative, whatever the innings hold. |
| MyChadwick.NineCellsWidth | myChadwick.py:209-210 | With single-digit innings, the row is one character per inning plus a blank after each third. |
| MyChadwick.NineAgreesWithLinescore | myChadwick.py:198-212 | While every inning was played, the nine-inning row equals printGameSummary.py's row. |
| MyChadwick.NineInningGame | myChadwick.py:198-212 | A game that stopped after nine innings gets the same row and total from both printers. |
| MyChadwick.ExtraInningsDropped | myChadwick.py:198-212 | When a tenth inning was played and scored, the nine-inning total is less than the runs actually scored. |
| MyChadwick.ShortBattingLine | myChadwick.py:304-360 | The name column follows the same rules, with the overflow mark ",...". The line shows at-bats, runs and hits, and RBI exactly when bi is not -1. The same printer is at try-chadwick_Py3.py:287-318 and src/try-chadwick-py3_2021-01-10.py:268-293. |
| MyChadwick.PrintPlayer | myChadwick.py:304-360 | The position loop and the assembly produce ShortBattingLine. |
| MyChadwick.PrintersAgree | myChadwick.py:347-352 | When the position string fits, this column equals cwTools.py's column. The RBI cells agree for non-negative values and differ only below -1. |
| MyChadwick.ShortRows | myChadwick.py:225-270 | One row per player index, with each team's line or a blank. |
| MyChadwick.TotalsRbiPair | myChadwick.py:275-278 | Both RBI totals are printed, or neither when either is -1. |
| MyChadwick.PrintText | myChadwick.py:225-278 | The rows are the two walks side by side. The ab, r, h and RBI totals are the lineup sums, with the sentinel. The same totals are at try-chadwick_Py3.py:206-225 and src/try-chadwick-py3_2021-01-10.py:202-220. |
| MyChadwick.RbiPairWithoutSentinel | myChadwick.py:275-278 | Without a sentinel on either side, both RBI totals are printed and are the plain sums. |
| MyChadwick.DecisionAsWritten | myChadwick.py:390-395 | As written, the tag depends only on which decision ids are non-empty: W, else L, else S. |
| MyChadwick.MarkersAsWritten | myChadwick.py:398-401 | As written, the loop writes n/3 markers, one fewer than note n needs. |
| MyChadwick.PitcherRowAsWritten | myChadwick.py:379-418 | The BB column shows the hits whenever bb is not -1. ER and SO are shown unless -1. The name carries the as-written tag and markers. |
| MyChadwick.PrintPitcher | myChadwick.py:367-418 | The line is PitcherRowAsWritten for the caller's note count. |
| MyChadwick.PitcherRows | myChadwick.py:284-293 | Every pitcher is printed with a note count of 0, because the increment is lost. |
| MyChadwick.DecisionTagsEveryPitcher | myChadwick.py:390-395 | With a recorded winner, any other pitcher is tagged W as written, where CwTools.Decision tags only the winner. |
| MyChadwick.FirstNotesUnmarked | myChadwick.py:398-401 | As written, the first three noted pitchers get no marker; the intended markers give each one. |
| MyChadwick.WalksColumnShowsHits | myChadwick.py:410-411 | As written, the BB column differs from the walks whenever hits and walks differ. |
| TryChadwick.DecodeUnlimited | try-chadwick_Py3.py:437-453 | One byte gives its character. Otherwise the result is None exactly when there is no NUL byte, else the stripped text before the first NUL. |
| TryChadwick.BytesToStrPy3 | try-chadwick_Py3.py:437-453 | The loop computes DecodeUnlimited. |
| TryChadwick.DecodeToNul | src/try-chadwick-py3_2021-01-10.py:421-435 | The result is None exactly when there is no NUL byte, else the stripped text before the first NUL, for every length. |
| TryChadwick.BytesToStr20210110 | src/try-chadwick-py3_2021-01-10.py:421-435 | The loop computes DecodeToNul. |
| TryChadwick.ScanAll | src/try-chadwick-py3_2021-01-10.py:425-435 | The copy loop stops at the first NUL and returns None when there is none. |
| TryChadwick.DecodeTerminatedUnlimited | try-chadwick_Py3.py:437-453 | A NUL-terminated string decodes to itself, stripped. |
| TryChadwick.CopiesDifferOnSingleByte | src/try-chadwick-py3_2021-01-10.py:421-435 | The two copies agree except on a single byte, which only the earlier copy returns as it is. |
| TryChadwick.UnlimitedAgreesWithinLimit | try-chadwick_Py3.py:437-453 | When the first NUL comes within myChadwick.py's limit, both decoders agree. |
| Ledger.Zero | printBattingStats.py:31-32 | Every key with the count 0. |
| Ledger.AddAll | printBattingStats.py:30-31 | Each key of the year's dictionary has its count added into the totals. Other totals keep their value, and the keys are unchanged. |
| Ledger.Clear | printBattingStats.py:29-32 | `clear` sets each total to the old total plus the old count and sets each count to 0. The same function is at printPitchingStats.py:86-89. |
| Ledger.RolledIsSum | printBattingStats.py:104-120 | After the years are rolled in, each total is the starting total plus the sum of that key over the years. |
| Ledger.RolledFromZero | printPitchingStats.py:160-176 | Totals rolled from zero are the key-by-key sums of the yearly dictionaries. |
| Ledger.PlayedYears | printBattingStats.py:104-107 | The loop visits the years of the range that have event files. |
| Ledger.PlayedYearsInOrder | printBattingStats.py:104-107 | The played years are increasing and include every year of the range with event files. |
| Ledger.CountCell | printBattingStats.py:140-141 | A count prints as its digits, and as a blank exactly when it is negative. |
| SeasonArgs.PlayerIdParam | printBattingStats.py:178-181 | A well-formed id (at least 8 characters, letters in 0-4, digits in 5-7) gives its first 8 characters. Anything else gives the fallback cut to 8. |
| SeasonArgs.PlayerIdShape | printBattingStats.py:178-181 | The id is always a well-formed 8-character id, and checking it again keeps it. |
| SeasonArgs.StartParam | printBattingStats.py:184 | The start is kept exactly when it lies from 1871 to 2020; otherwise it is the fallback. |
| SeasonArgs.EndParam | printBattingStats.py:187-188 | The end is never before the start. It is kept when given, non-zero, in range and not before the start; otherwise it is the start. |
| SeasonArgs.SeasonParams | printPitchingStats.py:277-290 | The checked arguments are a well-formed 8-character id and a non-empty range of season years. |
| BattingStats.KeysSorted | printBattingStats.py:24 | Sorting the dictionary's keys visits them in KEYS order, because the two-digit name prefixes increase. |
| BattingStats.PrefixOrder | printBattingStats.py:24 | Names with larger two-digit prefixes sort later. |
| BattingStats.KeyNamePrefix | printBattingStats.py:24 | Every key name starts with the two digits of its prefix. |
| BattingStats.Zeros | printBattingStats.py:89-91 | The dictionary has every key, each with the count 0. |
| BattingStats.AddBatter | printBattingStats.py:52-83 | The corrected line: every counting key grows by its own field, and RBI follows the -1 sentinel. |
| BattingStats.AddBatterAsWritten | printBattingStats.py:73-75 | As written, SO gains the walks, BB the intentional walks and IBB the strikeouts. Every other key is as in AddBatter. |
| BattingStats.StrikeoutsFiledUnderIbb | printBattingStats.py:73-75 | A batter with two strikeouts and no walks shows 0 SO and 2 IBB as written. The corrected line shows 2 SO and 0 IBB. |
| BattingStats.CollectedIsSum | printBattingStats.py:52-83 | Only the matching batter's lines are added. Each key grows by the sum, over the batter's appearances, of the field the script credits to it (walks under SO, intentional walks under BB, strikeouts under IBB), and RBI follows the sentinel. |
| BattingStats.ColumnsRotated | printBattingStats.py:73-75 | Against the intended credit, every key but SO, BB and IBB agrees, and those three are rotated: SO shows the intended BB gain, BB the intended IBB gain, IBB the intended SO gain. |
| BattingStats.CollectStats | printBattingStats.py:44-83 | The walk of both lineups adds the lines of exactly the matching player, with the as-written SO, BB and IBB credit. |
| BattingStats.CountsOverBothTeams | printBattingStats.py:52-83 | A game's counts are the batter's appearances for the visitors plus those for the home team. |
| BattingStats.CollectYear | printBattingStats.py:108-117 | A year's stats are its games added up from zero, as the script credits them. |
| BattingStats.YearStatsSnoc | printBattingStats.py:104-120 | One more played year adds one line, with its own stats. |
| BattingStats.RollYear | printBattingStats.py:104-120 | Rolling one more year into the totals gives the totals of the longer list of years. |
| BattingStats.PlayYear | printBattingStats.py:104-120 | One pass of the year loop adds the year's line and rolls its stats into the totals. |
| BattingStats.LookAtYear | printBattingStats.py:104-120 | A year without event files leaves the lines and totals as they were. Any other year adds its line and rolls its stats in, so both stay those of the played years so far. |
| BattingStats.RollYears | printBattingStats.py:104-120 | The loop yields one line per played year and the totals rolled from those years. |
| BattingStats.PrintStats | printBattingStats.py:85-135 | One line per played year with that year's games only, credited as the script is written, then a "Total" line holding, key by key, the sum of the year lines. |
| BattingStats.Cells | printBattingStats.py:137-142 | Every key in sorted order prints as its count, or a blank exactly when the count is negative. |
| BattingStats.InputParameters | printBattingStats.py:178-189 | The id is always well formed, falling back to "maysw101". The start falls back to 1954. The range is a non-empty range of season years. |
| PitchingStats.KeysSorted | printPitchingStats.py:55-57 | Sorting the dictionary's keys visits them in KEYS order. |
| PitchingStats.PrefixOrder | printPitchingStats.py:55-57 | Names with larger two-digit prefixes sort later. |
| PitchingStats.KeyNamePrefix | printPitchingStats.py:55-57 | Every key name starts with the two digits of its prefix. |
| PitchingStats.Zeros | printPitchingStats.py:55-57 | STATS_DICT has every key, each with the count 0. |
| PitchingStats.CollectedIsSum | printPitchingStats.py:113-149 | Only the matching pitcher's lines are added, field by field. Each key grows by the sum of its field over the pitcher's lines on both teams. |
| PitchingStats.NoAppearanceNoChange | printPitchingStats.py:113-149 | A game in which the pitcher did not appear leaves the pitcher's stats as they were. |
| PitchingStats.CollectStats | printPitchingStats.py:113-149 | Following both teams' pitcher chains adds the lines of exactly the matching pitcher. |
| PitchingStats.CollectYear | printPitchingStats.py:160-170 | A year's stats are its games added up from zero. |
| PitchingStats.YearStatsSnoc | printPitchingStats.py:160-176 | One more played year adds one line, with its own stats. |
| PitchingStats.RollYear | printPitchingStats.py:160-176 | Rolling one more year into the totals gives the totals of the longer list of years. |
| PitchingStats.PlayYear | printPitchingStats.py:160-176 | One pass of the year loop adds the year's line and rolls its stats into the totals. |
| PitchingStats.LookAtYear | printPitchingStats.py:160-176 | A year without event files leaves the lines and totals as they were. Any other year adds its line and rolls its stats in, so both stay those of the played years so far. |
| PitchingStats.RollYears | printPitchingStats.py:160-176 | The loop yields one line per played year and the totals rolled from those years. |
| PitchingStats.PrintStats | printPitchingStats.py:151-182 | One line per played year with that year's games only, then a "Total" line holding the key-by-key sum of the year lines. |
| PitchingStats.CellOf | printPitchingStats.py:213-219 | IP prints as innings pitched; every other key prints its count, or a blank exactly when the count is negative. |
| PitchingStats.Cells | printPitchingStats.py:211-220 | The counting cells in sorted key order. |
| PitchingStats.InningsCellReadsBack | printPitchingStats.py:213-217 | The IP cell's fractional digit is 0, 1 or 2, and with the whole innings it gives back the outs. |
| PitchingStats.PerNine | printPitchingStats.py:228-235 | The rate times the innings is nine times the count, and the rate is 0 without outs. |
| PitchingStats.Whip | printPitchingStats.py:225 | WHIP times the innings is walks plus hits, and WHIP is 0 without outs. |
| PitchingStats.SoPerBb | printPitchingStats.py:236 | SO/BB times the walks is the strikeouts, and SO/BB is 0 without walks. |
| PitchingStats.WinPct | printPitchingStats.py:238 | WL% is W/(W+L) times 100 when W > 0, and lies in (0, 100] with non-negative losses. It is 0 without wins. It is undefined (division by zero) exactly when W > 0 and W+L = 0. |
| PitchingStats.EraPerNineInnings | printPitchingStats.py:223-235 | ERA is earned runs per nine innings. With no outs, ERA, WHIP and H9 are 0. |
| PitchingStats.InputParameters | printPitchingStats.py:277-290 | The id is always well formed, falling back to "kersc001". The start falls back to 2014. The range is a non-empty range of season years. |
| PlayerStats.Initial | printPlayerStats.py:233 | The main loop's dictionary has exactly the seven keys, each with 0. |
| PlayerStats.ZeroKeys | printPlayerStats.py:46-50 | Exactly ab, bb, so, pa, bi, h and r become 0; other keys keep their counts. |
| PlayerStats.PrintPlayerStats.constructor | printPlayerStats.py:26-33 | The object starts with every per-side list at [0, 0]. |
| PlayerStats.PrintPlayerStats.Clear | printPlayerStats.py:35-50 | Resets the seven per-side lists to [0, 0]. A dictionary that is given and non-empty has its seven keys zeroed; otherwise it is left as it is. |
| PlayerStats.ClearRestarts | printPlayerStats.py:46-50 | Clearing the main loop's dictionary gives back the starting dictionary. |
| PlayerStats.AddPlayer | printPlayerStats.py:74-89 | The six summed keys grow by their fields, "bi" follows the -1 sentinel, and other keys are unchanged. |
| PlayerStats.CollectedIsSum | printPlayerStats.py:52-97 | Only the matching player's lines count: each summed key grows by its field summed over the player's appearances, and "bi" follows the sentinel. |
| PlayerStats.PrintPlayerStats.CollectStats | printPlayerStats.py:52-97 | The walk of both lineups adds the lines of exactly the matching player. |
| PlayerStats.CountsOverBothTeams | printPlayerStats.py:52-97 | A game's counts are the player's appearances for the visitors plus those for the home team. |
| PlayerStats.StatsLine | printPlayerStats.py:103-122 | The line is the year, then PA, AB, H, BB, SO and R, then RBI, or a blank exactly when RBI is negative. |
| PlayerStats.YearLines | printPlayerStats.py:235-249 | One line per year of the range, in year order. |
| PlayerStats.YearLinesAt | printPlayerStats.py:235-249 | Line i covers year start + i, from that year's games alone. |
| PlayerStats.ClearYear | printPlayerStats.py:249 | Clearing a year's dictionary zeroes it back to the dictionary the loop started from. |
| PlayerStats.CollectYear | printPlayerStats.py:237-245 | A year's dictionary is its games added up from the zeroed dictionary. |
| PlayerStats.PlayYear | printPlayerStats.py:235-249 | One pass of the year loop prints the line of the year's games alone and leaves the dictionary zeroed again. |
| PlayerStats.PrintYear | printPlayerStats.py:235-249 | One pass of the year loop extends the printed lines by the next year's line and leaves the dictionary zeroed. |
| PlayerStats.PrintYears | printPlayerStats.py:235-249 | One line per year of the range, each covering only its own year. |
| PlayerStats.ParamsAsWritten | printPlayerStats.py:158-169 | As written, an out-of-range end becomes 1955, and the end is reset to the start only when the raw end is below the raw start. The same code is at src/printPlayerStats_2021-01-22.py:220-231. |
| PlayerStats.EndBeforeStart | printPlayerStats.py:167-168 | Start 2000 with end 2021 gives the range 2000 to 1955, and start 1000 with end 1900 gives the range 1954 to 1900. Both ranges are empty. |
| PlayerStats.Params | printPlayerStats.py:158-169 | The corrected rule compares the end with the checked start. The range is never empty, and it agrees with the as-written rule whenever that rule gives a non-empty range from a raw end no earlier than the raw start. |
| PlayerStats.MainPlayerStats | printPlayerStats.py:174-249 | The arguments are checked as written, then there is one line for every year of the range. No year line is printed exactly when the checked end is before the checked start. |
| PlayerStats.MainPlayerStatsIntended | printPlayerStats.py:174-249 | With the intended check (Params), there is one line for every year of the range, and at least one line. |
| BattingLeaders.Zeros | battingLeaders.py:58-59 | STATS_DICT has every counting key, each with 0. |
| BattingLeaders.AddBox | battingLeaders.py:83-107 | One matching line adds each key's gain. XBH grows by 2B + 3B + HR, RBI only by a positive count, and XBH stays consistent. |
| BattingLeaders.CollectedIsSum | battingLeaders.py:73-113 | Only the matching batter's lines count. Each key grows by its gains summed over the batter's appearances. |
| BattingLeaders.CollectedKeepsXbh | battingLeaders.py:73-113 | Adding up a game's lines keeps XBH equal to doubles plus triples plus home runs. |
| BattingLeaders.PrintBattingLeaders.constructor | battingLeaders.py:66-71 | The stats and the totals both start as the all-zero dictionary. |
| BattingLeaders.PrintBattingLeaders.CollectStats | battingLeaders.py:73-113 | Each appearance of the batter records the game id and adds the batter's line. Nothing else changes. |
| BattingLeaders.CountBatter | battingLeaders.py:73-113 | Walking a game's players adds exactly the batter's lines, keeps XBH consistent, and records the game id once per appearance. |
| BattingLeaders.AddLine | battingLeaders.py:182-203 | A counted bline adds 1 game. PA grows by ab + sh + sf + hbp + bb + int. IBB and RBI only grow, and XBH stays consistent. |
| BattingLeaders.AtMostOnePerNewGame | battingLeaders.py:167-204 | At most one bline is counted per game not already seen, plus one for a game left open. |
| BattingLeaders.SeenGamesAddNothing | battingLeaders.py:167-177 | A file whose games were all seen in the event files adds nothing. |
| BattingLeaders.ScanFilesKeepsXbh | battingLeaders.py:155-206 | Reading the boxscore files keeps XBH equal to 2B + 3B + HR. |
| BattingLeaders.PrintBattingLeaders.CheckBoxscores | battingLeaders.py:155-206 | Scanning the rows updates only the stats, as ScanFiles describes. |
| BattingLeaders.Shown | battingLeaders.py:217 | A count prints as itself when positive, otherwise as 0. |
| BattingLeaders.TotalBasesByHit | battingLeaders.py:219-221 | TB counts singles once, doubles twice, triples three times and home runs four times. It is at least H when those counts are non-negative. |
| BattingLeaders.BattingAverage | battingLeaders.py:232 | BA times AB is H. BA is 0 without at-bats and lies in [0, 1] when H is at most AB. |
| BattingLeaders.OnBase | battingLeaders.py:237-239 | OBP times (AB+BB+HBP+SF) is H+BB+HBP. OBP is 0 when that denominator is 0 and lies in [0, 1] when the numerator is at most the denominator. |
| BattingLeaders.Slugging | battingLeaders.py:244 | SLG times AB is TB, and SLG is 0 without at-bats. |
| BattingLeaders.SluggingBounds | battingLeaders.py:232-244 | With consistent counts, BA is at most SLG and SLG is at most 4. |
| BattingLeaders.LineOf | battingLeaders.py:208-252 | The line shows the counts in key order and TB, then BA, OBP, SLG, and OPS = OBP + SLG. |
| BattingLeaders.PrintBattingLeaders.PrintStatLine | battingLeaders.py:208-252 | Prints the year's stats, or the totals for the total label. num_years grows exactly for a non-total line with G > 0. |
| BattingLeaders.LeaderParams | battingLeaders.py:294-336 | A stat that is not a header gives RBI. A limit outside [10, 120] gives 30. An out-of-range start gives 1954. The end is kept only when given, in range and not before the start, otherwise it is the start. |
| BattingLeaders.LeaderParamsIdempotent | battingLeaders.py:294-336 | Checking the checked arguments again changes nothing. |

## Left out

- The native library: everything behind ctypes is not part of this model. That covers event and roster parsing, `chadwick.games`, `cw_box_create` and the cwLibWrappers.py call-throughs. What `cw_roster_player_find` and `game_info_lookup` return, the box scores and the boxscore rows are inputs.
- I/O: printing, file and CSV opening, the existence checks, logging, argparse, timing and `exit()`. Printed output is returned as values.
- Column widths and padding: the `%2d`/`:5`/`ljust`/`rjust` layout and `get_print_strx`. Rows are returned as cells. This also drops the line break that `print("   ")` without `end=''` inserts after a -1 ER or BB in MyChadwick.PitcherRowAsWritten (myChadwick.py:406, 411). The remaining columns then go on the next line. A -1 SO (myChadwick.py:418) ends the line where it would end anyway.
- Rounding: Python `round` (banker's rounding) and floating point. The rate stats are exact reals.
- Averages: `print_ave_line` in printPitchingStats.py and battingLeaders.py, including the `(outs//3) + (outs%3)/10` pseudo-innings.
- `print_header`, `print_attendance` and `print_apparatus`: these only print library values or call the printers that are modelled.
- battingLeaders.py names the file does not define: `print_ldr_stats` and `sum_and_clear` rely on them, and `print_ldr_stats` passes `stat` as the batter id (battingLeaders.py:137). RETROSHEET_START/END_YEAR and LABEL_TOTAL are parameters of LeaderParams and PrintStatLine.
- The initial values of `game_ids` and `num_years`, which come from an undefined base class: the constructor starts them empty and at 0.
- BattingLeaders.LeaderParams: reads integers where the script reads `argp.start`/`argp.end`, attributes the parser does not define. A `None` limit, which raises TypeError, is not modelled.
- The battingLeaders TB, BA, OBP, SLG and OPS dictionary keys: they stay 0 and are never printed from the dictionary.
- The "15" BA header of printBattingStats.py, which has no matching key.
- CSV integer parsing of the `bline` fields, and FileNotFoundError handling.
- The WL% string cut `[:4]`.
- PlayerStats.PrintYears: the script's first loop raises when a year of the range has no event files, which is modelled as a requires.
- `PrintPlayerStats.add`: it stores a year's dictionary in `year_stats`, and the script never calls it.
- The per-side lists of printPlayerStats.py: they are reset and never read, so the class keeps them only to show the reset.
- Common.IsAlphaStr and Common.IsDecimalStr: they cover ASCII letters and digits only, not the Unicode classes Python's `isalpha`/`isdecimal` accept.
- MyChadwick.BioName: myChadwick.py:324 would raise on a None decoding, and the model returns None instead.
- MyChadwick.ShortRows: with a roster given, a player missing from it makes myChadwick.py:316 raise ValueError (`.contents` of the NULL lookup). The model prints the box-score name instead, which the script does only when no roster is given.
- MyChadwick.PrintText: inherits the ShortRows substitution, so a roster miss that raises at myChadwick.py:316 is printed with the box-score name.
- MyChadwick.PitcherRows: myChadwick.py:374 raises for a NULL roster and myChadwick.py:377 for a pitcher missing from the roster, so the `name = pitcher.name` branch at myChadwick.py:381-382 is unreachable. The model prints the box-score name in both cases instead of failing.
- BoxScore.Walk, BoxScore.WalkBoth and the printers built on them: a lineup without a slot-1 starter, on which every copy of the walk raises (printGameSummary.py:255, 269), is excluded by the requires `side[0] != []` (BoxScore.ValidLineup).
- CwTools.ChadwickTools.PrintPitcher: `p_roster.contents` raises for a NULL roster (cwTools.py:243, printGameSummary.py:455). The model's missing bio covers only a roster miss. No caller reaches the NULL case, because printGameSummary.py:186 raises first.
- CwTools.GroupEvents, CwTools.PlayerApparatus and CwTools.Hbp: the requires that every `mark` is 0 on entry stands for the library having zeroed them. The script only restores them at the end (cwTools.py:207-211), and events marked on entry are not modelled.
- The roster record's name fields are read as `POINTER(c_char)` arrays: the pychadwick structure definitions are not part of this model. This is the reading under which the name code works as written. Slicing `last_name` (`lpcc[:limit]`, cwTools.py:77) yields bytes, and `first_name[0]` is a one-byte bytes, which `.decode` (cwTools.py:362, 367) and `c_char_p_to_str(..., 1)` (cwTools.py:192, 200; printGameSummary.py:404, 412, 573, 578) both accept. Every printer's roster name is therefore the last name, a blank and the first initial, and the roster map holds that display name.
- src/try-chadwick-py3_2021-01-10.py:266 reads `bio.last_name` on the pointer returned by the lookup rather than on `bio.contents`, so that line raises on every roster hit. The model does not cover it.
- The HBP count: it is modelled as written, as the literal text " %d" that `print(" %d", count)` prints.
- try_chadwick.py, try_chadwick2.py, the cwrap experiments and src/cw_transfer.py: these are binding experiments and a pseudo-C transcription, not part of this model.
- Identical copies of a function are modelled once. The Model table names each place a member covers.

## Findings

| source | as written | input that shows it | evidently intended | confidence | as-written member | corrected member |
|---|---|---|---|---|---|---|
| printBattingStats.py:73-75 | "10so" adds walks, "11bb" intentional walks and "12ibb" strikeouts | a batter with so = 2 and bb = ibb = 0 shows SO 0 and IBB 2 | each key adds its own field | not executed | BattingStats.AddBatterAsWritten | BattingStats.AddBatter |
| printPlayerStats.py:167-168 | the end is reset to the start only when the raw end is below the raw start, and an out-of-range end becomes 1955 | start 2000, end 2021 gives the range 2000..1955; start 1000, end 1900 gives 1954..1900; both print no year | the end compared with the checked start, so the range is never empty | not executed | PlayerStats.ParamsAsWritten | PlayerStats.Params |
| myChadwick.py:390-395 | the tag is added when the recorded id differs from the pitcher's (a bytes id never equals a str in Python 3) | a game with a winner tags every pitcher "(W)" | tag only the pitcher whose id is recorded | not executed | MyChadwick.DecisionAsWritten | CwTools.Decision |
| myChadwick.py:398-401 | the marker loop runs note_count // 3 times, and the increment of the by-value note_count is lost | the first noted pitcher gets no marker | note n gets n // 3 + 1 markers and the count advances | not executed | MyChadwick.MarkersAsWritten | CwTools.Markers |
| myChadwick.py:410-411 | the BB column prints `pitching.h` | h = 5, bb = 2 prints 5 under BB | print the walks | not executed | MyChadwick.PitcherRowAsWritten | CwTools.ChadwickTools.PrintPitcher |
