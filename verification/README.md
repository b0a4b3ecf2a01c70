# LotteryBuddy, modelled in Dafny

LotteryBuddy is two scheduled Python scripts. Each day the recommendation job
picks the day's game from the weekday:

- 大乐透 (five front numbers and two back numbers);
- 双色球 (six red numbers and one blue number).

The recommendation job then looks for a ticket already saved for today in the
month's JSON file in the repository. Only when it finds none does it draw a
random ticket and save it. The check job reads the saved ticket string back. It
intersects the ticket with the seven scraped winning numbers and maps the match
counts through a fixed prize table. It also builds a side-by-side comparison of
the numbers for the result mail.

This project models the deterministic core of both scripts:

| file | module | models |
|---|---|---|
| `wrappers.dfy` | `Wrappers` | `Option`, used wherever Python would raise |
| `pytext.dfy` | `PyText` | the Python built-ins the scripts rely on: `str.strip()` with Python's whitespace set, `str.split(c)`, `str.replace(old, "")`, `sep.join`, `str(n)`, `int(s)` and `f"{n:02d}"` |
| `games.dfy` | `Games` | the two games, `get_lottery_type` and the shape of a valid ticket |
| `ticket_format.dfy` | `TicketFormat` | the ticket string written by `generate_numbers`; its parser in `check_winning` and `format_number_comparison`; the parsing of the seven winning fields; the write-then-read round trip |
| `recommendation.dfy` | `Recommendation` | `generate_numbers`, with the random draw as an input |
| `check.dfy` | `Check` | match counts, the two prize tables, `check_winning`, `format_number_comparison` |
| `store.dfy` | `Store` | the month documents and their date keys; `get_recommended_numbers`, `save_recommended_numbers` and the recommendation job's `main`, as a class over a map of documents |

Modelling choices:

- Where Python raises (`ValueError` from `int()`, `IndexError` on a string
  without the full-width comma), the model returns `None`.
- `lottery_type` stays a string, as in the scripts. Every branch tests
  `lottery_type == "大乐透"`, so any other string behaves as 双色球 (`Games.Branch`).
- The random draw is an input. It is constrained only by what
  `random.sample` and `random.randint` guarantee: the right count, distinct
  values, the right range.
- Each HTTP exchange with the repository is a boolean input:
  - `fetchOk`: the GET of an existing file answered 200 and decoded;
  - `committed`: the token check and the PUT both succeeded.

## Model

| member | source | states |
|---|---|---|
| Games.Branch | scripts/lottery_check.py:84 | The 大乐透 branch is taken exactly when `lottery_type` equals "大乐透"; every other string takes the 双色球 branch |
| Games.Name | scripts/lottery_recommendation.py:18-21 | No contract of its own: the two strings `get_lottery_type` returns. NamesSelectTheirGame states that they differ and that Branch maps each back to its game |
| Games.NamesSelectTheirGame | scripts/lottery_check.py:84-114 | The two game names differ, and each name selects its own branch |
| Games.LotteryType | scripts/lottery_recommendation.py:13-21 | The recommendation job's schedule: weekdays 0, 2 and 5 give 大乐透, every other weekday gives 双色球, and the result is always one of the two names |
| Games.ScheduleFollowsDrawDays | scripts/lottery_recommendation.py:13-21 | The schedule gives each weekday exactly one game. Each draw day listed in the comments on lines 16-17 (大乐透 on Monday, Wednesday and Saturday; 双色球 on Tuesday, Thursday and Sunday) gets its own game. Friday is on neither list and gets 双色球 |
| PyText.IsSpace | scripts/lottery_check.py:87 | No contract of its own: the characters Python's `str.isspace()` accepts, which `strip()` removes. Strip, StripLeftDropsSpaces and StripRightDropsSpaces state that exactly these are removed from the ends |
| PyText.Strip | scripts/lottery_check.py:87 | `strip()` returns a contiguous slice of its input: a prefix of what StripLeft leaves, itself a suffix of the input. It is made of the input's characters and has no whitespace at either end |
| PyText.StripLeft | scripts/lottery_check.py:87 | Its contract: the result is a suffix of the input, no longer than it, that does not start with whitespace. StripLeftDropsSpaces states that everything dropped is whitespace |
| PyText.StripRight | scripts/lottery_check.py:87 | Its contract: the result is a prefix of the input, no longer than it, that does not end with whitespace. StripRightDropsSpaces states that everything dropped is whitespace |
| PyText.StripLeftDropsSpaces | scripts/lottery_check.py:87 | Every character `strip()` drops from the front is whitespace |
| PyText.StripRightDropsSpaces | scripts/lottery_check.py:87 | Every character `strip()` drops from the back is whitespace |
| PyText.StripLeadingSpace | scripts/lottery_check.py:87 | A leading whitespace character never survives `strip()` |
| PyText.Split | scripts/lottery_check.py:86 | `split(c)` returns at least one piece, and no piece contains `c` |
| PyText.Join | scripts/lottery_recommendation.py:30 | No contract of its own. JoinSplit and SplitJoin state that joining and splitting at the same separator undo each other on separator-free pieces |
| PyText.JoinSplit | scripts/lottery_check.py:86 | Joining the pieces of `split(c)` with `c` restores the string |
| PyText.SplitJoin | scripts/lottery_check.py:87 | Splitting a join of separator-free pieces gives back exactly those pieces |
| PyText.SplitAfter | scripts/lottery_check.py:86 | A separator-free prefix followed by the separator is split off as the first piece |
| PyText.Replace | scripts/lottery_check.py:86 | No contract of its own. ReplaceAbsent, ReplaceFront and ReplaceSkip state its left-to-right, non-overlapping replacement |
| PyText.ReplaceAbsent | scripts/lottery_check.py:86 | `replace` leaves a string alone when the pattern's first character does not occur in it |
| PyText.ReplaceFront | scripts/lottery_check.py:86 | A pattern at the front is replaced, and scanning continues after it |
| PyText.ReplaceSkip | scripts/lottery_check.py:86 | A prefix without the pattern's first character passes through `replace` unchanged |
| PyText.NatStr | scripts/lottery_recommendation.py:30 | `str(n)` for `n >= 0` is a run of digits with value `n`, with no leading zero unless `n` is 0 |
| PyText.Str | scripts/lottery_recommendation.py:30 | `str(n)` is non-empty and uses only digits and '-' |
| PyText.PyInt | scripts/lottery_check.py:87-92 | No contract of its own: `int(s)` strips, then reads with ReadInt. StrRoundTrip and Pad2ReadsBack state that it reads `str(n)` and `f"{n:02d}"` back as `n`. TicketFormat.ParseNumberIsInt states that stripping first changes nothing |
| PyText.ReadInt | scripts/lottery_check.py:87-92 | No contract of its own: an optional sign, then one or more ASCII digits, else `None` for `ValueError`. NatStrReadsBack and NegativeReadsBack state that it reads every written integer back |
| PyText.NatStrReadsBack | scripts/lottery_check.py:87 | `str(n)` for `n >= 0` is unchanged by `strip()` and reads back as `n` |
| PyText.NegativeReadsBack | scripts/lottery_check.py:87 | `str(n)` for `n < 0`, a '-' and the digits of `-n`, is unchanged by `strip()` and reads back as `n` |
| PyText.StrRoundTrip | scripts/lottery_check.py:87 | `int(str(n)) == n` for every integer, negatives included, and `str(n)` is unchanged by `strip()` |
| PyText.Pad2 | scripts/lottery_check.py:237 | `f"{n:02d}"` has at least two characters and no space; for 0..99 it is exactly two digits |
| PyText.Pad2ReadsBack | scripts/lottery_check.py:237 | `int(f"{n:02d}") == n` |
| PyText.SetOf | scripts/lottery_check.py:95-97 | No contract of its own: `set(xs)`, also at line 125. SetOfSize and Check.MatchCount state its size bounds |
| PyText.SetOfSize | scripts/lottery_check.py:95 | `set(xs)` has at most `len(xs)` elements |
| TicketFormat.Decimals | scripts/lottery_recommendation.py:30 | `map(str, ns)` gives one string per number, each equal to `str` of that number |
| TicketFormat.Group | scripts/lottery_recommendation.py:30 | No contract of its own. GroupRoundTrip states that ParseGroup reads a written group back exactly |
| TicketFormat.Render | scripts/lottery_recommendation.py:30-36 | No contract of its own. ParseRender states that the checker's parser reads a rendered ticket back into the same ticket |
| TicketFormat.ParseNumber | scripts/lottery_check.py:87 | No contract of its own. ParseNumberIsInt states that it agrees with `int(n)`, and StrPiece that it reads `str(n)` back as `n` |
| TicketFormat.ParseNumberIsInt | scripts/lottery_check.py:87-91 | `int(n.strip())` and `int(n)` always agree, so the ticket pieces and the winning fields are read alike |
| TicketFormat.ParseEach | scripts/lottery_check.py:87 | A list comprehension over a per-piece parser: a parsed list has one value per piece |
| TicketFormat.ParseNumbers | scripts/lottery_check.py:87 | No contract of its own: ParseEach with ParseNumber as the per-piece parser. ParseEachPointwise states its values |
| TicketFormat.ParseGroup | scripts/lottery_check.py:87 | No contract of its own. GroupRoundTrip states that it reads a written group back exactly |
| TicketFormat.ParseEachPointwise | scripts/lottery_check.py:87 | A list parses exactly when every piece parses, and then holds each piece's value at that piece's index |
| TicketFormat.SplitParse | scripts/lottery_check.py:91-92 | Cutting a list in two: both halves parse exactly when the whole does |
| TicketFormat.CutValues | scripts/lottery_check.py:91-92 | After a cut, the first half holds the values of the first pieces in order, and the second half those of the rest |
| TicketFormat.Parse | scripts/lottery_check.py:84-88 | A parsed ticket string yields a ticket of the game selected by `lottery_type` |
| TicketFormat.ParseWinning | scripts/lottery_check.py:91-92 | Parsed winning fields give five front and two back numbers for 大乐透, or six red numbers and a blue for 双色球 |
| TicketFormat.WinningDefined | scripts/lottery_check.py:91-92 | The seven winning fields parse exactly when all seven are integers |
| TicketFormat.DefinedAtCut | scripts/lottery_check.py:121-122 | The fields before and after the cut both parse exactly when every field does |
| TicketFormat.WinningDaLeTou | scripts/lottery_check.py:91-92 | The front group is fields 0..4 in order, and the back group is fields 5 and 6 |
| TicketFormat.WinningShuangSeQiu | scripts/lottery_check.py:121-122 | The red group is fields 0..5 in order, and the blue number is field 6 |
| TicketFormat.GroupRoundTrip | scripts/lottery_check.py:87 | Reading back a non-empty group written by `', '.join(map(str, ns))` gives exactly `ns` |
| TicketFormat.RenderedGroups | scripts/lottery_check.py:86 | Removing both labels from a generated string and splitting at '，' gives exactly the two written groups |
| TicketFormat.StrPiece | scripts/lottery_check.py:87 | `str(n)` holds no comma, and `int(str(n).strip()) == n` |
| TicketFormat.ParseRender | scripts/lottery_recommendation.py:30-36 | Round trip: the checker's parser reads a generated ticket string back into the very ticket it was written from |
| Recommendation.Sample | scripts/lottery_recommendation.py:27-33 | No contract of its own: what `random.sample(range(lo, hi + 1), count)` guarantees, which is the right count of distinct values in range. SortedSampleIsPick states that sorting it gives a valid pick |
| Recommendation.DrawFor | scripts/lottery_recommendation.py:25-35 | No contract of its own: the draw each game makes, with `random.randint(1, 16)` for the blue number. It is the requires of GenerateNumbers and of Store.RecordStore.RunRecommendation |
| Recommendation.Insert | scripts/lottery_recommendation.py:27 | No contract of its own: the insertion step of `sorted`. InsertAdds, InsertSorted and InsertDistinct state its properties |
| Recommendation.InsertAdds | scripts/lottery_recommendation.py:27 | The insertion step of `sorted` adds exactly the one value to the multiset |
| Recommendation.InsertSorted | scripts/lottery_recommendation.py:27 | Inserting into an ascending list keeps it ascending |
| Recommendation.InsertDistinct | scripts/lottery_recommendation.py:27 | Inserting a new value into a list without repeats keeps it without repeats |
| Recommendation.SortAscending | scripts/lottery_recommendation.py:27 | `sorted(xs)` is ascending and holds the same multiset of values as `xs` |
| Recommendation.SortKeepsDistinct | scripts/lottery_recommendation.py:27 | Sorting values drawn without repeats leaves them without repeats |
| Recommendation.SortedSampleIsPick | scripts/lottery_recommendation.py:27-35 | A sorted sample has the requested count of distinct, ascending values within the sampled range |
| Recommendation.TicketOf | scripts/lottery_recommendation.py:25-36 | No contract of its own: each sampled group sorted. GenerateNumbers states that the written ticket holds exactly the drawn values, and SortedSampleIsPick that each group is a valid pick |
| Recommendation.GenerateNumbers | scripts/lottery_recommendation.py:23-36 | The analysis is always `{}`. The ticket string parses back, with the checker's parser, into a valid ticket of the requested game holding exactly the drawn values |
| Check.MatchCount | scripts/lottery_check.py:95-97 | A match count is at most the size of either group, and of either group's set |
| Check.MatchCountOfSets | scripts/lottery_check.py:95-97 | A match count depends only on the values in each group, and swapping the two groups leaves it unchanged |
| Check.PermutationKeepsValues | scripts/lottery_check.py:125 | Reordering a group keeps its values |
| Check.RepeatKeepsValues | scripts/lottery_check.py:125 | Repeating one of a group's entries keeps its values |
| Check.Message | scripts/lottery_check.py:100-113 | No contract of its own: the seven sentences returned at lines 100-113 and 130-143. MessagesDistinct states that they are pairwise different |
| Check.MessagesDistinct | scripts/lottery_check.py:100-113 | The seven result sentences are pairwise different |
| Check.DltTier | scripts/lottery_check.py:100-113 | No contract of its own: the first-match-wins chain. DltTable states each tier's exact (front, back) pairs |
| Check.SsqTier | scripts/lottery_check.py:130-143 | No contract of its own: the first-match-wins chain. SsqTable states each tier's exact (red, blue) results |
| Check.DltTable | scripts/lottery_check.py:100-113 | The 大乐透 tiers, each as exactly its (front, back) pairs: (5,2) 一等; (5,1) 二等; (5,0) 三等; (4,2) 四等; (4,1) or (3,2) 五等; (4,0), (3,1) or (2,2) 六等; any other pair, including every pair with front ≤ 1, wins nothing |
| Check.SsqTable | scripts/lottery_check.py:130-143 | The 双色球 tiers, each as exactly its (red, blue) results. 六等 holds exactly when the blue matches and red is 0, 1 or 2, because `and` binds tighter than `or` on line 140. Red 0..3 without a blue match wins nothing |
| Check.DltMoreMatchesNeverWorse | scripts/lottery_check.py:100-113 | Within reachable counts, more 大乐透 matches never give a worse tier |
| Check.SsqMoreMatchesNeverWorse | scripts/lottery_check.py:130-143 | Within reachable counts, more 双色球 matches never give a worse tier |
| Check.Classify | scripts/lottery_check.py:95-97 | No contract of its own: the tier from the two match counts (lines 95-97 and 125-127). ClassifySymmetric and ClassifyByValues state its properties |
| Check.ClassifySymmetric | scripts/lottery_check.py:95-97 | Swapping the recommended and winning tickets gives the same tier |
| Check.ClassifyByValues | scripts/lottery_check.py:125-127 | Tickets with the same values in each group, in any order and with any repeats, get the same tier |
| Check.CheckWinning | scripts/lottery_check.py:82-143 | No contract of its own. CheckWinningDefined states when it raises and that it returns one of the seven sentences. CheckGeneratedTicket states that a generated ticket is judged on its own numbers |
| Check.CheckWinningDefined | scripts/lottery_check.py:82-143 | `check_winning` raises exactly when the ticket string does not parse or a winning field is not an integer; otherwise it returns one of the seven sentences |
| Check.CheckGeneratedTicket | scripts/lottery_check.py:82-143 | A generated ticket string is judged on exactly the numbers it was generated from |
| Check.ExampleSsqFirst | scripts/lottery_check.py:130-131 | All six reds and the blue match: 一等奖 |
| Check.ExampleSsqThird | scripts/lottery_check.py:134-135 | Five reds and the blue match: 三等奖 |
| Check.ExampleDltFifth | scripts/lottery_check.py:108-109 | Four front and one back match: 五等奖 |
| Check.ExampleDltNoWin | scripts/lottery_check.py:112-113 | No matches: no prize |
| Check.Padded | scripts/lottery_check.py:237-240 | One `f"{n:02d}"` string per number, in order |
| Check.PaddedRow | scripts/lottery_check.py:237-240 | No contract of its own. PaddedRowFields states that the row splits back into one two-digit field per number |
| Check.PaddedRowFields | scripts/lottery_check.py:237-240 | A padded row splits at its spaces into one field per number. Each field reads back as its number, and each number in 0..99 (so every number 1..35) takes exactly two digits |
| Check.Row | scripts/lottery_check.py:233-246 | No contract of its own: both padded rows and the set of shared values. PaddedRowFields and ComparisonAgreesWithVerdict state their properties |
| Check.FormatNumberComparison | scripts/lottery_check.py:220-283 | No contract of its own. ComparisonAgreesWithVerdict states that it exists exactly when `check_winning` returns a sentence, and that its matched sets give that sentence |
| Check.ComparisonAgreesWithVerdict | scripts/lottery_check.py:220-283 | The comparison exists exactly when `check_winning` returns a sentence. That sentence is the prize table applied to the sizes of the matched sets the comparison shows |
| Store.Year | scripts/lottery_recommendation.py:64 | `%Y` of a four-digit year is four digits |
| Store.YearInjective | scripts/lottery_recommendation.py:64 | Different years are written differently |
| Store.MonthKey | scripts/lottery_recommendation.py:64 | `%Y-%m` is seven characters: the year, '-', and the two-digit month |
| Store.DayKey | scripts/lottery_recommendation.py:66 | `%Y-%m-%d` is ten characters and begins with the month string `%Y-%m` |
| Store.FilePath | scripts/lottery_recommendation.py:78 | The file path holds the month string at a fixed position |
| Store.KeysIdentifyDates | scripts/lottery_recommendation.py:64-78 | Month strings and file paths are equal exactly for the same year and month. Day keys are equal exactly for the same date |
| Store.TodayIsFiled | scripts/lottery_recommendation.py:64-78 | Today's key is stored in the file named by that key's month prefix |
| Store.LookupIn | scripts/lottery_recommendation.py:174-184 | No contract of its own. LookupAfterSave, SaveLeavesOtherKeys and SaveLeavesOtherDays state what a lookup finds after a save |
| Store.SaveIn | scripts/lottery_recommendation.py:106-118 | No contract of its own. SaveWritesOnlyToday, FailedReadStartsEmpty and SaveKeepsFiled state what a save writes and what it leaves alone |
| Store.SaveKeepsFiled | scripts/lottery_recommendation.py:118 | Saving keeps every record under its own date key, in the file of that key's month |
| Store.FiledMonthHoldsItsDays | scripts/lottery_recommendation.py:64-78 | When every record is filed under its own date, a month's file holds only that month's days, each record dated with its own key |
| Store.SaveWritesOnlyToday | scripts/lottery_recommendation.py:101-118 | A committed save stores today's record. Every other file is unchanged. After a good read, every other day of the month is unchanged. An uncommitted save changes nothing |
| Store.FailedReadStartsEmpty | scripts/lottery_recommendation.py:109-115 | When the read fails, the written document holds today's key alone |
| Store.LookupAfterSave | scripts/lottery_recommendation.py:179-180 | After a committed save, a lookup of the same day finds the saved numbers and analysis for the same game, and nothing for any other game |
| Store.SaveLeavesOtherKeys | scripts/lottery_recommendation.py:118 | After a good read, a save changes no lookup under any other key |
| Store.SaveLeavesOtherDays | scripts/lottery_recommendation.py:118 | After a good read, a save changes no lookup of any other date |
| Store.RecordStore.GetRecommendedNumbers | scripts/lottery_recommendation.py:152-184 | Returns numbers and analysis only when today's key is in this month's document and its stored game matches; otherwise `None` |
| Store.RecordStore.SaveRecommendedNumbers | scripts/lottery_recommendation.py:61-150 | Writes back the month's document as read, or `{}`, with today's key set, and only when committed. Any document is accepted, hand-edited ones included. SaveKeepsFiled states that a save keeps filed documents filed |
| Store.RecordStore.RunRecommendation | scripts/lottery_recommendation.py:186-198 | Uses today's game. When the lookup finds a ticket, returns it and writes nothing. Only when it finds none does it generate a ticket and save exactly that |
| Store.RecordStore.RunTwiceSameDay | scripts/lottery_recommendation.py:192-198 | With the first run's save committed and the second lookup succeeding, a second run on the same day returns the first run's numbers and analysis and writes nothing: the final store is the first run's result |

## Left out

- `get_lottery_result`: HTTP, HTML scraping and gb2312 decoding are foreign I/O. Its result enters only as the `winning` parameter, which must hold seven fields.
- The GitHub contents API: the token check, the GET and PUT requests, base64, JSON and the `sha` version token. Only the map logic is kept. A GET that fails, or content that does not decode, is `fetchOk == false`. A token check that fails, or a PUT that is refused, is `committed == false`.
- Store.RecordStore.SaveRecommendedNumbers: `committed` is a free input. The model therefore allows a committed save after a failed read of an existing file, which replaces the month's document. In practice the repository refuses a PUT without `sha` for an existing file.
- `send_email`, the HTML bodies of both `main` functions, and all printing: SMTP and presentation.
- `datetime.now()`: the weekday and the date are independent inputs, not derived from one clock reading. `get_recommended_numbers` and `save_recommended_numbers` each read the clock separately; the model gives both the same date, so a run straddling midnight is not modelled.
- Store.Year: only four-digit years (1000..9999) are modelled, where `%Y` is always four digits.
- The randomness itself: uniformity is not modelled. The draw is an input constrained by `random.sample` and `random.randint`'s guarantees.
- PyText.PyInt: Python's `int()` also accepts underscores between digits and non-ASCII decimal digits. The model rejects both. Generated strings never contain them.
- Check.FormatNumberComparison: the matched numbers are a set, because Python's print order for a set is unspecified. The rest of the HTML markup is left out.
- The check job's `main` (scripts/lottery_check.py:168-218). It calls `get_lottery_type` and `get_recommended_numbers`, and returns early when no recommendation is found. It then calls `get_lottery_result`. When that yields numbers, it calls `check_winning` and `format_number_comparison` and sends the mail; otherwise it prints and ends. Its own logic is printing and presentation. Each function it calls is modelled, except `get_lottery_result` and `send_email`.
- `os.getenv` configuration (repository owner and name, token, mail credentials).
