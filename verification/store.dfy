/**
 * The recommendation records kept in the repository: one JSON document per
 * month, `data/recommended_numbers_YYYY-MM.json`, mapping each day key
 * `YYYY-MM-DD` to that day's record. The GitHub contents API, base64 and JSON
 * are left out; each document is a map, and the outcome of each HTTP exchange
 * is a boolean input.
 */
module Store {
  import opened Wrappers
  import opened PyText
  import opened Games
  import opened Recommendation

  /** The calendar date `datetime.now()` reports. */
  datatype Date = Date(year: int, month: int, day: int)

  /** A four-digit year, a month and a day of the month. */
  predicate ValidDate(d: Date) {
    1000 <= d.year <= 9999 && 1 <= d.month <= 12 && 1 <= d.day <= 31
  }

  /** `%Y` for a four-digit year. */
  function Year(y: int): (r: string)
    requires 1000 <= y <= 9999
    ensures |r| == 4 && IsDigits(r)
  {
    Pad2(y / 100) + Pad2(y % 100)
  }

  /** Different four-digit years are written differently. */
  lemma YearInjective(y: int, z: int)
    requires 1000 <= y <= 9999 && 1000 <= z <= 9999
    ensures Year(y) == Year(z) <==> y == z
  {
    Pad2ReadsBack(y / 100);
    Pad2ReadsBack(z / 100);
    Pad2ReadsBack(y % 100);
    Pad2ReadsBack(z % 100);
    if Year(y) == Year(z) {
      assert Pad2(y / 100) == Year(y)[..2] == Year(z)[..2] == Pad2(z / 100);
      assert Pad2(y % 100) == Year(y)[2..] == Year(z)[2..] == Pad2(z % 100);
    }
  }

  /** The three parts of `a + b + c` can be sliced back out. */
  lemma Slices(a: string, b: string, c: string)
    ensures (a + b + c)[..|a|] == a
    ensures (a + b + c)[|a|..|a| + |b|] == b
    ensures (a + b + c)[|a| + |b|..] == c
  {
  }

  /** `today.strftime('%Y-%m')`, the month that names the file. */
  function MonthKey(d: Date): (k: string)
    requires ValidDate(d)
    ensures |k| == 7 && k[4] == '-'
    ensures k[..4] == Year(d.year) && k[5..] == Pad2(d.month)
  {
    var y, m := Year(d.year), Pad2(d.month);
    Slices(y, "-", m);
    y + "-" + m
  }

  /** `today.strftime('%Y-%m-%d')`, the key of the day's record. */
  function DayKey(d: Date): (k: string)
    requires ValidDate(d)
    ensures |k| == 10 && k[7] == '-'
    ensures k[..7] == MonthKey(d) && k[8..] == Pad2(d.day)
  {
    var m, dd := MonthKey(d), Pad2(d.day);
    Slices(m, "-", dd);
    m + "-" + dd
  }

  const PathPrefix := "data/recommended_numbers_"
  const PathSuffix := ".json"

  /** `f'data/recommended_numbers_{month}.json'`. */
  function FilePath(d: Date): (p: string)
    requires ValidDate(d)
    ensures |p| == |PathPrefix| + 7 + |PathSuffix|
    ensures p[|PathPrefix|..|PathPrefix| + 7] == MonthKey(d)
  {
    Slices(PathPrefix, MonthKey(d), PathSuffix);
    PathPrefix + MonthKey(d) + PathSuffix
  }

  /**
   * Months name files one-to-one, days name keys one-to-one, and two days
   * share a file exactly when they fall in the same month.
   */
  lemma KeysIdentifyDates(d: Date, e: Date)
    requires ValidDate(d) && ValidDate(e)
    ensures MonthKey(d) == MonthKey(e) <==> d.year == e.year && d.month == e.month
    ensures FilePath(d) == FilePath(e) <==> d.year == e.year && d.month == e.month
    ensures DayKey(d) == DayKey(e) <==> d == e
  {
    YearInjective(d.year, e.year);
    Pad2ReadsBack(d.month);
    Pad2ReadsBack(e.month);
    Pad2ReadsBack(d.day);
    Pad2ReadsBack(e.day);
    if MonthKey(d) == MonthKey(e) {
      assert Pad2(d.month) == MonthKey(d)[5..] == MonthKey(e)[5..] == Pad2(e.month);
    }
    if FilePath(d) == FilePath(e) {
      assert MonthKey(d) == FilePath(d)[|PathPrefix|..|PathPrefix| + 7] == MonthKey(e);
    }
    if DayKey(d) == DayKey(e) {
      assert MonthKey(d) == DayKey(d)[..7] == MonthKey(e);
      assert Pad2(d.day) == DayKey(d)[8..] == Pad2(e.day);
    }
  }

  // ---------------------------------------------------------------- documents

  /** The `data` dictionary `save_recommended_numbers` writes for a day. */
  datatype Record = Record(date: string, lotteryType: string, numbers: string, analysis: Analysis)

  /** One month's document: day key to record. */
  type Document = map<string, Record>

  /** The repository's documents: file path to document. */
  type Files = map<string, Document>

  /** Every record sits under its own date key, in the file of that key's month. */
  predicate Filed(files: Files) {
    forall p | p in files :: forall k | k in files[p] ::
      |k| == 10 && p == PathPrefix + k[..7] + PathSuffix && files[p][k].date == k
  }

  /** Today's record belongs under today's day key, in the file of today's month. */
  lemma TodayIsFiled(today: Date)
    requires ValidDate(today)
    ensures |DayKey(today)| == 10 && FilePath(today) == PathPrefix + DayKey(today)[..7] + PathSuffix
  {
  }

  /**
   * In filed documents, the file of a month holds only that month's days,
   * each under its own date.
   */
  lemma FiledMonthHoldsItsDays(files: Files, d: Date, k: string)
    requires Filed(files) && ValidDate(d)
    requires FilePath(d) in files && k in files[FilePath(d)]
    ensures |k| == 10 && k[..7] == MonthKey(d) && files[FilePath(d)][k].date == k
  {
    Slices(PathPrefix, k[..7], PathSuffix);
  }

  /**
   * `get_recommended_numbers(lottery_type)` on the documents `files`, for the
   * month file `path` and the day key `key`; `fetchOk` says whether the GET of
   * an existing file answered 200. A record comes back only when the key is in
   * the month's document and was saved for the same game.
   */
  function LookupIn(files: Files, path: string, key: string, lotteryType: string, fetchOk: bool): Option<(string, Analysis)> {
    if fetchOk && path in files && key in files[path] && files[path][key].lotteryType == lotteryType
    then Some((files[path][key].numbers, files[path][key].analysis))
    else None
  }

  /**
   * The documents after `save_recommended_numbers`: the month's document as
   * read (or `{}` when the read failed or the file is missing), with the day's
   * key set, is written back when `committed` (the token check and the PUT
   * both succeeded).
   */
  function SaveIn(files: Files, path: string, key: string, lotteryType: string, numbers: string, analysis: Analysis,
                  fetchOk: bool, committed: bool): Files
  {
    var existing := if fetchOk && path in files then files[path] else map[];
    if committed then files[path := existing[key := Record(key, lotteryType, numbers, analysis)]]
    else files
  }

  /** Saving keeps every record under its own date key, in the file of its month. */
  lemma SaveKeepsFiled(files: Files, path: string, key: string, lotteryType: string, numbers: string, analysis: Analysis,
                       fetchOk: bool, committed: bool)
    requires Filed(files)
    requires |key| == 10 && path == PathPrefix + key[..7] + PathSuffix
    ensures Filed(SaveIn(files, path, key, lotteryType, numbers, analysis, fetchOk, committed))
  {
  }

  /**
   * A save stores the day's record, and only that: every other file is
   * untouched, and when the month's document was read, every other day in it
   * is untouched too; an uncommitted save changes nothing.
   */
  lemma SaveWritesOnlyToday(files: Files, path: string, key: string, lotteryType: string, numbers: string,
                            analysis: Analysis, fetchOk: bool, committed: bool, p: string, k: string)
    ensures var after := SaveIn(files, path, key, lotteryType, numbers, analysis, fetchOk, committed);
      && (committed ==> path in after && key in after[path] && after[path][key] == Record(key, lotteryType, numbers, analysis))
      && (p != path ==> (p in after <==> p in files) && (p in files ==> after[p] == files[p]))
      && (committed && fetchOk && path in files && k != key ==>
            (k in after[path] <==> k in files[path]) && (k in files[path] ==> after[path][k] == files[path][k]))
      && (!committed ==> after == files)
  {
  }

  /**
   * When the month's document could not be read, the save starts from `{}`:
   * the written document holds the day's key alone.
   */
  lemma FailedReadStartsEmpty(files: Files, path: string, key: string, lotteryType: string, numbers: string,
                              analysis: Analysis)
    ensures path in SaveIn(files, path, key, lotteryType, numbers, analysis, false, true)
    ensures SaveIn(files, path, key, lotteryType, numbers, analysis, false, true)[path].Keys == {key}
  {
  }

  /**
   * A committed save is found by the next lookup of the same day and game,
   * and by no lookup for another game.
   */
  lemma LookupAfterSave(files: Files, path: string, key: string, lotteryType: string, numbers: string,
                        analysis: Analysis, fetchOk: bool, other: string)
    ensures LookupIn(SaveIn(files, path, key, lotteryType, numbers, analysis, fetchOk, true), path, key, lotteryType, true)
            == Some((numbers, analysis))
    ensures other != lotteryType ==>
      LookupIn(SaveIn(files, path, key, lotteryType, numbers, analysis, fetchOk, true), path, key, other, true) == None
  {
  }

  /** A save made after a good read changes no lookup under any other key. */
  lemma SaveLeavesOtherKeys(files: Files, path: string, key: string, lotteryType: string, numbers: string,
                            analysis: Analysis, committed: bool, path': string, key': string, other: string, ok: bool)
    requires key' != key
    ensures LookupIn(SaveIn(files, path, key, lotteryType, numbers, analysis, true, committed), path', key', other, ok)
            == LookupIn(files, path', key', other, ok)
  {
  }

  /** A save made after a good read changes no lookup of any other day. */
  lemma SaveLeavesOtherDays(files: Files, today: Date, lotteryType: string, numbers: string, analysis: Analysis,
                            committed: bool, d: Date, other: string, ok: bool)
    requires ValidDate(today) && ValidDate(d) && d != today
    ensures LookupIn(SaveIn(files, FilePath(today), DayKey(today), lotteryType, numbers, analysis, true, committed),
                     FilePath(d), DayKey(d), other, ok)
            == LookupIn(files, FilePath(d), DayKey(d), other, ok)
  {
    KeysIdentifyDates(d, today);
    SaveLeavesOtherKeys(files, FilePath(today), DayKey(today), lotteryType, numbers, analysis, committed,
                        FilePath(d), DayKey(d), other, ok);
  }

  // ---------------------------------------------------------------- the store

  /** The repository's record files, updated in place by the recommendation job. */
  class RecordStore {
    var files: Files

    /** A repository with no record files yet. */
    constructor ()
      ensures files == map[]
    {
      files := map[];
    }

    /** `get_recommended_numbers(lottery_type)`: today's numbers and analysis, if saved for this game. */
    method GetRecommendedNumbers(today: Date, lotteryType: string, fetchOk: bool) returns (r: Option<(string, Analysis)>)
      requires ValidDate(today)
      ensures r == LookupIn(files, FilePath(today), DayKey(today), lotteryType, fetchOk)
    {
      var path := FilePath(today);
      if fetchOk && path in files {
        var data := files[path];
        var todayStr := DayKey(today);
        if todayStr in data && data[todayStr].lotteryType == lotteryType {
          return Some((data[todayStr].numbers, data[todayStr].analysis));
        }
      }
      return None;
    }

    /** `save_recommended_numbers(lottery_type, numbers, analysis)`. */
    method SaveRecommendedNumbers(today: Date, lotteryType: string, numbers: string, analysis: Analysis,
                                  fetchOk: bool, committed: bool)
      requires ValidDate(today)
      modifies this
      ensures files == SaveIn(old(files), FilePath(today), DayKey(today), lotteryType, numbers, analysis, fetchOk, committed)
    {
      var path, todayStr := FilePath(today), DayKey(today);
      var data := Record(todayStr, lotteryType, numbers, analysis);
      var existingData: Document := if fetchOk && path in files then files[path] else map[];
      existingData := existingData[todayStr := data];
      if committed {
        files := files[path := existingData];
      }
    }

    /**
     * The recommendation job's `main`: look up today's numbers for today's game;
     * only when none are found, generate a ticket from `draw` and save it.
     */
    method RunRecommendation(today: Date, weekday: int, draw: Draw, lookupOk: bool, fetchOk: bool, committed: bool)
      returns (lotteryType: string, numbers: string, analysis: Analysis)
      requires ValidDate(today)
      requires DrawFor(Branch(LotteryType(weekday)), draw)
      modifies this
      ensures lotteryType == LotteryType(weekday)
      ensures var found := LookupIn(old(files), FilePath(today), DayKey(today), lotteryType, lookupOk);
        && (found.Some? ==> (numbers, analysis) == found.value && files == old(files))
        && (found.None? ==> (numbers, analysis) == GenerateNumbers(lotteryType, draw)
                            && files == SaveIn(old(files), FilePath(today), DayKey(today), lotteryType, numbers, analysis,
                                               fetchOk, committed))
    {
      lotteryType := LotteryType(weekday);
      var found := GetRecommendedNumbers(today, lotteryType, lookupOk);
      if found.None? {
        var generated := GenerateNumbers(lotteryType, draw);
        numbers, analysis := generated.0, generated.1;
        SaveRecommendedNumbers(today, lotteryType, numbers, analysis, fetchOk, committed);
      } else {
        numbers, analysis := found.value.0, found.value.1;
      }
    }

    /**
     * Two runs on the same day: when the first run's save (if it made one) is
     * committed and the second run's lookup succeeds, the second run returns
     * the first run's numbers and analysis and writes nothing.
     */
    method RunTwiceSameDay(today: Date, weekday: int, draw: Draw, draw': Draw, lookupOk: bool, fetchOk: bool)
      returns (first: (string, Analysis), second: (string, Analysis))
      requires ValidDate(today)
      requires DrawFor(Branch(LotteryType(weekday)), draw) && DrawFor(Branch(LotteryType(weekday)), draw')
      modifies this
      ensures second == first
      ensures var found := LookupIn(old(files), FilePath(today), DayKey(today), LotteryType(weekday), lookupOk);
        files == if found.Some? then old(files)
                 else SaveIn(old(files), FilePath(today), DayKey(today), LotteryType(weekday), first.0, first.1, fetchOk, true)
    {
      var lotteryType, numbers, analysis := RunRecommendation(today, weekday, draw, lookupOk, fetchOk, true);
      first := (numbers, analysis);
      LookupAfterSave(old(files), FilePath(today), DayKey(today), lotteryType, numbers, analysis, fetchOk, lotteryType);
      var lotteryType', numbers', analysis' := RunRecommendation(today, weekday, draw', true, fetchOk, true);
      second := (numbers', analysis');
    }
  }
}
