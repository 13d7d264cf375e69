/**
 * The market-data service: a bounded retry loop around the quote source,
 * and the fallbacks used once it gives up (preset names, a preset search
 * list and generated history). The quote source itself, the clock and the
 * random draws are parameters.
 */
module DataService {
  import opened Wrappers
  import Text

  const MaxRetries: nat := 3
  /** Seconds slept after an attempt that raised. */
  const RetryDelay: nat := 2

  // ---------------------------------------------------------------------
  // Retry

  /** What one attempt yields: an exception, a reply without the wanted data, or the data. */
  datatype Attempt<T> = Raised | Missing | Got(value: T)

  /** The data of the earliest successful attempt among the first `n`. */
  function FirstGot<T>(outcome: nat -> Attempt<T>, n: nat): (r: Option<T>)
    ensures r.Some? <==> exists i :: 0 <= i < n && outcome(i).Got?
    ensures r.Some? ==> exists i :: 0 <= i < n && outcome(i) == Got(r.value)
  {
    if n == 0 then None
    else
      var earlier := FirstGot(outcome, n - 1);
      if earlier.Some? then earlier
      else if outcome(n - 1).Got? then Some(outcome(n - 1).value)
      else None
  }

  /** Sleeps taken over the first `n` attempts: one per exception, none after the last allowed attempt. */
  function SleepCount<T>(outcome: nat -> Attempt<T>, n: nat): nat
  {
    if n == 0 then 0
    else SleepCount(outcome, n - 1) + (if outcome(n - 1).Raised? && n - 1 < MaxRetries - 1 then 1 else 0)
  }

  lemma {:induction false} FirstGotStable<T>(outcome: nat -> Attempt<T>, m: nat, n: nat)
    requires m <= n && FirstGot(outcome, m).Some?
    ensures FirstGot(outcome, n) == FirstGot(outcome, m)
    decreases n - m
  {
    if m < n {
      FirstGotStable(outcome, m, n - 1);
    }
  }

  /**
   * The `for attempt in range(MAX_RETRIES)` loop shared by the fetchers:
   * returns the first data obtained, how many attempts were made and how
   * many times it slept.
   */
  method Retry<T>(outcome: nat -> Attempt<T>) returns (r: Option<T>, made: nat, slept: nat)
    ensures r == FirstGot(outcome, MaxRetries)
    ensures 1 <= made <= MaxRetries
    ensures forall i :: 0 <= i < made - 1 ==> !outcome(i).Got?
    ensures r.Some? ==> outcome(made - 1) == Got(r.value)
    ensures r.None? ==> made == MaxRetries
    ensures slept == SleepCount(outcome, made)
  {
    made, slept := 0, 0;
    while made < MaxRetries
      invariant made <= MaxRetries
      invariant forall i :: 0 <= i < made ==> !outcome(i).Got?
      invariant FirstGot(outcome, made) == None
      invariant slept == SleepCount(outcome, made)
    {
      var attempt := outcome(made);
      made := made + 1;
      match attempt
      case Got(v) =>
        r := Some(v);
        FirstGotStable(outcome, made, MaxRetries);
        return;
      case Raised =>
        if made - 1 < MaxRetries - 1 {
          slept := slept + 1;
        }
      case Missing =>
    }
    r := None;
  }

  /** At most one sleep per attempt, and never one after the last attempt. */
  lemma {:induction false} SleepsBounded<T>(outcome: nat -> Attempt<T>, n: nat)
    requires n <= MaxRetries
    ensures SleepCount(outcome, n) <= n
    ensures SleepCount(outcome, n) <= MaxRetries - 1
    ensures SleepCount(outcome, n) == n ==> forall i :: 0 <= i < n ==> outcome(i).Raised?
  {
    if n > 0 {
      SleepsBounded(outcome, n - 1);
      if n == MaxRetries {
        assert SleepCount(outcome, n) == SleepCount(outcome, n - 1);
      }
    }
  }

  /** One call of the quote source: it raises, or it returns a table. */
  datatype Fetched<T> = Threw | Returned(table: T)

  // ---------------------------------------------------------------------
  // Period table

  /** The history request for a period: bar interval and number of bars. */
  function PeriodConfig(period: string): (cfg: (string, nat))
    ensures cfg.1 > 0 && cfg.1 <= 365
    ensures cfg.0 == "weekly" <==> period == "1w"
    ensures period !in {"1w", "1m", "3m", "6m", "1y"} ==> cfg == ("daily", 180)
  {
    match period
    case "1w" => ("weekly", 7)
    case "1m" => ("monthly", 30)
    case "3m" => ("monthly", 90)
    case "6m" => ("daily", 180)
    case "1y" => ("daily", 365)
    case _ => ("daily", 180)
  }

  // ---------------------------------------------------------------------
  // Preset names and instrument information

  const EtfNames: map<string, string> := map[
    "510300" := "沪深300ETF",
    "510500" := "500ETF",
    "512880" := "证券ETF",
    "159915" := "创业板ETF",
    "159941" := "科创50ETF",
    "159919" := "沪深300ETF",
    "511880" := "银华ETF",
    "510880" := "红利ETF",
    "159920" := "创成长ETF",
    "159937" := "中证1000ETF"
  ]

  /** `ETF_NAMES.get(code, code)` */
  function PresetName(code: string): (name: string)
    ensures code in EtfNames ==> name == EtfNames[code]
    ensures code !in EtfNames ==> name == code
  {
    if code in EtfNames then EtfNames[code] else code
  }

  datatype SpotRow = SpotRow(code: string, name: string)

  /** A spot-quote table: whether it has the code (代码) and name (名称) columns, and its rows. */
  datatype SpotTable = SpotTable(hasCode: bool, hasName: bool, rows: seq<SpotRow>)

  /** The first row with the given code. */
  function FindCode(rows: seq<SpotRow>, code: string): (r: Option<SpotRow>)
    ensures r.Some? ==> r.value in rows && r.value.code == code
    ensures r.None? <==> forall x :: x in rows ==> x.code != code
    ensures r.Some? ==> exists k :: 0 <= k < |rows| && rows[k] == r.value && forall j :: 0 <= j < k ==> rows[j].code != code
  {
    if rows == [] then None
    else if rows[0].code == code then Some(rows[0])
    else
      var r := FindCode(rows[1..], code);
      if r.Some? then
        var k :| 0 <= k < |rows[1..]| && rows[1..][k] == r.value && forall j :: 0 <= j < k ==> rows[1..][j].code != code;
        assert rows[k + 1] == r.value && forall j :: 0 <= j < k + 1 ==> rows[j].code != code;
        r
      else r
  }

  /** One attempt of `get_etf_info`. */
  function InfoAttempt(f: Fetched<SpotTable>, code: string): (a: Attempt<string>)
    ensures a.Got? <==> f.Returned? && f.table.hasCode && f.table.hasName && (exists x :: x in f.table.rows && x.code == code)
    ensures a.Got? ==> exists k :: 0 <= k < |f.table.rows| && f.table.rows[k].code == code && f.table.rows[k].name == a.value
                                 && forall j :: 0 <= j < k ==> f.table.rows[j].code != code
    ensures a == Missing <==> f.Returned? && (!f.table.hasCode || forall x :: x in f.table.rows ==> x.code != code)
  {
    match f
    case Threw => Raised
    case Returned(t) =>
      if !t.hasCode then Missing
      else
        var row := FindCode(t.rows, code);
        if row.None? then Missing
        else if !t.hasName then Raised
        else Got(row.value.name)
  }

  function InfoAttempts(fetch: nat -> Fetched<SpotTable>, code: string): nat -> Attempt<string>
  {
    (i: nat) => InfoAttempt(fetch(i), code)
  }

  datatype EtfInfo = EtfInfo(code: string, name: string, exchange: string, category: string)

  /** `get_etf_info`: the quoted name if an attempt finds the code, else the preset name. */
  method GetEtfInfo(code: string, fetch: nat -> Fetched<SpotTable>) returns (info: EtfInfo)
    ensures info.code == code && info.exchange == "沪深" && info.category == "ETF"
    ensures info.name == FirstGot(InfoAttempts(fetch, code), MaxRetries).GetOr(PresetName(code))
  {
    var name, made, slept := Retry(InfoAttempts(fetch, code));
    info := EtfInfo(code, name.GetOr(PresetName(code)), "沪深", "ETF");
  }

  /** The name comes from a quote row with that code, or else from the preset table. */
  lemma InfoNameOrigin(code: string, fetch: nat -> Fetched<SpotTable>)
    ensures var name := FirstGot(InfoAttempts(fetch, code), MaxRetries).GetOr(PresetName(code));
            name == PresetName(code)
            || exists i :: 0 <= i < MaxRetries && fetch(i).Returned?
                 && SpotRow(code, name) in fetch(i).table.rows
  {
    var found := FirstGot(InfoAttempts(fetch, code), MaxRetries);
    if found.Some? {
      var i :| 0 <= i < MaxRetries && InfoAttempts(fetch, code)(i) == Got(found.value);
      assert InfoAttempt(fetch(i), code) == Got(found.value);
      var row := FindCode(fetch(i).table.rows, code);
      assert row.value == SpotRow(code, found.value);
    }
  }

  // ---------------------------------------------------------------------
  // Search

  datatype EtfEntry = EtfEntry(code: string, name: string, exchange: string)

  const CommonEtfs: seq<EtfEntry> := [
    EtfEntry("510300", "沪深300ETF", "沪深"),
    EtfEntry("510500", "500ETF", "沪深"),
    EtfEntry("512880", "证券ETF", "沪深"),
    EtfEntry("159915", "创业板ETF", "沪深"),
    EtfEntry("159941", "科创50ETF", "沪深")
  ]

  /** The live search's test: the keyword occurs in the code or the name. */
  predicate RowMatches(row: SpotRow, keyword: string)
  {
    Text.Contains(row.code, keyword) || Text.Contains(row.name, keyword)
  }

  /** The live search's rows, as entries, in table order. */
  function MatchingRows(rows: seq<SpotRow>, keyword: string): (r: seq<EtfEntry>)
    ensures |r| <= |rows|
    ensures forall e :: e in r <==> exists x :: x in rows && RowMatches(x, keyword) && e == EtfEntry(x.code, x.name, "沪深")
  {
    if rows == [] then []
    else
      var rest := MatchingRows(rows[1..], keyword);
      assert forall x :: x in rows <==> x == rows[0] || x in rows[1..];
      if RowMatches(rows[0], keyword) then [EtfEntry(rows[0].code, rows[0].name, "沪深")] + rest else rest
  }

  /** `head(n)` */
  function Head<T>(s: seq<T>, n: nat): (r: seq<T>)
    ensures r <= s && |r| == if |s| < n then |s| else n
  {
    if |s| <= n then s else s[..n]
  }

  /** One attempt of `search_etf`; a missing column raises. */
  function SearchAttempt(f: Fetched<SpotTable>, keyword: string): (a: Attempt<seq<EtfEntry>>)
    ensures a.Got? <==> f.Returned? && f.table.hasCode && f.table.hasName
    ensures !a.Missing?
    ensures a.Got? ==> a.value <= MatchingRows(f.table.rows, keyword)
    ensures a.Got? ==> |a.value| == if |MatchingRows(f.table.rows, keyword)| < 10 then |MatchingRows(f.table.rows, keyword)| else 10
  {
    match f
    case Threw => Raised
    case Returned(t) =>
      if !t.hasCode || !t.hasName then Raised
      else Got(Head(MatchingRows(t.rows, keyword), 10))
  }

  function SearchAttempts(fetch: nat -> Fetched<SpotTable>, keyword: string): nat -> Attempt<seq<EtfEntry>>
  {
    (i: nat) => SearchAttempt(fetch(i), keyword)
  }

  /** The fallback's test: the lower-cased keyword occurs in the lower-cased code or name. */
  predicate PresetMatches(e: EtfEntry, keywordLower: string)
  {
    Text.Contains(Text.Lower(e.code), keywordLower) || Text.Contains(Text.Lower(e.name), keywordLower)
  }

  /** The fallback's list comprehension over the presets. */
  function FilterPresets(presets: seq<EtfEntry>, keywordLower: string): (r: seq<EtfEntry>)
    ensures |r| <= |presets|
    ensures forall e :: e in r <==> e in presets && PresetMatches(e, keywordLower)
  {
    if presets == [] then []
    else
      var rest := FilterPresets(presets[1..], keywordLower);
      assert forall x :: x in presets <==> x == presets[0] || x in presets[1..];
      if PresetMatches(presets[0], keywordLower) then [presets[0]] + rest else rest
  }

  /** `search_etf`: the first answer of the live search (possibly empty), else the filtered presets. */
  method SearchEtf(keyword: string, fetch: nat -> Fetched<SpotTable>) returns (results: seq<EtfEntry>)
    ensures FirstGot(SearchAttempts(fetch, keyword), MaxRetries).Some? ==>
              results == FirstGot(SearchAttempts(fetch, keyword), MaxRetries).value
    ensures FirstGot(SearchAttempts(fetch, keyword), MaxRetries).None? ==>
              results == FilterPresets(CommonEtfs, Text.Lower(keyword))
  {
    var live, made, slept := Retry(SearchAttempts(fetch, keyword));
    if live.Some? {
      results := live.value;
    } else {
      results := FilterPresets(CommonEtfs, Text.Lower(keyword));
    }
  }

  /** A live answer holds at most ten entries, each matching the keyword. */
  lemma LiveSearchBounded(keyword: string, fetch: nat -> Fetched<SpotTable>)
    requires FirstGot(SearchAttempts(fetch, keyword), MaxRetries).Some?
    ensures var r := FirstGot(SearchAttempts(fetch, keyword), MaxRetries).value;
            |r| <= 10 && forall e :: e in r ==> Text.Contains(e.code, keyword) || Text.Contains(e.name, keyword)
  {
    var r := FirstGot(SearchAttempts(fetch, keyword), MaxRetries).value;
    var i :| 0 <= i < MaxRetries && SearchAttempts(fetch, keyword)(i) == Got(r);
    assert SearchAttempt(fetch(i), keyword) == Got(r);
    var all := MatchingRows(fetch(i).table.rows, keyword);
    forall e | e in r ensures Text.Contains(e.code, keyword) || Text.Contains(e.name, keyword) {
      assert e in all;
    }
  }

  /**
   * The filter keeps order and multiplicity: it distributes over
   * concatenation, and on one preset keeps it exactly when it matches.
   */
  lemma {:induction false} FilterPresetsAppend(a: seq<EtfEntry>, b: seq<EtfEntry>, keywordLower: string)
    ensures FilterPresets(a + b, keywordLower) == FilterPresets(a, keywordLower) + FilterPresets(b, keywordLower)
    ensures forall e :: FilterPresets([e], keywordLower) == if PresetMatches(e, keywordLower) then [e] else []
  {
    if a != [] {
      assert (a + b)[1..] == a[1..] + b;
      FilterPresetsAppend(a[1..], b, keywordLower);
    } else {
      assert a + b == b;
    }
    forall e ensures FilterPresets([e], keywordLower) == if PresetMatches(e, keywordLower) then [e] else [] {
      assert [e][1..] == [];
    }
  }

  /** The live search's matches keep table order: they distribute over concatenation of the table. */
  lemma {:induction false} MatchingRowsAppend(a: seq<SpotRow>, b: seq<SpotRow>, keyword: string)
    ensures MatchingRows(a + b, keyword) == MatchingRows(a, keyword) + MatchingRows(b, keyword)
    ensures forall x :: MatchingRows([x], keyword) ==
                          if RowMatches(x, keyword) then [EtfEntry(x.code, x.name, "沪深")] else []
  {
    if a != [] {
      assert (a + b)[1..] == a[1..] + b;
      MatchingRowsAppend(a[1..], b, keyword);
    } else {
      assert a + b == b;
    }
    forall x ensures MatchingRows([x], keyword) == if RowMatches(x, keyword) then [EtfEntry(x.code, x.name, "沪深")] else [] {
      assert [x][1..] == [];
    }
  }

  /**
   * `head(10)` keeps the first ten matches in table order: once a prefix of
   * the table holds ten matches, the rows after it do not change the answer.
   */
  lemma LiveSearchFirstTen(prefix: seq<SpotRow>, later: seq<SpotRow>, keyword: string)
    requires |MatchingRows(prefix, keyword)| >= 10
    ensures Head(MatchingRows(prefix + later, keyword), 10) == MatchingRows(prefix, keyword)[..10]
  {
    MatchingRowsAppend(prefix, later, keyword);
    var m := MatchingRows(prefix, keyword);
    assert (m + MatchingRows(later, keyword))[..10] == m[..10];
  }

  /** When every preset matches, the fallback returns all of them, in order. */
  lemma {:induction false} FilterKeepsAll(presets: seq<EtfEntry>, keywordLower: string)
    requires forall e :: e in presets ==> PresetMatches(e, keywordLower)
    ensures FilterPresets(presets, keywordLower) == presets
  {
    if presets != [] {
      assert presets[0] in presets;
      assert forall e :: e in presets[1..] ==> e in presets;
      FilterKeepsAll(presets[1..], keywordLower);
    }
  }

  /** Offline, an empty keyword lists every preset. */
  lemma EmptyKeywordListsPresets()
    ensures FilterPresets(CommonEtfs, Text.Lower("")) == CommonEtfs
  {
    forall e | e in CommonEtfs ensures PresetMatches(e, "") {
      assert "" <= Text.Lower(e.code);
    }
    assert Text.Lower("") == "";
    FilterKeepsAll(CommonEtfs, "");
  }

  /** Offline, "ETF" matches every preset name once lower-cased. */
  lemma UpperCaseKeywordMatches()
    ensures FilterPresets(CommonEtfs, Text.Lower("ETF")) == CommonEtfs
  {
    var kw := Text.Lower("ETF");
    assert kw == "etf" by {
      assert kw[0] == 'e' && kw[1] == 't' && kw[2] == 'f';
    }
    forall e | e in CommonEtfs ensures PresetMatches(e, kw) {
      EndsWithEtf(e.name);
    }
    FilterKeepsAll(CommonEtfs, kw);
  }

  lemma EndsWithEtf(name: string)
    requires |name| >= 3 && name[|name| - 3..] == "ETF"
    ensures Text.Contains(Text.Lower(name), "etf")
  {
    var n := Text.Lower(name);
    assert n[|n| - 3..] == "etf" by {
      assert n[|n| - 3] == 'e' && n[|n| - 2] == 't' && n[|n| - 1] == 'f';
    }
    Text.ContainsAt(n, "etf", |n| - 3);
  }

  // ---------------------------------------------------------------------
  // Price history

  datatype HistRow = HistRow(date: int, close: real, volume: int)

  /** Dates are day numbers; the series are parallel lists. */
  datatype PriceHistory = PriceHistory(code: string, period: string, dates: seq<int>, prices: seq<real>, volumes: seq<int>)

  /** The quote-source request: code, bar interval, first and last day, forward adjustment. */
  datatype HistRequest = HistRequest(code: string, interval: string, startDay: int, endDay: int, adjust: string)

  /** The request for a period, asking for twice as many calendar days as bars. */
  function RequestFor(code: string, period: string, today: int): (req: HistRequest)
    ensures req.endDay - req.startDay == 2 * PeriodConfig(period).1
  {
    var cfg := PeriodConfig(period);
    HistRequest(code, cfg.0, today - 2 * cfg.1, today, "qfq")
  }

  /** `tail(n)` */
  function Tail<T>(s: seq<T>, n: nat): (r: seq<T>)
    ensures |r| <= n && |r| <= |s|
    ensures |s| >= n ==> |r| == n
    ensures r == s[|s| - |r|..]
  {
    if |s| <= n then s else s[|s| - n..]
  }

  /** One attempt of `get_price_history`: an empty frame is no answer. */
  function HistAttempt(f: Fetched<seq<HistRow>>, days: nat): (a: Attempt<seq<HistRow>>)
    ensures a.Got? <==> f.Returned? && f.table != []
    ensures a == Raised <==> f.Threw?
    ensures a.Got? ==> |a.value| <= days && |a.value| <= |f.table| && a.value == f.table[|f.table| - |a.value|..]
    ensures a.Got? && |f.table| >= days ==> |a.value| == days
  {
    match f
    case Threw => Raised
    case Returned(rows) => if rows == [] then Missing else Got(Tail(rows, days))
  }

  function HistAttempts(fetch: (HistRequest, nat) -> Fetched<seq<HistRow>>, req: HistRequest, days: nat): nat -> Attempt<seq<HistRow>>
  {
    (i: nat) => HistAttempt(fetch(req, i), days)
  }

  /** The three columns of the fetched rows. */
  function FromRows(code: string, period: string, rows: seq<HistRow>): (h: PriceHistory)
    ensures |h.dates| == |h.prices| == |h.volumes| == |rows|
    ensures forall j :: 0 <= j < |rows| ==> rows[j] == HistRow(h.dates[j], h.prices[j], h.volumes[j])
  {
    PriceHistory(code, period,
                 seq(|rows|, j requires 0 <= j < |rows| => rows[j].date),
                 seq(|rows|, j requires 0 <= j < |rows| => rows[j].close),
                 seq(|rows|, j requires 0 <= j < |rows| => rows[j].volume))
  }

  /** `3.0 + (hash(code) % 100) / 50`, with Python's non-negative remainder. */
  function MockBase(codeHash: int): (b: real)
    ensures 3.0 <= b < 5.0
  {
    3.0 + (codeHash % 100) as real / 50.0
  }

  /** The generated walk before rounding: `base` moved by each day's relative change. */
  function Walk(base: real, change: nat -> real, k: nat): real
  {
    if k == 0 then base else Walk(base, change, k - 1) * (1.0 + change(k - 1))
  }

  function MockDates(today: int, days: nat): (d: seq<int>)
    ensures |d| == days
  {
    seq(days, j requires 0 <= j < days => today - (days - j))
  }

  function MockPrices(base: real, change: nat -> real, days: nat): (p: seq<real>)
    ensures |p| == days
  {
    seq(days, j requires 0 <= j < days => Text.Round3(Walk(base, change, j + 1)))
  }

  function MockVolumes(draw: nat -> real, days: nat): (v: seq<int>)
    ensures |v| == days
  {
    seq(days, j requires 0 <= j < days => Text.Truncate(draw(j)))
  }

  /**
   * `_generate_mock_history`: one entry per day from `days` days ago to
   * yesterday; `change(j)` and `draw(j)` stand for day j's random draws.
   */
  method MockHistory(code: string, days: nat, today: int, codeHash: int, change: nat -> real, draw: nat -> real)
    returns (h: PriceHistory)
    ensures h == PriceHistory(code, Text.NatToString(days) + "d", MockDates(today, days),
                              MockPrices(MockBase(codeHash), change, days), MockVolumes(draw, days))
  {
    var base := MockBase(codeHash);
    var dates: seq<int> := [];
    var prices: seq<real> := [];
    var volumes: seq<int> := [];
    var current := base;
    for j := 0 to days
      invariant dates == MockDates(today, days)[..j]
      invariant prices == MockPrices(base, change, days)[..j]
      invariant volumes == MockVolumes(draw, days)[..j]
      invariant current == Walk(base, change, j)
    {
      dates := dates + [today - (days - j)];
      current := current * (1.0 + change(j));
      assert current == Walk(base, change, j + 1);
      assert MockPrices(base, change, days)[..j + 1] == prices + [Text.Round3(current)];
      prices := prices + [Text.Round3(current)];
      volumes := volumes + [Text.Truncate(draw(j))];
    }
    assert MockDates(today, days)[..days] == MockDates(today, days);
    assert MockPrices(base, change, days)[..days] == MockPrices(base, change, days);
    assert MockVolumes(draw, days)[..days] == MockVolumes(draw, days);
    h := PriceHistory(code, Text.NatToString(days) + "d", dates, prices, volumes);
  }

  /**
   * Generated history: the three lists have `days` entries, the dates are
   * consecutive and end yesterday, volumes stay in the uniform draw's range,
   * and prices stay positive while no day loses 100% or more.
   */
  lemma MockHistoryShape(today: int, days: nat, codeHash: int, change: nat -> real, draw: nat -> real)
    requires forall k :: 0 <= k < days ==> change(k) > -1.0
    requires forall k :: 0 <= k < days ==> 1000000.0 <= draw(k) < 10000000.0
    ensures days > 0 ==> MockDates(today, days)[days - 1] == today - 1
    ensures forall j :: 0 < j < days ==> MockDates(today, days)[j] == MockDates(today, days)[j - 1] + 1
    ensures forall j :: 0 <= j < days ==> 1000000 <= MockVolumes(draw, days)[j] < 10000000
    ensures forall j :: 0 <= j <= days ==> Walk(MockBase(codeHash), change, j) > 0.0
  {
    forall j | 0 <= j <= days ensures Walk(MockBase(codeHash), change, j) > 0.0 {
      WalkPositive(MockBase(codeHash), change, j);
    }
  }

  lemma {:induction false} WalkPositive(base: real, change: nat -> real, k: nat)
    requires base > 0.0
    requires forall i :: 0 <= i < k ==> change(i) > -1.0
    ensures Walk(base, change, k) > 0.0
  {
    if k > 0 {
      WalkPositive(base, change, k - 1);
      ProductPositive(Walk(base, change, k - 1), 1.0 + change(k - 1));
    }
  }

  lemma ProductPositive(a: real, b: real)
    requires a > 0.0 && b > 0.0
    ensures a * b > 0.0
  {
  }

  /**
   * `get_price_history`: the last `days` rows of the first non-empty answer
   * for the period's request, else generated history of exactly `days` days.
   */
  method GetPriceHistory(code: string, period: string, today: int,
                         fetch: (HistRequest, nat) -> Fetched<seq<HistRow>>,
                         codeHash: int, change: nat -> real, draw: nat -> real)
    returns (h: PriceHistory)
    ensures var days := PeriodConfig(period).1;
            var live := FirstGot(HistAttempts(fetch, RequestFor(code, period, today), days), MaxRetries);
            && (live.Some? ==> h == FromRows(code, period, live.value))
            && (live.None? ==> h == PriceHistory(code, Text.NatToString(days) + "d", MockDates(today, days),
                                                 MockPrices(MockBase(codeHash), change, days), MockVolumes(draw, days)))
  {
    var days := PeriodConfig(period).1;
    var req := RequestFor(code, period, today);
    var live, made, slept := Retry(HistAttempts(fetch, req, days));
    if live.Some? {
      h := FromRows(code, period, live.value);
    } else {
      h := MockHistory(code, days, today, codeHash, change, draw);
    }
  }

  /** Whichever path is taken, the history has at most `days` entries, and exactly that many when generated. */
  lemma PriceHistoryLength(code: string, period: string, today: int,
                           fetch: (HistRequest, nat) -> Fetched<seq<HistRow>>)
    ensures var days := PeriodConfig(period).1;
            var live := FirstGot(HistAttempts(fetch, RequestFor(code, period, today), days), MaxRetries);
            live.Some? ==> 0 < |live.value| <= days
  {
    var days := PeriodConfig(period).1;
    var attempts := HistAttempts(fetch, RequestFor(code, period, today), days);
    var live := FirstGot(attempts, MaxRetries);
    if live.Some? {
      var i :| 0 <= i < MaxRetries && attempts(i) == Got(live.value);
      assert HistAttempt(fetch(RequestFor(code, period, today), i), days) == Got(live.value);
    }
  }
}
