/**
 * The record store as in-memory tables: registered funds keyed by code,
 * price bars keyed by (code, day), an append-only table of daily strategy
 * records with auto-increment ids, and the advisory cache with a unique key.
 * Dates are day numbers; each method is one committed session.
 */
module Database {
  import opened Wrappers

  /** A registered fund (etf_funds); the code is the primary key. */
  datatype Fund = Fund(code: string, name: string, exchange: string, category: string)

  /** One stored price bar (price_history), keyed by (code, day). */
  datatype Bar = Bar(open: real, close: real, high: real, low: real, volume: real, changePct: real)

  /** A price row handed to `save_price_history`; `change_pct` may be absent. */
  datatype BarInput = BarInput(date: int, open: real, close: real, high: real, low: real, volume: real,
                               changePct: Option<real>)

  /** A stored daily strategy record (daily_strategies). */
  datatype DailyRecord = DailyRecord(id: nat, etfCode: string, date: int, rawSignals: string, finalAction: string,
                                     suggestedAmount: real, llmAdvice: string,
                                     actualAction: Option<string>, actualAmount: Option<real>, remark: Option<string>)

  /** The dictionary handed to `save_daily_strategy`. */
  datatype StrategyInput = StrategyInput(etfCode: string, date: int, rawSignals: string, finalAction: string,
                                         suggestedAmount: real, llmAdvice: Option<string>,
                                         actualAction: Option<string>, actualAmount: Option<real>, remark: Option<string>)

  /** A cached advisory reply (llm_cache); the key is unique. */
  datatype CacheRecord = CacheRecord(id: nat, key: string, prompt: string, response: string, expiresAt: int)

  /** The error text SQLite gives for a duplicate key. */
  const FundCodeTaken := "UNIQUE constraint failed: etf_funds.code"
  const CacheKeyTaken := "UNIQUE constraint failed: llm_cache.signal_key"

  predicate HasFund(funds: seq<Fund>, code: string)
  {
    exists i :: 0 <= i < |funds| && funds[i].code == code
  }

  predicate HasCacheKey(rows: seq<CacheRecord>, key: string)
  {
    exists i :: 0 <= i < |rows| && rows[i].key == key
  }

  // ---------------------------------------------------------------------
  // Specifications of the queries and updates

  /** The first cache record with `key`, if any. */
  function CacheLookup(rows: seq<CacheRecord>, key: string): (r: Option<CacheRecord>)
    ensures r.Some? <==> HasCacheKey(rows, key)
    ensures r.Some? ==> r.value in rows && r.value.key == key
    ensures r.Some? ==> exists k :: 0 <= k < |rows| && rows[k] == r.value && forall j :: 0 <= j < k ==> rows[j].key != key
  {
    if rows == [] then None
    else if rows[0].key == key then Some(rows[0])
    else
      assert forall i :: 0 < i < |rows| ==> rows[i] == rows[1..][i - 1];
      var r := CacheLookup(rows[1..], key);
      if r.Some? then
        var k :| 0 <= k < |rows[1..]| && rows[1..][k] == r.value && forall j :: 0 <= j < k ==> rows[1..][j].key != key;
        assert rows[k + 1] == r.value && forall j :: 0 <= j < k + 1 ==> rows[j].key != key;
        r
      else r
  }

  /** The bar stored for one input row. */
  function BarOf(p: BarInput): (b: Bar)
    ensures p.changePct.None? ==> b.changePct == 0.0
  {
    Bar(p.open, p.close, p.high, p.low, p.volume, p.changePct.GetOr(0.0))
  }

  /** A stored price row: the key (code, day) and its bar. */
  datatype PriceRow = PriceRow(code: string, date: int, bar: Bar)

  /** The bar stored under (code, day), if any. */
  function BarAt(rows: seq<PriceRow>, code: string, date: int): (r: Option<Bar>)
    ensures r.Some? <==> exists i :: 0 <= i < |rows| && rows[i].code == code && rows[i].date == date
  {
    if rows == [] then None
    else if rows[0].code == code && rows[0].date == date then Some(rows[0].bar)
    else
      var rest := BarAt(rows[1..], code, date);
      assert forall i :: 0 < i < |rows| ==> rows[i] == rows[1..][i - 1];
      rest
  }

  /** `session.merge`: replace the row with the same key, or append a new one. */
  function Upsert(rows: seq<PriceRow>, r: PriceRow): (u: seq<PriceRow>)
    ensures r in u && |rows| <= |u| <= |rows| + 1
    ensures forall x :: x in u ==> x == r || x in rows
  {
    if rows == [] then [r]
    else if rows[0].code == r.code && rows[0].date == r.date then [r] + rows[1..]
    else [rows[0]] + Upsert(rows[1..], r)
  }

  /** The table after merging `inputs` one by one under `code`. */
  function MergeRows(rows: seq<PriceRow>, code: string, inputs: seq<BarInput>): (m: seq<PriceRow>)
    ensures |rows| <= |m| <= |rows| + |inputs|
    ensures forall x :: x in m ==> x in rows || (x.code == code && exists i :: 0 <= i < |inputs| && inputs[i].date == x.date)
  {
    if inputs == [] then rows
    else Upsert(MergeRows(rows, code, inputs[..|inputs| - 1]), PriceRow(code, inputs[|inputs| - 1].date, BarOf(inputs[|inputs| - 1])))
  }

  /** Index of the last input row for a day, if any. */
  function LastRowFor(inputs: seq<BarInput>, date: int): (r: Option<nat>)
    ensures r.Some? ==> r.value < |inputs| && inputs[r.value].date == date
                        && forall j :: r.value < j < |inputs| ==> inputs[j].date != date
    ensures r.None? ==> forall j :: 0 <= j < |inputs| ==> inputs[j].date != date
  {
    if inputs == [] then None
    else if inputs[|inputs| - 1].date == date then Some(|inputs| - 1)
    else LastRowFor(inputs[..|inputs| - 1], date)
  }

  /** Rows of one fund from day `start` on, in table order. */
  function PricesFrom(rows: seq<PriceRow>, code: string, start: int): (r: seq<PriceRow>)
    ensures forall x :: x in r <==> x in rows && x.code == code && x.date >= start
  {
    if rows == [] then []
    else
      var init := PricesFrom(rows[..|rows| - 1], code, start);
      assert rows == rows[..|rows| - 1] + [rows[|rows| - 1]];
      var last := rows[|rows| - 1];
      if last.code == code && last.date >= start then init + [last] else init
  }

  /** Daily records of one fund, in table order. */
  function RecordsFor(rows: seq<DailyRecord>, code: string): (r: seq<DailyRecord>)
    ensures forall x :: x in r <==> x in rows && x.etfCode == code
  {
    if rows == [] then []
    else
      var init := RecordsFor(rows[..|rows| - 1], code);
      assert rows == rows[..|rows| - 1] + [rows[|rows| - 1]];
      if rows[|rows| - 1].etfCode == code then init + [rows[|rows| - 1]] else init
  }

  /** `s` is ordered by `key`, smallest first. */
  predicate SortedBy<T>(s: seq<T>, key: T -> int)
  {
    forall i, j :: 0 <= i < j < |s| ==> key(s[i]) <= key(s[j])
  }

  /** Place `x` after every element whose key is not above its own (a stable insertion). */
  function InsertBy<T>(sorted: seq<T>, x: T, key: T -> int): (r: seq<T>)
    ensures multiset(r) == multiset(sorted) + multiset{x}
  {
    if sorted == [] then [x]
    else if key(sorted[0]) <= key(x) then
      assert sorted == [sorted[0]] + sorted[1..];
      [sorted[0]] + InsertBy(sorted[1..], x, key)
    else [x] + sorted
  }

  /** Stable insertion sort by `key`. */
  function SortBy<T>(s: seq<T>, key: T -> int): (r: seq<T>)
    ensures multiset(r) == multiset(s)
  {
    if s == [] then []
    else
      assert s == s[..|s| - 1] + [s[|s| - 1]];
      InsertBy(SortBy(s[..|s| - 1], key), s[|s| - 1], key)
  }

  function DayOf(r: PriceRow): int { r.date }

  /** Newest first: the key is the day negated. */
  function NewestKey(r: DailyRecord): int { -r.date }

  /** SQLite's `LIMIT`: a negative limit means no limit. */
  function Limit<T>(s: seq<T>, limit: int): (r: seq<T>)
    ensures r <= s
    ensures limit >= 0 ==> |r| == if |s| < limit then |s| else limit
    ensures limit < 0 ==> r == s
  {
    if limit < 0 || |s| <= limit then s else s[..limit]
  }

  /** What `get_price_history` returns. */
  function PriceQuery(rows: seq<PriceRow>, code: string, start: int): (q: seq<PriceRow>)
    ensures SortedBy(q, DayOf)
    ensures multiset(q) == multiset(PricesFrom(rows, code, start))
  {
    SortBySorts(PricesFrom(rows, code, start), DayOf);
    SortBy(PricesFrom(rows, code, start), DayOf)
  }

  /** What `get_daily_strategies` returns. */
  function DailyQuery(rows: seq<DailyRecord>, code: string, limit: int): (d: seq<DailyRecord>)
    ensures d <= SortBy(RecordsFor(rows, code), NewestKey)
    ensures limit >= 0 ==> |d| == if |RecordsFor(rows, code)| < limit then |RecordsFor(rows, code)| else limit
    ensures limit < 0 ==> d == SortBy(RecordsFor(rows, code), NewestKey)
  {
    var sorted := SortBy(RecordsFor(rows, code), NewestKey);
    assert |sorted| == |multiset(sorted)| == |multiset(RecordsFor(rows, code))| == |RecordsFor(rows, code)|;
    Limit(sorted, limit)
  }

  class Store {
    var funds: seq<Fund>
    var prices: seq<PriceRow>
    var strategies: seq<DailyRecord>
    var nextStrategyId: nat
    var cache: seq<CacheRecord>
    var nextCacheId: nat

    /**
     * Keys are unique, ids are below the next id and increase along the
     * table, and no stored daily record carries an actual action, amount or remark.
     */
    ghost predicate Valid()
      reads this
    {
      && (forall i, j :: 0 <= i < j < |funds| ==> funds[i].code != funds[j].code)
      && (forall i, j :: 0 <= i < j < |prices| ==> !(prices[i].code == prices[j].code && prices[i].date == prices[j].date))
      && 0 < nextStrategyId && 0 < nextCacheId
      && (forall i :: 0 <= i < |strategies| ==> 0 < strategies[i].id < nextStrategyId)
      && (forall i, j :: 0 <= i < j < |strategies| ==> strategies[i].id < strategies[j].id)
      && (forall i :: 0 <= i < |strategies| ==>
            strategies[i].actualAction.None? && strategies[i].actualAmount.None? && strategies[i].remark.None?)
      && (forall i, j :: 0 <= i < j < |cache| ==> cache[i].key != cache[j].key)
      && (forall i :: 0 <= i < |cache| ==> 0 < cache[i].id < nextCacheId)
    }

    constructor ()
      ensures Valid()
      ensures funds == [] && prices == [] && strategies == [] && cache == []
    {
      funds, prices, strategies, cache := [], [], [], [];
      nextStrategyId, nextCacheId := 1, 1;
    }

    /** `add_etf`: insert a fund; a taken code fails with SQLite's error and the table is rolled back. */
    method AddEtf(code: string, name: string, exchange: string, category: string) returns (err: Option<string>)
      requires Valid()
      modifies this
      ensures Valid()
      ensures HasFund(old(funds), code) ==> err == Some(FundCodeTaken) && funds == old(funds)
      ensures !HasFund(old(funds), code) ==> err == None && funds == old(funds) + [Fund(code, name, exchange, category)]
      ensures prices == old(prices) && strategies == old(strategies) && nextStrategyId == old(nextStrategyId)
      ensures cache == old(cache) && nextCacheId == old(nextCacheId)
    {
      for i := 0 to |funds|
        invariant forall j :: 0 <= j < i ==> funds[j].code != code
      {
        if funds[i].code == code {
          return Some(FundCodeTaken);
        }
      }
      funds := funds + [Fund(code, name, exchange, category)];
      err := None;
    }

    /** `get_etf_list`: every fund, in insertion order. */
    method GetEtfList() returns (list: seq<Fund>)
      ensures list == funds
    {
      list := funds;
    }

    /** `save_price_history`: merge each row under (code, day); a later row for a day overwrites an earlier one. */
    method SavePriceHistory(code: string, inputs: seq<BarInput>)
      requires Valid()
      modifies this
      ensures Valid()
      ensures prices == MergeRows(old(prices), code, inputs)
      ensures funds == old(funds) && strategies == old(strategies) && nextStrategyId == old(nextStrategyId)
      ensures cache == old(cache) && nextCacheId == old(nextCacheId)
    {
      for i := 0 to |inputs|
        invariant Valid()
        invariant prices == MergeRows(old(prices), code, inputs[..i])
        invariant funds == old(funds) && strategies == old(strategies) && nextStrategyId == old(nextStrategyId)
        invariant cache == old(cache) && nextCacheId == old(nextCacheId)
      {
        assert inputs[..i + 1][..i] == inputs[..i];
        MergeBar(PriceRow(code, inputs[i].date, BarOf(inputs[i])));
      }
      assert inputs[..|inputs|] == inputs;
    }

    /** `session.merge` of one price row: replace the row with its key, or append it. */
    method MergeBar(row: PriceRow)
      requires Valid()
      modifies this
      ensures Valid()
      ensures prices == Upsert(old(prices), row)
      ensures funds == old(funds) && strategies == old(strategies) && nextStrategyId == old(nextStrategyId)
      ensures cache == old(cache) && nextCacheId == old(nextCacheId)
    {
      var k := 0;
      while k < |prices| && !(prices[k].code == row.code && prices[k].date == row.date)
        invariant k <= |prices|
        invariant forall j :: 0 <= j < k ==> !(prices[j].code == row.code && prices[j].date == row.date)
      {
        k := k + 1;
      }
      if k < |prices| {
        UpsertReplaces(prices, row, k);
        prices := prices[k := row];
      } else {
        UpsertAppends(prices, row);
        prices := prices + [row];
      }
    }

    /** `get_price_history`: the fund's rows from `today - days` on, ordered by day. */
    method GetPriceHistory(code: string, days: int, today: int) returns (result: seq<PriceRow>)
      ensures result == PriceQuery(prices, code, today - days)
    {
      result := [];
      for i := 0 to |prices|
        invariant result == SortBy(PricesFrom(prices[..i], code, today - days), DayOf)
      {
        ghost var before := prices[..i];
        assert prices[..i + 1] == before + [prices[i]];
        assert (before + [prices[i]])[..i] == before;
        if prices[i].code == code && prices[i].date >= today - days {
          result := InsertBy(result, prices[i], DayOf);
        }
      }
      assert prices[..|prices|] == prices;
    }

    /** `save_daily_strategy`: append a record with a fresh id; the actual action, amount and remark are not stored. */
    method SaveDailyStrategy(s: StrategyInput) returns (id: nat)
      requires Valid()
      modifies this
      ensures Valid()
      ensures id == old(nextStrategyId) && nextStrategyId == id + 1
      ensures strategies == old(strategies) + [DailyRecord(id, s.etfCode, s.date, s.rawSignals, s.finalAction,
                                                           s.suggestedAmount, s.llmAdvice.GetOr(""), None, None, None)]
      ensures forall i :: 0 <= i < |old(strategies)| ==> old(strategies)[i].id != id
      ensures funds == old(funds) && prices == old(prices) && cache == old(cache) && nextCacheId == old(nextCacheId)
    {
      id := nextStrategyId;
      strategies := strategies + [DailyRecord(id, s.etfCode, s.date, s.rawSignals, s.finalAction,
                                              s.suggestedAmount, s.llmAdvice.GetOr(""), None, None, None)];
      nextStrategyId := nextStrategyId + 1;
    }

    /** `get_daily_strategies`: the fund's records, newest first, at most `limit` of them. */
    method GetDailyStrategies(code: string, limit: int) returns (result: seq<DailyRecord>)
      ensures result == DailyQuery(strategies, code, limit)
    {
      var sorted: seq<DailyRecord> := [];
      for i := 0 to |strategies|
        invariant sorted == SortBy(RecordsFor(strategies[..i], code), NewestKey)
      {
        ghost var before := strategies[..i];
        assert strategies[..i + 1] == before + [strategies[i]];
        assert (before + [strategies[i]])[..i] == before;
        if strategies[i].etfCode == code {
          sorted := InsertBy(sorted, strategies[i], NewestKey);
        }
      }
      assert strategies[..|strategies|] == strategies;
      if 0 <= limit < |sorted| {
        sorted := sorted[..limit];
      }
      result := sorted;
    }

    /** The cache lookup by key (the first match; there is at most one). */
    method FindCache(key: string) returns (r: Option<CacheRecord>)
      ensures r == CacheLookup(cache, key)
    {
      for i := 0 to |cache|
        invariant CacheLookup(cache, key) == CacheLookup(cache[i..], key)
      {
        assert cache[i..][1..] == cache[i + 1..];
        if cache[i].key == key {
          return Some(cache[i]);
        }
      }
      assert cache[|cache|..] == [];
      r := None;
    }

    /** Insert a cache record; a taken key fails with SQLite's error and nothing changes. */
    method InsertCache(key: string, prompt: string, response: string, expiresAt: int) returns (err: Option<string>)
      requires Valid()
      modifies this
      ensures Valid()
      ensures HasCacheKey(old(cache), key) ==> err == Some(CacheKeyTaken) && cache == old(cache) && nextCacheId == old(nextCacheId)
      ensures !HasCacheKey(old(cache), key) ==>
                err == None && nextCacheId == old(nextCacheId) + 1
                && cache == old(cache) + [CacheRecord(old(nextCacheId), key, prompt, response, expiresAt)]
      ensures funds == old(funds) && prices == old(prices) && strategies == old(strategies)
      ensures nextStrategyId == old(nextStrategyId)
    {
      var found := FindCache(key);
      if found.Some? {
        return Some(CacheKeyTaken);
      }
      cache := cache + [CacheRecord(nextCacheId, key, prompt, response, expiresAt)];
      nextCacheId := nextCacheId + 1;
      err := None;
    }
  }

  // ---------------------------------------------------------------------
  // Properties

  /** Merging onto the first row with the same key replaces that row in place. */
  lemma {:induction false} UpsertReplaces(rows: seq<PriceRow>, r: PriceRow, k: nat)
    requires k < |rows| && rows[k].code == r.code && rows[k].date == r.date
    requires forall j :: 0 <= j < k ==> !(rows[j].code == r.code && rows[j].date == r.date)
    ensures Upsert(rows, r) == rows[k := r]
  {
    if k > 0 {
      UpsertReplaces(rows[1..], r, k - 1);
      assert rows[k := r] == [rows[0]] + rows[1..][k - 1 := r];
    }
  }

  /** Merging a new key appends the row. */
  lemma {:induction false} UpsertAppends(rows: seq<PriceRow>, r: PriceRow)
    requires forall j :: 0 <= j < |rows| ==> !(rows[j].code == r.code && rows[j].date == r.date)
    ensures Upsert(rows, r) == rows + [r]
  {
    if rows != [] {
      UpsertAppends(rows[1..], r);
      assert rows + [r] == [rows[0]] + (rows[1..] + [r]);
    }
  }

  /** After a merge the merged key reads the new bar and every other key reads what it read before. */
  lemma {:induction false} UpsertLookup(rows: seq<PriceRow>, r: PriceRow, code: string, date: int)
    ensures BarAt(Upsert(rows, r), code, date)
            == if code == r.code && date == r.date then Some(r.bar) else BarAt(rows, code, date)
  {
    if rows != [] && !(rows[0].code == r.code && rows[0].date == r.date) {
      UpsertLookup(rows[1..], r, code, date);
      assert ([rows[0]] + Upsert(rows[1..], r))[1..] == Upsert(rows[1..], r);
    } else if rows != [] {
      assert ([r] + rows[1..])[1..] == rows[1..];
    }
  }

  /** After saving, a day of the fund reads the last input row for it, and every other key reads what it read before. */
  lemma {:induction false} MergeLastWins(rows: seq<PriceRow>, code: string, inputs: seq<BarInput>, c: string, d: int)
    ensures BarAt(MergeRows(rows, code, inputs), c, d)
            == if c == code && LastRowFor(inputs, d).Some? then Some(BarOf(inputs[LastRowFor(inputs, d).value]))
               else BarAt(rows, c, d)
  {
    if inputs != [] {
      var n := |inputs| - 1;
      MergeLastWins(rows, code, inputs[..n], c, d);
      UpsertLookup(MergeRows(rows, code, inputs[..n]), PriceRow(code, inputs[n].date, BarOf(inputs[n])), c, d);
    }
  }

  /** Saving the same rows twice stores the same bars as saving them once. */
  lemma MergeIdempotent(rows: seq<PriceRow>, code: string, inputs: seq<BarInput>, c: string, d: int)
    ensures BarAt(MergeRows(MergeRows(rows, code, inputs), code, inputs), c, d) == BarAt(MergeRows(rows, code, inputs), c, d)
  {
    MergeLastWins(rows, code, inputs, c, d);
    MergeLastWins(MergeRows(rows, code, inputs), code, inputs, c, d);
  }

  /** A stable insertion keeps a sorted sequence sorted. */
  lemma {:induction false} InsertKeepsSorted<T>(sorted: seq<T>, x: T, key: T -> int)
    requires SortedBy(sorted, key)
    ensures SortedBy(InsertBy(sorted, x, key), key)
  {
    if sorted != [] && key(sorted[0]) <= key(x) {
      var tail := sorted[1..];
      InsertKeepsSorted(tail, x, key);
      InsertKeepsLowerBound(tail, x, key, key(sorted[0]));
      var rest := InsertBy(tail, x, key);
      var r := InsertBy(sorted, x, key);
      assert r == [sorted[0]] + rest;
      forall i, j | 0 <= i < j < |r| ensures key(r[i]) <= key(r[j]) {
        assert r[j] == rest[j - 1];
        if i > 0 {
          assert r[i] == rest[i - 1];
        }
      }
    }
  }

  /** Inserting an element at or above a lower bound keeps every key at or above it. */
  lemma {:induction false} InsertKeepsLowerBound<T>(s: seq<T>, x: T, key: T -> int, b: int)
    requires b <= key(x) && forall i :: 0 <= i < |s| ==> b <= key(s[i])
    ensures forall i :: 0 <= i < |InsertBy(s, x, key)| ==> b <= key(InsertBy(s, x, key)[i])
  {
    if s != [] && key(s[0]) <= key(x) {
      InsertKeepsLowerBound(s[1..], x, key, b);
      var rest := InsertBy(s[1..], x, key);
      assert InsertBy(s, x, key) == [s[0]] + rest;
    }
  }

  /** Insertion sort sorts. */
  lemma {:induction false} SortBySorts<T>(s: seq<T>, key: T -> int)
    ensures SortedBy(SortBy(s, key), key)
  {
    if s != [] {
      SortBySorts(s[..|s| - 1], key);
      InsertKeepsSorted(SortBy(s[..|s| - 1], key), s[|s| - 1], key);
    }
  }

  /** A price query holds exactly the fund's stored rows from `start` on. */
  lemma PriceQueryShape(rows: seq<PriceRow>, code: string, start: int)
    ensures forall x :: x in PriceQuery(rows, code, start) <==> x in rows && x.code == code && x.date >= start
  {
    var from := PricesFrom(rows, code, start);
    forall x ensures x in PriceQuery(rows, code, start) <==> x in from {
      assert x in PriceQuery(rows, code, start) <==> x in multiset(PriceQuery(rows, code, start));
      assert x in from <==> x in multiset(from);
    }
  }

  /** A daily query holds only the fund's records, newest first, the first `limit` of them (or all, when fewer), each a stored record; without a limit it holds all of them. */
  lemma DailyQueryShape(rows: seq<DailyRecord>, code: string, limit: int)
    ensures SortedBy(DailyQuery(rows, code, limit), NewestKey)
    ensures forall x :: x in DailyQuery(rows, code, limit) ==> x in rows && x.etfCode == code
    ensures limit >= 0 ==> |DailyQuery(rows, code, limit)| == if |RecordsFor(rows, code)| < limit then |RecordsFor(rows, code)| else limit
    ensures limit < 0 ==> multiset(DailyQuery(rows, code, limit)) == multiset(RecordsFor(rows, code))
  {
    var sorted := SortBy(RecordsFor(rows, code), NewestKey);
    SortBySorts(RecordsFor(rows, code), NewestKey);
    var r := DailyQuery(rows, code, limit);
    assert forall i, j :: 0 <= i < j < |r| ==> r[i] == sorted[i] && r[j] == sorted[j];
    forall x | x in r ensures x in rows && x.etfCode == code {
      assert x in multiset(sorted);
    }
  }
}
