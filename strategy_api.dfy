/**
 * The strategy routes: the analysis response (degraded when no price data
 * arrived in time), the history rows, the performance counts, recording a
 * user's action, and the template advice text.
 */
module StrategyApi {
  import opened Wrappers
  import opened Text
  import opened StrategyEngine
  import opened Database
  import opened LlmService

  // ---------------------------------------------------------------------
  // Price data with a deadline

  /** How the bounded wait for the price history ended. */
  datatype PriceWait = TimedOut | Failed(message: string) | Completed(dates: seq<int>, prices: seq<real>)

  /** The price-data dictionary the route sees: dates, prices and an optional error text. */
  datatype PriceData = PriceData(dates: seq<int>, prices: seq<real>, error: Option<string>)

  /** `get_price_with_timeout`: a timeout or a failure becomes empty data carrying the reason. */
  function PriceWithTimeout(w: PriceWait): (d: PriceData)
    ensures w.TimedOut? ==> d.dates == [] && d.error == Some("timeout")
    ensures w.Failed? ==> d.dates == [] && d.error == Some(w.message)
    ensures w.Completed? ==> d.dates == w.dates && d.prices == w.prices && d.error.None?
  {
    match w
    case TimedOut => PriceData([], [], Some("timeout"))
    case Failed(m) => PriceData([], [], Some(m))
    case Completed(ds, ps) => PriceData(ds, ps, None)
  }

  // ---------------------------------------------------------------------
  // The analysis response

  datatype StrategyResponse =
    | Degraded(etfCode: string, date: int, signals: seq<Signal>, finalAction: string, amount: real,
               llmAdvice: string, warning: string)
    | Full(etfCode: string, date: int, signals: seq<Signal>, finalAction: string, amount: real,
           confidence: real, votes: map<Action, nat>, llmAdvice: string)

  /** Base capital the suggested amount is sized against. */
  const BaseCapital: real := 10000.0

  const LoadingText := "数据加载中..."
  const WaitingAdvice := "正在获取最新数据，请稍候刷新页面查看完整分析"

  /** The placeholder answer while data is missing: three neutral signals and the action '等待'. */
  function DegradedResponse(code: string, today: int, d: PriceData): (r: StrategyResponse)
    ensures r.Degraded? && r.finalAction == "等待" && r.amount == 0.0
    ensures |r.signals| == 3 && forall i :: 0 <= i < 3 ==> r.signals[i].action == Hold && r.signals[i].confidence == 0.5
    ensures r.warning == if d.error.Some? then d.error.value else "暂无数据"
  {
    Degraded(code, today,
             [Signal("双均线", Hold, 0.5, LoadingText), Signal("RSI", Hold, 0.5, LoadingText),
              Signal("布林带", Hold, 0.5, LoadingText)],
             "等待", 0.0, WaitingAdvice, d.error.GetOr("暂无数据"))
  }

  /**
   * `get_strategy`: without dates, the placeholder answer and no store
   * change; otherwise the engine's result, the amount for 10000 of capital,
   * and the advisory text.
   */
  method GetStrategy(advisor: Advisor, code: string, today: int, now: int, w: PriceWait,
                     stdOf: seq<real> -> real, hash: string -> string,
                     remote: (Provider, string) -> Option<string>) returns (resp: StrategyResponse)
    requires advisor.store.Valid()
    modifies advisor.store
    ensures advisor.store.Valid()
    ensures var d := PriceWithTimeout(w);
            d.dates == [] ==> resp == DegradedResponse(code, today, d) && unchanged(advisor.store)
    ensures var d := PriceWithTimeout(w);
            d.dates != [] ==>
              var result := Fuse(Strategies(d.prices, stdOf));
              && resp.Full?
              && resp.signals == result.signals && resp.votes == result.votes
              && resp.finalAction == Label(result.finalAction) && resp.confidence == result.confidence
              && resp.etfCode == code && resp.date == today
              && resp.amount == CalculatePosition(BaseCapital, result.confidence, result.finalAction)
              && resp.llmAdvice != ""
              && AdviceOutcome(old(advisor.store.cache), old(advisor.store.nextCacheId),
                               advisor.store.cache, advisor.store.nextCacheId,
                               advisor.provider, result, now, hash, remote, resp.llmAdvice)
    ensures advisor.store.funds == old(advisor.store.funds) && advisor.store.prices == old(advisor.store.prices)
    ensures advisor.store.strategies == old(advisor.store.strategies)
  {
    var d := PriceWithTimeout(w);
    if d.dates == [] {
      return DegradedResponse(code, today, d);
    }
    var result := Analyze(d.prices, stdOf);
    var amount := CalculatePosition(BaseCapital, result.confidence, result.finalAction);
    var advice := advisor.GenerateAdvice(result, now, hash, remote);
    resp := Full(code, today, result.signals, Label(result.finalAction), amount, result.confidence, result.votes, advice);
  }

  // ---------------------------------------------------------------------
  // History rows

  datatype HistoryRow = HistoryRow(id: nat, date: int, strategy: string, action: string, actual: string, remark: string)

  /** Python's truthiness of an optional text. */
  function OrDash(s: Option<string>): (r: string)
    ensures r == "-" || (s.Some? && r == s.value && r != "")
  {
    if s.Some? && s.value != "" then s.value else "-"
  }

  /**
   * One history row. The suggested amount is shown only when it is non-zero;
   * a truthy actual action is shown with its amount, and formatting a missing
   * amount raises (None).
   */
  function HistoryRowOf(rec: DailyRecord): (row: Option<HistoryRow>)
    ensures row.None? <==> rec.actualAction.Some? && rec.actualAction.value != "" && rec.actualAmount.None?
    ensures row.Some? ==> row.value.id == rec.id && row.value.strategy == rec.finalAction
    ensures row.Some? && rec.suggestedAmount == 0.0 ==> row.value.action == rec.finalAction
    ensures row.Some? && rec.actualAction.None? ==> row.value.actual == "-"
    ensures row.Some? ==> row.value.remark == OrDash(rec.remark)
  {
    var action := if rec.suggestedAmount != 0.0 then rec.finalAction + " ¥" + FormatFixed0(rec.suggestedAmount)
                  else rec.finalAction;
    if rec.actualAction.Some? && rec.actualAction.value != "" then
      if rec.actualAmount.None? then None
      else Some(HistoryRow(rec.id, rec.date, rec.finalAction, action,
                           rec.actualAction.value + " ¥" + FormatFixed0(rec.actualAmount.value), OrDash(rec.remark)))
    else Some(HistoryRow(rec.id, rec.date, rec.finalAction, action, "-", OrDash(rec.remark)))
  }

  /** The rows for a list of records, or None when any of them fails to format. */
  function HistoryRows(recs: seq<DailyRecord>): (rows: Option<seq<HistoryRow>>)
    ensures rows.Some? ==> |rows.value| == |recs|
                           && forall i :: 0 <= i < |recs| ==> HistoryRowOf(recs[i]) == Some(rows.value[i])
    ensures rows.None? ==> exists i :: 0 <= i < |recs| && HistoryRowOf(recs[i]).None?
  {
    if recs == [] then Some([])
    else
      var init := HistoryRows(recs[..|recs| - 1]);
      var last := HistoryRowOf(recs[|recs| - 1]);
      if init.None? || last.None? then None
      else
        assert forall i :: 0 <= i < |recs| - 1 ==> recs[..|recs| - 1][i] == recs[i];
        Some(init.value + [last.value])
  }

  /** `get_strategy_history`: the rows of the newest `days` records; a formatting error yields no rows. */
  method GetStrategyHistory(store: Store, code: string, days: int) returns (rows: seq<HistoryRow>)
    ensures var r := HistoryRows(DailyQuery(store.strategies, code, days));
            rows == if r.Some? then r.value else []
  {
    var recs := store.GetDailyStrategies(code, days);
    rows := [];
    for i := 0 to |recs|
      invariant HistoryRows(recs[..i]) == Some(rows)
    {
      assert recs[..i + 1][..i] == recs[..i];
      var row := HistoryRowOf(recs[i]);
      if row.None? {
        assert HistoryRows(recs[..i + 1]).None?;
        HistoryRowsFailsOnPrefix(recs, i + 1);
        return [];
      }
      rows := rows + [row.value];
    }
    assert recs[..|recs|] == recs;
  }

  /** A failing prefix makes the whole list fail. */
  lemma {:induction false} HistoryRowsFailsOnPrefix(recs: seq<DailyRecord>, n: nat)
    requires n <= |recs| && HistoryRows(recs[..n]).None?
    ensures HistoryRows(recs).None?
    decreases |recs| - n
  {
    if n < |recs| {
      assert recs[..n + 1][..n] == recs[..n];
      HistoryRowsFailsOnPrefix(recs, n + 1);
    } else {
      assert recs[..n] == recs;
    }
  }

  // ---------------------------------------------------------------------
  // Performance

  datatype Performance = Performance(total: nat, followed: nat, notFollowed: nat, accuracy: nat)

  predicate Followed(rec: DailyRecord)
  {
    rec.actualAction.Some? && rec.actualAction.value != ""
  }

  /** Records whose actual action is truthy. */
  function FollowedCount(recs: seq<DailyRecord>): (n: nat)
    ensures n <= |recs|
    ensures n == 0 <==> forall i :: 0 <= i < |recs| ==> !Followed(recs[i])
  {
    if recs == [] then 0
    else
      assert forall i :: 0 <= i < |recs| - 1 ==> recs[..|recs| - 1][i] == recs[i];
      FollowedCount(recs[..|recs| - 1]) + (if Followed(recs[|recs| - 1]) then 1 else 0)
  }

  /** `get_performance`'s counts: followed and not followed split the total; accuracy is always 0. */
  function PerformanceOf(recs: seq<DailyRecord>): (p: Performance)
    ensures p.total == |recs| && p.followed + p.notFollowed == p.total && p.accuracy == 0
    ensures p.followed == 0 <==> forall i :: 0 <= i < |recs| ==> !Followed(recs[i])
  {
    if |recs| == 0 then Performance(0, 0, 0, 0)
    else
      var f := FollowedCount(recs);
      Performance(|recs|, f, |recs| - f, 0)
  }

  /** `get_performance` over the newest `days` records of a fund. */
  method GetPerformance(store: Store, code: string, days: int) returns (p: Performance)
    ensures p == PerformanceOf(DailyQuery(store.strategies, code, days))
  {
    var recs := store.GetDailyStrategies(code, days);
    p := PerformanceOf(recs);
  }

  // ---------------------------------------------------------------------
  // Recording

  datatype ApiReply = ApiReply(code: nat, message: string)

  /** `record_action`: saves a record whose final action is the user's action; the store drops the actual action, amount and remark. */
  method RecordAction(store: Store, code: string, action: string, amount: real, remark: Option<string>, today: int)
    returns (reply: ApiReply)
    requires store.Valid()
    modifies store
    ensures store.Valid()
    ensures reply == ApiReply(0, "记录成功")
    ensures store.strategies == old(store.strategies)
              + [DailyRecord(old(store.nextStrategyId), code, today, "{}", action, amount, "", None, None, None)]
    ensures store.funds == old(store.funds) && store.prices == old(store.prices) && store.cache == old(store.cache)
  {
    var _ := store.SaveDailyStrategy(StrategyInput(code, today, "{}", action, amount, Some(""),
                                                   Some(action), Some(amount), remark));
    reply := ApiReply(0, "记录成功");
  }

  /** Every record the store holds shows '-' as its actual action and remark. */
  lemma StoredRecordsShowNoActual(recs: seq<DailyRecord>, i: nat)
    requires i < |recs|
    requires forall k :: 0 <= k < |recs| ==> recs[k].actualAction.None? && recs[k].remark.None?
    ensures HistoryRowOf(recs[i]).Some?
    ensures HistoryRowOf(recs[i]).value.actual == "-" && HistoryRowOf(recs[i]).value.remark == "-"
  {
  }

  /** Since actual actions are never stored, the performance of any stored records counts none as followed. */
  lemma NothingEverFollowed(rows: seq<DailyRecord>, code: string, days: int)
    requires forall k :: 0 <= k < |rows| ==> rows[k].actualAction.None?
    ensures PerformanceOf(DailyQuery(rows, code, days)).followed == 0
    ensures PerformanceOf(DailyQuery(rows, code, days)).notFollowed == |DailyQuery(rows, code, days)|
  {
    DailyQueryShape(rows, code, days);
    var recs := DailyQuery(rows, code, days);
    forall i | 0 <= i < |recs| ensures !Followed(recs[i]) {
      assert recs[i] in recs;
    }
  }

  // ---------------------------------------------------------------------
  // Template advice

  /** The consistency word: strong above 0.7, medium above 0.5, weak otherwise. */
  function ConsistencyWord(confidence: real): (w: string)
    ensures w == "较强" <==> confidence > 0.7
    ensures w == "中等" <==> 0.5 < confidence <= 0.7
    ensures w == "较弱" <==> confidence <= 0.5
  {
    if confidence > 0.7 then "较强" else if confidence > 0.5 then "中等" else "较弱"
  }

  function ActionDescription(action: string): Option<string>
  {
    if action == "买入" then Some("技术指标显示上涨信号")
    else if action == "卖出" then Some("技术指标显示调整风险")
    else if action == "持有" then Some("市场方向不明，建议观望")
    else None
  }

  function Closing(action: string): string
  {
    if action == "买入" then "建议可考虑逢低布局，控制好仓位。"
    else if action == "卖出" then "建议适当减仓，防范短期风险。"
    else "建议保持现有仓位，谨慎操作。"
  }

  /**
   * `generate_llm_advice`: None where the lookup of the action's description
   * raises. `votesText` is the printed votes dictionary.
   */
  function GenerateLlmAdvice(action: string, confidence: real, votesText: string): (advice: Option<string>)
    ensures advice.Some? <==> action in {"买入", "卖出", "持有"}
    ensures advice.Some? ==> "当前" <= advice.value
  {
    match ActionDescription(action)
    case None => None
    case Some(desc) => Some("当前" + desc + "，策略一致性" + ConsistencyWord(confidence) + "（" + votesText + "）。" + Closing(action))
  }

  /** The template advice ends with the closing for its action, and the hold closing only for '持有'. */
  lemma TemplateAdviceClosing(action: string, confidence: real, votesText: string)
    requires action in {"买入", "卖出", "持有"}
    ensures var a := GenerateLlmAdvice(action, confidence, votesText).value;
            var c := Closing(action);
            |c| <= |a| && a[|a| - |c|..] == c
    ensures Closing(action) == "建议保持现有仓位，谨慎操作。" <==> action == "持有"
  {
    var desc := ActionDescription(action).value;
    var head := "当前" + desc + "，策略一致性" + ConsistencyWord(confidence) + "（" + votesText + "）。";
    var a := GenerateLlmAdvice(action, confidence, votesText).value;
    assert a == head + Closing(action);
  }
}
