/**
 * The advisory service: provider selection, the mock provider's canned
 * replies, the prompt built from a strategy result, the advisory cache
 * (lookup by prompt key with strict expiry, insert with a 24-hour lifetime)
 * and the rule-based fallback text.
 */
module LlmService {
  import opened Wrappers
  import opened Text
  import opened Database
  import opened StrategyEngine

  /** Lifetime of a cached reply, in seconds (24 hours). */
  const CacheTtl: int := 86400

  // ---------------------------------------------------------------------
  // Providers

  datatype Provider = DeepSeek(apiKey: string) | OpenAI(apiKey: string) | MockProvider

  /** The environment read at start-up: both API keys and the provider setting. */
  datatype ProviderConfig = ProviderConfig(deepseekKey: Option<string>, openaiKey: Option<string>, setting: Option<string>)

  /** A set, non-empty value: Python's truthiness of an optional string. */
  predicate Present(s: Option<string>)
  {
    s.Some? && s.value != ""
  }

  /** `DEEPSEEK_API_KEY or OPENAI_API_KEY`. */
  function ApiKey(cfg: ProviderConfig): (k: Option<string>)
    ensures Present(k) <==> Present(cfg.deepseekKey) || Present(cfg.openaiKey)
  {
    if Present(cfg.deepseekKey) then cfg.deepseekKey else cfg.openaiKey
  }

  /** A remote provider only when it is the configured one and some key is present; otherwise the mock. */
  function SelectProvider(cfg: ProviderConfig): (p: Provider)
    ensures p.DeepSeek? <==> cfg.setting == Some("deepseek") && (Present(cfg.deepseekKey) || Present(cfg.openaiKey))
    ensures p.OpenAI? <==> cfg.setting == Some("openai") && (Present(cfg.deepseekKey) || Present(cfg.openaiKey))
    ensures !p.MockProvider? ==> p.apiKey != "" && Some(p.apiKey) == ApiKey(cfg)
    ensures cfg.setting.None? ==> p.MockProvider?
  {
    var key := ApiKey(cfg);
    var setting := cfg.setting.GetOr("mock");
    if setting == "deepseek" && Present(key) then DeepSeek(key.value)
    else if setting == "openai" && Present(key) then OpenAI(key.value)
    else MockProvider
  }

  const MockBuyText := "技术指标综合显示短期上涨动能较强。双均线形成金叉，RSI处于偏强区域，价格在布林带中轨上方运行。建议可考虑逢低布局，建议仓位控制在30%-50%。"
  const MockSellText := "技术指标显示短期存在调整风险。RSI进入超买区域，需警惕回调风险。建议适当减仓锁定利润，仓位建议控制在20%以下。"
  const MockHoldText := "市场方向暂不明确，各技术指标出现分歧。建议保持现有仓位，谨慎追涨杀跌，等待更明确的信号。"

  /** `MockLLMProvider.generate`: the buy text when '买入' occurs anywhere in the prompt, else the sell text when '卖出' does. */
  function MockGenerate(prompt: string): (reply: string)
    ensures reply != ""
    ensures reply == MockBuyText <==> Contains(prompt, "买入")
    ensures reply == MockSellText <==> !Contains(prompt, "买入") && Contains(prompt, "卖出")
  {
    if Contains(prompt, "买入") then MockBuyText
    else if Contains(prompt, "卖出") then MockSellText
    else MockHoldText
  }

  /**
   * The provider's reply. `remote` stands for the HTTP call to the chosen
   * service: None for an error status, an exception or a timeout.
   */
  function Reply(p: Provider, prompt: string, remote: (Provider, string) -> Option<string>): (r: Option<string>)
    ensures p.MockProvider? ==> r.Some? && r.value != ""
    ensures !p.MockProvider? && p.apiKey == "" ==> r.None?
  {
    match p
    case MockProvider => Some(MockGenerate(prompt))
    case _ => if p.apiKey == "" then None else remote(p, prompt)
  }

  // ---------------------------------------------------------------------
  // Prompt

  const PromptLead := "\n请分析以下ETF策略信号并给出投资建议：\n\n最终操作建议："

  function PromptHeader(r: StrategyResult): string
  {
    PromptLead + Label(r.finalAction)
    + "\n综合置信度：" + FormatPercent0(r.confidence) + "\n\n各策略信号：\n"
  }

  function SignalLine(s: Signal): string
  {
    "- " + s.name + ": " + Label(s.action) + " (置信度" + FormatPercent0(s.confidence) + ") - " + s.details + "\n"
  }

  /** The concatenation of `line(s)` over `signals`, in order. */
  function JoinLines(line: Signal -> string, signals: seq<Signal>): string
  {
    if signals == [] then ""
    else JoinLines(line, signals[..|signals| - 1]) + line(signals[|signals| - 1])
  }

  /** One line per signal, in order. */
  function SignalLines(signals: seq<Signal>): string
  {
    JoinLines(SignalLine, signals)
  }

  const PromptFooter := "\n请用简洁清晰的语句总结：\n1. 当前市场状态\n2. 操作理由\n3. 风险提示\n4. 建议仓位\n\n回复控制在100字以内。\n"

  /** The prompt `generate_advice` builds from a strategy result. */
  function Prompt(r: StrategyResult): (p: string)
    ensures PromptHeader(r) <= p
    ensures |p| >= |PromptFooter| && p[|p| - |PromptFooter|..] == PromptFooter
  {
    PromptHeader(r) + SignalLines(r.signals) + PromptFooter
  }

  /** Extending the signals by one adds that signal's line. */
  lemma SignalLinesSnoc(signals: seq<Signal>, i: nat)
    requires i < |signals|
    ensures SignalLines(signals[..i + 1]) == SignalLines(signals[..i]) + SignalLine(signals[i])
  {
    assert signals[..i + 1][..i] == signals[..i];
  }

  /** The signal lines, appended one by one as the source does. */
  method BuildSignalLines(signals: seq<Signal>) returns (lines: string)
    ensures lines == SignalLines(signals)
  {
    lines := "";
    for i := 0 to |signals|
      invariant lines == SignalLines(signals[..i])
    {
      SignalLinesSnoc(signals, i);
      lines := lines + SignalLine(signals[i]);
    }
    assert signals[..|signals|] == signals;
  }

  /** The prompt `generate_advice` builds: header, one line per signal, footer. */
  method BuildPrompt(r: StrategyResult) returns (prompt: string)
    ensures prompt == Prompt(r)
  {
    var lines := BuildSignalLines(r.signals);
    prompt := PromptHeader(r) + lines + PromptFooter;
  }

  // ---------------------------------------------------------------------
  // Cache

  /** `_get_cached_response`: the stored reply for the key while it has not expired (strictly). */
  function CachedResponse(cache: seq<CacheRecord>, key: string, now: int): (r: Option<string>)
    ensures r.Some? ==> exists i :: 0 <= i < |cache| && cache[i].key == key && cache[i].expiresAt > now
                                     && cache[i].response == r.value
    ensures !HasCacheKey(cache, key) ==> r.None?
  {
    match CacheLookup(cache, key)
    case None => None
    case Some(rec) => if rec.expiresAt > now then Some(rec.response) else None
  }

  /** A usable hit: `if cached:` also treats an empty stored reply as a miss. */
  function Hit(cache: seq<CacheRecord>, key: string, now: int): (h: Option<string>)
    ensures h.Some? ==> h.value != "" && exists i :: 0 <= i < |cache| && cache[i].key == key && cache[i].expiresAt > now
                                                   && cache[i].response == h.value
    ensures !HasCacheKey(cache, key) ==> h.None?
  {
    var c := CachedResponse(cache, key, now);
    if c.Some? && c.value != "" then c else None
  }

  // ---------------------------------------------------------------------
  // Rule-based fallback

  function ActionOpening(action: string): string
  {
    if action == "买入" then "技术指标显示上涨信号，建议适度建仓"
    else if action == "卖出" then "技术指标显示调整风险，建议适当减仓"
    else if action == "持有" then "市场方向不明，建议观望等待"
    else "建议观望"
  }

  function StrengthClause(confidence: real): string
  {
    if confidence > 0.75 then "，信号较强。"
    else if confidence < 0.55 then "，信号较弱，谨慎操作。"
    else "。"
  }

  function RiskNote(action: string): string
  {
    if action == "买入" then "注意控制仓位，设置止损位。"
    else if action == "卖出" then "可考虑分批减仓，回调后择机接回。"
    else ""
  }

  /** `_rule_based_advice`: an opening by action, a strength clause by confidence, a risk note for a trade. */
  function RuleBasedAdvice(action: string, confidence: real): (advice: string)
    ensures advice != ""
    ensures ActionOpening(action) <= advice
    ensures action != "买入" && action != "卖出" ==> advice == ActionOpening(action) + StrengthClause(confidence)
  {
    ActionOpening(action) + StrengthClause(confidence) + RiskNote(action)
  }

  // ---------------------------------------------------------------------
  // The service

  /**
   * What `generate_advice` answers and how it leaves the cache table, from
   * the table `cache` with id counter `nextId` to `cache'` with `nextId'`:
   * a live hit answers from the cache and changes nothing; otherwise a
   * provider reply is answered and inserted under a fresh key (an insert
   * under a taken key fails silently); otherwise the rule-based text is
   * answered and nothing changes.
   */
  predicate AdviceOutcome(cache: seq<CacheRecord>, nextId: nat, cache': seq<CacheRecord>, nextId': nat,
                          provider: Provider, r: StrategyResult, now: int, hash: string -> string,
                          remote: (Provider, string) -> Option<string>, advice: string)
  {
    var prompt := Prompt(r);
    var key := hash(prompt);
    var hit := Hit(cache, key, now);
    var reply := Reply(provider, prompt, remote);
    if hit.Some? then
      advice == hit.value && cache' == cache && nextId' == nextId
    else if Present(reply) then
      && advice == reply.value
      && (HasCacheKey(cache, key) ==> cache' == cache && nextId' == nextId)
      && (!HasCacheKey(cache, key) ==>
            cache' == cache + [CacheRecord(nextId, key, prompt, reply.value, now + CacheTtl)] && nextId' == nextId + 1)
    else
      advice == RuleBasedAdvice(Label(r.finalAction), r.confidence) && cache' == cache && nextId' == nextId
  }

  class Advisor {
    const provider: Provider
    const store: Store

    /** `LLMService()`: the provider is chosen once from the configuration. */
    constructor (cfg: ProviderConfig, store: Store)
      ensures provider == SelectProvider(cfg) && this.store == store
    {
      provider := SelectProvider(cfg);
      this.store := store;
    }

    /**
     * `generate_advice`: a live cached reply if there is one; otherwise the
     * provider's reply, saved with a 24-hour lifetime (the insert fails
     * silently when the key is already taken); otherwise the rule-based text.
     * `hash` stands for md5 of the prompt, `now` for the clock in seconds.
     */
    method GenerateAdvice(r: StrategyResult, now: int, hash: string -> string,
                          remote: (Provider, string) -> Option<string>) returns (advice: string)
      requires store.Valid()
      modifies store
      ensures store.Valid()
      ensures advice != ""
      ensures store.funds == old(store.funds) && store.prices == old(store.prices)
      ensures store.strategies == old(store.strategies) && store.nextStrategyId == old(store.nextStrategyId)
      ensures AdviceOutcome(old(store.cache), old(store.nextCacheId), store.cache, store.nextCacheId,
                            provider, r, now, hash, remote, advice)
    {
      var prompt := BuildPrompt(r);
      assert store.Valid() && prompt == Prompt(r);
      var key := hash(prompt);
      var found := store.FindCache(key);
      assert Hit(store.cache, key, now).Some? <==> found.Some? && found.value.expiresAt > now && found.value.response != "";
      if found.Some? && found.value.expiresAt > now && found.value.response != "" {
        return found.value.response;
      }
      var reply := Reply(provider, prompt, remote);
      if Present(reply) {
        var _ := store.InsertCache(key, prompt, reply.value, now + CacheTtl);
        advice := reply.value;
      } else {
        advice := RuleBasedAdvice(Label(r.finalAction), r.confidence);
      }
    }
  }

  // ---------------------------------------------------------------------
  // Properties

  /** Under unique keys, a lookup hits exactly when the key's one record has not expired, and yields its reply. */
  lemma {:induction false} CachedResponseExact(cache: seq<CacheRecord>, key: string, now: int, i: nat)
    requires forall a, b :: 0 <= a < b < |cache| ==> cache[a].key != cache[b].key
    requires i < |cache| && cache[i].key == key
    ensures CachedResponse(cache, key, now) == if cache[i].expiresAt > now then Some(cache[i].response) else None
  {
    if i > 0 {
      assert cache[0].key != key;
      var tail := cache[1..];
      assert tail[i - 1] == cache[i];
      CachedResponseExact(tail, key, now, i - 1);
    }
  }

  /**
   * An expired record is a miss, and its key is still taken, so saving a
   * fresh reply under it fails: an expired entry is never replaced.
   */
  lemma ExpiredEntryBlocksRefresh(cache: seq<CacheRecord>, key: string, now: int, i: nat)
    requires forall a, b :: 0 <= a < b < |cache| ==> cache[a].key != cache[b].key
    requires i < |cache| && cache[i].key == key && cache[i].expiresAt <= now
    ensures Hit(cache, key, now).None?
    ensures HasCacheKey(cache, key)
  {
    CachedResponseExact(cache, key, now, i);
  }

  /** A reply saved at time t under a new key is served exactly while the clock reads less than t + 24h. */
  lemma FreshEntryLifetime(cache: seq<CacheRecord>, id: nat, key: string, prompt: string, reply: string, t: int, now: int)
    requires forall a, b :: 0 <= a < b < |cache| ==> cache[a].key != cache[b].key
    requires !HasCacheKey(cache, key) && reply != ""
    ensures Hit(cache + [CacheRecord(id, key, prompt, reply, t + CacheTtl)], key, now)
            == if now < t + CacheTtl then Some(reply) else None
  {
    var c := cache + [CacheRecord(id, key, prompt, reply, t + CacheTtl)];
    CachedResponseExact(c, key, now, |cache|);
  }

  /** `needle in hay` survives adding text on either side. */
  lemma {:induction false} ContainsExtendLeft(a: string, b: string, needle: string)
    requires Contains(b, needle)
    ensures Contains(a + b, needle)
  {
    if a == [] {
      assert a + b == b;
    } else {
      ContainsExtendLeft(a[1..], b, needle);
      assert (a + b)[1..] == a[1..] + b;
    }
  }

  lemma {:induction false} ContainsExtendRight(a: string, b: string, needle: string)
    requires Contains(a, needle)
    ensures Contains(a + b, needle)
  {
    if needle <= a {
      assert needle <= a + b;
    } else {
      ContainsExtendRight(a[1..], b, needle);
      assert (a + b)[1..] == a[1..] + b;
    }
  }

  /** The prompt names the final action's tag. */
  lemma PromptNamesAction(r: StrategyResult)
    ensures Contains(Prompt(r), Label(r.finalAction))
  {
    var tag, h, p := Label(r.finalAction), PromptHeader(r), Prompt(r);
    HeaderNamesAction(r);
    assert p[|PromptLead|..|PromptLead| + |tag|] == h[|PromptLead|..|PromptLead| + |tag|];
    ContainsAt(p, tag, |PromptLead|);
  }

  /** The header names the final action's tag right after its opening line. */
  lemma HeaderNamesAction(r: StrategyResult)
    ensures |PromptLead| + |Label(r.finalAction)| <= |PromptHeader(r)|
    ensures PromptHeader(r)[|PromptLead|..|PromptLead| + |Label(r.finalAction)|] == Label(r.finalAction)
  {
    var tag := Label(r.finalAction);
    var mid := "\n综合置信度：" + FormatPercent0(r.confidence) + "\n\n各策略信号：\n";
    assert PromptHeader(r) == PromptLead + tag + mid;
    assert (PromptLead + tag + mid)[|PromptLead|..|PromptLead| + |tag|] == tag;
  }

  /** A signal's line names its action's label. */
  lemma LineNamesAction(s: Signal)
    ensures Contains(SignalLine(s), Label(s.action))
  {
    var pre := "- " + s.name + ": ";
    var post := " (置信度" + FormatPercent0(s.confidence) + ") - " + s.details + "\n";
    var tag := Label(s.action);
    assert SignalLine(s) == pre + tag + post;
    assert (pre + tag + post)[|pre|..|pre| + |tag|] == tag;
    ContainsAt(SignalLine(s), tag, |pre|);
  }

  /** The signal lines name every signal's label. */
  lemma SignalLinesNameActions(signals: seq<Signal>, k: nat)
    requires k < |signals|
    ensures Contains(SignalLines(signals), Label(signals[k].action))
  {
    LineNamesAction(signals[k]);
    JoinKeepsLine(SignalLine, signals, k, Label(signals[k].action));
  }

  /** Text found in one signal's line is found in the joined lines. */
  lemma {:induction false} JoinKeepsLine(line: Signal -> string, signals: seq<Signal>, k: nat, needle: string)
    requires k < |signals| && Contains(line(signals[k]), needle)
    ensures Contains(JoinLines(line, signals), needle)
  {
    var n := |signals| - 1;
    if k < n {
      assert signals[..n][k] == signals[k];
      JoinKeepsLine(line, signals[..n], k, needle);
      ContainsExtendRight(JoinLines(line, signals[..n]), line(signals[n]), needle);
    } else {
      ContainsExtendLeft(JoinLines(line, signals[..n]), line(signals[n]), needle);
    }
  }

  /**
   * The mock provider answers with the buy text whenever the decision or any
   * single signal is a buy, even when the fused decision is a sell or a hold.
   */
  lemma MockBuysOnAnyBuySignal(r: StrategyResult, k: nat)
    requires r.finalAction == Buy || (k < |r.signals| && r.signals[k].action == Buy)
    ensures MockGenerate(Prompt(r)) == MockBuyText
  {
    if r.finalAction == Buy {
      PromptNamesAction(r);
    } else {
      SignalLinesNameActions(r.signals, k);
      ContainsExtendLeft(PromptHeader(r), SignalLines(r.signals), "买入");
      ContainsExtendRight(PromptHeader(r) + SignalLines(r.signals), PromptFooter, "买入");
    }
  }

  /** For a sell decision the mock never answers with the hold text. */
  lemma MockSellNeverHolds(r: StrategyResult)
    requires r.finalAction == Sell
    ensures MockGenerate(Prompt(r)) != MockHoldText
  {
    PromptNamesAction(r);
  }

  /** The whole fallback text for a strong buy and for an unknown action. */
  lemma RuleBasedAdviceExamples()
    ensures RuleBasedAdvice("买入", 0.8) == "技术指标显示上涨信号，建议适度建仓，信号较强。注意控制仓位，设置止损位。"
    ensures RuleBasedAdvice("等待", 0.6) == "建议观望。"
  {
  }
}
