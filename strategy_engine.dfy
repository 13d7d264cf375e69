/**
 * The signal-fusion engine: three technical strategies (dual moving average,
 * RSI, Bollinger band), each a length guard followed by a first-match
 * decision table; a voting aggregator; and the position sizer.
 */
module StrategyEngine {
  import opened Wrappers
  import opened Indicators
  import Text

  datatype Action = Buy | Sell | Hold

  /** The label the system uses for an action: '买入', '卖出', '持有'. */
  function Label(a: Action): string
  {
    match a
    case Buy => "买入"
    case Sell => "卖出"
    case Hold => "持有"
  }

  datatype Signal = Signal(name: string, action: Action, confidence: real, details: string)

  const ShortWindow: nat := 5
  const LongWindow: nat := 20
  const RsiPeriod: nat := 14
  const Overbought: real := 70.0
  const Oversold: real := 30.0
  const BandWindow: nat := 20
  const BandDeviations: real := 2.0

  /** The uniform answer of a strategy given too little history. */
  function InsufficientData(name: string): Signal
  {
    Signal(name, Hold, 0.5, "数据不足")
  }

  // Comparisons against a possibly-NaN value are false when it is NaN.
  predicate Above(x: Option<real>, c: real) { x.Some? && x.value > c }
  predicate Below(x: Option<real>, c: real) { x.Some? && x.value < c }
  predicate AtLeast(x: Option<real>, c: real) { x.Some? && x.value >= c }
  predicate AtMost(x: Option<real>, c: real) { x.Some? && x.value <= c }

  /**
   * A float64 as numpy's division produces it: a real, an infinity or NaN.
   * The sign of a zero is not tracked; every zero divisor counts as +0.
   */
  datatype Float = Finite(value: real) | PosInf | NegInf | NaN

  /** A pandas value, NaN when missing. */
  function OfOption(x: Option<real>): Float
  {
    if x.Some? then Finite(x.value) else NaN
  }

  /** IEEE 754 division: a non-zero over zero is an infinity signed like it, 0/0 and inf/inf are NaN. */
  function Divide(a: Float, b: Float): (q: Float)
    ensures q.NaN? <==> a.NaN? || b.NaN? || (a == Finite(0.0) && b == Finite(0.0))
                        || (!a.Finite? && !b.Finite?)
    ensures a.Finite? && b.Finite? && b.value != 0.0 ==> q.Finite? && q.value * b.value == a.value
    ensures a.Finite? && b.Finite? && b.value == 0.0 ==>
              (q == PosInf <==> a.value > 0.0) && (q == NegInf <==> a.value < 0.0)
    ensures a.Finite? && !b.Finite? && !b.NaN? ==> q == Finite(0.0)
  {
    match (a, b)
    case (NaN, _) => NaN
    case (_, NaN) => NaN
    case (Finite(x), Finite(y)) =>
      if y != 0.0 then Finite(x / y) else if x > 0.0 then PosInf else if x < 0.0 then NegInf else NaN
    case (Finite(_), _) => Finite(0.0)
    case (PosInf, Finite(y)) => if y < 0.0 then NegInf else PosInf
    case (NegInf, Finite(y)) => if y < 0.0 then PosInf else NegInf
    case (_, _) => NaN
  }

  /** `a - c` for a finite `c`: infinities and NaN are kept. */
  function Minus(a: Float, c: real): (d: Float)
    ensures a.Finite? <==> d.Finite?
    ensures a.Finite? ==> d.value + c == a.value
    ensures !a.Finite? ==> d == a
  {
    if a.Finite? then Finite(a.value - c) else a
  }

  // Comparisons with NaN are false; +inf exceeds and -inf falls below every real.
  predicate Exceeds(x: Float, c: real) { x == PosInf || (x.Finite? && x.value > c) }
  predicate FallsBelow(x: Float, c: real) { x == NegInf || (x.Finite? && x.value < c) }

  /** `a / b` of two float64 values. */
  function Quotient(a: real, b: real): Float
  {
    Divide(Finite(a), Finite(b))
  }

  /** `cur / past - 1`, NaN when `past` is. */
  function Trend(cur: real, past: Option<real>): Float
  {
    Minus(Divide(Finite(cur), OfOption(past)), 1.0)
  }

  // ---------------------------------------------------------------------
  // Dual moving average (short 5, long 20)

  /** The numbers the moving-average table looks at. */
  datatype MaView = MaView(price: real, curShort: real, curLong: real, prevShort: real, prevLong: real,
                           shortTrend: Float, longTrend: Float)

  /**
   * `iloc[-1]` and `iloc[-2]` of both averages; the short trend compares with
   * `iloc[-5]` (four steps back), the long trend with `iloc[-10]` (nine steps
   * back), which is still in the long average's warm-up below 29 prices.
   */
  function MaViewOf(prices: seq<real>): MaView
    requires |prices| >= LongWindow + 5
  {
    var n := |prices|;
    var curShort := Mean(Window(prices, n - 1, ShortWindow));
    var curLong := Mean(Window(prices, n - 1, LongWindow));
    MaView(prices[n - 1], curShort, curLong,
           Mean(Window(prices, n - 2, ShortWindow)), Mean(Window(prices, n - 2, LongWindow)),
           Trend(curShort, RollingMeanAt(prices, n - 5, ShortWindow)),
           Trend(curLong, RollingMeanAt(prices, n - 10, LongWindow)))
  }

  predicate GoldenCross(v: MaView) { v.prevShort <= v.prevLong && v.curShort > v.curLong }
  predicate DeathCross(v: MaView) { v.prevShort >= v.prevLong && v.curShort < v.curLong }

  function MaDecide(v: MaView): Signal
  {
    var above := v.price > v.curShort;
    if GoldenCross(v) && above then Signal("双均线", Buy, 0.85, "金叉形成，价格站上均线")
    else if DeathCross(v) then Signal("双均线", Sell, 0.80, "死叉形成，注意风险")
    else if v.curShort > v.curLong && Exceeds(v.shortTrend, 0.0) then Signal("双均线", Buy, 0.70, "短期均线在上且上升趋势")
    else if v.curShort < v.curLong && FallsBelow(v.longTrend, -0.02) then Signal("双均线", Sell, 0.70, "中长期趋势向下")
    else if above then Signal("双均线", Hold, 0.60, "价格暂稳，均线整理中")
    else Signal("双均线", Hold, 0.55, "观望为主")
  }

  /** `MovingAverageStrategy.analyze` */
  function MaAnalyze(prices: seq<real>): (s: Signal)
    ensures s.name == "双均线" && 0.5 <= s.confidence <= 0.85
    ensures s == InsufficientData("双均线") <==> |prices| < LongWindow + 5
  {
    if |prices| < LongWindow + 5 then InsufficientData("双均线") else MaDecide(MaViewOf(prices))
  }

  // ---------------------------------------------------------------------
  // RSI (period 14, overbought 70, oversold 30)

  /** The current RSI and its change over four steps (`iloc[-1] - iloc[-5]`), unfilled. */
  datatype RsiView = RsiView(current: Option<real>, trend: Option<real>)

  function RsiViewOf(prices: seq<real>): RsiView
    requires |prices| >= RsiPeriod + 5
  {
    var n := |prices|;
    var cur := RsiAt(prices, n - 1, RsiPeriod);
    var past := RsiAt(prices, n - 5, RsiPeriod);
    RsiView(cur, if cur.Some? && past.Some? then Some(cur.value - past.value) else None)
  }

  /** `f"RSI={current_rsi:.1f}"`; NaN prints as `nan`. */
  function RsiText(x: Option<real>): string
  {
    "RSI=" + (if x.Some? then Text.FormatFixed1(x.value) else "nan")
  }

  function RsiDecide(v: RsiView): Signal
  {
    if AtLeast(v.current, Overbought) then Signal("RSI", Sell, 0.85, RsiText(v.current) + "，超买区域")
    else if AtMost(v.current, Oversold) then Signal("RSI", Buy, 0.80, RsiText(v.current) + "，超卖区域")
    else if Above(v.current, 60.0) && Below(v.trend, -5.0) then Signal("RSI", Sell, 0.65, "RSI拐头向下，可能调整")
    else if Below(v.current, 40.0) && Above(v.trend, 5.0) then Signal("RSI", Buy, 0.65, "RSI拐头向上，可能反弹")
    else if Above(v.current, 50.0) then Signal("RSI", Hold, 0.55, RsiText(v.current) + "，偏强区域")
    else Signal("RSI", Hold, 0.55, RsiText(v.current) + "，偏弱区域")
  }

  /** `RSIStrategy.analyze` */
  function RsiAnalyze(prices: seq<real>): (s: Signal)
    ensures s.name == "RSI" && 0.5 <= s.confidence <= 0.85
    ensures s == InsufficientData("RSI") <==> |prices| < RsiPeriod + 5
  {
    if |prices| < RsiPeriod + 5 then InsufficientData("RSI") else RsiDecide(RsiViewOf(prices))
  }

  // ---------------------------------------------------------------------
  // Bollinger band (window 20, two deviations)

  datatype BandView = BandView(price: real, upper: real, lower: real, middle: real,
                               prevUpper: real, prevLower: real, prevMiddle: real)

  function BandViewOf(prices: seq<real>, stdOf: seq<real> -> real): BandView
    requires |prices| >= BandWindow + 5
  {
    var n := |prices|;
    var mid, sd := Mean(Window(prices, n - 1, BandWindow)), stdOf(Window(prices, n - 1, BandWindow));
    var pmid, psd := Mean(Window(prices, n - 2, BandWindow)), stdOf(Window(prices, n - 2, BandWindow));
    BandView(prices[n - 1], mid + BandDeviations * sd, mid - BandDeviations * sd, mid,
             pmid + BandDeviations * psd, pmid - BandDeviations * psd, pmid)
  }

  /** Where the price sits between the bands, 0.5 when they coincide. */
  function BandPosition(v: BandView): real
  {
    if v.upper != v.lower then (v.price - v.lower) / (v.upper - v.lower) else 0.5
  }

  /** Ratio of the current to the previous relative band width; 1 unless the previous width is positive. */
  function VolatilityChange(v: BandView): Float
  {
    var width := Quotient(v.upper - v.lower, v.middle);
    var prevWidth := Quotient(v.prevUpper - v.prevLower, v.prevMiddle);
    if Exceeds(prevWidth, 0.0) then Divide(width, prevWidth) else Finite(1.0)
  }

  function BandDecide(v: BandView): Signal
  {
    var position := BandPosition(v);
    var expanding := Exceeds(VolatilityChange(v), 1.1);
    if v.price >= v.upper then Signal("布林带", Sell, 0.85, "价格触及上轨，警惕回调")
    else if v.price <= v.lower then Signal("布林带", Buy, 0.80, "价格触及下轨，可能反弹")
    else if position > 0.8 && expanding then Signal("布林带", Sell, 0.70, "价格接近上轨且波动放大")
    else if position < 0.2 && expanding then Signal("布林带", Buy, 0.70, "价格接近下轨且波动放大")
    else if position > 0.5 then Signal("布林带", Hold, 0.55, "价格在中轨上方运行")
    else Signal("布林带", Hold, 0.55, "价格在中轨下方运行")
  }

  /** `BollingerBandStrategy.analyze` */
  function BandAnalyze(prices: seq<real>, stdOf: seq<real> -> real): (s: Signal)
    ensures s.name == "布林带" && 0.5 <= s.confidence <= 0.85
    ensures s == InsufficientData("布林带") <==> |prices| < BandWindow + 5
  {
    if |prices| < BandWindow + 5 then InsufficientData("布林带") else BandDecide(BandViewOf(prices, stdOf))
  }

  // ---------------------------------------------------------------------
  // Voting

  /** The vote dictionary's keys, in the order `max` visits them. */
  const Order: seq<Action> := [Buy, Sell, Hold]

  function Votes(signals: seq<Signal>, a: Action): nat
  {
    if signals == [] then 0
    else Votes(signals[..|signals| - 1], a) + (if signals[|signals| - 1].action == a then 1 else 0)
  }

  function ConfidenceTotal(signals: seq<Signal>, a: Action): real
  {
    if signals == [] then 0.0
    else ConfidenceTotal(signals[..|signals| - 1], a)
         + (if signals[|signals| - 1].action == a then signals[|signals| - 1].confidence else 0.0)
  }

  function VoteMap(signals: seq<Signal>): map<Action, nat>
  {
    map[Buy := Votes(signals, Buy), Sell := Votes(signals, Sell), Hold := Votes(signals, Hold)]
  }

  function ConfidenceMap(signals: seq<Signal>): map<Action, real>
  {
    map[Buy := ConfidenceTotal(signals, Buy), Sell := ConfidenceTotal(signals, Sell), Hold := ConfidenceTotal(signals, Hold)]
  }

  /** `(votes[a], total[a]) > (votes[b], total[b])` as Python compares tuples. */
  predicate Outranks(votes: map<Action, nat>, totals: map<Action, real>, a: Action, b: Action)
    requires a in votes && b in votes && a in totals && b in totals
  {
    votes[a] > votes[b] || (votes[a] == votes[b] && totals[a] > totals[b])
  }

  /** `max(keys, key=...)`: the first key no later key strictly outranks. */
  function Best(votes: map<Action, nat>, totals: map<Action, real>, keys: seq<Action>): (r: Action)
    requires keys != []
    requires forall a :: a in keys ==> a in votes && a in totals
    ensures r in keys
  {
    if |keys| == 1 then keys[0]
    else
      var b := Best(votes, totals, keys[..|keys| - 1]);
      if Outranks(votes, totals, keys[|keys| - 1], b) then keys[|keys| - 1] else b
  }

  /** The action `max` picks: no action outranks it. */
  function Winner(signals: seq<Signal>): (w: Action)
    ensures w in Order
    ensures !Outranks(VoteMap(signals), ConfidenceMap(signals), Buy, w)
    ensures !Outranks(VoteMap(signals), ConfidenceMap(signals), Sell, w)
    ensures !Outranks(VoteMap(signals), ConfidenceMap(signals), Hold, w)
  {
    BestOfOrder(VoteMap(signals), ConfidenceMap(signals));
    Best(VoteMap(signals), ConfidenceMap(signals), Order)
  }

  /** The winner's mean confidence; 0.5 if it has no vote. */
  function FinalConfidence(signals: seq<Signal>, a: Action): real
  {
    if Votes(signals, a) > 0 then ConfidenceTotal(signals, a) / Votes(signals, a) as real else 0.5
  }

  datatype StrategyResult = StrategyResult(signals: seq<Signal>, finalAction: Action, confidence: real,
                                           votes: map<Action, nat>)

  /** What `StrategyEngine.analyze` derives from the signals it collected. */
  function Fuse(signals: seq<Signal>): (r: StrategyResult)
    ensures r.signals == signals && r.votes == VoteMap(signals) && r.finalAction in Order
    ensures r.votes[Buy] + r.votes[Sell] + r.votes[Hold] == |signals|
    ensures !Outranks(r.votes, ConfidenceMap(signals), Buy, r.finalAction)
    ensures !Outranks(r.votes, ConfidenceMap(signals), Sell, r.finalAction)
    ensures !Outranks(r.votes, ConfidenceMap(signals), Hold, r.finalAction)
    ensures signals != [] ==> Votes(signals, r.finalAction) > 0
    ensures signals != [] ==> r.confidence == ConfidenceTotal(signals, r.finalAction) / Votes(signals, r.finalAction) as real
  {
    VotesPartition(signals);
    WinnerHasVote(signals);
    var w := Winner(signals);
    StrategyResult(signals, w, FinalConfidence(signals, w), VoteMap(signals))
  }

  /** The strategies in the engine's fixed order. */
  function Strategies(prices: seq<real>, stdOf: seq<real> -> real): seq<Signal>
  {
    [MaAnalyze(prices), RsiAnalyze(prices), BandAnalyze(prices, stdOf)]
  }

  /** The vote loop: one vote and its confidence per signal, under its action. */
  method Tally(signals: seq<Signal>) returns (votes: map<Action, nat>, totals: map<Action, real>)
    ensures votes == VoteMap(signals) && totals == ConfidenceMap(signals)
  {
    votes := map[Buy := 0, Sell := 0, Hold := 0];
    totals := map[Buy := 0.0, Sell := 0.0, Hold := 0.0];
    for i := 0 to |signals|
      invariant votes == VoteMap(signals[..i])
      invariant totals == ConfidenceMap(signals[..i])
      invariant Buy in votes && Sell in votes && Hold in votes
      invariant Buy in totals && Sell in totals && Hold in totals
    {
      var s := signals[i];
      assert s.action == Buy || s.action == Sell || s.action == Hold;
      assert signals[..i + 1][..i] == signals[..i];
      votes := votes[s.action := votes[s.action] + 1];
      totals := totals[s.action := totals[s.action] + s.confidence];
    }
    assert signals[..|signals|] == signals;
  }

  /** `StrategyEngine.analyze`: run the strategies, tally, pick and average. */
  method Analyze(prices: seq<real>, stdOf: seq<real> -> real) returns (r: StrategyResult)
    ensures r.signals == Strategies(prices, stdOf)
    ensures r == Fuse(r.signals)
  {
    var all := Strategies(prices, stdOf);
    var signals: seq<Signal> := [];
    for k := 0 to |all|
      invariant signals == all[..k]
    {
      signals := signals + [all[k]];
    }
    assert signals == all;
    var votes, totals := Tally(signals);
    var final := Order[0];
    for k := 1 to |Order|
      invariant final == Best(votes, totals, Order[..k])
    {
      assert Order[..k + 1][..k] == Order[..k];
      if votes[Order[k]] > votes[final] || (votes[Order[k]] == votes[final] && totals[Order[k]] > totals[final]) {
        final := Order[k];
      }
    }
    assert Order[..|Order|] == Order;
    var confidence := if votes[final] > 0 then totals[final] / votes[final] as real else 0.5;
    r := StrategyResult(signals, final, confidence, votes);
  }

  // ---------------------------------------------------------------------
  // Position sizing

  /** `max(0.1, min(0.5, 0.1 + (c - 0.5) * 0.8))` */
  function AllocationFraction(confidence: real): (f: real)
    ensures 0.1 <= f <= 0.5
    ensures confidence <= 0.5 ==> f == 0.1
    ensures confidence >= 1.0 ==> f == 0.5
    ensures 0.5 <= confidence <= 1.0 ==> f == 0.1 + (confidence - 0.5) * 0.8
  {
    var f := 0.1 + (confidence - 0.5) * 0.8;
    if f > 0.5 then 0.5 else if f < 0.1 then 0.1 else f
  }

  /** `StrategyEngine.calculate_position` */
  function CalculatePosition(capital: real, confidence: real, action: Action): (amount: real)
    ensures action != Buy ==> amount == 0.0
    ensures action == Buy ==>
              capital * AllocationFraction(confidence) - 0.005 < amount <= capital * AllocationFraction(confidence) + 0.005
  {
    if action != Buy then 0.0 else Text.Round2(capital * AllocationFraction(confidence))
  }

  // ---------------------------------------------------------------------
  // Properties of the strategies

  /** Every signal carries its strategy's name and a confidence in [0.5, 0.85]. */
  lemma SignalsWellFormed(prices: seq<real>, stdOf: seq<real> -> real)
    ensures forall s :: s in Strategies(prices, stdOf) ==> 0.5 <= s.confidence <= 0.85
    ensures Strategies(prices, stdOf)[0].name == "双均线"
    ensures Strategies(prices, stdOf)[1].name == "RSI"
    ensures Strategies(prices, stdOf)[2].name == "布林带"
  {
    var s := Strategies(prices, stdOf);
    assert forall x :: x in s ==> x == s[0] || x == s[1] || x == s[2];
  }

  /** The moving-average strategy buys only above, and sells only below, the long average. */
  lemma MaActionFollowsAverages(prices: seq<real>)
    requires |prices| >= LongWindow + 5
    ensures MaAnalyze(prices).action == Buy ==> MaViewOf(prices).curShort > MaViewOf(prices).curLong
    ensures MaAnalyze(prices).action == Sell ==> MaViewOf(prices).curShort < MaViewOf(prices).curLong
    ensures MaViewOf(prices).curShort == MaViewOf(prices).curLong ==> MaAnalyze(prices).action == Hold
  {
  }

  /**
   * The long trend compares with the long average nine steps back, which exists
   * only from 29 prices on; below that it is NaN and the "long trend down" rule
   * cannot fire. From 29 prices on it is NaN only when both averages are zero.
   */
  lemma MaLongTrendNeedsHistory(prices: seq<real>)
    requires |prices| >= LongWindow + 5
    ensures |prices| < LongWindow + 9 ==> MaViewOf(prices).longTrend.NaN?
    ensures |prices| < LongWindow + 9 ==> MaAnalyze(prices).details != "中长期趋势向下"
    ensures |prices| >= LongWindow + 9 ==>
              (MaViewOf(prices).longTrend.NaN? <==>
                 Mean(Window(prices, |prices| - 10, LongWindow)) == 0.0 && MaViewOf(prices).curLong == 0.0)
    ensures |prices| >= LongWindow + 9 ==>
              (FallsBelow(MaViewOf(prices).longTrend, -0.02) <==>
                 LongDecline(MaViewOf(prices).curLong, Mean(Window(prices, |prices| - 10, LongWindow))))
  {
    if |prices| >= LongWindow + 9 {
      TrendFallsIff(MaViewOf(prices).curLong, Mean(Window(prices, |prices| - 10, LongWindow)));
    }
  }

  /**
   * `cur / past - 1 > 0` for float64 values, stated without division: the
   * average grew in magnitude away from a non-zero `past` in its direction,
   * or `past` is zero and `cur` positive (the quotient is +inf).
   */
  predicate ShortRise(cur: real, past: real)
  {
    (past > 0.0 && cur > past) || (past < 0.0 && cur < past) || (past == 0.0 && cur > 0.0)
  }

  /** `cur / past - 1 < -0.02` for float64 values, stated without division. */
  predicate LongDecline(cur: real, past: real)
  {
    (past > 0.0 && cur < 0.98 * past) || (past < 0.0 && cur > 0.98 * past) || (past == 0.0 && cur < 0.0)
  }

  lemma TrendRisesIff(cur: real, past: real)
    ensures Exceeds(Trend(cur, Some(past)), 0.0) <==> ShortRise(cur, past)
  {
    if past != 0.0 {
      assert Trend(cur, Some(past)) == Finite(cur / past - 1.0);
      RatioAboveOne(cur, past);
    }
  }

  lemma TrendFallsIff(cur: real, past: real)
    ensures FallsBelow(Trend(cur, Some(past)), -0.02) <==> LongDecline(cur, past)
  {
    if past != 0.0 {
      assert Trend(cur, Some(past)) == Finite(cur / past - 1.0);
      RatioBelow(cur, past);
    }
  }

  lemma RatioAboveOne(cur: real, past: real)
    requires past != 0.0
    ensures 1.0 < cur / past <==> (past > 0.0 && past < cur) || (past < 0.0 && cur < past)
  {
    var q := cur / past;
    assert q * past == cur;
    ScaleOrder(1.0, q, past);
  }

  lemma RatioBelow(cur: real, past: real)
    requires past != 0.0
    ensures cur / past < 0.98 <==> (past > 0.0 && cur < 0.98 * past) || (past < 0.0 && cur > 0.98 * past)
  {
    var q := cur / past;
    assert q * past == cur;
    ScaleOrder(q, 0.98, past);
  }

  /** Multiplying by a positive number keeps an order, by a negative one reverses it. */
  lemma ScaleOrder(x: real, y: real, p: real)
    requires p != 0.0
    ensures p > 0.0 ==> (x < y <==> x * p < y * p)
    ensures p < 0.0 ==> (x < y <==> x * p > y * p)
  {
    assert y * p - x * p == (y - x) * p;
  }

  /** A strictly rising series of at least 25 positive prices makes the MA strategy buy, with confidence at least 0.70. */
  lemma MaRisingSeriesBuys(prices: seq<real>)
    requires |prices| >= LongWindow + 5
    requires forall j :: 0 <= j < |prices| ==> prices[j] > 0.0
    requires forall j :: 0 < j < |prices| ==> prices[j - 1] < prices[j]
    ensures MaAnalyze(prices).action == Buy && MaAnalyze(prices).confidence >= 0.70
  {
    var n := |prices|;
    RisingShortAboveLong(prices, n - 1);
    RisingShortAboveLong(prices, n - 2);
    RisingShortTrend(prices);
  }

  /** On a strictly rising series the 5-day mean ending at `i` exceeds the 20-day mean ending there. */
  lemma RisingShortAboveLong(prices: seq<real>, i: nat)
    requires LongWindow <= i + 1 <= |prices|
    requires forall j :: 0 < j < |prices| ==> prices[j - 1] < prices[j]
    ensures Mean(Window(prices, i, ShortWindow)) > Mean(Window(prices, i, LongWindow))
  {
    var s := Window(prices, i, ShortWindow);
    var a := prices[i + 1 - LongWindow..i + 1 - ShortWindow];
    assert Window(prices, i, LongWindow) == a + s;
    SumAppend(a, s);
    RisingBounds(prices, i + 1 - LongWindow, i + 1 - ShortWindow);
    RisingBounds(prices, i + 1 - ShortWindow, i + 1);
    SumBounds(a, prices[i + 1 - LongWindow], prices[i - ShortWindow]);
    SumBounds(s, prices[i + 1 - ShortWindow], prices[i]);
    assert prices[i - ShortWindow] < prices[i + 1 - ShortWindow];
    assert 3.0 * Sum(s) > Sum(a);
  }

  lemma RisingShortTrend(prices: seq<real>)
    requires |prices| >= LongWindow + 5
    requires forall j :: 0 <= j < |prices| ==> prices[j] > 0.0
    requires forall j :: 0 < j < |prices| ==> prices[j - 1] < prices[j]
    ensures Exceeds(MaViewOf(prices).shortTrend, 0.0)
  {
    var n := |prices|;
    var recent := Window(prices, n - 1, ShortWindow);
    var past := Window(prices, n - 5, ShortWindow);
    forall k | 0 <= k < ShortWindow ensures past[k] < recent[k] {
      assert past[k] == prices[n - 9 + k] && recent[k] == prices[n - 5 + k];
      RisingBounds(prices, n - 9 + k, n - 5 + k + 1);
    }
    SumStrictlyBelow(past, recent);
    RisingBounds(prices, n - 9, n - 4);
    MeanBounds(past, prices[n - 9], prices[n - 5]);
    assert MaViewOf(prices).shortTrend == Trend(Mean(recent), Some(Mean(past)));
    TrendRisesIff(Mean(recent), Mean(past));
  }

  /** On a rising series every element of [lo, hi) lies between its ends. */
  lemma {:induction false} RisingBounds(prices: seq<real>, lo: nat, hi: nat)
    requires lo < hi <= |prices|
    requires forall j :: 0 < j < |prices| ==> prices[j - 1] < prices[j]
    ensures forall j :: lo <= j < hi ==> prices[lo] <= prices[j] <= prices[hi - 1]
    ensures hi - lo > 1 ==> prices[lo] < prices[hi - 1]
    decreases hi - lo
  {
    if hi - lo > 1 {
      RisingBounds(prices, lo, hi - 1);
    }
  }

  /**
   * Twenty-one zero closes then four ones: the short average four steps back
   * is zero, so the short trend is +inf and the trend rule buys, although
   * there is no cross.
   */
  lemma ZeroAverageTrendBuys()
    ensures var prices := seq(21, _ => 0.0) + seq(4, _ => 1.0);
            MaViewOf(prices).shortTrend == PosInf
            && MaAnalyze(prices) == Signal("双均线", Buy, 0.70, "短期均线在上且上升趋势")
  {
    var prices := seq(21, _ => 0.0) + seq(4, _ => 1.0);
    ZerosThenOnesSum(prices, 20, 25);
    ZerosThenOnesSum(prices, 5, 25);
    ZerosThenOnesSum(prices, 19, 24);
    ZerosThenOnesSum(prices, 4, 24);
    ZerosThenOnesSum(prices, 16, 21);
    var v := MaViewOf(prices);
    assert v.curShort == 0.8 && v.curLong == 0.2 && v.prevShort == 0.6 && v.prevLong == 0.15;
    assert v.shortTrend == PosInf;
  }

  lemma ZerosThenOnesSum(prices: seq<real>, lo: nat, hi: nat)
    requires prices == seq(21, _ => 0.0) + seq(4, _ => 1.0)
    requires lo <= 21 <= hi <= 25
    ensures Sum(prices[lo..hi]) == (hi - 21) as real
  {
    assert prices[lo..hi] == prices[lo..21] + prices[21..hi];
    SumAppend(prices[lo..21], prices[21..hi]);
    SumConstant(prices[lo..21], 0.0);
    SumConstant(prices[21..hi], 1.0);
  }

  /** The RSI strategy sells only with RSI above 60 and buys only with RSI below 40. */
  lemma RsiActionFollowsLevel(prices: seq<real>)
    requires |prices| >= RsiPeriod + 5
    ensures RsiAnalyze(prices).action == Sell ==> Above(RsiViewOf(prices).current, 60.0)
    ensures RsiAnalyze(prices).action == Buy ==> Below(RsiViewOf(prices).current, 40.0)
    ensures AtLeast(RsiViewOf(prices).current, Overbought) <==>
              RsiAnalyze(prices).action == Sell && RsiAnalyze(prices).confidence == 0.85
  {
  }

  /** Fifteen equal closing prices leave RSI undefined, and the strategy holds. */
  lemma RsiFlatSeriesHolds(prices: seq<real>)
    requires |prices| >= RsiPeriod + 5
    requires forall j :: |prices| - RsiPeriod - 1 <= j < |prices| ==> prices[j] == prices[|prices| - 1]
    ensures RsiAnalyze(prices) == Signal("RSI", Hold, 0.55, "RSI=nan，偏弱区域")
  {
    RsiUndefinedWhenFlat(prices, |prices| - 1, RsiPeriod);
  }

  /** Touching a band decides the Bollinger signal outright. */
  lemma BandTouchDecides(v: BandView)
    ensures v.price >= v.upper ==> BandDecide(v) == Signal("布林带", Sell, 0.85, "价格触及上轨，警惕回调")
    ensures v.price <= v.lower && v.price < v.upper ==> BandDecide(v) == Signal("布林带", Buy, 0.80, "价格触及下轨，可能反弹")
    ensures BandDecide(v).action == Sell ==> v.price >= v.upper || BandPosition(v) > 0.8
    ensures BandDecide(v).action == Buy ==> v.price <= v.lower || BandPosition(v) < 0.2
  {
  }

  /** Without a positive previous width the volatility change is 1, so no expansion rule fires. */
  lemma BandExpansionNeedsPriorWidth(v: BandView)
    requires !Exceeds(Quotient(v.prevUpper - v.prevLower, v.prevMiddle), 0.0)
    ensures VolatilityChange(v) == Finite(1.0)
    ensures BandDecide(v).confidence != 0.70
  {
  }

  /**
   * A zero middle band with the bands apart makes the current width +inf, so
   * after a finite positive width the expansion rule is armed; after an
   * infinite one the change is NaN and it is not.
   */
  lemma ZeroMiddleExpands(v: BandView)
    requires v.middle == 0.0 && v.upper > v.lower
    requires Exceeds(Quotient(v.prevUpper - v.prevLower, v.prevMiddle), 0.0)
    ensures v.prevMiddle != 0.0 ==> VolatilityChange(v) == PosInf
    ensures v.prevMiddle == 0.0 ==> VolatilityChange(v) == NaN
    ensures v.prevMiddle != 0.0 && v.lower < v.price < v.upper && BandPosition(v) > 0.8 ==>
              BandDecide(v) == Signal("布林带", Sell, 0.70, "价格接近上轨且波动放大")
  {
  }

  /** Between distinct ordered bands the position lies strictly inside (0, 1). */
  lemma BandPositionInside(v: BandView)
    requires v.lower < v.price < v.upper
    ensures 0.0 < BandPosition(v) < 1.0
  {
    FractionInside(v.price - v.lower, v.upper - v.lower);
  }

  lemma FractionInside(x: real, d: real)
    requires 0.0 < x < d
    ensures 0.0 < x / d < 1.0
  {
    var q := x / d;
    assert q * d == x;
    assert q <= 1.0;
  }

  /**
   * Twenty equal closing prices collapse both bands onto the price; since the
   * price then touches the upper band, the Bollinger strategy sells.
   */
  lemma BandFlatSeriesSells(prices: seq<real>, stdOf: seq<real> -> real)
    requires IsSampleStd(stdOf)
    requires |prices| >= BandWindow + 5
    requires forall j :: |prices| - BandWindow <= j < |prices| ==> prices[j] == prices[|prices| - 1]
    ensures BandViewOf(prices, stdOf).upper == BandViewOf(prices, stdOf).lower == prices[|prices| - 1]
    ensures BandAnalyze(prices, stdOf) == Signal("布林带", Sell, 0.85, "价格触及上轨，警惕回调")
  {
    var n := |prices|;
    var w := Window(prices, n - 1, BandWindow);
    FlatWindowStd(w, prices[n - 1], stdOf);
  }

  // ---------------------------------------------------------------------
  // Properties of the vote

  /** Every signal casts exactly one vote. */
  lemma {:induction false} VotesPartition(signals: seq<Signal>)
    ensures Votes(signals, Buy) + Votes(signals, Sell) + Votes(signals, Hold) == |signals|
  {
    if signals != [] {
      VotesPartition(signals[..|signals| - 1]);
    }
  }

  /** `n * x` as repeated addition, which keeps the induction below linear. */
  function Times(n: nat, x: real): real
  {
    if n == 0 then 0.0 else Times(n - 1, x) + x
  }

  lemma {:induction false} TimesIsProduct(n: nat, x: real)
    ensures Times(n, x) == n as real * x
  {
    if n > 0 {
      TimesIsProduct(n - 1, x);
      assert (n - 1) as real * x + x == n as real * x;
    }
  }

  /** An action's confidence total lies between its votes times the least and the greatest confidence. */
  lemma {:induction false} ConfidenceTotalWithin(signals: seq<Signal>, a: Action, lo: real, hi: real)
    requires forall k :: 0 <= k < |signals| && signals[k].action == a ==> lo <= signals[k].confidence <= hi
    ensures Times(Votes(signals, a), lo) <= ConfidenceTotal(signals, a) <= Times(Votes(signals, a), hi)
    decreases |signals|
  {
    if signals != [] {
      ConfidenceTotalWithin(signals[..|signals| - 1], a, lo, hi);
    }
  }

  /** `Best` over the vote dictionary's keys, written out. */
  lemma BestOfOrder(votes: map<Action, nat>, totals: map<Action, real>)
    requires forall a :: a in Order ==> a in votes && a in totals
    ensures var first := if Outranks(votes, totals, Sell, Buy) then Sell else Buy;
            Best(votes, totals, Order) == if Outranks(votes, totals, Hold, first) then Hold else first
  {
    assert Order[..2] == [Buy, Sell];
    assert Order[..2][..1] == [Buy];
  }

  /** The winner strictly beats every action listed before it: ties go to the earliest of Buy, Sell, Hold. */
  lemma WinnerFirstMaximal(signals: seq<Signal>)
    ensures Winner(signals) == Sell ==> Outranks(VoteMap(signals), ConfidenceMap(signals), Sell, Buy)
    ensures Winner(signals) == Hold ==>
              Outranks(VoteMap(signals), ConfidenceMap(signals), Hold, Buy)
              && Outranks(VoteMap(signals), ConfidenceMap(signals), Hold, Sell)
  {
    BestOfOrder(VoteMap(signals), ConfidenceMap(signals));
  }

  /** With at least one signal the winner has a vote, so the 0.5 default is never used. */
  lemma WinnerHasVote(signals: seq<Signal>)
    ensures signals != [] ==> Votes(signals, Winner(signals)) > 0
    ensures signals != [] ==>
              FinalConfidence(signals, Winner(signals)) == ConfidenceTotal(signals, Winner(signals)) / Votes(signals, Winner(signals)) as real
  {
    VotesPartition(signals);
  }

  /** The fused confidence is an average, so it stays within the signals' confidences. */
  lemma FusedConfidenceWithin(signals: seq<Signal>, lo: real, hi: real)
    requires signals != []
    requires forall k :: 0 <= k < |signals| ==> lo <= signals[k].confidence <= hi
    ensures lo <= Fuse(signals).confidence <= hi
  {
    WinnerHasVote(signals);
    MeanConfidenceWithin(signals, Winner(signals), lo, hi);
  }

  /** An action with votes has a mean confidence within any bounds its signals' confidences lie in. */
  lemma MeanConfidenceWithin(signals: seq<Signal>, a: Action, lo: real, hi: real)
    requires Votes(signals, a) > 0
    requires forall k :: 0 <= k < |signals| ==> lo <= signals[k].confidence <= hi
    ensures lo <= FinalConfidence(signals, a) <= hi
  {
    ConfidenceTotalWithin(signals, a, lo, hi);
    MeanBetween(ConfidenceTotal(signals, a), Votes(signals, a), lo, hi);
  }

  lemma MeanBetween(t: real, n: nat, lo: real, hi: real)
    requires n > 0 && Times(n, lo) <= t <= Times(n, hi)
    ensures lo <= t / n as real <= hi
  {
    TimesIsProduct(n, lo);
    TimesIsProduct(n, hi);
    AverageWithin(t, n as real, lo, hi);
  }

  lemma AverageWithin(t: real, v: real, lo: real, hi: real)
    requires v > 0.0 && v * lo <= t <= v * hi
    ensures lo <= t / v <= hi
  {
    assert t / v >= lo by {
      assert t >= v * lo;
    }
    assert t / v <= hi by {
      assert t <= v * hi;
    }
  }

  /**
   * Between actions with equal vote counts, comparing confidence totals is the
   * same as comparing average confidences.
   */
  lemma TieBreakMatchesAverage(signals: seq<Signal>, a: Action, b: Action)
    requires Votes(signals, a) == Votes(signals, b) > 0
    ensures ConfidenceTotal(signals, a) > ConfidenceTotal(signals, b) <==>
              FinalConfidence(signals, a) > FinalConfidence(signals, b)
  {
    var v := Votes(signals, a) as real;
    QuotientOrder(ConfidenceTotal(signals, a), ConfidenceTotal(signals, b), v);
  }

  lemma QuotientOrder(x: real, y: real, v: real)
    requires v > 0.0
    ensures x > y <==> x / v > y / v
  {
    assert (x / v) * v == x && (y / v) * v == y;
    assert x / v - y / v == (x - y) / v;
  }

  /** The engine's result has at least one vote behind its action and a confidence in [0.5, 0.85]. */
  lemma AnalyzeConfidence(prices: seq<real>, stdOf: seq<real> -> real)
    ensures Votes(Strategies(prices, stdOf), Winner(Strategies(prices, stdOf))) > 0
    ensures 0.5 <= Fuse(Strategies(prices, stdOf)).confidence <= 0.85
  {
    SignalsWellFormed(prices, stdOf);
    assert forall k :: 0 <= k < 3 ==> Strategies(prices, stdOf)[k] in Strategies(prices, stdOf);
    WinnerHasVote(Strategies(prices, stdOf));
    FusedConfidenceWithin(Strategies(prices, stdOf), 0.5, 0.85);
  }

  /** Two buys against one sell: Buy, with the buys' average confidence. */
  lemma MajorityExample()
    ensures var r := Fuse([Signal("双均线", Buy, 0.9, ""), Signal("RSI", Buy, 0.6, ""), Signal("布林带", Sell, 0.8, "")]);
            r.finalAction == Buy && r.confidence == 0.75 && r.votes == map[Buy := 2, Sell := 1, Hold := 0]
  {
    var signals := [Signal("双均线", Buy, 0.9, ""), Signal("RSI", Buy, 0.6, ""), Signal("布林带", Sell, 0.8, "")];
    TallyOfThree(signals);
    BestOfOrder(VoteMap(signals), ConfidenceMap(signals));
  }

  /** Votes and totals of three signals, written out. */
  lemma TallyOfThree(signals: seq<Signal>)
    requires |signals| == 3
    ensures VoteMap(signals) == map[Buy := Count3(signals, Buy), Sell := Count3(signals, Sell), Hold := Count3(signals, Hold)]
    ensures ConfidenceMap(signals) == map[Buy := Total3(signals, Buy), Sell := Total3(signals, Sell), Hold := Total3(signals, Hold)]
  {
    TallyOfThreeAt(signals, Buy);
    TallyOfThreeAt(signals, Sell);
    TallyOfThreeAt(signals, Hold);
  }

  lemma TallyOfThreeAt(signals: seq<Signal>, a: Action)
    requires |signals| == 3
    ensures Votes(signals, a) == Count3(signals, a) && ConfidenceTotal(signals, a) == Total3(signals, a)
  {
    var two, one := signals[..2], signals[..1];
    assert two[..1] == one && one[..0] == [];
    assert Votes(one, a) == (if signals[0].action == a then 1 else 0);
    assert Votes(two, a) == Votes(one, a) + (if signals[1].action == a then 1 else 0);
    assert ConfidenceTotal(one, a) == (if signals[0].action == a then signals[0].confidence else 0.0);
    assert ConfidenceTotal(two, a) == ConfidenceTotal(one, a) + (if signals[1].action == a then signals[1].confidence else 0.0);
  }

  function Count3(signals: seq<Signal>, a: Action): nat
    requires |signals| == 3
  {
    (if signals[0].action == a then 1 else 0) + (if signals[1].action == a then 1 else 0)
    + (if signals[2].action == a then 1 else 0)
  }

  function Total3(signals: seq<Signal>, a: Action): real
    requires |signals| == 3
  {
    (if signals[0].action == a then signals[0].confidence else 0.0)
    + (if signals[1].action == a then signals[1].confidence else 0.0)
    + (if signals[2].action == a then signals[2].confidence else 0.0)
  }

  /** One vote each: the highest confidence wins. */
  lemma TieBreakExample()
    ensures var r := Fuse([Signal("双均线", Buy, 0.9, ""), Signal("RSI", Sell, 0.95, ""), Signal("布林带", Hold, 0.5, "")]);
            r.finalAction == Sell && r.confidence == 0.95
  {
    var signals := [Signal("双均线", Buy, 0.9, ""), Signal("RSI", Sell, 0.95, ""), Signal("布林带", Hold, 0.5, "")];
    TallyOfThree(signals);
    BestOfOrder(VoteMap(signals), ConfidenceMap(signals));
  }

  /**
   * On a constant series the averages coincide with the price and RSI is
   * undefined, so two strategies hold while the collapsed Bollinger band sells:
   * the engine holds with confidence 0.55.
   */
  lemma FlatSeriesHolds(prices: seq<real>, stdOf: seq<real> -> real)
    requires IsSampleStd(stdOf)
    requires |prices| >= LongWindow + 5
    requires forall j :: 0 <= j < |prices| ==> prices[j] == prices[0]
    ensures Strategies(prices, stdOf) ==
              [Signal("双均线", Hold, 0.55, "观望为主"), Signal("RSI", Hold, 0.55, "RSI=nan，偏弱区域"),
               Signal("布林带", Sell, 0.85, "价格触及上轨，警惕回调")]
    ensures Fuse(Strategies(prices, stdOf)).finalAction == Hold
    ensures Fuse(Strategies(prices, stdOf)).confidence == 0.55
    ensures Fuse(Strategies(prices, stdOf)).votes == map[Buy := 0, Sell := 1, Hold := 2]
  {
    MaFlatSeriesHolds(prices);
    RsiFlatSeriesHolds(prices);
    BandFlatSeriesSells(prices, stdOf);
    FlatSignalsFuse();
  }

  /** On a flat series the two averages coincide: no cross, no trend, so the MA strategy holds. */
  lemma MaFlatSeriesHolds(prices: seq<real>)
    requires |prices| >= LongWindow + 5
    requires forall j :: 0 <= j < |prices| ==> prices[j] == prices[0]
    ensures MaAnalyze(prices) == Signal("双均线", Hold, 0.55, "观望为主")
  {
    var n := |prices|;
    MeanConstant(Window(prices, n - 1, ShortWindow), prices[0]);
    MeanConstant(Window(prices, n - 1, LongWindow), prices[0]);
  }

  /** Two holds at 0.55 outvote one sell at 0.85. */
  lemma FlatSignalsFuse()
    ensures var r := Fuse([Signal("双均线", Hold, 0.55, "观望为主"), Signal("RSI", Hold, 0.55, "RSI=nan，偏弱区域"),
                           Signal("布林带", Sell, 0.85, "价格触及上轨，警惕回调")]);
            r.finalAction == Hold && r.confidence == 0.55 && r.votes == map[Buy := 0, Sell := 1, Hold := 2]
  {
    var signals := [Signal("双均线", Hold, 0.55, "观望为主"), Signal("RSI", Hold, 0.55, "RSI=nan，偏弱区域"),
                    Signal("布林带", Sell, 0.85, "价格触及上轨，警惕回调")];
    TallyOfThree(signals);
    BestOfOrder(VoteMap(signals), ConfidenceMap(signals));
  }

  // ---------------------------------------------------------------------
  // Properties of position sizing

  /** Only a Buy gets money; a Buy gets between 10% and 50% of the capital, to the cent. */
  lemma PositionBounds(capital: real, confidence: real, action: Action)
    requires capital >= 0.0
    ensures action != Buy ==> CalculatePosition(capital, confidence, action) == 0.0
    ensures action == Buy ==>
              capital * 0.1 - 0.005 < CalculatePosition(capital, confidence, action) <= capital * 0.5 + 0.005
  {
    if action == Buy {
      var f := AllocationFraction(confidence);
      var p := CalculatePosition(capital, confidence, action);
      ScaleBetween(capital, f, 0.1, 0.5);
      WithinSlack(capital * 0.1, capital * f, capital * 0.5, p);
    }
  }

  lemma WithinSlack(lo: real, m: real, hi: real, p: real)
    requires lo <= m <= hi && m - 0.005 < p <= m + 0.005
    ensures lo - 0.005 < p <= hi + 0.005
  {
  }

  lemma ScaleBetween(capital: real, f: real, lo: real, hi: real)
    requires capital >= 0.0 && lo <= f <= hi
    ensures capital * lo <= capital * f <= capital * hi
  {
    ProductNonNegative(capital, f - lo);
    ProductNonNegative(capital, hi - f);
  }

  /** More confidence never means a smaller buy. */
  lemma PositionMonotone(capital: real, c1: real, c2: real)
    requires capital >= 0.0 && c1 <= c2
    ensures CalculatePosition(capital, c1, Buy) <= CalculatePosition(capital, c2, Buy)
  {
    FractionMonotone(c1, c2);
    PositionFollowsFraction(capital, c1, c2);
  }

  lemma PositionFollowsFraction(capital: real, c1: real, c2: real)
    requires capital >= 0.0 && AllocationFraction(c1) <= AllocationFraction(c2)
    ensures Text.Round2(capital * AllocationFraction(c1)) <= Text.Round2(capital * AllocationFraction(c2))
  {
    SizedMonotone(capital, AllocationFraction(c1), AllocationFraction(c2));
  }

  lemma SizedMonotone(capital: real, f1: real, f2: real)
    requires capital >= 0.0 && f1 <= f2
    ensures Text.Round2(capital * f1) <= Text.Round2(capital * f2)
  {
    ScaleMonotone(capital, f1, f2);
    Text.Round2Monotone(capital * f1, capital * f2);
  }

  lemma FractionMonotone(c1: real, c2: real)
    requires c1 <= c2
    ensures AllocationFraction(c1) <= AllocationFraction(c2)
  {
  }

  lemma ScaleMonotone(capital: real, f1: real, f2: real)
    requires capital >= 0.0 && f1 <= f2
    ensures capital * f1 <= capital * f2
  {
    ProductNonNegative(capital, f2 - f1);
    assert capital * (f2 - f1) == capital * f2 - capital * f1;
  }

  /** Sizing 10000: 1000 at confidence 0.5, 5000 at 1.0, nothing for a Sell. */
  lemma PositionExamples()
    ensures CalculatePosition(10000.0, 0.5, Buy) == 1000.0
    ensures CalculatePosition(10000.0, 1.0, Buy) == 5000.0
    ensures CalculatePosition(10000.0, 0.9, Sell) == 0.0
  {
    assert Text.RoundToInt(100000.0) == 100000;
    assert Text.RoundToInt(500000.0) == 500000;
  }
}
