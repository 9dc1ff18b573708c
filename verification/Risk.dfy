/** Sizing trades from targets (src/poma/risk.py), and what filling them leaves. */
module Risk {
  import opened Models
  import opened RealArithmetic
  import opened ExecutionPolicy
  import opened ExecutionPricing

  datatype Position = Position(quantity: real, marketValue: real)

  datatype Sizing = Sizing(portfolioValue: real, minTrade: real, minWeight: real, limitOffsetBps: real)

  function HeldValue(held: Option<Position>): real {
    if held.Some? then held.value.marketValue else 0.0
  }

  /** The latest price, or for a sell of something held its price on the broker's books. */
  function SizingPrice(side: Side, latest: Option<real>, held: Option<Position>): Option<real> {
    if Positive(latest) then latest
    else if side == SELL && held.Some? && held.value.quantity > 0.0 && held.value.marketValue > 0.0
    then Some(held.value.marketValue / held.value.quantity)
    else None
  }

  predicate TooSmall(delta: real, s: Sizing)
    requires s.portfolioValue != 0.0
  {
    Abs(delta) < s.minTrade || Abs(delta) / s.portfolioValue < s.minWeight
  }

  /** The trade one ticker needs, if any. */
  function TradeFor(ticker: string, target: real, held: Option<Position>, latest: Option<real>, s: Sizing): Option<Trade>
    requires s.portfolioValue != 0.0
  {
    var delta := target - HeldValue(held);
    var side := if delta > 0.0 then BUY else SELL;
    var price := SizingPrice(side, latest, held);
    if TooSmall(delta, s) || price.None? || price.value == 0.0 then None
    else
      var raw := Abs(delta) / price.value;
      var quantity := if side == SELL && held.Some? then Min(raw, Abs(held.value.quantity)) else raw;
      if quantity <= 0.0 then None
      else Some(Trade(ticker, side, quantity, Abs(delta), price.value, Some(OffsetLimit(side, price.value, s.limitOffsetBps)), None))
  }

  function TradesFor(tickers: seq<string>, targets: map<string, real>, held: map<string, Position>,
                     latest: map<string, real>, s: Sizing): seq<Trade>
    requires s.portfolioValue != 0.0
  {
    if tickers == [] then []
    else
      var t := Last(tickers);
      var trade := TradeFor(t, Target(targets, t), Find(held, t), Find(latest, t), s);
      TradesFor(Front(tickers), targets, held, latest, s) + (if trade.Some? then [trade.value] else [])
  }

  function Target(targets: map<string, real>, ticker: string): real {
    if ticker in targets then targets[ticker] else 0.0
  }

  function Find<T>(m: map<string, T>, key: string): Option<T> {
    if key in m then Some(m[key]) else None
  }

  /** `tickers` is the sorted list of everything held or targeted. */
  method GenerateTrades(tickers: seq<string>, targets: map<string, real>, held: map<string, Position>,
                        latest: map<string, real>, s: Sizing)
    returns (trades: seq<Trade>)
    requires s.portfolioValue != 0.0
    requires forall i, j | 0 <= i < j < |tickers| :: tickers[i] != tickers[j]
    ensures trades == TradesFor(tickers, targets, held, latest, s)
    ensures forall i, j | 0 <= i < j < |trades| :: trades[i].ticker != trades[j].ticker
  {
    trades := [];
    for i := 0 to |tickers|
      invariant trades == TradesFor(tickers[..i], targets, held, latest, s)
      invariant forall j | 0 <= j < |trades| :: trades[j].ticker in tickers[..i]
      invariant forall j, k | 0 <= j < k < |trades| :: trades[j].ticker != trades[k].ticker
    {
      assert Front(tickers[..i + 1]) == tickers[..i] && Last(tickers[..i + 1]) == tickers[i];
      assert tickers[i] !in tickers[..i];
      var trade := TradeFor(tickers[i], Target(targets, tickers[i]), Find(held, tickers[i]), Find(latest, tickers[i]), s);
      if trade.Some? {
        trades := trades + [trade.value];
      }
    }
    assert tickers[..|tickers|] == tickers;
  }

  // ---- never oversell ----

  /** Through planning, rounding and repricing a sell never exceeds the shares held. */
  lemma NeverOversells(ticker: string, target: real, held: Position, latest: Option<real>, s: Sizing,
                       quotes: map<string, Quote>, pricing: Pricing, allowWide: bool)
    requires s.portfolioValue != 0.0 && StandardRules(pricing.rules)
    requires TradeFor(ticker, target, Some(held), latest, s).Some?
    requires TradeFor(ticker, target, Some(held), latest, s).value.side == SELL
    ensures var t := TradeFor(ticker, target, Some(held), latest, s).value;
            var rounded := Rounded(t, Resolve(ticker, pricing.rules));
            && t.quantity <= Abs(held.quantity)
            && (rounded.Some? ==> rounded.value.quantity <= Abs(held.quantity) && rounded.value.side == SELL)
            && (rounded.Some? && Repriced(rounded.value, quotes, pricing, allowWide).Some? ==>
                  Repriced(rounded.value, quotes, pricing, allowWide).value.quantity <= Abs(held.quantity))
  {
    var t := TradeFor(ticker, target, Some(held), latest, s).value;
    var rule := Resolve(ticker, pricing.rules);
    SellWithin(t.quantity, rule);
    var rounded := Rounded(t, rule);
    if rounded.Some? && Repriced(rounded.value, quotes, pricing, allowWide).Some? {
      RepricedSell(rounded.value, quotes, pricing, allowWide);
    }
  }

  lemma RepricedSell(t: Trade, quotes: map<string, Quote>, pricing: Pricing, allowWide: bool)
    requires StandardRules(pricing.rules) && t.side == SELL && t.quantity >= 0.0
    requires Repriced(t, quotes, pricing, allowWide).Some?
    ensures Repriced(t, quotes, pricing, allowWide).value.quantity <= t.quantity
  {
    var (price, limit) := PriceFromQuote(quotes[t.ticker], t.side, pricing, pricing.limitOffsetBps, allowWide, Some(pricing.aggression)).value;
    SizedSell(t, price, limit, Resolve(t.ticker, pricing.rules), pricing.maxOrderNotional);
  }

  lemma SizedSell(t: Trade, price: real, limit: real, rule: Rule, cap: real)
    requires t.side == SELL && t.quantity >= 0.0 && price != 0.0 && (rule == WHOLE_SHARE || rule == FRACTIONAL)
    requires Sized(t, price, limit, rule, cap).Some?
    ensures Sized(t, price, limit, rule, cap).value.quantity <= t.quantity
  {
    SellWithin(t.quantity, rule);
  }

  // ---- what filling leaves, in whole shares ----

  /** How a planned trade ends: filled as rounded, or as a demoted buy. */
  datatype Ending = AsRounded | AsDemoted

  /** The shares that change hands for a trade of `raw` shares. */
  function FilledOf(raw: real, side: Side, ending: Ending): real {
    var quantity := RoundedQuantity(raw, if ending.AsDemoted? then SELL else side, WHOLE_SHARE);
    if quantity <= 0.0 || quantity < WHOLE_SHARE.minQuantity then 0.0 else quantity
  }

  /** Less than one share is missed; a buy that is not demoted misses at most half, either way. */
  lemma FillMisses(raw: real, side: Side, ending: Ending)
    requires raw >= 0.0
    ensures -0.5 <= raw - FilledOf(raw, side, ending) < 1.0
    ensures side == SELL || ending.AsDemoted? ==> raw - FilledOf(raw, side, ending) >= 0.0
    ensures side == BUY && ending.AsRounded? ==> raw - FilledOf(raw, side, ending) < 0.5
  {
    WholeShareRounding(raw, WHOLE_SHARE);
  }

  /** The broker values a long holding at the planning price. */
  predicate ValuedAt(held: Option<Position>, price: real) {
    held.Some? ==> held.value.quantity >= 0.0 && held.value.marketValue == held.value.quantity * price
  }

  /** Long-only targets never need more shares than are held: the trade is for the whole difference. */
  lemma TradeIsDifference(ticker: string, target: real, held: Option<Position>, price: real, s: Sizing)
    requires s.portfolioValue != 0.0 && price > 0.0 && target >= 0.0 && ValuedAt(held, price)
    ensures var delta := target - HeldValue(held);
            match TradeFor(ticker, target, held, Some(price), s)
            case None => TooSmall(delta, s) || delta == 0.0
            case Some(t) => !TooSmall(delta, s) && t.side == (if delta > 0.0 then BUY else SELL) && t.quantity == Abs(delta) / price
                            && t.referencePrice == price
  {
    var delta := target - HeldValue(held);
    QuotientSign(Abs(delta), price);
    if delta <= 0.0 && held.Some? {
      HeldCovers(Abs(delta) / price, held.value.quantity, Abs(delta), held.value.marketValue, price);
    }
    if Abs(delta) / price <= 0.0 {
      NoShares(Abs(delta) / price, Abs(delta), price);
    }
  }

  lemma HeldCovers(raw: real, quantity: real, delta: real, value: real, price: real)
    requires price > 0.0 && raw * price == delta && quantity * price == value && delta <= value
    ensures raw <= quantity
  {
    if raw > quantity {
      StrictScale(quantity, raw, price);
    }
  }

  lemma NoShares(raw: real, delta: real, price: real)
    requires raw <= 0.0 && delta >= 0.0 && price > 0.0 && raw * price == delta
    ensures delta == 0.0
  {
    ScaleOrder(raw, 0.0, price);
  }

  /** Where the holding ends up: its value after the planned trade is filled at the planning price. */
  function ValueAfter(ticker: string, target: real, held: Option<Position>, price: real, s: Sizing, ending: Ending): real
    requires s.portfolioValue != 0.0
  {
    match TradeFor(ticker, target, held, Some(price), s)
    case None => HeldValue(held)
    case Some(t) => Moved(HeldValue(held), FilledOf(t.quantity, t.side, ending), t.side, price)
  }

  function Moved(value: real, filled: real, side: Side, price: real): real {
    if side == BUY then value + filled * price else value - filled * price
  }

  /** What is left to do after a trade, in money, is a fraction of a share. */
  predicate Fraction(left: real, price: real, side: Side, ending: Ending) {
    if side == BUY
    then -0.5 * price <= left < price && (if ending.AsDemoted? then left >= 0.0 else left < 0.5 * price)
    else -price < left <= 0.0
  }

  lemma LeftOver(target: real, value: real, price: real, side: Side, ending: Ending)
    requires price > 0.0 && (if target - value > 0.0 then side == BUY else side == SELL)
    ensures Fraction(target - Moved(value, FilledOf(Abs(target - value) / price, side, ending), side, price), price, side, ending)
  {
    var raw := Abs(target - value) / price;
    QuotientSign(Abs(target - value), price);
    LeftOverRaw(target, value, price, side, ending, raw);
  }

  lemma LeftOverRaw(target: real, value: real, price: real, side: Side, ending: Ending, raw: real)
    requires price > 0.0 && (if target - value > 0.0 then side == BUY else side == SELL)
    requires raw >= 0.0 && raw * price == Abs(target - value)
    ensures Fraction(target - Moved(value, FilledOf(raw, side, ending), side, price), price, side, ending)
  {
    FillMisses(raw, side, ending);
    LeftOverOf(target, value, price, side, ending, raw, FilledOf(raw, side, ending));
  }

  lemma LeftOverOf(target: real, value: real, price: real, side: Side, ending: Ending, raw: real, filled: real)
    requires price > 0.0 && (if target - value > 0.0 then side == BUY else side == SELL)
    requires raw * price == Abs(target - value) && -0.5 <= raw - filled < 1.0
    requires side == SELL || ending.AsDemoted? ==> raw - filled >= 0.0
    requires side == BUY && ending.AsRounded? ==> raw - filled < 0.5
    ensures Fraction(target - Moved(value, filled, side, price), price, side, ending)
  {
    var missed := MissInMoney(raw, filled, price);
    MissIsFraction(target, value, price, side, ending, filled, missed);
  }

  lemma MissIsFraction(target: real, value: real, price: real, side: Side, ending: Ending, filled: real, missed: real)
    requires price > 0.0 && (if target - value > 0.0 then side == BUY else side == SELL)
    requires missed == Abs(target - value) - filled * price && -0.5 * price <= missed < price
    requires side == SELL || ending.AsDemoted? ==> missed >= 0.0
    requires side == BUY && ending.AsRounded? ==> missed < 0.5 * price
    ensures Fraction(target - Moved(value, filled, side, price), price, side, ending)
  {
  }

  lemma MissInMoney(raw: real, filled: real, price: real) returns (missed: real)
    requires price > 0.0 && -0.5 <= raw - filled < 1.0
    ensures missed == raw * price - filled * price && -0.5 * price <= missed < price
    ensures raw - filled >= 0.0 ==> missed >= 0.0
    ensures raw - filled < 0.5 ==> missed < 0.5 * price
  {
    missed := MissBounds(raw - filled, price);
    DistributeDifference(raw, filled, price);
  }

  lemma MissBounds(shares: real, price: real) returns (missed: real)
    requires price > 0.0 && -0.5 <= shares < 1.0
    ensures missed == shares * price && -0.5 * price <= missed < price
    ensures shares >= 0.0 ==> missed >= 0.0
    ensures shares < 0.5 ==> missed < 0.5 * price
  {
    missed := shares * price;
    UnderOne(shares, price);
    OverHalf(shares, price);
    if shares >= 0.0 {
      ScaleOrder(0.0, shares, price);
    }
    if shares < 0.5 {
      StrictScale(shares, 0.5, price);
    }
  }

  lemma OverHalf(shares: real, price: real)
    requires price > 0.0 && -0.5 <= shares
    ensures -0.5 * price <= shares * price
  {
    ScaleOrder(-shares, 0.5, price);
    assert -shares * price == -(shares * price);
  }

  lemma UnderOne(shares: real, price: real)
    requires price > 0.0 && shares < 1.0
    ensures shares * price < price
  {
    StrictScale(shares, 1.0, price);
  }

  /** The largest of the thresholds and one share. */
  function StepLimit(s: Sizing, price: real): real {
    Max(Max(s.minTrade, s.minWeight * s.portfolioValue), price)
  }

  /** With the broker's values at the planning price and no trade dropped for its cost, every ticker
      ends up within the largest of the trade threshold, the weight threshold and one share of its
      target, whether its trade is filled as rounded, demoted, or dropped for being below a share. */
  lemma FilledNearTarget(ticker: string, target: real, held: Option<Position>, price: real, s: Sizing, ending: Ending)
    requires s.portfolioValue > 0.0 && price > 0.0 && target >= 0.0 && ValuedAt(held, price)
    ensures Abs(target - ValueAfter(ticker, target, held, price, s, ending)) <= StepLimit(s, price)
  {
    TradeIsDifference(ticker, target, held, price, s);
    var value := HeldValue(held);
    if TooSmall(target - value, s) {
      SmallDelta(Abs(target - value), s, price);
    } else {
      var side := if target - value > 0.0 then BUY else SELL;
      LeftOver(target, value, price, side, ending);
      FractionIsSmall(target - Moved(value, FilledOf(Abs(target - value) / price, side, ending), side, price), price, side, ending, s);
    }
  }

  lemma SmallDelta(x: real, s: Sizing, price: real)
    requires s.portfolioValue > 0.0 && x >= 0.0 && (x < s.minTrade || x / s.portfolioValue < s.minWeight)
    ensures x <= StepLimit(s, price)
  {
    if x / s.portfolioValue < s.minWeight {
      QuotientSign(x, s.portfolioValue);
      StrictScale(x / s.portfolioValue, s.minWeight, s.portfolioValue);
    }
  }

  lemma FractionIsSmall(left: real, price: real, side: Side, ending: Ending, s: Sizing)
    requires price > 0.0 && Fraction(left, price, side, ending)
    ensures Abs(left) <= StepLimit(s, price)
  {
  }

  /** Planning again after the fills finds nothing to trade, as long as no buy was demoted: what is
      left is too small, or rounds to nothing. */
  lemma SecondPassIsEmpty(ticker: string, target: real, held: Option<Position>, price: real, s: Sizing)
    requires s.portfolioValue > 0.0 && price > 0.0 && target >= 0.0 && ValuedAt(held, price)
    ensures var left := target - ValueAfter(ticker, target, held, price, s, AsRounded);
            TooSmall(left, s) || FilledOf(Abs(left) / price, if left > 0.0 then BUY else SELL, AsRounded) == 0.0
  {
    TradeIsDifference(ticker, target, held, price, s);
    var value := HeldValue(held);
    var left := target - ValueAfter(ticker, target, held, price, s, AsRounded);
    if !TooSmall(target - value, s) {
      LeftOver(target, value, price, if target - value > 0.0 then BUY else SELL, AsRounded);
      FractionRoundsAway(Abs(left), price, if left > 0.0 then BUY else SELL);
    }
  }

  lemma FractionRoundsAway(left: real, price: real, side: Side)
    requires price > 0.0 && 0.0 <= left
    requires if side == BUY then left < 0.5 * price else left < price
    ensures FilledOf(left / price, side, AsRounded) == 0.0
  {
    QuotientSign(left, price);
    var raw := left / price;
    BelowShare(raw, if side == BUY then 0.5 else 1.0, left, price);
    FillMisses(raw, side, AsRounded);
    WholeShareRounding(raw, WHOLE_SHARE);
  }

  lemma BelowShare(raw: real, bound: real, left: real, price: real)
    requires price > 0.0 && raw * price == left && left < bound * price
    ensures raw < bound
  {
    if raw >= bound {
      ScaleOrder(bound, raw, price);
    }
  }

  /** A demoted buy rounds up again in the second pass exactly when at least half a share is left. */
  lemma DemotedBuyComesBack(ticker: string, target: real, held: Option<Position>, price: real, s: Sizing)
    requires s.portfolioValue > 0.0 && price > 0.0 && target >= 0.0 && ValuedAt(held, price)
    requires target > HeldValue(held) && !TooSmall(target - HeldValue(held), s)
    ensures var left := target - ValueAfter(ticker, target, held, price, s, AsDemoted);
            left >= 0.0 && (FilledOf(left / price, BUY, AsRounded) > 0.0 <==> left >= 0.5 * price)
  {
    TradeIsDifference(ticker, target, held, price, s);
    LeftOver(target, HeldValue(held), price, BUY, AsDemoted);
    var left := target - ValueAfter(ticker, target, held, price, s, AsDemoted);
    if left < 0.5 * price {
      FractionRoundsAway(left, price, BUY);
    } else {
      HalfShareBuys(left, price);
    }
  }

  lemma HalfShareBuys(left: real, price: real)
    requires price > 0.0 && 0.5 * price <= left
    ensures FilledOf(left / price, BUY, AsRounded) > 0.0
  {
    var raw := left / price;
    QuotientSign(left, price);
    AtLeastHalf(raw, left, price);
    WholeShareRounding(raw, WHOLE_SHARE);
  }

  lemma AtLeastHalf(raw: real, left: real, price: real)
    requires price > 0.0 && raw * price == left && 0.5 * price <= left
    ensures raw >= 0.5
  {
    if raw < 0.5 {
      StrictScale(raw, 0.5, price);
    }
  }

  /** A planned trade that is rounded, demoted or dropped by the execution policy ends as assumed here. */
  lemma PolicyEndings(t: Trade, rules: Rules)
    requires Planned(t) && Resolve(t.ticker, rules) == WHOLE_SHARE
    ensures match Rounded(t, WHOLE_SHARE)
            case None => FilledOf(t.quantity, t.side, AsRounded) == 0.0
            case Some(rounded) =>
              && rounded.quantity == FilledOf(t.quantity, t.side, AsRounded)
              && (RoundUpFloor(t, WHOLE_SHARE).Some? ==>
                    var kept := DemotedTrade(rounded, RoundUpFloor(t, WHOLE_SHARE).value, rules);
                    FilledOf(t.quantity, BUY, AsDemoted) == (if kept == [] then 0.0 else kept[0].quantity))
  {
  }

  // ---- the planned trades ----

  lemma OffsetLimitSign(price: real, offsetBps: real)
    requires price > 0.0 && 0.0 <= offsetBps
    ensures OffsetLimit(BUY, price, offsetBps) >= 0.0
  {
    var factor := 1.0 + offsetBps / 10000.0;
    ScaleOrder(0.0, factor, price);
    assert price * factor >= 0.0;
    RoundHalfEvenGrows(0.0, price * factor * CENT_SCALE);
    WholeRounds(0);
  }

  /** What planning generates is what the execution policy takes. */
  lemma GeneratedIsPlanned(ticker: string, target: real, held: Option<Position>, latest: Option<real>, s: Sizing)
    requires s.portfolioValue != 0.0 && 0.0 <= s.limitOffsetBps
    requires TradeFor(ticker, target, held, latest, s).Some?
    ensures Planned(TradeFor(ticker, target, held, latest, s).value)
  {
    var t := TradeFor(ticker, target, held, latest, s).value;
    OffsetLimitSign(t.referencePrice, s.limitOffsetBps);
    QuotientSign(Abs(target - HeldValue(held)), t.referencePrice);
  }

  datatype Cost = Cost(bps: real, fixed: real)

  function AfterCost(t: Trade, cost: Cost): real {
    t.notional - (cost.fixed + t.notional * cost.bps / 10000.0)
  }

  function WorthTrading(trades: seq<Trade>, minTrade: real, cost: Cost): seq<Trade> {
    if trades == [] then []
    else WorthTrading(Front(trades), minTrade, cost) + (if AfterCost(Last(trades), cost) < minTrade then [] else [Last(trades)])
  }

  /** Drop trades whose estimated cost overwhelms them. */
  method FilterByCost(trades: seq<Trade>, minTrade: real, cost: Cost) returns (kept: seq<Trade>)
    ensures kept == if cost.bps <= 0.0 && cost.fixed <= 0.0 then trades else WorthTrading(trades, minTrade, cost)
  {
    if cost.bps <= 0.0 && cost.fixed <= 0.0 {
      return trades;
    }
    kept := [];
    for i := 0 to |trades|
      invariant kept == WorthTrading(trades[..i], minTrade, cost)
    {
      assert Front(trades[..i + 1]) == trades[..i];
      if AfterCost(trades[i], cost) >= minTrade {
        kept := kept + [trades[i]];
      }
    }
    assert trades[..|trades|] == trades;
  }

  /** What is left of the trade's value after the proportional and the fixed cost reaches the threshold. */
  predicate Repays(t: Trade, minTrade: real, cost: Cost) {
    t.notional - t.notional * cost.bps / 10000.0 - cost.fixed >= minTrade
  }

  /** Exactly those trades are kept. */
  lemma {:induction false} WorthTradingExactly(trades: seq<Trade>, minTrade: real, cost: Cost)
    ensures forall t :: t in WorthTrading(trades, minTrade, cost) <==> t in trades && Repays(t, minTrade, cost)
  {
    if trades != [] {
      WorthTradingExactly(Front(trades), minTrade, cost);
      CostSplits(Last(trades), cost);
      assert trades == Front(trades) + [Last(trades)];
      assert AfterCost(Last(trades), cost) >= minTrade <==> Repays(Last(trades), minTrade, cost);
    }
  }

  lemma CostSplits(t: Trade, cost: Cost)
    ensures AfterCost(t, cost) == t.notional - t.notional * cost.bps / 10000.0 - cost.fixed
  {
  }

  lemma {:induction false} WorthTradingSelects(trades: seq<Trade>, minTrade: real, cost: Cost)
    ensures Selects(WorthTrading(trades, minTrade, cost), trades)
    ensures AllPlanned(trades) ==> AllPlanned(WorthTrading(trades, minTrade, cost))
  {
    if trades != [] {
      WorthTradingSelects(Front(trades), minTrade, cost);
      SelectsNext(WorthTrading(Front(trades), minTrade, cost), trades, if AfterCost(Last(trades), cost) < minTrade then [] else [Last(trades)]);
    }
  }

  lemma {:induction false} AllGeneratedPlanned(tickers: seq<string>, targets: map<string, real>,
                                               held: map<string, Position>, latest: map<string, real>, s: Sizing)
    requires s.portfolioValue != 0.0 && 0.0 <= s.limitOffsetBps
    ensures AllPlanned(TradesFor(tickers, targets, held, latest, s))
  {
    if tickers != [] {
      AllGeneratedPlanned(Front(tickers), targets, held, latest, s);
      var t := Last(tickers);
      if TradeFor(t, Target(targets, t), Find(held, t), Find(latest, t), s).Some? {
        GeneratedIsPlanned(t, Target(targets, t), Find(held, t), Find(latest, t), s);
      }
    }
  }
}
