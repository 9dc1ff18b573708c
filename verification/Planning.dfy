/** The planning pipeline as a whole (src/poma/risk.py with src/poma/execution_policy.py): what it plans,
    ticker by ticker, and what filling the plan leaves. */
module Planning {
  import opened Models
  import opened RealArithmetic
  import opened ExecutionPolicy
  import opened Risk

  /** What a plan is made from. */
  datatype Inputs = Inputs(targets: map<string, real>, held: map<string, Position>, latest: map<string, real>, sizing: Sizing,
                           cost: Cost, rules: Rules)

  predicate Distinct(tickers: seq<string>) {
    forall i, j | 0 <= i < j < |tickers| :: tickers[i] != tickers[j]
  }

  // ---- one ticker ----

  function Sized(k: string, x: Inputs): Option<Trade>
    requires x.sizing.portfolioValue != 0.0
  {
    TradeFor(k, Target(x.targets, k), Find(x.held, k), Find(x.latest, k), x.sizing)
  }

  predicate Overpriced(t: Trade, x: Inputs) {
    (x.cost.bps > 0.0 || x.cost.fixed > 0.0) && AfterCost(t, x.cost) < x.sizing.minTrade
  }

  /** What is planned for one ticker: nothing, or its trade rounded, down if it is a buy that is demoted. */
  function PlannedFor(k: string, x: Inputs, down: bool): Option<Trade>
    requires x.sizing.portfolioValue != 0.0
  {
    var t := Sized(k, x);
    if t.None? || Overpriced(t.value, x) then None else Ended(t.value, Resolve(k, x.rules), down)
  }

  function PlanOf(tickers: seq<string>, x: Inputs, down: set<string>): seq<Trade>
    requires x.sizing.portfolioValue != 0.0
  {
    if tickers == [] then []
    else
      PlanOf(Front(tickers), x, down) + Listed(PlannedFor(Last(tickers), x, Last(tickers) in down))
  }

  function Worth(trades: seq<Trade>, x: Inputs): seq<Trade> {
    if x.cost.bps <= 0.0 && x.cost.fixed <= 0.0 then trades else WorthTrading(trades, x.sizing.minTrade, x.cost)
  }

  function Generated(tickers: seq<string>, x: Inputs): seq<Trade>
    requires x.sizing.portfolioValue != 0.0
  {
    TradesFor(tickers, x.targets, x.held, x.latest, x.sizing)
  }

  function Listed(t: Option<Trade>): seq<Trade> {
    if t.Some? then [t.value] else []
  }

  /** Sizing, the cost filter and rounding act on each ticker by itself; only the cash ties them together,
      through which buys are demoted. */
  lemma {:induction false} PlanIsByTicker(tickers: seq<string>, x: Inputs, down: set<string>)
    requires x.sizing.portfolioValue != 0.0
    ensures PolicyOf(Worth(Generated(tickers, x), x), x.rules, down) == PlanOf(tickers, x, down)
  {
    if tickers != [] {
      PlanIsByTicker(Front(tickers), x, down);
      GeneratedNext(tickers, x);
      AddSized(Generated(Front(tickers), x), Sized(Last(tickers), x), x, down);
      PlannedIsSized(Last(tickers), x, down);
    }
  }

  lemma GeneratedNext(tickers: seq<string>, x: Inputs)
    requires tickers != [] && x.sizing.portfolioValue != 0.0
    ensures Generated(tickers, x) == Generated(Front(tickers), x) + Listed(Sized(Last(tickers), x))
  {
  }

  function EndedIfWorth(t: Option<Trade>, x: Inputs, down: set<string>): Option<Trade> {
    if t.None? || Overpriced(t.value, x) then None else Ended(t.value, Resolve(t.value.ticker, x.rules), t.value.ticker in down)
  }

  lemma PlannedIsSized(k: string, x: Inputs, down: set<string>)
    requires x.sizing.portfolioValue != 0.0
    ensures PlannedFor(k, x, k in down) == EndedIfWorth(Sized(k, x), x, down)
  {
    if Sized(k, x).Some? {
      assert Sized(k, x).value.ticker == k;
    }
  }

  lemma AddSized(trades: seq<Trade>, t: Option<Trade>, x: Inputs, down: set<string>)
    ensures PolicyOf(Worth(trades + Listed(t), x), x.rules, down) == PolicyOf(Worth(trades, x), x.rules, down) + Listed(EndedIfWorth(t, x, down))
  {
    if t.None? {
      assert trades + Listed(t) == trades;
    } else {
      WorthAppend(trades, t.value, x);
      if Overpriced(t.value, x) {
        assert Worth(trades, x) + [] == Worth(trades, x);
      } else {
        PolicyAppend(Worth(trades, x), t.value, x.rules, down);
      }
    }
  }

  lemma WorthAppend(trades: seq<Trade>, t: Trade, x: Inputs)
    ensures Worth(trades + [t], x) == Worth(trades, x) + (if Overpriced(t, x) then [] else [t])
  {
    assert Front(trades + [t]) == trades;
  }

  lemma PolicyAppend(trades: seq<Trade>, t: Trade, rules: Rules, down: set<string>)
    ensures PolicyOf(trades + [t], rules, down) == PolicyOf(trades, rules, down) + Listed(Ended(t, Resolve(t.ticker, rules), t.ticker in down))
  {
    assert Front(trades + [t]) == trades;
  }

  /** The planning pipeline: size, drop what is not worth its cost, round and fit the cash.  What
      comes out has one trade per ticker, each for a positive quantity, buys worth their quantity; it is
      what each ticker by itself needs, except that buys of the tickers `down` are rounded down: the
      largest savings, at the positions `which` of the rounded plan, as far as the cash takes it.  Under
      the rules that settings can build, the plan would not fit without any one of them. */
  method PlanTrades(tickers: seq<string>, x: Inputs, cash: real)
    returns (trades: seq<Trade>, ghost down: set<string>, ghost which: set<nat>)
    requires x.sizing.portfolioValue != 0.0 && 0.0 <= x.sizing.limitOffsetBps && Distinct(tickers)
    ensures var worth := Worth(Generated(tickers, x), x);
            && down == DownAt(RoundAll(worth, x.rules), Floors(worth, x.rules), which)
            && Chosen(RoundAll(worth, x.rules), Floors(worth, x.rules), which, cash)
            && (CashBlocked(trades, cash) <==> CashBlocked(FloorAll(worth, x.rules), cash))
    ensures StandardRules(x.rules) ==> forall k | k in down :: CashBlocked(PlanOf(tickers, x, down - {k}), cash)
    ensures AllTraded(trades) && DistinctTickers(trades)
    ensures trades == PlanOf(tickers, x, down)
    ensures !CashBlocked(PlanOf(tickers, x, {}), cash) ==> down == {}
  {
    var generated := GenerateTrades(tickers, x.targets, x.held, x.latest, x.sizing);
    AllGeneratedPlanned(tickers, x.targets, x.held, x.latest, x.sizing);
    WorthTradingSelects(generated, x.sizing.minTrade, x.cost);
    var worth := FilterByCost(generated, x.sizing.minTrade, x.cost);
    trades, down, which := ApplyExecutionPolicy(worth, x.rules, Some(cash));
    forall k | k in down ensures PolicyOf(worth, x.rules, down - {k}) == PlanOf(tickers, x, down - {k}) {
      PlanIsByTicker(tickers, x, down - {k});
    }
    PlanIsByTicker(tickers, x, down);
    PlanIsByTicker(tickers, x, {});
    NoneDown(worth, x.rules);
  }

  // ---- filling the plan ----

  /** The shares a trade moves: into the holding or out of it. */
  function Signed(t: Trade): real {
    if t.side == BUY then t.quantity else -t.quantity
  }

  /** The shares a filled plan moves into the holding of a ticker. */
  function SharesOf(trades: seq<Trade>, k: string): real {
    if trades == [] then 0.0 else SharesOf(Front(trades), k) + (if Last(trades).ticker == k then Signed(Last(trades)) else 0.0)
  }

  function SharesIn(planned: Option<Trade>): real {
    if planned.Some? then Signed(planned.value) else 0.0
  }

  lemma SharesAppend(trades: seq<Trade>, t: Option<Trade>, k: string)
    ensures SharesOf(trades + Listed(t), k) == SharesOf(trades, k) + (if t.Some? && t.value.ticker == k then SharesIn(t) else 0.0)
  {
    if t.None? {
      assert trades + Listed(t) == trades;
    } else {
      assert Front(trades + Listed(t)) == trades;
    }
  }

  lemma PlannedTicker(k: string, x: Inputs, down: bool)
    requires x.sizing.portfolioValue != 0.0
    ensures PlannedFor(k, x, down).Some? ==> PlannedFor(k, x, down).value.ticker == k
  {
  }

  /** Filling the plan moves for each ticker what was planned for it. */
  lemma {:induction false} SharesByTicker(tickers: seq<string>, x: Inputs, down: set<string>, k: string)
    requires x.sizing.portfolioValue != 0.0 && Distinct(tickers)
    ensures SharesOf(PlanOf(tickers, x, down), k) == if k in tickers then SharesIn(PlannedFor(k, x, k in down)) else 0.0
  {
    if tickers != [] {
      var rest, last := Front(tickers), Last(tickers);
      assert tickers == rest + [last];
      SharesByTicker(rest, x, down, k);
      var planned := PlannedFor(last, x, last in down);
      PlannedTicker(last, x, last in down);
      SharesAppend(PlanOf(rest, x, down), planned, k);
    }
  }

  /** A holding after `shares` were moved into it at the given price. */
  function After(held: Option<Position>, shares: real, price: real): Option<Position> {
    if shares == 0.0 then held
    else if held.Some? then Some(Position(held.value.quantity + shares, held.value.marketValue + shares * price))
    else Some(Position(shares, shares * price))
  }

  /** The inputs of the next plan, once this one is filled at the planning prices. */
  function Filled(tickers: seq<string>, x: Inputs, trades: seq<Trade>): Inputs
    requires forall k | k in tickers :: k in x.latest
  {
    x.(held := map k | k in tickers && After(Find(x.held, k), SharesOf(trades, k), x.latest[k]).Some? ::
                 After(Find(x.held, k), SharesOf(trades, k), x.latest[k]).value)
  }

  /** Long-only, in whole shares, and held at the planning price. */
  predicate LongOnly(k: string, x: Inputs) {
    && x.sizing.portfolioValue > 0.0 && k in x.latest && x.latest[k] > 0.0 && Target(x.targets, k) >= 0.0
    && ValuedAt(Find(x.held, k), x.latest[k]) && Resolve(k, x.rules) == WHOLE_SHARE
  }

  predicate AllLongOnly(tickers: seq<string>, x: Inputs) {
    forall k | k in tickers :: LongOnly(k, x)
  }

  /** The ending of a trade, in the terms of one ticker. */
  function EndingOf(side: Side, down: bool): Ending {
    if down && side == BUY then AsDemoted else AsRounded
  }

  lemma EndedShares(t: Trade, down: bool)
    requires t.quantity >= 0.0
    ensures SharesIn(Ended(t, WHOLE_SHARE, down))
         == (if t.side == BUY then FilledOf(t.quantity, BUY, EndingOf(BUY, down)) else -FilledOf(t.quantity, SELL, AsRounded))
  {
  }

  /** The trade of one ticker, sized, with the inputs it was sized from. */
  predicate SizedAs(k: string, x: Inputs, target: real, held: Option<Position>, price: real, t: Option<Trade>) {
    && LongOnly(k, x) && target == Target(x.targets, k) && held == Find(x.held, k) && price == x.latest[k] && t == Sized(k, x)
  }

  lemma SizedTrade(k: string, x: Inputs, target: real, held: Option<Position>, price: real, t: Option<Trade>)
    requires SizedAs(k, x, target, held, price, t)
    ensures x.sizing.portfolioValue > 0.0 && price > 0.0 && target >= 0.0 && ValuedAt(held, price)
    ensures t == TradeFor(k, target, held, Some(price), x.sizing)
  {
  }

  /** The shares a sized trade moves are those of its ending, or none if it is not worth its cost. */
  lemma PlannedShares(k: string, x: Inputs, down: bool, t: Option<Trade>)
    requires LongOnly(k, x) && t == Sized(k, x)
    ensures SharesIn(PlannedFor(k, x, down)) == if t.None? || Overpriced(t.value, x) then 0.0 else SharesIn(Ended(t.value, WHOLE_SHARE, down))
  {
  }

  lemma MovedBy(value: real, t: Trade, down: bool, price: real, shares: real)
    requires t.quantity >= 0.0 && shares == SharesIn(Ended(t, WHOLE_SHARE, down))
    ensures value + shares * price == Moved(value, FilledOf(t.quantity, t.side, EndingOf(t.side, down)), t.side, price)
  {
    EndedShares(t, down);
    var filled := FilledOf(t.quantity, t.side, EndingOf(t.side, down));
    assert t.side == SELL ==> -filled * price == -(filled * price);
  }

  lemma SizedQuantity(k: string, target: real, held: Option<Position>, price: real, s: Sizing)
    requires s.portfolioValue > 0.0 && price > 0.0 && target >= 0.0 && ValuedAt(held, price)
    requires TradeFor(k, target, held, Some(price), s).Some?
    ensures TradeFor(k, target, held, Some(price), s).value.quantity >= 0.0
  {
  }

  lemma EndsAt(k: string, target: real, held: Option<Position>, price: real, s: Sizing, t: Option<Trade>, down: bool,
               shares: real)
    returns (ending: Ending, value: real)
    requires s.portfolioValue > 0.0 && price > 0.0 && target >= 0.0 && ValuedAt(held, price)
    requires t == TradeFor(k, target, held, Some(price), s)
    requires shares == if t.Some? then SharesIn(Ended(t.value, WHOLE_SHARE, down)) else 0.0
    ensures value == HeldValue(held) + shares * price && value == ValueAfter(k, target, held, price, s, ending)
    ensures !down ==> ending.AsRounded?
  {
    ending, value := AsRounded, HeldValue(held) + shares * price;
    if t.Some? {
      ending := EndingOf(t.value.side, down);
      SizedQuantity(k, target, held, price, s);
      MovedBy(HeldValue(held), t.value, down, price, shares);
    }
  }

  /** The largest notional that the cost filter drops. */
  function CostLimit(x: Inputs): real
    requires x.cost.bps < 10000.0
  {
    (x.sizing.minTrade + x.cost.fixed) / (1.0 - x.cost.bps / 10000.0)
  }

  lemma DroppedIsSmall(t: Trade, x: Inputs)
    requires x.cost.bps < 10000.0 && Overpriced(t, x)
    ensures t.notional <= CostLimit(x)
  {
    var part := 1.0 - x.cost.bps / 10000.0;
    CostShare(t.notional, x.cost.bps, part);
    BelowQuotient(t.notional, x.sizing.minTrade + x.cost.fixed, part);
  }

  lemma CostShare(notional: real, bps: real, part: real)
    requires part == 1.0 - bps / 10000.0
    ensures notional * part == notional - notional * bps / 10000.0
  {
    assert notional * bps / 10000.0 == notional * (bps / 10000.0);
    DistributeDifference(1.0, bps / 10000.0, notional);
  }

  lemma BelowQuotient(a: real, b: real, part: real)
    requires part > 0.0 && a * part < b
    ensures a <= b / part
  {
    DivOrder(a * part, b, part);
    Divides(part, a);
  }

  lemma TradedNotional(k: string, target: real, held: Option<Position>, price: real, s: Sizing)
    requires s.portfolioValue > 0.0 && TradeFor(k, target, held, Some(price), s).Some?
    ensures TradeFor(k, target, held, Some(price), s).value.notional == Abs(target - HeldValue(held))
  {
  }

  /** How near its target a ticker ends: a trade not worth its cost was dropped, any other was made in
      whole shares. */
  function NearLimit(x: Inputs, price: real, dropped: bool): real
    requires dropped ==> x.cost.bps < 10000.0
  {
    if dropped then CostLimit(x) else StepLimit(x.sizing, price)
  }

  predicate Dropped(t: Option<Trade>, x: Inputs) {
    t.Some? && Overpriced(t.value, x)
  }

  lemma DroppedNearTarget(k: string, x: Inputs, target: real, held: Option<Position>, price: real, t: Trade)
    requires x.sizing.portfolioValue > 0.0 && x.cost.bps < 10000.0
    requires Some(t) == TradeFor(k, target, held, Some(price), x.sizing) && Overpriced(t, x)
    ensures Abs(target - HeldValue(held)) <= NearLimit(x, price, true)
  {
    TradedNotional(k, target, held, price, x.sizing);
    DroppedIsSmall(t, x);
  }

  lemma EndsNear(k: string, target: real, held: Option<Position>, price: real, s: Sizing, t: Option<Trade>,
                 down: bool, shares: real) returns (value: real)
    requires s.portfolioValue > 0.0 && price > 0.0 && target >= 0.0 && ValuedAt(held, price)
    requires t == TradeFor(k, target, held, Some(price), s)
    requires shares == if t.Some? then SharesIn(Ended(t.value, WHOLE_SHARE, down)) else 0.0
    ensures value == HeldValue(held) + shares * price && Abs(target - value) <= StepLimit(s, price)
  {
    var ending: Ending;
    ending, value := EndsAt(k, target, held, price, s, t, down, shares);
    EndingNearTarget(k, target, held, price, s, ending, value);
  }

  lemma EndingNearTarget(k: string, target: real, held: Option<Position>, price: real, s: Sizing, ending: Ending,
                         value: real)
    requires s.portfolioValue > 0.0 && price > 0.0 && target >= 0.0 && ValuedAt(held, price)
    requires value == ValueAfter(k, target, held, price, s, ending)
    ensures Abs(target - value) <= StepLimit(s, price)
  {
    FilledNearTarget(k, target, held, price, s, ending);
  }

  lemma OneNearTarget(k: string, x: Inputs, down: bool, target: real, held: Option<Position>, price: real,
                      t: Option<Trade>, shares: real)
    returns (value: real)
    requires SizedAs(k, x, target, held, price, t) && (Dropped(t, x) ==> x.cost.bps < 10000.0)
    requires shares == SharesIn(PlannedFor(k, x, down))
    ensures value == HeldValue(held) + shares * price && Abs(target - value) <= NearLimit(x, price, Dropped(t, x))
  {
    SizedTrade(k, x, target, held, price, t);
    PlannedShares(k, x, down, t);
    if Dropped(t, x) {
      value := HeldValue(held);
      DroppedNearTarget(k, x, target, held, price, t.value);
    } else {
      value := EndsNear(k, target, held, price, x.sizing, t, down, shares);
    }
  }

  lemma AfterFilled(tickers: seq<string>, x: Inputs, down: set<string>, k: string)
    requires Distinct(tickers) && AllLongOnly(tickers, x) && k in tickers && x.sizing.portfolioValue != 0.0
    ensures Find(Filled(tickers, x, PlanOf(tickers, x, down)).held, k) == After(Find(x.held, k), SharesIn(PlannedFor(k, x, k in down)), x.latest[k])
  {
    SharesByTicker(tickers, x, down, k);
  }

  lemma AfterValue(held: Option<Position>, shares: real, price: real)
    ensures HeldValue(After(held, shares, price)) == HeldValue(held) + shares * price
  {
  }

  lemma NearTargetAfter(k: string, x: Inputs, down: bool) returns (value: real)
    requires LongOnly(k, x) && (Dropped(Sized(k, x), x) ==> x.cost.bps < 10000.0)
    ensures value == HeldValue(After(Find(x.held, k), SharesIn(PlannedFor(k, x, down)), x.latest[k]))
    ensures Abs(Target(x.targets, k) - value) <= NearLimit(x, x.latest[k], Dropped(Sized(k, x), x))
  {
    var shares, held, price := SharesIn(PlannedFor(k, x, down)), Find(x.held, k), x.latest[k];
    AfterValue(held, shares, price);
    value := OneNearTarget(k, x, down, Target(x.targets, k), held, price, Sized(k, x), shares);
  }

  /** Once the plan is filled, every ticker is within the largest of the trade threshold, the weight
      threshold and one share of its target, whichever buys were demoted; only a ticker whose trade was
      not worth its cost is off by up to the notional that costs drop. */
  lemma PlanNearTarget(tickers: seq<string>, x: Inputs, down: set<string>, k: string)
    requires Distinct(tickers) && AllLongOnly(tickers, x) && k in tickers && x.sizing.portfolioValue != 0.0
    requires Dropped(Sized(k, x), x) ==> x.cost.bps < 10000.0
    ensures Abs(Target(x.targets, k) - HeldValue(Find(Filled(tickers, x, PlanOf(tickers, x, down)).held, k)))
            <= NearLimit(x, x.latest[k], Dropped(Sized(k, x), x))
  {
    var value := NearTargetAfter(k, x, k in down);
    AfterFilled(tickers, x, down, k);
  }

  // ---- planning again ----

  lemma {:induction false} NothingPlanned(tickers: seq<string>, x: Inputs, down: set<string>)
    requires x.sizing.portfolioValue != 0.0 && forall k | k in tickers :: PlannedFor(k, x, k in down).None?
    ensures PlanOf(tickers, x, down) == []
  {
    if tickers != [] {
      assert tickers == Front(tickers) + [Last(tickers)];
      NothingPlanned(Front(tickers), x, down);
    }
  }

  /** A filled holding is still long and valued at the planning price. */
  lemma StaysLong(k: string, target: real, held: Option<Position>, price: real, s: Sizing, t: Trade, shares: real)
    requires s.portfolioValue > 0.0 && price > 0.0 && target >= 0.0 && ValuedAt(held, price)
    requires Some(t) == TradeFor(k, target, held, Some(price), s) && shares == SharesIn(Ended(t, WHOLE_SHARE, false))
    ensures ValuedAt(After(held, shares, price), price)
  {
    SizedQuantity(k, target, held, price, s);
    SellIsHeld(k, target, held, price, s);
    SharesHeld(t, held, shares);
    AfterIsLong(held, shares, price);
  }

  lemma SellIsHeld(k: string, target: real, held: Option<Position>, price: real, s: Sizing)
    requires s.portfolioValue > 0.0 && price > 0.0 && target >= 0.0 && ValuedAt(held, price)
    requires TradeFor(k, target, held, Some(price), s).Some?
    ensures var t := TradeFor(k, target, held, Some(price), s).value;
            t.side == SELL ==> held.Some? && t.quantity <= held.value.quantity
  {
  }

  lemma SharesHeld(t: Trade, held: Option<Position>, shares: real)
    requires t.quantity >= 0.0 && (t.side == SELL ==> held.Some? && t.quantity <= held.value.quantity)
    requires shares == SharesIn(Ended(t, WHOLE_SHARE, false))
    ensures shares >= 0.0 || (held.Some? && -shares <= held.value.quantity)
  {
    EndedShares(t, false);
    FillMisses(t.quantity, t.side, AsRounded);
  }

  lemma AfterIsLong(held: Option<Position>, shares: real, price: real)
    requires ValuedAt(held, price) && (shares >= 0.0 || (held.Some? && -shares <= held.value.quantity))
    ensures ValuedAt(After(held, shares, price), price)
  {
    if held.Some? {
      DistributeSum(held.value.quantity, shares, price);
    }
  }

  /** A trade that fills nothing as rounded is not planned, rounded or demoted. */
  lemma RoundsAway(t: Trade, down: bool)
    requires t.quantity >= 0.0 && FilledOf(t.quantity, t.side, AsRounded) == 0.0
    ensures Ended(t, WHOLE_SHARE, down).None?
  {
    RoundingOrder(t.quantity, WHOLE_SHARE);
  }

  /** What the filled trade left asks for nothing that could be traded. */
  lemma SecondRoundsAway(k: string, target: real, held: Option<Position>, price: real, s: Sizing, t: Trade,
                         shares: real, after: Option<Position>, down: bool)
    requires s.portfolioValue > 0.0 && price > 0.0 && target >= 0.0 && ValuedAt(held, price)
    requires Some(t) == TradeFor(k, target, held, Some(price), s) && shares == SharesIn(Ended(t, WHOLE_SHARE, false))
    requires after == After(held, shares, price)
    ensures ValuedAt(after, price)
    ensures var next := TradeFor(k, target, after, Some(price), s);
            next.Some? ==> Ended(next.value, WHOLE_SHARE, down).None?
  {
    StaysLong(k, target, held, price, s, t, shares);
    var ending, value := EndsAt(k, target, held, price, s, Some(t), false, shares);
    AfterValue(held, shares, price);
    LeftIsNothing(k, target, held, price, s, value);
    NextRoundsAway(k, target, after, price, s, value, down);
  }

  lemma LeftIsNothing(k: string, target: real, held: Option<Position>, price: real, s: Sizing, value: real)
    requires s.portfolioValue > 0.0 && price > 0.0 && target >= 0.0 && ValuedAt(held, price)
    requires value == ValueAfter(k, target, held, price, s, AsRounded)
    ensures var left := target - value;
            TooSmall(left, s) || FilledOf(Abs(left) / price, if left > 0.0 then BUY else SELL, AsRounded) == 0.0
  {
    SecondPassIsEmpty(k, target, held, price, s);
  }

  lemma NextRoundsAway(k: string, target: real, after: Option<Position>, price: real, s: Sizing, value: real,
                       down: bool)
    requires s.portfolioValue > 0.0 && price > 0.0 && target >= 0.0 && ValuedAt(after, price)
    requires HeldValue(after) == value
    requires var left := target - value;
             TooSmall(left, s) || FilledOf(Abs(left) / price, if left > 0.0 then BUY else SELL, AsRounded) == 0.0
    ensures var next := TradeFor(k, target, after, Some(price), s);
            next.Some? ==> Ended(next.value, WHOLE_SHARE, down).None?
  {
    TradeIsDifference(k, target, after, price, s);
    var next := TradeFor(k, target, after, Some(price), s);
    if next.Some? {
      SizedQuantity(k, target, after, price, s);
      RoundsAway(next.value, down);
    }
  }

  lemma SecondOfOne(k: string, x: Inputs, y: Inputs, target: real, held: Option<Position>, price: real,
                    t: Option<Trade>, after: Option<Position>, down: bool)
    requires SizedAs(k, x, target, held, price, t) && after == After(held, SharesIn(PlannedFor(k, x, false)), price)
    requires y == x.(held := y.held) && Find(y.held, k) == after
    ensures PlannedFor(k, y, down).None?
  {
    SizedTrade(k, x, target, held, price, t);
    PlannedShares(k, x, false, t);
    if t.Some? && !Overpriced(t.value, x) {
      SecondRoundsAway(k, target, held, price, x.sizing, t.value, SharesIn(PlannedFor(k, x, false)), after, down);
    }
  }

  /** Planning again once the plan is filled plans nothing, whatever the cash, as long as no buy was
      demoted: what is left of every ticker is too small, not worth its cost, or rounds to nothing. */
  lemma SecondPlanIsEmpty(tickers: seq<string>, x: Inputs, down: set<string>)
    requires Distinct(tickers) && AllLongOnly(tickers, x) && x.sizing.portfolioValue != 0.0
    ensures PlanOf(tickers, Filled(tickers, x, PlanOf(tickers, x, {})), down) == []
  {
    var y := Filled(tickers, x, PlanOf(tickers, x, {}));
    forall k | k in tickers ensures PlannedFor(k, y, k in down).None? {
      AfterFilled(tickers, x, {}, k);
      SecondOfOne(k, x, y, Target(x.targets, k), Find(x.held, k), x.latest[k], Sized(k, x), Find(y.held, k), k in down);
    }
    NothingPlanned(tickers, y, down);
  }
}
