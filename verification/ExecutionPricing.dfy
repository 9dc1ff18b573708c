/** Pricing a trade from a fresh broker quote (src/poma/execution_pricing.py).  Prices are exact
    reals; the source's roundings to cents and to ticks are kept. */
module ExecutionPricing {
  import opened Models
  import opened RealArithmetic
  import opened ExecutionPolicy

  datatype Basis = SideOfMarket | Midpoint | LastPrice

  datatype Pricing = Pricing(
    basis: Basis,
    maxSpreadBps: real,
    wideSpreadMaxBps: real,
    maxAge: real,
    allowDelayed: bool,
    aggression: real,
    limitOffsetBps: real,
    maxOrderNotional: real,
    rules: Rules)

  datatype Quote = Quote(
    bid: Option<real>,
    ask: Option<real>,
    last: Option<real>,
    age: Option<real>,
    spreadBps: Option<real>,
    delayed: bool,
    unresolved: bool)

  // ---- rounding ----

  /** Nearest whole number, ties to even. */
  function RoundHalfEven(x: real): int {
    var down := x.Floor;
    var rest := x - down as real;
    if rest < 0.5 || (rest == 0.5 && down % 2 == 0) then down else down + 1
  }

  const CENT_SCALE := 100.0
  const GRID_SCALE := 10000.0

  function RoundTo(x: real, scale: real): real
    requires scale > 0.0
  {
    RoundHalfEven(x * scale) as real / scale
  }

  function ToGrid(x: real): real {
    RoundTo(x, GRID_SCALE)
  }

  /** A price with at most four decimals. */
  predicate OnGrid(x: real) {
    x == ToGrid(x)
  }

  lemma RoundHalfEvenGrows(x: real, y: real)
    requires x <= y
    ensures RoundHalfEven(x) <= RoundHalfEven(y)
  {
    FloorOrder(x, y);
  }

  lemma WholeRounds(n: int)
    ensures RoundHalfEven(n as real) == n
  {
  }

  lemma ToGridGrows(x: real, y: real)
    requires x <= y
    ensures ToGrid(x) <= ToGrid(y)
  {
    RoundHalfEvenGrows(x * GRID_SCALE, y * GRID_SCALE);
  }

  // ---- limit inside the spread ----

  function Tick(price: real): (tick: real)
    ensures tick > 0.0
  {
    if price >= 1.0 then 0.01 else 0.0001
  }

  function Mid(bid: real, ask: real): real {
    (bid + ask) / 2.0
  }

  function Clamp(x: real, low: real, high: real): real {
    Min(Max(x, low), high)
  }

  /** The number of ticks up to which a buy may go, or down to which a sell may. */
  function Ticks(side: Side, raw: real, tick: real): int
    requires tick > 0.0
  {
    if side == BUY then (raw / tick + COUNT_EPS).Floor else -((COUNT_EPS - raw / tick).Floor)
  }

  function HalfSpread(bid: real, ask: real): (half: real)
    ensures Mid(bid, ask) + half == ask && Mid(bid, ask) - half == bid
  {
    (ask - bid) / 2.0
  }

  function Raw(side: Side, bid: real, ask: real, aggression: real): real {
    if side == BUY then Mid(bid, ask) + aggression * HalfSpread(bid, ask) else Mid(bid, ask) - aggression * HalfSpread(bid, ask)
  }

  /** On a tick, rounded in the passive direction. */
  function OnTick(side: Side, raw: real, tick: real): real
    requires tick > 0.0
  {
    Ticks(side, raw, tick) as real * tick
  }

  function InsideSpread(side: Side, bid: real, ask: real, aggression: real): real {
    ToGrid(Clamp(OnTick(side, Raw(side, bid, ask, aggression), Tick(Mid(bid, ask))), bid, ask))
  }

  lemma TicksOnGrid(n: int, price: real)
    ensures OnGrid(n as real * Tick(price))
  {
    if price >= 1.0 {
      WholeRounds(n * 100);
      assert n as real * 0.01 * GRID_SCALE == (n * 100) as real;
    } else {
      WholeRounds(n);
      assert n as real * 0.0001 * GRID_SCALE == n as real;
    }
  }

  /** The limit stays inside the quote exactly when the passive tick does, or the end of the quote
      it is clamped to does not leave the quote when rounded to four decimals. */
  lemma InsideSpreadStaysExactly(side: Side, bid: real, ask: real, aggression: real)
    requires bid <= ask
    ensures var tick := OnTick(side, Raw(side, bid, ask, aggression), Tick(Mid(bid, ask)));
            bid <= InsideSpread(side, bid, ask, aggression) <= ask <==>
              if tick < bid then bid <= ToGrid(bid) <= ask
              else if tick > ask then bid <= ToGrid(ask) <= ask
              else true
  {
    var raw := Raw(side, bid, ask, aggression);
    TicksOnGrid(Ticks(side, raw, Tick(Mid(bid, ask))), Mid(bid, ask));
    ClampCases(OnTick(side, raw, Tick(Mid(bid, ask))), bid, ask);
  }

  lemma ClampCases(x: real, bid: real, ask: real)
    requires bid <= ask && OnGrid(x)
    ensures ToGrid(Clamp(x, bid, ask)) == if x < bid then ToGrid(bid) else if x > ask then ToGrid(ask) else x
  {
  }

  /** With bid and ask on the four-decimal grid a buy never pays more than the ask and a sell never
      takes less than the bid. */
  lemma InsideSpreadStays(side: Side, bid: real, ask: real, aggression: real)
    requires bid <= ask && OnGrid(bid) && OnGrid(ask)
    ensures bid <= InsideSpread(side, bid, ask, aggression) <= ask
  {
    InsideSpreadStaysExactly(side, bid, ask, aggression);
  }

  /** Off that grid the final rounding can leave the quote. */
  lemma InsideSpreadLeavesQuoteOffGrid()
    ensures var bid, ask := 10.00006, 10.00007; bid <= ask < InsideSpread(BUY, bid, ask, 0.5)
  {
    var bid, ask := 10.00006, 10.00007;
    var raw := Raw(BUY, bid, ask, 0.5);
    assert Tick(Mid(bid, ask)) == 0.01;
    assert raw / 0.01 == raw * 100.0;
    assert Ticks(BUY, raw, 0.01) == 1000;
    assert (bid * GRID_SCALE).Floor == 100000;
  }

  /** More aggression never prices a buy lower or a sell higher. */
  lemma InsideSpreadMonotone(bid: real, ask: real, some: real, more: real)
    requires bid <= ask && some <= more
    ensures InsideSpread(BUY, bid, ask, some) <= InsideSpread(BUY, bid, ask, more)
    ensures InsideSpread(SELL, bid, ask, some) >= InsideSpread(SELL, bid, ask, more)
  {
    RawOrder(bid, ask, some, more);
    var tick := Tick(Mid(bid, ask));
    OnTickOrder(BUY, Raw(BUY, bid, ask, some), Raw(BUY, bid, ask, more), tick);
    OnTickOrder(SELL, Raw(SELL, bid, ask, more), Raw(SELL, bid, ask, some), tick);
    ClampOrder(OnTick(BUY, Raw(BUY, bid, ask, some), tick), OnTick(BUY, Raw(BUY, bid, ask, more), tick), bid, ask);
    ClampOrder(OnTick(SELL, Raw(SELL, bid, ask, more), tick), OnTick(SELL, Raw(SELL, bid, ask, some), tick), bid, ask);
  }

  predicate Rests(side: Side, bid: real, ask: real, aggression: real) {
    bid <= InsideSpread(side, bid, ask, aggression) <= ask
  }

  lemma ToGridIsOnGrid(x: real)
    ensures OnGrid(ToGrid(x))
  {
    WholeRounds(RoundHalfEven(x * GRID_SCALE));
  }

  lemma InsideSpreadIsOnGrid(side: Side, bid: real, ask: real, aggression: real)
    ensures OnGrid(InsideSpread(side, bid, ask, aggression))
  {
    ToGridIsOnGrid(Clamp(OnTick(side, Raw(side, bid, ask, aggression), Tick(Mid(bid, ask))), bid, ask));
  }

  /** Over every side and aggression the limit stays inside the quote exactly when rounding to four
      decimals leaves neither end of the quote. */
  lemma InsideSpreadStaysForAll(bid: real, ask: real)
    requires bid <= ask
    ensures (forall side, aggression: real :: Rests(side, bid, ask, aggression)) <==> bid <= ToGrid(bid) && ToGrid(ask) <= ask
  {
    if bid <= ToGrid(bid) && ToGrid(ask) <= ask {
      ToGridGrows(bid, ask);
      forall side, aggression: real ensures Rests(side, bid, ask, aggression) {
        InsideSpreadStaysExactly(side, bid, ask, aggression);
      }
    } else if bid == ask {
      InsideSpreadIsOnGrid(BUY, bid, ask, 0.0);
      assert !Rests(BUY, bid, ask, 0.0);
    } else {
      var far := EagerEnough(bid, ask);
      InsideSpreadStaysExactly(BUY, bid, ask, far);
      InsideSpreadStaysExactly(SELL, bid, ask, far);
      assert !Rests(BUY, bid, ask, far) || !Rests(SELL, bid, ask, far);
    }
  }

  /** An aggression that reaches two ticks past either end of the quote. */
  lemma EagerEnough(bid: real, ask: real) returns (far: real)
    requires bid < ask
    ensures OnTick(BUY, Raw(BUY, bid, ask, far), Tick(Mid(bid, ask))) > ask
    ensures OnTick(SELL, Raw(SELL, bid, ask, far), Tick(Mid(bid, ask))) < bid
  {
    var tick, half := Tick(Mid(bid, ask)), (ask - bid) / 2.0;
    far := Multiple(half + 2.0 * tick, half);
    assert Raw(BUY, bid, ask, far) == ask + 2.0 * tick && Raw(SELL, bid, ask, far) == bid - 2.0 * tick;
    TicksPast(ask, tick);
    TicksPast(bid, tick);
  }

  lemma Multiple(x: real, y: real) returns (times: real)
    requires y > 0.0
    ensures times * y == x
  {
    times := x / y;
  }

  lemma TicksPast(end: real, tick: real)
    requires tick > 0.0
    ensures OnTick(BUY, end + 2.0 * tick, tick) > end && OnTick(SELL, end - 2.0 * tick, tick) < end
  {
    var up, down := Ticks(BUY, end + 2.0 * tick, tick), Ticks(SELL, end - 2.0 * tick, tick);
    var count := end / tick;
    QuotientIs(tick, count + 2.0, end + 2.0 * tick);
    QuotientIs(tick, count - 2.0, end - 2.0 * tick);
    StrictScale(count, up as real, tick);
    StrictScale(down as real, count, tick);
  }

  /** Rounding an end of the quote leaves it inside the quote. */
  predicate EndRests(end: real, bid: real, ask: real) {
    bid <= ToGrid(end) <= ask
  }

  /** Over the aggressions that settings allow, from the midpoint to the far side, an end of the quote
      matters exactly when the ticks reached there lie beyond it. */
  lemma InsideSpreadStaysAsConfigured(bid: real, ask: real)
    requires bid <= ask
    ensures (forall side, aggression: real | 0.0 <= aggression <= 1.0 :: Rests(side, bid, ask, aggression)) <==>
              var tick := Tick(Mid(bid, ask));
              && (OnTick(BUY, Mid(bid, ask), tick) < bid || OnTick(SELL, bid, tick) < bid ==> EndRests(bid, bid, ask))
              && (OnTick(SELL, Mid(bid, ask), tick) > ask || OnTick(BUY, ask, tick) > ask ==> EndRests(ask, bid, ask))
  {
    var tick, mid := Tick(Mid(bid, ask)), Mid(bid, ask);
    assert Raw(BUY, bid, ask, 0.0) == mid == Raw(SELL, bid, ask, 0.0) && Raw(BUY, bid, ask, 1.0) == ask && Raw(SELL, bid, ask, 1.0) == bid;
    if forall side, aggression: real | 0.0 <= aggression <= 1.0 :: Rests(side, bid, ask, aggression) {
      assert Rests(BUY, bid, ask, 0.0) && Rests(BUY, bid, ask, 1.0) && Rests(SELL, bid, ask, 0.0) && Rests(SELL, bid, ask, 1.0);
      InsideSpreadStaysExactly(BUY, bid, ask, 0.0);
      InsideSpreadStaysExactly(BUY, bid, ask, 1.0);
      InsideSpreadStaysExactly(SELL, bid, ask, 0.0);
      InsideSpreadStaysExactly(SELL, bid, ask, 1.0);
    }
    forall side, aggression: real | 0.0 <= aggression <= 1.0
      ensures var reached := OnTick(side, Raw(side, bid, ask, aggression), tick);
              && (if side == BUY then OnTick(BUY, mid, tick) <= reached <= OnTick(BUY, ask, tick)
                  else OnTick(SELL, bid, tick) <= reached <= OnTick(SELL, mid, tick))
              && (Rests(side, bid, ask, aggression) <==>
                    (if reached < bid then EndRests(bid, bid, ask) else if reached > ask then EndRests(ask, bid, ask) else true))
    {
      ReachedTicks(side, bid, ask, aggression);
      InsideSpreadStaysExactly(side, bid, ask, aggression);
    }
  }

  lemma ReachedTicks(side: Side, bid: real, ask: real, aggression: real)
    requires bid <= ask && 0.0 <= aggression <= 1.0
    ensures var tick, mid := Tick(Mid(bid, ask)), Mid(bid, ask);
            var reached := OnTick(side, Raw(side, bid, ask, aggression), tick);
            if side == BUY then OnTick(BUY, mid, tick) <= reached <= OnTick(BUY, ask, tick)
            else OnTick(SELL, bid, tick) <= reached <= OnTick(SELL, mid, tick)
  {
    var tick, raw := Tick(Mid(bid, ask)), Raw(side, bid, ask, aggression);
    RawOrder(bid, ask, 0.0, aggression);
    RawOrder(bid, ask, aggression, 1.0);
    if side == BUY {
      OnTickOrder(BUY, Mid(bid, ask), raw, tick);
      OnTickOrder(BUY, raw, ask, tick);
    } else {
      OnTickOrder(SELL, bid, raw, tick);
      OnTickOrder(SELL, raw, Mid(bid, ask), tick);
    }
  }

  lemma RawOrder(bid: real, ask: real, some: real, more: real)
    requires bid <= ask && some <= more
    ensures Raw(BUY, bid, ask, some) <= Raw(BUY, bid, ask, more)
    ensures Raw(SELL, bid, ask, some) >= Raw(SELL, bid, ask, more)
  {
    if bid < ask {
      ScaleOrder(some, more, (ask - bid) / 2.0);
    }
  }

  lemma OnTickOrder(side: Side, x: real, y: real, tick: real)
    requires x <= y && tick > 0.0
    ensures OnTick(side, x, tick) <= OnTick(side, y, tick)
  {
    DivOrder(x, y, tick);
    TicksOrder(side, x, y, x / tick, y / tick, tick);
    ScaleOrder(Ticks(side, x, tick) as real, Ticks(side, y, tick) as real, tick);
  }

  lemma TicksOrder(side: Side, x: real, y: real, a: real, b: real, tick: real)
    requires tick > 0.0 && a == x / tick && b == y / tick && a <= b
    ensures Ticks(side, x, tick) <= Ticks(side, y, tick)
  {
    FloorOrder(a + COUNT_EPS, b + COUNT_EPS);
    FloorOrder(COUNT_EPS - b, COUNT_EPS - a);
  }

  lemma ClampOrder(x: real, y: real, bid: real, ask: real)
    requires x <= y
    ensures ToGrid(Clamp(x, bid, ask)) <= ToGrid(Clamp(y, bid, ask))
  {
    ToGridGrows(Clamp(x, bid, ask), Clamp(y, bid, ask));
  }

  // ---- choosing a price ----

  function SpreadOf(q: Quote): Option<real> {
    if q.spreadBps.Some? then q.spreadBps
    else if q.bid.Some? && q.ask.Some? && q.bid.value > 0.0 && q.ask.value > 0.0
    then Some((q.ask.value - q.bid.value) / Mid(q.bid.value, q.ask.value) * 10000.0)
    else None
  }

  predicate Positive(x: Option<real>) {
    x.Some? && x.value > 0.0
  }

  /** A reference price, and whether it is the midpoint of a wide spread. */
  datatype Reference = Reference(price: real, wide: bool)

  predicate Crossed(q: Quote) {
    || (q.bid.Some? && q.ask.Some? && q.bid.value > q.ask.value)
    || (q.spreadBps.Some? && q.spreadBps.value < 0.0)
  }

  function SelectPrice(q: Quote, side: Side, s: Pricing, allowWide: bool): Option<Reference> {
    if q.unresolved then None
    else if q.age.Some? && q.age.value < 0.0 then None
    else if Crossed(q) then None
    else if q.delayed && !s.allowDelayed then None
    else if q.age.None? || q.age.value > s.maxAge then None
    else if s.basis.LastPrice? then
      if Positive(q.last) then Some(Reference(q.last.value, false)) else None
    else if s.basis.Midpoint? && !(Positive(q.bid) && Positive(q.ask)) then None
    else if s.basis.SideOfMarket? && !Positive(if side == BUY then q.ask else q.bid) then None
    else
      var spread := SpreadOf(q);
      if spread.Some? && spread.value > s.maxSpreadBps then
        if allowWide && q.bid.Some? && q.ask.Some? && spread.value <= s.wideSpreadMaxBps
        then Some(Reference(Mid(q.bid.value, q.ask.value), true))
        else None
      else if s.basis.Midpoint? then Some(Reference(Mid(q.bid.value, q.ask.value), false))
      else Some(Reference(if side == BUY then q.ask.value else q.bid.value, false))
  }

  /** Up by the offset for a buy, down for a sell. */
  function OffsetFactor(side: Side, offsetBps: real): (factor: real)
    ensures (if side == BUY then factor - 1.0 else 1.0 - factor) * 10000.0 == offsetBps
  {
    if side == BUY then 1.0 + offsetBps / 10000.0 else 1.0 - offsetBps / 10000.0
  }

  function OffsetLimit(side: Side, price: real, offsetBps: real): real {
    RoundTo(price * OffsetFactor(side, offsetBps), CENT_SCALE)
  }

  /** Reference and limit price from one quote.  A first order passes its aggression and rests inside
      the spread; a reconcile replace passes none. */
  function PriceFromQuote(q: Quote, side: Side, s: Pricing, offsetBps: real, allowWide: bool,
                          aggression: Option<real>): Option<(real, real)> {
    var selected := SelectPrice(q, side, s, allowWide);
    if selected.None? then None
    else
      var twoSided := q.bid.Some? && q.ask.Some?;
      var price := selected.value.price;
      if aggression.Some? && twoSided && ((s.basis.SideOfMarket? && !selected.value.wide) || selected.value.wide)
      then Some((price, InsideSpread(side, q.bid.value, q.ask.value, aggression.value)))
      else if selected.value.wide && twoSided then Some((price, InsideSpread(side, q.bid.value, q.ask.value, 1.0)))
      else Some((price, OffsetLimit(side, price, offsetBps)))
  }

  /** The trade repriced off a fresh quote, or nothing when a check fails (a midpoint of zero prices
      nothing).  A buy is resized from its approved notional; a sell keeps its approved share count. */
  function Repriced(t: Trade, quotes: map<string, Quote>, s: Pricing, allowWide: bool): Option<Trade> {
    if t.ticker !in quotes then None
    else SizedAt(t, PriceFromQuote(quotes[t.ticker], t.side, s, s.limitOffsetBps, allowWide, Some(s.aggression)),
                 Resolve(t.ticker, s.rules), s.maxOrderNotional)
  }

  function SizedAt(t: Trade, priced: Option<(real, real)>, rule: Rule, cap: real): Option<Trade> {
    if priced.None? || priced.value.0 == 0.0 then None
    else Sized(t, priced.value.0, priced.value.1, rule, cap)
  }

  /** The executable quantity at a price: what was approved to be sold, or what the approved notional buys. */
  function QuantityAt(t: Trade, price: real, rule: Rule): real
    requires price != 0.0
  {
    RoundedQuantity(if t.side == SELL then t.quantity else t.notional / price, t.side, rule)
  }

  function Sized(t: Trade, price: real, limit: real, rule: Rule, cap: real): Option<Trade>
    requires price != 0.0
  {
    var quantity := QuantityAt(t, price, rule);
    if quantity <= 0.0 || quantity < rule.minQuantity then None
    else if limit <= 0.0 || quantity * Max(price, limit) > cap then None
    else Some(OrderedAt(t, quantity, price, limit))
  }

  function OrderedAt(t: Trade, quantity: real, price: real, limit: real): Trade {
    t.(quantity := quantity, notional := quantity * price, referencePrice := price, limitPrice := Some(limit))
  }

  /** A sell's quantity after rounding never exceeds what was approved; fractional shares stay. */
  lemma SellWithin(quantity: real, rule: Rule)
    requires quantity >= 0.0 && (rule == WHOLE_SHARE || rule == FRACTIONAL)
    ensures RoundedQuantity(quantity, SELL, rule) <= quantity
  {
    if rule == WHOLE_SHARE {
      WholeShareRounding(quantity, rule);
    }
  }

  lemma BuyWithin(notional: real, price: real, rule: Rule)
    requires notional >= 0.0 && price != 0.0 && (rule == WHOLE_SHARE || rule == FRACTIONAL)
    requires RoundedQuantity(notional / price, BUY, rule) > 0.0
    ensures price > 0.0
    ensures AroundNotional(RoundedQuantity(notional / price, BUY, rule), price, notional, rule)
  {
    QuotientSign(notional, price);
    BuyWithinRaw(notional / price, notional, price, rule);
  }

  /** Within half a share of the notional; exactly it when shares are fractional. */
  predicate AroundNotional(quantity: real, price: real, notional: real, rule: Rule) {
    if rule.allowsFractional then quantity * price == notional
    else quantity * price - 0.5 * price <= notional <= quantity * price + 0.5 * price
  }

  lemma BuyWithinRaw(raw: real, notional: real, price: real, rule: Rule)
    requires raw * price == notional && (if price > 0.0 then raw >= 0.0 else raw <= 0.0)
    requires price != 0.0 && (rule == WHOLE_SHARE || rule == FRACTIONAL)
    requires RoundedQuantity(raw, BUY, rule) > 0.0
    ensures price > 0.0
    ensures AroundNotional(RoundedQuantity(raw, BUY, rule), price, notional, rule)
  {
    if rule == WHOLE_SHARE {
      IncrementOne((raw + 0.5).Floor);
      if raw >= 0.0 {
        WholeShareRounding(raw, rule);
        if price > 0.0 {
          HalfBelow(RoundedQuantity(raw, BUY, rule), raw, price, notional);
          HalfAbove(RoundedQuantity(raw, BUY, rule), raw, price, notional);
        }
      } else {
        FloorOrder(raw + 0.5, 0.5);
      }
    }
  }

  lemma HalfBelow(q: real, raw: real, price: real, notional: real)
    requires q <= raw + 0.5 && price > 0.0 && raw * price == notional
    ensures q * price <= notional + 0.5 * price
  {
    ScaleOrder(q, raw + 0.5, price);
    assert (raw + 0.5) * price == notional + 0.5 * price;
  }

  lemma HalfAbove(q: real, raw: real, price: real, notional: real)
    requires raw - 0.5 <= q && price > 0.0 && raw * price == notional
    ensures notional - 0.5 * price <= q * price
  {
    ScaleOrder(raw - 0.5, q, price);
    assert (raw - 0.5) * price == notional - 0.5 * price;
  }

  lemma CapCovers(quantity: real, price: real, limit: real, cap: real)
    requires quantity > 0.0 && quantity * Max(price, limit) <= cap
    ensures quantity * price <= cap && quantity * limit <= cap
  {
    ScaleOrder(price, Max(price, limit), quantity);
    ScaleOrder(limit, Max(price, limit), quantity);
  }

  predicate UnderCap(r: Trade, cap: real) {
    && r.limitPrice.Some? && r.limitPrice.value > 0.0
    && r.quantity * r.referencePrice <= cap && r.quantity * r.limitPrice.value <= cap
  }

  /** Never more shares sold than approved, and a whole-share buy worth the approved notional to
      within half a share. */
  predicate ApprovedSize(t: Trade, r: Trade, rule: Rule) {
    && 0.0 < r.quantity && r.quantity >= rule.minQuantity
    && (t.side == SELL ==> r.quantity <= t.quantity)
    && (t.side == BUY ==> r.referencePrice > 0.0 && AroundNotional(r.quantity, r.referencePrice, t.notional, rule))
  }

  lemma SizedAsApproved(t: Trade, price: real, limit: real, rule: Rule, cap: real)
    requires t.quantity >= 0.0 && t.notional >= 0.0 && price != 0.0 && (rule == WHOLE_SHARE || rule == FRACTIONAL)
    requires Sized(t, price, limit, rule, cap).Some?
    ensures ApprovedSize(t, Sized(t, price, limit, rule, cap).value, rule)
  {
    if t.side == SELL {
      SellWithin(t.quantity, rule);
    } else {
      BuyWithin(t.notional, price, rule);
    }
  }

  lemma SizedUnderCap(t: Trade, price: real, limit: real, rule: Rule, cap: real)
    requires price != 0.0 && Sized(t, price, limit, rule, cap).Some?
    ensures UnderCap(Sized(t, price, limit, rule, cap).value, cap)
  {
    CapCovers(Sized(t, price, limit, rule, cap).value.quantity, price, limit, cap);
  }

  /** What survives repricing is the same order, sized as approved and under the order cap. */
  lemma RepricedWithinApproval(t: Trade, quotes: map<string, Quote>, s: Pricing, allowWide: bool)
    requires StandardRules(s.rules) && t.quantity >= 0.0 && t.notional >= 0.0
    requires Repriced(t, quotes, s, allowWide).Some?
    ensures var r := Repriced(t, quotes, s, allowWide).value;
            && r.orderRef == t.orderRef && r.ticker == t.ticker && r.side == t.side
            && ApprovedSize(t, r, Resolve(t.ticker, s.rules)) && UnderCap(r, s.maxOrderNotional)
  {
    var (price, limit) := PriceFromQuote(quotes[t.ticker], t.side, s, s.limitOffsetBps, allowWide, Some(s.aggression)).value;
    SizedAsApproved(t, price, limit, Resolve(t.ticker, s.rules), s.maxOrderNotional);
    SizedUnderCap(t, price, limit, Resolve(t.ticker, s.rules), s.maxOrderNotional);
  }

  lemma SizedPlanned(t: Trade, price: real, limit: real, rule: Rule, cap: real)
    requires t.side == BUY && t.quantity >= 0.0 && t.notional >= 0.0 && price != 0.0
    requires rule == WHOLE_SHARE || rule == FRACTIONAL
    requires Sized(t, price, limit, rule, cap).Some?
    ensures Planned(Sized(t, price, limit, rule, cap).value)
  {
    SizedAsApproved(t, price, limit, rule, cap);
  }

  /** A repriced buy is again worth its quantity at its reference price. */
  lemma RepricedPlanned(t: Trade, quotes: map<string, Quote>, s: Pricing, allowWide: bool)
    requires StandardRules(s.rules) && t.side == BUY && t.quantity >= 0.0 && t.notional >= 0.0
    requires Repriced(t, quotes, s, allowWide).Some?
    ensures Planned(Repriced(t, quotes, s, allowWide).value)
  {
    var (price, limit) := PriceFromQuote(quotes[t.ticker], t.side, s, s.limitOffsetBps, allowWide, Some(s.aggression)).value;
    SizedPlanned(t, price, limit, Resolve(t.ticker, s.rules), s.maxOrderNotional);
  }

  /** Under side-of-market pricing a first order off a two-sided quote rests inside that quote. */
  lemma RepricedRestsInside(t: Trade, quotes: map<string, Quote>, s: Pricing, allowWide: bool)
    requires Repriced(t, quotes, s, allowWide).Some? && s.basis.SideOfMarket?
    requires quotes[t.ticker].bid.Some? && quotes[t.ticker].ask.Some?
    requires OnGrid(quotes[t.ticker].bid.value) && OnGrid(quotes[t.ticker].ask.value)
    ensures quotes[t.ticker].bid.value <= Repriced(t, quotes, s, allowWide).value.limitPrice.value <= quotes[t.ticker].ask.value
  {
    var q := quotes[t.ticker];
    InsideSpreadStays(t.side, q.bid.value, q.ask.value, s.aggression);
  }

  // ---- which quotes price a trade, and at what price ----

  /** The quote's spread, as given or else between its positive sides, in basis points of the midpoint. */
  predicate WiderThan(q: Quote, bps: real) {
    if q.spreadBps.Some? then q.spreadBps.value > bps
    else
      && q.bid.Some? && q.bid.value > 0.0 && q.ask.Some? && q.ask.value > 0.0
      && 20000.0 * (q.ask.value - q.bid.value) > bps * (q.bid.value + q.ask.value)
  }

  /** A fresh, uncrossed quote of a resolved contract with the prices that the basis needs; a wide one only
      when that is allowed, if it has both sides. */
  predicate SoundFor(q: Quote, side: Side, s: Pricing, allowWide: bool) {
    && !q.unresolved && (q.delayed ==> s.allowDelayed)
    && q.age.Some? && 0.0 <= q.age.value <= s.maxAge
    && (q.bid.Some? && q.ask.Some? ==> q.bid.value <= q.ask.value) && (q.spreadBps.Some? ==> q.spreadBps.value >= 0.0)
    && (s.basis.LastPrice? ==> q.last.Some? && q.last.value > 0.0)
    && (s.basis.Midpoint? || (s.basis.SideOfMarket? && side == BUY) ==> q.ask.Some? && q.ask.value > 0.0)
    && (s.basis.Midpoint? || (s.basis.SideOfMarket? && side == SELL) ==> q.bid.Some? && q.bid.value > 0.0)
    && (!s.basis.LastPrice? && WiderThan(q, s.maxSpreadBps) ==>
          allowWide && q.bid.Some? && q.ask.Some? && !WiderThan(q, s.wideSpreadMaxBps))
  }

  /** The reference: the last price, the midpoint, or the side of the market that the order would take; off
      a wide quote, the midpoint. */
  predicate ReferenceAt(q: Quote, side: Side, s: Pricing, price: real) {
    if s.basis.LastPrice? then q.last == Some(price)
    else if s.basis.Midpoint? || WiderThan(q, s.maxSpreadBps) then q.bid.Some? && q.ask.Some? && 2.0 * price == q.bid.value + q.ask.value
    else if side == BUY then q.ask == Some(price)
    else q.bid == Some(price)
  }

  /** The limit: inside the spread of a two-sided quote when the market's side is the basis or the quote is
      wide, and else off the reference. */
  predicate LimitAt(q: Quote, side: Side, s: Pricing, price: real, limit: real) {
    if q.bid.Some? && q.ask.Some? && !s.basis.LastPrice? && (s.basis.SideOfMarket? || WiderThan(q, s.maxSpreadBps))
    then limit == InsideSpread(side, q.bid.value, q.ask.value, s.aggression)
    else limit == OffsetLimit(side, price, s.limitOffsetBps)
  }

  lemma SpreadIsWide(q: Quote, bps: real)
    ensures SpreadOf(q).Some? && SpreadOf(q).value > bps <==> WiderThan(q, bps)
  {
    if q.spreadBps.None? && q.bid.Some? && q.ask.Some? && q.bid.value > 0.0 && q.ask.value > 0.0 {
      RatioAbove(q.ask.value - q.bid.value, q.bid.value + q.ask.value, bps);
    }
  }

  lemma RatioAbove(gap: real, sum: real, bps: real)
    requires sum > 0.0
    ensures gap / (sum / 2.0) * 10000.0 > bps <==> 20000.0 * gap > bps * sum
  {
    var ratio := gap / (sum / 2.0) * 10000.0;
    assert ratio * sum == 20000.0 * gap by {
      assert gap / (sum / 2.0) * (sum / 2.0) == gap;
    }
    if ratio > bps {
      StrictScale(bps, ratio, sum);
    } else {
      ScaleOrder(ratio, bps, sum);
    }
  }

  /** A quote is priced exactly when it is sound, and at its reference. */
  lemma PricedExactly(q: Quote, side: Side, s: Pricing, allowWide: bool)
    ensures SelectPrice(q, side, s, allowWide).Some? <==> SoundFor(q, side, s, allowWide)
    ensures SelectPrice(q, side, s, allowWide).Some? ==> ReferenceAt(q, side, s, SelectPrice(q, side, s, allowWide).value.price)
    ensures SelectPrice(q, side, s, allowWide).Some? ==>
              (SelectPrice(q, side, s, allowWide).value.wide <==> !s.basis.LastPrice? && WiderThan(q, s.maxSpreadBps))
  {
    SpreadIsWide(q, s.maxSpreadBps);
    SpreadIsWide(q, s.wideSpreadMaxBps);
  }

  lemma OneReference(q: Quote, side: Side, s: Pricing, a: real, b: real)
    requires ReferenceAt(q, side, s, a) && ReferenceAt(q, side, s, b)
    ensures a == b
  {
  }

  lemma PricedAndLimited(q: Quote, side: Side, s: Pricing, allowWide: bool)
    ensures var priced := PriceFromQuote(q, side, s, s.limitOffsetBps, allowWide, Some(s.aggression));
            && (priced.Some? <==> SoundFor(q, side, s, allowWide))
            && (priced.Some? ==> ReferenceAt(q, side, s, priced.value.0) && LimitAt(q, side, s, priced.value.0, priced.value.1))
  {
    PricedExactly(q, side, s, allowWide);
  }

  /** An order at this price and limit is of a tradable size and under the cap at both. */
  predicate Orderable(t: Trade, price: real, limit: real, rule: Rule, cap: real) {
    && price != 0.0 && limit > 0.0
    && var quantity := QuantityAt(t, price, rule);
       quantity > 0.0 && quantity >= rule.minQuantity && quantity * price <= cap && quantity * limit <= cap
  }

  lemma SizedExactly(t: Trade, price: real, limit: real, rule: Rule, cap: real)
    requires price != 0.0
    ensures Sized(t, price, limit, rule, cap).Some? <==> Orderable(t, price, limit, rule, cap)
    ensures Sized(t, price, limit, rule, cap).Some? ==>
              Sized(t, price, limit, rule, cap).value == OrderedAt(t, QuantityAt(t, price, rule), price, limit)
  {
    var quantity := QuantityAt(t, price, rule);
    if quantity > 0.0 && quantity * Max(price, limit) <= cap {
      CapCovers(quantity, price, limit, cap);
    }
  }

  /** The quote's reference and limit for the trade, at which it may be ordered. */
  predicate OrderableAt(t: Trade, q: Quote, s: Pricing, price: real, limit: real) {
    && ReferenceAt(q, t.side, s, price) && LimitAt(q, t.side, s, price, limit)
    && Orderable(t, price, limit, Resolve(t.ticker, s.rules), s.maxOrderNotional)
  }

  ghost predicate MayBeOrdered(t: Trade, q: Quote, s: Pricing) {
    exists price, limit :: OrderableAt(t, q, s, price, limit)
  }

  /** The trade repriced at the quote's reference and limit: a sell for what was approved, a buy for what the
      approved notional pays at the reference. */
  predicate RepricedAt(t: Trade, r: Trade, q: Quote, s: Pricing) {
    && r.limitPrice.Some? && OrderableAt(t, q, s, r.referencePrice, r.limitPrice.value)
    && r == OrderedAt(t, QuantityAt(t, r.referencePrice, Resolve(t.ticker, s.rules)), r.referencePrice, r.limitPrice.value)
  }

  /** A trade is repriced exactly when its quote is sound and the order at the quote's reference and limit is
      of a tradable size under the cap. */
  lemma RepricedExactly(t: Trade, quotes: map<string, Quote>, s: Pricing, allowWide: bool)
    ensures Repriced(t, quotes, s, allowWide).Some? <==>
              t.ticker in quotes && SoundFor(quotes[t.ticker], t.side, s, allowWide) && MayBeOrdered(t, quotes[t.ticker], s)
    ensures Repriced(t, quotes, s, allowWide).Some? ==> RepricedAt(t, Repriced(t, quotes, s, allowWide).value, quotes[t.ticker], s)
  {
    if t.ticker in quotes {
      var q := quotes[t.ticker];
      PricedAndLimited(q, t.side, s, allowWide);
      var sized := SizedFrom(t, q, s, PriceFromQuote(q, t.side, s, s.limitOffsetBps, allowWide, Some(s.aggression)));
      assert sized == Repriced(t, quotes, s, allowWide);
    }
  }

  lemma SizedFrom(t: Trade, q: Quote, s: Pricing, priced: Option<(real, real)>) returns (sized: Option<Trade>)
    requires priced.Some? ==> ReferenceAt(q, t.side, s, priced.value.0) && LimitAt(q, t.side, s, priced.value.0, priced.value.1)
    ensures sized == SizedAt(t, priced, Resolve(t.ticker, s.rules), s.maxOrderNotional)
    ensures priced.Some? ==> (sized.Some? <==> MayBeOrdered(t, q, s))
    ensures sized.Some? ==> priced.Some? && RepricedAt(t, sized.value, q, s)
  {
    sized := SizedAt(t, priced, Resolve(t.ticker, s.rules), s.maxOrderNotional);
    if priced.Some? {
      var (price, limit) := priced.value;
      if price != 0.0 {
        SizedExactly(t, price, limit, Resolve(t.ticker, s.rules), s.maxOrderNotional);
      }
      OnlyOrderableAt(t, q, s, price, limit);
    }
  }

  lemma OnlyOrderableAt(t: Trade, q: Quote, s: Pricing, price: real, limit: real)
    requires ReferenceAt(q, t.side, s, price) && LimitAt(q, t.side, s, price, limit)
    ensures MayBeOrdered(t, q, s) <==> Orderable(t, price, limit, Resolve(t.ticker, s.rules), s.maxOrderNotional)
  {
    if p, l :| OrderableAt(t, q, s, p, l) {
      OneReference(q, t.side, s, p, price);
    }
    assert OrderableAt(t, q, s, price, limit) <==> Orderable(t, price, limit, Resolve(t.ticker, s.rules), s.maxOrderNotional);
  }

  /** A buy goes by the ask and a sell by the bid, off a quote that is not wide. */
  lemma SideOfMarketPrice(t: Trade, quotes: map<string, Quote>, s: Pricing, allowWide: bool)
    requires s.basis.SideOfMarket? && Repriced(t, quotes, s, allowWide).Some?
    requires !WiderThan(quotes[t.ticker], s.maxSpreadBps)
    ensures Some(Repriced(t, quotes, s, allowWide).value.referencePrice)
         == if t.side == BUY then quotes[t.ticker].ask else quotes[t.ticker].bid
  {
    RepricedExactly(t, quotes, s, allowWide);
  }

  /** An offset limit is on a whole cent, within half a cent of the reference times the factor of the offset. */
  lemma OffsetLimitIs(side: Side, price: real, bps: real)
    ensures var limit := OffsetLimit(side, price, bps);
            && limit * 100.0 == RoundHalfEven(limit * 100.0) as real
            && -0.005 <= limit - price * OffsetFactor(side, bps) <= 0.005
  {
    NearestCent(price * OffsetFactor(side, bps));
  }

  lemma NearestCent(x: real)
    ensures RoundTo(x, CENT_SCALE) * 100.0 == RoundHalfEven(RoundTo(x, CENT_SCALE) * 100.0) as real
    ensures -0.005 <= RoundTo(x, CENT_SCALE) - x <= 0.005
  {
    var n := RoundHalfEven(x * 100.0);
    WholeRounds(n);
    assert n as real - 0.5 <= x * 100.0 <= n as real + 0.5;
  }

  /** The passive tick is the last one not beyond the target. */
  lemma OnTickPassive(side: Side, raw: real, tick: real)
    requires tick > 0.0
    ensures side == BUY ==> raw - tick < OnTick(side, raw, tick) <= raw + COUNT_EPS * tick
    ensures side == SELL ==> raw - COUNT_EPS * tick <= OnTick(side, raw, tick) < raw + tick
  {
    var count := QuotientScales(raw, tick);
    if side == BUY {
      var scaled, reached := TickBounds(count, (count + COUNT_EPS).Floor as real, tick);
      assert scaled == raw && reached == OnTick(side, raw, tick);
    } else {
      Negated(count, tick);
      Negated((COUNT_EPS - count).Floor as real, tick);
      var scaled, reached := TickBounds(-count, (COUNT_EPS - count).Floor as real, tick);
      assert scaled == -raw && reached == -OnTick(side, raw, tick);
    }
  }

  lemma Negated(count: real, tick: real)
    ensures (-count) * tick == -(count * tick)
  {
  }

  lemma QuotientScales(raw: real, tick: real) returns (count: real)
    requires tick > 0.0
    ensures count == raw / tick && count * tick == raw
  {
    count := raw / tick;
  }

  lemma TickBounds(count: real, n: real, tick: real) returns (scaled: real, reached: real)
    requires tick > 0.0 && n <= count + COUNT_EPS < n + 1.0
    ensures scaled == count * tick && reached == n * tick
    ensures scaled - tick < reached <= scaled + COUNT_EPS * tick
  {
    scaled, reached := TickAtMost(count, n, tick);
    var scaled', reached' := TickAbove(count, n, tick);
    assert scaled' == scaled && reached' == reached;
  }

  lemma TickAtMost(count: real, n: real, tick: real) returns (scaled: real, reached: real)
    requires tick > 0.0 && n <= count + COUNT_EPS
    ensures scaled == count * tick && reached == n * tick && reached <= scaled + COUNT_EPS * tick
  {
    ScaleOrder(n, count + COUNT_EPS, tick);
    DistributeSum(count, COUNT_EPS, tick);
    scaled, reached := count * tick, n * tick;
  }

  lemma TickAbove(count: real, n: real, tick: real) returns (scaled: real, reached: real)
    requires tick > 0.0 && count < n + 1.0
    ensures scaled == count * tick && reached == n * tick && scaled - tick < reached
  {
    StrictScale(count, n + 1.0, tick);
    DistributeSum(n, 1.0, tick);
    scaled, reached := count * tick, n * tick;
  }

  /** Inside the spread of a quote on the four-decimal grid, the limit is the midpoint moved by the aggression
      towards the far side, to the last tick not beyond that. */
  lemma InsideSpreadNearTarget(side: Side, bid: real, ask: real, aggression: real)
    requires bid <= ask && OnGrid(bid) && OnGrid(ask) && 0.0 <= aggression <= 1.0
    ensures var limit, mid, tick := InsideSpread(side, bid, ask, aggression), Mid(bid, ask), Tick(Mid(bid, ask));
            var moved := aggression * HalfSpread(bid, ask);
            && (side == BUY ==> mid + moved - tick < limit <= mid + moved + COUNT_EPS * tick)
            && (side == SELL ==> mid - moved - COUNT_EPS * tick <= limit < mid - moved + tick)
  {
    var raw, tick := Raw(side, bid, ask, aggression), Tick(Mid(bid, ask));
    RawWithin(side, bid, ask, aggression, Mid(bid, ask), HalfSpread(bid, ask), aggression * HalfSpread(bid, ask), raw);
    TicksOnGrid(Ticks(side, raw, tick), Mid(bid, ask));
    NearRaw(side, bid, ask, raw, tick, OnTick(side, raw, tick));
  }

  lemma RawWithin(side: Side, bid: real, ask: real, aggression: real, mid: real, half: real, moved: real, raw: real)
    requires 0.0 <= aggression <= 1.0 && half >= 0.0 && mid + half == ask && mid - half == bid
    requires moved == aggression * half
    requires raw == if side == BUY then mid + moved else mid - moved
    ensures bid <= raw <= ask
  {
    MovedWithin(aggression, half);
  }

  lemma NearRaw(side: Side, bid: real, ask: real, raw: real, tick: real, x: real)
    requires bid <= raw <= ask && OnGrid(bid) && OnGrid(ask) && tick > 0.0 && x == OnTick(side, raw, tick) && OnGrid(x)
    ensures var limit := ToGrid(Clamp(x, bid, ask));
            && (side == BUY ==> raw - tick < limit <= raw + COUNT_EPS * tick)
            && (side == SELL ==> raw - COUNT_EPS * tick <= limit < raw + tick)
  {
    OnTickPassive(side, raw, tick);
    ClampCases(x, bid, ask);
    ClampNear(x, bid, ask, raw, COUNT_EPS * tick, tick);
  }

  lemma MovedWithin(aggression: real, half: real)
    requires 0.0 <= aggression <= 1.0 && half >= 0.0
    ensures 0.0 <= aggression * half <= half
  {
  }

  lemma ClampNear(x: real, bid: real, ask: real, raw: real, slack: real, tick: real)
    requires bid <= raw <= ask && slack > 0.0 && tick > 0.0
    ensures raw - tick < x <= raw + slack ==> raw - tick < Clamp(x, bid, ask) <= raw + slack
    ensures raw - slack <= x < raw + tick ==> raw - slack <= Clamp(x, bid, ask) < raw + tick
  {
  }

  /** A trade is priced only off a fresh, uncrossed quote of a resolved contract, and off a wide one
      only when that is allowed, at its midpoint. */
  lemma OnlySoundQuotesPrice(t: Trade, quotes: map<string, Quote>, s: Pricing, allowWide: bool)
    requires Repriced(t, quotes, s, allowWide).Some?
    ensures var q := quotes[t.ticker];
            && q.age.Some? && 0.0 <= q.age.value <= s.maxAge && !q.unresolved && !Crossed(q) && (q.delayed ==> s.allowDelayed)
    ensures var q := quotes[t.ticker];
            !s.basis.LastPrice? && SpreadOf(q).Some? && SpreadOf(q).value > s.maxSpreadBps ==>
              && allowWide && SpreadOf(q).value <= s.wideSpreadMaxBps && q.bid.Some? && q.ask.Some?
              && Repriced(t, quotes, s, allowWide).value.referencePrice == Mid(q.bid.value, q.ask.value)
  {
  }
}
