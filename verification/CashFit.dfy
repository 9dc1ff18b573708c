/** Fitting buys to the cash the broker reports after the sell phase
    (src/poma/execution_manager.py, _fit_buys_to_refreshed_cash and _trim_buys_to_cash). */
module CashFit {
  import opened Models
  import opened RealArithmetic
  import opened ExecutionPolicy

  /** The largest shortfall, as a fraction of the required cash, that is absorbed by trimming. */
  const MAX_TRIM_FRACTION := 0.05

  /** A buy of something, worth its quantity at its reference price. */
  predicate Fundable(t: Trade) {
    Planned(t) && t.side == BUY && t.quantity > 0.0
  }

  predicate AllFundable(buys: seq<Trade>) {
    forall i | 0 <= i < |buys| :: Fundable(buys[i])
  }

  function CeilingOf(x: real): int {
    -((-x).Floor)
  }

  /** How many shares to cut for the given shortfall. */
  function Cut(t: Trade, shortfall: real, increment: real): real
    requires UnitCash(t) != 0.0
  {
    var cut := Min(shortfall / UnitCash(t), t.quantity);
    if increment > 0.0 then CeilingOf(cut / increment - COUNT_EPS) as real * increment else cut
  }

  lemma PerShareIsPrice(t: Trade)
    requires Fundable(t)
    ensures t.BuyCash() / t.quantity == UnitCash(t) > 0.0
    ensures t.BuyCash() == t.quantity * UnitCash(t)
  {
    PlannedBuyCash(t);
    Divides(t.quantity, UnitCash(t));
  }

  /** A smaller quantity of the same buy costs proportionally less. */
  lemma ResizedCost(t: Trade, quantity: real)
    requires Fundable(t) && quantity > 0.0
    ensures Fundable(Resized(t, quantity)) && UnitCash(Resized(t, quantity)) == UnitCash(t)
    ensures Resized(t, quantity).BuyCash() == quantity * UnitCash(t)
  {
    PerShareIsPrice(t);
    PerShareIsPrice(Resized(t, quantity));
  }

  // ---- costliest first ----

  predicate Costlier(buys: seq<Trade>, i: nat, j: nat)
    requires i < |buys| && j < |buys|
  {
    buys[i].BuyCash() > buys[j].BuyCash() || (buys[i].BuyCash() == buys[j].BuyCash() && i < j)
  }

  function Place(i: nat, order: seq<nat>, buys: seq<Trade>): (placed: seq<nat>)
    requires i < |buys| && forall k | 0 <= k < |order| :: order[k] < |buys|
    ensures forall k | 0 <= k < |placed| :: placed[k] == i || placed[k] in order
  {
    if order == [] || Costlier(buys, i, order[0]) then [i] + order else [order[0]] + Place(i, order[1..], buys)
  }

  ghost predicate InOrder(buys: seq<Trade>, order: seq<nat>) {
    && (forall k | 0 <= k < |order| :: order[k] < |buys|)
    && forall j, k | 0 <= j < k < |order| :: Costlier(buys, order[j], order[k])
  }

  predicate Positions(count: nat, order: seq<nat>) {
    (forall k | 0 <= k < |order| :: order[k] < count) && forall j, k | 0 <= j < k < |order| :: order[j] != order[k]
  }

  lemma {:induction false} PlaceKeepsOrder(i: nat, order: seq<nat>, buys: seq<Trade>)
    requires i < |buys| && InOrder(buys, order) && i !in order
    ensures InOrder(buys, Place(i, order, buys)) && |Place(i, order, buys)| == |order| + 1
    ensures forall k :: k in Place(i, order, buys) <==> k == i || k in order
  {
    if order != [] && !Costlier(buys, i, order[0]) {
      PlaceKeepsOrder(i, order[1..], buys);
      var rest := Place(i, order[1..], buys);
      assert order == [order[0]] + order[1..];
      forall k | 0 <= k < |rest| ensures Costlier(buys, order[0], rest[k]) {
        assert rest[k] in rest;
      }
    }
  }

  /** The first `n` positions, costliest first, earlier positions first among equals. */
  function FirstByCash(buys: seq<Trade>, n: nat): (order: seq<nat>)
    requires n <= |buys|
    ensures forall k | 0 <= k < |order| :: order[k] < n
  {
    if n == 0 then [] else Place(n - 1, FirstByCash(buys, n - 1), buys)
  }

  function ByCash(buys: seq<Trade>): seq<nat> {
    FirstByCash(buys, |buys|)
  }

  /** Exactly the first `n` positions. */
  ghost predicate Covers(order: seq<nat>, n: nat) {
    |order| == n && forall k: nat :: k in order <==> k < n
  }

  lemma {:induction false} FirstByCashIsOrdered(buys: seq<Trade>, n: nat)
    requires n <= |buys|
    ensures InOrder(buys, FirstByCash(buys, n)) && Covers(FirstByCash(buys, n), n)
  {
    if n > 0 {
      FirstByCashIsOrdered(buys, n - 1);
      PlaceNext(buys, n - 1, FirstByCash(buys, n - 1));
    }
  }

  lemma PlaceNext(buys: seq<Trade>, n: nat, order: seq<nat>)
    requires n < |buys| && InOrder(buys, order) && Covers(order, n)
    ensures InOrder(buys, Place(n, order, buys)) && Covers(Place(n, order, buys), n + 1)
  {
    PlaceKeepsOrder(n, order, buys);
  }

  /** Every position once, costliest first, earlier positions first among equals. */
  method CostliestFirst(buys: seq<Trade>) returns (order: seq<nat>)
    ensures order == ByCash(buys)
    ensures InOrder(buys, order) && Covers(order, |buys|)
  {
    order := [];
    for i := 0 to |buys|
      invariant order == FirstByCash(buys, i)
    {
      order := Place(i, order, buys);
    }
    FirstByCashIsOrdered(buys, |buys|);
  }

  // ---- trimming ----

  function Times(n: nat, increment: real): real {
    n as real * increment
  }

  /** What trimming may do to one buy: shrink it by whole increments, never below the minimum. */
  ghost predicate Shrunk(before: Trade, after: Trade, rule: Rule) {
    && Fundable(after) && after.quantity <= before.quantity
    && after == Resized(before, after.quantity)
    && (after.quantity != before.quantity ==> after.quantity > QTY_EPS && after.quantity >= rule.minQuantity)
    && (rule.increment > 0.0 ==> exists n: nat :: before.quantity - after.quantity == Times(n, rule.increment))
  }

  ghost predicate AllShrunk(buys: seq<Trade>, trimmed: seq<Trade>, rules: Rules) {
    && |trimmed| == |buys|
    && forall i | 0 <= i < |buys| :: Shrunk(buys[i], trimmed[i], Resolve(buys[i].ticker, rules))
  }

  lemma Unshrunk(t: Trade, rule: Rule)
    requires Fundable(t)
    ensures Shrunk(t, t, rule)
  {
    assert Times(0, rule.increment) == 0.0;
  }

  /** The trade after one cut, or nothing when the cut takes it below its minimum. */
  function CutTrade(t: Trade, shortfall: real, rule: Rule): Option<Trade>
    requires UnitCash(t) != 0.0
  {
    var quantity := t.quantity - Cut(t, shortfall, rule.increment);
    if quantity <= QTY_EPS || quantity < rule.minQuantity then None else Some(Resized(t, quantity))
  }

  /** What the cut is booked as saving. */
  function Saved(t: Trade, shortfall: real, rule: Rule): real
    requires UnitCash(t) != 0.0
  {
    Cut(t, shortfall, rule.increment) * UnitCash(t)
  }

  lemma CutShrinks(t: Trade, shortfall: real, rule: Rule)
    requires Fundable(t) && shortfall > 0.0
    ensures UnitCash(t) > 0.0
    ensures CutTrade(t, shortfall, rule).Some? ==>
              && Shrunk(t, CutTrade(t, shortfall, rule).value, rule)
              && CutTrade(t, shortfall, rule).value.BuyCash() == t.BuyCash() - Cut(t, shortfall, rule.increment) * UnitCash(t)
  {
    PerShareIsPrice(t);
    var want := Min(shortfall / UnitCash(t), t.quantity);
    QuotientPositive(shortfall, UnitCash(t));
    var cut := Cut(t, shortfall, rule.increment);
    if rule.increment > 0.0 {
      CountIsNatural(want, rule.increment);
      assert cut == Times(CeilingOf(want / rule.increment - COUNT_EPS), rule.increment);
    }
    if CutTrade(t, shortfall, rule).Some? {
      ResizedCost(t, t.quantity - cut);
      assert (t.quantity - cut) * UnitCash(t) == t.quantity * UnitCash(t) - cut * UnitCash(t);
    }
  }

  lemma CutAndSave(t: Trade, shortfall: real, rule: Rule) returns (after: Option<Trade>, saved: real)
    requires Fundable(t) && shortfall > 0.0
    ensures UnitCash(t) > 0.0 && after == CutTrade(t, shortfall, rule) && saved == Saved(t, shortfall, rule)
    ensures after.Some? ==> Shrunk(t, after.value, rule) && after.value.BuyCash() == t.BuyCash() - saved
  {
    CutShrinks(t, shortfall, rule);
    after, saved := CutTrade(t, shortfall, rule), Saved(t, shortfall, rule);
  }

  lemma CountIsNatural(want: real, increment: real)
    requires want > 0.0 && increment > 0.0
    ensures CeilingOf(want / increment - COUNT_EPS) >= 0
    ensures CeilingOf(want / increment - COUNT_EPS) as real * increment >= 0.0
  {
    QuotientPositive(want, increment);
    FloorOrder(COUNT_EPS - want / increment, COUNT_EPS);
  }

  lemma {:induction false} ReplacedCash(trades: seq<Trade>, i: nat, t: Trade)
    requires i < |trades|
    ensures BuyCashOf(trades[i := t]) == BuyCashOf(trades) - trades[i].BuyCash() + t.BuyCash()
  {
    if i < |trades| - 1 {
      assert Front(trades[i := t]) == Front(trades)[i := t];
      ReplacedCash(Front(trades), i, t);
    } else {
      assert Front(trades[i := t]) == Front(trades);
    }
  }

  predicate Standard(rule: Rule) {
    rule == WHOLE_SHARE || rule == FRACTIONAL
  }

  /** The price up to which the slack in counting whole shares stays below the slack in dollars. */
  const SLACK_PRICE := 1000.0

  predicate Cheap(t: Trade, rule: Rule) {
    Standard(rule) && (rule == WHOLE_SHARE ==> UnitCash(t) <= SLACK_PRICE)
  }

  /** A surviving cut covers the shortfall to the cent slack and cuts less than one share too much. */
  lemma CutCovers(t: Trade, shortfall: real, rule: Rule)
    requires Fundable(t) && shortfall > 0.0 && Cheap(t, rule)
    requires UnitCash(t) > 0.0 && CutTrade(t, shortfall, rule).Some?
    ensures var saved := Saved(t, shortfall, rule);
            && shortfall - saved <= CASH_EPS
            && (if rule == WHOLE_SHARE then saved - shortfall < UnitCash(t) else saved == shortfall)
  {
    var price, cut := UnitCash(t), Cut(t, shortfall, rule.increment);
    QuotientPositive(shortfall, price);
    var want := shortfall / price;
    WantIsCut(t, want, shortfall, rule);
    if rule == WHOLE_SHARE {
      var needed, booked := CountBounds(want, price, cut);
      assert needed == shortfall && booked == Saved(t, shortfall, rule);
    }
  }

  lemma CountBounds(want: real, price: real, cut: real) returns (needed: real, booked: real)
    requires 0.0 < price <= SLACK_PRICE && cut == CeilingOf(want - COUNT_EPS) as real
    ensures needed == want * price && booked == cut * price
    ensures needed <= booked + CASH_EPS && booked < needed + price
  {
    CoversAtMost(want, price, cut, cut + COUNT_EPS);
    needed, booked := want * price, cut * price;
    assert cut < want + 1.0;
    booked := WastesUnderOne(want, price, cut, want + 1.0, needed);
  }

  lemma CoversAtMost(want: real, price: real, count: real, more: real)
    requires 0.0 < price <= SLACK_PRICE && want <= more && more == count + COUNT_EPS
    ensures want * price <= count * price + CASH_EPS
  {
    ScaleOrder(want, more, price);
    SlackIsSmall(price, count, more);
  }

  lemma WastesUnderOne(want: real, price: real, count: real, next: real, needed: real) returns (booked: real)
    requires 0.0 < price && count < next && next == want + 1.0 && needed == want * price
    ensures booked == count * price && booked < needed + price
  {
    StrictScale(count, next, price);
    OneMore(want, next, price);
    booked := count * price;
  }

  lemma SlackIsSmall(price: real, count: real, more: real)
    requires 0.0 < price <= SLACK_PRICE && more == count + COUNT_EPS
    ensures more * price <= count * price + CASH_EPS
  {
    DistributeSum(count, COUNT_EPS, price);
  }

  lemma OneMore(want: real, next: real, price: real)
    requires next == want + 1.0
    ensures next * price == want * price + price
  {
  }

  /** A surviving cut was not limited by the quantity. */
  lemma WantIsCut(t: Trade, want: real, shortfall: real, rule: Rule)
    requires UnitCash(t) != 0.0 && want == shortfall / UnitCash(t) && Standard(rule)
    requires CutTrade(t, shortfall, rule).Some?
    ensures Cut(t, shortfall, rule.increment) == if rule == WHOLE_SHARE then CeilingOf(want - COUNT_EPS) as real else want
  {
    var cut := Min(want, t.quantity);
    assert cut / 1.0 == cut;
  }

  /** For a whole-share buy one surviving cut is enough whatever the shortfall exactly when a share
      costs at most a thousand dollars. */
  lemma CutCoversExactly(t: Trade)
    requires Fundable(t) && t.quantity >= 1.0 && UnitCash(t) > 0.0
    ensures (forall shortfall: real | shortfall > CASH_EPS && CutTrade(t, shortfall, WHOLE_SHARE).Some? ::
               shortfall - Cut(t, shortfall, 1.0) * UnitCash(t) <= CASH_EPS)
            <==> UnitCash(t) <= SLACK_PRICE
  {
    if UnitCash(t) <= SLACK_PRICE {
      forall shortfall: real | shortfall > CASH_EPS && CutTrade(t, shortfall, WHOLE_SHARE).Some?
        ensures shortfall - Cut(t, shortfall, 1.0) * UnitCash(t) <= CASH_EPS
      {
        CutCovers(t, shortfall, WHOLE_SHARE);
      }
    } else {
      var shortfall := COUNT_EPS * UnitCash(t);
      Divides(UnitCash(t), COUNT_EPS);
      assert shortfall / UnitCash(t) == COUNT_EPS;
      assert Cut(t, shortfall, 1.0) == 0.0;
      assert CutTrade(t, shortfall, WHOLE_SHARE).Some?;
    }
  }

  // ---- the loop ----

  ghost predicate Costliest(buys: seq<Trade>, c: nat) {
    c < |buys| && forall i: nat | i < |buys| && i != c :: Costlier(buys, c, i)
  }

  /** Shrink the costliest buy alone, or give up. */
  function TrimOne(buys: seq<Trade>, cash: real, rules: Rules, c: nat): seq<Trade>
    requires c < |buys| && Fundable(buys[c]) && UnitCash(buys[c]) > 0.0
  {
    var cut := CutTrade(buys[c], BuyCashOf(buys) - cash, Resolve(buys[c].ticker, rules));
    if cut.Some? then buys[c := cut.value] else []
  }

  /** Cut the buys in the given order until the shortfall is gone; nothing if one cannot be cut as far
      as it would have to be, or if there is nothing left to cut. */
  function TrimFrom(trimmed: seq<Trade>, order: seq<nat>, shortfall: real, rules: Rules): seq<Trade>
    requires AllFundable(trimmed) && forall k | 0 <= k < |order| :: order[k] < |trimmed|
    decreases |order|
  {
    if shortfall <= CASH_EPS then trimmed
    else if order == [] then []
    else
      var t := trimmed[order[0]];
      var rule := Resolve(t.ticker, rules);
      var cut := CutTrade(t, shortfall, rule);
      if cut.None? then []
      else TrimFrom(trimmed[order[0] := cut.value], order[1..], shortfall - Saved(t, shortfall, rule), rules)
  }

  function Trimmed(buys: seq<Trade>, cash: real, rules: Rules): seq<Trade>
    requires AllFundable(buys)
  {
    TrimFrom(buys, ByCash(buys), BuyCashOf(buys) - cash, rules)
  }

  /** The loop's state after cutting the first `i` of `order`. */
  ghost predicate Trimming(buys: seq<Trade>, cash: real, rules: Rules, order: seq<nat>, i: nat, shortfall: real,
                           trimmed: seq<Trade>) {
    && i <= |order| && AllShrunk(buys, trimmed, rules)
    && shortfall == BuyCashOf(trimmed) - cash
    && (forall k | i <= k < |order| :: order[k] < |buys| && trimmed[order[k]] == buys[order[k]])
    && (i == 0 ==> trimmed == buys)
  }

  /** What is still to be done from position `i` on leads to `out`. */
  predicate StillToTrim(trimmed: seq<Trade>, order: seq<nat>, i: nat, shortfall: real, rules: Rules, out: seq<Trade>) {
    && i <= |order| && AllFundable(trimmed) && (forall k | 0 <= k < |order| :: order[k] < |trimmed|)
    && TrimFrom(trimmed, order[i..], shortfall, rules) == out
  }

  lemma StillToTrimNext(trimmed: seq<Trade>, order: seq<nat>, i: nat, shortfall: real, rules: Rules, out: seq<Trade>,
                        after: Option<Trade>, saved: real)
    requires StillToTrim(trimmed, order, i, shortfall, rules, out) && i < |order| && shortfall > CASH_EPS
    requires var t := trimmed[order[i]];
             var rule := Resolve(t.ticker, rules);
             after == CutTrade(t, shortfall, rule) && saved == Saved(t, shortfall, rule)
    requires after.Some? ==> Fundable(after.value)
    ensures after.None? ==> out == []
    ensures after.Some? ==> StillToTrim(trimmed[order[i] := after.value], order, i + 1, shortfall - saved, rules, out)
  {
    var rest := order[i..];
    assert rest[0] == order[i] && rest[1..] == order[i + 1..];
    if after.Some? {
      assert out == TrimFrom(trimmed[rest[0] := after.value], rest[1..], shortfall - saved, rules);
    }
  }

  lemma TrimmingStarts(buys: seq<Trade>, cash: real, rules: Rules, order: seq<nat>)
    requires AllFundable(buys) && forall k | 0 <= k < |order| :: order[k] < |buys|
    ensures Trimming(buys, cash, rules, order, 0, BuyCashOf(buys) - cash, buys)
  {
    forall i | 0 <= i < |buys| ensures Shrunk(buys[i], buys[i], Resolve(buys[i].ticker, rules)) {
      Unshrunk(buys[i], Resolve(buys[i].ticker, rules));
    }
  }

  lemma TrimmingNext(buys: seq<Trade>, cash: real, rules: Rules, order: seq<nat>, i: nat, shortfall: real, trimmed: seq<Trade>,
                     after: Trade, saved: real)
    requires Positions(|buys|, order) && i < |order| && Trimming(buys, cash, rules, order, i, shortfall, trimmed)
    requires Shrunk(buys[order[i]], after, Resolve(buys[order[i]].ticker, rules))
    requires after.BuyCash() == buys[order[i]].BuyCash() - saved
    ensures Trimming(buys, cash, rules, order, i + 1, shortfall - saved, trimmed[order[i] := after])
  {
    ReplacedCash(trimmed, order[i], after);
  }

  lemma FirstIsCostliest(buys: seq<Trade>, order: seq<nat>)
    requires InOrder(buys, order) && buys != [] && Covers(order, |buys|)
    ensures order != [] && Costliest(buys, order[0])
  {
    assert 0 in order;
    forall i: nat | i < |buys| && i != order[0] ensures Costlier(buys, order[0], i) {
      assert i in order;
    }
  }

  /** One pass of the loop. */
  method CutOnce(t: Trade, shortfall: real, rule: Rule) returns (after: Option<Trade>, saved: real)
    requires Fundable(t) && shortfall > 0.0
    ensures UnitCash(t) > 0.0 && after == CutTrade(t, shortfall, rule) && saved == Saved(t, shortfall, rule)
    ensures after.Some? ==> Shrunk(t, after.value, rule) && after.value.BuyCash() == t.BuyCash() - saved
    ensures after.Some? && Cheap(t, rule) ==> shortfall - saved <= CASH_EPS
  {
    CutShrinks(t, shortfall, rule);
    after := CutTrade(t, shortfall, rule);
    saved := Cut(t, shortfall, rule.increment) * UnitCash(t);
    if after.Some? && Cheap(t, rule) {
      CutCovers(t, shortfall, rule);
    }
  }

  /** Shrink buys, costliest first, until they fit the cash; give up when one would go below its
      minimum.  What comes out fits, order for order; and when the costliest buy is cheap per share
      it is the only one that shrinks. */
  method TrimBuysToCash(buys: seq<Trade>, cash: real, rules: Rules) returns (out: seq<Trade>)
    requires AllFundable(buys)
    ensures out == Trimmed(buys, cash, rules)
    ensures out != [] ==> AllShrunk(buys, out, rules) && BuyCashOf(out) <= cash + CASH_EPS
    ensures BuyCashOf(buys) - cash <= CASH_EPS ==> out == buys
    ensures buys != [] && BuyCashOf(buys) - cash > CASH_EPS ==>
              exists c: nat :: Costliest(buys, c) && UnitCash(buys[c]) > 0.0
                               && (Cheap(buys[c], Resolve(buys[c].ticker, rules)) ==> out == TrimOne(buys, cash, rules, c))
  {
    var order := CostliestFirst(buys);
    if buys != [] {
      FirstIsCostliest(buys, order);
      PerShareIsPrice(buys[order[0]]);
      if BuyCashOf(buys) - cash > CASH_EPS && Cheap(buys[order[0]], Resolve(buys[order[0]].ticker, rules)) {
        CheapTrims(buys, cash, rules, order);
      }
    }
    ghost var goal := TrimStarts(buys, cash, rules, order);
    out := TrimInOrder(buys, cash, rules, order, goal);
  }

  /** When the costliest buy is cheap per share, cutting it is enough. */
  lemma CheapTrims(buys: seq<Trade>, cash: real, rules: Rules, order: seq<nat>)
    requires AllFundable(buys) && InOrder(buys, order) && order != [] && UnitCash(buys[order[0]]) > 0.0
    requires BuyCashOf(buys) - cash > CASH_EPS && Cheap(buys[order[0]], Resolve(buys[order[0]].ticker, rules))
    ensures TrimFrom(buys, order, BuyCashOf(buys) - cash, rules) == TrimOne(buys, cash, rules, order[0])
  {
    var shortfall, t := BuyCashOf(buys) - cash, buys[order[0]];
    var rule := Resolve(t.ticker, rules);
    var after := CutTrade(t, shortfall, rule);
    if after.Some? {
      CutShrinks(t, shortfall, rule);
      CutCovers(t, shortfall, rule);
    }
    OneCut(buys, order, shortfall, rules, after, Saved(t, shortfall, rule));
  }

  lemma OneCut(buys: seq<Trade>, order: seq<nat>, shortfall: real, rules: Rules, after: Option<Trade>, saved: real)
    requires AllFundable(buys) && order != [] && (forall k | 0 <= k < |order| :: order[k] < |buys|)
    requires shortfall > CASH_EPS
    requires var t := buys[order[0]];
             var rule := Resolve(t.ticker, rules);
             after == CutTrade(t, shortfall, rule) && saved == Saved(t, shortfall, rule)
    requires after.Some? ==> Fundable(after.value) && shortfall - saved <= CASH_EPS
    ensures TrimFrom(buys, order, shortfall, rules) == if after.Some? then buys[order[0] := after.value] else []
  {
  }

  method TrimInOrder(buys: seq<Trade>, cash: real, rules: Rules, order: seq<nat>, ghost goal: seq<Trade>)
    returns (out: seq<Trade>)
    requires StillToTrim(buys, order, 0, BuyCashOf(buys) - cash, rules, goal)
    ensures out == goal
  {
    var trimmed, shortfall, i := buys, BuyCashOf(buys) - cash, 0;
    while i < |order| && shortfall > CASH_EPS
      invariant StillToTrim(trimmed, order, i, shortfall, rules, goal)
    {
      var next: Option<seq<Trade>>;
      next, shortfall := TrimPass(rules, order, i, shortfall, trimmed, goal);
      if next.None? {
        return [];
      }
      trimmed, i := next.value, i + 1;
    }
    TrimEnds(rules, order, i, shortfall, trimmed, goal);
    out := if shortfall <= CASH_EPS then trimmed else [];
  }

  /** One pass of the loop. */
  method TrimPass(rules: Rules, order: seq<nat>, i: nat, shortfall: real, trimmed: seq<Trade>, ghost goal: seq<Trade>)
    returns (next: Option<seq<Trade>>, left: real)
    requires i < |order| && shortfall > CASH_EPS && StillToTrim(trimmed, order, i, shortfall, rules, goal)
    ensures next.None? ==> goal == []
    ensures next.Some? ==> StillToTrim(next.value, order, i + 1, left, rules, goal)
  {
    var t := trimmed[order[i]];
    var after, saved := CutOnce(t, shortfall, Resolve(t.ticker, rules));
    StillToTrimNext(trimmed, order, i, shortfall, rules, goal, after, saved);
    if after.None? {
      return None, shortfall;
    }
    return Some(trimmed[order[i] := after.value]), shortfall - saved;
  }

  lemma TrimEnds(rules: Rules, order: seq<nat>, i: nat, shortfall: real, trimmed: seq<Trade>, goal: seq<Trade>)
    requires StillToTrim(trimmed, order, i, shortfall, rules, goal) && (i == |order| || shortfall <= CASH_EPS)
    ensures goal == if shortfall <= CASH_EPS then trimmed else []
  {
  }

  /** What cutting leads to is the buys, shrunk to fit the cash. */
  lemma {:induction false} TrimFits(buys: seq<Trade>, cash: real, rules: Rules, order: seq<nat>, i: nat,
                                    shortfall: real, trimmed: seq<Trade>, goal: seq<Trade>)
    requires Positions(|buys|, order) && Trimming(buys, cash, rules, order, i, shortfall, trimmed)
    requires StillToTrim(trimmed, order, i, shortfall, rules, goal)
    ensures goal != [] ==> AllShrunk(buys, goal, rules) && BuyCashOf(goal) <= cash + CASH_EPS
    decreases |order| - i
  {
    if i == |order| || shortfall <= CASH_EPS {
      TrimmedFits(buys, cash, rules, order, i, shortfall, trimmed, goal);
    } else {
      var next, left := TrimNext(buys, cash, rules, order, i, shortfall, trimmed, goal);
      if next.Some? {
        TrimFits(buys, cash, rules, order, i + 1, left, next.value, goal);
      }
    }
  }

  lemma TrimmedFits(buys: seq<Trade>, cash: real, rules: Rules, order: seq<nat>, i: nat, shortfall: real,
                    trimmed: seq<Trade>, goal: seq<Trade>)
    requires Trimming(buys, cash, rules, order, i, shortfall, trimmed)
    requires StillToTrim(trimmed, order, i, shortfall, rules, goal) && (i == |order| || shortfall <= CASH_EPS)
    ensures goal != [] ==> AllShrunk(buys, goal, rules) && BuyCashOf(goal) <= cash + CASH_EPS
  {
    TrimEnds(rules, order, i, shortfall, trimmed, goal);
  }

  lemma TrimNext(buys: seq<Trade>, cash: real, rules: Rules, order: seq<nat>, i: nat, shortfall: real,
                 trimmed: seq<Trade>, goal: seq<Trade>)
    returns (next: Option<seq<Trade>>, left: real)
    requires Positions(|buys|, order) && i < |order| && shortfall > CASH_EPS
    requires Trimming(buys, cash, rules, order, i, shortfall, trimmed)
    requires StillToTrim(trimmed, order, i, shortfall, rules, goal)
    ensures next.None? ==> goal == []
    ensures next.Some? ==>
              && Trimming(buys, cash, rules, order, i + 1, left, next.value)
              && StillToTrim(next.value, order, i + 1, left, rules, goal)
  {
    var t := trimmed[order[i]];
    var rule := Resolve(t.ticker, rules);
    var after, saved := CutAndSave(t, shortfall, rule);
    StillToTrimNext(trimmed, order, i, shortfall, rules, goal, after, saved);
    next, left := None, shortfall - saved;
    if after.Some? {
      TrimmingNext(buys, cash, rules, order, i, shortfall, trimmed, after.value, saved);
      next := Some(trimmed[order[i] := after.value]);
    }
  }

  lemma TrimStarts(buys: seq<Trade>, cash: real, rules: Rules, order: seq<nat>) returns (goal: seq<Trade>)
    requires AllFundable(buys) && Positions(|buys|, order)
    ensures goal == TrimFrom(buys, order, BuyCashOf(buys) - cash, rules)
    ensures StillToTrim(buys, order, 0, BuyCashOf(buys) - cash, rules, goal)
    ensures goal != [] ==> AllShrunk(buys, goal, rules) && BuyCashOf(goal) <= cash + CASH_EPS
  {
    goal := TrimFrom(buys, order, BuyCashOf(buys) - cash, rules);
    TrimmingStarts(buys, cash, rules, order);
    assert order[0..] == order;
    TrimFits(buys, cash, rules, order, 0, BuyCashOf(buys) - cash, buys, goal);
  }

  lemma CutLeaves(t: Trade, shortfall: real, rule: Rule) returns (after: Trade, saved: real)
    requires Fundable(t) && shortfall > 0.0 && Cheap(t, rule)
    requires UnitCash(t) > 0.0 && CutTrade(t, shortfall, rule).Some?
    ensures CutTrade(t, shortfall, rule) == Some(after)
    ensures after.BuyCash() == t.BuyCash() - saved
    ensures -CASH_EPS <= saved - shortfall < UnitCash(t)
    ensures rule == FRACTIONAL ==> saved == shortfall
  {
    CutShrinks(t, shortfall, rule);
    CutCovers(t, shortfall, rule);
    after, saved := CutTrade(t, shortfall, rule).value, Cut(t, shortfall, rule.increment) * UnitCash(t);
  }

  /** Trimming one buy leaves less than the cost of one share unspent. */
  lemma TrimOneSpendsCash(buys: seq<Trade>, cash: real, rules: Rules, c: nat) returns (spent: real)
    requires AllFundable(buys) && c < |buys| && UnitCash(buys[c]) > 0.0
    requires Cheap(buys[c], Resolve(buys[c].ticker, rules)) && BuyCashOf(buys) - cash > CASH_EPS
    requires TrimOne(buys, cash, rules, c) != []
    ensures spent == BuyCashOf(TrimOne(buys, cash, rules, c))
    ensures -CASH_EPS <= cash - spent < UnitCash(buys[c])
    ensures Resolve(buys[c].ticker, rules) == FRACTIONAL ==> cash == spent
  {
    spent := SpentAfterCut(buys, cash, c, BuyCashOf(buys) - cash, Resolve(buys[c].ticker, rules), TrimOne(buys, cash, rules, c));
  }

  lemma SpentAfterCut(buys: seq<Trade>, cash: real, c: nat, shortfall: real, rule: Rule, trimmed: seq<Trade>)
    returns (spent: real)
    requires c < |buys| && Fundable(buys[c]) && UnitCash(buys[c]) > 0.0 && Cheap(buys[c], rule)
    requires shortfall == BuyCashOf(buys) - cash && shortfall > 0.0 && CutTrade(buys[c], shortfall, rule).Some?
    requires trimmed == buys[c := CutTrade(buys[c], shortfall, rule).value]
    ensures spent == BuyCashOf(trimmed)
    ensures -CASH_EPS <= cash - spent < UnitCash(buys[c])
    ensures rule == FRACTIONAL ==> cash == spent
  {
    var after, saved := CutLeaves(buys[c], shortfall, rule);
    ReplacedSaves(buys, c, after, saved);
    spent := BuyCashOf(buys) - saved;
  }

  lemma ReplacedSaves(trades: seq<Trade>, i: nat, t: Trade, saved: real)
    requires i < |trades| && t.BuyCash() == trades[i].BuyCash() - saved
    ensures BuyCashOf(trades[i := t]) == BuyCashOf(trades) - saved
  {
    ReplacedCash(trades, i, t);
  }

  // ---- which shortfalls are absorbed ----

  /** The costliest buy is unique. */
  lemma OneCostliest(buys: seq<Trade>, b: nat, c: nat)
    requires Costliest(buys, b) && Costliest(buys, c)
    ensures b == c
  {
    NotBothCostlier(buys, b, c);
  }

  lemma NotBothCostlier(buys: seq<Trade>, b: nat, c: nat)
    requires b < |buys| && c < |buys|
    ensures !(Costlier(buys, b, c) && Costlier(buys, c, b))
  {
  }

  predicate IsWhole(n: real) {
    n == n.Floor as real
  }

  /** Cutting `n` covers the shortfall, up to the slack in counting whole shares, and leaves an order
      that may be sent. */
  predicate Covered(t: Trade, n: real, shortfall: real, rule: Rule) {
    && (rule == WHOLE_SHARE ==> IsWhole(n))
    && shortfall <= (n + if rule == WHOLE_SHARE then COUNT_EPS else 0.0) * UnitCash(t)
    && t.quantity - n > QTY_EPS && t.quantity - n >= rule.minQuantity
  }

  /** The buy can spare the shortfall. */
  ghost predicate Spares(t: Trade, shortfall: real, rule: Rule) {
    exists n: real :: Covered(t, n, shortfall, rule)
  }

  /** A cut survives exactly when some cut covers the shortfall and leaves an order that may be sent. */
  lemma CutSurvives(t: Trade, shortfall: real, rule: Rule)
    requires Fundable(t) && shortfall > 0.0 && Standard(rule) && UnitCash(t) > 0.0
    ensures CutTrade(t, shortfall, rule).Some? <==> Spares(t, shortfall, rule)
  {
    if CutTrade(t, shortfall, rule).Some? {
      SurvivingCovers(t, shortfall, rule);
    }
    if n: real :| Covered(t, n, shortfall, rule) {
      CoveredSurvives(t, n, shortfall, rule);
    }
  }

  lemma CoveredSurvives(t: Trade, n: real, shortfall: real, rule: Rule)
    requires Fundable(t) && shortfall > 0.0 && Standard(rule) && UnitCash(t) > 0.0 && Covered(t, n, shortfall, rule)
    ensures CutTrade(t, shortfall, rule).Some?
  {
    QuotientPositive(shortfall, UnitCash(t));
    CoveredIsCut(t, shortfall / UnitCash(t), shortfall, UnitCash(t), n, rule);
  }

  lemma SurvivingCovers(t: Trade, shortfall: real, rule: Rule)
    requires Fundable(t) && shortfall > 0.0 && Standard(rule) && UnitCash(t) > 0.0
    requires CutTrade(t, shortfall, rule).Some?
    ensures Covered(t, Cut(t, shortfall, rule.increment), shortfall, rule)
  {
    QuotientPositive(shortfall, UnitCash(t));
    var want := shortfall / UnitCash(t);
    WantIsCut(t, want, shortfall, rule);
    CutIsCovered(t, want, shortfall, UnitCash(t), Cut(t, shortfall, rule.increment), rule);
  }

  lemma CutIsCovered(t: Trade, want: real, shortfall: real, price: real, cut: real, rule: Rule)
    requires Fundable(t) && Standard(rule) && price == UnitCash(t) > 0.0 && shortfall == want * price
    requires cut == if rule == WHOLE_SHARE then CeilingOf(want - COUNT_EPS) as real else want
    requires t.quantity - cut > QTY_EPS && t.quantity - cut >= rule.minQuantity
    ensures Covered(t, cut, shortfall, rule)
  {
    var slack := if rule == WHOLE_SHARE then COUNT_EPS else 0.0;
    ScaleOrder(want, cut + slack, price);
  }

  lemma CoveredIsCut(t: Trade, want: real, shortfall: real, price: real, n: real, rule: Rule)
    requires Fundable(t) && Standard(rule) && price == UnitCash(t) > 0.0
    requires want == shortfall / price && shortfall == want * price && Covered(t, n, shortfall, rule)
    ensures CutTrade(t, shortfall, rule).Some?
  {
    var slack := if rule == WHOLE_SHARE then COUNT_EPS else 0.0;
    AtMost(want, n + slack, price, shortfall);
    var part := Min(want, t.quantity);
    PartIsCut(part, n, rule);
    assert Cut(t, shortfall, rule.increment) <= n;
  }

  lemma AtMost(a: real, b: real, scale: real, scaled: real)
    requires scale > 0.0 && scaled == a * scale && scaled <= b * scale
    ensures a <= b
  {
    if a > b {
      StrictScale(b, a, scale);
    }
  }

  lemma PartIsCut(part: real, n: real, rule: Rule)
    requires Standard(rule) && part <= n + if rule == WHOLE_SHARE then COUNT_EPS else 0.0
    requires rule == WHOLE_SHARE ==> IsWhole(n)
    ensures (if rule.increment > 0.0 then CeilingOf(part / rule.increment - COUNT_EPS) as real * rule.increment else part) <= n
  {
    if rule == WHOLE_SHARE {
      assert part / 1.0 == part;
      FloorOrder(-n, COUNT_EPS - part);
      assert (-n).Floor == -(n.Floor);
    }
  }

  /** The buys to send against the cash that was read, if any: as they are, or trimmed to fit. */
  function FitOf(buys: seq<Trade>, account: Option<real>, rules: Rules): Option<seq<Trade>>
    requires AllFundable(buys)
  {
    var required := BuyCashOf(buys);
    if required <= QTY_EPS then Some(buys)
    else if account.None? then None
    else if required <= account.value + CASH_EPS then Some(buys)
    else if required - account.value > MAX_TRIM_FRACTION * required then None
    else
      var trimmed := Trimmed(buys, account.value, rules);
      if trimmed == [] then None else Some(trimmed)
  }

  /** What goes out fits the cash, order for order, and no buy grows. */
  lemma FitFits(buys: seq<Trade>, account: Option<real>, rules: Rules)
    requires AllFundable(buys)
    ensures var fit := FitOf(buys, account, rules);
            fit.Some? ==>
              && AllShrunk(buys, fit.value, rules)
              && (BuyCashOf(buys) > QTY_EPS ==> account.Some? && BuyCashOf(fit.value) <= account.value + CASH_EPS)
  {
    TrimmingStarts(buys, 0.0, rules, []);
    if account.Some? {
      FirstByCashIsOrdered(buys, |buys|);
      var goal := TrimStarts(buys, account.value, rules, ByCash(buys));
    }
  }

  lemma TrimmedIsOne(buys: seq<Trade>, cash: real, rules: Rules, c: nat)
    requires AllFundable(buys) && Costliest(buys, c) && Cheap(buys[c], Resolve(buys[c].ticker, rules))
    requires BuyCashOf(buys) - cash > CASH_EPS
    ensures UnitCash(buys[c]) > 0.0 && Trimmed(buys, cash, rules) == TrimOne(buys, cash, rules, c)
  {
    var order := ByCash(buys);
    FirstByCashIsOrdered(buys, |buys|);
    FirstIsCostliest(buys, order);
    OneCostliest(buys, order[0], c);
    PerShareIsPrice(buys[c]);
    CheapTrims(buys, cash, rules, order);
  }

  /** A shortfall of at most five per cent, the costliest buy being cheap per share: the buys go out if and
      only if that buy can spare it, no other buy changes, and less than one of its shares is left unspent. */
  lemma FitSpendsCash(buys: seq<Trade>, cash: real, rules: Rules, c: nat)
    requires AllFundable(buys) && Costliest(buys, c) && Cheap(buys[c], Resolve(buys[c].ticker, rules))
    requires BuyCashOf(buys) > QTY_EPS
    requires CASH_EPS < BuyCashOf(buys) - cash <= MAX_TRIM_FRACTION * BuyCashOf(buys)
    ensures var fit := FitOf(buys, Some(cash), rules);
            && (fit.Some? <==> Spares(buys[c], BuyCashOf(buys) - cash, Resolve(buys[c].ticker, rules)))
            && (fit.Some? ==>
                  && |fit.value| == |buys| && (forall i | 0 <= i < |buys| && i != c :: fit.value[i] == buys[i])
                  && -CASH_EPS <= cash - BuyCashOf(fit.value) < UnitCash(buys[c]))
  {
    TrimmedIsOne(buys, cash, rules, c);
    CutSurvives(buys[c], BuyCashOf(buys) - cash, Resolve(buys[c].ticker, rules));
    if TrimOne(buys, cash, rules, c) != [] {
      var spent := TrimOneSpendsCash(buys, cash, rules, c);
    }
  }

  /** The buys to submit against the cash read after the sell phase (none if it cannot be read), or
      the decision to block them all.  Buys that go out fit the cash; none is dropped or reordered,
      and a buy keeps its orderRef and never grows. */
  method FitBuysToCash(buys: seq<Trade>, account: Option<real>, rules: Rules) returns (out: seq<Trade>, blocked: bool)
    requires AllFundable(buys)
    ensures FitOf(buys, account, rules) == if blocked then None else Some(out)
    ensures blocked ==> out == buys
    ensures !blocked ==> AllShrunk(buys, out, rules)
    ensures !blocked && BuyCashOf(buys) > QTY_EPS ==> account.Some? && BuyCashOf(out) <= account.value + CASH_EPS
    ensures BuyCashOf(buys) > QTY_EPS && account.None? ==> blocked
    ensures account.Some? && BuyCashOf(buys) <= account.value + CASH_EPS ==> !blocked && out == buys
    ensures BuyCashOf(buys) > QTY_EPS && account.Some? ==>
              (BuyCashOf(buys) - account.value > Max(CASH_EPS, MAX_TRIM_FRACTION * BuyCashOf(buys)) ==> blocked)
  {
    TrimmingStarts(buys, 0.0, rules, []);
    var required := BuyCashOf(buys);
    if required <= QTY_EPS {
      return buys, false;
    }
    if account.None? {
      return buys, true;
    }
    var cash := account.value;
    if cash + CASH_EPS >= required {
      return buys, false;
    }
    if required - cash > MAX_TRIM_FRACTION * required {
      return buys, true;
    }
    var trimmed := TrimBuysToCash(buys, cash, rules);
    if trimmed == [] {
      return buys, true;
    }
    return trimmed, false;
  }
}
