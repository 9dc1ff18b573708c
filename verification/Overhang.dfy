/** When trimming buys to the cash shrinks the costliest buy only (src/poma/execution_manager.py,
    _trim_buys_to_cash). */
module Overhang {
  import opened Models
  import opened RealArithmetic
  import opened ExecutionPolicy
  import opened CashFit

  function RuleAt(buys: seq<Trade>, rules: Rules, i: nat): Rule
    requires i < |buys|
  {
    Resolve(buys[i].ticker, rules)
  }

  /** How much of a shortfall one cut may leave: nothing of a fractional buy, and the slack in counting
      shares, at the share's price, of a whole-share buy. */
  function Slack(t: Trade, rule: Rule): real {
    if rule == WHOLE_SHARE then COUNT_EPS * UnitCash(t) else 0.0
  }

  /** A smallest cut leaves something that may be sent. */
  predicate CanShrink(t: Trade, rule: Rule) {
    if rule == WHOLE_SHARE then t.quantity >= 2.0 else (t.quantity - QTY_EPS) * UnitCash(t) > CASH_EPS
  }

  /** A buy under one of the two rules that settings can build; a whole-share buy is for a share at least. */
  predicate Sendable(t: Trade, rule: Rule) {
    Fundable(t) && Standard(rule) && (rule == WHOLE_SHARE ==> t.quantity >= 1.0 && UnitCash(t) > CASH_EPS)
  }

  predicate AllSendable(buys: seq<Trade>, rules: Rules) {
    forall i | 0 <= i < |buys| :: Sendable(buys[i], RuleAt(buys, rules, i))
  }

  /** The slack of every costlier buy exceeds the slack in dollars, and the slack of this buy: what they
      leave uncovered is cut from it. */
  predicate Overhangs(buys: seq<Trade>, rules: Rules, order: seq<nat>, p: nat)
    requires p < |order| && forall k | 0 <= k < |order| :: order[k] < |buys|
  {
    && CanShrink(buys[order[p]], RuleAt(buys, rules, order[p]))
    && forall k | 0 <= k < p ::
         Slack(buys[order[k]], RuleAt(buys, rules, order[k])) > Max(CASH_EPS, Slack(buys[order[p]], RuleAt(buys, rules, order[p])))
  }

  // ---- one cut ----

  /** A cut that survives leaves no more than its slack. */
  lemma LeavesSlack(t: Trade, shortfall: real, rule: Rule)
    requires Sendable(t, rule) && shortfall > 0.0 && CutTrade(t, shortfall, rule).Some?
    ensures shortfall - Saved(t, shortfall, rule) <= Slack(t, rule)
  {
    var price := UnitCash(t);
    QuotientPositive(shortfall, price);
    var want := shortfall / price;
    WantIsCut(t, want, shortfall, rule);
    if rule == WHOLE_SHARE {
      var left := LeftOfCount(want, price, Cut(t, shortfall, 1.0), want * price);
      assert left == shortfall - Saved(t, shortfall, rule);
    } else {
      assert Saved(t, shortfall, rule) == want * price;
    }
  }

  lemma LeftOfCount(want: real, price: real, cut: real, needed: real) returns (left: real)
    requires price > 0.0 && cut == CeilingOf(want - COUNT_EPS) as real && needed == want * price
    ensures left == needed - cut * price && left <= COUNT_EPS * price
  {
    ScaleOrder(want, cut + COUNT_EPS, price);
    DistributeSum(cut, COUNT_EPS, price);
    left := needed - cut * price;
  }

  /** A shortfall within the slack cuts nothing. */
  lemma WithinSlack(t: Trade, shortfall: real, rule: Rule)
    requires Sendable(t, rule) && 0.0 < shortfall <= Slack(t, rule)
    ensures CutTrade(t, shortfall, rule) == Some(t) && Saved(t, shortfall, rule) == 0.0
  {
    var want := PartOfShare(shortfall, UnitCash(t));
    CutsNothing(t, want, shortfall, UnitCash(t));
  }

  lemma PartOfShare(shortfall: real, price: real) returns (want: real)
    requires price > 0.0 && 0.0 < shortfall <= COUNT_EPS * price
    ensures want == shortfall / price && 0.0 < want <= COUNT_EPS
  {
    want := shortfall / price;
    QuotientPositive(shortfall, price);
    DivOrder(shortfall, COUNT_EPS * price, price);
    Divides(price, COUNT_EPS);
  }

  lemma CutsNothing(t: Trade, want: real, shortfall: real, price: real)
    requires Fundable(t) && t.quantity >= 1.0 && price == UnitCash(t) && want == shortfall / price
    requires 0.0 < want <= COUNT_EPS
    ensures CutTrade(t, shortfall, WHOLE_SHARE) == Some(t) && Saved(t, shortfall, WHOLE_SHARE) == 0.0
  {
    NoShare(want);
    assert Min(want, t.quantity) == want;
    assert Cut(t, shortfall, 1.0) == 0.0;
  }

  lemma NoShare(want: real)
    requires 0.0 < want <= COUNT_EPS
    ensures CeilingOf(want / 1.0 - COUNT_EPS) == 0
  {
    assert want / 1.0 == want;
  }

  /** A shortfall above the slack of a buy that cannot shrink gives up. */
  lemma AboveSlack(t: Trade, shortfall: real, rule: Rule)
    requires Sendable(t, rule) && shortfall > CASH_EPS && shortfall > Slack(t, rule) && !CanShrink(t, rule)
    ensures CutTrade(t, shortfall, rule).None?
  {
    var price := UnitCash(t);
    QuotientPositive(shortfall, price);
    var want := shortfall / price;
    if rule == WHOLE_SHARE {
      if want <= COUNT_EPS {
        ScaleOrder(want, COUNT_EPS, price);
      }
      CountsOne(Min(want, t.quantity));
    } else {
      FractionGivesUp(t, want, shortfall, price, t.quantity - QTY_EPS);
    }
  }

  lemma FractionGivesUp(t: Trade, want: real, shortfall: real, price: real, most: real)
    requires price == UnitCash(t) > 0.0 && want == shortfall / price && want * price == shortfall
    requires most == t.quantity - QTY_EPS && most * price < shortfall
    ensures CutTrade(t, shortfall, FRACTIONAL).None?
  {
    if want <= most {
      ScaleOrder(want, most, price);
    }
    assert Cut(t, shortfall, 0.0) == Min(want, t.quantity);
  }

  lemma CountsOne(want: real)
    requires want > COUNT_EPS
    ensures CeilingOf(want / 1.0 - COUNT_EPS) >= 1
  {
    assert want / 1.0 == want;
  }

  /** The most that the smallest cut of a buy covers. */
  function Reach(t: Trade, rule: Rule): real {
    if rule == WHOLE_SHARE then UnitCash(t) else (t.quantity - QTY_EPS) * UnitCash(t)
  }

  /** A shortfall above the slack and below the reach is covered by a smallest cut. */
  lemma SmallestCut(t: Trade, shortfall: real, rule: Rule)
    requires Sendable(t, rule) && CanShrink(t, rule) && Max(CASH_EPS, Slack(t, rule)) < shortfall < Reach(t, rule)
    ensures CutTrade(t, shortfall, rule).Some? && CutTrade(t, shortfall, rule).value.quantity < t.quantity
    ensures shortfall - Saved(t, shortfall, rule) <= CASH_EPS
  {
    var price := UnitCash(t);
    QuotientPositive(shortfall, price);
    var want := shortfall / price;
    if rule == WHOLE_SHARE {
      CutsOneShare(t, want, shortfall, price);
    } else {
      CutsFraction(t, want, shortfall, price);
    }
  }

  lemma CutsOneShare(t: Trade, want: real, shortfall: real, price: real)
    requires price == UnitCash(t) > 0.0 && want == shortfall / price && want * price == shortfall
    requires COUNT_EPS * price < shortfall < price && t.quantity >= 2.0
    ensures CutTrade(t, shortfall, WHOLE_SHARE) == Some(Resized(t, t.quantity - 1.0))
    ensures Saved(t, shortfall, WHOLE_SHARE) == price
  {
    Unscale(COUNT_EPS, want, price);
    Unscale(want, 1.0, price);
    OneShare(want);
    assert Cut(t, shortfall, 1.0) == 1.0;
  }

  lemma OneShare(want: real)
    requires COUNT_EPS < want < 1.0
    ensures CeilingOf(want / 1.0 - COUNT_EPS) == 1
  {
    assert want / 1.0 == want;
  }

  lemma CutsFraction(t: Trade, want: real, shortfall: real, price: real)
    requires price == UnitCash(t) > 0.0 && want == shortfall / price && want * price == shortfall && want > 0.0
    requires shortfall < (t.quantity - QTY_EPS) * price
    ensures CutTrade(t, shortfall, FRACTIONAL) == Some(Resized(t, t.quantity - want))
    ensures Saved(t, shortfall, FRACTIONAL) == shortfall
  {
    if want >= t.quantity - QTY_EPS {
      ScaleOrder(t.quantity - QTY_EPS, want, price);
    }
    assert Cut(t, shortfall, 0.0) == want;
  }

  // ---- the loop ----

  /** Buys that cannot be cut by so little are passed over. */
  lemma {:induction false} PassesOver(trimmed: seq<Trade>, rules: Rules, order: seq<nat>, from: nat, p: nat,
                                      shortfall: real, out: seq<Trade>)
    requires StillToTrim(trimmed, order, from, shortfall, rules, out) && from <= p <= |order| && shortfall > CASH_EPS
    requires forall k | from <= k < p ::
               && Sendable(trimmed[order[k]], RuleAt(trimmed, rules, order[k]))
               && shortfall <= Slack(trimmed[order[k]], RuleAt(trimmed, rules, order[k]))
    ensures StillToTrim(trimmed, order, p, shortfall, rules, out)
    decreases p - from
  {
    if from < p {
      var t := trimmed[order[from]];
      var rule := Resolve(t.ticker, rules);
      WithinSlack(t, shortfall, rule);
      StillToTrimNext(trimmed, order, from, shortfall, rules, out, Some(t), Saved(t, shortfall, rule));
      assert trimmed[order[from] := t] == trimmed;
      PassesOver(trimmed, rules, order, from + 1, p, shortfall, out);
    }
  }

  /** A buy was cut, and no other buy changed. */
  predicate Cuts(trimmed: seq<Trade>, out: seq<Trade>, c: nat) {
    && c < |trimmed| == |out| && out[c].quantity < trimmed[c].quantity
    && forall i | 0 <= i < |trimmed| && i != c :: out[i] == trimmed[i]
  }

  /** What everything before leaves uncovered is cut from the buy at `p`, and that is the end of it. */
  lemma CutsAt(trimmed: seq<Trade>, rules: Rules, order: seq<nat>, from: nat, p: nat, shortfall: real, out: seq<Trade>)
    requires StillToTrim(trimmed, order, from, shortfall, rules, out) && from <= p < |order| && shortfall > CASH_EPS
    requires forall k | from <= k < p ::
               && Sendable(trimmed[order[k]], RuleAt(trimmed, rules, order[k]))
               && shortfall <= Slack(trimmed[order[k]], RuleAt(trimmed, rules, order[k]))
    requires var t, rule := trimmed[order[p]], RuleAt(trimmed, rules, order[p]);
             Sendable(t, rule) && CanShrink(t, rule) && Slack(t, rule) < shortfall < Reach(t, rule)
    ensures Cuts(trimmed, out, order[p])
  {
    PassesOver(trimmed, rules, order, from, p, shortfall, out);
    var t := trimmed[order[p]];
    var rule := Resolve(t.ticker, rules);
    SmallestCut(t, shortfall, rule);
    var after, saved := CutTrade(t, shortfall, rule), Saved(t, shortfall, rule);
    CutShrinks(t, shortfall, rule);
    StillToTrimNext(trimmed, order, p, shortfall, rules, out, after, saved);
  }

  /** With nothing overhanging, what the first `p` buys leave uncovered is cut from no buy. */
  lemma {:induction false} NothingBehind(trimmed: seq<Trade>, buys: seq<Trade>, rules: Rules, order: seq<nat>, p: nat,
                                         shortfall: real, out: seq<Trade>)
    requires AllSendable(buys, rules) && Positions(|buys|, order) && |trimmed| == |buys| && 1 <= p <= |order|
    requires StillToTrim(trimmed, order, p, shortfall, rules, out)
    requires forall k | p <= k < |order| :: trimmed[order[k]] == buys[order[k]]
    requires forall k | 0 <= k < p :: shortfall <= Slack(buys[order[k]], RuleAt(buys, rules, order[k]))
    requires forall q | 1 <= q < |order| :: !Overhangs(buys, rules, order, q)
    ensures out == [] || out == trimmed
    decreases |order| - p
  {
    if p == |order| || shortfall <= CASH_EPS {
      return;
    }
    var t := trimmed[order[p]];
    var rule := RuleAt(buys, rules, order[p]);
    if shortfall <= Slack(t, rule) {
      WithinSlack(t, shortfall, rule);
      StillToTrimNext(trimmed, order, p, shortfall, rules, out, Some(t), Saved(t, shortfall, rule));
      assert trimmed[order[p] := t] == trimmed;
      NothingBehind(trimmed, buys, rules, order, p + 1, shortfall, out);
    } else {
      assert !Overhangs(buys, rules, order, p);
      AboveSlack(t, shortfall, rule);
      StillToTrimNext(trimmed, order, p, shortfall, rules, out, None, Saved(t, shortfall, rule));
    }
  }

  // ---- for every cash amount ----

  /** Blocked, or only the buy at `c` may have changed. */
  predicate OnlyChanges(buys: seq<Trade>, out: seq<Trade>, c: nat) {
    out == [] || (|out| == |buys| && forall i | 0 <= i < |buys| && i != c :: out[i] == buys[i])
  }

  predicate NoneOverhangs(buys: seq<Trade>, rules: Rules, order: seq<nat>)
    requires forall k | 0 <= k < |order| :: order[k] < |buys|
  {
    forall p | 1 <= p < |order| :: !Overhangs(buys, rules, order, p)
  }

  lemma ByCashPositions(buys: seq<Trade>)
    ensures Positions(|buys|, ByCash(buys)) && |ByCash(buys)| == |buys|
  {
    var order := ByCash(buys);
    FirstByCashIsOrdered(buys, |buys|);
    forall j, k | 0 <= j < k < |order| ensures order[j] != order[k] {
      assert Costlier(buys, order[j], order[k]);
    }
  }

  /** With nothing overhanging, only the costliest buy shrinks, whatever the cash. */
  lemma CostliestSuffices(buys: seq<Trade>, cash: real, rules: Rules)
    requires AllSendable(buys, rules) && buys != [] && AllFundable(buys)
    requires NoneOverhangs(buys, rules, ByCash(buys))
    ensures |ByCash(buys)| == |buys| && OnlyChanges(buys, Trimmed(buys, cash, rules), ByCash(buys)[0])
  {
    ByCashPositions(buys);
    var order, shortfall, out := ByCash(buys), BuyCashOf(buys) - cash, Trimmed(buys, cash, rules);
    assert order[0..] == order;
    if shortfall > CASH_EPS {
      var t := buys[order[0]];
      var rule := Resolve(t.ticker, rules);
      var after, saved := CutTrade(t, shortfall, rule), Saved(t, shortfall, rule);
      CutShrinks(t, shortfall, rule);
      StillToTrimNext(buys, order, 0, shortfall, rules, out, after, saved);
      if after.Some? {
        LeavesSlack(t, shortfall, rule);
        NothingBehind(buys[order[0] := after.value], buys, rules, order, 1, shortfall - saved, out);
      }
    }
  }

  /** The least slack of the first `p` buys, above a floor that each of them is above. */
  lemma {:induction false} LeastSlack(buys: seq<Trade>, rules: Rules, order: seq<nat>, p: nat, floor: real)
    returns (least: real)
    requires p <= |order| && (forall k | 0 <= k < |order| :: order[k] < |buys|)
    requires forall k | 0 <= k < p :: Slack(buys[order[k]], RuleAt(buys, rules, order[k])) > floor
    ensures least > floor && forall k | 0 <= k < p :: least <= Slack(buys[order[k]], RuleAt(buys, rules, order[k]))
  {
    least := floor + 1.0;
    if p > 0 {
      var rest := LeastSlack(buys, rules, order, p - 1, floor);
      least := Min(rest, Slack(buys[order[p - 1]], RuleAt(buys, rules, order[p - 1])));
    }
  }

  lemma ReachIsAbove(t: Trade, rule: Rule)
    requires Sendable(t, rule) && CanShrink(t, rule)
    ensures Reach(t, rule) > Max(CASH_EPS, Slack(t, rule))
  {
    if rule == WHOLE_SHARE {
      StrictScale(COUNT_EPS, 1.0, UnitCash(t));
    }
  }

  /** A shortfall that every buy before an overhanging one leaves uncovered, and that one covers. */
  lemma Uncovered(buys: seq<Trade>, rules: Rules, order: seq<nat>, p: nat) returns (shortfall: real)
    requires AllSendable(buys, rules) && Positions(|buys|, order) && 1 <= p < |order|
    requires Overhangs(buys, rules, order, p)
    ensures var t, rule := buys[order[p]], RuleAt(buys, rules, order[p]);
            shortfall > CASH_EPS && Slack(t, rule) < shortfall < Reach(t, rule)
    ensures forall k | 0 <= k < p :: shortfall <= Slack(buys[order[k]], RuleAt(buys, rules, order[k]))
  {
    var t, rule := buys[order[p]], RuleAt(buys, rules, order[p]);
    var floor, reach := Max(CASH_EPS, Slack(t, rule)), Reach(t, rule);
    var least := LeastSlack(buys, rules, order, p, floor);
    ReachIsAbove(t, rule);
    shortfall := floor + (Min(least, reach) - floor) / 2.0;
  }

  /** An overhanging buy is for some cash the only one that shrinks. */
  lemma OverhangShrinks(buys: seq<Trade>, rules: Rules, p: nat) returns (cash: real)
    requires AllSendable(buys, rules) && AllFundable(buys) && 1 <= p < |ByCash(buys)|
    requires Overhangs(buys, rules, ByCash(buys), p)
    ensures Cuts(buys, Trimmed(buys, cash, rules), ByCash(buys)[p])
  {
    ByCashPositions(buys);
    var order := ByCash(buys);
    var shortfall := Uncovered(buys, rules, order, p);
    cash := BuyCashOf(buys) - shortfall;
    assert order[0..] == order;
    CutsAt(buys, rules, order, 0, p, shortfall, Trimmed(buys, cash, rules));
  }

  /** Trimming shrinks the costliest buy only, whatever the cash, exactly when no buy overhangs. */
  lemma OnlyCostliestExactly(buys: seq<Trade>, rules: Rules)
    requires AllSendable(buys, rules) && AllFundable(buys) && buys != []
    ensures |ByCash(buys)| == |buys|
    ensures (forall cash: real :: OnlyChanges(buys, Trimmed(buys, cash, rules), ByCash(buys)[0])) <==> NoneOverhangs(buys, rules, ByCash(buys))
  {
    ByCashPositions(buys);
    var order := ByCash(buys);
    if NoneOverhangs(buys, rules, order) {
      forall cash: real ensures OnlyChanges(buys, Trimmed(buys, cash, rules), order[0]) {
        CostliestSuffices(buys, cash, rules);
      }
    } else {
      var p :| 1 <= p < |order| && Overhangs(buys, rules, order, p);
      var cash := OverhangShrinks(buys, rules, p);
      assert order[p] != order[0];
      assert !OnlyChanges(buys, Trimmed(buys, cash, rules), order[0]);
    }
  }

  // ---- two buys ----

  /** One share and a little less than the slack of a second are still cut as one share. */
  lemma OneShareMore(t: Trade, more: real)
    requires Sendable(t, WHOLE_SHARE) && t.quantity >= 2.0 && 0.0 < more <= Slack(t, WHOLE_SHARE)
    ensures CutTrade(t, UnitCash(t) + more, WHOLE_SHARE) == Some(Resized(t, t.quantity - 1.0))
    ensures Saved(t, UnitCash(t) + more, WHOLE_SHARE) == UnitCash(t)
  {
    var price := UnitCash(t);
    QuotientPositive(more, price);
    DivOrder(more, COUNT_EPS * price, price);
    Divides(price, COUNT_EPS);
    var part := more / price;
    QuotientOfSum(price, more);
    assert (price + more) / price == 1.0 + part && 0.0 < part <= COUNT_EPS;
    OneAndPart(part);
    assert Cut(t, price + more, 1.0) == 1.0;
  }

  lemma QuotientOfSum(price: real, more: real)
    requires price > 0.0
    ensures (price + more) / price == 1.0 + more / price
  {
    var part := more / price;
    assert part * price == more;
    DistributeSum(1.0, part, price);
    QuotientIs(price, 1.0 + part, price + more);
  }

  lemma OneAndPart(part: real)
    requires 0.0 < part <= COUNT_EPS
    ensures CeilingOf((1.0 + part) / 1.0 - COUNT_EPS) == 1
  {
    assert (1.0 + part) / 1.0 == 1.0 + part;
  }

  /** When a buy overhangs and the costliest can spare a share, both shrink for some cash. */
  lemma OverhangShrinksTwo(buys: seq<Trade>, rules: Rules, p: nat) returns (cash: real)
    requires AllSendable(buys, rules) && AllFundable(buys) && 1 <= p < |ByCash(buys)|
    requires Overhangs(buys, rules, ByCash(buys), p)
    requires buys[ByCash(buys)[0]].quantity >= 2.0
    ensures var out := Trimmed(buys, cash, rules);
            && |out| == |buys| && out[ByCash(buys)[0]].quantity < buys[ByCash(buys)[0]].quantity
            && out[ByCash(buys)[p]].quantity < buys[ByCash(buys)[p]].quantity
  {
    ByCashPositions(buys);
    var order := ByCash(buys);
    var more := Uncovered(buys, rules, order, p);
    var shortfall := UnitCash(buys[order[0]]) + more;
    cash := BuyCashOf(buys) - shortfall;
    assert order[0..] == order;
    CutsTwo(buys, rules, order, p, more, shortfall, Trimmed(buys, cash, rules));
  }

  lemma CutsTwo(buys: seq<Trade>, rules: Rules, order: seq<nat>, p: nat, more: real, shortfall: real, out: seq<Trade>)
    requires AllSendable(buys, rules) && Positions(|buys|, order) && 1 <= p < |order| && more > CASH_EPS
    requires forall k | 0 <= k < p :: more <= Slack(buys[order[k]], RuleAt(buys, rules, order[k]))
    requires var t, rule := buys[order[p]], RuleAt(buys, rules, order[p]);
             CanShrink(t, rule) && Slack(t, rule) < more < Reach(t, rule)
    requires buys[order[0]].quantity >= 2.0 && shortfall == UnitCash(buys[order[0]]) + more
    requires StillToTrim(buys, order, 0, shortfall, rules, out)
    ensures |out| == |buys| && out[order[0]].quantity < buys[order[0]].quantity
    ensures out[order[p]].quantity < buys[order[p]].quantity
  {
    var t := buys[order[0]];
    assert more <= Slack(t, RuleAt(buys, rules, order[0]));
    OneShareMore(t, more);
    var after := Resized(t, t.quantity - 1.0);
    StillToTrimNext(buys, order, 0, shortfall, rules, out, Some(after), UnitCash(t));
    CutsAt(buys[order[0] := after], rules, order, 1, p, more, out);
  }

  ghost predicate OneChanges(buys: seq<Trade>, out: seq<Trade>) {
    exists c: nat :: OnlyChanges(buys, out, c)
  }

  /** Trimming shrinks at most one buy, whatever the cash, exactly when no buy overhangs (given that the
      costliest has a share to spare). */
  lemma OneBuyExactly(buys: seq<Trade>, rules: Rules)
    requires AllSendable(buys, rules) && AllFundable(buys) && buys != []
    requires |ByCash(buys)| == |buys| && buys[ByCash(buys)[0]].quantity >= 2.0
    ensures (forall cash: real :: OneChanges(buys, Trimmed(buys, cash, rules))) <==> NoneOverhangs(buys, rules, ByCash(buys))
  {
    ByCashPositions(buys);
    var order := ByCash(buys);
    if NoneOverhangs(buys, rules, order) {
      forall cash: real ensures OneChanges(buys, Trimmed(buys, cash, rules)) {
        CostliestSuffices(buys, cash, rules);
      }
    } else {
      var p :| 1 <= p < |order| && Overhangs(buys, rules, order, p);
      var cash := OverhangShrinksTwo(buys, rules, p);
      assert order[p] != order[0];
      assert !OneChanges(buys, Trimmed(buys, cash, rules));
    }
  }

  /** A hundred shares at 2000 and ten at 100, short by one share and its slack, well within what
      trimming absorbs: both buys lose a share. */
  lemma TwoBuysShrink()
    ensures var costly := Trade("A", BUY, 100.0, 200000.0, 2000.0, Some(2000.0), None);
            var small := Trade("B", BUY, 10.0, 1000.0, 100.0, Some(100.0), None);
            var shortfall := 2000.0 + 2000.0 * COUNT_EPS;
            && AllFundable([costly, small]) && shortfall <= MAX_TRIM_FRACTION * BuyCashOf([costly, small])
            && Trimmed([costly, small], BuyCashOf([costly, small]) - shortfall, map[]) == [Resized(costly, 99.0), Resized(small, 9.0)]
  {
    var costly := Trade("A", BUY, 100.0, 200000.0, 2000.0, Some(2000.0), None);
    var small := Trade("B", BUY, 10.0, 1000.0, 100.0, Some(100.0), None);
    var buys, more := [costly, small], 2000.0 * COUNT_EPS;
    TwoByCash(costly, small);
    assert BuyCashOf(buys) == 201000.0 by {
      assert buys[..1] == [costly] && [costly][..0] == [];
      assert BuyCashOf([costly]) == costly.BuyCash() == 100.0 * 2000.0;
      assert small.BuyCash() == 10.0 * 100.0;
    }
    var out := Trimmed(buys, 201000.0 - (2000.0 + more), map[]);
    OneShareMore(costly, more);
    var order: seq<nat> := [0, 1];
    assert order[0..] == order;
    StillToTrimNext(buys, order, 0, 2000.0 + more, map[], out, Some(Resized(costly, 99.0)), 2000.0);
    var left := [Resized(costly, 99.0), small];
    assert buys[0 := Resized(costly, 99.0)] == left;
    CutsOneShare(small, more / 100.0, more, 100.0);
    StillToTrimNext(left, order, 1, more, map[], out, Some(Resized(small, 9.0)), 100.0);
    assert left[1 := Resized(small, 9.0)] == [Resized(costly, 99.0), Resized(small, 9.0)];
  }

  lemma TwoByCash(a: Trade, b: Trade)
    requires a.BuyCash() > b.BuyCash()
    ensures ByCash([a, b]) == [0, 1]
  {
    var buys := [a, b];
    assert FirstByCash(buys, 1) == [0];
    assert [0][1..] == [];
    assert Place(1, [0], buys) == [0] + Place(1, [], buys);
  }
}
