/** Whole-share rounding and the demotion of round-ups that do not fit the cash
    (src/poma/execution_policy.py), with the planning-time cash check it serves
    (src/poma/risk.py, enforce_buying_power).  Money and shares are exact reals. */
module ExecutionPolicy {
  import opened Models
  import opened RealArithmetic

  datatype Rule = Rule(allowsFractional: bool, minQuantity: real, increment: real)

  const WHOLE_SHARE := Rule(false, 1.0, 1.0)
  const FRACTIONAL := Rule(true, 0.0, 0.0)

  type Rules = map<string, Rule>

  function Resolve(ticker: string, rules: Rules): Rule {
    if ticker in rules then rules[ticker] else if "*" in rules then rules["*"] else WHOLE_SHARE
  }

  /** The slack in counting increments. */
  const COUNT_EPS := 0.000000001

  function Whole(quantity: real, side: Side, rule: Rule): real {
    if rule.allowsFractional then quantity
    else if side == BUY then (quantity + 0.5).Floor as real
    else quantity.Floor as real
  }

  /** Down to a whole number of increments. */
  function OnIncrement(quantity: real, increment: real): real {
    if increment > 0.0 then (quantity / increment + COUNT_EPS).Floor as real * increment else quantity
  }

  function RoundedQuantity(quantity: real, side: Side, rule: Rule): real {
    OnIncrement(Whole(quantity, side, rule), rule.increment)
  }

  /** Whole shares: a sell never rounds above the quantity it was sized for and loses less than one
      share; a buy lands on the nearest share, up exactly from the half. */
  lemma WholeShareRounding(quantity: real, rule: Rule)
    requires quantity >= 0.0 && !rule.allowsFractional && rule.increment == 1.0
    ensures var sell := RoundedQuantity(quantity, SELL, rule);
            && sell == sell.Floor as real && 0.0 <= sell <= quantity < sell + 1.0
    ensures var buy := RoundedQuantity(quantity, BUY, rule);
            && buy == buy.Floor as real && 0.0 <= buy && buy - 0.5 <= quantity < buy + 0.5
  {
    IncrementOne((quantity + 0.5).Floor);
    IncrementOne(quantity.Floor);
  }

  lemma IncrementOne(n: int)
    ensures (n as real / 1.0 + COUNT_EPS).Floor == n
  {
    assert n as real / 1.0 == n as real;
  }

  // ---- cash ----

  function BuyCashOf(trades: seq<Trade>): real {
    if trades == [] then 0.0 else BuyCashOf(trades[..|trades| - 1]) + trades[|trades| - 1].BuyCash()
  }

  function SellCreditOf(trades: seq<Trade>): real {
    if trades == [] then 0.0 else SellCreditOf(trades[..|trades| - 1]) + trades[|trades| - 1].SellCredit()
  }

  /** enforce_buying_power: whether the plan needs more cash than there is. */
  predicate CashBlocked(trades: seq<Trade>, cash: real) {
    BuyCashOf(trades) - SellCreditOf(trades) > cash + CASH_EPS
  }

  // ---- rounding the whole plan ----

  /** A trade as planned: a positive reference price, and a buy worth its quantity at it. */
  predicate Planned(t: Trade) {
    && t.quantity >= 0.0 && t.referencePrice > 0.0
    && (t.side == BUY ==> t.notional == t.quantity * t.referencePrice && (t.limitPrice.Some? ==> t.limitPrice.value >= 0.0))
  }

  function UnitCash(t: Trade): real {
    if t.limitPrice.Some? && t.limitPrice.value != 0.0 then t.limitPrice.value else t.referencePrice
  }

  function Resized(t: Trade, quantity: real): Trade {
    t.(quantity := quantity, notional := quantity * t.referencePrice)
  }

  /** The trade at its executable quantity, or nothing when that is below the tradable minimum. */
  function Rounded(t: Trade, rule: Rule): Option<Trade> {
    AtQuantity(t, RoundedQuantity(t.quantity, t.side, rule), rule)
  }

  function AtQuantity(t: Trade, quantity: real, rule: Rule): Option<Trade> {
    if quantity <= 0.0 || quantity < rule.minQuantity then None
    else if quantity != t.quantity then Some(Resized(t, quantity)) else Some(t)
  }

  /** What a rounded-up buy can be demoted to. */
  function RoundUpFloor(t: Trade, rule: Rule): Option<real> {
    var floored := RoundedQuantity(t.quantity, SELL, rule);
    if t.side == BUY && floored < RoundedQuantity(t.quantity, BUY, rule) then Some(floored) else None
  }

  function Front<T>(xs: seq<T>): seq<T>
    requires xs != []
  {
    xs[..|xs| - 1]
  }

  function Last<T>(xs: seq<T>): T
    requires xs != []
  {
    xs[|xs| - 1]
  }

  function RoundAll(trades: seq<Trade>, rules: Rules): seq<Trade> {
    if trades == [] then []
    else
      var rounded := Rounded(Last(trades), Resolve(Last(trades).ticker, rules));
      RoundAll(Front(trades), rules) + (if rounded.Some? then [rounded.value] else [])
  }

  /** The demotable positions of RoundAll, with their floors. */
  function Floors(trades: seq<Trade>, rules: Rules): map<nat, real> {
    if trades == [] then map[]
    else
      var rule := Resolve(Last(trades).ticker, rules);
      var before := Floors(Front(trades), rules);
      var floored := RoundUpFloor(Last(trades), rule);
      if Rounded(Last(trades), rule).Some? && floored.Some?
      then before[|RoundAll(Front(trades), rules)| := floored.value] else before
  }

  /** The demotion of one position: the floor, or nothing when that is below the minimum. */
  function DemotedTrade(t: Trade, floored: real, rules: Rules): (kept: seq<Trade>)
    ensures |kept| <= 1
  {
    if floored <= 0.0 || floored < Resolve(t.ticker, rules).minQuantity then [] else [Resized(t, floored)]
  }

  /** The plan with the given positions demoted. */
  function Demoted(trades: seq<Trade>, floors: map<nat, real>, rules: Rules, which: set<nat>): seq<Trade> {
    if trades == [] then []
    else Demoted(Front(trades), floors, rules, which) + Position(Last(trades), |trades| - 1, floors, rules, which)
  }

  function Position(t: Trade, i: nat, floors: map<nat, real>, rules: Rules, which: set<nat>): (kept: seq<Trade>)
    ensures |kept| <= 1
  {
    if i in which && i in floors then DemotedTrade(t, floors[i], rules) else [t]
  }

  function BuyCashIn(kept: seq<Trade>): real
    requires |kept| <= 1
  {
    if kept == [] then 0.0 else kept[0].BuyCash()
  }

  predicate Demotable(trades: seq<Trade>, floors: map<nat, real>) {
    forall i | i in floors :: i < |trades| && DemotableAt(trades[i], floors[i])
  }

  predicate DemotableAt(t: Trade, floored: real) {
    t.side == BUY && Planned(t) && 0.0 <= floored < t.quantity
  }

  function Saving(t: Trade, floored: real): real {
    (t.quantity - floored) * UnitCash(t)
  }

  lemma BuyCashAppend(a: seq<Trade>, t: Trade)
    ensures BuyCashOf(a + [t]) == BuyCashOf(a) + t.BuyCash()
    ensures SellCreditOf(a + [t]) == SellCreditOf(a) + t.SellCredit()
  {
    assert (a + [t])[..|a|] == a;
  }

  lemma BuyCashAppendSome(a: seq<Trade>, b: seq<Trade>)
    requires |b| <= 1
    ensures BuyCashOf(a + b) == BuyCashOf(a) + BuyCashIn(b)
    ensures SellCreditOf(a + b) == SellCreditOf(a) + (if b == [] then 0.0 else b[0].SellCredit())
  {
    if b == [] {
      assert a + b == a;
    } else {
      assert b == [b[0]];
      BuyCashAppend(a, b[0]);
    }
  }

  lemma PlannedBuyCash(t: Trade)
    requires Planned(t) && t.side == BUY
    ensures t.BuyCash() == t.quantity * UnitCash(t) && UnitCash(t) > 0.0
  {
  }

  /** One position's demotion saves at least what the loop books for it. */
  lemma DemotionSaves(t: Trade, floored: real, rules: Rules)
    requires DemotableAt(t, floored)
    ensures SavesOn(t, floored, rules, Saving(t, floored)) && SavesOn(t, floored, rules, 0.0)
  {
    PlannedBuyCash(t);
    ResizedBuyCash(t, floored);
    Distribute(t.quantity, floored, UnitCash(t));
  }

  lemma ResizedBuyCash(t: Trade, quantity: real)
    requires Planned(t) && t.side == BUY && quantity >= 0.0
    ensures Resized(t, quantity).BuyCash() == quantity * UnitCash(t)
  {
  }

  lemma Distribute(q: real, f: real, unit: real)
    requires 0.0 <= f <= q && unit > 0.0
    ensures (q - f) * unit == q * unit - f * unit && (q - f) * unit >= 0.0 && f * unit >= 0.0
  {
  }

  /** Demoting one more position saves whatever it saves on that position. */
  lemma {:induction false} DemoteOneMore(trades: seq<Trade>, floors: map<nat, real>, rules: Rules, which: set<nat>,
                                         i: nat, saving: real)
    requires i in floors && i !in which && i < |trades|
    requires SavesOn(trades[i], floors[i], rules, saving)
    ensures BuyCashOf(Demoted(trades, floors, rules, which + {i})) <= BuyCashOf(Demoted(trades, floors, rules, which)) - saving
  {
    var n := |trades| - 1;
    var t, rest := Last(trades), Front(trades);
    BuyCashAppendSome(Demoted(rest, floors, rules, which), Position(t, n, floors, rules, which));
    BuyCashAppendSome(Demoted(rest, floors, rules, which + {i}), Position(t, n, floors, rules, which + {i}));
    if i == n {
      DemotedIgnoresRest(rest, floors, rules, which, i);
    } else {
      assert rest[i] == trades[i];
      DemoteOneMore(rest, floors, rules, which, i, saving);
    }
  }

  predicate SavesOn(t: Trade, floored: real, rules: Rules, saving: real) {
    BuyCashIn(DemotedTrade(t, floored, rules)) <= t.BuyCash() - saving
  }

  lemma {:induction false} DemotedIgnoresRest(trades: seq<Trade>, floors: map<nat, real>, rules: Rules,
                                              which: set<nat>, i: nat)
    requires i >= |trades|
    ensures Demoted(trades, floors, rules, which + {i}) == Demoted(trades, floors, rules, which)
  {
    if trades != [] {
      DemotedIgnoresRest(Front(trades), floors, rules, which, i);
    }
  }

  lemma {:induction false} DemotionKeepsSells(trades: seq<Trade>, floors: map<nat, real>, rules: Rules, which: set<nat>)
    requires forall k | k in floors && k < |trades| :: trades[k].side == BUY
    ensures SellCreditOf(Demoted(trades, floors, rules, which)) == SellCreditOf(trades)
  {
    if trades != [] {
      var n := |trades| - 1;
      DemotionKeepsSells(Front(trades), floors, rules, which);
      BuyCashAppendSome(Demoted(Front(trades), floors, rules, which), Position(Last(trades), n, floors, rules, which));
      if n in floors {
        DemotedIsBuy(Last(trades), floors[n], rules);
      }
    }
  }

  lemma DemotedIsBuy(t: Trade, floored: real, rules: Rules)
    requires t.side == BUY
    ensures forall d | d in DemotedTrade(t, floored, rules) :: d.SellCredit() == 0.0
    ensures t.SellCredit() == 0.0
  {
  }

  lemma DemoteNone(trades: seq<Trade>, floors: map<nat, real>, rules: Rules)
    ensures Demoted(trades, floors, rules, {}) == trades
  {
    if trades != [] {
      DemoteNone(Front(trades), floors, rules);
      assert trades == Front(trades) + [Last(trades)];
    }
  }

  /** More demotions never need more cash. */
  lemma {:induction false} DemotionMonotone(trades: seq<Trade>, floors: map<nat, real>, rules: Rules, some: set<nat>,
                                            all: set<nat>)
    requires forall i | i in floors :: i < |trades| && SavesOn(trades[i], floors[i], rules, 0.0)
    requires some <= all <= floors.Keys
    ensures BuyCashOf(Demoted(trades, floors, rules, all)) <= BuyCashOf(Demoted(trades, floors, rules, some))
    decreases all - some
  {
    if some != all {
      var i :| i in all && i !in some;
      DemoteOneMore(trades, floors, rules, some, i, 0.0);
      DemotionMonotone(trades, floors, rules, some + {i}, all);
    }
  }

  lemma AllDemotionsSave(trades: seq<Trade>, floors: map<nat, real>, rules: Rules)
    requires Demotable(trades, floors)
    ensures forall i | i in floors :: SavesOn(trades[i], floors[i], rules, Saving(trades[i], floors[i])) && SavesOn(trades[i], floors[i], rules, 0.0)
  {
    forall i | i in floors
      ensures SavesOn(trades[i], floors[i], rules, Saving(trades[i], floors[i]))
      ensures SavesOn(trades[i], floors[i], rules, 0.0)
    {
      assert DemotableAt(trades[i], floors[i]);
      DemotionSaves(trades[i], floors[i], rules);
    }
  }

  // ---- the loops ----

  datatype Demotion = Demotion(saving: real, index: nat, floored: real) {
    /** Largest saving first, later positions first among equals. */
    predicate Before(other: Demotion) {
      saving > other.saving || (saving == other.saving && index >= other.index)
    }
  }

  predicate Descending(xs: seq<Demotion>) {
    forall i, j | 0 <= i < j < |xs| :: xs[i].Before(xs[j])
  }

  function Insert(x: Demotion, xs: seq<Demotion>): seq<Demotion> {
    if xs == [] || x.Before(xs[0]) then [x] + xs else [xs[0]] + Insert(x, xs[1..])
  }

  function Sorted(xs: seq<Demotion>): seq<Demotion> {
    if xs == [] then [] else Insert(Last(xs), Sorted(Front(xs)))
  }

  lemma {:induction false} InsertPermutes(x: Demotion, xs: seq<Demotion>)
    ensures multiset(Insert(x, xs)) == multiset(xs) + multiset{x}
  {
    if !(xs == [] || x.Before(xs[0])) {
      InsertPermutes(x, xs[1..]);
      assert xs == [xs[0]] + xs[1..];
    }
  }

  lemma {:induction false} InsertDescends(x: Demotion, xs: seq<Demotion>)
    requires Descending(xs)
    ensures Descending(Insert(x, xs))
    ensures forall y: Demotion | y.Before(x) && (forall i | 0 <= i < |xs| :: y.Before(xs[i])) ::
              forall i | 0 <= i < |Insert(x, xs)| :: y.Before(Insert(x, xs)[i])
  {
    if !(xs == [] || x.Before(xs[0])) {
      InsertDescends(x, xs[1..]);
      assert forall i | 0 <= i < |xs| - 1 :: xs[1..][i] == xs[i + 1];
      assert xs[0].Before(x);
      assert forall i | 0 <= i < |xs| - 1 :: xs[0].Before(xs[1..][i]);
    }
  }

  lemma {:induction false} SortedSorts(xs: seq<Demotion>)
    ensures Descending(Sorted(xs)) && multiset(Sorted(xs)) == multiset(xs)
  {
    if xs != [] {
      SortedSorts(Front(xs));
      InsertDescends(Last(xs), Sorted(Front(xs)));
      InsertPermutes(Last(xs), Sorted(Front(xs)));
      assert xs == Front(xs) + [Last(xs)];
    }
  }

  function IndexesOf(xs: seq<Demotion>): set<nat> {
    set i | 0 <= i < |xs| :: xs[i].index
  }

  function SavingsOf(xs: seq<Demotion>): real {
    if xs == [] then 0.0 else SavingsOf(Front(xs)) + Last(xs).saving
  }

  /** What each demotion is booked to save. */
  function Savings(trades: seq<Trade>, floors: map<nat, real>): map<nat, real>
    requires forall i | i in floors :: i < |trades|
  {
    map i | i in floors :: Saving(trades[i], floors[i])
  }

  predicate IsDemotion(floors: map<nat, real>, savings: map<nat, real>, d: Demotion) {
    d.index in floors && d.index in savings && d.floored == floors[d.index] && d.saving == savings[d.index]
  }

  /** Every demotable position once, largest saving first. */
  ghost predicate DemotionOrder(floors: map<nat, real>, savings: map<nat, real>, order: seq<Demotion>) {
    && Descending(order)
    && (forall i | 0 <= i < |order| :: IsDemotion(floors, savings, order[i]))
    && (forall i, j | 0 <= i < j < |order| :: order[i].index != order[j].index)
    && IndexesOf(order) == floors.Keys
  }

  lemma RepeatsCount(xs: seq<Demotion>, i: nat, j: nat)
    requires i < j < |xs| && xs[i] == xs[j]
    ensures multiset(xs)[xs[i]] >= 2
  {
    assert xs == xs[..j] + xs[j..];
    assert xs[i] in xs[..j] && xs[j] in xs[j..];
  }

  lemma SortedMembers(xs: seq<Demotion>, d: Demotion)
    ensures d in Sorted(xs) <==> d in xs
  {
    SortedSorts(xs);
    assert d in multiset(xs) <==> d in multiset(Sorted(xs));
  }

  lemma SortedDistinct(xs: seq<Demotion>)
    requires forall k, m | 0 <= k < m < |xs| :: xs[k].index < xs[m].index
    ensures forall i, j | 0 <= i < j < |Sorted(xs)| :: Sorted(xs)[i].index != Sorted(xs)[j].index
  {
    var order := Sorted(xs);
    SortedSorts(xs);
    forall i, j | 0 <= i < j < |order| ensures order[i].index != order[j].index {
      SortedMembers(xs, order[i]);
      SortedMembers(xs, order[j]);
      var a :| 0 <= a < |xs| && xs[a] == order[i];
      var b :| 0 <= b < |xs| && xs[b] == order[j];
      if a == b {
        RepeatsCount(order, i, j);
        OnceEach(xs, order[i]);
      }
    }
  }

  lemma SortedCandidates(floors: map<nat, real>, savings: map<nat, real>, xs: seq<Demotion>)
    requires forall k | 0 <= k < |xs| :: IsDemotion(floors, savings, xs[k])
    requires forall k, m | 0 <= k < m < |xs| :: xs[k].index < xs[m].index
    requires forall k | k in floors :: exists m :: 0 <= m < |xs| && xs[m].index == k
    ensures DemotionOrder(floors, savings, Sorted(xs))
  {
    var order := Sorted(xs);
    SortedDistinct(xs);
    assert Descending(order) by { SortedSorts(xs); }
    SortedAreDemotions(floors, savings, xs);
    SortedCoverFloors(floors, xs);
    SortedOnlyFloors(floors, savings, xs);
  }

  lemma SortedAreDemotions(floors: map<nat, real>, savings: map<nat, real>, xs: seq<Demotion>)
    requires forall k | 0 <= k < |xs| :: IsDemotion(floors, savings, xs[k])
    ensures forall i | 0 <= i < |Sorted(xs)| :: IsDemotion(floors, savings, Sorted(xs)[i])
  {
    var order := Sorted(xs);
    forall i | 0 <= i < |order| ensures IsDemotion(floors, savings, order[i]) {
      SortedMembers(xs, order[i]);
    }
  }

  lemma SortedCoverFloors(floors: map<nat, real>, xs: seq<Demotion>)
    requires forall k | k in floors :: exists m :: 0 <= m < |xs| && xs[m].index == k
    ensures floors.Keys <= IndexesOf(Sorted(xs))
  {
    forall k | k in floors ensures k in IndexesOf(Sorted(xs)) {
      var m :| 0 <= m < |xs| && xs[m].index == k;
      SortedMembers(xs, xs[m]);
    }
  }

  lemma SortedOnlyFloors(floors: map<nat, real>, savings: map<nat, real>, xs: seq<Demotion>)
    requires forall k | 0 <= k < |xs| :: IsDemotion(floors, savings, xs[k])
    ensures IndexesOf(Sorted(xs)) <= floors.Keys
  {
    SortedAreDemotions(floors, savings, xs);
  }

  lemma {:induction false} OnceEach(xs: seq<Demotion>, d: Demotion)
    requires forall k, m | 0 <= k < m < |xs| :: xs[k].index < xs[m].index
    ensures multiset(xs)[d] <= 1
  {
    if xs != [] {
      OnceEach(Front(xs), d);
      assert xs == Front(xs) + [Last(xs)];
      if d == Last(xs) {
        assert d !in Front(xs);
        assert d !in multiset(Front(xs));
      }
    }
  }

  method DemotionsInOrder(count: nat, floors: map<nat, real>, savings: map<nat, real>) returns (order: seq<Demotion>)
    requires forall i | i in floors :: i < count && i in savings
    ensures DemotionOrder(floors, savings, order)
  {
    var xs: seq<Demotion> := [];
    for i := 0 to count
      invariant forall k | 0 <= k < |xs| :: xs[k].index < i && IsDemotion(floors, savings, xs[k])
      invariant forall k, m | 0 <= k < m < |xs| :: xs[k].index < xs[m].index
      invariant forall k | k in floors && k < i :: exists m :: 0 <= m < |xs| && xs[m].index == k
    {
      if i in floors {
        ghost var was := xs;
        xs := xs + [Demotion(savings[i], i, floors[i])];
        assert xs[|was|].index == i && forall m | 0 <= m < |was| :: xs[m] == was[m];
      }
    }
    order := Sorted(xs);
    SortedCandidates(floors, savings, xs);
  }

  function Overshoot(trades: seq<Trade>, cash: real): real {
    BuyCashOf(trades) - (cash + SellCreditOf(trades))
  }

  /** The loop's bookkeeping after demoting the first `i` of `order`: the tracked overshoot bounds
      the real one. */
  ghost predicate Tracks(trades: seq<Trade>, floors: map<nat, real>, rules: Rules, cash: real, order: seq<Demotion>,
                         i: nat, overshoot: real) {
    && i <= |order|
    && overshoot == Overshoot(trades, cash) - SavingsOf(order[..i])
    && (forall m | 0 <= m < i :: Overshoot(trades, cash) - SavingsOf(order[..m]) > CASH_EPS)
    && BuyCashOf(Demoted(trades, floors, rules, IndexesOf(order[..i]))) - (cash + SellCreditOf(trades)) <= overshoot
  }

  lemma TracksNext(trades: seq<Trade>, floors: map<nat, real>, savings: map<nat, real>, rules: Rules, cash: real,
                   order: seq<Demotion>, i: nat, overshoot: real)
    requires DemotionOrder(floors, savings, order)
    requires forall k | k in floors :: k < |trades| && k in savings && SavesOn(trades[k], floors[k], rules, savings[k])
    requires Tracks(trades, floors, rules, cash, order, i, overshoot) && i < |order| && overshoot > CASH_EPS
    ensures Tracks(trades, floors, rules, cash, order, i + 1, overshoot - order[i].saving)
    ensures IndexesOf(order[..i + 1]) == IndexesOf(order[..i]) + {order[i].index}
    ensures order[i].index !in IndexesOf(order[..i])
  {
    var d, before := order[i], IndexesOf(order[..i]);
    assert Front(order[..i + 1]) == order[..i];
    IndexesNext(order, i);
    assert IsDemotion(floors, savings, d);
    DemoteOneMore(trades, floors, rules, before, d.index, d.saving);
  }

  lemma IndexesNext(order: seq<Demotion>, i: nat)
    requires i < |order| && forall i, j | 0 <= i < j < |order| :: order[i].index != order[j].index
    ensures IndexesOf(order[..i + 1]) == IndexesOf(order[..i]) + {order[i].index}
    ensures order[i].index !in IndexesOf(order[..i])
  {
    assert order[..i + 1] == order[..i] + [order[i]];
  }

  lemma StoppedDemoting(trades: seq<Trade>, floors: map<nat, real>, savings: map<nat, real>, rules: Rules, cash: real,
                        order: seq<Demotion>, i: nat, overshoot: real)
    requires DemotionOrder(floors, savings, order)
    requires forall k | k in floors :: k < |trades| && SavesOn(trades[k], floors[k], rules, 0.0) && trades[k].side == BUY
    requires Tracks(trades, floors, rules, cash, order, i, overshoot) && (i == |order| || overshoot <= CASH_EPS)
    ensures CashBlocked(Demoted(trades, floors, rules, IndexesOf(order[..i])), cash)
            <==> CashBlocked(Demoted(trades, floors, rules, floors.Keys), cash)
  {
    var which := IndexesOf(order[..i]);
    assert which <= floors.Keys by {
      assert forall k | k in which :: k in IndexesOf(order);
    }
    DemotionMonotone(trades, floors, rules, which, floors.Keys);
    DemotionKeepsSells(trades, floors, rules, which);
    DemotionKeepsSells(trades, floors, rules, floors.Keys);
    assert i == |order| ==> order[..i] == order;
  }

  /** Demote round-ups, largest saving first, and only as many as it takes. */
  method DemoteBuyRoundups(trades: seq<Trade>, floors: map<nat, real>, rules: Rules, cash: real)
    returns (out: seq<Trade>, ghost order: seq<Demotion>, ghost n: nat)
    requires Demotable(trades, floors)
    ensures DemotionOrder(floors, Savings(trades, floors), order) && n <= |order|
    ensures out == Demoted(trades, floors, rules, IndexesOf(order[..n]))
    ensures forall m | 0 <= m < n :: Overshoot(trades, cash) - SavingsOf(order[..m]) > CASH_EPS
    ensures n < |order| ==> Overshoot(trades, cash) - SavingsOf(order[..n]) <= CASH_EPS
    ensures CashBlocked(out, cash) <==> CashBlocked(Demoted(trades, floors, rules, floors.Keys), cash)
  {
    AllDemotionsSave(trades, floors, rules);
    ghost var left: real;
    out, order, n, left := DemoteLargestFirst(trades, floors, Savings(trades, floors), rules, cash);
    StoppedDemoting(trades, floors, Savings(trades, floors), rules, cash, order, n, left);
  }

  /** The loop's state after demoting the first `i` of `order`. */
  ghost predicate Demoting(trades: seq<Trade>, floors: map<nat, real>, savings: map<nat, real>, rules: Rules, cash: real,
                           order: seq<Demotion>, i: nat, overshoot: real, adjusted: seq<Trade>, dropped: set<nat>) {
    && Tracks(trades, floors, rules, cash, order, i, overshoot)
    && Applied(trades, floors, rules, IndexesOf(order[..i]), adjusted, dropped)
  }

  lemma DemotingStarts(trades: seq<Trade>, floors: map<nat, real>, savings: map<nat, real>, rules: Rules, cash: real,
                       order: seq<Demotion>)
    ensures Demoting(trades, floors, savings, rules, cash, order, 0, Overshoot(trades, cash), trades, {})
  {
    assert order[..0] == [] && IndexesOf(order[..0]) == {};
    DemoteNone(trades, floors, rules);
  }

  method DemoteNext(ghost trades: seq<Trade>, ghost floors: map<nat, real>, ghost savings: map<nat, real>, rules: Rules, ghost cash: real,
                    order: seq<Demotion>, i: nat, overshoot: real, adjusted: seq<Trade>, dropped: set<nat>)
    returns (overshoot': real, adjusted': seq<Trade>, dropped': set<nat>)
    requires DemotionOrder(floors, savings, order) && i < |order| && overshoot > CASH_EPS
    requires forall k | k in floors :: k < |trades| && k in savings && SavesOn(trades[k], floors[k], rules, savings[k])
    requires Demoting(trades, floors, savings, rules, cash, order, i, overshoot, adjusted, dropped)
    ensures Demoting(trades, floors, savings, rules, cash, order, i + 1, overshoot', adjusted', dropped')
  {
    var d := order[i];
    assert IsDemotion(floors, savings, d);
    TracksNext(trades, floors, savings, rules, cash, order, i, overshoot);
    AppliedNext(trades, floors, rules, IndexesOf(order[..i]), adjusted, dropped, d.index);
    overshoot', adjusted', dropped' := overshoot - d.saving, adjusted, dropped;
    if d.floored <= 0.0 || d.floored < Resolve(adjusted[d.index].ticker, rules).minQuantity {
      dropped' := dropped + {d.index};
    } else {
      adjusted' := adjusted[d.index := Resized(adjusted[d.index], d.floored)];
    }
  }

  method DemoteLargestFirst(trades: seq<Trade>, floors: map<nat, real>, savings: map<nat, real>, rules: Rules,
                            cash: real)
    returns (out: seq<Trade>, ghost order: seq<Demotion>, ghost n: nat, ghost left: real)
    requires forall k | k in floors :: k < |trades| && k in savings && SavesOn(trades[k], floors[k], rules, savings[k])
    ensures DemotionOrder(floors, savings, order) && n <= |order|
    ensures out == Demoted(trades, floors, rules, IndexesOf(order[..n]))
    ensures Tracks(trades, floors, rules, cash, order, n, left) && (n == |order| || left <= CASH_EPS)
  {
    var demotable := DemotionsInOrder(|trades|, floors, savings);
    var overshoot := Overshoot(trades, cash);
    var adjusted, dropped: set<nat>, i := trades, {}, 0;
    DemotingStarts(trades, floors, savings, rules, cash, demotable);
    while i < |demotable| && overshoot > CASH_EPS
      invariant 0 <= i <= |demotable|
      invariant Demoting(trades, floors, savings, rules, cash, demotable, i, overshoot, adjusted, dropped)
    {
      overshoot, adjusted, dropped := DemoteNext(trades, floors, savings, rules, cash, demotable, i, overshoot, adjusted, dropped);
      i := i + 1;
    }
    order, n, left := demotable, i, overshoot;
    out := Kept(trades, floors, rules, IndexesOf(demotable[..i]), adjusted, dropped);
  }

  /** The working copies of the loop after demoting the given positions. */
  ghost predicate Applied(trades: seq<Trade>, floors: map<nat, real>, rules: Rules, which: set<nat>,
                          adjusted: seq<Trade>, dropped: set<nat>) {
    && |adjusted| == |trades|
    && (forall i: nat | i < |trades| :: i in dropped <==> Position(trades[i], i, floors, rules, which) == [])
    && (forall i: nat | i < |trades| && i !in dropped :: Position(trades[i], i, floors, rules, which) == [adjusted[i]])
    && (forall i: nat | i < |trades| && i !in which :: adjusted[i] == trades[i])
  }

  lemma AppliedNext(trades: seq<Trade>, floors: map<nat, real>, rules: Rules, which: set<nat>, adjusted: seq<Trade>,
                    dropped: set<nat>, i: nat)
    requires Applied(trades, floors, rules, which, adjusted, dropped) && i < |trades| && i in floors && i !in which
    ensures adjusted[i] == trades[i]
    ensures DemotedTrade(trades[i], floors[i], rules) == [] ==>
              Applied(trades, floors, rules, which + {i}, adjusted, dropped + {i})
    ensures DemotedTrade(trades[i], floors[i], rules) != [] ==>
              Applied(trades, floors, rules, which + {i}, adjusted[i := Resized(trades[i], floors[i])], dropped)
  {
    assert forall k: nat | k != i && k < |trades| ::
        Position(trades[k], k, floors, rules, which + {i}) == Position(trades[k], k, floors, rules, which);
  }

  method Kept(trades: seq<Trade>, ghost floors: map<nat, real>, ghost rules: Rules, ghost which: set<nat>,
              adjusted: seq<Trade>, dropped: set<nat>)
    returns (out: seq<Trade>)
    requires Applied(trades, floors, rules, which, adjusted, dropped)
    ensures out == Demoted(trades, floors, rules, which)
  {
    out := [];
    for i := 0 to |adjusted|
      invariant out == Demoted(trades[..i], floors, rules, which)
    {
      assert Front(trades[..i + 1]) == trades[..i];
      if i !in dropped {
        out := out + [adjusted[i]];
      }
    }
    assert trades[..|trades|] == trades;
  }

  // ---- the whole policy ----

  /** The plan with every quantity rounded down. */
  function FloorAll(trades: seq<Trade>, rules: Rules): seq<Trade> {
    if trades == [] then []
    else
      var rounded := RoundedDown(Last(trades), Resolve(Last(trades).ticker, rules));
      FloorAll(Front(trades), rules) + (if rounded.Some? then [rounded.value] else [])
  }

  function RoundedDown(t: Trade, rule: Rule): Option<Trade> {
    AtQuantity(t, RoundedQuantity(t.quantity, SELL, rule), rule)
  }

  predicate AllPlanned(trades: seq<Trade>) {
    forall i | 0 <= i < |trades| :: Planned(trades[i])
  }

  lemma RoundingOrder(quantity: real, rule: Rule)
    requires quantity >= 0.0
    ensures 0.0 <= RoundedQuantity(quantity, SELL, rule) <= RoundedQuantity(quantity, BUY, rule)
  {
    WholeOrder(quantity, rule);
    OnIncrementOrder(Whole(quantity, SELL, rule), Whole(quantity, BUY, rule), rule.increment);
  }

  lemma WholeOrder(quantity: real, rule: Rule)
    requires quantity >= 0.0
    ensures 0.0 <= Whole(quantity, SELL, rule) <= Whole(quantity, BUY, rule)
  {
    FloorOrder(0.0, quantity);
    FloorOrder(quantity, quantity + 0.5);
  }

  lemma OnIncrementOrder(down: real, near: real, increment: real)
    requires 0.0 <= down <= near
    ensures 0.0 <= OnIncrement(down, increment) <= OnIncrement(near, increment)
  {
    OnIncrementGrows(0.0, down, increment);
    OnIncrementGrows(down, near, increment);
  }

  lemma OnIncrementGrows(x: real, y: real, increment: real)
    requires x <= y
    ensures OnIncrement(x, increment) <= OnIncrement(y, increment)
    ensures OnIncrement(0.0, increment) == 0.0
  {
    if increment > 0.0 {
      DivOrder(x, y, increment);
      ScaleOrder((x / increment + COUNT_EPS).Floor as real, (y / increment + COUNT_EPS).Floor as real, increment);
    }
  }

  lemma RoundUpDemotable(t: Trade, rule: Rule)
    requires Planned(t) && Rounded(t, rule).Some? && RoundUpFloor(t, rule).Some?
    ensures DemotableAt(Rounded(t, rule).value, RoundUpFloor(t, rule).value)
  {
    RoundingOrder(t.quantity, rule);
  }

  lemma {:induction false} FloorsDemotable(trades: seq<Trade>, rules: Rules)
    requires AllPlanned(trades)
    ensures Demotable(RoundAll(trades, rules), Floors(trades, rules))
  {
    if trades != [] {
      FloorsDemotable(Front(trades), rules);
      var rule := Resolve(Last(trades).ticker, rules);
      if Rounded(Last(trades), rule).Some? && RoundUpFloor(Last(trades), rule).Some? {
        RoundUpDemotable(Last(trades), rule);
      }
    }
  }

  lemma {:induction false} DemotedAgrees(trades: seq<Trade>, floors: map<nat, real>, floors': map<nat, real>,
                                         rules: Rules, which: set<nat>, which': set<nat>)
    requires forall i: nat | i < |trades| :: (i in which && i in floors <==> i in which' && i in floors')
    requires forall i: nat | i < |trades| && i in which && i in floors :: floors'[i] == floors[i]
    ensures Demoted(trades, floors, rules, which) == Demoted(trades, floors', rules, which')
  {
    if trades != [] {
      DemotedAgrees(Front(trades), floors, floors', rules, which, which');
    }
  }

  /** Demoting one rounded trade, where it can be, is rounding it down. */
  lemma DemoteOneFloors(t: Trade, rules: Rules)
    requires Planned(t)
    ensures var rule := Resolve(t.ticker, rules);
            match Rounded(t, rule)
            case None => RoundedDown(t, rule) == None
            case Some(rounded) =>
              if RoundUpFloor(t, rule).Some?
              then DemotedTrade(rounded, RoundUpFloor(t, rule).value, rules)
                   == (if RoundedDown(t, rule).Some? then [RoundedDown(t, rule).value] else [])
              else Some(rounded) == RoundedDown(t, rule)
  {
    var rule := Resolve(t.ticker, rules);
    RoundingOrder(t.quantity, rule);
    if t.side == BUY {
      DemotedAtQuantity(t, RoundedQuantity(t.quantity, BUY, rule), RoundedQuantity(t.quantity, SELL, rule), rules);
    }
  }

  lemma DemotedAtQuantity(t: Trade, near: real, down: real, rules: Rules)
    requires Planned(t) && t.side == BUY && down <= near
    ensures var rule := Resolve(t.ticker, rules);
            match AtQuantity(t, near, rule)
            case None => AtQuantity(t, down, rule) == None
            case Some(rounded) =>
              DemotedTrade(rounded, down, rules)
              == (if AtQuantity(t, down, rule).Some? then [AtQuantity(t, down, rule).value] else [])
  {
    var x := if near != t.quantity then Resized(t, near) else t;
    assert x.referencePrice == t.referencePrice && x.ticker == t.ticker;
    assert Resized(x, down) == Resized(t, down);
    assert Resized(t, t.quantity) == t;
  }

  /** A trade rounded, or rounded down if it is a buy and is to be. */
  function Ended(t: Trade, rule: Rule, down: bool): Option<Trade> {
    if down && t.side == BUY then RoundedDown(t, rule) else Rounded(t, rule)
  }

  /** What the last trade of a plan becomes. */
  lemma LastEnds(t: Trade, n: nat, floors: map<nat, real>, rules: Rules, which: set<nat>, down: bool)
    requires Planned(t)
    requires var rule := Resolve(t.ticker, rules);
             Rounded(t, rule).Some? && (n in floors <==> RoundUpFloor(t, rule).Some?) && (n in floors ==> floors[n] == RoundUpFloor(t, rule).value)
    requires down <==> n in which && n in floors
    ensures var rule := Resolve(t.ticker, rules);
            Position(Rounded(t, rule).value, n, floors, rules, which)
            == (if Ended(t, rule, down).Some? then [Ended(t, rule, down).value] else [])
  {
    DemoteOneFloors(t, rules);
  }

  /** How rounding one more trade extends the rounded plan and its floors. */
  lemma RoundAllNext(trades: seq<Trade>, rules: Rules)
    requires trades != [] && AllPlanned(trades) && Rounded(Last(trades), Resolve(Last(trades).ticker, rules)).Some?
    ensures var before, floors, t := RoundAll(Front(trades), rules), Floors(trades, rules), Last(trades);
            var rule := Resolve(t.ticker, rules);
            && RoundAll(trades, rules) == before + [Rounded(t, rule).value]
            && (forall i: nat | i < |before| ::
                  && (i in floors <==> i in Floors(Front(trades), rules))
                  && (i in floors ==> floors[i] == Floors(Front(trades), rules)[i]))
            && (|before| in floors <==> RoundUpFloor(t, rule).Some?)
            && (|before| in floors ==> floors[|before|] == RoundUpFloor(t, rule).value)
  {
    FloorsDemotable(Front(trades), rules);
  }

  lemma DemotedAppend(before: seq<Trade>, t: Trade, floors: map<nat, real>, rules: Rules, which: set<nat>)
    ensures Demoted(before + [t], floors, rules, which) == Demoted(before, floors, rules, which) + Position(t, |before|, floors, rules, which)
  {
    assert Front(before + [t]) == before;
  }

  /** Demoting every round-up is rounding the whole plan down. */
  lemma {:induction false} DemoteAllFloors(trades: seq<Trade>, rules: Rules)
    requires AllPlanned(trades)
    ensures Demoted(RoundAll(trades, rules), Floors(trades, rules), rules, Floors(trades, rules).Keys) == FloorAll(trades, rules)
  {
    if trades != [] {
      var rest, t := Front(trades), Last(trades);
      DemoteAllFloors(rest, rules);
      DemoteOneFloors(t, rules);
      if Rounded(t, Resolve(t.ticker, rules)).Some? {
        FloorsNext(trades, rules);
      } else {
        assert RoundAll(trades, rules) == RoundAll(rest, rules);
      }
    }
  }

  lemma FloorsNext(trades: seq<Trade>, rules: Rules)
    requires trades != [] && AllPlanned(trades)
    requires Rounded(Last(trades), Resolve(Last(trades).ticker, rules)).Some?
    ensures var rest, down := Front(trades), RoundedDown(Last(trades), Resolve(Last(trades).ticker, rules));
            Demoted(RoundAll(trades, rules), Floors(trades, rules), rules, Floors(trades, rules).Keys)
            == Demoted(RoundAll(rest, rules), Floors(rest, rules), rules, Floors(rest, rules).Keys) + (if down.Some? then [down.value] else [])
  {
    var rest, t, floors := Front(trades), Last(trades), Floors(trades, rules);
    var before, rounded := RoundAll(rest, rules), Rounded(t, Resolve(t.ticker, rules)).value;
    RoundAllNext(trades, rules);
    DemotedAppend(before, rounded, floors, rules, floors.Keys);
    DemotedAgrees(before, Floors(rest, rules), floors, rules, Floors(rest, rules).Keys, floors.Keys);
    LastEnds(t, |before|, floors, rules, floors.Keys, |before| in floors);
    DemoteOneFloors(t, rules);
  }

  // ---- which round-ups are demoted ----

  /** The rule tables that settings can build. */
  predicate StandardRules(rules: Rules) {
    forall k | k in rules :: rules[k] == WHOLE_SHARE || rules[k] == FRACTIONAL
  }

  /** What demoting these positions is booked to save. */
  function SavedBy(trades: seq<Trade>, floors: map<nat, real>, which: set<nat>): real {
    if trades == [] then 0.0
    else
      var n := |trades| - 1;
      SavedBy(Front(trades), floors, which) + (if n in which && n in floors then Saving(Last(trades), floors[n]) else 0.0)
  }

  lemma {:induction false} SavedByOneMore(trades: seq<Trade>, floors: map<nat, real>, which: set<nat>, i: nat)
    requires i in floors && i !in which
    ensures SavedBy(trades, floors, which + {i}) == SavedBy(trades, floors, which) + (if i < |trades| then Saving(trades[i], floors[i]) else 0.0)
  {
    if trades != [] {
      SavedByOneMore(Front(trades), floors, which, i);
    }
  }

  lemma {:induction false} SavedByNone(trades: seq<Trade>, floors: map<nat, real>)
    ensures SavedBy(trades, floors, {}) == 0.0
  {
    if trades != [] {
      SavedByNone(Front(trades), floors);
    }
  }

  /** The loop's order books for its first positions what demoting them is booked to save. */
  lemma {:induction false} SavingsAreSavedBy(trades: seq<Trade>, floors: map<nat, real>, order: seq<Demotion>, n: nat)
    requires Demotable(trades, floors) && DemotionOrder(floors, Savings(trades, floors), order) && n <= |order|
    ensures SavingsOf(order[..n]) == SavedBy(trades, floors, IndexesOf(order[..n]))
  {
    if n == 0 {
      assert order[..0] == [] && IndexesOf(order[..0]) == {};
      SavedByNone(trades, floors);
    } else {
      SavingsAreSavedBy(trades, floors, order, n - 1);
      assert Front(order[..n]) == order[..n - 1];
      IndexesNext(order, n - 1);
      assert IsDemotion(floors, Savings(trades, floors), order[n - 1]);
      SavedByOneMore(trades, floors, IndexesOf(order[..n - 1]), order[n - 1].index);
    }
  }

  /** A larger saving is demoted first; among equal ones, the later position. */
  predicate Precedes(trades: seq<Trade>, floors: map<nat, real>, i: nat, j: nat)
    requires i in floors && j in floors && i < |trades| && j < |trades|
  {
    Saving(trades[i], floors[i]) > Saving(trades[j], floors[j]) || (Saving(trades[i], floors[i]) == Saving(trades[j], floors[j]) && i > j)
  }

  /** The positions to demote: those that come first, no more than it takes by the booked savings, and as
      many as it takes unless they run out. */
  ghost predicate Chosen(trades: seq<Trade>, floors: map<nat, real>, which: set<nat>, cash: real) {
    && (forall i | i in floors :: i < |trades|) && which <= floors.Keys
    && (forall i, j | i in which && j in floors && j !in which :: Precedes(trades, floors, i, j))
    && (forall i | i in which :: Overshoot(trades, cash) - SavedBy(trades, floors, which) + Saving(trades[i], floors[i]) > CASH_EPS)
    && (which == floors.Keys || Overshoot(trades, cash) - SavedBy(trades, floors, which) <= CASH_EPS)
  }

  /** The loop's prefix is that choice. */
  lemma PrefixIsChosen(trades: seq<Trade>, floors: map<nat, real>, order: seq<Demotion>, n: nat, cash: real)
    requires Demotable(trades, floors) && DemotionOrder(floors, Savings(trades, floors), order) && n <= |order|
    requires forall m | 0 <= m < n :: Overshoot(trades, cash) - SavingsOf(order[..m]) > CASH_EPS
    requires n < |order| ==> Overshoot(trades, cash) - SavingsOf(order[..n]) <= CASH_EPS
    ensures Chosen(trades, floors, IndexesOf(order[..n]), cash)
  {
    var which := IndexesOf(order[..n]);
    SavingsAreSavedBy(trades, floors, order, n);
    assert which <= IndexesOf(order);
    assert n == |order| ==> order[..n] == order;
    forall i | i in which ensures Overshoot(trades, cash) - SavingsOf(order[..n]) + Saving(trades[i], floors[i]) > CASH_EPS {
      PrefixNeeded(trades, floors, order, n, cash, i);
    }
    forall i, j | i in which && j in floors && j !in which ensures Precedes(trades, floors, i, j) {
      PrefixPrecedes(trades, floors, order, n, i, j);
    }
  }

  lemma PrefixNeeded(trades: seq<Trade>, floors: map<nat, real>, order: seq<Demotion>, n: nat, cash: real, i: nat)
    requires Demotable(trades, floors) && DemotionOrder(floors, Savings(trades, floors), order) && n <= |order|
    requires forall m | 0 <= m < n :: Overshoot(trades, cash) - SavingsOf(order[..m]) > CASH_EPS
    requires i in IndexesOf(order[..n])
    ensures i in floors && Overshoot(trades, cash) - SavingsOf(order[..n]) + Saving(trades[i], floors[i]) > CASH_EPS
  {
    var k :| 0 <= k < n && order[k].index == i;
    assert Front(order[..n]) == order[..n - 1] && Last(order[..n]) == order[n - 1];
    assert IsDemotion(floors, Savings(trades, floors), order[k]);
    assert order[k].saving >= order[n - 1].saving;
  }

  lemma PlaceAfter(order: seq<Demotion>, n: nat, j: nat) returns (b: nat)
    requires n <= |order| && j in IndexesOf(order) && j !in IndexesOf(order[..n])
    ensures n <= b < |order| && order[b].index == j
  {
    b :| 0 <= b < |order| && order[b].index == j;
    assert forall m | 0 <= m < n :: order[..n][m].index in IndexesOf(order[..n]);
  }

  lemma PrefixPrecedes(trades: seq<Trade>, floors: map<nat, real>, order: seq<Demotion>, n: nat, i: nat, j: nat)
    requires Demotable(trades, floors) && DemotionOrder(floors, Savings(trades, floors), order) && n <= |order|
    requires i in IndexesOf(order[..n]) && j in floors && j !in IndexesOf(order[..n])
    ensures i in floors && Precedes(trades, floors, i, j)
  {
    var a :| 0 <= a < n && order[a].index == i;
    var b := PlaceAfter(order, n, j);
    assert IsDemotion(floors, Savings(trades, floors), order[a]) && IsDemotion(floors, Savings(trades, floors), order[b]);
    assert order[a].Before(order[b]);
  }

  /** There is only one such choice. */
  lemma ChosenIsDetermined(trades: seq<Trade>, floors: map<nat, real>, a: set<nat>, b: set<nat>, cash: real)
    requires Chosen(trades, floors, a, cash) && Chosen(trades, floors, b, cash)
    requires forall i | i in floors :: Saving(trades[i], floors[i]) >= 0.0
    ensures a == b
  {
    if !(a <= b) {
      ChosenNoMore(trades, floors, a, b, cash);
    } else if !(b <= a) {
      ChosenNoMore(trades, floors, b, a, cash);
    }
  }

  lemma ChosenNoMore(trades: seq<Trade>, floors: map<nat, real>, a: set<nat>, b: set<nat>, cash: real)
    requires Chosen(trades, floors, a, cash) && Chosen(trades, floors, b, cash)
    requires forall i | i in floors :: Saving(trades[i], floors[i]) >= 0.0
    ensures a <= b
  {
    if i :| i in a && i !in b {
      assert b <= a by {
        forall j | j in b ensures j in a {
          assert Precedes(trades, floors, j, i);
          assert j !in a ==> Precedes(trades, floors, i, j);
        }
      }
      SavedByMore(trades, floors, b + {i}, a);
      SavedByOneMore(trades, floors, b, i);
      assert false;
    }
  }

  lemma {:induction false} SavedByMore(trades: seq<Trade>, floors: map<nat, real>, some: set<nat>, all: set<nat>)
    requires some <= all && forall i | i in floors && i < |trades| :: Saving(trades[i], floors[i]) >= 0.0
    ensures SavedBy(trades, floors, some) <= SavedBy(trades, floors, all)
  {
    if trades != [] {
      forall i | i in floors && i < |Front(trades)| ensures Saving(Front(trades)[i], floors[i]) >= 0.0 {
        assert Front(trades)[i] == trades[i];
      }
      SavedByMore(Front(trades), floors, some, all);
    }
  }

  /** A position is only dropped when nothing would be left of it. */
  predicate WholeFloors(trades: seq<Trade>, floors: map<nat, real>, rules: Rules) {
    forall i | i in floors && i < |trades| :: DemotedTrade(trades[i], floors[i], rules) == [] ==> floors[i] == 0.0
  }

  lemma FloorIsWhole(t: Trade, rules: Rules)
    requires StandardRules(rules) && Planned(t)
    ensures var floored := RoundUpFloor(t, Resolve(t.ticker, rules));
            floored.Some? && (floored.value <= 0.0 || floored.value < Resolve(t.ticker, rules).minQuantity) ==> floored.value == 0.0
  {
    var rule := Resolve(t.ticker, rules);
    if rule == WHOLE_SHARE {
      WholeShareRounding(t.quantity, rule);
    }
  }

  lemma {:induction false} FloorsWhole(trades: seq<Trade>, rules: Rules)
    requires AllPlanned(trades) && StandardRules(rules)
    ensures WholeFloors(RoundAll(trades, rules), Floors(trades, rules), rules)
  {
    if trades != [] {
      FloorsWhole(Front(trades), rules);
      if Rounded(Last(trades), Resolve(Last(trades).ticker, rules)).Some? {
        RoundAllNext(trades, rules);
        FloorIsWhole(Last(trades), rules);
      } else {
        assert RoundAll(trades, rules) == RoundAll(Front(trades), rules);
      }
    }
  }

  /** Then demoting saves exactly what is booked. */
  lemma {:induction false} DemotedCashExactly(trades: seq<Trade>, floors: map<nat, real>, rules: Rules, which: set<nat>)
    requires WholeFloors(trades, floors, rules)
    requires forall i | i in floors && i < |trades| :: DemotableAt(trades[i], floors[i])
    ensures BuyCashOf(Demoted(trades, floors, rules, which)) == BuyCashOf(trades) - SavedBy(trades, floors, which)
    ensures SellCreditOf(Demoted(trades, floors, rules, which)) == SellCreditOf(trades)
  {
    DemotionKeepsSells(trades, floors, rules, which);
    if trades != [] {
      var n, t, rest := |trades| - 1, Last(trades), Front(trades);
      assert forall i: nat | i < n :: rest[i] == trades[i];
      DemotedCashExactly(rest, floors, rules, which);
      BuyCashAppendSome(Demoted(rest, floors, rules, which), Position(t, n, floors, rules, which));
      if n in which && n in floors {
        DemotionSavesExactly(t, floors[n], rules);
      }
    }
  }

  lemma DemotionSavesExactly(t: Trade, floored: real, rules: Rules)
    requires DemotableAt(t, floored) && (DemotedTrade(t, floored, rules) == [] ==> floored == 0.0)
    ensures BuyCashIn(DemotedTrade(t, floored, rules)) == t.BuyCash() - Saving(t, floored)
  {
    PlannedBuyCash(t);
    ResizedBuyCash(t, floored);
    Distribute(t.quantity, floored, UnitCash(t));
  }

  /** Without any one of the chosen demotions the plan would not fit the cash. */
  lemma EachIsNeeded(trades: seq<Trade>, floors: map<nat, real>, rules: Rules, which: set<nat>, cash: real, i: nat)
    requires Demotable(trades, floors) && WholeFloors(trades, floors, rules) && Chosen(trades, floors, which, cash)
    requires i in which
    ensures CashBlocked(Demoted(trades, floors, rules, which - {i}), cash)
  {
    DemotedCashExactly(trades, floors, rules, which - {i});
    SavedByOneMore(trades, floors, which - {i}, i);
    assert which - {i} + {i} == which;
  }

  // ---- what comes out is a plan again ----

  predicate DistinctTickers(trades: seq<Trade>) {
    forall i, j | 0 <= i < j < |trades| :: trades[i].ticker != trades[j].ticker
  }

  predicate AllTraded(trades: seq<Trade>) {
    forall i | 0 <= i < |trades| :: Planned(trades[i]) && trades[i].quantity > 0.0
  }

  /** A selection of `trades`, by ticker, in order. */
  ghost predicate Selects(out: seq<Trade>, trades: seq<Trade>) {
    && (DistinctTickers(trades) ==> DistinctTickers(out))
    && forall u | u in out :: exists t :: t in trades && t.ticker == u.ticker && t.side == u.side
  }

  lemma SelectsNext(out: seq<Trade>, trades: seq<Trade>, kept: seq<Trade>)
    requires trades != [] && Selects(out, Front(trades)) && |kept| <= 1
    requires forall u | u in kept :: u.ticker == Last(trades).ticker && u.side == Last(trades).side
    ensures Selects(out + kept, trades)
  {
    assert trades == Front(trades) + [Last(trades)];
    if DistinctTickers(trades) {
      forall u | u in out ensures u.ticker != Last(trades).ticker {
        var t :| t in Front(trades) && t.ticker == u.ticker && t.side == u.side;
      }
    }
  }

  lemma ResizedPlanned(t: Trade, quantity: real)
    requires Planned(t) && quantity > 0.0
    ensures Planned(Resized(t, quantity))
  {
  }

  lemma {:induction false} RoundAllTraded(trades: seq<Trade>, rules: Rules)
    requires AllPlanned(trades)
    ensures AllTraded(RoundAll(trades, rules)) && Selects(RoundAll(trades, rules), trades)
  {
    if trades != [] {
      RoundAllTraded(Front(trades), rules);
      var t := Last(trades);
      assert Planned(t);
      var rule := Resolve(t.ticker, rules);
      var rounded := Rounded(t, rule);
      if rounded.Some? {
        ResizedPlanned(t, RoundedQuantity(t.quantity, t.side, rule));
      }
      SelectsNext(RoundAll(Front(trades), rules), trades, if rounded.Some? then [rounded.value] else []);
    }
  }

  lemma PositionTraded(t: Trade, i: nat, floors: map<nat, real>, rules: Rules, which: set<nat>)
    requires Planned(t) && t.quantity > 0.0
    ensures AllTraded(Position(t, i, floors, rules, which))
    ensures forall u | u in Position(t, i, floors, rules, which) :: u.ticker == t.ticker && u.side == t.side
  {
    if i in which && i in floors && floors[i] > 0.0 {
      ResizedPlanned(t, floors[i]);
    }
  }

  lemma {:induction false} DemotedTraded(trades: seq<Trade>, floors: map<nat, real>, rules: Rules, which: set<nat>)
    requires AllTraded(trades)
    ensures AllTraded(Demoted(trades, floors, rules, which)) && Selects(Demoted(trades, floors, rules, which), trades)
  {
    if trades != [] {
      var t, n := Last(trades), |trades| - 1;
      DemotedTraded(Front(trades), floors, rules, which);
      PositionTraded(t, n, floors, rules, which);
      SelectsNext(Demoted(Front(trades), floors, rules, which), trades, Position(t, n, floors, rules, which));
    }
  }

  lemma SelectsTwice(a: seq<Trade>, b: seq<Trade>, c: seq<Trade>)
    requires Selects(a, b) && Selects(b, c)
    ensures Selects(a, c)
  {
    forall u | u in a ensures exists t :: t in c && t.ticker == u.ticker && t.side == u.side {
      var t :| t in b && t.ticker == u.ticker && t.side == u.side;
    }
  }

  /** Every trade rounded, the buys of the given tickers down. */
  function PolicyOf(trades: seq<Trade>, rules: Rules, down: set<string>): seq<Trade> {
    if trades == [] then []
    else
      var ended := Ended(Last(trades), Resolve(Last(trades).ticker, rules), Last(trades).ticker in down);
      PolicyOf(Front(trades), rules, down) + (if ended.Some? then [ended.value] else [])
  }

  /** The tickers of the demoted positions. */
  function DownAt(rounded: seq<Trade>, floors: map<nat, real>, which: set<nat>): set<string> {
    set i: nat | i < |rounded| && i in which && i in floors :: rounded[i].ticker
  }

  /** The tickers are those of the demoted positions. */
  predicate DownIs(rounded: seq<Trade>, floors: map<nat, real>, which: set<nat>, down: set<string>) {
    forall i: nat | i < |rounded| :: rounded[i].ticker in down <==> i in which && i in floors
  }

  /** Demoting some round-ups of the rounded plan is rounding some of its buys down. */
  lemma {:induction false} DemotedIsPolicy(trades: seq<Trade>, rules: Rules, which: set<nat>, down: set<string>)
    requires AllPlanned(trades) && DownIs(RoundAll(trades, rules), Floors(trades, rules), which, down)
    ensures Demoted(RoundAll(trades, rules), Floors(trades, rules), rules, which) == PolicyOf(trades, rules, down)
  {
    if trades != [] {
      var rest, t := Front(trades), Last(trades);
      if Rounded(t, Resolve(t.ticker, rules)).Some? {
        DownIsRest(trades, rules, which, down);
        DemotedIsPolicy(rest, rules, which, down);
        PolicyNext(trades, rules, which, t.ticker in down);
      } else {
        DemoteOneFloors(t, rules);
        assert RoundAll(trades, rules) == RoundAll(rest, rules);
        DemotedIsPolicy(rest, rules, which, down);
      }
    }
  }

  lemma DownIsRest(trades: seq<Trade>, rules: Rules, which: set<nat>, down: set<string>)
    requires trades != [] && AllPlanned(trades) && DownIs(RoundAll(trades, rules), Floors(trades, rules), which, down)
    requires Rounded(Last(trades), Resolve(Last(trades).ticker, rules)).Some?
    ensures var rest, n := Front(trades), |RoundAll(Front(trades), rules)|;
            && DownIs(RoundAll(rest, rules), Floors(rest, rules), which, down)
            && (Last(trades).ticker in down <==> n in which && n in Floors(trades, rules))
  {
    RoundAllNext(trades, rules);
    var before, all := RoundAll(Front(trades), rules), RoundAll(trades, rules);
    assert all[|before|].ticker == Last(trades).ticker && forall i: nat | i < |before| :: all[i] == before[i];
  }

  lemma PolicyNext(trades: seq<Trade>, rules: Rules, which: set<nat>, down: bool)
    requires trades != [] && AllPlanned(trades)
    requires Rounded(Last(trades), Resolve(Last(trades).ticker, rules)).Some?
    requires var n := |RoundAll(Front(trades), rules)|; down <==> n in which && n in Floors(trades, rules)
    ensures var rest, ended := Front(trades), Ended(Last(trades), Resolve(Last(trades).ticker, rules), down);
            Demoted(RoundAll(trades, rules), Floors(trades, rules), rules, which)
            == Demoted(RoundAll(rest, rules), Floors(rest, rules), rules, which) + (if ended.Some? then [ended.value] else [])
  {
    var rest, t, floors := Front(trades), Last(trades), Floors(trades, rules);
    var before, rounded := RoundAll(rest, rules), Rounded(t, Resolve(t.ticker, rules)).value;
    RoundAllNext(trades, rules);
    DemotedAppend(before, rounded, floors, rules, which);
    DemotedAgrees(before, Floors(rest, rules), floors, rules, which, which);
    LastEnds(t, |before|, floors, rules, which, down);
  }

  lemma {:induction false} NoneDown(trades: seq<Trade>, rules: Rules)
    ensures PolicyOf(trades, rules, {}) == RoundAll(trades, rules)
  {
    if trades != [] {
      NoneDown(Front(trades), rules);
    }
  }

  /** Round every trade, then demote round-ups if the rounded plan does not fit the cash.  Rounding
      up never makes an affordable plan unaffordable: what comes out is blocked for cash exactly
      when the plan rounded down throughout would be.  A rounded plan that fits is left alone.  The
      buys of the tickers `down`, at the positions `which` of the rounded plan, are those rounded down:
      the largest savings, and none that is not needed. */
  method ApplyExecutionPolicy(trades: seq<Trade>, rules: Rules, cash: Option<real>)
    returns (out: seq<Trade>, ghost down: set<string>, ghost which: set<nat>)
    requires AllPlanned(trades)
    ensures down == DownAt(RoundAll(trades, rules), Floors(trades, rules), which)
    ensures cash.Some? ==> Chosen(RoundAll(trades, rules), Floors(trades, rules), which, cash.value)
    ensures cash.Some? && DistinctTickers(trades) && StandardRules(rules) ==>
              forall k | k in down :: CashBlocked(PolicyOf(trades, rules, down - {k}), cash.value)
    ensures DistinctTickers(trades) ==> out == PolicyOf(trades, rules, down)
    ensures cash.None? || !CashBlocked(RoundAll(trades, rules), cash.value) ==> down == {}
    ensures cash.None? ==> out == RoundAll(trades, rules)
    ensures cash.Some? && !CashBlocked(RoundAll(trades, rules), cash.value) ==> out == RoundAll(trades, rules)
    ensures cash.Some? ==> (CashBlocked(out, cash.value) <==> CashBlocked(FloorAll(trades, rules), cash.value))
    ensures AllTraded(out) && Selects(out, trades)
  {
    var adjusted, floors := RoundPlan(trades, rules);
    RoundAllTraded(trades, rules);
    NoneDown(trades, rules);
    if cash.None? {
      return adjusted, {}, {};
    }
    FloorsDemotable(trades, rules);
    ghost var order: seq<Demotion>, n: nat;
    out, order, n := DemoteBuyRoundups(adjusted, floors, rules, cash.value);
    DemoteAllFloors(trades, rules);
    which := IndexesOf(order[..n]);
    down := PolicyKept(trades, rules, adjusted, floors, which, out);
    PrefixIsChosen(adjusted, floors, order, n, cash.value);
    if DistinctTickers(trades) && StandardRules(rules) {
      DownIsNeeded(trades, rules, which, cash.value);
    }
    assert order[..0] == [] && IndexesOf(order[..0]) == {};
  }

  /** The same, ticker by ticker. */
  lemma DownIsNeeded(trades: seq<Trade>, rules: Rules, which: set<nat>, cash: real)
    requires AllPlanned(trades) && DistinctTickers(trades) && StandardRules(rules)
    requires Chosen(RoundAll(trades, rules), Floors(trades, rules), which, cash)
    ensures var down := DownAt(RoundAll(trades, rules), Floors(trades, rules), which);
            forall k | k in down :: CashBlocked(PolicyOf(trades, rules, down - {k}), cash)
  {
    var rounded, floors := RoundAll(trades, rules), Floors(trades, rules);
    var down := DownAt(rounded, floors, which);
    RoundAllTraded(trades, rules);
    FloorsDemotable(trades, rules);
    FloorsWhole(trades, rules);
    forall k | k in down ensures CashBlocked(PolicyOf(trades, rules, down - {k}), cash) {
      TickerIsNeeded(trades, rules, rounded, floors, which, down, cash, k);
    }
  }

  lemma TickerIsNeeded(trades: seq<Trade>, rules: Rules, rounded: seq<Trade>, floors: map<nat, real>, which: set<nat>,
                       down: set<string>, cash: real, k: string)
    requires AllPlanned(trades) && rounded == RoundAll(trades, rules) && floors == Floors(trades, rules)
    requires Demotable(rounded, floors) && WholeFloors(rounded, floors, rules) && Chosen(rounded, floors, which, cash)
    requires DistinctTickers(rounded) && down == DownAt(rounded, floors, which) && k in down
    ensures CashBlocked(PolicyOf(trades, rules, down - {k}), cash)
  {
    var i: nat :| i < |rounded| && i in which && i in floors && rounded[i].ticker == k;
    EachIsNeeded(rounded, floors, rules, which, cash, i);
    OneLess(trades, rules, rounded, floors, which, down, i, k);
  }

  lemma OneLess(trades: seq<Trade>, rules: Rules, rounded: seq<Trade>, floors: map<nat, real>, which: set<nat>,
                down: set<string>, i: nat, k: string)
    requires AllPlanned(trades) && rounded == RoundAll(trades, rules) && floors == Floors(trades, rules)
    requires DistinctTickers(rounded) && down == DownAt(rounded, floors, which)
    requires i < |rounded| && i in which && i in floors && rounded[i].ticker == k
    ensures Demoted(rounded, floors, rules, which - {i}) == PolicyOf(trades, rules, down - {k})
  {
    DownAtIs(rounded, floors, which);
    forall j: nat | j < |rounded| ensures rounded[j].ticker in down - {k} <==> j in which - {i} && j in floors {
      assert j != i ==> rounded[j].ticker != rounded[i].ticker;
    }
    DemotedIsPolicy(trades, rules, which - {i}, down - {k});
  }

  /** What demoting some positions of the rounded plan gives. */
  lemma PolicyKept(trades: seq<Trade>, rules: Rules, adjusted: seq<Trade>, floors: map<nat, real>, which: set<nat>,
                   out: seq<Trade>)
    returns (down: set<string>)
    requires AllPlanned(trades) && adjusted == RoundAll(trades, rules) && floors == Floors(trades, rules)
    requires out == Demoted(adjusted, floors, rules, which)
    ensures AllTraded(out) && Selects(out, trades)
    ensures DistinctTickers(trades) ==> out == PolicyOf(trades, rules, down)
    ensures which == {} ==> out == adjusted && down == {}
    ensures down == DownAt(adjusted, floors, which)
  {
    RoundAllTraded(trades, rules);
    DemotedTraded(adjusted, floors, rules, which);
    SelectsTwice(out, adjusted, trades);
    down := DownAt(adjusted, floors, which);
    if DistinctTickers(trades) {
      DownAtIs(adjusted, floors, which);
      DemotedIsPolicy(trades, rules, which, down);
    }
    if which == {} {
      DemoteNone(adjusted, floors, rules);
    }
  }

  lemma DownAtIs(rounded: seq<Trade>, floors: map<nat, real>, which: set<nat>)
    requires DistinctTickers(rounded)
    ensures DownIs(rounded, floors, which, DownAt(rounded, floors, which))
  {
    var down := DownAt(rounded, floors, which);
    forall i: nat | i < |rounded| ensures rounded[i].ticker in down <==> i in which && i in floors {
      if rounded[i].ticker in down {
        var j: nat :| j < |rounded| && j in which && j in floors && rounded[j].ticker == rounded[i].ticker;
        assert j == i;
      }
    }
  }

  /** Round every trade, and remember what the round-ups can be demoted to. */
  method RoundPlan(trades: seq<Trade>, rules: Rules) returns (adjusted: seq<Trade>, floors: map<nat, real>)
    ensures adjusted == RoundAll(trades, rules) && floors == Floors(trades, rules)
  {
    adjusted, floors := [], map[];
    for i := 0 to |trades|
      invariant adjusted == RoundAll(trades[..i], rules) && floors == Floors(trades[..i], rules)
    {
      assert Front(trades[..i + 1]) == trades[..i] && Last(trades[..i + 1]) == trades[i];
      var rule := Resolve(trades[i].ticker, rules);
      var rounded := Rounded(trades[i], rule);
      if rounded.None? {
        continue;
      }
      var floored := RoundUpFloor(trades[i], rule);
      if floored.Some? {
        floors := floors[|adjusted| := floored.value];
      }
      adjusted := adjusted + [rounded.value];
    }
    assert trades[..|trades|] == trades;
  }
}
