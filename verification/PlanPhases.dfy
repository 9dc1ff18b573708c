/** How a plan passes through tagging, replay, and the cash fit (src/poma/execution_manager.py,
    submit_plan): statements about values that the methods of ExecutionManager rely on. */
module PlanPhases {
  import opened Models
  import opened OrderLifecycle
  import opened BrokerModel
  import opened OrderStorage
  import opened LedgerInvariant
  import opened Recording
  import opened ExecutionPolicy
  import opened ExecutionPricing
  import opened Repricing
  import opened CashFit
  import opened QuoteSifting
  import opened FamilyShares
  import opened Submissions
  import opened Environment

  /** What submit_plan is handed: one trade per ticker, and buys worth their quantity. */
  predicate Executable(plan: Plan) {
    && DistinctTickers(plan.trades)
    && forall i | 0 <= i < |plan.trades| && plan.trades[i].side == BUY :: Fundable(plan.trades[i])
  }

  /** What the planning pipeline delivers may be executed. */
  lemma TradedIsExecutable(plan: Plan)
    requires AllTraded(plan.trades) && DistinctTickers(plan.trades)
    ensures Executable(plan)
  {
  }

  function OfSide(trades: seq<Trade>, side: Side): seq<Trade> {
    if trades == [] then []
    else OfSide(Front(trades), side) + (if Last(trades).side == side then [Last(trades)] else [])
  }

  lemma {:induction false} OfSideMembers(trades: seq<Trade>, side: Side)
    ensures forall t :: t in OfSide(trades, side) <==> t in trades && t.side == side
    ensures DistinctTickers(trades) ==> DistinctTickers(OfSide(trades, side))
  {
    if trades != [] {
      OfSideMembers(Front(trades), side);
      assert trades == Front(trades) + [Last(trades)];
      forall t | t in Front(trades) && DistinctTickers(trades) ensures t.ticker != Last(trades).ticker {
      }
    }
  }

  // ---- tags ----

  /** Trade `i` under the run's key for its ticker and side, or a new key. */
  predicate TagOf(run: string, t: Trade, tagged: Trade) {
    && Tagged(run, tagged) && tagged == t.(orderRef := tagged.orderRef)
  }

  ghost predicate TagsOf(l: Ledger, run: string, trades: seq<Trade>, tagged: seq<Trade>) {
    && |tagged| == |trades|
    && forall i | 0 <= i < |trades| :: TagOf(run, trades[i], tagged[i]) && OwnKey(l, run, tagged[i])
  }

  lemma TagsBatch(l: Ledger, run: string, trades: seq<Trade>, tagged: seq<Trade>)
    requires TagsOf(l, run, trades, tagged) && DistinctTickers(trades)
    ensures Batch(run, tagged) && TickersOf(tagged) == TickersOf(trades)
  {
    assert forall i | 0 <= i < |trades| :: tagged[i].ticker == trades[i].ticker;
    forall k | k in TickersOf(trades) ensures k in TickersOf(tagged) {
      var j :| 0 <= j < |trades| && trades[j].ticker == k;
      assert tagged[j].ticker == k;
    }
  }

  lemma TagIsOwnKey(l: Ledger, os: seq<Order>, run: string, t: Trade, prior: Option<Entry>, key: Ref)
    requires Inv(l, os)
    requires match prior
             case Some(row) =>
               (exists k :: k in l && l[k] == row) && row.run == run && row.ticker == t.ticker && row.side == t.side && key == row.key
             case None =>
               key.Root? && key.run == run && key.ticker == t.ticker && key.side == t.side
               && forall k | k in l :: !(l[k].run == run && l[k].ticker == t.ticker && l[k].side == t.side)
    ensures TagOf(run, t, t.(orderRef := Some(key))) && OwnKey(l, run, t.(orderRef := Some(key)))
  {
    if prior.Some? {
      var k :| k in l && l[k] == prior.value;
      assert RowOK(k, l[k], os);
    }
  }

  /** The run's key for the ticker and side, else the given new one. */
  function KeyFor(run: string, t: Trade, index: nat, prior: map<(string, Side), Entry>): Ref {
    if (t.ticker, t.side) in prior then prior[(t.ticker, t.side)].key else Root(run, index, t.ticker, t.side)
  }

  lemma KeyForIsOwn(l: Ledger, os: seq<Order>, run: string, t: Trade, index: nat, prior: map<(string, Side), Entry>)
    requires Inv(l, os) && RunTrades(l, run, prior)
    ensures var tagged := t.(orderRef := Some(KeyFor(run, t, index, prior)));
            TagOf(run, t, tagged) && OwnKey(l, run, tagged)
  {
    TagIsOwnKey(l, os, run, t, if (t.ticker, t.side) in prior then Some(prior[(t.ticker, t.side)]) else None, KeyFor(run, t, index, prior));
  }

  method TagAll(ghost l: Ledger, ghost os: seq<Order>, run: string, trades: seq<Trade>, offset: nat,
                prior: map<(string, Side), Entry>)
    returns (tagged: seq<Trade>)
    requires Inv(l, os) && RunTrades(l, run, prior)
    ensures TagsOf(l, run, trades, tagged)
  {
    tagged := [];
    for i := 0 to |trades|
      invariant |tagged| == i && FirstTags(l, run, trades, tagged)
    {
      var next := trades[i].(orderRef := Some(KeyFor(run, trades[i], offset + i, prior)));
      KeyForIsOwn(l, os, run, trades[i], offset + i, prior);
      FirstTagsNext(l, run, trades, tagged, next);
      tagged := tagged + [next];
    }
  }

  /** The tags of the first trades. */
  ghost predicate FirstTags(l: Ledger, run: string, trades: seq<Trade>, tagged: seq<Trade>) {
    |tagged| <= |trades| && forall j | 0 <= j < |tagged| :: TagOf(run, trades[j], tagged[j]) && OwnKey(l, run, tagged[j])
  }

  lemma FirstTagsNext(l: Ledger, run: string, trades: seq<Trade>, tagged: seq<Trade>, next: Trade)
    requires FirstTags(l, run, trades, tagged) && |tagged| < |trades|
    requires TagOf(run, trades[|tagged|], next) && OwnKey(l, run, next)
    ensures FirstTags(l, run, trades, tagged + [next])
  {
  }

  // ---- replay ----

  /** The row of this key is still what it was when the ledger was read. */
  predicate SameRow(l: Ledger, latest: Ledger, key: Ref) {
    (key in l <==> key in latest) && (key in l ==> l[key] == latest[key])
  }

  function ReplayResult(t: Trade, row: Entry): OrderResult {
    OrderResult(t.ticker, t.side, t.quantity, row.orderId, IdempotentReplay, row.filled, true)
  }

  /** The trades that may be submitted again, in order. */
  function DueOf(tagged: seq<Trade>, latest: Ledger): seq<Trade> {
    if tagged == [] then []
    else
      var t := Last(tagged);
      DueOf(Front(tagged), latest) + (if t.orderRef.Some? && Resubmittable(latest, KeyOf(t)) then [t] else [])
  }

  lemma {:induction false} DueMembers(tagged: seq<Trade>, latest: Ledger)
    ensures forall t :: t in DueOf(tagged, latest) <==> t in tagged && t.orderRef.Some? && Resubmittable(latest, KeyOf(t))
  {
    if tagged != [] {
      DueMembers(Front(tagged), latest);
      assert tagged == Front(tagged) + [Last(tagged)];
    }
  }

  /** Trades that already reached the broker are answered from their row. */
  ghost predicate Replayed(tagged: seq<Trade>, latest: Ledger, answers: Answers) {
    forall t | t in tagged && t.orderRef.Some? && !Resubmittable(latest, KeyOf(t)) ::
      t.ticker in answers && answers[t.ticker] == ReplayResult(t, latest[KeyOf(t)])
  }

  /** The first `n` trades went through the planning phase. */
  ghost predicate Planning(l: Ledger, os: seq<Order>, run: string, session: string, tagged: seq<Trade>, latest: Ledger, n: nat,
                           due: seq<Trade>, before: Answers, after: Answers) {
    && n <= |tagged| && Batch(run, tagged)
    && due == DueOf(tagged[..n], latest) && AllPending(l, os, run, due)
    && (forall j | n <= j < |tagged| :: SameRow(l, latest, KeyOf(tagged[j])) && OwnKey(l, run, tagged[j]))
    && Replayed(tagged[..n], latest, after)
    && KeepsAnswers(before, after, TickersOf(tagged))
  }

  /** The rows of these trades say that they are planned, and nothing more. */
  ghost predicate PlannedRows(l: Ledger, run: string, session: string, due: seq<Trade>) {
    forall u | u in due :: u.orderRef.Some? && KeyOf(u) in l && l[KeyOf(u)] == PlannedEntry(run, session, u)
  }

  lemma PlannedRowsNext(l: Ledger, os: seq<Order>, l': Ledger, os': seq<Order>, run: string, session: string,
                        due: seq<Trade>, t: Trade)
    requires PlannedRows(l, run, session, due) && t.orderRef.Some? && StepsIn({KeyOf(t)}, l, os, l', os')
    requires forall u | u in due :: u.orderRef.Some? && KeyOf(u) != KeyOf(t)
    requires KeyOf(t) in l' && l'[KeyOf(t)] == PlannedEntry(run, session, t)
    ensures PlannedRows(l', run, session, due + [t])
  {
  }

  lemma SameRowElsewhere(l: Ledger, os: seq<Order>, l': Ledger, os': seq<Order>, run: string, t: Trade,
                         latest: Ledger, keys: set<Ref>)
    requires Tagged(run, t) && SameRow(l, latest, KeyOf(t)) && OwnKey(l, run, t)
    requires StepsIn(keys, l, os, l', os') && RowsOK(l', os') && KeyOf(t) !in keys
    requires forall k | k in keys :: k.Root? && k.ticker != t.ticker
    ensures SameRow(l', latest, KeyOf(t)) && OwnKey(l', run, t)
  {
    forall k | k in l' && l'[k].run == run && l'[k].ticker == t.ticker && l'[k].side == t.side ensures k == KeyOf(t) {
      assert RowOK(k, l'[k], os');
      assert k !in keys;
    }
  }

  lemma DueNext(run: string, tagged: seq<Trade>, latest: Ledger, n: nat)
    requires Batch(run, tagged) && n < |tagged|
    ensures DueOf(tagged[..n + 1], latest)
         == DueOf(tagged[..n], latest) + (if Resubmittable(latest, KeyOf(tagged[n])) then [tagged[n]] else [])
    ensures forall u | u in DueOf(tagged[..n], latest) :: Tagged(run, u) && u.ticker != tagged[n].ticker && KeyOf(u) != KeyOf(tagged[n])
  {
    assert Front(tagged[..n + 1]) == tagged[..n];
    DueMembers(tagged[..n], latest);
    forall u | u in DueOf(tagged[..n], latest) ensures Tagged(run, u) && u.ticker != tagged[n].ticker {
      var j :| 0 <= j < n && tagged[j] == u;
      assert tagged[j].ticker != tagged[n].ticker;
    }
  }

  lemma PlanningDue(l: Ledger, os: seq<Order>, l': Ledger, run: string, session: string, tagged: seq<Trade>, latest: Ledger, n: nat,
                      due: seq<Trade>, before: Answers, after: Answers)
    requires Planning(l, os, run, session, tagged, latest, n, due, before, after) && n < |tagged|
    requires Resubmittable(latest, KeyOf(tagged[n])) && Pending(l', os, run, tagged[n])
    requires StepsIn({KeyOf(tagged[n])}, l, os, l', os) && RowsOK(l', os)
    ensures Planning(l', os, run, session, tagged, latest, n + 1, due + [tagged[n]], before, after)
  {
    DueNext(run, tagged, latest, n);
    AllPendingElsewhere(l, os, l', os, run, due, {KeyOf(tagged[n])});
    forall j | n < j < |tagged| ensures SameRow(l', latest, KeyOf(tagged[j])) && OwnKey(l', run, tagged[j]) {
      assert tagged[n].ticker != tagged[j].ticker;
      SameRowElsewhere(l, os, l', os, run, tagged[j], latest, {KeyOf(tagged[n])});
    }
    AllPendingAppend(l', os, run, due, tagged[n]);
    ReplayedDue(tagged, latest, after, n);
  }

  lemma AllPendingAppend(l: Ledger, os: seq<Order>, run: string, due: seq<Trade>, t: Trade)
    requires AllPending(l, os, run, due) && Pending(l, os, run, t)
    requires forall u | u in due :: u.ticker != t.ticker
    ensures AllPending(l, os, run, due + [t])
  {
  }

  lemma ReplayedDue(tagged: seq<Trade>, latest: Ledger, after: Answers, n: nat)
    requires n < |tagged| && tagged[n].orderRef.Some? && Resubmittable(latest, KeyOf(tagged[n]))
    requires Replayed(tagged[..n], latest, after)
    ensures Replayed(tagged[..n + 1], latest, after)
  {
    assert tagged[..n + 1] == tagged[..n] + [tagged[n]];
  }

  lemma PlanningReplay(l: Ledger, os: seq<Order>, run: string, session: string, tagged: seq<Trade>, latest: Ledger, n: nat,
                       due: seq<Trade>, before: Answers, after: Answers)
    requires Planning(l, os, run, session, tagged, latest, n, due, before, after) && n < |tagged|
    requires !Resubmittable(latest, KeyOf(tagged[n]))
    ensures var t := tagged[n];
            Planning(l, os, run, session, tagged, latest, n + 1, due, before, after[t.ticker := ReplayResult(t, latest[KeyOf(t)])])
  {
    DueNext(run, tagged, latest, n);
    assert DueOf(tagged[..n + 1], latest) == due;
    forall t | t in tagged[..n + 1] ensures (t in tagged[..n] && t.ticker != tagged[n].ticker) || t == tagged[n] {
      var j :| 0 <= j <= n && tagged[j] == t;
      assert j < n ==> tagged[j].ticker != tagged[n].ticker;
    }
  }

  lemma DueSteps(l0: Ledger, l: Ledger, l': Ledger, os: seq<Order>, tagged: seq<Trade>, latest: Ledger, t: Trade)
    requires t in tagged && t.orderRef.Some? && Resubmittable(latest, KeyOf(t))
    requires StepsIn(Keys(DueOf(tagged, latest)), l0, os, l, os) && StepsIn({KeyOf(t)}, l, os, l', os)
    ensures StepsIn(Keys(DueOf(tagged, latest)), l0, os, l', os)
  {
    DueMembers(tagged, latest);
    assert t in DueOf(tagged, latest);
    StepsInWidens({KeyOf(t)}, Keys(DueOf(tagged, latest)), l, os, l', os);
    StepsInTransitive(Keys(DueOf(tagged, latest)), l0, os, l, os, l', os);
  }

  // ---- trimmed buys ----

  lemma ShrunkPending(l: Ledger, os: seq<Order>, run: string, buys: seq<Trade>, fitted: seq<Trade>, rules: Rules)
    requires AllPending(l, os, run, buys) && AllShrunk(buys, fitted, rules)
    ensures AllPending(l, os, run, fitted) && Keys(fitted) == Keys(buys) && TickersOf(fitted) == TickersOf(buys)
  {
    forall j | 0 <= j < |buys|
      ensures Pending(l, os, run, fitted[j]) && fitted[j].ticker == buys[j].ticker
      ensures fitted[j].orderRef == buys[j].orderRef
              && fitted[j].side == buys[j].side
    {
      assert Shrunk(buys[j], fitted[j], Resolve(buys[j].ticker, rules));
    }
    SameKeys(buys, fitted);
  }

  lemma SameKeys(a: seq<Trade>, b: seq<Trade>)
    requires |a| == |b| && forall j | 0 <= j < |a| :: a[j].ticker == b[j].ticker && a[j].orderRef == b[j].orderRef
    ensures Keys(a) == Keys(b) && TickersOf(a) == TickersOf(b)
  {
    forall k | k in Keys(a) ensures k in Keys(b) {
      var j :| 0 <= j < |a| && a[j].orderRef.Some? && KeyOf(a[j]) == k;
      assert KeyOf(b[j]) == k;
    }
    forall k | k in Keys(b) ensures k in Keys(a) {
      var j :| 0 <= j < |b| && b[j].orderRef.Some? && KeyOf(b[j]) == k;
      assert KeyOf(a[j]) == k;
    }
    forall k | k in TickersOf(a) ensures k in TickersOf(b) {
      var j :| 0 <= j < |a| && a[j].ticker == k;
      assert b[j].ticker == k;
    }
    forall k | k in TickersOf(b) ensures k in TickersOf(a) {
      var j :| 0 <= j < |b| && b[j].ticker == k;
      assert a[j].ticker == k;
    }
  }

  lemma ShrunkAnswers(os: seq<Order>, buys: seq<Trade>, fitted: seq<Trade>, rules: Rules, answers: Answers)
    requires AllShrunk(buys, fitted, rules) && AllAnswered(os, answers, fitted)
    ensures AllAnswered(os, answers, buys)
  {
    forall j | 0 <= j < |buys| ensures Answered(os, answers, buys[j]) {
      assert Shrunk(buys[j], fitted[j], Resolve(buys[j].ticker, rules)) && Answered(os, answers, fitted[j]);
    }
  }

  // ---- the trace of a phase ----

  /** One side of a plan on its way out: what is due, the quotes and prices it got, what has a price, what
      was sent of that with what result, and what became of it one after another. */
  datatype Phase = Phase(
    due: seq<Trade>,
    rounds: seq<Quotes>,
    prices: Prices,
    unresolved: set<string>,
    priced: seq<Trade>,
    sent: seq<Trade>,
    results: seq<OrderResult>,
    tried: seq<Submission>)

  /** Some request for quotes of the side's phase is not answered. */
  ghost predicate QuotesFail(o: Outside, side: Side) {
    exists request: nat :: request <= ATTEMPTS && !o.quotes(side)(request).Ok?
  }

  /** Only a request for quotes raises while a plan is submitted. */
  ghost predicate SubmissionFails(c: Settings, o: Outside) {
    c.quoted && (QuotesFail(o, SELL) || QuotesFail(o, BUY))
  }

  /** A phase that sent nothing yet. */
  function Unpriced(due: seq<Trade>): Phase {
    Phase(due, [], map[], {}, [], [], [], [])
  }

  /** Of what is due, exactly the trades to which the feed gives a price go on, at that price. */
  ghost predicate PricesDue(p: Phase, side: Side, c: Settings, o: Outside) {
    if c.quoted && p.due != [] then PricedBy(p.due, p.priced, p.prices, p.rounds, c.pricing, o.quotes(side)) && UnresolvedSoFar(p.rounds, p.unresolved)
    else p.priced == p.due
  }

  /** What is sent of the priced trades: every sell, and the buys as they fit the cash. */
  function SentOf(side: Side, priced: seq<Trade>, cash: Option<real>, rules: Rules): seq<Trade>
    requires side == BUY ==> AllFundable(priced)
  {
    if side == SELL then priced
    else
      var fit := FitOf(priced, cash, rules);
      if fit.Some? then fit.value else []
  }

  /** Buys of nothing are sent whatever the cash. */
  lemma SentAsFitted(buys: seq<Trade>, cash: Option<real>, read: Option<real>, rules: Rules, fitted: seq<Trade>,
                     blocked: bool)
    requires AllFundable(buys) && FitOf(buys, cash, rules) == (if blocked then None else Some(fitted))
    requires cash == read || BuyCashOf(buys) <= QTY_EPS
    ensures SentOf(BUY, buys, read, rules) == if blocked then [] else fitted
  {
  }

  /** The answers of the trades that were sent are their results, for exactly their quantity. */
  predicate ResultsAnswer(answers: Answers, sent: seq<Trade>, results: seq<OrderResult>) {
    && |sent| == |results| && ForQuantity(answers, sent, |sent|)
    && forall j | 0 <= j < |sent| :: sent[j].ticker in answers && answers[sent[j].ticker] == results[j]
  }

  /** Where nothing was sent, the answers of the priced trades say that they were blocked for cash. */
  predicate AnswersSent(answers: Answers, priced: seq<Trade>, sent: seq<Trade>, results: seq<OrderResult>) {
    && ResultsAnswer(answers, sent, results)
    && (sent == [] ==> AllLocal(answers, priced, |priced|, BuyingPowerBlocked))
  }

  /** The phase did what its quotes, the cash and the calls outside made of what was due, and answered it
      accordingly. */
  ghost predicate PhaseRan(p: Phase, side: Side, c: Settings, o: Outside, answers: Answers) {
    && PricesDue(p, side, c, o) && (side == BUY ==> AllFundable(p.priced))
    && p.sent == SentOf(side, p.priced, o.Cash(), c.pricing.rules) && Batched(o, side, p.sent, p.results, p.tried, c.maxAcceptanceFailures)
    && AnswersSent(answers, p.priced, p.sent, p.results)
    && (c.quoted ==> AnsweredBlocks(p.due, p.prices, p.unresolved, answers, |p.due|))
  }

  /** The row of every trade says what its answer says. */
  predicate AllSaid(l: Ledger, trades: seq<Trade>, answers: Answers) {
    forall j | 0 <= j < |trades| ::
      trades[j].ticker in answers && RowSays(l, trades[j], answers[trades[j].ticker])
  }

  lemma PostedIsSaid(l: Ledger, answers: Answers, trades: seq<Trade>, results: seq<OrderResult>)
    requires Posted(l, answers, trades, results, |trades|)
    ensures AllSaid(l, trades, answers)
  {
  }

  /** Trades of the same orders, position for position. */
  lemma SaidOfSame(l: Ledger, answers: Answers, a: seq<Trade>, b: seq<Trade>)
    requires AllSaid(l, a, answers) && |a| == |b|
    requires forall j | 0 <= j < |a| :: a[j].ticker == b[j].ticker && a[j].orderRef == b[j].orderRef
    ensures AllSaid(l, b, answers)
  {
    forall j | 0 <= j < |b| ensures b[j].ticker in answers && RowSays(l, b[j], answers[b[j].ticker]) {
      assert RowSays(l, a[j], answers[a[j].ticker]);
    }
  }

  /** Once what was priced is said, so is the whole batch: the rest was blocked before. */
  lemma BatchIsSaid(run: string, session: string, due: seq<Trade>, prices: Prices, unresolved: set<string>,
                    priced: seq<Trade>, l: Ledger, os: seq<Order>, after: Answers, l': Ledger, os': seq<Order>, final: Answers)
    requires Batch(run, due) && PricesMatch(due, prices) && priced == Submittables(due, prices) && Batch(run, priced)
    requires SiftedRows(l, run, session, due, prices, unresolved, |due|)
    requires AnsweredBlocks(due, prices, unresolved, after, |due|)
    requires StepsIn(Keys(priced), l, os, l', os') && KeepsAnswers(after, final, TickersOf(priced))
    requires AllSaid(l', priced, final)
    ensures AllSaid(l', due, final) && AnsweredBlocks(due, prices, unresolved, final, |due|)
  {
    SubmittablesFrom(due, prices);
    KeyTickers(run, priced);
    forall j | 0 <= j < |due|
      ensures due[j].ticker in final && RowSays(l', due[j], final[due[j].ticker])
      ensures due[j].ticker !in prices ==> AnsweredLocally(final, due[j], QuoteBlock(due[j], unresolved))
    {
      assert due[j] in due;
      SaidOne(run, session, due[j], prices, unresolved, priced, l, os, after, l', os', final);
    }
  }

  lemma SaidOne(run: string, session: string, t: Trade, prices: Prices, unresolved: set<string>,
                priced: seq<Trade>, l: Ledger, os: seq<Order>, after: Answers, l': Ledger, os': seq<Order>, final: Answers)
    requires Tagged(run, t) && (t.ticker in prices ==> SameOrder(t, prices[t.ticker]) && prices[t.ticker] in priced)
    requires forall u | u in priced :: u.ticker in prices
    requires forall k | k in Keys(priced) :: k.Root? && k.ticker in TickersOf(priced)
    requires SiftedRow(l, run, session, t, Lookup(prices, t.ticker), QuoteBlock(t, unresolved))
    requires t.ticker !in prices ==> AnsweredLocally(after, t, QuoteBlock(t, unresolved))
    requires StepsIn(Keys(priced), l, os, l', os') && KeepsAnswers(after, final, TickersOf(priced))
    requires AllSaid(l', priced, final)
    ensures t.ticker in final && RowSays(l', t, final[t.ticker])
    ensures t.ticker !in prices ==> AnsweredLocally(final, t, QuoteBlock(t, unresolved))
  {
    if t.ticker in prices {
      var j :| 0 <= j < |priced| && priced[j] == prices[t.ticker];
      assert RowSays(l', priced[j], final[priced[j].ticker]);
    } else {
      assert forall j | 0 <= j < |priced| :: priced[j] in priced && priced[j].ticker != t.ticker;
    }
  }

  lemma ShrunkSaid(l: Ledger, buys: seq<Trade>, fitted: seq<Trade>, rules: Rules, answers: Answers)
    requires AllShrunk(buys, fitted, rules) && AllSaid(l, fitted, answers)
    ensures AllSaid(l, buys, answers)
  {
    assert forall j | 0 <= j < |buys| :: Shrunk(buys[j], fitted[j], Resolve(buys[j].ticker, rules));
    SaidOfSame(l, answers, fitted, buys);
  }

  /** Every buy that has a price is again worth its quantity at it. */
  lemma PricedFundable(p: Phase, c: Settings, o: Outside)
    requires PricesDue(p, BUY, c, o) && StandardRules(c.pricing.rules) && AllFundable(p.due)
    ensures AllFundable(p.priced)
  {
    if c.quoted && p.due != [] {
      SubmittablesFundable(p.due, p.prices, p.rounds, RefreshOf(o.quotes(BUY), |p.rounds|), c.pricing);
    }
  }

  /** A phase whose priced trades are sent, or all blocked, and answered is through. */
  lemma PhaseDone(run: string, session: string, p: Phase, side: Side, c: Settings, o: Outside,
                  l: Ledger, os: seq<Order>, after: Answers, l': Ledger, os': seq<Order>, final: Answers)
    requires Batch(run, p.due) && Batch(run, p.priced) && PricesDue(p, side, c, o)
    requires side == BUY ==> AllFundable(p.priced)
    requires p.sent == SentOf(side, p.priced, o.Cash(), c.pricing.rules)
    requires Batched(o, side, p.sent, p.results, p.tried, c.maxAcceptanceFailures)
    requires AnswersSent(final, p.priced, p.sent, p.results) && AllSaid(l', p.priced, final)
    requires c.quoted ==>
               && PricesMatch(p.due, p.prices) && AnsweredBlocks(p.due, p.prices, p.unresolved, after, |p.due|)
               && SiftedRows(l, run, session, p.due, p.prices, p.unresolved, |p.due|)
    requires StepsIn(Keys(p.priced), l, os, l', os') && KeepsAnswers(after, final, TickersOf(p.priced))
    ensures PhaseRan(p, side, c, o, final) && AllSaid(l', p.due, final)
  {
    if c.quoted && p.due != [] {
      BatchIsSaid(run, session, p.due, p.prices, p.unresolved, p.priced, l, os, after, l', os', final);
    }
  }

  /** The buy phase leaves the sell phase and its rows as they are. */
  lemma SellsStand(p: Phase, c: Settings, o: Outside, run: string, buys: seq<Trade>, l: Ledger,
                   os: seq<Order>, l': Ledger, os': seq<Order>, answers: Answers, final: Answers)
    requires PhaseRan(p, SELL, c, o, answers) && AllSaid(l, p.due, answers)
    requires Batch(run, p.due) && Batch(run, buys) && (c.quoted ==> PricesMatch(p.due, p.prices))
    requires KeepsAnswers(answers, final, TickersOf(buys)) && TickersOf(p.due) !! TickersOf(buys)
    requires StepsIn(Keys(buys), l, os, l', os')
    ensures PhaseRan(p, SELL, c, o, final) && AllSaid(l', p.due, final)
  {
    KeyTickers(run, p.due);
    KeyTickers(run, buys);
    PhaseStands(p, SELL, c, o, run, l, os, l', os', answers, final, Keys(buys), TickersOf(buys));
  }

  /** What happens to the other side leaves the phase and its rows as they are. */
  lemma PhaseStands(p: Phase, side: Side, c: Settings, o: Outside, run: string, l: Ledger,
                    os: seq<Order>, l': Ledger, os': seq<Order>, answers: Answers, final: Answers, keys: set<Ref>, others: set<string>)
    requires PhaseRan(p, side, c, o, answers) && AllSaid(l, p.due, answers) && Batch(run, p.due)
    requires c.quoted ==> PricesMatch(p.due, p.prices)
    requires side == SELL && KeepsAnswers(answers, final, others) && TickersOf(p.due) !! others
    requires StepsIn(keys, l, os, l', os') && keys !! Keys(p.due)
    ensures PhaseRan(p, side, c, o, final) && AllSaid(l', p.due, final)
  {
    forall j | 0 <= j < |p.due|
      ensures p.due[j].ticker in final && p.due[j].ticker !in others
      ensures final[p.due[j].ticker] == answers[p.due[j].ticker] && RowSays(l', p.due[j], final[p.due[j].ticker])
    {
      assert p.due[j].ticker in TickersOf(p.due) && KeyOf(p.due[j]) in Keys(p.due);
      assert RowSays(l, p.due[j], answers[p.due[j].ticker]);
    }
    forall j | 0 <= j < |p.sent| ensures p.sent[j].ticker !in others {
      PricedTicker(p, c, side, o, j);
    }
  }

  lemma PricedTicker(p: Phase, c: Settings, side: Side, o: Outside, j: nat)
    requires PricesDue(p, side, c, o) && j < |p.priced| && (c.quoted ==> PricesMatch(p.due, p.prices))
    ensures p.priced[j].ticker in TickersOf(p.due)
  {
    assert p.priced[j] in p.priced;
    if c.quoted && p.due != [] {
      SubmittablesFrom(p.due, p.prices);
      var t :| t in p.due && SameOrder(t, p.priced[j]);
      var k :| 0 <= k < |p.due| && p.due[k] == t;
      assert p.due[k].ticker == p.priced[j].ticker;
    }
  }

  // ---- the trace of a plan ----

  /** Both phases, and the answer of every ticker. */
  datatype PlanTrace = PlanTrace(sells: Phase, buys: Phase, answers: Answers)

  ghost predicate DueTrade(plan: Plan, side: Side, u: Trade) {
    u.side == side && exists t :: t in plan.trades && u == t.(orderRef := u.orderRef)
  }

  /** A planned trade with the orderRef it got. */
  ghost predicate Listed(due: seq<Trade>, t: Trade) {
    exists u :: u in due && u == t.(orderRef := u.orderRef)
  }

  /** No row of the trade says that it may be at the broker. */
  ghost predicate MayGo(l: Ledger, run: string, t: Trade) {
    forall k | IsRowOf(l, k, run, t) :: Resubmittable(l, k)
  }

  /** What is due of one side of the plan is exactly what may be submitted. */
  ghost predicate DueSide(l: Ledger, plan: Plan, side: Side, due: seq<Trade>) {
    && (forall u | u in due :: DueTrade(plan, side, u))
    && forall t | t in plan.trades && t.side == side && MayGo(l, plan.run, t) :: Listed(due, t)
  }

  /** Every order placed since is for one of the trades sent of its side, for exactly its quantity. */
  ghost predicate SentOnly(os: seq<Order>, os': seq<Order>, sells: seq<Trade>, buys: seq<Trade>) {
    forall i | |os| <= i < |os'| :: OrderFor(os'[i], if SideOf(os'[i].ref) == SELL then sells else buys)
  }

  /** Both phases of the plan ran, from the ledger `l` and the orders `os` on, and its results are their
      answers, which the rows repeat. */
  ghost predicate CarriedOut(plan: Plan, l: Ledger, os: seq<Order>, l': Ledger, os': seq<Order>, results: seq<OrderResult>,
                             trace: PlanTrace, c: Settings, o: Outside) {
    && DueSide(l, plan, SELL, trace.sells.due) && DueSide(l, plan, BUY, trace.buys.due)
    && PhaseRan(trace.sells, SELL, c, o, trace.answers) && AllSaid(l', trace.sells.due, trace.answers)
    && PhaseRan(trace.buys, BUY, c, o, trace.answers) && AllSaid(l', trace.buys.due, trace.answers)
    && SentOnly(os, os', trace.sells.sent, trace.buys.sent)
    && |results| == |plan.trades|
    && forall i | 0 <= i < |results| :: plan.trades[i].ticker in trace.answers && results[i] == trace.answers[plan.trades[i].ticker]
  }

  /** Sells go out before the buys, so each phase placed the orders of its side. */
  lemma SentBySide(sells: set<Ref>, buys: set<Ref>, os: seq<Order>, mid: seq<Order>, os': seq<Order>, sold: seq<Trade>,
                   bought: seq<Trade>)
    requires OneSide(sells, SELL) && GrowsIn(sells, os, mid) && OneSide(buys, BUY) && GrowsIn(buys, mid, os')
    requires OrdersFor(os, mid, sold) && OrdersFor(mid, os', bought)
    ensures SentOnly(os, os', sold, bought)
  {
    PlacedSide(sells, os, mid, SELL);
    PlacedSide(buys, mid, os', BUY);
    forall i | |os| <= i < |os'| ensures OrderFor(os'[i], if SideOf(os'[i].ref) == SELL then sold else bought) {
      if i < |mid| {
        assert Moves(mid[i], os'[i]) && OrderFor(mid[i], sold);
      }
    }
  }

  lemma DueOfPlan(l: Ledger, os: seq<Order>, plan: Plan, side: Side, tagged: seq<Trade>, latest: Ledger, keys: set<Ref>)
    requires RowsOK(l, os) && TagsOf(l, plan.run, OfSide(plan.trades, side), tagged)
    requires LatestOf(l, latest, keys) && Keys(tagged) <= keys
    ensures DueSide(l, plan, side, DueOf(tagged, latest))
  {
    DueMembers(tagged, latest);
    OfSideMembers(plan.trades, side);
    forall u | u in DueOf(tagged, latest) ensures DueTrade(plan, side, u) {
      TaggedIsPlanned(l, plan, side, OfSide(plan.trades, side), tagged, u);
    }
    forall t | t in plan.trades && t.side == side && MayGo(l, plan.run, t) ensures Listed(DueOf(tagged, latest), t) {
      var u := TaggedOf(l, plan.run, OfSide(plan.trades, side), tagged, t);
      GoesByKey(l, os, plan.run, t, u, latest, keys);
    }
  }

  lemma TaggedIsPlanned(l: Ledger, plan: Plan, side: Side, trades: seq<Trade>, tagged: seq<Trade>, u: Trade)
    requires TagsOf(l, plan.run, trades, tagged) && u in tagged
    requires forall t | t in trades :: t in plan.trades && t.side == side
    ensures DueTrade(plan, side, u)
  {
    var j :| 0 <= j < |tagged| && tagged[j] == u;
    assert TagOf(plan.run, trades[j], tagged[j]) && trades[j] in trades;
  }

  lemma TaggedOf(l: Ledger, run: string, trades: seq<Trade>, tagged: seq<Trade>, t: Trade) returns (u: Trade)
    requires TagsOf(l, run, trades, tagged) && t in trades
    ensures u in tagged && TagOf(run, t, u) && KeyOf(u) in Keys(tagged)
  {
    var j :| 0 <= j < |trades| && trades[j] == t;
    u := tagged[j];
    assert TagOf(run, trades[j], tagged[j]) && KeyOf(tagged[j]) in Keys(tagged);
  }

  lemma GoesByKey(l: Ledger, os: seq<Order>, run: string, t: Trade, u: Trade, latest: Ledger, keys: set<Ref>)
    requires RowsOK(l, os) && TagOf(run, t, u) && MayGo(l, run, t) && LatestOf(l, latest, keys) && KeyOf(u) in keys
    ensures Resubmittable(latest, KeyOf(u))
  {
    var key := KeyOf(u);
    if key in l {
      assert RowOK(key, l[key], os) && IsRowOf(l, key, run, t);
    }
  }

  /** Once both phases ran, the answers in plan order are the results of the plan. */
  lemma PlanWorked(plan: Plan, l: Ledger, os: seq<Order>, l': Ledger, os': seq<Order>, sells: seq<Trade>, buys: seq<Trade>,
                   latest: Ledger, trace: PlanTrace, c: Settings, o: Outside)
    requires RowsOK(l, os) && BothTagged(l, plan, sells, buys) && LatestOf(l, latest, Keys(sells) + Keys(buys))
    requires trace.sells.due == DueOf(sells, latest) && trace.buys.due == DueOf(buys, latest)
    requires PhaseRan(trace.sells, SELL, c, o, trace.answers) && AllSaid(l', trace.sells.due, trace.answers)
    requires PhaseRan(trace.buys, BUY, c, o, trace.answers) && AllSaid(l', trace.buys.due, trace.answers)
    requires SentOnly(os, os', trace.sells.sent, trace.buys.sent)
    requires forall t | t in plan.trades ::
               t.ticker in trace.answers && AnswersTrade(l, l', os', plan.run, t, trace.answers[t.ticker])
    ensures AnswersPlan(l, l', os', plan, AnswersOf(plan.trades, trace.answers))
    ensures CarriedOut(plan, l, os, l', os', AnswersOf(plan.trades, trace.answers), trace, c, o)
  {
    AnswersInOrder(l, l', os', plan, trace.answers);
    CarriesOut(plan, l, os, l', os', sells, buys, latest, AnswersOf(plan.trades, trace.answers), trace, c, o);
  }

  lemma AnswersInOrder(l: Ledger, l': Ledger, os: seq<Order>, plan: Plan, answers: Answers)
    requires forall t | t in plan.trades :: t.ticker in answers && AnswersTrade(l, l', os, plan.run, t, answers[t.ticker])
    ensures AnswersPlan(l, l', os, plan, AnswersOf(plan.trades, answers))
  {
    forall i | 0 <= i < |plan.trades|
      ensures AnswersTrade(l, l', os, plan.run, plan.trades[i], AnswersOf(plan.trades, answers)[i])
    {
      assert plan.trades[i] in plan.trades;
    }
  }

  lemma CarriesOut(plan: Plan, l: Ledger, os: seq<Order>, l': Ledger, os': seq<Order>, sells: seq<Trade>, buys: seq<Trade>,
                   latest: Ledger, results: seq<OrderResult>, trace: PlanTrace, c: Settings, o: Outside)
    requires RowsOK(l, os) && BothTagged(l, plan, sells, buys) && LatestOf(l, latest, Keys(sells) + Keys(buys))
    requires trace.sells.due == DueOf(sells, latest) && trace.buys.due == DueOf(buys, latest)
    requires PhaseRan(trace.sells, SELL, c, o, trace.answers) && AllSaid(l', trace.sells.due, trace.answers)
    requires PhaseRan(trace.buys, BUY, c, o, trace.answers) && AllSaid(l', trace.buys.due, trace.answers)
    requires SentOnly(os, os', trace.sells.sent, trace.buys.sent) && |results| == |plan.trades|
    requires forall i | 0 <= i < |results| ::
               plan.trades[i].ticker in trace.answers && results[i] == trace.answers[plan.trades[i].ticker]
    ensures CarriedOut(plan, l, os, l', os', results, trace, c, o)
  {
    DueOfPlan(l, os, plan, SELL, sells, latest, Keys(sells) + Keys(buys));
    DueOfPlan(l, os, plan, BUY, buys, latest, Keys(sells) + Keys(buys));
  }

  // ---- the whole plan ----

  lemma PlanningDone(l: Ledger, os: seq<Order>, run: string, session: string, tagged: seq<Trade>, latest: Ledger,
                     due: seq<Trade>, before: Answers, after: Answers)
    requires Planning(l, os, run, session, tagged, latest, |tagged|, due, before, after)
    ensures due == DueOf(tagged, latest) && Replayed(tagged, latest, after) && Split(os, tagged, due, before, after)
  {
    assert tagged[..|tagged|] == tagged;
    DueMembers(tagged, latest);
    forall t | t in tagged ensures Answered(os, after, t) || t.ticker in TickersOf(due) {
      var j :| 0 <= j < |tagged| && tagged[j] == t;
      if Resubmittable(latest, KeyOf(t)) {
        assert t in due;
      }
    }
    forall u | u in due ensures From(tagged, u) {
      assert SameOrder(u, u);
    }
  }

  lemma DueByTicker(run: string, tagged: seq<Trade>, latest: Ledger, t: Trade)
    requires Batch(run, tagged) && t in tagged
    ensures t.ticker in TickersOf(DueOf(tagged, latest)) ==> t in DueOf(tagged, latest)
  {
    var due := DueOf(tagged, latest);
    DueMembers(tagged, latest);
    if t.ticker in TickersOf(due) {
      var k :| 0 <= k < |due| && due[k].ticker == t.ticker;
      assert due[k] in due;
    }
  }

  /** Answers of one side of the plan: the replayed ones survive the sending of the due ones and
      every change for other tickers. */
  lemma SideAnswered(o: seq<Order>, os: seq<Order>, os': seq<Order>, run: string, tagged: seq<Trade>, due: seq<Trade>, latest: Ledger,
                     a: Answers, b: Answers, c: Answers, d: Answers, e: Answers, others: set<string>, keys: set<Ref>)
    requires Batch(run, tagged) && Split(o, tagged, due, a, b) && due == DueOf(tagged, latest)
    requires Replayed(tagged, latest, b)
    requires KeepsAnswers(b, c, others) && KeepsAnswers(d, e, others) && others !! TickersOf(tagged)
    requires KeepsAnswers(c, d, TickersOf(due)) && AllAnswered(os, d, due)
    requires GrowsIn(keys, os, os') && keys !! Keys(tagged)
    ensures AllAnswered(os', e, tagged) && Replayed(tagged, latest, e)
  {
    DueMembers(tagged, latest);
    forall j | 0 <= j < |tagged|
      ensures Answered(os', e, tagged[j])
      ensures !Resubmittable(latest, KeyOf(tagged[j])) ==>
                tagged[j].ticker in e && e[tagged[j].ticker] == ReplayResult(tagged[j], latest[KeyOf(tagged[j])])
    {
      var t := tagged[j];
      assert t.ticker in TickersOf(tagged) && t in tagged && KeyOf(t) in Keys(tagged);
      if Resubmittable(latest, KeyOf(t)) {
        assert t in due;
        assert Answered(os, d, t);
        AnsweredElsewhere(keys, os, os', d, t);
      } else {
        DueByTicker(run, tagged, latest, t);
      }
    }
  }

  lemma DueBatch(run: string, tagged: seq<Trade>, latest: Ledger)
    requires Batch(run, tagged)
    ensures Keys(DueOf(tagged, latest)) <= Keys(tagged) && TickersOf(DueOf(tagged, latest)) <= TickersOf(tagged)
    ensures forall k | k in Keys(DueOf(tagged, latest)) :: Resubmittable(latest, k)
  {
    var due := DueOf(tagged, latest);
    DueMembers(tagged, latest);
    forall i | 0 <= i < |due| ensures KeyOf(due[i]) in Keys(tagged) && due[i].ticker in TickersOf(tagged) {
      assert due[i] in due;
      var j :| 0 <= j < |tagged| && tagged[j] == due[i];
    }
  }

  // ---- buys after repricing ----

  lemma RepricedFundable(t: Trade, quotes: Quotes, s: Pricing, wide: bool, u: Trade)
    requires Fundable(t) && t.notional >= 0.0 && StandardRules(s.rules) && Repriced(t, quotes, s, wide) == Some(u)
    ensures Fundable(u)
  {
    RepricedWithinApproval(t, quotes, s, wide);
    RepricedPlanned(t, quotes, s, wide);
  }

  lemma FundableNotional(t: Trade)
    requires Fundable(t)
    ensures t.notional >= 0.0
  {
  }

  lemma SubmittablesFundable(trades: seq<Trade>, prices: Prices, rounds: seq<Quotes>, refresh: Quotes, s: Pricing)
    requires StandardRules(s.rules) && AllFundable(trades)
    requires forall t | t in trades :: FinalPrice(t, rounds, refresh, s, Lookup(prices, t.ticker))
    ensures AllFundable(Submittables(trades, prices))
  {
    PricesOfBatch(trades, rounds, refresh, s, prices);
    SubmittablesFrom(trades, prices);
    forall i | 0 <= i < |Submittables(trades, prices)| ensures Fundable(Submittables(trades, prices)[i]) {
      var u := Submittables(trades, prices)[i];
      assert u in Submittables(trades, prices);
      var t :| t in trades && SameOrder(t, u);
      FinalFundable(t, rounds, refresh, s, u);
    }
  }

  lemma FinalFundable(t: Trade, rounds: seq<Quotes>, refresh: Quotes, s: Pricing, u: Trade)
    requires StandardRules(s.rules) && Fundable(t) && FinalPrice(t, rounds, refresh, s, Some(u))
    ensures Fundable(u)
  {
    FinalPriceSameOrder(t, rounds, refresh, s, u);
    var quotes: Quotes, wide: bool :| Repriced(t, quotes, s, wide) == Some(u);
    FundableNotional(t);
    RepricedFundable(t, quotes, s, wide, u);
  }

  // ---- both sides of a plan ----

  /** Among the orders placed since `os`, no sell follows a buy. */
  predicate SellsFirst(os: seq<Order>, os': seq<Order>) {
    forall i, j | |os| <= i < j < |os'| && SideOf(os'[i].ref) == BUY :: SideOf(os'[j].ref) == BUY
  }

  ghost predicate OneSide(keys: set<Ref>, side: Side) {
    forall k | k in keys :: k.Root? && k.side == side
  }

  lemma {:induction false} RootKeepsSide(ref: Ref)
    ensures SideOf(RootOf(ref)) == SideOf(ref)
  {
    if ref.Rep? {
      RootKeepsSide(ref.base);
    }
  }

  lemma PlacedSide(keys: set<Ref>, os: seq<Order>, os': seq<Order>, side: Side)
    requires OneSide(keys, side) && GrowsIn(keys, os, os')
    ensures forall i | |os| <= i < |os'| :: SideOf(os'[i].ref) == side
  {
    forall i | |os| <= i < |os'| ensures SideOf(os'[i].ref) == side {
      RootKeepsSide(os'[i].ref);
    }
  }

  /** A plan places no replacements. */
  lemma OriginalsKeepGuard(keys: set<Ref>, os: seq<Order>, os': seq<Order>)
    requires OrdersOK(os) && OrdersOK(os') && GrowsIn(keys, os, os') && forall k | k in keys :: k.Root?
    ensures KeepsGuard(os, os')
  {
    GuardedFirsts(os, os');
  }

  lemma SellsThenBuys(sells: set<Ref>, buys: set<Ref>, os: seq<Order>, mid: seq<Order>, os': seq<Order>)
    requires OneSide(sells, SELL) && OneSide(buys, BUY) && GrowsIn(sells, os, mid) && GrowsIn(buys, mid, os')
    ensures SellsFirst(os, os')
  {
    PlacedSide(sells, os, mid, SELL);
    PlacedSide(buys, mid, os', BUY);
    forall i | |os| <= i < |mid| ensures SideOf(os'[i].ref) == SELL {
      assert Moves(mid[i], os'[i]);
    }
  }

  lemma SidesOfKeys(l: Ledger, plan: Plan, sells: seq<Trade>, buys: seq<Trade>, latest: Ledger)
    requires Executable(plan) && BothTagged(l, plan, sells, buys)
    ensures OneSide(Keys(DueOf(sells, latest)), SELL) && OneSide(Keys(DueOf(buys, latest)), BUY)
  {
    BothBatches(l, plan, sells, buys);
    DueBatch(plan.run, sells, latest);
    DueBatch(plan.run, buys, latest);
    OfSideMembers(plan.trades, SELL);
    OfSideMembers(plan.trades, BUY);
    SideOfKeys(l, plan.run, OfSide(plan.trades, SELL), sells, SELL);
    SideOfKeys(l, plan.run, OfSide(plan.trades, BUY), buys, BUY);
  }

  lemma SideOfKeys(l: Ledger, run: string, trades: seq<Trade>, tagged: seq<Trade>, side: Side)
    requires TagsOf(l, run, trades, tagged) && forall t | t in trades :: t.side == side
    ensures OneSide(Keys(tagged), side)
  {
    forall k | k in Keys(tagged) ensures k.Root? && k.side == side {
      var i :| 0 <= i < |tagged| && tagged[i].orderRef.Some? && KeyOf(tagged[i]) == k;
      assert TagOf(run, trades[i], tagged[i]) && trades[i] in trades;
    }
  }

  ghost predicate LatestOf(l: Ledger, latest: Ledger, keys: set<Ref>) {
    latest == map k | k in keys && k in l :: l[k]
  }

  /** The rows and families a plan may touch: none that already reached the broker. */
  ghost predicate OnlyResubmits(l: Ledger, os: seq<Order>, l': Ledger, os': seq<Order>) {
    && (forall k | k in l && !Resubmittable(l, k) :: k in l' && l'[k] == l[k])
    && (forall i | |os| <= i < |os'| :: Resubmittable(l, RootOf(os'[i].ref)))
  }

  lemma StepsResubmit(keys: set<Ref>, l: Ledger, os: seq<Order>, l': Ledger, os': seq<Order>)
    requires StepsIn(keys, l, os, l', os') && forall k | k in keys :: Resubmittable(l, k)
    ensures OnlyResubmits(l, os, l', os') && Follows(l, os, l', os')
  {
  }

  /** The first orders placed since are of the run. */
  ghost predicate NewFirsts(os: seq<Order>, os': seq<Order>, run: string) {
    forall i | |os| <= i < |os'| && os'[i].ref.Root? :: os'[i].ref.run == run
  }

  /** What work on resubmittable original keys of a run alone means. */
  lemma PlanSteps(keys: set<Ref>, run: string, l: Ledger, os: seq<Order>, l': Ledger, os': seq<Order>)
    requires StepsIn(keys, l, os, l', os') && forall k | k in keys :: Resubmittable(l, k)
    requires forall k | k in keys :: k.Root? && k.run == run
    requires OrdersOK(os) && OrdersOK(os')
    ensures OnlyResubmits(l, os, l', os') && Follows(l, os, l', os') && KeepsGuard(os, os') && NewFirsts(os, os', run)
  {
    StepsResubmit(keys, l, os, l', os');
    OriginalsKeepGuard(keys, os, os');
  }

  /** The answers of the trades, in their order. */
  function AnswersOf(trades: seq<Trade>, answers: Answers): (results: seq<OrderResult>)
    requires forall t | t in trades :: t.ticker in answers
    ensures |results| == |trades| && forall i | 0 <= i < |trades| :: results[i] == answers[trades[i].ticker]
  {
    seq(|trades|, i requires 0 <= i < |trades| => answers[trades[i].ticker])
  }

  /** The sells and the buys of a plan, tagged from the ledger `l`. */
  ghost predicate BothTagged(l: Ledger, plan: Plan, sells: seq<Trade>, buys: seq<Trade>) {
    && TagsOf(l, plan.run, OfSide(plan.trades, SELL), sells)
    && TagsOf(l, plan.run, OfSide(plan.trades, BUY), buys)
  }

  lemma BothBatches(l: Ledger, plan: Plan, sells: seq<Trade>, buys: seq<Trade>)
    requires Executable(plan) && BothTagged(l, plan, sells, buys)
    ensures Batch(plan.run, sells) && Batch(plan.run, buys) && AllFundable(buys)
    ensures TickersOf(sells) !! TickersOf(buys) && Keys(sells) !! Keys(buys)
  {
    OfSideMembers(plan.trades, SELL);
    OfSideMembers(plan.trades, BUY);
    TagsBatch(l, plan.run, OfSide(plan.trades, SELL), sells);
    TagsBatch(l, plan.run, OfSide(plan.trades, BUY), buys);
    forall i | 0 <= i < |buys| ensures Fundable(buys[i]) {
      var t := OfSide(plan.trades, BUY)[i];
      assert t in OfSide(plan.trades, BUY);
    }
    forall i, j | 0 <= i < |sells| && 0 <= j < |buys| ensures sells[i].ticker != buys[j].ticker {
      assert OfSide(plan.trades, SELL)[i] in OfSide(plan.trades, SELL) && OfSide(plan.trades, BUY)[j] in OfSide(plan.trades, BUY);
    }
  }

  lemma DueFundable(run: string, buys: seq<Trade>, latest: Ledger)
    requires Batch(run, buys) && AllFundable(buys)
    ensures AllFundable(DueOf(buys, latest))
  {
    DueMembers(buys, latest);
    var due := DueOf(buys, latest);
    assert forall i | 0 <= i < |due| :: due[i] in due;
  }

  /** The planning of one side leaves the rows of the other side as they were read. */
  lemma OtherSideUntouched(l: Ledger, os: seq<Order>, l': Ledger, run: string, mine: seq<Trade>, others: seq<Trade>,
                           latest: Ledger)
    requires Batch(run, mine) && Batch(run, others) && TickersOf(mine) !! TickersOf(others)
    requires StepsIn(Keys(mine), l, os, l', os) && RowsOK(l', os)
    requires forall j | 0 <= j < |others| :: SameRow(l, latest, KeyOf(others[j])) && OwnKey(l, run, others[j])
    ensures forall j | 0 <= j < |others| :: SameRow(l', latest, KeyOf(others[j])) && OwnKey(l', run, others[j])
  {
    forall j | 0 <= j < |others| ensures SameRow(l', latest, KeyOf(others[j])) && OwnKey(l', run, others[j]) {
      assert others[j].ticker in TickersOf(others);
      KeyTickers(run, mine);
      SameRowElsewhere(l, os, l', os, run, others[j], latest, Keys(mine));
    }
  }

  lemma OtherSidePending(l: Ledger, os: seq<Order>, l': Ledger, os': seq<Order>, run: string, mine: seq<Trade>,
                         others: seq<Trade>)
    requires Batch(run, mine) && AllPending(l, os, run, others) && TickersOf(mine) !! TickersOf(others)
    requires StepsIn(Keys(mine), l, os, l', os')
    ensures AllPending(l', os', run, others)
  {
    KeyTickers(run, mine);
    forall j | 0 <= j < |others| ensures KeyOf(others[j]) !in Keys(mine) {
      assert others[j].ticker in TickersOf(others);
    }
    AllPendingElsewhere(l, os, l', os', run, others, Keys(mine));
  }

  /** One answer per planned trade, in plan order.  `l` is the ledger before, `l'` and `os` are the
      ledger and the orders afterwards. */
  ghost predicate AnswersPlan(l: Ledger, l': Ledger, os: seq<Order>, plan: Plan, results: seq<OrderResult>) {
    && |results| == |plan.trades|
    && forall i | 0 <= i < |plan.trades| :: AnswersTrade(l, l', os, plan.run, plan.trades[i], results[i])
  }

  predicate IsRowOf(l: Ledger, k: Ref, run: string, t: Trade) {
    k in l && l[k].run == run && l[k].ticker == t.ticker && l[k].side == t.side
  }

  /** A trade whose row had reached the broker before is answered from that row, and every answer is
      true of the orders at the broker. */
  ghost predicate AnswersTrade(l: Ledger, l': Ledger, os: seq<Order>, run: string, t: Trade, result: OrderResult) {
    && result.ticker == t.ticker && result.side == t.side
    && (forall k | IsRowOf(l, k, run, t) && !Resubmittable(l, k) :: result == ReplayResult(t, l[k]))
    && (forall k | IsRowOf(l', k, run, t) :: Truthful(os, t.(orderRef := Some(k)), result))
  }

  lemma TaggedAnswers(l: Ledger, l': Ledger, os: seq<Order>, run: string, trades: seq<Trade>, tagged: seq<Trade>,
                      latest: Ledger, keys: set<Ref>, answers: Answers)
    requires TagsOf(l, run, trades, tagged) && LatestOf(l, latest, keys) && Keys(tagged) <= keys
    requires AllAnswered(os, answers, tagged) && Replayed(tagged, latest, answers)
    requires TagsOf(l', run, trades, tagged)
    ensures forall t | t in trades :: t.ticker in answers && AnswersTrade(l, l', os, run, t, answers[t.ticker])
  {
    forall t | t in trades ensures t.ticker in answers && AnswersTrade(l, l', os, run, t, answers[t.ticker]) {
      var i :| 0 <= i < |trades| && trades[i] == t;
      assert TagOf(run, trades[i], tagged[i]) && OwnKey(l, run, tagged[i]) && Answered(os, answers, tagged[i]);
      assert KeyOf(tagged[i]) in Keys(tagged) && tagged[i] in tagged && OwnKey(l', run, tagged[i]);
    }
  }

  /** The tags are the run's own keys also after the plan was worked on. */
  lemma TagsStay(l: Ledger, os: seq<Order>, l': Ledger, os': seq<Order>, run: string, trades: seq<Trade>,
                 tagged: seq<Trade>, keys: set<Ref>)
    requires TagsOf(l, run, trades, tagged) && StepsIn(keys, l, os, l', os') && RowsOK(l', os')
    requires forall k, j | k in keys && 0 <= j < |tagged| && k.Root? && k.run == run
                           && k.ticker == tagged[j].ticker && k.side == tagged[j].side :: k == KeyOf(tagged[j])
    ensures TagsOf(l', run, trades, tagged)
  {
    forall i | 0 <= i < |tagged| ensures OwnKey(l', run, tagged[i]) {
      forall k | k in l' && l'[k].run == run && l'[k].ticker == tagged[i].ticker && l'[k].side == tagged[i].side ensures k == KeyOf(tagged[i]) {
        assert RowOK(k, l'[k], os');
      }
    }
  }

  lemma KeysOfBoth(sells: seq<Trade>, buys: seq<Trade>)
    ensures Keys(sells + buys) == Keys(sells) + Keys(buys)
  {
    var both := sells + buys;
    forall k | k in Keys(sells) ensures k in Keys(both) {
      var i :| 0 <= i < |sells| && sells[i].orderRef.Some? && KeyOf(sells[i]) == k;
      assert both[i] == sells[i];
    }
    forall k | k in Keys(buys) ensures k in Keys(both) {
      var i :| 0 <= i < |buys| && buys[i].orderRef.Some? && KeyOf(buys[i]) == k;
      assert both[|sells| + i] == buys[i];
    }
  }

  lemma ReadRows(l: Ledger, run: string, tagged: seq<Trade>, latest: Ledger, keys: set<Ref>)
    requires Batch(run, tagged) && LatestOf(l, latest, keys) && Keys(tagged) <= keys
    ensures forall j | 0 <= j < |tagged| :: SameRow(l, latest, KeyOf(tagged[j]))
  {
    forall j | 0 <= j < |tagged| ensures SameRow(l, latest, KeyOf(tagged[j])) {
      assert KeyOf(tagged[j]) in Keys(tagged);
    }
  }

  lemma DueOfRun(run: string, sells: seq<Trade>, buys: seq<Trade>, latest: Ledger)
    requires Batch(run, sells) && Batch(run, buys)
    ensures forall k | k in Keys(DueOf(sells, latest)) + Keys(DueOf(buys, latest)) :: k.Root? && k.run == run
  {
    DueBatch(run, sells, latest);
    DueBatch(run, buys, latest);
    KeyRuns(run, sells);
    KeyRuns(run, buys);
  }

  lemma KeyRuns(run: string, trades: seq<Trade>)
    requires Batch(run, trades)
    ensures forall k | k in Keys(trades) :: k.Root? && k.run == run
  {
    forall k | k in Keys(trades) ensures k.Root? && k.run == run {
      var i :| 0 <= i < |trades| && trades[i].orderRef.Some? && KeyOf(trades[i]) == k;
      assert Tagged(run, trades[i]);
    }
  }

  lemma DueResubmittable(l: Ledger, latest: Ledger, run: string, sells: seq<Trade>, buys: seq<Trade>)
    requires Batch(run, sells) && Batch(run, buys) && LatestOf(l, latest, Keys(sells) + Keys(buys))
    ensures forall k | k in Keys(DueOf(sells, latest)) + Keys(DueOf(buys, latest)) :: Resubmittable(l, k)
  {
    DueBatch(run, sells, latest);
    DueBatch(run, buys, latest);
  }

  lemma BothTagsStay(l: Ledger, os: seq<Order>, l': Ledger, os': seq<Order>, plan: Plan, sells: seq<Trade>,
                     buys: seq<Trade>, latest: Ledger)
    requires Executable(plan) && BothTagged(l, plan, sells, buys) && RowsOK(l', os')
    requires StepsIn(Keys(DueOf(sells, latest)) + Keys(DueOf(buys, latest)), l, os, l', os')
    ensures BothTagged(l', plan, sells, buys)
  {
    BothBatches(l, plan, sells, buys);
    DueBatch(plan.run, sells, latest);
    DueBatch(plan.run, buys, latest);
    var keys := Keys(DueOf(sells, latest)) + Keys(DueOf(buys, latest));
    StepsInWidens(keys, Keys(sells) + Keys(buys), l, os, l', os');
    KeyTickers(plan.run, sells);
    KeyTickers(plan.run, buys);
    KeyOfTicker(plan.run, sells);
    KeyOfTicker(plan.run, buys);
    TagsStay(l, os, l', os', plan.run, OfSide(plan.trades, SELL), sells, Keys(sells) + Keys(buys));
    TagsStay(l, os, l', os', plan.run, OfSide(plan.trades, BUY), buys, Keys(sells) + Keys(buys));
  }

  lemma KeyOfTicker(run: string, trades: seq<Trade>)
    requires Batch(run, trades)
    ensures forall k, j | k in Keys(trades) && 0 <= j < |trades| && k.Root? && k.ticker == trades[j].ticker :: k == KeyOf(trades[j])
    ensures forall j | 0 <= j < |trades| :: trades[j].ticker in TickersOf(trades)
  {
  }

  /** `os` are the orders after both planning phases, then after the sells, then after the buys. */
  lemma PlanAnswered(l: Ledger, l': Ledger, o: seq<Order>, os: seq<Order>, os': seq<Order>, plan: Plan,
                     sells: seq<Trade>, buys: seq<Trade>, latest: Ledger,
                     mid: Answers, answers: Answers, sent: Answers, done: Answers)
    requires Executable(plan) && BothTagged(l, plan, sells, buys) && LatestOf(l, latest, Keys(sells) + Keys(buys))
    requires BothTagged(l', plan, sells, buys)
    requires Split(o, sells, DueOf(sells, latest), map[], mid) && Replayed(sells, latest, mid)
    requires Split(o, buys, DueOf(buys, latest), mid, answers) && Replayed(buys, latest, answers)
    requires AllAnswered(os, sent, DueOf(sells, latest)) && KeepsAnswers(answers, sent, TickersOf(DueOf(sells, latest)))
    requires AllAnswered(os', done, DueOf(buys, latest)) && KeepsAnswers(sent, done, TickersOf(DueOf(buys, latest)))
    requires GrowsIn(Keys(DueOf(buys, latest)), os, os')
    ensures forall t | t in plan.trades :: t.ticker in done && AnswersTrade(l, l', os', plan.run, t, done[t.ticker])
  {
    BothBatches(l, plan, sells, buys);
    DueBatch(plan.run, sells, latest);
    DueBatch(plan.run, buys, latest);
    LaterReflexive(os');
    SideAnswered(o, os, os', plan.run, sells, DueOf(sells, latest), latest, map[], mid, answers, sent, done,
                 TickersOf(buys), Keys(DueOf(buys, latest)));
    SideAnswered(o, os', os', plan.run, buys, DueOf(buys, latest), latest, mid, answers, sent, done, done, TickersOf(sells), {});
    TaggedAnswers(l, l', os', plan.run, OfSide(plan.trades, SELL), sells, latest, Keys(sells) + Keys(buys), done);
    TaggedAnswers(l, l', os', plan.run, OfSide(plan.trades, BUY), buys, latest, Keys(sells) + Keys(buys), done);
    OfSideMembers(plan.trades, SELL);
    OfSideMembers(plan.trades, BUY);
  }

  /** What the keys of the trades that are due have in common. */
  lemma PlanKeys(l: Ledger, plan: Plan, sells: seq<Trade>, buys: seq<Trade>, latest: Ledger)
    requires Executable(plan) && BothTagged(l, plan, sells, buys) && LatestOf(l, latest, Keys(sells) + Keys(buys))
    ensures forall k | k in Keys(DueOf(sells, latest)) + Keys(DueOf(buys, latest)) ::
              Resubmittable(l, k) && k.Root? && k.run == plan.run
    ensures OneSide(Keys(DueOf(sells, latest)), SELL) && OneSide(Keys(DueOf(buys, latest)), BUY)
    ensures AllFundable(DueOf(buys, latest)) && TickersOf(DueOf(sells, latest)) !! TickersOf(DueOf(buys, latest))
  {
    BothBatches(l, plan, sells, buys);
    DueBatch(plan.run, sells, latest);
    DueBatch(plan.run, buys, latest);
    DueFundable(plan.run, buys, latest);
    DueResubmittable(l, latest, plan.run, sells, buys);
    DueOfRun(plan.run, sells, buys, latest);
    SidesOfKeys(l, plan, sells, buys, latest);
  }

  /** Every planned trade has its answer once both phases are through. */
  lemma PlanFinished(l: Ledger, os: seq<Order>, l': Ledger, o: seq<Order>, mid: seq<Order>, os': seq<Order>, plan: Plan,
                     sells: seq<Trade>, buys: seq<Trade>, latest: Ledger,
                     first: Answers, answers: Answers, sent: Answers, done: Answers)
    requires Executable(plan) && BothTagged(l, plan, sells, buys) && LatestOf(l, latest, Keys(sells) + Keys(buys))
    requires RowsOK(l', os') && StepsIn(Keys(DueOf(sells, latest)) + Keys(DueOf(buys, latest)), l, os, l', os')
    requires Split(o, sells, DueOf(sells, latest), map[], first) && Replayed(sells, latest, first)
    requires Split(o, buys, DueOf(buys, latest), first, answers) && Replayed(buys, latest, answers)
    requires AllAnswered(mid, sent, DueOf(sells, latest))
    requires KeepsAnswers(answers, sent, TickersOf(DueOf(sells, latest)))
    requires AllAnswered(os', done, DueOf(buys, latest)) && KeepsAnswers(sent, done, TickersOf(DueOf(buys, latest)))
    requires GrowsIn(Keys(DueOf(buys, latest)), mid, os')
    ensures forall t | t in plan.trades :: t.ticker in done && AnswersTrade(l, l', os', plan.run, t, done[t.ticker])
  {
    BothTagsStay(l, os, l', os', plan, sells, buys, latest);
    PlanAnswered(l, l', o, mid, os', plan, sells, buys, latest, first, answers, sent, done);
  }
}
