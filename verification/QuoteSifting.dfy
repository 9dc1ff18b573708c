/** The split of a batch into trades that go out repriced and trades blocked for their quote
    (src/poma/execution_manager.py, the end of _reprice_for_execution). */
module QuoteSifting {
  import opened Models
  import opened OrderLifecycle
  import opened BrokerModel
  import opened LedgerInvariant
  import opened Recording
  import opened ExecutionPolicy
  import opened ExecutionPricing
  import opened Repricing

  predicate SameOrder(t: Trade, u: Trade) {
    u.orderRef == t.orderRef && u.ticker == t.ticker && u.side == t.side
  }

  type Prices = map<string, Trade>

  ghost predicate PricesMatch(trades: seq<Trade>, prices: Prices) {
    forall t | t in trades && t.ticker in prices :: SameOrder(t, prices[t.ticker])
  }

  lemma FinalPriceSameOrder(t: Trade, rounds: seq<Quotes>, refresh: Quotes, s: Pricing, u: Trade)
    requires FinalPrice(t, rounds, refresh, s, Some(u))
    ensures SameOrder(t, u)
    ensures exists quotes: Quotes, wide: bool :: Repriced(t, quotes, s, wide) == Some(u)
  {
    if rounds != [] && PricedIn(t, rounds, s, |rounds| - 1) {
      assert Repriced(t, Last(rounds), s, WideAllowed(|rounds| - 1)) == Some(u);
    } else {
      assert Repriced(t, refresh, s, true) == Some(u);
    }
  }

  lemma PricesOfBatch(trades: seq<Trade>, rounds: seq<Quotes>, refresh: Quotes, s: Pricing, prices: Prices)
    requires forall t | t in trades :: FinalPrice(t, rounds, refresh, s, Lookup(prices, t.ticker))
    ensures PricesMatch(trades, prices)
  {
    forall t | t in trades && t.ticker in prices ensures SameOrder(t, prices[t.ticker]) {
      FinalPriceSameOrder(t, rounds, refresh, s, prices[t.ticker]);
    }
  }

  /** The priced trades, in the order of the batch. */
  function Submittables(trades: seq<Trade>, prices: Prices): seq<Trade> {
    if trades == [] then []
    else
      var t := Last(trades);
      Submittables(Front(trades), prices) + (if t.ticker in prices then [prices[t.ticker]] else [])
  }

  ghost predicate From(trades: seq<Trade>, u: Trade) {
    exists t :: t in trades && SameOrder(t, u)
  }

  lemma {:induction false} SubmittablesFrom(trades: seq<Trade>, prices: Prices)
    requires PricesMatch(trades, prices)
    ensures forall u | u in Submittables(trades, prices) :: From(trades, u) && u.ticker in prices && prices[u.ticker] == u
    ensures forall t | t in trades && t.ticker in prices :: prices[t.ticker] in Submittables(trades, prices)
  {
    if trades != [] {
      SubmittablesFrom(Front(trades), prices);
      assert trades == Front(trades) + [Last(trades)];
      forall u | u in Submittables(trades, prices) ensures From(trades, u) && u.ticker in prices && prices[u.ticker] == u {
        if u in Submittables(Front(trades), prices) {
          var t :| t in Front(trades) && SameOrder(t, u);
          assert t in trades;
        } else {
          assert SameOrder(Last(trades), u);
        }
      }
    }
  }

  /** The first `n` trades of the batch are sifted. */
  ghost predicate Sifted(l: Ledger, os: seq<Order>, run: string, trades: seq<Trade>, prices: Prices, n: nat,
                         submittable: seq<Trade>, before: Answers, after: Answers) {
    && n <= |trades| && Batch(run, trades) && PricesMatch(trades, prices)
    && submittable == Submittables(trades[..n], prices) && AllPending(l, os, run, submittable)
    && (forall j | n <= j < |trades| :: Pending(l, os, run, trades[j]))
    && (forall j | 0 <= j < n && trades[j].ticker !in prices :: Answered(os, after, trades[j]))
    && KeepsAnswers(before, after, TickersOf(trades))
  }

  lemma SubmittablesElsewhere(run: string, trades: seq<Trade>, prices: Prices, n: nat)
    requires Batch(run, trades) && PricesMatch(trades, prices) && n < |trades|
    ensures forall u | u in Submittables(trades[..n], prices) :: u.ticker != trades[n].ticker && Tagged(run, u) && KeyOf(u) != KeyOf(trades[n])
    ensures Submittables(trades[..n + 1], prices)
         == Submittables(trades[..n], prices) + (if trades[n].ticker in prices then [prices[trades[n].ticker]] else [])
  {
    assert Front(trades[..n + 1]) == trades[..n];
    assert forall t | t in trades[..n] :: t in trades;
    SubmittablesFrom(trades[..n], prices);
    forall u | u in Submittables(trades[..n], prices)
      ensures u.ticker != trades[n].ticker && Tagged(run, u) && KeyOf(u) != KeyOf(trades[n])
    {
      var t :| t in trades[..n] && SameOrder(t, u);
      var j :| 0 <= j < n && trades[j] == t;
      assert trades[j].ticker != trades[n].ticker;
    }
  }

  /** Work on trade `n` leaves the sifted and the remaining trades pending. */
  lemma SiftedElsewhere(l: Ledger, os: seq<Order>, l': Ledger, run: string, trades: seq<Trade>, prices: Prices, n: nat,
                        submittable: seq<Trade>, before: Answers, after: Answers)
    requires Sifted(l, os, run, trades, prices, n, submittable, before, after) && n < |trades|
    requires StepsIn({KeyOf(trades[n])}, l, os, l', os)
    ensures AllPending(l', os, run, submittable)
    ensures forall j | n < j < |trades| :: Pending(l', os, run, trades[j])
  {
    SubmittablesElsewhere(run, trades, prices, n);
    AllPendingElsewhere(l, os, l', os, run, submittable, {KeyOf(trades[n])});
    forall j | n < j < |trades| ensures Pending(l', os, run, trades[j]) {
      assert trades[n].ticker != trades[j].ticker;
      PendingElsewhere(l, os, l', os, run, trades[j], {KeyOf(trades[n])});
    }
  }

  lemma SiftedPriced(l: Ledger, os: seq<Order>, l': Ledger, run: string, trades: seq<Trade>, prices: Prices, n: nat,
                     submittable: seq<Trade>, before: Answers, after: Answers)
    requires Sifted(l, os, run, trades, prices, n, submittable, before, after) && n < |trades|
    requires trades[n].ticker in prices
    requires StepsIn({KeyOf(trades[n])}, l, os, l', os) && Pending(l', os, run, prices[trades[n].ticker])
    ensures Sifted(l', os, run, trades, prices, n + 1, submittable + [prices[trades[n].ticker]], before, after)
  {
    SiftedElsewhere(l, os, l', run, trades, prices, n, submittable, before, after);
    SubmittablesElsewhere(run, trades, prices, n);
    assert trades[n] in trades;
  }

  lemma SiftedBlocked(l: Ledger, os: seq<Order>, l': Ledger, run: string, trades: seq<Trade>, prices: Prices, n: nat,
                      submittable: seq<Trade>, before: Answers, after: Answers, result: OrderResult)
    requires Sifted(l, os, run, trades, prices, n, submittable, before, after) && n < |trades|
    requires trades[n].ticker !in prices
    requires StepsIn({KeyOf(trades[n])}, l, os, l', os)
    requires result.ticker == trades[n].ticker && result.side == trades[n].side && Truthful(os, trades[n], result)
    ensures Sifted(l', os, run, trades, prices, n + 1, submittable, before, after[trades[n].ticker := result])
  {
    SiftedElsewhere(l, os, l', run, trades, prices, n, submittable, before, after);
    SubmittablesElsewhere(run, trades, prices, n);
    assert Submittables(trades[..n + 1], prices) == submittable;
  }

  /** The local status of a trade that could not be priced. */
  function QuoteBlock(t: Trade, unresolved: set<string>): RawStatus {
    if t.ticker in unresolved then ContractUnresolved else QuoteBlocked
  }

  /** The first `n` trades that have no price are answered as blocked for their quote or contract. */
  ghost predicate AnsweredBlocks(trades: seq<Trade>, prices: Prices, unresolved: set<string>, answers: Answers,
                                 n: nat) {
    && n <= |trades|
    && forall j | 0 <= j < n && trades[j].ticker !in prices ::
         AnsweredLocally(answers, trades[j], QuoteBlock(trades[j], unresolved))
  }

  lemma AnsweredBlocksNext(run: string, trades: seq<Trade>, prices: Prices, unresolved: set<string>, answers: Answers,
                           n: nat)
    requires Batch(run, trades) && n < |trades| && AnsweredBlocks(trades, prices, unresolved, answers, n)
    ensures if trades[n].ticker in prices then AnsweredBlocks(trades, prices, unresolved, answers, n + 1)
            else AnsweredBlocks(trades, prices, unresolved,
                                answers[trades[n].ticker := LocalResult(trades[n], QuoteBlock(trades[n], unresolved))], n + 1)
  {
    assert forall j | 0 <= j < n :: trades[j].ticker != trades[n].ticker;
  }

  /** The rows of the first `n` trades say that they are planned at their price, or why they are blocked. */
  predicate SiftedRows(l: Ledger, run: string, session: string, trades: seq<Trade>, prices: Prices,
                       unresolved: set<string>, n: nat) {
    && n <= |trades|
    && forall j | 0 <= j < n ::
         SiftedRow(l, run, session, trades[j], Lookup(prices, trades[j].ticker), QuoteBlock(trades[j], unresolved))
  }

  predicate SiftedRow(l: Ledger, run: string, session: string, t: Trade, priced: Option<Trade>, block: RawStatus) {
    && t.orderRef.Some? && KeyOf(t) in l
    && if priced.Some? then priced.value.orderRef == t.orderRef && l[KeyOf(t)] == PlannedEntry(run, session, priced.value)
       else RowSays(l, t, LocalResult(t, block))
  }

  lemma SiftedRowsNext(l: Ledger, os: seq<Order>, l': Ledger, run: string, session: string, trades: seq<Trade>, prices: Prices,
                       unresolved: set<string>, n: nat)
    requires Batch(run, trades) && n < |trades| && SiftedRows(l, run, session, trades, prices, unresolved, n)
    requires StepsIn({KeyOf(trades[n])}, l, os, l', os)
    requires SiftedRow(l', run, session, trades[n], Lookup(prices, trades[n].ticker), QuoteBlock(trades[n], unresolved))
    ensures SiftedRows(l', run, session, trades, prices, unresolved, n + 1)
  {
    forall j | 0 <= j < n ensures KeyOf(trades[j]) != KeyOf(trades[n]) {
      assert trades[j].ticker != trades[n].ticker;
    }
  }

  /** What goes out is what got a final price from the feed, in the order of the batch. */
  ghost predicate PricedBy(trades: seq<Trade>, submittable: seq<Trade>, prices: Prices, rounds: seq<Quotes>, s: Pricing,
                           feed: Feed) {
    && RoundsOf(trades, rounds, s, feed) && submittable == Submittables(trades, prices)
    && forall t | t in trades :: FinalPrice(t, rounds, RefreshOf(feed, |rounds|), s, Lookup(prices, t.ticker))
  }

  /** Every trade of the batch is answered or goes out, and nothing else goes out. */
  ghost predicate Split(os: seq<Order>, trades: seq<Trade>, submittable: seq<Trade>, before: Answers, after: Answers) {
    && (forall t | t in trades :: Answered(os, after, t) || t.ticker in TickersOf(submittable))
    && (forall u | u in submittable :: From(trades, u))
    && KeepsAnswers(before, after, TickersOf(trades))
  }

  lemma SplitWhole(os: seq<Order>, trades: seq<Trade>, answers: Answers)
    ensures Split(os, trades, trades, answers, answers)
  {
    forall t | t in trades ensures t.ticker in TickersOf(trades) && From(trades, t) {
      assert SameOrder(t, t);
    }
  }

  lemma SiftedStarts(l: Ledger, os: seq<Order>, run: string, session: string, trades: seq<Trade>, prices: Prices,
                     unresolved: set<string>, answers: Answers)
    requires AllPending(l, os, run, trades) && PricesMatch(trades, prices)
    ensures Sifted(l, os, run, trades, prices, 0, [], answers, answers)
    ensures AnsweredBlocks(trades, prices, unresolved, answers, 0)
    ensures SiftedRows(l, run, session, trades, prices, unresolved, 0)
  {
  }

  lemma SiftedSplits(l: Ledger, os: seq<Order>, run: string, trades: seq<Trade>, prices: Prices,
                     submittable: seq<Trade>, before: Answers, after: Answers)
    requires Sifted(l, os, run, trades, prices, |trades|, submittable, before, after)
    ensures submittable == Submittables(trades, prices) && AllPending(l, os, run, submittable)
    ensures Split(os, trades, submittable, before, after)
  {
    assert trades[..|trades|] == trades;
    SubmittablesFrom(trades, prices);
    forall t | t in trades ensures Answered(os, after, t) || t.ticker in TickersOf(submittable) {
      if t.ticker in prices {
        assert prices[t.ticker] in submittable;
        assert SameOrder(t, prices[t.ticker]);
      }
    }
  }

  lemma SplitKeys(os: seq<Order>, run: string, trades: seq<Trade>, submittable: seq<Trade>, before: Answers,
                  after: Answers)
    requires Batch(run, trades) && Batch(run, submittable) && Split(os, trades, submittable, before, after)
    ensures Keys(submittable) <= Keys(trades) && TickersOf(submittable) <= TickersOf(trades)
  {
    forall i | 0 <= i < |submittable| ensures KeyOf(submittable[i]) in Keys(trades) && submittable[i].ticker in TickersOf(trades) {
      assert submittable[i] in submittable;
      var t :| t in trades && SameOrder(t, submittable[i]);
      var j :| 0 <= j < |trades| && trades[j] == t;
      assert trades[j].orderRef.Some? && trades[j].ticker == submittable[i].ticker;
    }
  }

  /** The answers of those that went out complete the answers of the batch. */
  lemma SplitAnswers(os: seq<Order>, os': seq<Order>, run: string, trades: seq<Trade>, submittable: seq<Trade>,
                     before: Answers, after: Answers, final: Answers)
    requires Batch(run, trades) && Batch(run, submittable) && Split(os, trades, submittable, before, after)
    requires GrowsIn(Keys(submittable), os, os')
    requires AllAnswered(os', final, submittable) && KeepsAnswers(after, final, TickersOf(submittable))
    ensures AllAnswered(os', final, trades) && KeepsAnswers(before, final, TickersOf(trades))
  {
    SplitKeys(os, run, trades, submittable, before, after);
    KeyTickers(run, submittable);
    forall i | 0 <= i < |trades| ensures Answered(os', final, trades[i]) {
      if trades[i].ticker in TickersOf(submittable) {
        var j :| 0 <= j < |submittable| && submittable[j].ticker == trades[i].ticker;
        assert submittable[j] in submittable;
        var t :| t in trades && SameOrder(t, submittable[j]);
        var k :| 0 <= k < |trades| && trades[k] == t;
        assert k == i;
        assert Answered(os', final, submittable[j]);
      } else {
        AnsweredElsewhere(Keys(submittable), os, os', after, trades[i]);
      }
    }
  }
}
