/** Quote rounds before submission (src/poma/execution_manager.py, _reprice_for_execution): tickers
    that fail are quoted again, tickers that succeeded early are quoted once more at the end. */
module Repricing {
  import opened Models
  import opened ExecutionPolicy
  import opened ExecutionPricing

  const ATTEMPTS: nat := 4

  type Quotes = map<string, Quote>

  /** What a phase's requests for quotes are answered with, request by request: quotes, an exception, or
      the end of the process. */
  type Feed = nat -> Exit<Quotes>

  method ExecutionQuotes(feed: Feed, request: nat) returns (r: Exit<Quotes>)
    ensures !r.NotConfirmed? && (r.Ok? ==> feed(request) == r) && (!r.Ok? ==> !feed(request).Ok?)
  {
    r := if feed(request).NotConfirmed? then Raised else feed(request);
  }

  predicate UnresolvedIn(t: Trade, quotes: Quotes) {
    t.ticker in quotes && quotes[t.ticker].unresolved
  }

  /** Only the last attempt may price a wide spread. */
  predicate WideAllowed(round: nat) {
    round + 1 >= ATTEMPTS
  }

  /** Neither priced nor found to have no contract in any of the rounds. */
  predicate StillPending(t: Trade, rounds: seq<Quotes>, s: Pricing) {
    rounds == []
    || (StillPending(t, Front(rounds), s) && Repriced(t, Last(rounds), s, WideAllowed(|rounds| - 1)).None? && !UnresolvedIn(t, Last(rounds)))
  }

  /** The round that priced the trade: it was still pending then, so there is at most one. */
  predicate PricedIn(t: Trade, rounds: seq<Quotes>, s: Pricing, k: nat) {
    k < |rounds| && StillPending(t, rounds[..k], s) && Repriced(t, rounds[k], s, WideAllowed(k)).Some?
  }

  /** What the rounds and the refresh make of one trade: its price is from the last round if that is
      the round that priced it, and from the refresh if an earlier round did. */
  ghost predicate FinalPrice(t: Trade, rounds: seq<Quotes>, refresh: Quotes, s: Pricing, final: Option<Trade>) {
    if rounds != [] && PricedIn(t, rounds, s, |rounds| - 1) then final == Repriced(t, Last(rounds), s, WideAllowed(|rounds| - 1))
    else if exists k :: PricedIn(t, rounds, s, k) then final == Repriced(t, refresh, s, true)
    else final == None
  }

  /** Only the last of four rounds prices a trade off a wide quote. */
  lemma OnlyLastRoundIsWide(t: Trade, rounds: seq<Quotes>, s: Pricing, k: nat)
    requires PricedIn(t, rounds, s, k) && !s.basis.LastPrice?
    ensures t.ticker in rounds[k] && (WiderThan(rounds[k][t.ticker], s.maxSpreadBps) ==> k >= 3)
  {
    RepricedExactly(t, rounds[k], s, WideAllowed(k));
  }

  /** The quote prices the trade as it goes out. */
  predicate PricesAs(t: Trade, u: Trade, quotes: Quotes, s: Pricing) {
    t.ticker in quotes && SoundFor(quotes[t.ticker], t.side, s, true) && RepricedAt(t, u, quotes[t.ticker], s)
  }

  /** No order goes out on a quote that waited for others: its price is from the last round or the refresh. */
  lemma FinalIsFresh(t: Trade, rounds: seq<Quotes>, refresh: Quotes, s: Pricing, u: Trade)
    requires FinalPrice(t, rounds, refresh, s, Some(u))
    ensures rounds != [] && (PricesAs(t, u, Last(rounds), s) || PricesAs(t, u, refresh, s))
  {
    if rounds != [] && PricedIn(t, rounds, s, |rounds| - 1) {
      RepricedExactly(t, Last(rounds), s, WideAllowed(|rounds| - 1));
    } else {
      RepricedExactly(t, refresh, s, true);
    }
  }

  function Lookup<T>(m: map<string, T>, key: string): Option<T> {
    if key in m then Some(m[key]) else None
  }

  /** What is known after the given rounds. */
  ghost predicate AfterRounds(trades: seq<Trade>, rounds: seq<Quotes>, s: Pricing,
                              pending: seq<Trade>, repriced: map<string, Trade>, quotedOn: map<string, nat>) {
    && (forall t | t in trades :: t in pending <==> StillPending(t, rounds, s))
    && (forall t | t in pending :: t in trades)
    && (forall t | t in trades :: Traced(t, rounds, s, Lookup(repriced, t.ticker), Lookup(quotedOn, t.ticker)))
  }

  ghost predicate Traced(t: Trade, rounds: seq<Quotes>, s: Pricing, priced: Option<Trade>, round: Option<nat>) {
    match round
    case None => priced == None && forall k :: !PricedIn(t, rounds, s, k)
    case Some(k) => PricedIn(t, rounds, s, k) && priced == Repriced(t, rounds[k], s, WideAllowed(k))
  }

  lemma PricedEndsPending(t: Trade, rounds: seq<Quotes>, s: Pricing, k: nat, m: nat)
    requires PricedIn(t, rounds, s, k) && k < m <= |rounds|
    ensures !StillPending(t, rounds[..m], s)
  {
    PendingPrefix(t, rounds[..m], s, k + 1);
    assert rounds[..m][..k + 1] == rounds[..k + 1];
    assert Front(rounds[..k + 1]) == rounds[..k];
  }

  lemma PricedOnce(t: Trade, rounds: seq<Quotes>, s: Pricing, k: nat)
    requires PricedIn(t, rounds, s, k)
    ensures !StillPending(t, rounds, s)
    ensures forall m: nat :: PricedIn(t, rounds, s, m) ==> m == k
  {
    PricedEndsPending(t, rounds, s, k, |rounds|);
    assert rounds[..|rounds|] == rounds;
    forall m: nat | PricedIn(t, rounds, s, m) && m != k ensures false {
      if m < k {
        PricedEndsPending(t, rounds, s, m, k);
      } else {
        PricedEndsPending(t, rounds, s, k, m);
      }
    }
  }

  lemma {:induction false} PendingPrefix(t: Trade, rounds: seq<Quotes>, s: Pricing, k: nat)
    requires k <= |rounds|
    ensures StillPending(t, rounds, s) ==> StillPending(t, rounds[..k], s)
  {
    if k < |rounds| {
      PendingPrefix(t, Front(rounds), s, k);
      assert Front(rounds)[..k] == rounds[..k];
    } else {
      assert rounds[..k] == rounds;
    }
  }

  lemma PricedInGrows(t: Trade, rounds: seq<Quotes>, quotes: Quotes, s: Pricing, k: nat)
    ensures k < |rounds| ==> (PricedIn(t, rounds + [quotes], s, k) <==> PricedIn(t, rounds, s, k))
    ensures k == |rounds| ==>
              (PricedIn(t, rounds + [quotes], s, k) <==> StillPending(t, rounds, s) && Repriced(t, quotes, s, WideAllowed(k)).Some?)
  {
    if k <= |rounds| {
      assert (rounds + [quotes])[..k] == rounds[..k];
      assert rounds[..|rounds|] == rounds;
    }
  }

  /** One more round: pending trades are priced, dropped as unresolved, or stay pending. */
  lemma NextRound(t: Trade, rounds: seq<Quotes>, quotes: Quotes, s: Pricing, priced: Option<Trade>, round: Option<nat>)
    requires Traced(t, rounds, s, priced, round)
    ensures var now := Repriced(t, quotes, s, WideAllowed(|rounds|));
            if StillPending(t, rounds, s) && now.Some? then Traced(t, rounds + [quotes], s, now, Some(|rounds|))
            else Traced(t, rounds + [quotes], s, priced, round)
    ensures StillPending(t, rounds + [quotes], s) <==>
              StillPending(t, rounds, s) && Repriced(t, quotes, s, WideAllowed(|rounds|)).None? && !UnresolvedIn(t, quotes)
  {
    var all := rounds + [quotes];
    assert Front(all) == rounds;
    forall k ensures PricedIn(t, all, s, k) <==>
                       if k == |rounds| then StillPending(t, rounds, s) && Repriced(t, quotes, s, WideAllowed(k)).Some? else PricedIn(t, rounds, s, k)
    {
      PricedInGrows(t, rounds, quotes, s, k);
    }
    if round.Some? {
      PricedOnce(t, rounds, s, round.value);
    }
  }

  /** apply_execution_quotes over a batch. */
  method ApplyQuotes(trades: seq<Trade>, quotes: Quotes, s: Pricing, wide: bool) returns (repriced: map<string, Trade>)
    requires DistinctTickers(trades)
    ensures AnswersRequest(trades, quotes, s, wide, repriced)
  {
    repriced := map[];
    for i := 0 to |trades|
      invariant forall j | 0 <= j < i :: Lookup(repriced, trades[j].ticker) == Repriced(trades[j], quotes, s, wide)
      invariant forall k | k in repriced :: exists j :: 0 <= j < i && trades[j].ticker == k
    {
      var updated := Repriced(trades[i], quotes, s, wide);
      if updated.Some? {
        repriced := repriced[trades[i].ticker := updated.value];
      }
    }
  }

  function Without(trades: seq<Trade>, gone: set<string>): seq<Trade> {
    if trades == [] then []
    else Without(Front(trades), gone) + (if Last(trades).ticker in gone then [] else [Last(trades)])
  }

  lemma {:induction false} WithoutKeeps(trades: seq<Trade>, gone: set<string>)
    ensures forall t :: t in Without(trades, gone) <==> t in trades && t.ticker !in gone
    ensures DistinctTickers(trades) ==> DistinctTickers(Without(trades, gone))
  {
    if trades != [] {
      WithoutKeeps(Front(trades), gone);
      assert trades == Front(trades) + [Last(trades)];
      forall t | t in Front(trades) && DistinctTickers(trades) ensures t.ticker != Last(trades).ticker {
      }
    }
  }

  lemma AfterNextRound(trades: seq<Trade>, rounds: seq<Quotes>, quotes: Quotes, s: Pricing,
                       pending: seq<Trade>, repriced: map<string, Trade>, quotedOn: map<string, nat>,
                       updated: map<string, Trade>, gone: set<string>)
    requires AfterRounds(trades, rounds, s, pending, repriced, quotedOn) && DistinctTickers(trades)
    requires AnswersRequest(pending, quotes, s, WideAllowed(|rounds|), updated)
    requires GoneNow(pending, quotes, updated, gone)
    ensures AfterRounds(trades, rounds + [quotes], s, Without(pending, gone), repriced + updated,
                        quotedOn + map k | k in updated :: |rounds|)
  {
    WithoutKeeps(pending, gone);
    forall t | t in trades
      ensures t in Without(pending, gone) <==> StillPending(t, rounds + [quotes], s)
      ensures Traced(t, rounds + [quotes], s, Lookup(repriced + updated, t.ticker), Lookup(quotedOn + map k | k in updated :: |rounds|, t.ticker))
    {
      UpdatedIsPending(trades, pending, updated, t);
      TracedNext(t, rounds, quotes, s, t in pending, repriced, quotedOn, updated);
    }
  }

  lemma TracedNext(t: Trade, rounds: seq<Quotes>, quotes: Quotes, s: Pricing, pending: bool,
                   repriced: map<string, Trade>, quotedOn: map<string, nat>, updated: map<string, Trade>)
    requires Traced(t, rounds, s, Lookup(repriced, t.ticker), Lookup(quotedOn, t.ticker))
    requires pending <==> StillPending(t, rounds, s)
    requires if pending then Lookup(updated, t.ticker) == Repriced(t, quotes, s, WideAllowed(|rounds|)) else t.ticker !in updated
    ensures Traced(t, rounds + [quotes], s, Lookup(repriced + updated, t.ticker), Lookup(quotedOn + map k | k in updated :: |rounds|, t.ticker))
    ensures StillPending(t, rounds + [quotes], s) <==> pending && t.ticker !in updated && !UnresolvedIn(t, quotes)
  {
    NextRound(t, rounds, quotes, s, Lookup(repriced, t.ticker), Lookup(quotedOn, t.ticker));
    assert Lookup(quotedOn + map k | k in updated :: |rounds|, t.ticker)
        == if t.ticker in updated then Some(|rounds|) else Lookup(quotedOn, t.ticker);
  }

  lemma UpdatedIsPending(trades: seq<Trade>, pending: seq<Trade>, updated: map<string, Trade>, t: Trade)
    requires DistinctTickers(trades) && t in trades && forall u | u in pending :: u in trades
    requires forall k | k in updated :: exists u :: u in pending && u.ticker == k
    ensures t.ticker in updated ==> t in pending
  {
    if t.ticker in updated {
      var u :| u in pending && u.ticker == t.ticker;
      assert u == t;
    }
  }

  ghost predicate UnresolvedSoFar(rounds: seq<Quotes>, unresolved: set<string>) {
    forall k :: k in unresolved <==> exists i :: 0 <= i < |rounds| && k in rounds[i] && rounds[i][k].unresolved
  }

  lemma {:induction false} PendingIsResolvable(t: Trade, rounds: seq<Quotes>, s: Pricing)
    requires StillPending(t, rounds, s)
    ensures forall i | 0 <= i < |rounds| :: !UnresolvedIn(t, rounds[i])
  {
    if rounds != [] {
      PendingIsResolvable(t, Front(rounds), s);
      assert forall i | 0 <= i < |rounds| - 1 :: rounds[i] == Front(rounds)[i];
    }
  }

  /** What _reprice_for_execution remembers between two rounds. */
  datatype Sampling = Sampling(pending: seq<Trade>, repriced: map<string, Trade>, quotedOn: map<string, nat>, unresolved: set<string>)

  ghost predicate Quoted(trades: seq<Trade>, rounds: seq<Quotes>, s: Pricing, p: Sampling) {
    && DistinctTickers(p.pending)
    && AfterRounds(trades, rounds, s, p.pending, p.repriced, p.quotedOn)
    && UnresolvedSoFar(rounds, p.unresolved)
  }

  lemma QuotedNothing(trades: seq<Trade>, s: Pricing)
    requires DistinctTickers(trades)
    ensures Quoted(trades, [], s, Sampling(trades, map[], map[], {}))
  {
  }

  /** The state after one more round. */
  function AfterRound(p: Sampling, quotes: Quotes, updated: map<string, Trade>, round: nat): Sampling {
    var unresolved := p.unresolved + set k | k in quotes && quotes[k].unresolved;
    Sampling(Without(p.pending, updated.Keys + unresolved), p.repriced + updated,
           p.quotedOn + map k | k in updated :: round, unresolved)
  }

  /** The answers of one request for `asked`. */
  ghost predicate AnswersRequest(asked: seq<Trade>, quotes: Quotes, s: Pricing, wide: bool,
                                 updated: map<string, Trade>) {
    && (forall t | t in asked :: Lookup(updated, t.ticker) == Repriced(t, quotes, s, wide))
    && (forall k | k in updated :: exists t :: t in asked && t.ticker == k)
  }

  lemma QuotedNext(trades: seq<Trade>, rounds: seq<Quotes>, s: Pricing, p: Sampling, quotes: Quotes,
                   updated: map<string, Trade>)
    requires DistinctTickers(trades) && Quoted(trades, rounds, s, p)
    requires AnswersRequest(p.pending, quotes, s, WideAllowed(|rounds|), updated)
    ensures Quoted(trades, rounds + [quotes], s, AfterRound(p, quotes, updated, |rounds|))
  {
    var unresolved := p.unresolved + set k | k in quotes && quotes[k].unresolved;
    assert GoneNow(p.pending, quotes, updated, updated.Keys + unresolved) by {
      UnresolvedNows(rounds, s, p, quotes, updated, unresolved);
    }
    AfterNextRound(trades, rounds, quotes, s, p.pending, p.repriced, p.quotedOn, updated, updated.Keys + unresolved);
    WithoutDistinct(p.pending, updated.Keys + unresolved);
    UnresolvedNext(rounds, quotes, p.unresolved);
  }

  ghost predicate GoneNow(pending: seq<Trade>, quotes: Quotes, updated: map<string, Trade>, gone: set<string>) {
    forall t | t in pending :: t.ticker in gone <==> (t.ticker in updated || UnresolvedIn(t, quotes))
  }

  lemma UnresolvedNows(rounds: seq<Quotes>, s: Pricing, p: Sampling, quotes: Quotes, updated: map<string, Trade>,
                       unresolved: set<string>)
    requires (forall t | t in p.pending :: StillPending(t, rounds, s)) && UnresolvedSoFar(rounds, p.unresolved)
    requires unresolved == p.unresolved + set k | k in quotes && quotes[k].unresolved
    ensures GoneNow(p.pending, quotes, updated, updated.Keys + unresolved)
  {
    forall t | t in p.pending ensures t.ticker in unresolved <==> UnresolvedIn(t, quotes) {
      UnresolvedNow(t, rounds, s, p.unresolved, quotes);
    }
  }

  lemma WithoutDistinct(trades: seq<Trade>, gone: set<string>)
    requires DistinctTickers(trades)
    ensures DistinctTickers(Without(trades, gone))
  {
    WithoutKeeps(trades, gone);
  }

  lemma UnresolvedNow(t: Trade, rounds: seq<Quotes>, s: Pricing, unresolved: set<string>, quotes: Quotes)
    requires StillPending(t, rounds, s) && UnresolvedSoFar(rounds, unresolved)
    ensures t.ticker in unresolved + (set k | k in quotes && quotes[k].unresolved) <==> UnresolvedIn(t, quotes)
  {
    PendingIsResolvable(t, rounds, s);
  }

  lemma UnresolvedNext(rounds: seq<Quotes>, quotes: Quotes, unresolved: set<string>)
    requires UnresolvedSoFar(rounds, unresolved)
    ensures UnresolvedSoFar(rounds + [quotes], unresolved + set k | k in quotes && quotes[k].unresolved)
  {
    var all := rounds + [quotes];
    assert all[|rounds|] == quotes && forall i | 0 <= i < |rounds| :: all[i] == rounds[i];
  }

  // ---- how many rounds ----

  predicate SomePending(trades: seq<Trade>, rounds: seq<Quotes>, s: Pricing) {
    exists t :: t in trades && StillPending(t, rounds, s)
  }

  /** The rounds are the first answers of the feed, each asked for because something was still pending. */
  predicate Asked(trades: seq<Trade>, rounds: seq<Quotes>, s: Pricing, feed: Feed) {
    rounds == []
    || (Asked(trades, Front(rounds), s, feed) && SomePending(trades, Front(rounds), s) && feed(|rounds| - 1) == Ok(Last(rounds)))
  }

  /** As many rounds as it takes, and at most four. */
  predicate RoundsOf(trades: seq<Trade>, rounds: seq<Quotes>, s: Pricing, feed: Feed) {
    && |rounds| <= ATTEMPTS && Asked(trades, rounds, s, feed)
    && (|rounds| == ATTEMPTS || !SomePending(trades, rounds, s))
  }

  /** The rounds of a feed are determined. */
  lemma RoundsAreDetermined(trades: seq<Trade>, a: seq<Quotes>, b: seq<Quotes>, s: Pricing, feed: Feed)
    requires RoundsOf(trades, a, s, feed) && RoundsOf(trades, b, s, feed)
    ensures a == b
  {
    if |a| <= |b| {
      AskedPrefix(trades, a, b, s, feed);
    } else {
      AskedPrefix(trades, b, a, s, feed);
    }
  }

  lemma {:induction false} AskedPrefix(trades: seq<Trade>, a: seq<Quotes>, b: seq<Quotes>, s: Pricing, feed: Feed)
    requires Asked(trades, a, s, feed) && Asked(trades, b, s, feed) && |a| <= |b|
    ensures b[..|a|] == a && (|a| < |b| ==> SomePending(trades, a, s))
  {
    if |a| < |b| {
      AskedPrefix(trades, a, Front(b), s, feed);
      assert Front(b)[..|a|] == b[..|a|];
      assert |a| == |b| - 1 ==> a == Front(b);
    } else if a != [] {
      AskedPrefix(trades, Front(a), Front(b), s, feed);
      assert a == Front(a) + [Last(a)] && b == Front(b) + [Last(b)];
    }
  }

  /** The quotes of the request after the rounds. */
  function RefreshOf(feed: Feed, request: nat): Quotes {
    if feed(request).Ok? then feed(request).value else map[]
  }

  lemma AskedNext(trades: seq<Trade>, rounds: seq<Quotes>, s: Pricing, feed: Feed, p: Sampling, quotes: Quotes)
    requires Asked(trades, rounds, s, feed) && Quoted(trades, rounds, s, p) && p.pending != []
    requires feed(|rounds|) == Ok(quotes)
    ensures Asked(trades, rounds + [quotes], s, feed)
  {
    assert p.pending[0] in p.pending;
    assert Front(rounds + [quotes]) == rounds && Last(rounds + [quotes]) == quotes;
  }

  lemma RoundsEnd(trades: seq<Trade>, rounds: seq<Quotes>, s: Pricing, feed: Feed, p: Sampling)
    requires Asked(trades, rounds, s, feed) && Quoted(trades, rounds, s, p) && |rounds| <= ATTEMPTS
    requires |rounds| == ATTEMPTS || p.pending == []
    ensures RoundsOf(trades, rounds, s, feed)
  {
  }

  /** Quote until nothing is pending or the attempts are used up. */
  method QuoteRounds(trades: seq<Trade>, s: Pricing, feed: Feed)
    returns (r: Exit<(Sampling, nat)>, ghost rounds: seq<Quotes>)
    requires DistinctTickers(trades) && trades != []
    ensures !r.NotConfirmed?
    ensures r.Ok? ==> Quoted(trades, rounds, s, r.value.0) && r.value.1 + 1 == |rounds|
    ensures r.Ok? ==> RoundsOf(trades, rounds, s, feed)
    ensures !r.Ok? ==> |rounds| < ATTEMPTS && !feed(|rounds|).Ok?
  {
    var p := Sampling(trades, map[], map[], {});
    QuotedNothing(trades, s);
    rounds := [];
    var attempt := 0;
    while attempt < ATTEMPTS && p.pending != []
      invariant attempt == |rounds| <= ATTEMPTS
      invariant Quoted(trades, rounds, s, p) && Asked(trades, rounds, s, feed)
      invariant attempt == 0 ==> p.pending == trades
    {
      var answer := ExecutionQuotes(feed, attempt);
      if !answer.Ok? {
        return answer.PropagateFailure(), rounds;
      }
      var updated := ApplyQuotes(p.pending, answer.value, s, WideAllowed(attempt));
      QuotedNext(trades, rounds, s, p, answer.value, updated);
      AskedNext(trades, rounds, s, feed, p, answer.value);
      p := AfterRound(p, answer.value, updated, attempt);
      rounds := rounds + [answer.value];
      attempt := attempt + 1;
    }
    RoundsEnd(trades, rounds, s, feed, p);
    r := Ok((p, attempt - 1));
  }

  /** The trades whose valid quote is older than the last round. */
  function Aged(trades: seq<Trade>, quotedOn: map<string, nat>, last: nat): seq<Trade> {
    if trades == [] then []
    else
      var t := Last(trades);
      Aged(Front(trades), quotedOn, last) + (if t.ticker in quotedOn && quotedOn[t.ticker] < last then [t] else [])
  }

  lemma {:induction false} AgedMembers(trades: seq<Trade>, quotedOn: map<string, nat>, last: nat)
    ensures forall t :: t in Aged(trades, quotedOn, last) <==> t in trades && t.ticker in quotedOn && quotedOn[t.ticker] < last
    ensures DistinctTickers(trades) ==> DistinctTickers(Aged(trades, quotedOn, last))
  {
    if trades != [] {
      AgedMembers(Front(trades), quotedOn, last);
      assert trades == Front(trades) + [Last(trades)];
      forall t | t in Front(trades) && DistinctTickers(trades) ensures t.ticker != Last(trades).ticker {
      }
    }
  }

  /** The price each trade of the batch goes out with, if any. */
  method PriceBatch(trades: seq<Trade>, s: Pricing, feed: Feed)
    returns (r: Exit<(map<string, Trade>, set<string>)>, ghost rounds: seq<Quotes>, ghost refresh: Quotes)
    requires DistinctTickers(trades) && trades != []
    ensures !r.NotConfirmed?
    ensures r.Ok? ==> RoundsOf(trades, rounds, s, feed) && refresh == RefreshOf(feed, |rounds|)
    ensures r.Ok? ==> forall t | t in trades :: FinalPrice(t, rounds, refresh, s, Lookup(r.value.0, t.ticker))
    ensures r.Ok? ==> UnresolvedSoFar(rounds, r.value.1)
    ensures !r.Ok? ==> |rounds| <= ATTEMPTS && !feed(|rounds|).Ok?
  {
    refresh := map[];
    var quoted: Exit<(Sampling, nat)>;
    quoted, rounds := QuoteRounds(trades, s, feed);
    if !quoted.Ok? {
      return quoted.PropagateFailure(), rounds, refresh;
    }
    refresh := RefreshOf(feed, |rounds|);
    r := RefreshPrices(trades, s, feed, quoted.value.0, quoted.value.1, rounds);
  }

  /** Prices older than the last round are asked for once more. */
  method RefreshPrices(trades: seq<Trade>, s: Pricing, feed: Feed, p: Sampling, last: nat, ghost rounds: seq<Quotes>)
    returns (r: Exit<(map<string, Trade>, set<string>)>)
    requires DistinctTickers(trades) && Quoted(trades, rounds, s, p) && last + 1 == |rounds|
    ensures !r.NotConfirmed?
    ensures r.Ok? ==> forall t | t in trades ::
                FinalPrice(t, rounds, RefreshOf(feed, |rounds|), s, Lookup(r.value.0, t.ticker))
    ensures r.Ok? ==> r.value.1 == p.unresolved
    ensures !r.Ok? ==> !feed(|rounds|).Ok?
  {
    var aged := Aged(trades, p.quotedOn, last);
    AgedMembers(trades, p.quotedOn, last);
    var updated: map<string, Trade> := map[];
    if aged != [] {
      var answer := ExecutionQuotes(feed, last + 1);
      if !answer.Ok? {
        return answer.PropagateFailure();
      }
      updated := ApplyQuotes(aged, answer.value, s, true);
    }
    FinalPrices(trades, rounds, RefreshOf(feed, |rounds|), s, p, aged, updated);
    r := Ok((Refreshed(p.repriced, aged, updated), p.unresolved));
  }

  /** The aged prices replaced by their refresh, or dropped. */
  function Refreshed(repriced: map<string, Trade>, aged: seq<Trade>, updated: map<string, Trade>): map<string, Trade> {
    (map k | k in repriced && k !in (set t | t in aged :: t.ticker) :: repriced[k]) + updated
  }

  lemma FinalPrices(trades: seq<Trade>, rounds: seq<Quotes>, refresh: Quotes, s: Pricing, p: Sampling,
                    aged: seq<Trade>, updated: map<string, Trade>)
    requires DistinctTickers(trades) && rounds != [] && Quoted(trades, rounds, s, p)
    requires forall t :: t in aged <==> t in trades && t.ticker in p.quotedOn && p.quotedOn[t.ticker] < |rounds| - 1
    requires AnswersRequest(aged, refresh, s, true, updated)
    ensures forall t | t in trades :: FinalPrice(t, rounds, refresh, s, Lookup(Refreshed(p.repriced, aged, updated), t.ticker))
  {
    forall t | t in trades ensures FinalPrice(t, rounds, refresh, s, Lookup(Refreshed(p.repriced, aged, updated), t.ticker)) {
      UpdatedIsPending(trades, aged, updated, t);
      FinalPriceOf(t, rounds, refresh, s, Lookup(p.repriced, t.ticker), Lookup(p.quotedOn, t.ticker));
      if t.ticker in (set u | u in aged :: u.ticker) {
        var u :| u in aged && u.ticker == t.ticker;
        assert u == t;
      }
    }
  }

  lemma FinalPriceOf(t: Trade, rounds: seq<Quotes>, refresh: Quotes, s: Pricing, priced: Option<Trade>,
                     round: Option<nat>)
    requires rounds != [] && Traced(t, rounds, s, priced, round)
    ensures FinalPrice(t, rounds, refresh, s, if round.Some? && round.value < |rounds| - 1 then Repriced(t, refresh, s, true) else priced)
  {
    if round.Some? {
      PricedOnce(t, rounds, s, round.value);
    }
  }
}
