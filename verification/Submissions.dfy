/** What became of the trades of a batch, and when submission stops (src/poma/broker.py,
    IbkrBroker.submit_trades). */
module Submissions {
  import opened Models
  import opened BrokerModel
  import opened Recording
  import opened ExecutionPolicy
  import opened Environment

  /** What became of one trade handed to the broker. */
  datatype Submission = Reported(result: OrderResult) | Uncertain(result: OrderResult) | Refused(result: OrderResult) | ConnectionLost

  predicate Accepted(raw: RawStatus) {
    raw.PreSubmitted? || raw.Submitted? || raw.Filled?
  }

  /** The result says of the trade what its order is now. */
  predicate IsCurrent(os: seq<Order>, t: Trade, id: nat, result: OrderResult) {
    id < |os| && result == BrokerResult(t, os[id], id, os[id].status, result.hasMessage)
  }

  lemma CurrentAnswers(os: seq<Order>, t: Trade, id: nat, result: OrderResult)
    requires AllSound(os) && IsCurrent(os, t, id, result)
    ensures AnswerOf(t, result)
  {
    assert Sound(os[id]);
  }

  /** What ends a poll. */
  predicate Resolved(os: seq<Order>, id: nat, orAccepted: bool) {
    id < |os| && ((orAccepted && Accepted(os[id].status)) || IsDone(os[id].status))
  }

  /** None of the polls found the order resolved. */
  predicate NeverResolved(seen: seq<seq<Order>>, id: nat, orAccepted: bool) {
    seen == [] || (NeverResolved(Front(seen), id, orAccepted) && !Resolved(Last(seen), id, orAccepted))
  }

  lemma NeverResolvedNext(seen: seq<seq<Order>>, os: seq<Order>, id: nat, orAccepted: bool)
    requires NeverResolved(seen, id, orAccepted) && !Resolved(os, id, orAccepted)
    ensures NeverResolved(seen + [os], id, orAccepted)
  {
    assert Front(seen + [os]) == seen;
  }

  /** Whether the result of a resolved poll has a message.  `orAccepted` is polling for acceptance; the
      other polling follows a cancel request, which is said even of an order that was accepted after all. */
  predicate Tells(order: Order, orAccepted: bool, hasMessage: bool) {
    if !orAccepted then hasMessage
    else (Accepted(order.status) ==> !hasMessage) && (!Accepted(order.status) && order.filled == 0.0 ==> hasMessage)
  }

  /** What each outcome says: the order's status now, that nobody knows, or that nothing was placed. */
  ghost predicate Says(os: seq<Order>, t: Trade, s: Submission) {
    match s
    case Reported(result) => exists id :: IsCurrent(os, t, id, result)
    case Uncertain(result) => result.status.SubmissionUnconfirmed?
    case Refused(result) => result == LocalResult(t, Failed)
    case ConnectionLost => true
  }

  /** What each outcome means: an order that was reported is at the broker; an uncertain one met an
      exception in placing or waiting, a refused one before it was placed. */
  predicate Met(o: Outside, t: Trade, s: Submission) {
    && t.orderRef.Some?
    && match s
       case Reported(result) =>
         && result.orderId.Some? && IsBrokerStatus(result.status)
         && (!result.hasMessage ==> Accepted(result.status) || (IsDone(result.status) && result.filled > 0.0))
       case Uncertain(result) =>
         && result.status.SubmissionUnconfirmed?
         && if result.orderId.Some? then o.waiting(KeyOf(t)).Raises? else o.placing(KeyOf(t)).Raises? || t.quantity <= QTY_EPS
       case Refused(result) =>
         result == LocalResult(t, Failed) && o.ready(KeyOf(t)).Raises? && o.online(KeyOf(t))
       case ConnectionLost => o.ready(KeyOf(t)).Raises? && !o.online(KeyOf(t))
  }

  /** The trades were tried from the first on. */
  predicate AllMet(o: Outside, trades: seq<Trade>, tried: seq<Submission>) {
    tried == [] || (|tried| <= |trades| && AllMet(o, trades, Front(tried)) && Met(o, trades[|tried| - 1], Last(tried)))
  }

  lemma AllMetNext(o: Outside, trades: seq<Trade>, tried: seq<Submission>, next: Submission)
    requires AllMet(o, trades, tried) && |tried| < |trades| && Met(o, trades[|tried|], next)
    ensures AllMet(o, trades, tried + [next])
  {
    assert Front(tried + [next]) == tried;
  }

  lemma {:induction false} MetAt(o: Outside, trades: seq<Trade>, tried: seq<Submission>, j: nat)
    requires AllMet(o, trades, tried) && j < |tried|
    ensures |tried| <= |trades| && Met(o, trades[j], tried[j])
  {
    if j < |tried| - 1 {
      MetAt(o, trades, Front(tried), j);
    }
  }

  // ---- the stopping rule ----

  /** The results of the trades that were tried, in order. */
  function ResultsOf(tried: seq<Submission>): seq<OrderResult> {
    if tried == [] then [] else ResultsOf(Front(tried)) + (if Last(tried).ConnectionLost? then [] else [Last(tried).result])
  }

  /** Orders in a row that the broker did not accept; a refusal before the order went out does not count. */
  function Failures(tried: seq<Submission>): nat {
    if tried == [] then 0
    else if !Last(tried).Reported? then Failures(Front(tried))
    else if Accepted(Last(tried).result.status) || Last(tried).result.filled > 0.0 then 0
    else Failures(Front(tried)) + 1
  }

  /** Nothing more is sent: the connection is lost, an outcome is uncertain, or too many orders in a
      row were not accepted. */
  predicate Stops(tried: seq<Submission>, most: nat) {
    tried != [] && match Last(tried)
                   case ConnectionLost => true
                   case Uncertain(_) => true
                   case Reported(_) => Failures(tried) > 0 && Failures(tried) >= most
                   case Refused(_) => false
  }

  /** Each trade was tried only because the ones before did not stop it. */
  predicate WentOn(tried: seq<Submission>, most: nat) {
    tried == [] || (WentOn(Front(tried), most) && !Stops(Front(tried), most))
  }

  /** The loop's state after trying these: `lost` says that there never was a connection. */
  predicate Trying(tried: seq<Submission>, results: seq<OrderResult>, failures: nat, stopped: bool, lost: bool,
                   most: nat) {
    && results == ResultsOf(tried) && failures == Failures(tried) && WentOn(tried, most)
    && (if tried == [] then stopped == lost else stopped == Stops(tried, most))
  }

  /** What one more outcome adds: its result, the count of failures in a row, and whether to stop. */
  function Counting(results: seq<OrderResult>, failures: nat, next: Submission, most: nat): (seq<OrderResult>, nat, bool) {
    match next
    case ConnectionLost => (results, failures, true)
    case Uncertain(result) => (results + [result], failures, true)
    case Refused(result) => (results + [result], failures, false)
    case Reported(result) =>
      var fails := if Accepted(result.status) || result.filled > 0.0 then 0 else failures + 1;
      (results + [result], fails, fails > 0 && fails >= most)
  }

  lemma TryingNext(tried: seq<Submission>, results: seq<OrderResult>, failures: nat, lost: bool, most: nat,
                   next: Submission)
    requires Trying(tried, results, failures, false, lost, most)
    ensures |tried| == |results|
    ensures var (results', failures', stopped) := Counting(results, failures, next, most);
            Trying(tried + [next], results', failures', stopped, lost, most)
  {
    AllHaveResults(tried, most);
    var more := tried + [next];
    assert Front(more) == tried && Last(more) == next;
  }

  /** Until something stops it, every trade that was tried has a result. */
  lemma {:induction false} AllHaveResults(tried: seq<Submission>, most: nat)
    requires WentOn(tried, most) && !Stops(tried, most)
    ensures |ResultsOf(tried)| == |tried|
  {
    if tried != [] {
      AllHaveResults(Front(tried), most);
    }
  }

  /** A trade that was never sent. */
  predicate Unsent(t: Trade, result: OrderResult) {
    t.orderRef.Some? && result == LocalResult(t, BrokerUnavailable)
  }

  /** From the `n`th on, nothing was sent. */
  predicate UnsentFrom(trades: seq<Trade>, results: seq<OrderResult>, n: nat) {
    |results| <= |trades| && forall j | n <= j < |results| :: Unsent(trades[j], results[j])
  }

  /** Results of the tried trades, then of trades never sent. */
  predicate Filling(trades: seq<Trade>, some: seq<OrderResult>, results: seq<OrderResult>) {
    |some| <= |results| && results[..|some|] == some && UnsentFrom(trades, results, |some|)
  }

  lemma FillingNext(trades: seq<Trade>, some: seq<OrderResult>, results: seq<OrderResult>, next: OrderResult)
    requires Filling(trades, some, results) && |results| < |trades| && Unsent(trades[|results|], next)
    ensures Filling(trades, some, results + [next])
  {
  }

  lemma FilledIsBatched(o: Outside, side: Side, trades: seq<Trade>, some: seq<OrderResult>, results: seq<OrderResult>,
                        tried: seq<Submission>, failures: nat, stopped: bool, lost: bool, most: nat)
    requires Filling(trades, some, results) && |results| == |trades| && AllMet(o, trades, tried)
    requires Trying(tried, some, failures, stopped, lost, most) && (|some| < |trades| ==> stopped)
    requires lost ==> o.connected(side).Raises?
    ensures Batched(o, side, trades, results, tried, most)
  {
  }

  /** The batch was tried in order until something stopped it, and the rest was never sent; nothing was
      tried only if there was no connection. */
  predicate Batched(o: Outside, side: Side, trades: seq<Trade>, results: seq<OrderResult>, tried: seq<Submission>,
                    most: nat) {
    && |ResultsOf(tried)| <= |results| == |trades| && ResultsOf(tried) == results[..|ResultsOf(tried)|]
    && UnsentFrom(trades, results, |ResultsOf(tried)|)
    && WentOn(tried, most) && AllMet(o, trades, tried)
    && (|ResultsOf(tried)| < |trades| ==> if tried == [] then o.connected(side).Raises? else Stops(tried, most))
  }

  /** Without exceptions every trade of the batch is placed and reported, unless too many orders in a row
      were not accepted. */
  lemma {:induction false} NothingRaised(o: Outside, side: Side, trades: seq<Trade>, results: seq<OrderResult>,
                                         tried: seq<Submission>, most: nat, j: nat)
    requires Batched(o, side, trades, results, tried, most) && j < |trades| && o.connected(side).Done?
    requires forall i | 0 <= i < |trades| && trades[i].orderRef.Some? ::
               var key := KeyOf(trades[i]);
               o.ready(key).Done? && o.placing(key).Done? && o.waiting(key).Done? && trades[i].quantity > QTY_EPS
    ensures Unsent(trades[j], results[j]) ==> Failures(tried) > 0 && Failures(tried) >= most
    ensures !Unsent(trades[j], results[j]) ==> results[j].orderId.Some? && IsBrokerStatus(results[j].status)
  {
    AllReported(o, trades, tried);
    if j < |ResultsOf(tried)| {
      MetAt(o, trades, tried, j);
      assert results[..|ResultsOf(tried)|][j] == results[j];
    }
  }

  lemma {:induction false} AllReported(o: Outside, trades: seq<Trade>, tried: seq<Submission>)
    requires AllMet(o, trades, tried)
    requires forall i | 0 <= i < |trades| && trades[i].orderRef.Some? ::
               var key := KeyOf(trades[i]);
               o.ready(key).Done? && o.placing(key).Done? && o.waiting(key).Done? && trades[i].quantity > QTY_EPS
    ensures |ResultsOf(tried)| == |tried|
    ensures forall i | 0 <= i < |tried| :: tried[i].Reported? && ResultsOf(tried)[i] == tried[i].result
  {
    if tried != [] {
      AllReported(o, trades, Front(tried));
      assert Met(o, trades[|tried| - 1], Last(tried));
    }
  }
}
