/** The durable ledger row and its transitions (src/poma/order_lifecycle.py). */
module OrderLifecycle {
  import opened Models

  datatype Lifecycle =
    | PLANNED | SUBMITTED | BROKER_ACCEPTED | PARTIALLY_FILLED | FILLED
    | REPLACE_PENDING | CANCEL_PENDING | CANCELLED | REJECTED | EXPIRED | UNKNOWN

  predicate IsTerminal(state: Lifecycle) {
    state.FILLED? || state.CANCELLED? || state.REJECTED? || state.EXPIRED?
  }

  predicate IsWorking(state: Lifecycle) {
    state.BROKER_ACCEPTED? || state.PARTIALLY_FILLED?
  }

  predicate IsCancelled(raw: RawStatus) {
    raw.Cancelled? || raw.ApiCancelled?
  }

  /** Failures that classify as REJECTED although no broker order exists. */
  predicate IsSubmissionFailure(raw: RawStatus) {
    raw.Failed? || raw.BrokerUnavailable? || raw.OrderNotAccepted?
    || raw.QuoteBlocked? || raw.BuyingPowerBlocked? || raw.ContractUnresolved?
  }

  function Classify(raw: RawStatus, filled: real, remaining: real): Lifecycle {
    if raw.Filled? || (filled > 0.0 && remaining <= QTY_EPS) then FILLED
    else if IsCancelled(raw) then CANCELLED
    else if raw.PendingCancel? then CANCEL_PENDING
    else if raw.Inactive? || IsSubmissionFailure(raw) then REJECTED
    else if raw.PreSubmitted? || raw.Submitted? then
      if filled > 0.0 then PARTIALLY_FILLED else BROKER_ACCEPTED
    else if raw.PendingSubmit? then SUBMITTED
    else UNKNOWN
  }

  /** One ledger row.  `recovered` stands for a terminal reason that starts with
      "Recovered from IBKR". */
  datatype Entry = Entry(
    key: Ref,
    orderRef: Ref,
    run: string,
    session: string,
    ticker: string,
    side: Side,
    quantity: real,
    orderId: Option<nat>,
    permId: Option<nat>,
    submittedAt: Option<real>,
    state: Lifecycle,
    raw: RawStatus,
    filled: real,
    remaining: real,
    replaceCount: nat,
    replacement: Option<Ref>,
    recovered: bool)
  {
    predicate Terminal() {
      IsTerminal(state)
    }

    function WithOrderResult(result: OrderResult, now: real): Entry {
      var left := Max(quantity - result.filled, 0.0);
      var lifecycle := Classify(result.status, result.filled, left);
      this.(orderId := if result.orderId.Some? then result.orderId else orderId,
            submittedAt := if submittedAt.Some? then submittedAt else Some(now),
            state := lifecycle,
            raw := result.status,
            filled := result.filled,
            remaining := left,
            recovered := recovered && !IsTerminal(lifecycle))
    }

    function WithSnapshot(snapshot: Snapshot): Entry {
      var left := Max(snapshot.remaining, 0.0);
      var lifecycle := Classify(snapshot.status, snapshot.filled, left);
      this.(orderId := if snapshot.orderId.Some? then snapshot.orderId else orderId,
            permId := if snapshot.permId.Some? then snapshot.permId else permId,
            state := lifecycle,
            raw := snapshot.status,
            filled := snapshot.filled,
            remaining := left,
            recovered := recovered && !IsTerminal(lifecycle))
    }
  }

  /** A local block that left nothing at the broker: the only non-PLANNED rows a retry resubmits. */
  predicate Retryable(row: Entry) {
    && (row.raw.QuoteBlocked? || row.raw.BuyingPowerBlocked? || row.raw.BrokerUnavailable? || row.raw.OrderNotAccepted?)
    && row.orderId.None?
    && row.filled <= QTY_EPS
  }

  /** What the retry of a run may submit: a key never recorded, still PLANNED, or retryable. */
  predicate Resubmittable(ledger: map<Ref, Entry>, key: Ref) {
    key !in ledger || ledger[key].state.PLANNED? || Retryable(ledger[key])
  }

  type Ledger = map<Ref, Entry>
}
