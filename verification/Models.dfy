/** The records that cross module boundaries: orderRefs, proposed trades, broker reports
    (src/poma/models.py), and the outcome type of an effectful call. */
module Models {

  datatype Option<+T> = None | Some(value: T)

  /** Outcome of a call that may be interrupted.  `Raised` is a caught-or-propagated exception,
      `NotConfirmed` is the broker's CancelNotConfirmed, and `Crashed` is the death of the process:
      nothing of it runs after that, and only durable state survives. */
  datatype Exit<+T> = Ok(value: T) | Raised | NotConfirmed | Crashed {
    predicate IsFailure() {
      !Ok?
    }

    function PropagateFailure<U>(): Exit<U>
      requires !Ok?
    {
      if Raised? then Raised else if NotConfirmed? then NotConfirmed else Crashed
    }

    function Extract(): T
      requires Ok?
    {
      value
    }
  }

  /** Outcome of a call that returns nothing. */
  datatype Step = Done | Raises | Dies {
    predicate IsFailure() {
      !Done?
    }

    function PropagateFailure<U>(): Exit<U>
      requires !Done?
    {
      if Raises? then Raised else Crashed
    }
  }

  datatype Side = BUY | SELL

  /** An orderRef.  `Root` prints as poma:run:index:ticker:side and `Rep(base, n)` as base:rN
      (module OrderRef proves that the text determines the value). */
  datatype Ref =
    | Root(run: string, index: nat, ticker: string, side: Side)
    | Rep(base: Ref, n: nat)

  function TickerOf(ref: Ref): string {
    match ref
    case Root(_, _, ticker, _) => ticker
    case Rep(base, _) => TickerOf(base)
  }

  function SideOf(ref: Ref): Side {
    match ref
    case Root(_, _, _, side) => side
    case Rep(base, _) => SideOf(base)
  }

  /** Share quantities closer than this are equal. */
  const QTY_EPS := 0.000000001
  /** Dollar amounts closer than this are equal. */
  const CASH_EPS := 0.000001

  datatype Trade = Trade(
    ticker: string,
    side: Side,
    quantity: real,
    notional: real,
    referencePrice: real,
    limitPrice: Option<real>,
    orderRef: Option<Ref>)
  {
    /** The most cash this buy can consume. */
    function BuyCash(): real {
      if side != BUY then 0.0
      else if limitPrice.Some? && limitPrice.value > 0.0 then Abs(quantity) * limitPrice.value
      else notional
    }

    /** The least cash this sell can bring in. */
    function SellCredit(): real {
      if side != SELL then 0.0
      else if limitPrice.Some? && limitPrice.value > 0.0 then Abs(quantity) * limitPrice.value
      else notional
    }
  }

  /** Raw status strings: the first ten are IBKR's own (plus the empty string), the rest are local. */
  datatype RawStatus =
    | Blank
    | ApiPending | PendingSubmit | PreSubmitted | Submitted | PendingCancel
    | Cancelled | ApiCancelled | Filled | Inactive
    | SubmissionUnconfirmed | Failed | BrokerUnavailable | OrderNotAccepted
    | QuoteBlocked | BuyingPowerBlocked | ContractUnresolved | IdempotentReplay
    | ReplacementUnconfirmed | NotOpenUnverified

  datatype OrderResult = OrderResult(
    ticker: string,
    side: Side,
    quantity: real,
    orderId: Option<nat>,
    status: RawStatus,
    filled: real,
    hasMessage: bool)

  /** One broker-reported order, open or completed. */
  datatype Snapshot = Snapshot(
    ref: Ref,
    orderId: Option<nat>,
    permId: Option<nat>,
    ticker: string,
    side: Side,
    status: RawStatus,
    filled: real,
    remaining: real)

  datatype Plan = Plan(run: string, session: string, trades: seq<Trade>)

  function Abs(x: real): real {
    if x < 0.0 then -x else x
  }

  function Max(x: real, y: real): real {
    if x < y then y else x
  }

  function Min(x: real, y: real): real {
    if x < y then x else y
  }
}
