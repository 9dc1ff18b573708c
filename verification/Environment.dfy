/** What a process of the system is given: its settings (src/poma/config.py), and whatever it meets
    outside while it runs. */
module Environment {
  import opened Models
  import opened ExecutionPricing
  import opened Repricing

  datatype Settings = Settings(
    ibkr: bool,
    cancelStaleOrders: bool,
    orderStatusTimeout: nat,
    maxAcceptanceFailures: nat,
    autoReplace: bool,
    replaceAfter: real,
    cancelAfter: real,
    cancelPolicy: bool,
    quoted: bool,
    pricing: Pricing)

  /** What one process meets outside, however the orders move meanwhile: answers, exceptions, and the end
      of the process.  A call meets its fate at some network step of it, or not at all. */
  datatype Outside = Outside(
    /** Asking for the cash: an amount, or none when it is not a finite number. */
    account: Exit<Option<real>>,
    /** The answers to the quote requests of each phase. */
    quotes: Side -> Feed,
    /** Connecting for the orders of a side. */
    connected: Side -> Step,
    /** Getting the order of a key ready, and whether the connection outlives an exception in that. */
    ready: Ref -> Step,
    online: Ref -> bool,
    /** placeOrder, and waiting for the acceptance of what was placed. */
    placing: Ref -> Step,
    waiting: Ref -> Step,
    /** The two queries of a reconcile pass. */
    openQuery: Step,
    history: Step,
    /** Whether a fresh quote allows a replacement price for the row of a key. */
    requoted: Ref -> Exit<bool>,
    /** Cancelling or replacing an order, and cancelling a foreign one. */
    acting: Ref -> Step,
    cancelling: Ref -> Step)
  {
    /** The cash that the broker reports, if it can be read. */
    function Cash(): Option<real> {
      if account.Ok? then account.value else None
    }
  }
}
