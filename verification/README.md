# A verified model of POMA's order protocol

POMA rebalances a portfolio through IBKR. It must survive crashes between any two effects without
sending an order twice, losing a working order, or trading on stale money. This project models that
machinery in Dafny and proves what it keeps.

- **The durable order protocol.** `OrderStorage` is the append-only log, the open-order snapshot and
  the read cache. `BrokerModel` is the broker: a growing list of orders that move on their own between
  any two calls, with placing, cancelling and replacing as effects that may go through, raise, or be
  where the process dies. `OrderExecution.ExecutionManager` is staged submission, reconciliation, the
  timeout policy and the stale-order check; `Engine` runs rebalances and reconciles in processes that
  may end anywhere. Every method's contract holds on every exit, the crash included. `LedgerInvariant`
  ties the ledger to the broker's orders, `Recording`, `QuoteSifting`, `PlanPhases`, `Recovery` and
  `Reconciliation` carry it through each step, and `OrderSafety` says what it means. `FamilyShares` bounds
  what a family may execute, `Submissions` is the rule that stops a batch,
  and `Environment` what a process is given: its settings, and the answers and exceptions that its calls meet.
- **Quantities and cash.** `Risk` sizes trades, `ExecutionPolicy` rounds them and demotes round-ups,
  `Planning` is the pipeline of both, `ExecutionPricing` and `Repricing` price trades off broker quotes,
  `CashFit` trims buys to the cash that is really there, and `Overhang` says which of them shrink.
- **Session retries** (`SessionState`, and `Operation`, which has the ticks drive the order protocol), the **Gateway watchdog** (`GatewayWatchdog`), the **text of an
  orderRef** (`OrderRef`) and **fills proven from executions** (`ExecutionHistory`, and `TrimmedFills` for what trimming does to
  them).

A crash is modelled as a nondeterministic exit after an effect; only the disk and the broker survive
it. Exceptions and answers that are not about orders are inputs of a process (`Environment.Outside`), so the
contracts say exactly when each outcome comes about; of a death they only say what then holds. A `Ref` value stands for an orderRef; `OrderRef` proves that the text determines it.

What is assumed of the broker is stated as predicates in `BrokerModel` (`Sound`, `Moves`, `OpenReport`,
`CompletedReport`): the done statuses (Filled, Cancelled, ApiCancelled and, as in `DONE_STATUSES`, also
Inactive) are final and fills only grow, an order has one of IBKR's own statuses, the open query is true
and lists every live order (and a done order only when nothing of its family is live), completed rows are
true but may be missing, a done order that is not filled left more than 1e-9 shares, and no order is for
less than that. Also assumed: one writer at a time, at most one trade per ticker in a plan, status
callbacks that do not raise, a clock read once per command, and session dates that do not go back.
Callers owe a positive order-status timeout and the execution-rule tables that the settings can build.

What the proofs found about the code:

- The docstring of `_resume_replacement` claims that resuming is safe because the reserved ref was not
  found in completed history. The matching takes the original's row first, so a filled replacement is
  overlooked and a second one can be placed (`OrderSafety.ReplaceIsDue`, `ReplaceThenDie` and
  `ResumeCanPlaceTwice` are the steps of such a run). The exact condition of one resume is
  `FamilyShares.ResumeStaysWithinExactly`. What a pass would have to check is `ResumeChecked` of
  `Reconciliation`: when a row may be resumed, completed history has no executed order under the reserved
  ref. For a whole history that is exact (`Reconciliation.ClearMeansUnexecuted`); in the run above history is
  whole and the check fails (`OrderSafety.ResumeIsUnchecked`). Every method keeps the fill bound under the
  check on whole histories, and `Engine.System.Serve` proves it for whole runs of the system.
- With IBKR the discovery of unknown orders raises on a replacement that is live but only reserved, so
  `_reconcile_entry` never adopts it from the open query (`OrderSafety.ReservedIsNotCarried`; exactly when an
  answer passes, `OrderSafety.CoveredExactly`).
- `inside_spread_limit_price` can leave the quote when bid or ask has more than four decimals;
  `ExecutionPricing.InsideSpreadStaysForAll` says exactly when.
- `_trim_buys_to_cash` does not always shrink the costliest buy only: above a thousand dollars a share the
  slack in counting shares exceeds the slack in dollars, and what it leaves uncovered is cut from a cheaper
  buy (`Overhang.TwoBuysShrink`). `Overhang.OnlyCostliestExactly` says for which plans that can happen.
- A trimmed buy keeps its larger ledger quantity while its row is open (`TrimmedFills.OpenRowKeepsQuantity`), so
  its complete fill is not provable from executions alone (`TrimmedFills.TrimmedBuyUnproven`); exactly when
  one is, `TrimmedFills.TrimmedIsProven` and `TrimmedFills.FilledIsProven` say.
- Right after a placement IBKR's zero remaining reads as the whole quantity: an order that filled at once but
  whose status does not say so yet is first recorded as partially filled, and only that one
  (`Reconciliation.FilledAtOnce`).

## Model

| member | source | states |
|---|---|---|
| `OrderSafety.OneFirstOrderPerTrade` | src/poma/execution_manager.py:394-413 | In every reachable state, whatever plans the retries of a run were rebuilt from, at most one first order exists per run, ticker and side |
| `OrderSafety.PlacedIsNeverResubmitted` | src/poma/execution_manager.py:161-203 | The row of a key that reached the broker is never PLANNED and never a retryable pre-acceptance row |
| `OrderSafety.WorkingIsCovered` | src/poma/execution_manager.py:274-286 | Every working order is covered by an open ledger row of its own run whose orderRef or reserved replacement ref is the order's ref, also in mid-submit and mid-replace crashes |
| `OrderSafety.WorkingOrdersShareRun` | src/poma/execution_manager.py:481-555 | Orders of two runs or two sessions are never working at the broker together |
| `OrderSafety.UnblockedMeansOwnOrders` | src/poma/engine.py:354-361 | When the stale-order check does not block, everything that works at the broker belongs to the run about to execute |
| `OrderSafety.OneLiveOrderPerKey` | src/poma/broker.py:1297-1322 | At most one order of a key's family is live, and a key is replaced at most once |
| `OrderSafety.TerminalIsProven` | src/poma/execution_manager.py:720-742 | A terminal row has no working order in its family and rests on a report that is still true of the order it names, or on a failure before anything was placed |
| `OrderSafety.SettledStaysSettled` | src/poma/execution_manager.py:436-456 | No later step of any process changes the state or the orderRef of a FILLED or CANCELLED row |
| `OrderSafety.RetriedIsUnplaced` | src/poma/cli.py:237-276 | A result that monitor takes as a reason to retry means that nothing of the trade is at the broker |
| `FamilyShares.FillsStayWithinRow` | src/poma/execution_manager.py:813-883 | In every reachable state in which each replacement went out while nothing under its ref had executed, a family has executed at most its row's quantity: original plus replacement never exceed it |
| `FamilyShares.OnlyTwiceExceeds` | src/poma/execution_manager.py:813-883 | Without that condition: a family can exceed its row only by two executed orders under its one reserved ref |
| `FamilyShares.GuardedPlaces` | src/poma/execution_manager.py:757-760 | Placing a replacement while nothing under its ref has executed or still can keeps that condition |
| `FamilyShares.GuardIsFixedAtPlacement` | src/poma/execution_manager.py:757-760 | What matters is decided when the second order under a ref goes out: the first one never changes again |
| `FamilyShares.ResumeStaysWithinExactly` | src/poma/execution_manager.py:749-789 | Over every placement a resume can make and everything the broker can do afterwards, the family stays within its original's quantity if and only if no share under the reserved ref had executed before |
| `OrderSafety.ReplaceIsDue` | src/poma/execution_manager.py:836-854 | First step of a run against the docstring: a working order is overdue and its replacement may be reserved |
| `OrderSafety.ReplaceThenDie` | src/poma/broker.py:1297-1322 | Second step: the original is cancelled, the replacement goes out, the process dies with only the reservation in the ledger, and the replacement fills |
| `OrderSafety.ResumeCanPlaceTwice` | src/poma/execution_manager.py:757-760 | Last step: completed history has both orders, the original is matched first, every guard of the resume passes, and a second replacement doubles the shares; the condition of the resume does not hold |
| `OrderSafety.ResumeIsUnchecked` | src/poma/execution_manager.py:757-760 | In that run completed history is whole, and the check that would have told fails |
| `OrderSafety.CoveredExactly` | src/poma/execution_manager.py:635-642 | Exactly when the discovery of unknown orders accepts a listed order: the row of its family names it and is open |
| `BrokerModel.OpenReportExists` | src/poma/broker.py:1124-1158 | The answer assumed of the open query exists in every state: the assumption on the broker is not vacuous |
| `OrderSafety.ReservedIsNotCarried` | src/poma/execution_manager.py:635-647 | While a live replacement is only reserved, the discovery of unknown orders finds no row that carries its ref, so with IBKR the pass raises and never adopts it from the open query |
| `Engine.RebalanceEngine.Run` | src/poma/engine.py:354-367 | A run blocks exactly when the stale-order check or the plan's own checks do, and then changes nothing after that check; otherwise it executes the plan: every trade answered against the ledger the check left, replays from its rows, both phases carried out as their quotes, the cash and the calls outside allow, and only rows of its own run are open; it raises only if cancelling a foreign order or asking for quotes does |
| `Engine.System.Execute` | src/poma/cli.py:480-582 | One process, ended anywhere, keeps the protocol invariant, undoes nothing that was settled, places first orders only for its own run, keeps the fill condition if its reconcile pass was guarded, and did what its outcome says: a reconcile concluded every open row, a rebalance was checked and then blocked or carried out |
| `Engine.System.Serve` | src/poma/execution_manager.py:75-80 | Over any sequence of rebalances and reconciles, each in a process that may die after any effect: from every state between processes to the next the invariant holds, settled rows stay settled, the process went by a pass over the open rows on reports true at the time, and did what its outcome says; and if every pass was guarded, no family has executed more than its row's quantity |
| `Engine.ChainAt` | src/poma/execution_manager.py:75-80 | In any run each process went from one state to the next and did what its outcome says |
| `Operation.Operate` | src/poma/cli.py:480-582 | Over any run of monitor ticks in calendar order that drive these processes, with reconcile processes in between and deaths anywhere, every first order is of the run of an attempt, each session has at most one first order per ticker and side, and every attempt ends as its process did |
| `Operation.OneFirstOrderPerSession` | src/poma/cli.py:508-515 | In every state of that operation two first orders of one session, ticker and side are the same order, however often the session was attempted |
| `Operation.EndOf` | src/poma/cli.py:519-552 | An executed rebalance keeps its status and is retried exactly when some result was blocked before acceptance and every other one is informational; a killed process concludes nothing |
| `Operation.Rebalanced` | src/poma/cli.py:515-552 | An attempt that is not killed first runs the rebalance of its session and run with the plan of its day, and ends as that did |
| `Operation.ReconcileBetween` | src/poma/cli.py:643-646 | Every reconcile process between two ticks is run, in order, and none places a first order |
| `OrderExecution.ExecutionManager.SubmitPlan` | src/poma/execution_manager.py:89-137 | However far it gets, no sell goes out after a buy, rows that already reached the broker are untouched, and orders are placed only for resubmittable keys of the run. When it returns, what was due is exactly what may be submitted; of that, what got a price from the quotes was sent, the buys as they fit the cash, and tried until an outcome stopped it; every planned trade is answered in plan order, its row says the same, replays repeat the earlier row, every answer is true of the orders, and every order is for a trade sent; it raises only if asking for quotes does |
| `OrderExecution.ExecutionManager.PlanPhase` | src/poma/execution_manager.py:139-159 | Exactly the resubmittable trades get a fresh PLANNED row and are passed on, in order; the others are answered from their row; no other row is touched |
| `OrderExecution.ExecutionManager.Tag` | src/poma/execution_manager.py:394-413 | Each trade gets the run's existing key for its ticker and side, else a new one, and it is the only key of the run for them |
| `OrderExecution.ExecutionManager.SubmitPhase` | src/poma/execution_manager.py:256-286 | A phase touches only the rows and families of its trades; exactly those that got a price are sent, as a batch tried in order, the others are answered as blocked for their quote, and every row says what its answer says |
| `OrderExecution.ExecutionManager.Stage` | src/poma/execution_manager.py:274-279 | Before any order of the batch is sent every row of it is durably open, not PLANNED and not retryable |
| `OrderExecution.ExecutionManager.SendBatch` | src/poma/execution_manager.py:272-286 | Stage, send and record: afterwards every trade of the batch has a truthful answer, its row says what its answer says, and the batch was tried in order until an outcome stopped it |
| `OrderExecution.ExecutionManager.RepriceForExecution` | src/poma/execution_manager.py:288-371 | The batch is split in order into the trades to which the answers of its quote requests give a price and trades answered as blocked for their quote, or for a contract some round could not resolve; every row says which |
| `OrderExecution.ExecutionManager.SubmitBuys` | src/poma/execution_manager.py:121-135 | Of the buys, exactly those that got a price go on; all of them are blocked for cash, or go out as they fit the cash that was read, decided by FitOf; every buy is answered, its row says the same, nothing else is touched |
| `OrderExecution.ExecutionManager.FundBuys` | src/poma/execution_manager.py:205-239 | The buys go out as they fit the cash that was read, each answered by its result for exactly the quantity it went out with, or every buy is answered as blocked for cash, exactly as FitOf decides; every order placed is for one of them |
| `OrderExecution.ExecutionManager.SubmitTrades` | src/poma/broker.py:857-959 | Every staged trade gets one result, in order; each is tried only if nothing before it stopped the batch, which a lost connection, an uncertain outcome or too many unaccepted orders in a row do and nothing else does; nothing is tried only if connecting raised; each outcome other than a report has its exception; the rest is unplaced and answered as unavailable |
| `Submissions.NothingRaised` | src/poma/broker.py:857-959 | Where no call raises, every trade of a batch is at the broker and reported, unless too many orders in a row were not accepted |
| `OrderExecution.ExecutionManager.SubmitOne` | src/poma/broker.py:880-959 | One trade: reported with the order's current status, uncertain only if placing or waiting raised, refused or the connection lost only if an exception came before the placement |
| `OrderExecution.ExecutionManager.PlaceFirst` | src/poma/broker.py:889-890 | After placeOrder, an exception or a crash the trade is either still unplaced or at the broker as exactly one order; without an exception it is there |
| `OrderExecution.ExecutionManager.WaitForAcceptance` | src/poma/broker.py:985-1057 | Within the time, the first poll that finds the order accepted or done ends it; only if every poll found it neither is the cancel requested, when configured; the result is the order's current id, status and fill, without a message only if it was accepted in time or ended with a fill |
| `OrderExecution.ExecutionManager.PollOnce` | src/poma/broker.py:999-1017 | A poll goes on only if the order was neither done nor, where that is enough, accepted |
| `OrderExecution.ExecutionManager.RecordUncertain` | src/poma/broker.py:927-943 | After an exception past placeOrder the result and the row have the order's identity and fill with an uncertain status |
| `OrderExecution.ExecutionManager.RecordResult` | src/poma/execution_manager.py:436-456 | The result is written over the open row, or over a fresh one, and nothing else changes |
| `OrderExecution.ExecutionManager.BlockBuys` | src/poma/execution_manager.py:126-133 | Every buy of the batch is answered as blocked for buying power, and its row says so |
| `OrderExecution.ExecutionManager.RecordResults` | src/poma/execution_manager.py:284-286 | Every trade is answered by its result, for exactly its quantity, and its row has the result's status, fill and order id |
| `OrderExecution.ExecutionManager.Sift` | src/poma/execution_manager.py:349-371 | In order: the row of a priced trade is its planned row at that price, the row and the answer of an unpriced one say that it is blocked and why |
| `OrderExecution.ExecutionManager.TagPlan` | src/poma/execution_manager.py:107-111 | Both sides are tagged and exactly their rows are read |
| `OrderExecution.ExecutionManager.PlanBoth` | src/poma/execution_manager.py:114-117 | Both planning phases split their side into due and replayed trades without disturbing each other |
| `OrderExecution.ExecutionManager.SubmitBoth` | src/poma/execution_manager.py:119-135 | Sells go out before buys, each phase is carried out and leaves the other's rows and families alone, and every order is for a trade sent of its side, for exactly its quantity |
| `OrderExecution.ExecutionManager.PollStatus` | src/poma/broker.py:999-1017 | Polling ends with the current status of an order that is done, or accepted where that is enough, with the message that goes with it, or every poll found it neither, with no cancellation or rejection recorded |
| `OrderExecution.ExecutionManager.CancelUnaccepted` | src/poma/broker.py:1020-1057 | After a timeout the broker is asked to cancel and polled once more; the result is the order's current id, status and fill, with a message even if it was accepted after all |
| `OrderExecution.ExecutionManager.Unsubmitted` | src/poma/broker.py:964-974 | The earlier results stay; every trade of the rest is answered as unavailable and has no order at the broker |
| `OrderExecution.ExecutionManager.RecordUnseen` | src/poma/broker.py:931-943 | After an exception in placeOrder itself the result and the row say that the outcome is unknown, whether or not the order exists |
| `OrderExecution.ExecutionManager.RecordPlanned` | src/poma/execution_manager.py:415-434 | Writes exactly the planned row of the trade |
| `OrderExecution.ExecutionManager.RecordBlocked` | src/poma/execution_manager.py:241-254 | A local block is recorded with its status; the uncertain one leaves the trade staged |
| `Recording.ResubmittableIsUnplaced` | src/poma/execution_manager.py:168-184 | A key that may be retried has no order at the broker |
| `Recording.ReportAdmissible` | src/poma/execution_manager.py:458-468 | The broker's current status of a sent order may be recorded whatever was recorded before |
| `Recording.UncertainAdmissible` | src/poma/broker.py:927-943 | An uncertain outcome may be recorded unless a cancellation or rejection already was |
| `Recording.LocalAdmissible` | src/poma/execution_manager.py:241-254 | A local block may be recorded while nothing was placed |
| `Recording.ProgressNext` | src/poma/broker.py:879-926 | The result of one trade leaves the results and the staging of the others as they were |
| `LedgerInvariant.InvDrifts` | src/poma/execution_manager.py:795-811 | Status changes and fills at the broker never break the invariant |
| `LedgerInvariant.InvWrites` | src/poma/order_store.py:96-103 | One ledger write keeps the invariant if its row is in order and, when open, of the one open run |
| `LedgerInvariant.InvPlacesFirst` | src/poma/execution_manager.py:274-283 | Placing the first order of a staged key keeps the invariant |
| `LedgerInvariant.InvPlacesReplacement` | src/poma/execution_manager.py:845-882 | Placing the reserved replacement after the confirmed cancel keeps the invariant |
| `OrderExecution.ExecutionManager.CheckStaleOrders` | src/poma/execution_manager.py:472-555 | After a clean pass, which concluded every open row, it blocks exactly when some open row is of another session or run, under either stale-order policy, and changes nothing more than to cancel every such order under one of them; otherwise it blocks, and only because the open query raised or listed an uncarried order, or some row raised; only known families are touched |
| `OrderExecution.ExecutionManager.Reconcile` | src/poma/execution_manager.py:559-622 | Every open row is concluded on the reports of the pass, or raised for a cause at the broker, or was left alone because history failed, and the ledger has what was concluded; the pass raises only if the open query did or listed an order no open row carries; only known rows and families are touched, the invariant survives a crash or an exception anywhere, and a guarded pass keeps the fill condition |
| `Reconciliation.PassMeans` | src/poma/execution_manager.py:559-622 | Of every row that did not raise: it is matched exactly when a report is of the order it names or of its reserved replacement; if only completed history has one, it is closed or becomes the row of the replacement; if nothing has, it becomes unknown; and the ledger says what the update says |
| `OrderExecution.ExecutionManager.ReconcileEntry` | src/poma/execution_manager.py:685-742 | The row is concluded as its reports have it: an open replacement is adopted, the order named is followed up or its replacement resumed, completed history closes it, and a row that neither query matches stays as it is or becomes UNKNOWN with nothing placed or written elsewhere; it raises only for a cause at the broker; the fill condition is kept if the reservation is unused where a resume is possible |
| `OrderExecution.ExecutionManager.ReconcileGone` | src/poma/execution_manager.py:720-742 | With nothing open, completed history decides: its replacement is adopted, its order closes the row or resumes the replacement; without a match the row only becomes UNKNOWN |
| `OrderExecution.ExecutionManager.ReconcileOpen` | src/poma/execution_manager.py:692-716 | A reserved replacement found open becomes the row's order; otherwise the row named is followed up, where nothing is done only if nothing was due or could be; what the update says is what the ledger says |
| `OrderExecution.ExecutionManager.ResumeReplacement` | src/poma/execution_manager.py:749-789 | When it returns, the reserved replacement was placed exactly when the guards of the resume hold and a fresh quote allows a price; the row to record names it and drops the reservation; the fill condition is kept if nothing executed under the reserved ref |
| `OrderExecution.ExecutionManager.PlaceReserved` | src/poma/broker.py:1326-1350 | Afterwards no other order of the family is live; the fill condition is kept if nothing executed under the reserved ref |
| `OrderExecution.ExecutionManager.ApplyTimeoutPolicy` | src/poma/execution_manager.py:813-883 | When it returns, a working, unfilled order that waited too long was asked to cancel, unless the broker does not have it open any more; one that waited long enough was replaced once, when that is switched on, exactly if a fresh quote allowed it, with the reservation in the ledger; otherwise nothing changed; the row it returns may be recorded |
| `OrderExecution.ExecutionManager.CancelWorking` | src/poma/execution_manager.py:823-834 | The order was asked to cancel and the row says so, or it is not live at the broker |
| `OrderExecution.ExecutionManager.ReplaceWorking` | src/poma/execution_manager.py:836-882 | Nothing happens at the broker before the ledger has the reservation; cancel not confirmed, original filled and replaced all end in a row in order |
| `OrderExecution.ExecutionManager.ReplaceReserved` | src/poma/broker.py:1274-1324 | What replace_order reports may be recorded over the reservation, and a crash inside it keeps the invariant |
| `OrderExecution.ExecutionManager.CancelForeign` | src/poma/execution_manager.py:518-529 | A foreign order is asked to cancel and its row becomes CANCEL_PENDING, unless it is not live any more; a rediscovered one is never touched |
| `OrderExecution.ExecutionManager.QueryOpen` | src/poma/execution_manager.py:575-576 | The ledger is not written; with IBKR the broker's answer passes if and only if open rows carry every listed order, and the query raises otherwise |
| `OrderExecution.ExecutionManager.ReconcileNamed` | src/poma/execution_manager.py:698-716 | A cancelled original resumes its replacement or closes, a working one drops its unplaced reservation; the row is then exactly what the broker reported, unless a due cancel or replacement was carried out |
| `OrderExecution.ExecutionManager.CloseCompleted` | src/poma/execution_manager.py:725-735 | The row is exactly what completed history reported, or its replace was resumed, which is decided by the guards and the quote |
| `OrderExecution.ExecutionManager.ResumeOrClose` | src/poma/execution_manager.py:699-704 | The row names the resumed replacement exactly when the guards of the resume hold and a fresh quote allows a price, and is else the cancelled row without its reservation |
| `OrderExecution.ExecutionManager.ReconcileRows` | src/poma/execution_manager.py:603-622 | One update per row, each concluded on the reports or raised; an exception on one row does not stop the others; an unmatched row stays open; the ledger has what was concluded |
| `OrderExecution.ExecutionManager.ReconcileNext` | src/poma/execution_manager.py:606-621 | The next row is concluded, or reported as raised, and the rows before it stay as they were concluded; without completed history an unmatched row is left as it is and nothing is placed |
| `OrderExecution.ExecutionManager.QueryHistory` | src/poma/execution_manager.py:580-599 | Completed history is asked for exactly when some row matches nothing open, and its failure is remembered |
| `OrderExecution.ExecutionManager.RefreshOpen` | src/poma/execution_manager.py:481-499 | The open rows after a pass in which no row raised; none only if the pass or one of its rows raised |
| `OrderExecution.ExecutionManager.CancelGroup` | src/poma/execution_manager.py:516-530 | Every foreign order was asked to cancel unless it is not live any more, the rows of the others are untouched, and no row closes |
| `OrderExecution.ExecutionManager.CancelAt` | src/poma/broker.py:1260-1272 | The cancel was requested or the order is not live; nothing changes in the ledger, and what could be recorded before still can |
| `OrderExecution.ExecutionManager.AfterReplace` | src/poma/execution_manager.py:864-882 | Every outcome of replace_order has its row: deferred with the reservation kept, the original as it filled, or the replacement |
| `Reconciliation.ClearMeansUnexecuted` | src/poma/execution_manager.py:757-760 | For a true and whole history, finding no executed row under a ref is the same as nothing having executed under it |
| `Reconciliation.FilledAtOnce` | src/poma/broker.py:1352-1380 | An order that filled at once is recorded as filled from its placement report if and only if its status says so; else its row stays open, partially filled once accepted, and the next listing closes it |
| `Reconciliation.SnapshotReports` | src/poma/order_lifecycle.py:175-193 | The row of a report says of the order what is true of it, also right after a placement; a done order closes it |
| `Reconciliation.ForeignStaysForeign` | src/poma/execution_manager.py:509-542 | What blocks still blocks after its cancel was requested |
| `Reconciliation.MatchIsByRef` | src/poma/execution_manager.py:954-980 | For an open row the fallback on permId and orderId adds nothing: a match is always of the order the row names, or, only if no report has that one, of its reserved replacement |
| `Reconciliation.UnmatchedIsQuiet` | src/poma/execution_manager.py:580-580 | A row that matches nothing open has no working order in its family |
| `Reconciliation.GuardMeansUnused` | src/poma/execution_manager.py:757-760 | If completed history has every executed order under the reserved ref and has none, and the row matches nothing open, then nothing has executed under that ref and nothing still can |
| `Reconciliation.OpenGuard` | src/poma/execution_manager.py:698-704 | The same for a resume off an original that the open query lists as cancelled |
| `Reconciliation.OpenRow` | src/poma/execution_manager.py:692-708 | Reporting an open match, adopting the replacement, and dropping an unplaced reservation all give rows in order |
| `Reconciliation.CompletedRow` | src/poma/execution_manager.py:720-735 | A row closed from completed history is terminal and proven |
| `Reconciliation.ListedIsSole` | src/poma/broker.py:1297-1322 | A listed order is the only live one of its family, then and later |
| `Reconciliation.ReservedPlaces` | src/poma/execution_manager.py:749-789 | Placing the reserved replacement keeps the invariant whether or not the process lives to see it, and nothing else of the family is live |
| `Reconciliation.IntentRow` | src/poma/execution_manager.py:845-854 | The reservation may be written over a working row that was never replaced |
| `Reconciliation.ReplacementRow` | src/poma/execution_manager.py:875-882 | The row of a placed replacement is in order |
| `Reconciliation.FilledOriginalRow` | src/poma/execution_manager.py:872-874 | The row of an original that filled during its cancel is in order, and no replacement exists |
| `Recovery.RestoreUntracked` | src/poma/execution_manager.py:624-683 | For a ledger that may have lost rows: on success every listed order is carried by an open row with its ref, ticker and side; it raises only for an order that conflicts with the ledger or cannot be rebuilt; existing rows never change; new rows are open, stale and marked; a ledger that knows every family is not written; and if rows carry every listed order it succeeds |
| `OrderStorage.CommitPoint` | src/poma/order_store.py:96-116 | Appending the event is the commit point: with or without the snapshot rewrite a fresh load reads the old ledger with exactly this row over it |
| `OrderStorage.ReplayAt` | src/poma/order_store.py:38-54 | A key that the log mentions reads the same over any snapshot, any other key reads from the snapshot |
| `OrderStorage.ReplayOfOpen` | src/poma/order_store.py:105-109 | Reading back a snapshot of the open rows gives exactly the open part of the ledger |
| `OrderStorage.OrderStore.LatestEntries` | src/poma/order_store.py:38-54 | Cached and uncached reads agree: both are the fold of the events over the snapshot |
| `OrderStorage.OrderStore.LoadOpenOrders` | src/poma/order_store.py:35-36 | Exactly the non-terminal rows of a fresh load, each once |
| `OrderStorage.OrderStore.Get` | src/poma/order_store.py:64-68 | The open row under the key, and nothing for a terminal one |
| `OrderStorage.OrderStore.GetLatestMany` | src/poma/order_store.py:70-81 | The rows of exactly the asked keys |
| `OrderStorage.OrderStore.GetLatestRunTrades` | src/poma/order_store.py:83-94 | A row of the run for every ticker and side the run has one for |
| `OrderStorage.OrderStore.Upsert` | src/poma/order_store.py:96-103 | After a crash anywhere in it the ledger is the old one or the new one, and on return the new one; the cache stays right |
| `OrderStorage.OpenRows` | src/poma/order_store.py:96-103 | Exactly the non-terminal rows of a table, each once |
| `OrderStorage.ReadAfterForeignWrite` | src/poma/order_store.py:29-54 | A read through one store sees a write through another, whatever it had cached |
| `BrokerModel.Broker.PlaceOrder` | src/poma/broker.py:890-890 | Assumption on IBKR: an exception or a crash leaves no order or exactly one, with an id and one of IBKR's own statuses |
| `BrokerModel.Broker.FetchOpenOrders` | src/poma/broker.py:1098-1158 | Assumption on IBKR: the report is true and lists every live order |
| `BrokerModel.Broker.ReplaceOrder` | src/poma/broker.py:1274-1324 | Places only after the original is confirmed cancelled without a fill, for no more than it left; CancelNotConfirmed places nothing; a fill during the cancel returns the original |
| `BrokerModel.Broker.SubmitReplacement` | src/poma/broker.py:1326-1350 | Places only when no live order carries the ref; an order listed under the ref is returned instead |
| `BrokerModel.Broker.CancelOrder` | src/poma/broker.py:1260-1272 | Requests a cancel; true only for an order that was live or may still be listed, and then the request was made; false only for one that is not live |
| `BrokerModel.Broker.FetchCompletedOrders` | src/poma/ibkr_order_history.py:14-108 | Assumption on IBKR: completed rows are true of done orders; some may be missing |
| `BrokerModel.Broker.PlaceLimitOrder` | src/poma/broker.py:1352-1380 | The report after a placement is true, except that nothing remaining reads as everything |
| `PlanPhases.PlanAnswered` | src/poma/execution_manager.py:107-137 | The answers of both phases together answer the plan: replays survive, due trades are answered truthfully, nobody is forgotten |
| `PlanPhases.ShrunkPending` | src/poma/execution_manager.py:236-239 | Trimmed buys keep their orders, refs and tickers and stay within their rows |
| `PlanPhases.SubmittablesFundable` | src/poma/execution_pricing.py:221-271 | Every buy that repricing lets through is again worth its quantity at its reference price |
| `PlanPhases.TradedIsExecutable` | src/poma/engine.py:165-184 | What the planning pipeline delivers meets what submission expects of a plan |
| `QuoteSifting.SplitAnswers` | src/poma/execution_manager.py:267-286 | The answers of the submitted trades complete those of the blocked ones |
| `QuoteSifting.SubmittablesFrom` | src/poma/execution_manager.py:349-371 | What goes out is exactly the priced trades of the batch, each as its own order |
| `Repricing.PriceBatch` | src/poma/execution_manager.py:308-347 | Off the answers to its requests, every price comes from the last round if that round priced the trade, from the refresh if an earlier one did, and there is none otherwise |
| `Repricing.RoundsAreDetermined` | src/poma/execution_manager.py:314-332 | The answers to the requests determine the rounds: as many as it takes, at most four |
| `Repricing.FinalIsFresh` | src/poma/execution_manager.py:300-303 | No order goes out on a quote that waited for others: a sound quote of the last round or of the refresh gives its price |
| `Repricing.OnlyLastRoundIsWide` | src/poma/execution_manager.py:296-299 | Only the fourth round prices a trade off a wide quote |
| `Repricing.PricedOnce` | src/poma/execution_manager.py:315-331 | A trade is priced by at most one round and is not pending afterwards |
| `Repricing.ApplyQuotes` | src/poma/execution_pricing.py:221-271 | Exactly the trades that can be repriced, under their tickers, at their prices; which those are, RepricedExactly says |
| `Repricing.QuoteRounds` | src/poma/execution_manager.py:314-332 | Rounds stop exactly when nothing is pending or after four; unresolved symbols are never retried |
| `ExecutionPricing.InsideSpreadStays` | src/poma/execution_pricing.py:28-44 | With bid and ask on the four-decimal grid an inside-spread limit stays within the quote |
| `ExecutionPricing.InsideSpreadStaysForAll` | src/poma/execution_pricing.py:28-44 | It stays within for every side and aggression if and only if rounding to four decimals moves the bid up at most and the ask down at most |
| `ExecutionPricing.InsideSpreadStaysAsConfigured` | src/poma/execution_pricing.py:28-44 | For the aggressions that settings allow, an end of the quote need round into the quote exactly when the ticks around the midpoint and at the ends lie beyond it |
| `ExecutionPricing.InsideSpreadStaysExactly` | src/poma/execution_pricing.py:28-44 | For one side and aggression: it stays within exactly when the passive tick does or the end it is clamped to rounds into the quote |
| `ExecutionPricing.InsideSpreadLeavesQuoteOffGrid` | src/poma/execution_pricing.py:31-33 | Off that grid the final rounding can leave the quote, against the docstring: a concrete buy above the ask |
| `ExecutionPricing.InsideSpreadMonotone` | src/poma/execution_pricing.py:28-44 | More aggression never prices a buy lower or a sell higher |
| `ExecutionPricing.RepricedWithinApproval` | src/poma/execution_pricing.py:221-271 | A repriced sell never exceeds the approved shares, a whole-share buy is worth the approved notional to within half a share (a fractional one exactly), and no order exceeds the cap at reference or limit price |
| `ExecutionPricing.RepricedPlanned` | src/poma/execution_pricing.py:253-270 | A repriced buy is worth its quantity at a positive reference price |
| `ExecutionPricing.RepricedRestsInside` | src/poma/execution_pricing.py:93-124 | Under side-of-market pricing a first order off a two-sided quote rests inside the quote |
| `ExecutionPricing.OnlySoundQuotesPrice` | src/poma/execution_pricing.py:127-194 | Only fresh, uncrossed, resolved quotes price a trade, and a wide one only when allowed and at its midpoint |
| `ExecutionPricing.PricedExactly` | src/poma/execution_pricing.py:127-194 | A quote gives a price if and only if it is fresh, uncrossed, resolved, not forbidden as delayed, has the positive prices that the basis needs, and is not too wide; the price is the last price, the midpoint, or the ask for a buy and the bid for a sell |
| `ExecutionPricing.RepricedExactly` | src/poma/execution_pricing.py:221-271 | A trade is repriced if and only if its quote is sound and the order at the quote's reference and limit is of a tradable size under the cap; those are then its prices, a sell keeps its shares and a buy is resized to its notional at the reference |
| `ExecutionPricing.SideOfMarketPrice` | src/poma/execution_pricing.py:180-196 | Off a quote that is not wide a buy is referenced to the ask and a sell to the bid |
| `ExecutionPricing.SpreadIsWide` | src/poma/execution_pricing.py:50-56 | The spread exceeds a bound exactly when the given one does, or else the gap between positive sides exceeds it in basis points of the midpoint |
| `ExecutionPricing.OffsetLimitIs` | src/poma/execution_pricing.py:13-20 | An offset limit is on a whole cent within half a cent of the reference times the factor of the offset |
| `ExecutionPricing.InsideSpreadNearTarget` | src/poma/execution_pricing.py:28-44 | Inside a quote on the grid the limit is the last tick not beyond the midpoint moved by the aggression towards the far side |
| `CashFit.TrimBuysToCash` | src/poma/execution_manager.py:983-1011 | The loop computes Trimmed; non-empty output fits the cash and keeps length, order and refs, quantities between the minimum and the original and on the increment; with a cheap costliest buy only that one shrinks; a fitting plan is returned as it is |
| `Overhang.OnlyCostliestExactly` | src/poma/execution_manager.py:983-1011 | Whatever the cash, trimming changes the costliest buy only, if and only if no later buy that can spare a share has less slack than every costlier one, each of which has more than the slack in dollars |
| `Overhang.OneBuyExactly` | src/poma/execution_manager.py:983-1011 | Whatever the cash, trimming changes at most one buy if and only if the same holds, given that the costliest can spare a share |
| `Overhang.TwoBuysShrink` | src/poma/execution_manager.py:1002-1008 | A hundred shares at 2000 and ten at 100, short by a share and its slack, well within what trimming absorbs: both buys lose a share |
| `CashFit.TrimOneSpendsCash` | src/poma/execution_manager.py:996-1011 | Trimming the costliest buy leaves less than the cost of one share unspent |
| `CashFit.CutCoversExactly` | src/poma/execution_manager.py:1002-1008 | One surviving cut covers every shortfall to the cent slack exactly when a share costs at most a thousand dollars |
| `CashFit.CutCovers` | src/poma/execution_manager.py:1002-1008 | A surviving cut covers the shortfall and wastes less than one share |
| `CashFit.CutOnce` | src/poma/execution_manager.py:1000-1010 | One cut shrinks the buy on its increment by what it books as saved, or gives up below the minimum |
| `CashFit.CostliestFirst` | src/poma/execution_manager.py:995-996 | Every buy once, costliest first, earlier first among equals |
| `CashFit.FitBuysToCash` | src/poma/execution_manager.py:205-239 | What goes out is what FitOf decides: the buys as they are when they fit, blocked when the balance is unreadable or the shortfall exceeds five per cent, and else trimmed, or blocked when trimming gives up; buys that go out fit the refreshed cash, none is dropped or grown |
| `CashFit.FitSpendsCash` | src/poma/execution_manager.py:205-239 | For a shortfall within five per cent and a costliest buy that is cheap per share: the buys go out if and only if that buy can cover it and keep its minimum; then no other buy changes and less than one of its shares is left unspent |
| `CashFit.FitFits` | src/poma/execution_manager.py:205-239 | Whatever goes out fits the cash, order for order, and no buy grows |
| `CashFit.CutSurvives` | src/poma/execution_manager.py:1000-1008 | A cut survives if and only if some cut covers the shortfall and leaves an order that may be sent |
| `ExecutionPolicy.ApplyExecutionPolicy` | src/poma/execution_policy.py:61-102 | The output is blocked for cash exactly when the plan rounded down throughout would be, so rounding up never makes an affordable plan unaffordable; the round-ups demoted are those that save most, later positions first among equals, no more than it takes by their savings and all of them if it takes that; under the rules that settings can build the plan would not fit without any one of them; one positive trade per ticker stays one |
| `ExecutionPolicy.ChosenIsDetermined` | src/poma/execution_policy.py:105-157 | There is only one such choice of round-ups |
| `ExecutionPolicy.DemotedCashExactly` | src/poma/execution_policy.py:105-157 | Under those rules demoting saves exactly what is booked for it |
| `ExecutionPolicy.EachIsNeeded` | src/poma/execution_policy.py:138-141 | Without any one of the chosen demotions the plan would not fit the cash |
| `ExecutionPolicy.DemotedIsPolicy` | src/poma/execution_policy.py:105-157 | Demoting positions of the rounded plan is rounding down the buys of their tickers, position for position |
| `ExecutionPolicy.DemoteBuyRoundups` | src/poma/execution_policy.py:105-157 | Demotes in order of saving, as long as the tracked overshoot is positive and no further, and fits the cash exactly when demoting everything would |
| `ExecutionPolicy.TracksNext` | src/poma/execution_policy.py:141-154 | The tracked overshoot bounds the real one after every demotion |
| `ExecutionPolicy.DemoteAllFloors` | src/poma/execution_policy.py:79-95 | Demoting every round-up is rounding the whole plan down |
| `ExecutionPolicy.DemotionMonotone` | src/poma/execution_policy.py:105-157 | More demotions never need more cash |
| `ExecutionPolicy.DemoteLargestFirst` | src/poma/execution_policy.py:138-157 | The loop keeps the tracked overshoot at or above the real one and ends fitted or with everything demoted |
| `ExecutionPolicy.Kept` | src/poma/execution_policy.py:157-157 | The dropped positions are left out, the others stay in order |
| `ExecutionPolicy.DemotionsInOrder` | src/poma/execution_policy.py:125-136 | The demotable positions, each once, largest saving first |
| `ExecutionPolicy.WholeShareRounding` | src/poma/execution_policy.py:47-58 | A whole-share sell rounds down by less than a share, a buy lands on the nearest share |
| `ExecutionPolicy.RoundingOrder` | src/poma/execution_policy.py:47-58 | A sell-side rounding never exceeds the buy-side rounding, on any increment |
| `Risk.GenerateTrades` | src/poma/risk.py:35-98 | The trade of each ticker, in order, at most one per ticker |
| `Risk.NeverOversells` | src/poma/risk.py:81-84 | Through planning, rounding and repricing a sell never exceeds the shares held |
| `Planning.PlanNearTarget` | src/poma/risk.py:56-98 | Filling the whole plan at the planning prices leaves every ticker within the trade threshold, the weight threshold or one share of its target, whichever buys were demoted; only a ticker whose trade was dropped for its cost is off by up to the notional that costs drop |
| `Planning.SecondPlanIsEmpty` | src/poma/risk.py:56-98 | Planning again once the plan is filled plans nothing, whatever the cash, if no buy was demoted |
| `Planning.PlanIsByTicker` | src/poma/engine.py:165-184 | Sizing, the cost filter and rounding act on each ticker by itself, except for which buys are demoted |
| `Risk.FilledNearTarget` | src/poma/risk.py:56-98 | For one ticker: filling its trade, rounded, demoted or dropped as below a share, leaves it within the trade threshold, the weight threshold or one share of its target |
| `Risk.SecondPassIsEmpty` | src/poma/risk.py:56-98 | For one ticker: what filling its rounded trade leaves is too small to trade or rounds to nothing |
| `Risk.DemotedBuyComesBack` | src/poma/execution_policy.py:141-157 | A demoted buy rounds up again in a second pass exactly when at least half a share is left |
| `Risk.TradeIsDifference` | src/poma/risk.py:62-88 | For a long-only target the trade is for the whole difference |
| `Risk.PolicyEndings` | src/poma/execution_policy.py:79-102 | The shares assumed filled are those the execution policy keeps, demotes or drops |
| `Risk.FilterByCost` | src/poma/risk.py:143-169 | Exactly the trades whose value after cost stays above the threshold, in order |
| `Risk.WorthTradingExactly` | src/poma/risk.py:143-169 | A trade is kept if and only if what is left of its value after the proportional and the fixed cost reaches the threshold |
| `Planning.PlanTrades` | src/poma/engine.py:165-184 | The pipeline delivers what each ticker by itself needs, with the buys rounded down that save most and without which the plan would not fit the cash, and none when the rounded plan fits: one trade per ticker, each for a positive quantity, buys worth their quantity |
| `SessionState.MonitorAll` | src/poma/cli.py:480-582 | Over any run of ticks, each on the file the last one left and making an attempt exactly when one is due: an attempt waits for a retry exactly when its end may be retried and it was not the twelfth, every attempt of a session has the same run id, none follows one that closed the session, and there are at most twelve beyond those that were killed |
| `SessionState.AccountsNext` | src/poma/cli.py:515-526 | One more attempt keeps that account |
| `SessionState.Monitor` | src/poma/cli.py:480-582 | A tick makes an attempt exactly when its session is not over and was begun or is due, resumes an open one under its run id, records its end as a retry or as final, and leaves a killed attempt running |
| `SessionState.RetryableResults` | src/poma/cli.py:255-276 | An outcome is retried exactly when some result was blocked before acceptance and every other one is informational |
| `SessionState.AssessSession` | src/poma/cli.py:706-715 | Reconciling turns the pending session of the run into a completed one exactly when its fills could be assessed, and changes nothing else |
| `SessionState.LocalState.MarkRetryWait` | src/poma/state.py:101-117 | The attempt waits for a retry under its run id, its count kept |
| `SessionState.LocalState.MarkSession` | src/poma/state.py:119-137 | The attempt ends with its status, its count kept |
| `SessionState.LocalState.BeginSession` | src/poma/state.py:77-99 | The same run goes on counting, another run starts over |
| `GatewayWatchdog.Watch` | ops/scripts/gateway_auth_watchdog.py:174-224 | Whatever the probe answers and wherever the process dies: the log has every saved tick in order, decided by the state that the one before left, and the restarts are exactly those decided that lived to be performed; any two are 900 s apart, any three span 3600 s, and each ends three saved unavailable ticks in a row |
| `GatewayWatchdog.SavedNext` | ops/scripts/gateway_auth_watchdog.py:42-77 | One saved tick keeps the limit, the three-in-a-row rule and what the file remembers |
| `GatewayWatchdog.WindowIsSuffix` | ops/scripts/gateway_auth_watchdog.py:44-44 | On ascending stamps the sliding window keeps a suffix: exactly the stamps of the last hour |
| `GatewayWatchdog.State.Decide` | ops/scripts/gateway_auth_watchdog.py:42-77 | Restart exactly on the third failure in a row with room in the window and the cooldown over |
| `GatewayWatchdog.Tick` | ops/scripts/gateway_auth_watchdog.py:202-218 | A restart happens exactly when it was decided, saved and the process lives to do it; a tick that dies before saving leaves the file alone |
| `OrderRef.ReadUndoesPrint` | src/poma/execution_manager.py:643-667 | For a non-empty run id, colons allowed, and a colon-free ticker, recovery reads back the run exactly when ticker and side agree, from an original and from a replacement |
| `OrderRef.StripUndoesReplacement` | src/poma/execution_manager.py:643-643 | Stripping a replacement mark gives the original ref, and leaves an original alone |
| `OrderRef.PrintInjective` | src/poma/order_lifecycle.py:71-73 | The text determines the orderRef |
| `OrderRef.PrefixIsFamily` | src/poma/execution_manager.py:972-973 | With colon-free run ids the refs that start with a ledger key are exactly its family |
| `OrderRef.PrefixAcrossRuns` | src/poma/execution_manager.py:972-973 | With colons in run ids another run's ref can start with this run's key |
| `ExecutionHistory.ExecutionProvenFills` | src/poma/ibkr_order_history.py:113-192 | The loops compute, row by row, the verdict on the executions of that row's permId |
| `ExecutionHistory.VerdictExactly` | src/poma/ibkr_order_history.py:134-191 | What proves a fill, field by field: an assigned permId, no replacement, no completed row, executions that all agree on symbol, side and account and have ids, and whose counted ones are priced and add up to the ordered shares; and what the proof then says |
| `ExecutionHistory.VerdictsExactly` | src/poma/ibkr_order_history.py:133-192 | The proofs are exactly those of the rows, unless an average over no shares raises |
| `ExecutionHistory.DistinctIsFirsts` | src/poma/ibkr_order_history.py:161-168 | Every execution id counts once, by its first execution |
| `ExecutionHistory.VerdictIgnoresOrder` | src/poma/ibkr_order_history.py:125-131 | Reordering or repeating identical executions changes no verdict |
| `ExecutionHistory.ConflictingIdsMatter` | src/poma/ibkr_order_history.py:161-168 | Two different executions under one id make the order matter |
| `ExecutionHistory.AverageWithinPrices` | src/poma/ibkr_order_history.py:171-191 | The average price of a proven fill lies between the lowest and the highest execution price |
| `ExecutionHistory.ProvenExactly` | src/poma/ibkr_order_history.py:171-191 | Coherent and priced executions prove a fill if and only if their shares are the ordered ones to the slack |
| `TrimmedFills.FilledIsProven` | src/poma/ibkr_order_history.py:113-192 | In every state of the protocol the executions of a filled order prove its fill if and only if its row is for the quantity ordered |
| `TrimmedFills.TrimmedIsProven` | src/poma/execution_manager.py:236-239 | The complete fill of a trimmed buy over its planned row is proven if and only if trimming cut nothing, or in fractional shares next to nothing |
| `TrimmedFills.OpenRowKeepsQuantity` | src/poma/execution_manager.py:436-456 | While a row is open a result is written with the quantity the row has, after it was closed with that of the trade as sent |
| `TrimmedFills.TrimmedBuyUnproven` | src/poma/ibkr_order_history.py:171-191 | Ten shares planned, nine sent and executed: unproven, though proven over a row of nine |
| `ExecutionHistory.UniqueFills` | src/poma/ibkr_order_history.py:161-170 | The first execution of every id, and none at all if one has no id |
| `ExecutionHistory.FillsByPerm` | src/poma/ibkr_order_history.py:126-131 | Every execution under its permId, in order |

## Left out

- Prices on ledger rows and the limit of a replacement order (`_fresh_replace_limit_price`): whether a fresh quote allows a price is an input.
- Timestamps other than the submission time, terminal reasons other than the rediscovery mark, messages and warnings other than whether one blocks.
- Lost or foreign ledgers in the protocol invariant: `Recovery` covers the discovery itself, but the invariant is about ledgers that POMA's own processes wrote; a session of rediscovered orders is not followed further.
- The filter of completed history by wanted refs: it only removes rows that no open row could match.
- The `recovered` action of a reconcile update: it only occurs with a lost ledger.
- OrderStorage.OrderStore.Upsert: torn log lines, fsync and JSON encoding are not modelled; an append and a file replacement are single durable steps.
- OrderExecution.ExecutionManager.SubmitTrades: market orders, order construction and connection probes are not modelled.
- SessionState.RetryableResults: the texts that make a blocked plan retryable are not modelled; whether an outcome is retryable is an input of a tick.
- CashFit.CutCovers: covers the two rule tables that settings can build, whole shares and fractional shares; other increments are covered by the fit and the bounds of TrimBuysToCash only.
- Planning.PlanNearTarget: long-only targets in whole shares, with the broker's values at the planning prices; a trade dropped for a cost of a hundred per cent or more has no bound.
- OrderExecution.ExecutionManager.SubmitPlan: the account read is an input, the same whenever it is read; what each phase sends is stated when the plan returns, not for one that dies half-way.
- Operation.Operate: rebalances started by hand, outside the monitor, are not part of its runs; `Engine.System.Serve` has them.
- Overhang.OnlyCostliestExactly: covers buys under the two rules that settings can build, whole-share buys of at least one share and at a price above the dollar slack.
- ExecutionPricing.RepricedWithinApproval: non-finite quotes are not modelled, prices are real numbers, and a wide midpoint of exactly zero prices nothing instead of dividing by zero.
- Floating-point rounding everywhere: money and shares are exact reals; the 1e-6 and 1e-9 slacks and the roundings to cents and ticks are kept.
- Turnover, order-count and position limits, strategy targets, pandas code, calendars, market data, contract qualification, account parsing, alerts, reports, the journal, the runtime lock and the operator tools.
- Probing, locking and alert delivery of the watchdog; its probe's answer is an input.
