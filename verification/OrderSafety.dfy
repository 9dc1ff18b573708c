/** What the invariant means: safety of every reachable state of the order protocol. */
module OrderSafety {
  import opened Models
  import opened OrderLifecycle
  import opened BrokerModel
  import opened LedgerInvariant
  import opened Recording
  import opened Recovery
  import opened Reconciliation
  import opened FamilyShares
  import opened PlanPhases
  import opened SessionState

  function RunOf(ref: Ref): string {
    match ref
    case Root(run, _, _, _) => run
    case Rep(base, _) => RunOf(base)
  }

  /** However often a run is retried, with whatever plans, its first-order path places at most one
      order per ticker and side. */
  lemma OneFirstOrderPerTrade(l: Ledger, os: seq<Order>, i: nat, j: nat)
    requires Inv(l, os) && i < |os| && j < |os| && os[i].ref.Root? && os[j].ref.Root?
    requires os[i].ref.run == os[j].ref.run && os[i].ref.ticker == os[j].ref.ticker && os[i].ref.side == os[j].ref.side
    ensures i == j
  {
    var a, b := os[i].ref, os[j].ref;
    assert RootOf(a) == a && RootOf(b) == b && a in l && b in l;
    assert RowOK(a, l[a], os) && RowOK(b, l[b], os);
    assert a == b;
    assert i < j ==> Coexist(os[i], os[j]);
    assert j < i ==> Coexist(os[j], os[i]);
  }

  /** A key that reached the broker never looks submittable again. */
  lemma PlacedIsNeverResubmitted(l: Ledger, os: seq<Order>, i: nat)
    requires Inv(l, os) && i < |os|
    ensures RootOf(os[i].ref) in l && !Resubmittable(l, RootOf(os[i].ref))
  {
    var key := RootOf(os[i].ref);
    assert RowOK(key, l[key], os) && InFamily(os, key, i);
  }

  /** The row that carries an order's ref, or has reserved it. */
  predicate Covering(l: Ledger, ref: Ref, key: Ref) {
    key in l && !l[key].Terminal() && (l[key].orderRef == ref || l[key].replacement == Some(ref))
  }

  /** Every working order is covered by an open row. */
  lemma WorkingIsCovered(l: Ledger, os: seq<Order>, i: nat)
    requires Inv(l, os) && i < |os| && Working(os[i])
    ensures Covering(l, os[i].ref, RootOf(os[i].ref)) && l[RootOf(os[i].ref)].run == RunOf(os[i].ref)
  {
    var key := RootOf(os[i].ref);
    assert RowOK(key, l[key], os) && InFamily(os, key, i);
    RootKeepsRun(os[i].ref);
  }

  lemma {:induction false} RootKeepsRun(ref: Ref)
    ensures RootOf(ref).Root? && RootOf(ref).run == RunOf(ref)
  {
    if ref.Rep? {
      RootKeepsRun(ref.base);
    }
  }

  /** Orders of two runs are never working together. */
  lemma WorkingOrdersShareRun(l: Ledger, os: seq<Order>, i: nat, j: nat)
    requires Inv(l, os) && i < |os| && j < |os| && Working(os[i]) && Working(os[j])
    ensures RunOf(os[i].ref) == RunOf(os[j].ref)
    ensures l[RootOf(os[i].ref)].session == l[RootOf(os[j].ref)].session
  {
    WorkingIsCovered(l, os, i);
    WorkingIsCovered(l, os, j);
  }

  /** A plan is executed only when everything that works at the broker is of its own run. */
  lemma UnblockedMeansOwnOrders(l: Ledger, os: seq<Order>, run: string, session: string, i: nat)
    requires Inv(l, os) && OpenOnly(l, run, session) && i < |os| && Working(os[i])
    ensures RunOf(os[i].ref) == run && l[RootOf(os[i].ref)].session == session
  {
    WorkingIsCovered(l, os, i);
  }

  /** An order and its replacement are never live together, nor are two replacements, and a key is
      replaced at most once. */
  lemma OneLiveOrderPerKey(l: Ledger, os: seq<Order>, key: Ref, i: nat, j: nat)
    requires Inv(l, os) && InFamily(os, key, i) && InFamily(os, key, j) && Live(os[i]) && Live(os[j])
    ensures i == j && key in l && l[key].replaceCount <= 1
  {
    assert RowOK(key, l[key], os);
    if i != j {
      LiveIsSole(os, key, i, j);
    }
  }

  /** Closing is proven: the family of a terminal row has no working order, and what closed it is a
      report that is still true, or a failure before anything was placed. */
  lemma TerminalIsProven(l: Ledger, os: seq<Order>, key: Ref)
    requires Inv(l, os) && key in l && l[key].Terminal()
    ensures Quiet(os, key)
    ensures Unplaced(os, key) ==> l[key].state.REJECTED? && IsSubmissionFailure(l[key].raw) && l[key].filled == 0.0
    ensures !Unplaced(os, key) ==> exists i :: InFamily(os, key, i) && Reports(l[key], os[i])
  {
    var row := l[key];
    assert RowOK(key, row, os);
    forall i | InFamily(os, key, i) ensures !Working(os[i]) {
      assert Admits(key, row, os[i]);
    }
    if !Unplaced(os, key) {
      ProofReports(key, row, os);
    }
  }

  lemma ProofReports(key: Ref, row: Entry, os: seq<Order>)
    requires row.Terminal() && TerminalProven(key, row, os) && !Unplaced(os, key)
    ensures exists i :: InFamily(os, key, i) && Reports(row, os[i])
  {
    match row.state {
      case FILLED =>
        var i :| InFamily(os, key, i) && os[i].ref == row.orderRef && os[i].total - os[i].filled <= QTY_EPS;
        assert Reports(row, os[i]);
      case CANCELLED =>
        var i :| InFamily(os, key, i) && os[i].ref == row.orderRef && IsCancelled(os[i].status);
        assert Reports(row, os[i]);
      case REJECTED =>
        var i :| InFamily(os, key, i) && os[i].ref == row.orderRef && os[i].status.Inactive?;
        assert Reports(row, os[i]);
      case _ =>
    }
  }

  /** A filled or cancelled row never changes state, over any run. */
  lemma SettledStaysSettled(l: Ledger, os: seq<Order>, l': Ledger, os': seq<Order>, key: Ref)
    requires Inv(l, os) && Follows(l, os, l', os') && key in l && (l[key].state.FILLED? || l[key].state.CANCELLED?)
    ensures key in l' && l'[key].state == l[key].state && l'[key].orderRef == l[key].orderRef
  {
    assert RowOK(key, l[key], os);
    TerminalIsProven(l, os, key);
  }

  /** A result that monitor takes as a reason to retry means that nothing of the trade is at the broker. */
  lemma RetriedIsUnplaced(l: Ledger, l': Ledger, os: seq<Order>, plan: Plan, results: seq<OrderResult>, i: nat, k: Ref)
    requires AnswersPlan(l, l', os, plan, results) && i < |results| && IsPreAcceptance(results[i])
    requires IsRowOf(l', k, plan.run, plan.trades[i])
    ensures Unplaced(os, k)
  {
    assert AnswersTrade(l, l', os, plan.run, plan.trades[i], results[i]);
  }

  // ---- resuming a replace ----

  // A run in which that condition fails: the original is replaced, the process dies before it can
  // record the replacement, the replacement fills, and the next process resumes the replace.
  const KEY := Root("run", 0, "SPY", BUY)
  const RESERVED := Rep(KEY, 1)
  const WORKING := Order(KEY, 10.0, Submitted, 0.0)
  const ORIGINAL := Order(KEY, 10.0, Cancelled, 0.0)
  const REPLACEMENT := Order(RESERVED, 10.0, Filled, 10.0)
  const ACCEPTED := Entry(KEY, KEY, "run", "2025-01-02", "SPY", BUY, 10.0, Some(0), Some(1), Some(0.0),
                          BROKER_ACCEPTED, Submitted, 0.0, 10.0, 0, None, false)
  const ROW := Intent(ACCEPTED)
  const LISTED := Snapshot(KEY, Some(0), Some(1), "SPY", BUY, Submitted, 0.0, 10.0)
  const HISTORY := [Snapshot(KEY, Some(0), Some(1), "SPY", BUY, Cancelled, 0.0, 10.0),
                    Snapshot(RESERVED, Some(1), Some(2), "SPY", BUY, Filled, 10.0, 0.0)]
  /** Seconds after which a working order is replaced, and after which it is cancelled. */
  const REPLACE_AFTER := 600.0
  const CANCEL_AFTER := 3600.0

  lemma TraceRefs()
    ensures RootOf(KEY) == KEY && RootOf(RESERVED) == KEY && KEY != RESERVED
    ensures TickerOf(RESERVED) == "SPY" && SideOf(RESERVED) == BUY && TickerOf(KEY) == "SPY" && SideOf(KEY) == BUY
  {
    assert RootOf(RESERVED) == RootOf(KEY);
    assert TickerOf(RESERVED) == TickerOf(KEY) && SideOf(RESERVED) == SideOf(KEY);
  }

  lemma TraceOrders(os: seq<Order>)
    requires 1 <= |os| && os[0] == ORIGINAL && forall i | 1 <= i < |os| :: os[i] == REPLACEMENT
    ensures Inv(map[KEY := ROW], os)
  {
    TraceRefs();
    assert InFamily(os, KEY, 0);
    forall i | 0 <= i < |os| && os[i].ref.Rep? ensures HasOriginal(os, i) {
      assert Succeeds(os, i, 0);
    }
  }

  lemma TraceHistory()
    ensures CompletedReport([ORIGINAL, REPLACEMENT], HISTORY)
    ensures MatchSnapshot(ROW, HISTORY) == Matched(HISTORY[0], false)
  {
    TraceRefs();
    var os := [ORIGINAL, REPLACEMENT];
    assert CompletedSnapshotOf(os[0], 0, HISTORY[0]) && CompletedSnapshotOf(os[1], 1, HISTORY[1]);
  }

  lemma TraceShares(os: seq<Order>)
    requires os == [ORIGINAL, REPLACEMENT, REPLACEMENT]
    ensures FilledShares(os, KEY) == 20.0
  {
    TraceRefs();
    assert os[..2] == [ORIGINAL, REPLACEMENT] && os[..2][..1] == [ORIGINAL] && [ORIGINAL][..0] == [];
    assert FilledShares([ORIGINAL], KEY) == 0.0;
    assert FilledShares([ORIGINAL, REPLACEMENT], KEY) == 10.0;
  }

  /** The first process decides: the open query lists the working order, which is overdue, and the
      reservation of its replacement may be written. */
  lemma ReplaceIsDue(os: seq<Order>)
    requires os == [WORKING]
    ensures Inv(map[KEY := ACCEPTED], os) && OpenReport(os, [LISTED]) && Guarded(os)
    ensures MatchSnapshot(ACCEPTED, [LISTED]) == Matched(LISTED, false) && ACCEPTED.WithSnapshot(LISTED) == ACCEPTED
    ensures Replaceable(ACCEPTED, 700.0, REPLACE_AFTER, CANCEL_AFTER) && Admissible(map[KEY := ACCEPTED], os, ROW)
  {
    TraceStart(os);
    TraceListed(os);
    IntentRow(map[KEY := ACCEPTED], os, ACCEPTED);
    GuardedMeans(os);
  }

  lemma TraceStart(os: seq<Order>)
    requires os == [WORKING]
    ensures Inv(map[KEY := ACCEPTED], os)
  {
    TraceRefs();
    assert InFamily(os, KEY, 0);
  }

  lemma TraceListed(os: seq<Order>)
    requires os == [WORKING]
    ensures OpenReport(os, [LISTED]) && MatchSnapshot(ACCEPTED, [LISTED]) == Matched(LISTED, false)
    ensures ACCEPTED.WithSnapshot(LISTED) == ACCEPTED
  {
    TraceRefs();
    assert OpenSnapshotOf(os[0], 0, LISTED) && MayBeListed(os, 0);
  }

  /** With the reservation in the ledger the original is cancelled and the replacement goes out; there the
      process dies, and the replacement fills. */
  lemma ReplaceThenDie(os: seq<Order>, replaced: seq<Order>, filled: seq<Order>)
    requires os == [WORKING] && replaced == [ORIGINAL, Order(RESERVED, 10.0, PendingSubmit, 0.0)]
    requires filled == [ORIGINAL, REPLACEMENT]
    ensures Replaced(os, replaced, 0, RESERVED) && Inv(map[KEY := ROW], replaced) && Drifted(replaced, filled)
  {
    TraceRefs();
    assert InFamily(replaced, KEY, 0) && Succeeds(replaced, 1, 0);
  }

  lemma TraceWhole(os: seq<Order>)
    requires os == [ORIGINAL, REPLACEMENT]
    ensures HistoryWhole(os, HISTORY, RESERVED) && !HistoryClear(HISTORY, RESERVED)
  {
    TraceRefs();
    assert CompletedSnapshotOf(os[1], 1, HISTORY[1]) && HISTORY[1] in HISTORY;
  }

  lemma CheckFails(e: Entry, completed: seq<Snapshot>, ref: Ref)
    requires e.replacement == Some(ref) && MatchSnapshot(e, []).NoMatch? && !HistoryClear(completed, ref)
    ensures MayResume(e, [], false) && !ResumeChecked(e, [], completed, false)
  {
  }

  lemma TraceRow()
    ensures ROW.replacement == Some(RESERVED) && MatchSnapshot(ROW, []).NoMatch?
  {
  }

  /** History is whole, and the check that would have told fails. */
  lemma ResumeIsUnchecked(os: seq<Order>)
    requires os == [ORIGINAL, REPLACEMENT]
    ensures HistoryWhole(os, HISTORY, RESERVED) && MayResume(ROW, [], false) && !ResumeChecked(ROW, [], HISTORY, false)
  {
    TraceWhole(os);
    TraceRow();
    CheckFails(ROW, HISTORY, RESERVED);
  }

  /** The next process: nothing is listed as open and completed history has both orders; the pass
      matches the original first, every guard of the resume holds, and a second replacement of the same
      size goes out, and fills: ten shares were to be bought, and twenty are. */
  lemma ResumeCanPlaceTwice(os: seq<Order>, os': seq<Order>)
    requires os == [ORIGINAL, REPLACEMENT] && os' == os + [REPLACEMENT]
    ensures Inv(map[KEY := ROW], os) && OpenReport(os, []) && CompletedReport(os, HISTORY)
    ensures MatchSnapshot(ROW, []).NoMatch? && MatchSnapshot(ROW, HISTORY) == Matched(HISTORY[0], false)
    ensures var cancelled := ROW.WithSnapshot(HISTORY[0]);
            cancelled.state.CANCELLED? && Resumable(cancelled, 1400.0, CANCEL_AFTER)
            && Placed(os, os', RESERVED, Outstanding(cancelled))
    ensures Inv(map[KEY := ROW], os') && FilledShares(os', KEY) == 2.0 * ROW.quantity > ROW.quantity
  {
    TraceOrders(os);
    TraceOrders(os');
    TraceHistory();
    TraceShares(os');
  }

  // ---- the reports assumed of the broker ----

  /** While a replacement is only reserved, its order at the broker is not covered in the sense that
      the discovery of unknown orders demands: with IBKR such a pass raises and never adopts it. */
  lemma ReservedIsNotCarried(l: Ledger, os: seq<Order>, open: seq<Snapshot>, key: Ref, i: nat)
    requires Inv(l, os) && key in l && l[key].orderRef == key && OpenReport(os, open)
    requires InFamily(os, key, i) && os[i].ref == Rep(key, 1) && Live(os[i])
    ensures exists s :: s in open && s.ref == Rep(key, 1) && !CoveredBy(l, s)
  {
    var s :| s in open && OpenSnapshotOf(os[i], i, s);
    forall k | k in l ensures l[k].orderRef != Rep(key, 1) {
      assert RowOK(k, l[k], os);
    }
    assert !CoveredBy(l, s);
  }

  /** Exactly when the discovery of unknown orders lets a pass go on: every listed order is the one that
      the row of its family names, and that row is open. */
  lemma CoveredExactly(l: Ledger, os: seq<Order>, s: Snapshot, i: nat)
    requires Inv(l, os) && i < |os| && OpenSnapshotOf(os[i], i, s)
    ensures var key := RootOf(s.ref);
            key in l && (CoveredBy(l, s) <==> l[key].orderRef == s.ref && !l[key].Terminal())
  {
    var key := RootOf(s.ref);
    assert InFamily(os, key, i) && key in l && RowOK(key, l[key], os);
    RootKeepsTicker(s.ref);
    RootKeepsSide(s.ref);
    if CoveredBy(l, s) {
      var k :| k in l && Carries(l[k], s) && !l[k].Terminal();
      assert RowOK(k, l[k], os);
    } else if l[key].orderRef == s.ref && !l[key].Terminal() {
      assert Carries(l[key], s);
    }
  }

  lemma {:induction false} RootKeepsTicker(ref: Ref)
    ensures TickerOf(RootOf(ref)) == TickerOf(ref)
  {
    if ref.Rep? {
      RootKeepsTicker(ref.base);
    }
  }
}
