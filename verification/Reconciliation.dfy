/** What reconciliation concludes from broker reports, and why each row it writes is in order
    (src/poma/execution_manager.py, _match_snapshot and the row updates of _reconcile_entry,
    _resume_replacement and _apply_timeout_policy). */
module Reconciliation {
  import opened Models
  import opened OrderLifecycle
  import opened BrokerModel
  import opened LedgerInvariant
  import opened Recording
  import opened OrderStorage
  import opened Recovery
  import opened FamilyShares
  import opened Environment

  datatype Action = NoAction | Replace | ReplaceDeferred | Cancel | Closed | Unverified | Error | Recovered

  datatype ReconcileUpdate = ReconcileUpdate(entry: Entry, action: Action, matched: bool)

  // ---- matching ----

  function FirstWithRef(snapshots: seq<Snapshot>, ref: Ref): Option<Snapshot> {
    if snapshots == [] then None
    else if snapshots[0].ref == ref then Some(snapshots[0])
    else FirstWithRef(snapshots[1..], ref)
  }

  /** Same family, ticker and side, and the same permId (0 is none) or orderId. */
  predicate SameIds(entry: Entry, s: Snapshot) {
    && RootOf(s.ref) == entry.key && s.ticker == entry.ticker && s.side == entry.side
    && ((entry.permId.Some? && entry.permId.value != 0 && s.permId == entry.permId)
        || (entry.orderId.Some? && s.orderId == entry.orderId))
  }

  function FirstWithIds(snapshots: seq<Snapshot>, entry: Entry): Option<Snapshot> {
    if snapshots == [] then None
    else if SameIds(entry, snapshots[0]) then Some(snapshots[0])
    else FirstWithIds(snapshots[1..], entry)
  }

  /** The report behind a row, and whether it is of the reserved replacement. */
  datatype Match = NoMatch | Matched(snapshot: Snapshot, replacement: bool)

  function MatchSnapshot(entry: Entry, snapshots: seq<Snapshot>): Match {
    var exact := FirstWithRef(snapshots, entry.orderRef);
    if exact.Some? then Matched(exact.value, false)
    else
      var reserved := if entry.replacement.Some? then FirstWithRef(snapshots, entry.replacement.value) else None;
      if reserved.Some? then Matched(reserved.value, true)
      else
        var same := FirstWithIds(snapshots, entry);
        if same.Some? then Matched(same.value, false) else NoMatch
  }

  lemma {:induction false} FirstWithRefFinds(snapshots: seq<Snapshot>, ref: Ref)
    ensures match FirstWithRef(snapshots, ref)
            case Some(s) => s in snapshots && s.ref == ref
            case None => forall s | s in snapshots :: s.ref != ref
  {
    if snapshots != [] {
      FirstWithRefFinds(snapshots[1..], ref);
    }
  }

  lemma {:induction false} FirstWithIdsFinds(snapshots: seq<Snapshot>, entry: Entry)
    ensures match FirstWithIds(snapshots, entry)
            case Some(s) => s in snapshots && SameIds(entry, s)
            case None => forall s | s in snapshots :: !SameIds(entry, s)
  {
    if snapshots != [] {
      FirstWithIdsFinds(snapshots[1..], entry);
    }
  }

  /** Every report is of some order. */
  ghost predicate TruthfulReport(os: seq<Order>, snapshots: seq<Snapshot>) {
    forall s | s in snapshots :: exists i :: 0 <= i < |os| && Identified(os[i], i, s)
  }

  predicate Identified(order: Order, id: nat, s: Snapshot) {
    && Describes(order, s)
    && (s.orderId == None || s.orderId == Some(id)) && (s.permId == None || s.permId == Some(0) || s.permId == Some(id + 1))
  }

  lemma ReportsAreTruthful(os: seq<Order>, snapshots: seq<Snapshot>)
    requires OpenReport(os, snapshots) || CompletedReport(os, snapshots)
    ensures TruthfulReport(os, snapshots)
  {
    forall s | s in snapshots ensures exists i :: 0 <= i < |os| && Identified(os[i], i, s) {
      if OpenReport(os, snapshots) {
        var i :| 0 <= i < |os| && OpenSnapshotOf(os[i], i, s);
        assert Identified(os[i], i, s);
      } else {
        var i :| 0 <= i < |os| && CompletedSnapshotOf(os[i], i, s);
        assert Identified(os[i], i, s);
      }
    }
  }

  /** For an open row the fallback on ids finds nothing that its refs do not find: a match is always
      of the order the row names or of its reserved replacement. */
  lemma MatchIsByRef(entry: Entry, os: seq<Order>, seen: seq<Order>, snapshots: seq<Snapshot>)
    requires RowOK(entry.key, entry, os) && !entry.Terminal()
    requires Later(seen, os) && TruthfulReport(seen, snapshots)
    ensures match MatchSnapshot(entry, snapshots)
            case NoMatch => forall s | s in snapshots :: s.ref != entry.orderRef && Some(s.ref) != entry.replacement
            case Matched(s, replacement) =>
              && s in snapshots && (if replacement then entry.replacement == Some(s.ref) else s.ref == entry.orderRef)
              && (replacement ==> forall x | x in snapshots :: x.ref != entry.orderRef)
  {
    FirstWithRefFinds(snapshots, entry.orderRef);
    if entry.replacement.Some? {
      FirstWithRefFinds(snapshots, entry.replacement.value);
    }
    FirstWithIdsFinds(snapshots, entry);
    forall s | s in snapshots && SameIds(entry, s) ensures s.ref == entry.orderRef {
      var i :| 0 <= i < |seen| && Identified(seen[i], i, s);
      assert Moves(seen[i], os[i]);
    }
  }

  // ---- rows from reports ----

  /** No order of the family is working. */
  ghost predicate Quiet(os: seq<Order>, key: Ref) {
    forall i | InFamily(os, key, i) :: !Working(os[i])
  }

  /** A row of the same trade. */
  predicate SameTrade(before: Entry, after: Entry) {
    && after.key == before.key && after.run == before.run && after.session == before.session
    && after.ticker == before.ticker && after.side == before.side && after.quantity == before.quantity
  }

  /** What the row says of the order it names is still true of it. */
  predicate Reports(row: Entry, order: Order) {
    && row.orderRef == order.ref
    && (row.state.FILLED? ==> order.total - order.filled <= QTY_EPS)
    && (row.state.CANCELLED? ==> IsCancelled(order.status))
    && (row.state.REJECTED? ==> order.status.Inactive?)
    && !row.state.EXPIRED? && !row.state.PLANNED?
  }

  ghost predicate IdsOK(key: Ref, row: Entry, os: seq<Order>) {
    && (row.orderId.Some? ==> Identifies(key, row, os, row.orderId.value))
    && (row.permId.Some? && row.permId.value != 0 ==> Identifies(key, row, os, row.permId.value - 1))
  }

  /** A terminal row closes a quiet family; an open row names whatever works or was replaced. */
  ghost predicate Covers(key: Ref, row: Entry, os: seq<Order>) {
    if row.Terminal() then Quiet(os, key)
    else forall j | InFamily(os, key, j) && (Working(os[j]) || os[j].ref == Rep(key, 1)) ::
           row.orderRef == os[j].ref || row.replacement == Some(os[j].ref)
  }

  /** A row that reports order `i` of its family over the open row `e` may be written. */
  lemma ReportedRow(l: Ledger, os: seq<Order>, e: Entry, row: Entry, i: nat)
    requires Inv(l, os) && e.key in l && l[e.key] == e && !e.Terminal()
    requires SameTrade(e, row) && RowShape(e.key, row) && e.replaceCount <= row.replaceCount && !Retryable(row)
    requires InFamily(os, e.key, i) && Reports(row, os[i]) && IdsOK(e.key, row, os) && Covers(e.key, row, os)
    ensures Admissible(l, os, row)
  {
    assert RowOK(e.key, e, os);
    forall j | InFamily(os, e.key, j) ensures Admits(e.key, row, os[j]) {
      assert Admits(e.key, e, os[j]);
    }
  }

  /** The orders moved on since `seen`, and nothing was placed in the family. */
  ghost predicate Since(seen: seq<Order>, os: seq<Order>, key: Ref) {
    Later(seen, os) && forall i | |seen| <= i < |os| :: RootOf(os[i].ref) != key
  }

  /** A live order is the only live one of its family, and a live original has no replacement. */
  lemma LiveIsSole(os: seq<Order>, key: Ref, i: nat, j: nat)
    requires OrdersOK(os) && InFamily(os, key, i) && InFamily(os, key, j) && i != j && Live(os[i])
    ensures !Live(os[j]) && os[i].ref == Rep(key, 1)
  {
    FamilyHasTwoRefs(os, key, i);
    FamilyHasTwoRefs(os, key, j);
    assert i < j ==> Coexist(os[i], os[j]);
    assert j < i ==> Coexist(os[j], os[i]);
    if os[i].ref == key {
      SuccessorsNeedCancel(os, j, i);
    } else if os[j].ref == key {
      SuccessorsNeedCancel(os, i, j);
    }
  }

  /** An original that was replaced is cancelled. */
  lemma SuccessorsNeedCancel(os: seq<Order>, i: nat, j: nat)
    requires OrdersOK(os) && i < |os| && j < |os| && os[i].ref.Rep? && os[j].ref == RootOf(os[i].ref)
    ensures IsCancelled(os[j].status)
  {
    assert HasOriginal(os, i);
    var m :| Succeeds(os, i, m);
    assert FamilyRef(os[i].ref);
    assert m < j ==> Coexist(os[m], os[j]);
    assert j < m ==> Coexist(os[j], os[m]);
  }

  /** What a listed open order says about the rest of its family, then and later. */
  lemma ListedIsSole(seen: seq<Order>, os: seq<Order>, key: Ref, i: nat)
    requires OrdersOK(seen) && Since(seen, os, key) && i < |seen| && InFamily(seen, key, i)
    requires Live(seen[i]) || FamilyIdle(seen, key)
    ensures InFamily(os, key, i) && forall j | InFamily(os, key, j) && j != i :: !Live(os[j])
  {
    assert Moves(seen[i], os[i]);
    forall j | InFamily(os, key, j) && j != i ensures !Live(os[j]) {
      assert j < |seen| && Moves(seen[j], os[j]);
      if Live(seen[i]) {
        LiveIsSole(seen, key, i, j);
      }
    }
  }

  /** A snapshot row reports its order: remaining shares are exact, or, right after a placement, the
      whole quantity instead of zero. */
  lemma SnapshotReports(e: Entry, order: Order, s: Snapshot)
    requires Sound(order) && Describes(order, s)
    requires s.remaining == order.total - order.filled || (order.filled == order.total && s.remaining == order.total)
    ensures Reports(e.(orderRef := s.ref).WithSnapshot(s), order)
    ensures e.WithSnapshot(s).Terminal() ==> !Working(order)
    ensures IsDone(order.status) ==> e.WithSnapshot(s).Terminal()
    ensures IsCancelled(order.status) && order.filled <= QTY_EPS ==> e.WithSnapshot(s).remaining == order.total - order.filled
  {
  }

  /** An order that filled at once is recorded as filled from its placement report exactly when the report
      has that status; otherwise its row stays open, and the next listing of the order closes it. */
  lemma FilledAtOnce(e: Entry, order: Order, id: nat, placed: Snapshot, listed: Snapshot)
    requires Sound(order) && order.filled == order.total
    requires PlacementSnapshot(order, id, placed) && OpenSnapshotOf(order, id, listed)
    ensures e.WithSnapshot(placed).state.FILLED? <==> order.status.Filled?
    ensures order.status.Submitted? || order.status.PreSubmitted? ==> e.WithSnapshot(placed).state.PARTIALLY_FILLED?
    ensures !order.status.Filled? ==> !e.WithSnapshot(placed).Terminal()
    ensures e.WithSnapshot(placed).filled == order.total && e.WithSnapshot(placed).remaining == order.total
    ensures e.WithSnapshot(listed).state.FILLED? && e.WithSnapshot(listed).remaining == 0.0
  {
  }

  lemma ReportsLater(row: Entry, a: Order, b: Order)
    requires Reports(row, a) && Moves(a, b)
    ensures Reports(row, b)
    ensures !Working(a) ==> !Working(b)
  {
  }

  // ---- the rows reconciliation writes ----

  function Retargeted(e: Entry, s: Snapshot, replacement: Option<Ref>, count: nat): Entry {
    e.(orderRef := s.ref, replacement := replacement, replaceCount := count).WithSnapshot(s)
  }

  /** The replacement bookkeeping a row may carry after reporting `s`. */
  predicate Countable(e: Entry, s: Snapshot, replacement: Option<Ref>, count: nat) {
    && e.replaceCount <= count <= 1
    && (s.ref.Rep? ==> count == 1 && replacement.None?)
    && (replacement == None || (replacement == Some(Rep(e.key, 1)) && count == 1))
    && (s.orderId.Some? || e.replaceCount == count)
  }

  lemma SnapshotRow(l: Ledger, os: seq<Order>, e: Entry, s: Snapshot, n: nat, replacement: Option<Ref>, count: nat)
    requires Inv(l, os) && e.key in l && l[e.key] == e && !e.Terminal()
    requires InFamily(os, e.key, n) && s.ref == os[n].ref && IsBrokerStatus(s.status)
    requires Countable(e, s, replacement, count)
    requires s.orderId == None || s.orderId == Some(n)
    requires s.permId == None || s.permId == Some(0) || s.permId == Some(n + 1)
    requires (s.orderId.Some? && s.permId.Some?) || Retargeted(e, s, replacement, count).Terminal()
    requires Reports(Retargeted(e, s, replacement, count), os[n])
    requires Covers(e.key, Retargeted(e, s, replacement, count), os)
    ensures Admissible(l, os, Retargeted(e, s, replacement, count))
  {
    var row := Retargeted(e, s, replacement, count);
    assert RowOK(e.key, e, os);
    FamilyHasTwoRefs(os, e.key, n);
    RetargetedShape(e, s, replacement, count, os, n);
    ReportedRow(l, os, e, row, n);
  }

  lemma RetargetedShape(e: Entry, s: Snapshot, replacement: Option<Ref>, count: nat, os: seq<Order>, n: nat)
    requires RowOK(e.key, e, os) && !e.Terminal() && Countable(e, s, replacement, count)
    requires InFamily(os, e.key, n) && s.ref == os[n].ref && IsBrokerStatus(s.status)
    requires os[n].ref == e.key || os[n].ref == Rep(e.key, 1)
    requires s.orderId == None || s.orderId == Some(n)
    requires s.permId == None || s.permId == Some(0) || s.permId == Some(n + 1)
    requires (s.orderId.Some? && s.permId.Some?) || Retargeted(e, s, replacement, count).Terminal()
    ensures var row := Retargeted(e, s, replacement, count);
            SameTrade(e, row) && RowShape(e.key, row) && e.replaceCount <= row.replaceCount && !Retryable(row) && IdsOK(e.key, row, os)
  {
  }

  /** The order behind an open match. */
  lemma OpenMatch(l: Ledger, os: seq<Order>, seen: seq<Order>, e: Entry, open: seq<Snapshot>) returns (i: nat)
    requires Inv(l, os) && e.key in l && l[e.key] == e && !e.Terminal()
    requires OpenReport(seen, open) && Since(seen, os, e.key) && MatchSnapshot(e, open).Matched?
    ensures var s := MatchSnapshot(e, open).snapshot;
            && i < |seen| && InFamily(seen, e.key, i) && OpenSnapshotOf(seen[i], i, s)
            && (Live(seen[i]) || FamilyIdle(seen, e.key))
            && (if MatchSnapshot(e, open).replacement then e.replacement == Some(s.ref) else s.ref == e.orderRef)
  {
    assert RowOK(e.key, e, os);
    ReportsAreTruthful(seen, open);
    MatchIsByRef(e, os, seen, open);
    var s := MatchSnapshot(e, open).snapshot;
    i :| 0 <= i < |seen| && OpenSnapshotOf(seen[i], i, s) && (Live(seen[i]) || FamilyIdle(seen, RootOf(s.ref)));
  }

  /** The row of an open match: the order named or its reserved replacement, and a reservation that
      is kept with the original or dropped. */
  lemma OpenRow(l: Ledger, os: seq<Order>, seen: seq<Order>, e: Entry, s: Snapshot, i: nat, replacement: Option<Ref>)
    requires Inv(l, os) && e.key in l && l[e.key] == e && !e.Terminal()
    requires OrdersOK(seen) && Since(seen, os, e.key) && i < |seen| && InFamily(seen, e.key, i)
    requires OpenSnapshotOf(seen[i], i, s) && (Live(seen[i]) || FamilyIdle(seen, e.key))
    requires s.ref == e.orderRef || Some(s.ref) == e.replacement
    requires replacement == None || (replacement == e.replacement && s.ref == e.orderRef)
    ensures Admissible(l, os, Retargeted(e, s, replacement, e.replaceCount))
  {
    var row := Retargeted(e, s, replacement, e.replaceCount);
    assert RowOK(e.key, e, os) && Moves(seen[i], os[i]);
    ListedIsSole(seen, os, e.key, i);
    SnapshotReports(e.(replacement := replacement), seen[i], s);
    ReportsLater(row, seen[i], os[i]);
    if !row.Terminal() {
      forall j | InFamily(os, e.key, j) && (Working(os[j]) || os[j].ref == Rep(e.key, 1)) ensures row.orderRef == os[j].ref {
        assert j < |seen| && Moves(seen[j], os[j]);
        if j != i {
          LiveIsSole(seen, e.key, i, j);
        }
      }
    }
    SnapshotRow(l, os, e, s, i, replacement, e.replaceCount);
  }

  ghost predicate Lists(open: seq<Snapshot>, ref: Ref) {
    exists s :: s in open && s.ref == ref
  }

  lemma LiveIsListed(seen: seq<Order>, open: seq<Snapshot>, i: nat)
    requires OpenReport(seen, open) && i < |seen| && Live(seen[i])
    ensures Lists(open, seen[i].ref)
  {
    var s :| s in open && OpenSnapshotOf(seen[i], i, s);
  }

  lemma UnmatchedIsUnlisted(os: seq<Order>, seen: seq<Order>, e: Entry, open: seq<Snapshot>)
    requires RowOK(e.key, e, os) && !e.Terminal()
    requires OpenReport(seen, open) && Later(seen, os) && MatchSnapshot(e, open).NoMatch?
    ensures !Lists(open, e.orderRef) && (e.replacement.Some? ==> !Lists(open, e.replacement.value))
  {
    ReportsAreTruthful(seen, open);
    MatchIsByRef(e, os, seen, open);
  }

  /** A family of which the open query lists nothing that the row could match is quiet. */
  lemma UnmatchedIsQuiet(l: Ledger, os: seq<Order>, seen: seq<Order>, e: Entry, open: seq<Snapshot>)
    requires Inv(l, os) && e.key in l && l[e.key] == e && !e.Terminal()
    requires OpenReport(seen, open) && Since(seen, os, e.key) && MatchSnapshot(e, open).NoMatch?
    ensures Quiet(os, e.key)
  {
    assert RowOK(e.key, e, os);
    UnmatchedIsUnlisted(os, seen, e, open);
    forall i | InFamily(os, e.key, i) ensures !Working(os[i]) {
      assert i < |seen| && Moves(seen[i], os[i]) && Admits(e.key, e, os[i]);
      if Live(seen[i]) {
        LiveIsListed(seen, open, i);
      }
    }
  }

  /** The order behind a match in completed history. */
  lemma CompletedMatch(l: Ledger, os: seq<Order>, seen: seq<Order>, e: Entry, completed: seq<Snapshot>) returns (i: nat)
    requires Inv(l, os) && e.key in l && l[e.key] == e && !e.Terminal()
    requires CompletedReport(seen, completed) && Later(seen, os) && MatchSnapshot(e, completed).Matched?
    ensures var s := MatchSnapshot(e, completed).snapshot;
            && i < |os| && InFamily(os, e.key, i) && CompletedSnapshotOf(os[i], i, s) && IsDone(os[i].status)
            && (if MatchSnapshot(e, completed).replacement then e.replacement == Some(s.ref) else s.ref == e.orderRef)
  {
    assert RowOK(e.key, e, os);
    ReportsAreTruthful(seen, completed);
    MatchIsByRef(e, os, seen, completed);
    var s := MatchSnapshot(e, completed).snapshot;
    i :| 0 <= i < |seen| && CompletedSnapshotOf(seen[i], i, s) && IsDone(seen[i].status);
    assert Moves(seen[i], os[i]);
  }

  lemma CompletedRow(l: Ledger, os: seq<Order>, e: Entry, s: Snapshot, i: nat)
    requires Inv(l, os) && e.key in l && l[e.key] == e && !e.Terminal()
    requires InFamily(os, e.key, i) && CompletedSnapshotOf(os[i], i, s) && IsDone(os[i].status)
    requires s.ref == e.orderRef || Some(s.ref) == e.replacement
    requires Quiet(os, e.key)
    ensures Admissible(l, os, Retargeted(e, s, None, e.replaceCount))
    ensures Retargeted(e, s, None, e.replaceCount).Terminal()
  {
    assert RowOK(e.key, e, os);
    SnapshotReports(e.(replacement := None), os[i], s);
    SnapshotRow(l, os, e, s, i, None, e.replaceCount);
  }

  /** Disappearance is not proof: the row stays open with an unknown state. */
  function CloseUnreported(e: Entry): Entry {
    e.(state := UNKNOWN, raw := NotOpenUnverified,
       remaining := if e.remaining != 0.0 then e.remaining else Max(e.quantity - e.filled, 0.0), recovered := false)
  }

  /** The same row in another open state. */
  lemma RestatedRow(l: Ledger, os: seq<Order>, row: Entry, after: Entry)
    requires Admissible(l, os, row) && !row.Terminal()
    requires after == row.(state := after.state, raw := after.raw, remaining := after.remaining, recovered := after.recovered)
    requires !after.Terminal() && !after.state.PLANNED? && !Retryable(after)
    ensures Admissible(l, os, after)
  {
  }

  lemma CosmeticRow(l: Ledger, os: seq<Order>, row: Entry, after: Entry)
    requires Admissible(l, os, row)
    requires after == row.(submittedAt := after.submittedAt, recovered := after.recovered)
    ensures Admissible(l, os, after)
  {
  }

  lemma SelfAdmissible(l: Ledger, os: seq<Order>, e: Entry)
    requires Inv(l, os) && e.key in l && l[e.key] == e
    ensures Admissible(l, os, e)
  {
    assert RowOK(e.key, e, os);
  }

  /** Reserving the replacement's ref before anything crosses the network. */
  function Intent(row: Entry): Entry {
    row.(state := REPLACE_PENDING, raw := ReplacementUnconfirmed, replaceCount := row.replaceCount + 1,
         replacement := Some(Rep(row.key, row.replaceCount + 1)))
  }

  ghost predicate NoReplacements(os: seq<Order>, key: Ref) {
    forall i | InFamily(os, key, i) :: os[i].ref == key
  }

  lemma IntentRow(l: Ledger, os: seq<Order>, row: Entry)
    requires Inv(l, os) && Admissible(l, os, row) && !row.Terminal() && row.replaceCount == 0 && row.orderId.Some?
    ensures Admissible(l, os, Intent(row)) && NoReplacements(os, row.key)
    ensures InFamily(os, row.key, row.orderId.value) && os[row.orderId.value].ref == row.key == row.orderRef
    ensures row.replacement.None?
  {
    NeverReplaced(l, os, row);
    IntentAdmissible(l, os, row);
  }

  lemma NeverReplaced(l: Ledger, os: seq<Order>, row: Entry)
    requires Inv(l, os) && Admissible(l, os, row) && row.replaceCount == 0
    ensures NoReplacements(os, row.key)
  {
    forall i | InFamily(os, row.key, i) ensures os[i].ref == row.key {
      FamilyHasTwoRefs(os, row.key, i);
      assert Admits(row.key, row, os[i]);
    }
  }

  lemma IntentAdmissible(l: Ledger, os: seq<Order>, row: Entry)
    requires Inv(l, os) && Admissible(l, os, row) && !row.Terminal() && row.replaceCount == 0 && row.orderId.Some?
    requires NoReplacements(os, row.key)
    ensures Admissible(l, os, Intent(row))
  {
  }

  /** Placing the reserved replacement keeps the invariant, whether or not the process lives to see it. */
  lemma ReservedPlaces(l: Ledger, os: seq<Order>, os': seq<Order>, e: Entry, j: nat, total: real)
    requires Inv(l, os) && e.key in l && l[e.key] == e && !e.Terminal() && e.replacement == Some(Rep(e.key, 1))
    requires InFamily(os, e.key, j) && os[j].ref == e.key
    requires Placed(os, os', Rep(e.key, 1), total) && IsCancelled(os'[j].status)
    requires total + os'[j].filled <= os'[j].total
    requires NoneLive(os'[..|os|], Rep(e.key, 1))
    ensures Inv(l, os') && StepsIn(Both(e.key), l, os, l, os')
    ensures forall i | InFamily(os', e.key, i) && i != |os| :: !Live(os'[i])
  {
    assert RowOK(e.key, e, os) && Admits(e.key, e, os[j]) && Moves(os[j], os'[j]);
    InvPlacesReplacement(l, os, os', e.key, total, j);
    forall i | InFamily(os', e.key, i) && i != |os| ensures !Live(os'[i]) {
      FamilyHasTwoRefs(os', e.key, i);
      if os'[i].ref == e.key {
        SuccessorsNeedCancel(os', |os|, i);
      } else {
        assert os'[..|os|][i] == os'[i];
      }
    }
  }

  /** What submit_replacement can leave under the reserved ref. */
  lemma ReservedOutcome(l: Ledger, os: seq<Order>, os': seq<Order>, e: Entry, quantity: real, j: nat)
    requires Inv(l, os) && e.key in l && l[e.key] == e && !e.Terminal() && e.replacement == Some(Rep(e.key, 1))
    requires InFamily(os, e.key, j) && os[j].ref == e.key && IsCancelled(os[j].status)
    requires quantity + os[j].filled <= os[j].total
    requires Drifted(os, os') || (Placed(os, os', Rep(e.key, 1), quantity) && NoneLive(os'[..|os|], Rep(e.key, 1)))
    ensures Inv(l, os') && StepsIn(Both(e.key), l, os, l, os')
    ensures (ReservationUnused(e, os) ==> KeepsGuard(os, os')) && Firsts(os') == Firsts(os) && e.replaceCount == 1
    ensures Placed(os, os', Rep(e.key, 1), quantity) && NoneLive(os'[..|os|], Rep(e.key, 1)) ==>
              && InFamily(os', e.key, |os|) && os'[|os|].ref == Rep(e.key, 1)
              && forall i | InFamily(os', e.key, i) && i != |os| :: !Live(os'[i])
  {
    assert RowOK(e.key, e, os) && Moves(os[j], os'[j]);
    if Placed(os, os', Rep(e.key, 1), quantity) && NoneLive(os'[..|os|], Rep(e.key, 1)) {
      ReservedPlaces(l, os, os', e, j, quantity);
      FirstsPlaced(os, os', Rep(e.key, 1), quantity);
      if ReservationUnused(e, os) {
        GuardedPlaces(os, os', Rep(e.key, 1), quantity);
      }
    } else {
      InvDriftSteps(Both(e.key), l, os, os');
      GuardedDrifts(os, os');
    }
  }

  /** The row of a replacement that is at the broker as order `n`, the rest of its family at rest. */
  lemma ReplacementRow(l: Ledger, os: seq<Order>, e: Entry, s: Snapshot, n: nat)
    requires Inv(l, os) && e.key in l && l[e.key] == e && !e.Terminal() && e.replaceCount == 1
    requires InFamily(os, e.key, n) && os[n].ref == Rep(e.key, 1)
    requires PlacementSnapshot(os[n], n, s) || OpenSnapshotOf(os[n], n, s)
    requires forall i | InFamily(os, e.key, i) && i != n :: !Live(os[i])
    ensures Admissible(l, os, Retargeted(e, s, None, 1))
  {
    var row := Retargeted(e, s, None, 1);
    SnapshotReports(e.(replacement := None, replaceCount := 1), os[n], s);
    SnapshotRow(l, os, e, s, n, None, 1);
  }

  /** The row of an original that filled while its cancel was in flight: nothing was placed. */
  lemma FilledOriginalRow(l: Ledger, os: seq<Order>, e: Entry, s: Snapshot, n: nat)
    requires Inv(l, os) && e.key in l && l[e.key] == e && !e.Terminal() && e.replaceCount == 1
    requires InFamily(os, e.key, n) && os[n].ref == e.key && OpenSnapshotOf(os[n], n, s) && NoReplacements(os, e.key)
    ensures Admissible(l, os, Retargeted(e, s, None, 1))
  {
    var row := Retargeted(e, s, None, 1);
    SnapshotReports(e.(replacement := None, replaceCount := 1), os[n], s);
    forall i | InFamily(os, e.key, i) ensures i == n {
      assert i < n ==> Coexist(os[i], os[n]);
      assert n < i ==> Coexist(os[n], os[i]);
    }
    SnapshotRow(l, os, e, s, n, None, 1);
  }

  /** What a cancelled original leaves is what its replacement may take. */
  lemma CancelledLeft(l: Ledger, os: seq<Order>, e: Entry, s: Snapshot, j: nat)
    requires Inv(l, os) && e.key in l && l[e.key] == e && !e.Terminal()
    requires InFamily(os, e.key, j) && os[j].ref == e.key && IsCancelled(os[j].status)
    requires s.filled == os[j].filled && s.remaining == os[j].total - os[j].filled
    ensures var cancelled := e.WithSnapshot(s);
            cancelled.remaining != 0.0 && cancelled.remaining + os[j].filled == os[j].total
    ensures e.replacement.Some? ==> e.replacement == Some(Rep(e.key, 1)) && e.replaceCount == 1
  {
    assert RowOK(e.key, e, os);
    assert Sound(os[j]);
  }

  /** Nothing of the family lives beside a listed order under the reserved ref. */
  lemma OnlyLive(os: seq<Order>, key: Ref, ref: Ref, s: Snapshot) returns (n: nat)
    requires OrdersOK(os) && key.Root? && ref == Rep(key, 1)
    requires exists i :: 0 <= i < |os| && os[i].ref == ref && MayBeListed(os, i) && OpenSnapshotOf(os[i], i, s)
    ensures InFamily(os, key, n) && os[n].ref == ref && OpenSnapshotOf(os[n], n, s)
    ensures forall i | InFamily(os, key, i) && i != n :: !Live(os[i])
  {
    n :| 0 <= n < |os| && os[n].ref == ref && MayBeListed(os, n) && OpenSnapshotOf(os[n], n, s);
    assert RootOf(ref) == RootOf(key);
    forall i | InFamily(os, key, i) && i != n ensures !Live(os[i]) {
      if Live(os[n]) {
        LiveIsSole(os, key, n, i);
      }
    }
  }

  /** Among the orders that were there before, none became a replacement. */
  lemma StaysUnreplaced(os: seq<Order>, os': seq<Order>, key: Ref)
    requires NoReplacements(os, key) && Later(os, os') && key.Root?
    ensures NoReplacements(os'[..|os|], key) && NoneLive(os'[..|os|], Rep(key, 1))
    ensures forall i | InFamily(os, key, i) :: InFamily(os', key, i) && os'[i].ref == key
  {
    forall i | 0 <= i < |os| ensures os'[i].ref == os[i].ref {
      assert Moves(os[i], os'[i]);
    }
    forall i | 0 <= i < |os| ensures os'[i].ref != Rep(key, 1) {
      assert InFamily(os, key, i) ==> os[i].ref == key;
      assert RootOf(Rep(key, 1)) == RootOf(key);
    }
  }

  lemma PlacedIsReported(os: seq<Order>, os': seq<Order>, key: Ref, id: nat, s: Snapshot)
    requires NoReplacements(os, key) && InFamily(os, key, id) && Replaced(os, os', id, Rep(key, 1))
    requires Drifted(os, os') || PlacementSnapshot(os'[|os|], |os|, s)
    ensures PlacementSnapshot(os'[|os|], |os|, s) && s.ref == Rep(key, 1)
  {
  }

  /** A reported cancel is final. */
  lemma StaysCancelled(l: Ledger, os: seq<Order>, e: Entry, seen: seq<Order>, s: Snapshot, i: nat)
    requires Inv(l, os) && e.key in l && l[e.key] == e && !e.Terminal() && e.replacement.Some? && s.ref == e.orderRef
    requires Since(seen, os, e.key) && i < |seen| && InFamily(seen, e.key, i) && OpenSnapshotOf(seen[i], i, s)
    requires AllSound(seen)
    requires e.WithSnapshot(s).state.CANCELLED?
    ensures InFamily(os, e.key, i) && os[i] == seen[i] && os[i].ref == e.key == s.ref && IsCancelled(os[i].status)
  {
    assert RowOK(e.key, e, os) && Moves(seen[i], os[i]);
    SnapshotReports(e, seen[i], s);
  }

  lemma CompletedCancelled(l: Ledger, os: seq<Order>, e: Entry, s: Snapshot, i: nat)
    requires Inv(l, os) && e.key in l && l[e.key] == e && !e.Terminal() && e.replacement.Some? && s.ref == e.orderRef
    requires InFamily(os, e.key, i) && CompletedSnapshotOf(os[i], i, s) && e.WithSnapshot(s).state.CANCELLED?
    ensures os[i].ref == e.key == s.ref && IsCancelled(os[i].status)
  {
    assert RowOK(e.key, e, os);
    SnapshotReports(e, os[i], s);
  }

  // ---- the pass over all rows ----

  function RowRefs(rows: seq<Entry>): set<Ref> {
    (set i | 0 <= i < |rows| :: rows[i].key) + set i | 0 <= i < |rows| :: Rep(rows[i].key, 1)
  }

  lemma SinceElsewhere(seen: seq<Order>, l: Ledger, os: seq<Order>, l': Ledger, os': seq<Order>, key: Ref, other: Ref)
    requires other.Root? && Since(seen, os, key) && StepsIn(Both(other), l, os, l', os') && key != other
    ensures Since(seen, os', key)
  {
    LaterTransitive(seen, os, os');
    forall i | |seen| <= i < |os'| ensures RootOf(os'[i].ref) != key {
      if i < |os| {
        assert Moves(os[i], os'[i]);
      }
    }
  }

  /** The rows from the `i`th on are as they were loaded, and nothing was placed for them since the
      open query. */
  ghost predicate Queued(l: Ledger, os: seq<Order>, rows: seq<Entry>, i: nat, seen: seq<Order>) {
    && i <= |rows| && (forall i, j | 0 <= i < j < |rows| :: rows[i].key != rows[j].key)
    && forall j | i <= j < |rows| :: QueuedRow(l, os, rows[j], seen)
  }

  ghost predicate QueuedRow(l: Ledger, os: seq<Order>, row: Entry, seen: seq<Order>) {
    row.key in l && row.key.Root? && l[row.key] == row && !row.Terminal() && Since(seen, os, row.key)
  }

  lemma QueuedNext(rows: seq<Entry>, i: nat, seen: seq<Order>, l: Ledger, os: seq<Order>, l': Ledger, os': seq<Order>)
    requires i < |rows| && Queued(l, os, rows, i, seen) && StepsIn(Both(rows[i].key), l, os, l', os')
    ensures Queued(l', os', rows, i + 1, seen)
  {
    forall j | i < j < |rows| ensures QueuedRow(l', os', rows[j], seen) {
      SinceElsewhere(seen, l, os, l', os', rows[j].key, rows[i].key);
    }
  }

  lemma KeysAreOriginals(l: Ledger, os: seq<Order>)
    requires RowsOK(l, os)
    ensures RecoveredKeys(l)
  {
    forall k | k in l ensures k.Root? {
      assert RowOK(k, l[k], os);
    }
  }

  lemma ListedFamily(l: Ledger, os: seq<Order>, open: seq<Snapshot>, s: Snapshot)
    requires OrdersOK(os) && Known(l, os) && OpenReport(os, open) && s in open
    ensures StripReplacement(s.ref) in l
  {
    var i :| 0 <= i < |os| && OpenSnapshotOf(os[i], i, s);
    assert FamilyRef(os[i].ref) && RootOf(os[i].ref) in l;
    if s.ref.Rep? {
      assert RootOf(s.ref.base) == s.ref.base;
    }
  }

  /** Every listed order is of a known family. */
  lemma ListedIsKnown(l: Ledger, os: seq<Order>, open: seq<Snapshot>)
    requires Inv(l, os) && OpenReport(os, open)
    ensures RecoveredKeys(l) && forall s | s in open :: StripReplacement(s.ref) in l
  {
    KeysAreOriginals(l, os);
    forall s | s in open ensures StripReplacement(s.ref) in l {
      ListedFamily(l, os, open, s);
    }
  }

  /** Rows of different keys name different orders, so a covered order is carried. */
  lemma CoveredAreCarried(l: Ledger, os: seq<Order>, open: seq<Snapshot>)
    requires Inv(l, os)
    ensures forall s | s in open && CoveredBy(l, s) :: Carried(l, s)
  {
    forall s | s in open && CoveredBy(l, s) ensures Carried(l, s) {
      var k :| k in l && Carries(l[k], s) && !l[k].Terminal();
      forall j | j in l && l[j].orderRef == s.ref ensures j == k {
        assert RowOK(j, l[j], os) && RowOK(k, l[k], os);
      }
    }
  }

  lemma DriftSteps(l: Ledger, os: seq<Order>, os': seq<Order>)
    requires Drifted(os, os')
    ensures StepsIn(RefsOf(l), l, os, l, os')
  {
  }

  lemma QueuedDrifts(l: Ledger, os: seq<Order>, os': seq<Order>, rows: seq<Entry>)
    requires Queued(l, os, rows, 0, os) && Drifted(os, os')
    ensures Queued(l, os', rows, 0, os)
  {
    forall j | 0 <= j < |rows| ensures QueuedRow(l, os', rows[j], os) {
    }
  }

  lemma RowKeysKnown(rows: seq<Entry>, l: Ledger)
    requires ListsOpen(rows, l)
    ensures RowRefs(rows) <= RefsOf(l)
  {
  }

  lemma AllOfRun(l: Ledger, rows: seq<Entry>, session: string, run: string)
    requires ListsOpen(rows, l)
    ensures (forall i | 0 <= i < |rows| :: rows[i].session == session && rows[i].run == run) <==> OpenOnly(l, run, session)
  {
  }

  /** Open rows stay open rows of their run and session. */
  ghost predicate StaysOpen(before: Ledger, after: Ledger) {
    forall k | k in before && !before[k].Terminal() ::
      k in after && !after[k].Terminal() && after[k].run == before[k].run && after[k].session == before[k].session
  }

  lemma StaysOpenNext(a: Ledger, b: Ledger, c: Ledger, e: Entry)
    requires StaysOpen(a, b) && e.key in b && b[e.key] == e
    requires c == b || c == b[e.key := CancelPending(e)]
    ensures StaysOpen(a, c)
  {
  }

  lemma ForeignStaysForeign(before: Ledger, after: Ledger, run: string, session: string)
    requires StaysOpen(before, after) && !OpenOnly(before, run, session)
    ensures !OpenOnly(after, run, session)
  {
    var k :| k in before && !before[k].Terminal() && !(before[k].run == run && before[k].session == session);
    assert k in after;
  }

  /** The row's cancel was requested and the row says so, unless the order was found gone; rediscovered
      orders and those without an id are left alone. */
  predicate CancelTried(e: Entry, l: Ledger, os: seq<Order>) {
    && e.key in l
    && (if e.recovered || e.orderId.None? then l[e.key] == e
        else l[e.key] == CancelPending(e) || (l[e.key] == e && Gone(os, e.orderId.value)))
  }

  /** Asking to cancel some foreign order raises. */
  ghost predicate CancelsFail(o: Outside) {
    exists key: Ref :: o.cancelling(key).Raises?
  }

  predicate Foreign(e: Entry, session: string, run: string) {
    !(e.session == session && e.run == run)
  }

  /** Of the first `n` rows, the foreign ones were asked to cancel and the others are as they were. */
  predicate ForeignTried(rows: seq<Entry>, n: nat, session: string, run: string, l: Ledger, os: seq<Order>) {
    && n <= |rows|
    && forall j | 0 <= j < n ::
         && rows[j].key.Root?
         && if Foreign(rows[j], session, run) then CancelTried(rows[j], l, os) else rows[j].key in l && l[rows[j].key] == rows[j]
  }

  lemma CancelTriedElsewhere(e: Entry, l: Ledger, os: seq<Order>, l': Ledger, os': seq<Order>)
    requires CancelTried(e, l, os) && e.key in l' && l'[e.key] == l[e.key] && Later(os, os')
    ensures CancelTried(e, l', os')
  {
    if e.orderId.Some? && Gone(os, e.orderId.value) {
      assert Moves(os[e.orderId.value], os'[e.orderId.value]);
    }
  }

  lemma ForeignTriedNext(rows: seq<Entry>, i: nat, session: string, run: string, l: Ledger, os: seq<Order>, l': Ledger,
                         os': seq<Order>, seen: seq<Order>)
    requires Queued(l, os, rows, i, seen) && ForeignTried(rows, i, session, run, l, os) && i < |rows|
    requires StepsIn(Both(rows[i].key), l, os, l', os') && Foreign(rows[i], session, run)
    requires CancelTried(rows[i], l', os')
    ensures ForeignTried(rows, i + 1, session, run, l', os')
  {
    forall j | 0 <= j < i
      ensures if Foreign(rows[j], session, run) then CancelTried(rows[j], l', os') else rows[j].key in l' && l'[rows[j].key] == rows[j]
    {
      assert rows[j].key != rows[i].key;
      if Foreign(rows[j], session, run) {
        CancelTriedElsewhere(rows[j], l, os, l', os');
      }
    }
  }

  /** Nothing but the cancel of foreign orders, under the policy that cancels them. */
  ghost predicate OnlyCancels(l: Ledger, l': Ledger, os: seq<Order>, session: string, run: string, c: Settings) {
    && l'.Keys == l.Keys
    && forall k | k in l ::
         if c.cancelPolicy && !l[k].Terminal() && Foreign(l[k], session, run) then CancelTried(l[k], l', os) else l'[k] == l[k]
  }

  lemma LeftAlone(l: Ledger, os: seq<Order>, session: string, run: string, c: Settings)
    requires !c.cancelPolicy
    ensures OnlyCancels(l, l, os, session, run, c)
  {
  }

  lemma NoneForeign(l: Ledger, os: seq<Order>, session: string, run: string, c: Settings)
    requires OpenOnly(l, run, session)
    ensures OnlyCancels(l, l, os, session, run, c)
  {
  }

  lemma CancelsOnly(rows: seq<Entry>, l: Ledger, before: seq<Order>, l': Ledger, os: seq<Order>, session: string,
                    run: string, c: Settings)
    requires ListsOpen(rows, l) && ForeignTried(rows, |rows|, session, run, l', os) && c.cancelPolicy
    requires StepsIn(RowRefs(rows), l, before, l', os) && RowsOK(l, before) && RowsOK(l', os)
    ensures OnlyCancels(l, l', os, session, run, c)
  {
    KeysOfRows(rows, l);
    forall k | k in l' || k in l ensures k in l && k in l' && k.Root? {
      assert k in l ==> RowOK(k, l[k], before);
      assert k in l' ==> RowOK(k, l'[k], os);
    }
    forall k | k in l
      ensures if !l[k].Terminal() && Foreign(l[k], session, run) then CancelTried(l[k], l', os) else l'[k] == l[k]
    {
      if !l[k].Terminal() {
        assert l[k] in rows;
      }
    }
  }

  lemma KeysOfRows(rows: seq<Entry>, l: Ledger)
    requires ListsOpen(rows, l)
    ensures forall k | k in RowRefs(rows) && k.Root? :: k in l && !l[k].Terminal()
  {
    forall i | 0 <= i < |rows| ensures rows[i].key in l && !l[rows[i].key].Terminal() {
      assert rows[i] in rows;
    }
  }

  // ---- following up ----

  /** A working order, unfilled, and known for at least `wait` seconds; never a rediscovered one. */
  predicate Overdue(row: Entry, now: real, wait: real) {
    !row.recovered && IsWorking(row.state) && row.filled <= QTY_EPS && row.submittedAt.Some? && now - row.submittedAt.value >= wait
  }

  /** Overdue for its replacement and not yet for its cancellation, and never replaced. */
  predicate Replaceable(row: Entry, now: real, replaceAfter: real, cancelAfter: real) {
    Overdue(row, now, replaceAfter) && !Overdue(row, now, cancelAfter) && row.replaceCount == 0 && row.orderId.Some?
  }

  // ---- resuming ----

  /** The shares a cancelled order left. */
  function Outstanding(cancelled: Entry): real {
    if cancelled.remaining != 0.0 then cancelled.remaining else Max(cancelled.quantity - cancelled.filled, 0.0)
  }

  /** Whether a replace whose cancel was confirmed late may still be finished. */
  predicate Resumable(cancelled: Entry, now: real, cancelAfter: real) {
    && cancelled.filled <= QTY_EPS && Outstanding(cancelled) > QTY_EPS
    && cancelled.submittedAt.Some? && now - cancelled.submittedAt.value < cancelAfter
  }

  /** The row of a cancelled original whose replacement went out late. */
  function Resumed(cancelled: Entry, ref: Ref, placed: Snapshot, now: real): Entry {
    cancelled.(orderRef := ref, replacement := None, recovered := false).WithSnapshot(placed).(submittedAt := Some(now))
  }

  lemma ResumedRow(l: Ledger, os: seq<Order>, e: Entry, cancelled: Entry, s: Snapshot, placed: Snapshot, n: nat,
                   now: real)
    requires Inv(l, os) && e.key in l && l[e.key] == e && !e.Terminal() && e.replaceCount == 1
    requires cancelled == e.WithSnapshot(s)
    requires InFamily(os, e.key, n) && os[n].ref == Rep(e.key, 1)
    requires PlacementSnapshot(os[n], n, placed) || OpenSnapshotOf(os[n], n, placed)
    requires forall i | InFamily(os, e.key, i) && i != n :: !Live(os[i])
    ensures Admissible(l, os, Resumed(cancelled, Rep(e.key, 1), placed, now))
  {
    ReplacementRow(l, os, e, placed, n);
    CosmeticRow(l, os, Retargeted(e, placed, None, 1), Resumed(cancelled, Rep(e.key, 1), placed, now));
  }

  /** A row that no report matched is still open. */
  predicate AbsenceStaysOpen(updates: seq<ReconcileUpdate>) {
    forall j | 0 <= j < |updates| && !updates[j].matched :: !updates[j].entry.Terminal()
  }

  // ---- what a pass concludes of a row ----

  /** The row of an order whose cancel was requested. */
  function CancelPending(e: Entry): Entry {
    e.(state := CANCEL_PENDING, recovered := false)
  }

  predicate CancelDue(row: Entry, c: Settings, now: real) {
    Overdue(row, now, c.cancelAfter) && row.orderId.Some?
  }

  predicate ReplaceDue(row: Entry, c: Settings, now: real) {
    c.autoReplace && Replaceable(row, now, c.replaceAfter, c.cancelAfter)
  }

  predicate Gone(os: seq<Order>, id: nat) {
    id < |os| && !Live(os[id])
  }

  /** A due replacement for which a fresh quote allows a price. */
  predicate ReplacePriced(row: Entry, c: Settings, o: Outside, now: real) {
    ReplaceDue(row, c, now) && o.requoted(row.key) == Ok(true)
  }

  /** The row of a replacement that waits for the cancel of its original. */
  function Deferred(row: Entry): Entry {
    Intent(row).(state := CANCEL_PENDING, raw := PendingCancel, recovered := false)
  }

  predicate IsReplace(action: Action) {
    action.Replace? || action.ReplaceDeferred? || action.Closed?
  }

  /** How a replacement of a working order ends: it is placed, it waits for the cancel of the original, or
      the original filled meanwhile. */
  predicate ReplaceEnds(row: Entry, after: Entry, action: Action, now: real) {
    if action.ReplaceDeferred? then after == Deferred(row)
    else
      && (action.Replace? || action.Closed?) && after.replacement.None? && after.replaceCount == 1
      && after.orderRef == (if action.Replace? then Rep(row.key, 1) else row.orderRef)
      && (action.Replace? ==> after.submittedAt == Some(now))
  }

  /** Nothing is due, the overdue order is gone, or no fresh quote allows its replacement. */
  predicate MayRest(row: Entry, os: seq<Order>, c: Settings, o: Outside, now: real) {
    && (CancelDue(row, c, now) ==> Gone(os, row.orderId.value))
    && (ReplaceDue(row, c, now) ==> o.requoted(row.key) == Ok(false))
  }

  /** How following up on a reported row ends.  Nothing is done only if nothing was due, the overdue order
      was found gone, or no fresh quote allowed a replacement. */
  predicate FollowedUp(row: Entry, after: Entry, action: Action, os: seq<Order>, c: Settings, o: Outside, now: real) {
    if action.NoAction? then after == row && MayRest(row, os, c, o, now)
    else if action.Cancel? then CancelDue(row, c, now) && after == CancelPending(row)
    else ReplacePriced(row, c, o, now) && ReplaceEnds(row, after, action, now)
  }

  /** The row of the resumed replacement, which is placed exactly when it is not too late for it and a fresh
      quote gives a price. */
  predicate ResumesAs(e: Entry, cancelled: Entry, resumed: Option<Entry>, c: Settings, o: Outside, now: real) {
    && (resumed.Some? <==> Resumable(cancelled, now, c.cancelAfter) && o.requoted(e.key) == Ok(true))
    && (resumed.Some? ==>
          && e.replacement == Some(resumed.value.orderRef) && resumed.value.replacement.None?
          && resumed.value.submittedAt == Some(now))
  }

  /** The cancelled original of a reserved replacement: the replacement is placed exactly when it is not too
      late for it and a fresh quote gives a price, and else the row closes as reported. */
  predicate ResumedOrClosed(e: Entry, cancelled: Entry, action: Action, u: ReconcileUpdate, c: Settings, o: Outside,
                            now: real) {
    if Resumable(cancelled, now, c.cancelAfter) && o.requoted(e.key) == Ok(true) then
      && u.matched && u.action.Replace? && e.replacement == Some(u.entry.orderRef) && u.entry.replacement.None?
      && u.entry.submittedAt == Some(now)
    else u == ReconcileUpdate(cancelled.(replacement := None), action, true)
  }

  /** The open query lists the very order that the row names.  A reservation that was not placed is dropped
      once that order works again. */
  predicate NamedConcluded(e: Entry, reported: Entry, u: ReconcileUpdate, os: seq<Order>, c: Settings, o: Outside,
                           now: real) {
    if e.replacement.Some? && reported.state.CANCELLED? then ResumedOrClosed(e, reported, NoAction, u, c, o, now)
    else
      var row := if IsWorking(reported.state) then reported.(replacement := None) else reported;
      u.matched && FollowedUp(row, u.entry, u.action, os, c, o, now)
  }

  /** Completed history has the very order that the row names. */
  predicate DoneConcluded(e: Entry, reported: Entry, u: ReconcileUpdate, c: Settings, o: Outside, now: real) {
    if e.replacement.Some? && reported.state.CANCELLED? then ResumedOrClosed(e, reported, Closed, u, c, o, now)
    else u == ReconcileUpdate(reported.(replacement := None), Closed, true)
  }

  /** The row becomes that of its reserved replacement. */
  predicate Adopted(e: Entry, s: Snapshot, action: Action, u: ReconcileUpdate) {
    u == ReconcileUpdate(Retargeted(e, s, None, e.replaceCount), action, true)
  }

  /** Nothing reports the row. */
  predicate NothingConcluded(e: Entry, u: ReconcileUpdate) {
    if e.state.UNKNOWN? && e.raw.NotOpenUnverified? then u == ReconcileUpdate(e, NoAction, false)
    else u == ReconcileUpdate(CloseUnreported(e), Unverified, false)
  }

  /** Completed history decides. */
  predicate ClosedByHistory(e: Entry, m: Match, u: ReconcileUpdate, c: Settings, o: Outside, now: real) {
    match m
    case NoMatch => NothingConcluded(e, u)
    case Matched(s, true) => Adopted(e, s, Closed, u)
    case Matched(s, false) => DoneConcluded(e, e.WithSnapshot(s), u, c, o, now)
  }

  /** What a pass makes of one row on its reports; `os` are the orders afterwards. */
  predicate RowConcluded(e: Entry, open: seq<Snapshot>, completed: seq<Snapshot>, u: ReconcileUpdate, os: seq<Order>,
                         c: Settings, o: Outside, now: real) {
    if MatchSnapshot(e, open).Matched? then OpenConcluded(e, MatchSnapshot(e, open), u, os, c, o, now)
    else ClosedByHistory(e, MatchSnapshot(e, completed), u, c, o, now)
  }

  /** The open query has an order of the row. */
  predicate OpenConcluded(e: Entry, m: Match, u: ReconcileUpdate, os: seq<Order>, c: Settings, o: Outside, now: real)
    requires m.Matched?
  {
    if m.replacement then Adopted(e, m.snapshot, Action.Replace, u) else NamedConcluded(e, e.WithSnapshot(m.snapshot), u, os, c, o, now)
  }

  /** What may raise while a row is acted on: asking for a quote, acting at the broker, or an order that is
      done or has executed when it is to be replaced. */
  ghost predicate CanFail(key: Ref, os: seq<Order>, o: Outside) {
    !o.requoted(key).Ok? || o.acting(key).Raises? || exists i :: InFamily(os, key, i) && (!Live(os[i]) || os[i].filled > 0.0)
  }

  /** The outcome of one row: without history a row that is not open is left alone, a row that raised is
      still open, and the others are concluded. */
  ghost predicate RowDone(p: Sweep, e: Entry, u: ReconcileUpdate, os: seq<Order>, c: Settings, o: Outside, now: real) {
    && u.entry.key == e.key
    && if p.failed && MatchSnapshot(e, p.open).NoMatch? then u == ReconcileUpdate(e, Error, false)
       else if u.action.Error? then !u.matched && !u.entry.Terminal() && CanFail(e.key, os, o)
       else RowConcluded(e, p.open, p.completed, u, os, c, o, now)
  }

  /** The ledger has the row as it was concluded. */
  predicate Written(l: Ledger, u: ReconcileUpdate) {
    !u.action.Error? ==> u.entry.key in l && l[u.entry.key] == u.entry
  }

  /** The first `|updates|` rows of the pass are done, and the ledger has them. */
  ghost predicate PassDone(p: Sweep, updates: seq<ReconcileUpdate>, l: Ledger, os: seq<Order>, c: Settings, o: Outside,
                           now: real) {
    && |updates| <= |p.rows|
    && forall j | 0 <= j < |updates| :: RowDone(p, p.rows[j], updates[j], os, c, o, now) && Written(l, updates[j])
  }

  /** What is not open is not cancelled. */
  lemma HistoryNeverCancels(e: Entry, m: Match, u: ReconcileUpdate, c: Settings, o: Outside, now: real)
    requires ClosedByHistory(e, m, u, c, o, now)
    ensures !u.action.Cancel?
  {
  }

  /** Only an exception is reported as an error. */
  lemma NeverError(e: Entry, open: seq<Snapshot>, completed: seq<Snapshot>, u: ReconcileUpdate, os: seq<Order>,
                   c: Settings, o: Outside, now: real)
    requires RowConcluded(e, open, completed, u, os, c, o, now) && !e.Terminal()
    ensures !u.action.Error?
    ensures !u.matched ==> !u.entry.Terminal()
  {
  }

  /** An order that is listed with next to nothing left has executed. */
  lemma FewLeft(seen: seq<Order>, os: seq<Order>, os': seq<Order>, e: Entry, s: Snapshot, i: nat, o: Outside)
    requires AllSound(seen) && Later(seen, os) && Later(os, os') && i < |seen| && InFamily(seen, e.key, i)
    requires OpenSnapshotOf(seen[i], i, s)
    ensures e.WithSnapshot(s).remaining <= QTY_EPS ==> CanFail(e.key, os', o)
  {
    assert Sound(seen[i]) && Moves(seen[i], os[i]) && Moves(os[i], os'[i]);
    assert InFamily(os', e.key, i);
  }

  /** The pass ran and no row of it raised. */
  ghost predicate CleanPass(p: Sweep, updates: seq<ReconcileUpdate>, l: Ledger, l': Ledger, os: seq<Order>, c: Settings,
                            o: Outside, now: real) {
    && ListsOpen(p.rows, l) && |updates| == |p.rows| && PassDone(p, updates, l', os, c, o, now)
    && forall j | 0 <= j < |updates| :: !updates[j].action.Error?
  }

  /** The open query listed an order that no open row carries. */
  ghost predicate Uncarried(listed: seq<Snapshot>, l: Ledger, os: seq<Order>) {
    OpenReport(os, listed) && exists s :: s in listed && !CoveredBy(l, s)
  }

  /** The pass raised, or some row of it did. */
  ghost predicate UncleanPass(p: Sweep, updates: seq<ReconcileUpdate>, l: Ledger, os: seq<Order>, c: Settings,
                              o: Outside, now: real) {
    || o.openQuery.Raises? || (c.ibkr && Uncarried(p.open, l, os))
    || exists j :: 0 <= j < |updates| && updates[j].action.Error?
  }

  /** How the stale-order check came to its answer: whether the refresh was complete, its pass and what that
      concluded, and the state it led to. */
  datatype StaleCheck = StaleCheck(complete: bool, blocks: bool, sweep: Sweep, updates: seq<ReconcileUpdate>, refreshed: State)

  /** After a clean pass the check blocks exactly when some open row is foreign, and changes nothing but to
      cancel those; otherwise it blocks, and only a pass that was not clean is a reason. */
  ghost predicate Checked(k: StaleCheck, l: Ledger, after: State, session: string, run: string, c: Settings, o: Outside,
                          now: real) {
    if k.complete then
      && CleanPass(k.sweep, k.updates, l, k.refreshed.ledger, k.refreshed.orders, c, o, now)
      && (k.blocks <==> !OpenOnly(after.ledger, run, session)) && Drifted(k.refreshed.orders, after.orders)
      && OnlyCancels(k.refreshed.ledger, after.ledger, after.orders, session, run, c)
    else k.blocks && k.refreshed == after && UncleanPass(k.sweep, k.updates, l, after.orders, c, o, now)
  }

  lemma FollowedUpLater(row: Entry, after: Entry, action: Action, os: seq<Order>, os': seq<Order>, c: Settings,
                        o: Outside, now: real)
    requires FollowedUp(row, after, action, os, c, o, now) && Later(os, os')
    ensures FollowedUp(row, after, action, os', c, o, now)
  {
    if CancelDue(row, c, now) && Gone(os, row.orderId.value) {
      assert Moves(os[row.orderId.value], os'[row.orderId.value]);
    }
  }

  lemma CanFailLater(key: Ref, os: seq<Order>, os': seq<Order>, o: Outside)
    requires CanFail(key, os, o) && Later(os, os')
    ensures CanFail(key, os', o)
  {
    if i :| InFamily(os, key, i) && (!Live(os[i]) || os[i].filled > 0.0) {
      assert Moves(os[i], os'[i]) && InFamily(os', key, i);
    }
  }

  lemma RowDoneLater(p: Sweep, e: Entry, u: ReconcileUpdate, os: seq<Order>, os': seq<Order>, c: Settings, o: Outside,
                     now: real)
    requires RowDone(p, e, u, os, c, o, now) && Later(os, os')
    ensures RowDone(p, e, u, os', c, o, now)
  {
    if u.action.Error? {
      if !(p.failed && MatchSnapshot(e, p.open).NoMatch?) {
        CanFailLater(e.key, os, os', o);
      }
    } else {
      var m := MatchSnapshot(e, p.open);
      if m.Matched? && !m.replacement {
        NamedLater(e, e.WithSnapshot(m.snapshot), u, os, os', c, o, now);
      }
    }
  }

  lemma NamedLater(e: Entry, reported: Entry, u: ReconcileUpdate, os: seq<Order>, os': seq<Order>, c: Settings,
                   o: Outside, now: real)
    requires NamedConcluded(e, reported, u, os, c, o, now) && Later(os, os')
    ensures NamedConcluded(e, reported, u, os', c, o, now)
  {
    if !(e.replacement.Some? && reported.state.CANCELLED?) {
      var row := if IsWorking(reported.state) then reported.(replacement := None) else reported;
      FollowedUpLater(row, u.entry, u.action, os, os', c, o, now);
    }
  }

  lemma PassNext(p: Sweep, updates: seq<ReconcileUpdate>, l: Ledger, os: seq<Order>, l': Ledger, os': seq<Order>,
                 u: ReconcileUpdate, c: Settings, o: Outside, now: real)
    requires PassDone(p, updates, l, os, c, o, now) && |updates| < |p.rows|
    requires forall i, j | 0 <= i < j < |p.rows| :: p.rows[i].key != p.rows[j].key
    requires forall i | 0 <= i < |p.rows| :: p.rows[i].key.Root?
    requires StepsIn(Both(p.rows[|updates|].key), l, os, l', os')
    requires RowDone(p, p.rows[|updates|], u, os', c, o, now) && Written(l', u)
    ensures PassDone(p, updates + [u], l', os', c, o, now)
  {
    forall j | 0 <= j < |updates| ensures RowDone(p, p.rows[j], updates[j], os', c, o, now) && Written(l', updates[j]) {
      RowDoneLater(p, p.rows[j], updates[j], os, os', c, o, now);
      assert p.rows[j].key != p.rows[|updates|].key;
    }
  }

  // ---- what that means ----

  /** Some report is of the order that the row names or of its reserved replacement. */
  predicate ReportedIn(e: Entry, snapshots: seq<Snapshot>) {
    exists s :: s in snapshots && (s.ref == e.orderRef || Some(s.ref) == e.replacement)
  }

  lemma MatchedIsReported(e: Entry, os: seq<Order>, snapshots: seq<Snapshot>)
    requires RowOK(e.key, e, os) && !e.Terminal() && AllSound(os) && TruthfulReport(os, snapshots)
    ensures MatchSnapshot(e, snapshots).Matched? <==> ReportedIn(e, snapshots)
  {
    LaterReflexive(os);
    MatchIsByRef(e, os, os, snapshots);
  }

  /** Of every row that did not raise: it is matched exactly when a report is of an order of it; when only
      completed history has that, it is closed or becomes the row of its reserved replacement; when nothing
      has, it stays open as unknown; and the ledger says what the update says. */
  lemma PassMeans(p: Sweep, updates: seq<ReconcileUpdate>, l: Ledger, os: seq<Order>, l': Ledger, os': seq<Order>,
                  c: Settings, o: Outside, now: real, j: nat)
    requires Inv(l, os) && SweepOf(p, l, os, os') && PassDone(p, updates, l', os', c, o, now)
    requires j < |updates| && !updates[j].action.Error?
    ensures var e, u := p.rows[j], updates[j];
            && (u.matched <==> ReportedIn(e, p.open) || ReportedIn(e, p.completed))
            && (u.matched && !ReportedIn(e, p.open) ==> u.entry.Terminal() || Some(u.entry.orderRef) == e.replacement)
            && (!u.matched ==> u.entry.state.UNKNOWN? && u.entry.raw.NotOpenUnverified?)
            && e.key in l' && l'[e.key] == u.entry
  {
    var e, u := p.rows[j], updates[j];
    assert e in p.rows && RowDone(p, e, u, os', c, o, now);
    ListedRow(p, l, os, os', e);
    MatchedIsReported(e, p.seenOpen, p.open);
    MatchedIsReported(e, p.seenDone, p.completed);
    var m := MatchSnapshot(e, p.completed);
    if m.Matched? {
      ReportedDone(p, e, m.snapshot, m.replacement);
    }
    ConcludedMeans(e, p.open, p.completed, u, os', c, o, now);
  }

  lemma ConcludedMeans(e: Entry, open: seq<Snapshot>, completed: seq<Snapshot>, u: ReconcileUpdate, os: seq<Order>,
                       c: Settings, o: Outside, now: real)
    requires RowConcluded(e, open, completed, u, os, c, o, now) && !e.Terminal()
    requires match MatchSnapshot(e, completed)
             case Matched(s, _) => e.WithSnapshot(s).Terminal()
             case NoMatch => true
    ensures u.matched <==> MatchSnapshot(e, open).Matched? || MatchSnapshot(e, completed).Matched?
    ensures u.matched && MatchSnapshot(e, open).NoMatch? ==> u.entry.Terminal() || Some(u.entry.orderRef) == e.replacement
    ensures !u.matched ==> u.entry.state.UNKNOWN? && u.entry.raw.NotOpenUnverified?
  {
  }

  lemma ListedRow(p: Sweep, l: Ledger, os: seq<Order>, os': seq<Order>, e: Entry)
    requires Inv(l, os) && SweepOf(p, l, os, os') && e in p.rows
    ensures !e.Terminal() && RowOK(e.key, e, p.seenOpen) && RowOK(e.key, e, p.seenDone)
    ensures TruthfulReport(p.seenOpen, p.open) && TruthfulReport(p.seenDone, p.completed)
    ensures OpenReport(p.seenOpen, p.open) && CompletedReport(p.seenDone, p.completed)
  {
    assert e.key in l && l[e.key] == e && RowOK(e.key, l[e.key], os);
    RowOKDrifts(e.key, e, os, p.seenOpen);
    RowOKDrifts(e.key, e, p.seenOpen, p.seenDone);
    ReportsAreTruthful(p.seenOpen, p.open);
    ReportsAreTruthful(p.seenDone, p.completed);
  }

  /** A row that completed history reports is done. */
  lemma ReportedDone(p: Sweep, e: Entry, s: Snapshot, replacement: bool)
    requires RowOK(e.key, e, p.seenDone) && !e.Terminal() && AllSound(p.seenDone)
    requires CompletedReport(p.seenDone, p.completed)
    requires MatchSnapshot(e, p.completed) == Matched(s, replacement)
    ensures e.WithSnapshot(s).Terminal()
  {
    ReportsAreTruthful(p.seenDone, p.completed);
    LaterReflexive(p.seenDone);
    MatchIsByRef(e, p.seenDone, p.seenDone, p.completed);
    var i :| 0 <= i < |p.seenDone| && CompletedSnapshotOf(p.seenDone[i], i, s) && IsDone(p.seenDone[i].status);
    SnapshotReports(e, p.seenDone[i], s);
  }

  // ---- when a resume is guarded ----

  /** Nothing has executed, or can, under the reserved ref. */
  ghost predicate ReservationUnused(e: Entry, os: seq<Order>) {
    e.replacement.Some? ==> Unused(os, e.replacement.value)
  }

  /** Assumed of the broker: completed history has every executed order under the ref.  Where history was
      not asked for, that there is none. */
  ghost predicate HistoryWhole(seen: seq<Order>, completed: seq<Snapshot>, ref: Ref) {
    forall i | 0 <= i < |seen| && seen[i].ref == ref && IsDone(seen[i].status) && seen[i].filled > 0.0 ::
      exists s :: s in completed && CompletedSnapshotOf(seen[i], i, s)
  }

  /** What a pass can look up: completed history has no executed order under the ref. */
  predicate HistoryClear(completed: seq<Snapshot>, ref: Ref) {
    forall s | s in completed && s.ref == ref :: s.filled == 0.0
  }

  /** Nothing that is done has executed under the ref. */
  predicate NoneExecuted(seen: seq<Order>, ref: Ref) {
    forall i | 0 <= i < |seen| && seen[i].ref == ref && IsDone(seen[i].status) :: seen[i].filled == 0.0
  }

  /** If history is whole, looking it up tells exactly whether anything has executed. */
  lemma ClearMeansUnexecuted(seen: seq<Order>, completed: seq<Snapshot>, ref: Ref)
    requires AllSound(seen) && CompletedReport(seen, completed) && HistoryWhole(seen, completed, ref)
    ensures HistoryClear(completed, ref) <==> NoneExecuted(seen, ref)
  {
    if HistoryClear(completed, ref) {
      forall i | 0 <= i < |seen| && seen[i].ref == ref && IsDone(seen[i].status) ensures seen[i].filled == 0.0 {
        assert Sound(seen[i]);
      }
    }
  }

  /** The row may be resumed: the open query lists its order as cancelled, or lists nothing of it and
      completed history could be read. */
  ghost predicate MayResume(e: Entry, open: seq<Snapshot>, failed: bool) {
    e.replacement.Some? && (ListsCancelled(e, open) || (MatchSnapshot(e, open).NoMatch? && !failed))
  }

  /** The check that a resume needs. */
  ghost predicate ResumeChecked(e: Entry, open: seq<Snapshot>, completed: seq<Snapshot>, failed: bool) {
    MayResume(e, open, failed) ==> HistoryClear(completed, e.replacement.value)
  }

  /** What the check relies on. */
  ghost predicate ResumeSeesAll(e: Entry, open: seq<Snapshot>, completed: seq<Snapshot>, failed: bool,
                                seen: seq<Order>) {
    MayResume(e, open, failed) ==> HistoryWhole(seen, completed, e.replacement.value)
  }

  ghost predicate ResumeGuard(e: Entry, open: seq<Snapshot>, completed: seq<Snapshot>, failed: bool, seen: seq<Order>) {
    ResumeChecked(e, open, completed, failed) && ResumeSeesAll(e, open, completed, failed, seen)
  }

  ghost predicate ListsCancelled(e: Entry, open: seq<Snapshot>) {
    exists s :: s in open && s.ref == e.orderRef && IsCancelled(s.status)
  }

  /** One reconcile pass: the rows it went through and the reports it went by. */
  datatype Sweep = Sweep(rows: seq<Entry>, open: seq<Snapshot>, completed: seq<Snapshot>, failed: bool,
                         seenOpen: seq<Order>, seenDone: seq<Order>)

  /** The pass checked completed history before every resume. */
  ghost predicate SweepChecked(p: Sweep) {
    forall i | 0 <= i < |p.rows| :: ResumeChecked(p.rows[i], p.open, p.completed, p.failed)
  }

  /** What the pass read was whole wherever it matters. */
  ghost predicate SweepSeesAll(p: Sweep) {
    forall i | 0 <= i < |p.rows| :: ResumeSeesAll(p.rows[i], p.open, p.completed, p.failed, p.seenDone)
  }

  ghost predicate SweepGuarded(p: Sweep) {
    SweepChecked(p) && SweepSeesAll(p)
  }

  /** The pass happened between two states: its rows were the open rows, and its reports were true. */
  ghost predicate SweepOf(p: Sweep, l: Ledger, os: seq<Order>, os': seq<Order>) {
    p.rows == [] || (ListsOpen(p.rows, l) && OpenReport(p.seenOpen, p.open) && CompletedReport(p.seenDone, p.completed)
                     && Drifted(os, p.seenOpen) && Drifted(p.seenOpen, p.seenDone) && Later(p.seenDone, os'))
  }

  /** The guard means that the reservation is unused: an order under it that still lived would have been
      listed as open, and one that executed and is done would be in completed history. */
  lemma GuardMeansUnused(l: Ledger, os: seq<Order>, e: Entry, open: seq<Snapshot>, seenOpen: seq<Order>,
                         completed: seq<Snapshot>, seenDone: seq<Order>)
    requires Inv(l, os) && e.key in l && l[e.key] == e && !e.Terminal()
    requires OpenReport(seenOpen, open) && Since(seenOpen, os, e.key) && MatchSnapshot(e, open).NoMatch?
    requires Drifted(seenOpen, seenDone) && Later(seenDone, os)
    requires ResumeGuard(e, open, completed, false, seenDone)
    ensures ReservationUnused(e, os)
  {
    if e.replacement.Some? {
      var ref := e.replacement.value;
      assert RowOK(e.key, e, os) && RootOf(ref) == RootOf(e.key);
      UnmatchedIsUnlisted(os, seenOpen, e, open);
      UnlistedIsDone(seenOpen, open, ref);
      UnusedMeans(os, ref);
      forall i | 0 <= i < |os| && os[i].ref == ref ensures Idle(os[i]) {
        assert i < |seenOpen| && Moves(seenOpen[i], os[i]) && Moves(seenOpen[i], seenDone[i]) && Moves(seenDone[i], os[i]);
        ExecutedIsListed(seenDone, completed, ref, i);
      }
    }
  }

  lemma UnlistedIsDone(seen: seq<Order>, open: seq<Snapshot>, ref: Ref)
    requires OpenReport(seen, open) && !Lists(open, ref)
    ensures NoneLive(seen, ref)
  {
    forall i | 0 <= i < |seen| && Live(seen[i]) ensures Lists(open, seen[i].ref) {
      LiveIsListed(seen, open, i);
    }
  }

  lemma ExecutedIsListed(seen: seq<Order>, completed: seq<Snapshot>, ref: Ref, i: nat)
    requires HistoryWhole(seen, completed, ref) && HistoryClear(completed, ref)
    requires i < |seen| && seen[i].ref == ref && IsDone(seen[i].status)
    ensures seen[i].filled <= 0.0
  {
  }

  /** A cancelled order is listed as open only when nothing of its family lives; what executed under the
      reservation is then in completed history. */
  lemma OpenGuard(l: Ledger, os: seq<Order>, e: Entry, s: Snapshot, i: nat, open: seq<Snapshot>, seenOpen: seq<Order>,
                  completed: seq<Snapshot>, failed: bool, seenDone: seq<Order>)
    requires Inv(l, os) && e.key in l && l[e.key] == e && !e.Terminal()
    requires Since(seenOpen, os, e.key) && Drifted(seenOpen, seenDone) && Later(seenDone, os) && AllSound(seenOpen)
    requires s in open && s.ref == e.orderRef && i < |seenOpen| && OpenSnapshotOf(seenOpen[i], i, s)
    requires Live(seenOpen[i]) || FamilyIdle(seenOpen, e.key)
    requires ResumeGuard(e, open, completed, failed, seenDone)
    ensures e.WithSnapshot(s).state.CANCELLED? ==> ReservationUnused(e, os)
  {
    if e.WithSnapshot(s).state.CANCELLED? && e.replacement.Some? {
      SnapshotReports(e, seenOpen[i], s);
      assert ListsCancelled(e, open);
      var ref := e.replacement.value;
      assert RowOK(e.key, e, os) && RootOf(ref) == RootOf(e.key);
      UnusedMeans(os, ref);
      forall n | 0 <= n < |os| && os[n].ref == ref ensures Idle(os[n]) {
        assert n < |seenOpen| && Moves(seenOpen[n], os[n]) && Moves(seenOpen[n], seenDone[n]) && Moves(seenDone[n], os[n]);
        ExecutedIsListed(seenDone, completed, ref, n);
      }
    }
  }

  /** What a resume of the row needs of the reservation, given what the open query lists of the row. */
  ghost predicate ResumeSafe(e: Entry, m: Match, os: seq<Order>) {
    match m
    case NoMatch => ReservationUnused(e, os)
    case Matched(s, replacement) => !replacement && e.WithSnapshot(s).state.CANCELLED? ==> ReservationUnused(e, os)
  }

  lemma GuardMakesSafe(l: Ledger, os: seq<Order>, e: Entry, open: seq<Snapshot>, seenOpen: seq<Order>,
                       completed: seq<Snapshot>, failed: bool, seenDone: seq<Order>)
    requires Inv(l, os) && e.key in l && l[e.key] == e && !e.Terminal()
    requires OpenReport(seenOpen, open) && OrdersOK(seenOpen) && Since(seenOpen, os, e.key)
    requires Drifted(seenOpen, seenDone) && Later(seenDone, os)
    ensures ResumeGuard(e, open, completed, failed, seenDone) ==>
              (failed && MatchSnapshot(e, open).NoMatch?) || ResumeSafe(e, MatchSnapshot(e, open), os)
  {
    if ResumeGuard(e, open, completed, failed, seenDone) && !(failed && MatchSnapshot(e, open).NoMatch?) {
      var m := MatchSnapshot(e, open);
      if m.NoMatch? {
        GuardMeansUnused(l, os, e, open, seenOpen, completed, seenDone);
      } else if !m.replacement {
        var i := OpenMatch(l, os, seenOpen, e, open);
        assert RowOK(e.key, e, os);
        ReportsAreTruthful(seenOpen, open);
        MatchIsByRef(e, os, seenOpen, open);
        OpenGuard(l, os, e, m.snapshot, i, open, seenOpen, completed, failed, seenDone);
      }
    }
  }

  lemma SweepMakesSafe(p: Sweep, i: nat, l: Ledger, os: seq<Order>)
    requires i < |p.rows| && Inv(l, os) && QueuedRow(l, os, p.rows[i], p.seenOpen)
    requires OpenReport(p.seenOpen, p.open) && OrdersOK(p.seenOpen) && Drifted(p.seenOpen, p.seenDone)
    requires Later(p.seenDone, os)
    ensures SweepGuarded(p) ==>
              (p.failed && MatchSnapshot(p.rows[i], p.open).NoMatch?) || ResumeSafe(p.rows[i], MatchSnapshot(p.rows[i], p.open), os)
  {
    GuardMakesSafe(l, os, p.rows[i], p.open, p.seenOpen, p.completed, p.failed, p.seenDone);
  }

  /** How far a pass got: the rows from the `n`th on are as they were loaded. */
  ghost predicate Swept(p: Sweep, n: nat, l0: Ledger, o0: seq<Order>, l: Ledger, os: seq<Order>) {
    && OpenReport(p.seenOpen, p.open) && OrdersOK(p.seenOpen) && CompletedReport(p.seenDone, p.completed)
    && Drifted(p.seenOpen, p.seenDone) && Later(p.seenDone, os)
    && StepsIn(RowRefs(p.rows), l0, o0, l, os) && Queued(l, os, p.rows, n, p.seenOpen)
    && (forall i | 0 <= i < |p.rows| :: p.rows[i].key.Root?)
    && (SweepGuarded(p) ==> KeepsGuard(o0, os)) && Firsts(os) == Firsts(o0)
  }

  lemma SweptNext(p: Sweep, n: nat, l0: Ledger, o0: seq<Order>, l: Ledger, os: seq<Order>, l': Ledger, os': seq<Order>)
    requires Swept(p, n, l0, o0, l, os) && n < |p.rows| && StepsIn(Both(p.rows[n].key), l, os, l', os')
    requires SweepGuarded(p) ==> KeepsGuard(os, os')
    requires Firsts(os') == Firsts(os)
    ensures Swept(p, n + 1, l0, o0, l', os')
  {
    LaterTransitive(p.seenDone, os, os');
    StepsInWidens(Both(p.rows[n].key), RowRefs(p.rows), l, os, l', os');
    StepsInTransitive(RowRefs(p.rows), l0, o0, l, os, l', os');
    QueuedNext(p.rows, n, p.seenOpen, l, os, l', os');
  }

  /** One more row, concluded or raised. */
  lemma SweptRow(p: Sweep, updates: seq<ReconcileUpdate>, l: Ledger, os: seq<Order>, l': Ledger, os': seq<Order>,
                 u: ReconcileUpdate, c: Settings, o: Outside, now: real)
    requires PassDone(p, updates, l, os, c, o, now) && AbsenceStaysOpen(updates) && |updates| < |p.rows|
    requires forall i, j | 0 <= i < j < |p.rows| :: p.rows[i].key != p.rows[j].key
    requires forall i | 0 <= i < |p.rows| :: p.rows[i].key.Root?
    requires StepsIn(Both(p.rows[|updates|].key), l, os, l', os')
    requires var e := p.rows[|updates|];
             && u.entry.key == e.key && !(p.failed && MatchSnapshot(e, p.open).NoMatch?) && (!u.matched ==> !u.entry.Terminal())
             && if u.action.Error? then !u.matched && CanFail(e.key, os', o)
                else RowConcluded(e, p.open, p.completed, u, os', c, o, now) && e.key in l' && l'[e.key] == u.entry
    ensures PassDone(p, updates + [u], l', os', c, o, now) && AbsenceStaysOpen(updates + [u])
  {
    PassNext(p, updates, l, os, l', os', u, c, o, now);
  }

  /** One more row, of which nothing is known without history. */
  lemma SweptUnread(p: Sweep, updates: seq<ReconcileUpdate>, l0: Ledger, o0: seq<Order>, l: Ledger, os: seq<Order>,
                    u: ReconcileUpdate, c: Settings, o: Outside, now: real)
    requires PassDone(p, updates, l, os, c, o, now) && AbsenceStaysOpen(updates) && |updates| < |p.rows|
    requires Swept(p, |updates|, l0, o0, l, os) && AllSound(os)
    requires p.failed && MatchSnapshot(p.rows[|updates|], p.open).NoMatch?
    requires u == ReconcileUpdate(p.rows[|updates|], Error, false)
    ensures PassDone(p, updates + [u], l, os, c, o, now) && AbsenceStaysOpen(updates + [u])
    ensures Swept(p, |updates| + 1, l0, o0, l, os)
  {
    StepsInReflexive(Both(p.rows[|updates|].key), l, os);
    SweptNext(p, |updates|, l0, o0, l, os, l, os);
    PassNext(p, updates, l, os, l, os, u, c, o, now);
  }

  lemma SweepLater(p: Sweep, l: Ledger, os: seq<Order>, mid: seq<Order>, os': seq<Order>)
    requires SweepOf(p, l, os, mid) && Later(mid, os')
    ensures SweepOf(p, l, os, os')
  {
    if p.rows != [] {
      LaterTransitive(p.seenDone, mid, os');
    }
  }

  lemma SweepEarlier(p: Sweep, l: Ledger, before: seq<Order>, os: seq<Order>, os': seq<Order>)
    requires Drifted(before, os) && SweepOf(p, l, os, os')
    ensures SweepOf(p, l, before, os')
  {
    if p.rows != [] {
      DriftTransitive(before, os, p.seenOpen);
    }
  }

  /** The one replacement of a family that had none is guarded. */
  lemma GuardAfterReplace(os: seq<Order>, os': seq<Order>, key: Ref, replaced: bool)
    requires OrdersOK(os) && key.Root? && NoReplacements(os, key)
    requires if replaced then |os| < |os'| && Placed(os, os', Rep(key, 1), os'[|os|].total) else Drifted(os, os')
    ensures KeepsGuard(os, os') && Firsts(os') == Firsts(os)
  {
    if replaced {
      forall i | 0 <= i < |os| ensures os[i].ref != Rep(key, 1) {
        assert RootOf(Rep(key, 1)) == RootOf(key);
        assert InFamily(os, key, i) ==> os[i].ref == key;
      }
      UnusedMeans(os, Rep(key, 1));
      GuardedPlaces(os, os', Rep(key, 1), os'[|os|].total);
      FirstsPlaced(os, os', Rep(key, 1), os'[|os|].total);
    } else {
      GuardedDrifts(os, os');
    }
  }
}
