/** The invariant that ties the durable ledger to the broker's orders, and the lemmas that carry it
    across one ledger write, one placement, or the passage of time. */
module LedgerInvariant {
  import opened Models
  import opened OrderLifecycle
  import opened BrokerModel

  /** The shape of a row: its key names its run, ticker and side, it has been replaced at most once,
      and `orderRef`/`replacement` name the original or its single replacement. */
  predicate RowShape(key: Ref, row: Entry) {
    && key.Root? && row.key == key
    && key.run == row.run && key.ticker == row.ticker && key.side == row.side
    && row.replaceCount <= 1
    && (row.orderRef == key || (row.orderRef == Rep(key, 1) && row.replacement.None?))
    && (row.replacement == None || row.replacement == Some(Rep(key, 1)))
    && (row.replaceCount == 0 ==> row.orderRef == key && row.replacement.None?)
    && (row.replaceCount == 1 ==> row.orderId.Some?)
  }

  /** What a row may say while the broker holds `order` of its family. */
  predicate Admits(key: Ref, row: Entry, order: Order) {
    && !row.state.PLANNED? && !Retryable(row)
    && order.total <= row.quantity
    && (order.ref == Rep(key, 1) ==> row.replaceCount == 1)
    && (order.ref == Rep(key, 1) && !row.Terminal() ==> row.orderRef == order.ref || row.replacement == Some(order.ref))
    && (Working(order) ==> !row.Terminal() && (row.orderRef == order.ref || row.replacement == Some(order.ref)))
  }

  predicate InFamily(orders: seq<Order>, key: Ref, i: int) {
    0 <= i < |orders| && RootOf(orders[i].ref) == key
  }

  ghost predicate Unplaced(orders: seq<Order>, key: Ref) {
    forall i :: !InFamily(orders, key, i)
  }

  /** A terminal row rests on a broker report, or on a failure that left nothing at the broker. */
  ghost predicate TerminalProven(key: Ref, row: Entry, orders: seq<Order>) {
    match row.state
    case FILLED => exists i :: InFamily(orders, key, i) && orders[i].ref == row.orderRef && orders[i].total - orders[i].filled <= QTY_EPS
    case CANCELLED => exists i :: InFamily(orders, key, i) && orders[i].ref == row.orderRef && IsCancelled(orders[i].status)
    case REJECTED =>
      || (IsSubmissionFailure(row.raw) && row.orderId.None? && Unplaced(orders, key))
      || exists i :: InFamily(orders, key, i) && orders[i].ref == row.orderRef && orders[i].status.Inactive?
    case EXPIRED => false
    case _ => true
  }

  /** An id on a row is the id of an order of its family; on an open row, of the order it names. */
  predicate Identifies(key: Ref, row: Entry, orders: seq<Order>, id: nat) {
    InFamily(orders, key, id) && (!row.Terminal() ==> orders[id].ref == row.orderRef)
  }

  ghost predicate RowOK(key: Ref, row: Entry, orders: seq<Order>) {
    && RowShape(key, row)
    && (forall i | InFamily(orders, key, i) :: Admits(key, row, orders[i]))
    && (row.orderId.Some? ==> Identifies(key, row, orders, row.orderId.value))
    && (row.permId.Some? && row.permId.value != 0 ==> Identifies(key, row, orders, row.permId.value - 1))
    && (Unplaced(orders, key) ==> row.filled == 0.0)
    && TerminalProven(key, row, orders)
  }

  /** An original orderRef or the first replacement of one. */
  predicate FamilyRef(ref: Ref) {
    ref.Root? || (ref.base.Root? && ref.n == 1)
  }

  /** A family has two possible refs. */
  lemma FamilyHasTwoRefs(orders: seq<Order>, key: Ref, i: int)
    requires OrdersOK(orders) && InFamily(orders, key, i)
    ensures key.Root? && (orders[i].ref == key || orders[i].ref == Rep(key, 1))
  {
    var ref := orders[i].ref;
    assert FamilyRef(ref);
    if ref.Rep? {
      assert RootOf(ref.base) == ref.base;
    }
  }

  /** Two different orders share a ref only as replacements, and the earlier one was done before the
      later one was placed. */
  predicate Coexist(earlier: Order, later: Order) {
    earlier.ref == later.ref ==> earlier.ref.Rep? && !Live(earlier)
  }

  /** The orders of one family: one original, and replacements only after it was cancelled, for no
      more than it left, at most one of them live. */
  ghost predicate OrdersOK(orders: seq<Order>) {
    && AllSound(orders)
    && (forall i | 0 <= i < |orders| :: FamilyRef(orders[i].ref))
    && (forall i, j | 0 <= i < j < |orders| :: Coexist(orders[i], orders[j]))
    && (forall i | 0 <= i < |orders| && orders[i].ref.Rep? :: HasOriginal(orders, i))
  }

  ghost predicate HasOriginal(orders: seq<Order>, i: int) {
    exists j :: Succeeds(orders, i, j)
  }

  /** Order `i` replaces order `j`. */
  predicate Succeeds(orders: seq<Order>, i: int, j: int) {
    && 0 <= i < |orders| && 0 <= j < |orders|
    && orders[j].ref == RootOf(orders[i].ref)
    && IsCancelled(orders[j].status)
    && orders[i].total + orders[j].filled <= orders[j].total
  }

  ghost predicate Known(ledger: Ledger, orders: seq<Order>) {
    forall i | 0 <= i < |orders| :: RootOf(orders[i].ref) in ledger
  }

  /** All open rows belong to one run of one session. */
  ghost predicate OneRun(ledger: Ledger) {
    forall k, m | k in ledger && m in ledger && !ledger[k].Terminal() && !ledger[m].Terminal() ::
      ledger[k].run == ledger[m].run && ledger[k].session == ledger[m].session
  }

  /** A run has one ledger key per ticker and side. */
  ghost predicate OneKeyPerTrade(ledger: Ledger) {
    forall k, m | k in ledger && m in ledger
                  && ledger[k].run == ledger[m].run && ledger[k].ticker == ledger[m].ticker && ledger[k].side == ledger[m].side ::
      k == m
  }

  ghost predicate RowsOK(ledger: Ledger, orders: seq<Order>) {
    forall k | k in ledger :: RowOK(k, ledger[k], orders)
  }

  /** What outlives a process. */
  datatype State = State(ledger: Ledger, orders: seq<Order>)

  ghost predicate Inv(ledger: Ledger, orders: seq<Order>) {
    && OrdersOK(orders)
    && Known(ledger, orders)
    && RowsOK(ledger, orders)
    && OneRun(ledger)
    && OneKeyPerTrade(ledger)
  }

  // ---- what no step undoes ----

  /** A row that no retry may reopen. */
  predicate Settled(row: Entry) {
    row.Terminal() && !Retryable(row)
  }

  predicate Absorbs(before: Entry, after: Entry) {
    && (Settled(before) ==> Settled(after) && after.state == before.state && after.orderRef == before.orderRef)
    && before.replaceCount <= after.replaceCount
  }

  ghost predicate RowsAbsorb(before: Ledger, after: Ledger) {
    forall k | k in before :: k in after && Absorbs(before[k], after[k])
  }

  /** A later state of the same system. */
  ghost predicate Follows(l: Ledger, os: seq<Order>, l': Ledger, os': seq<Order>) {
    RowsAbsorb(l, l') && Later(os, os')
  }

  lemma FollowsTransitive(l: Ledger, a: seq<Order>, l': Ledger, b: seq<Order>, l'': Ledger, c: seq<Order>)
    requires Follows(l, a, l', b) && Follows(l', b, l'', c)
    ensures Follows(l, a, l'', c)
  {
    LaterTransitive(a, b, c);
    forall k | k in l ensures k in l'' && Absorbs(l[k], l''[k]) {
      assert Absorbs(l[k], l'[k]) && Absorbs(l'[k], l''[k]);
    }
  }

  // ---- time passes ----

  lemma RowOKDrifts(key: Ref, row: Entry, os: seq<Order>, os': seq<Order>)
    requires RowOK(key, row, os) && Drifted(os, os')
    ensures RowOK(key, row, os')
  {
    assert forall i | 0 <= i < |os| :: Moves(os[i], os'[i]);
    assert forall i :: InFamily(os', key, i) <==> InFamily(os, key, i);
    match row.state {
      case FILLED =>
        var i :| InFamily(os, key, i) && os[i].ref == row.orderRef && os[i].total - os[i].filled <= QTY_EPS;
        assert InFamily(os', key, i);
      case CANCELLED =>
        var i :| InFamily(os, key, i) && os[i].ref == row.orderRef && IsCancelled(os[i].status);
        assert InFamily(os', key, i);
      case REJECTED =>
        if !(IsSubmissionFailure(row.raw) && row.orderId.None? && Unplaced(os, key)) {
          var i :| InFamily(os, key, i) && os[i].ref == row.orderRef && os[i].status.Inactive?;
          assert InFamily(os', key, i);
        }
      case _ =>
    }
  }

  lemma OrdersOKDrifts(os: seq<Order>, os': seq<Order>)
    requires OrdersOK(os) && Drifted(os, os')
    ensures OrdersOK(os')
  {
    forall i, j | 0 <= i < j < |os'| ensures Coexist(os'[i], os'[j]) {
      assert Coexist(os[i], os[j]) && Moves(os[i], os'[i]) && Moves(os[j], os'[j]);
    }
    forall i | 0 <= i < |os'| && os'[i].ref.Rep? ensures HasOriginal(os', i) {
      assert Moves(os[i], os'[i]) && HasOriginal(os, i);
      var j :| Succeeds(os, i, j);
      assert Moves(os[j], os'[j]);
      assert Succeeds(os', i, j);
    }
  }

  lemma InvDrifts(l: Ledger, os: seq<Order>, os': seq<Order>)
    requires Inv(l, os) && Drifted(os, os')
    ensures Inv(l, os') && Follows(l, os, l, os')
  {
    OrdersOKDrifts(os, os');
    assert forall i | 0 <= i < |os| :: Moves(os[i], os'[i]);
    forall k | k in l ensures RowOK(k, l[k], os') {
      RowOKDrifts(k, l[k], os, os');
    }
  }

  // ---- one ledger write ----

  /** Writing one row keeps the invariant if that row is in order and, when it is open, its run is
      the run of every other open row. */
  lemma InvWrites(l: Ledger, os: seq<Order>, row: Entry)
    requires Inv(l, os) && RowOK(row.key, row, os)
    requires !row.Terminal() ==> forall k | k in l && !l[k].Terminal() :: l[k].run == row.run && l[k].session == row.session
    requires row.key in l
             || forall k | k in l :: !(l[k].run == row.run && l[k].ticker == row.ticker && l[k].side == row.side)
    ensures Inv(l[row.key := row], os)
    ensures (row.key in l ==> Absorbs(l[row.key], row)) ==> Follows(l, os, l[row.key := row], os)
  {
    LaterReflexive(os);
    if row.key in l {
      assert RowOK(row.key, l[row.key], os);
    }
  }

  // ---- one placement ----

  lemma RowOKGrows(key: Ref, row: Entry, os: seq<Order>, os': seq<Order>)
    requires RowOK(key, row, os) && |os| <= |os'| && os'[..|os|] == os
    requires forall i | |os| <= i < |os'| :: RootOf(os'[i].ref) != key
    ensures RowOK(key, row, os')
  {
    assert forall i | 0 <= i < |os| :: os'[i] == os[i];
    assert forall i :: InFamily(os', key, i) <==> InFamily(os, key, i);
    match row.state {
      case FILLED =>
        var i :| InFamily(os, key, i) && os[i].ref == row.orderRef && os[i].total - os[i].filled <= QTY_EPS;
        assert InFamily(os', key, i);
      case CANCELLED =>
        var i :| InFamily(os, key, i) && os[i].ref == row.orderRef && IsCancelled(os[i].status);
        assert InFamily(os', key, i);
      case REJECTED =>
        if !(IsSubmissionFailure(row.raw) && row.orderId.None? && Unplaced(os, key)) {
          var i :| InFamily(os, key, i) && os[i].ref == row.orderRef && os[i].status.Inactive?;
          assert InFamily(os', key, i);
        }
      case _ =>
    }
  }

  predicate Places(row: Entry, key: Ref, ref: Ref, total: real) {
    && !row.Terminal() && !row.state.PLANNED? && !Retryable(row)
    && total <= row.quantity
    && (row.orderRef == ref || row.replacement == Some(ref))
    && (ref == Rep(key, 1) ==> row.replaceCount == 1)
  }

  /** The first order of a family. */
  lemma InvPlacesFirst(l: Ledger, os: seq<Order>, os': seq<Order>, key: Ref, total: real)
    requires Inv(l, os) && key in l && Unplaced(os, key)
    requires Placed(os, os', key, total) && Places(l[key], key, key, total)
    ensures Inv(l, os') && Follows(l, os, l, os')
  {
    InvPlaces(l, os, os', key, key, total);
  }

  /** The replacement, after the original is cancelled and with no live replacement around. */
  lemma InvPlacesReplacement(l: Ledger, os: seq<Order>, os': seq<Order>, key: Ref, total: real, j: nat)
    requires Inv(l, os) && key in l
    requires Placed(os, os', Rep(key, 1), total) && Places(l[key], key, Rep(key, 1), total)
    requires j < |os| && os[j].ref == key && IsCancelled(os'[j].status) && total + os'[j].filled <= os'[j].total
    requires NoneLive(os'[..|os|], Rep(key, 1))
    ensures Inv(l, os') && Follows(l, os, l, os')
  {
    assert Succeeds(os', |os|, j) by {
      assert Moves(os[j], os'[j]);
    }
    InvPlaces(l, os, os', key, Rep(key, 1), total);
  }

  lemma InvPlaces(l: Ledger, os: seq<Order>, os': seq<Order>, key: Ref, ref: Ref, total: real)
    requires Inv(l, os) && key in l
    requires Placed(os, os', ref, total) && Places(l[key], key, ref, total)
    requires (ref == key && Unplaced(os, key))
             || (ref == Rep(key, 1) && NoneLive(os'[..|os|], ref) && HasOriginal(os', |os|))
    ensures Inv(l, os') && Follows(l, os, l, os')
  {
    var moved := os'[..|os|];
    assert Drifted(os, moved) by {
      assert forall i | 0 <= i < |os| :: Moves(os[i], os'[i]);
    }
    InvDrifts(l, os, moved);
    assert ref == key ==> Unplaced(moved, key) by {
      assert forall i | 0 <= i < |os| :: Moves(os[i], os'[i]) && InFamily(os, key, i) == InFamily(moved, key, i);
    }
    InvGrows(l, moved, os', key, ref, total);
  }

  lemma InvGrows(l: Ledger, os: seq<Order>, os': seq<Order>, key: Ref, ref: Ref, total: real)
    requires Inv(l, os) && key in l && Places(l[key], key, ref, total)
    requires |os'| == |os| + 1 && os'[..|os|] == os
    requires os'[|os|].ref == ref && os'[|os|].total == total && Sound(os'[|os|])
    requires (ref == key && Unplaced(os, key)) || (ref == Rep(key, 1) && NoneLive(os, ref) && HasOriginal(os', |os|))
    ensures Inv(l, os')
  {
    assert RowOK(key, l[key], os);
    OrdersOKGrows(os, os', key, ref);
    RowsOKGrow(l, os, os', key, ref, total);
    assert Known(l, os') by {
      assert forall i | 0 <= i < |os| :: os'[i] == os[i];
    }
  }

  lemma RowsOKGrow(l: Ledger, os: seq<Order>, os': seq<Order>, key: Ref, ref: Ref, total: real)
    requires RowsOK(l, os) && key in l && Places(l[key], key, ref, total)
    requires |os'| == |os| + 1 && os'[..|os|] == os && os'[|os|].ref == ref && os'[|os|].total == total
    requires key.Root? && (ref == key || ref == Rep(key, 1))
    ensures RowsOK(l, os')
  {
    forall k | k in l ensures RowOK(k, l[k], os') {
      assert RowOK(k, l[k], os);
      if k != key {
        RowOKGrows(k, l[k], os, os');
      } else {
        RowOKOwnOrder(k, l[k], os, os', ref, total);
      }
    }
  }

  lemma RowOKOwnOrder(key: Ref, row: Entry, os: seq<Order>, os': seq<Order>, ref: Ref, total: real)
    requires RowOK(key, row, os) && Places(row, key, ref, total)
    requires |os'| == |os| + 1 && os'[..|os|] == os && os'[|os|].ref == ref && os'[|os|].total == total
    requires ref == key || ref == Rep(key, 1)
    ensures RowOK(key, row, os')
  {
    forall i | InFamily(os', key, i) ensures Admits(key, row, os'[i]) {
      if i < |os| {
        assert os'[i] == os[i] && InFamily(os, key, i);
      }
    }
    assert InFamily(os', key, |os|);
  }

  lemma OrdersOKGrows(os: seq<Order>, os': seq<Order>, key: Ref, ref: Ref)
    requires OrdersOK(os) && key.Root?
    requires |os'| == |os| + 1 && os'[..|os|] == os && os'[|os|].ref == ref && Sound(os'[|os|])
    requires (ref == key && Unplaced(os, key)) || (ref == Rep(key, 1) && NoneLive(os, ref) && HasOriginal(os', |os|))
    ensures OrdersOK(os')
  {
    assert forall i | 0 <= i < |os| :: os'[i] == os[i];
    forall i | 0 <= i < |os'| && os'[i].ref.Rep? ensures HasOriginal(os', i) {
      if i < |os| {
        assert HasOriginal(os, i);
        var j :| Succeeds(os, i, j);
        assert Succeeds(os', i, j);
      }
    }
    forall i, j | 0 <= i < j < |os'| ensures Coexist(os'[i], os'[j]) {
      if j < |os| {
        assert Coexist(os[i], os[j]);
      } else {
        assert !InFamily(os, key, i) || ref != key;
      }
    }
  }

  // ---- composing steps ----

  /** The orders moved on, and what was placed carries one of the given refs, of one of the given families. */
  ghost predicate GrowsIn(keys: set<Ref>, os: seq<Order>, os': seq<Order>) {
    Later(os, os') && forall i | |os| <= i < |os'| :: os'[i].ref in keys && RootOf(os'[i].ref) in keys
  }

  /** The refs of a family: what may be placed for a key that is followed up. */
  function Both(key: Ref): set<Ref> {
    {key, Rep(key, 1)}
  }

  function RefsOf(ledger: Ledger): set<Ref> {
    ledger.Keys + set k | k in ledger.Keys :: Rep(k, 1)
  }

  /** Rows and placements outside `keys` are untouched. */
  ghost predicate StepsIn(keys: set<Ref>, l: Ledger, os: seq<Order>, l': Ledger, os': seq<Order>) {
    && GrowsIn(keys, os, os')
    && RowsAbsorb(l, l')
    && (forall k | k in l && k !in keys :: l'[k] == l[k])
    && (forall k | k in l' :: k in l || k in keys)
  }

  lemma GrowsInTransitive(keys: set<Ref>, a: seq<Order>, b: seq<Order>, c: seq<Order>)
    requires GrowsIn(keys, a, b) && GrowsIn(keys, b, c)
    ensures GrowsIn(keys, a, c)
  {
    LaterTransitive(a, b, c);
    forall i | |a| <= i < |c| ensures c[i].ref in keys && RootOf(c[i].ref) in keys {
      if i < |b| {
        assert Moves(b[i], c[i]);
      }
    }
  }

  lemma StepsInReflexive(keys: set<Ref>, l: Ledger, os: seq<Order>)
    requires AllSound(os)
    ensures StepsIn(keys, l, os, l, os)
  {
  }

  lemma StepsInTransitive(keys: set<Ref>, l: Ledger, a: seq<Order>, l': Ledger, b: seq<Order>, l'': Ledger,
                          c: seq<Order>)
    requires StepsIn(keys, l, a, l', b) && StepsIn(keys, l', b, l'', c)
    ensures StepsIn(keys, l, a, l'', c)
  {
    GrowsInTransitive(keys, a, b, c);
    FollowsTransitive(l, a, l', b, l'', c);
  }

  lemma StepsInWidens(keys: set<Ref>, more: set<Ref>, l: Ledger, os: seq<Order>, l': Ledger, os': seq<Order>)
    requires StepsIn(keys, l, os, l', os') && keys <= more
    ensures StepsIn(more, l, os, l', os')
  {
  }

  /** A row is in order as long as nothing was placed in its family. */
  lemma RowOKElsewhere(key: Ref, row: Entry, os: seq<Order>, os': seq<Order>)
    requires RowOK(key, row, os) && Later(os, os')
    requires forall i | |os| <= i < |os'| :: RootOf(os'[i].ref) != key
    ensures RowOK(key, row, os')
  {
    var moved := os'[..|os|];
    assert Drifted(os, moved) by {
      assert forall i | 0 <= i < |os| :: Moves(os[i], os'[i]);
    }
    RowOKDrifts(key, row, os, moved);
    RowOKGrows(key, row, moved, os');
  }

  lemma UnplacedElsewhere(key: Ref, os: seq<Order>, os': seq<Order>)
    requires Unplaced(os, key) && Later(os, os')
    requires forall i | |os| <= i < |os'| :: RootOf(os'[i].ref) != key
    ensures Unplaced(os', key)
  {
    forall i | 0 <= i < |os'| ensures !InFamily(os', key, i) {
      if i < |os| {
        assert Moves(os[i], os'[i]) && !InFamily(os, key, i);
      }
    }
  }

  lemma InvDriftSteps(keys: set<Ref>, l: Ledger, os: seq<Order>, os': seq<Order>)
    requires Inv(l, os) && Drifted(os, os')
    ensures Inv(l, os') && StepsIn(keys, l, os, l, os')
  {
    InvDrifts(l, os, os');
  }
}
