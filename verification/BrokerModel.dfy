/** The broker as POMA sees it: a growing list of orders that move on their own between any two
    calls, and the effects of src/poma/broker.py on it.  An order's id is its place in the list. */
module BrokerModel {
  import opened Models
  import opened OrderLifecycle

  /** Fifteen seconds, polled every half second. */
  const CANCEL_CONFIRM_POLLS: nat := 30

  datatype Order = Order(ref: Ref, total: real, status: RawStatus, filled: real)

  predicate IsBrokerStatus(raw: RawStatus) {
    raw.ApiPending? || raw.PendingSubmit? || raw.PreSubmitted? || raw.Submitted? || raw.PendingCancel?
    || IsDone(raw)
  }

  predicate IsDone(raw: RawStatus) {
    raw.Filled? || raw.Inactive? || IsCancelled(raw)
  }

  predicate Live(order: Order) {
    !IsDone(order.status)
  }

  /** Live with shares left to trade. */
  predicate Working(order: Order) {
    Live(order) && order.total - order.filled > QTY_EPS
  }

  /** What the broker promises about each order. */
  predicate Sound(order: Order) {
    && IsBrokerStatus(order.status)
    && QTY_EPS < order.total
    && 0.0 <= order.filled <= order.total
    && (order.status.Filled? ==> order.filled == order.total)
    && (IsDone(order.status) && !order.status.Filled? ==> order.total - order.filled > QTY_EPS)
  }

  /** Fills only grow, and a done order never changes again. */
  predicate Moves(before: Order, after: Order) {
    && after.ref == before.ref && after.total == before.total
    && before.filled <= after.filled
    && (IsDone(before.status) ==> after == before)
    && Sound(after)
  }

  predicate AllSound(orders: seq<Order>) {
    forall i | 0 <= i < |orders| :: Sound(orders[i])
  }

  /** Every order has moved on; new ones may have been placed. */
  predicate Later(before: seq<Order>, after: seq<Order>) {
    && |before| <= |after|
    && AllSound(after)
    && forall i | 0 <= i < |before| :: Moves(before[i], after[i])
  }

  predicate Drifted(before: seq<Order>, after: seq<Order>) {
    |after| == |before| && Later(before, after)
  }

  predicate Describes(order: Order, s: Snapshot) {
    && s.ref == order.ref && s.status == order.status && s.filled == order.filled
    && s.ticker == TickerOf(order.ref) && s.side == SideOf(order.ref)
  }

  /** A report of the open query.  A permId of 0 is one IBKR has not assigned yet; order `id` is
      eventually given permId `id + 1`. */
  predicate OpenSnapshotOf(order: Order, id: nat, s: Snapshot) {
    && Describes(order, s) && s.remaining == order.total - order.filled
    && s.orderId == Some(id) && (s.permId == Some(0) || s.permId == Some(id + 1))
  }

  /** A row of completed-order history, which may have lost its ids. */
  predicate CompletedSnapshotOf(order: Order, id: nat, s: Snapshot) {
    && Describes(order, s) && s.remaining == order.total - order.filled
    && (s.orderId == None || s.orderId == Some(id)) && (s.permId == None || s.permId == Some(id + 1))
  }

  function RootOf(ref: Ref): (root: Ref)
    ensures root.Root?
  {
    match ref
    case Root(_, _, _, _) => ref
    case Rep(base, _) => RootOf(base)
  }

  predicate FamilyIdle(orders: seq<Order>, root: Ref) {
    forall i | 0 <= i < |orders| && RootOf(orders[i].ref) == root :: !Live(orders[i])
  }

  predicate MayBeListed(orders: seq<Order>, id: nat) {
    id < |orders| && (Live(orders[id]) || FamilyIdle(orders, RootOf(orders[id].ref)))
  }

  /** The open query: truthful, it lists every live order, and it lists a done order only if no
      order of the same family is live. */
  predicate OpenReport(orders: seq<Order>, report: seq<Snapshot>) {
    && (forall s | s in report :: exists i :: 0 <= i < |orders| && OpenSnapshotOf(orders[i], i, s) && MayBeListed(orders, i))
    && (forall i | 0 <= i < |orders| && Live(orders[i]) :: exists s :: s in report && OpenSnapshotOf(orders[i], i, s))
  }

  /** Completed-order history: truthful about done orders, and possibly incomplete. */
  predicate CompletedReport(orders: seq<Order>, report: seq<Snapshot>) {
    forall s | s in report :: exists i :: 0 <= i < |orders| && CompletedSnapshotOf(orders[i], i, s) && IsDone(orders[i].status)
  }

  /** The report returned right after a placement: IBKR's zero remaining reads as "not known yet"
      and is replaced by the order's whole quantity. */
  predicate PlacementSnapshot(order: Order, id: nat, s: Snapshot) {
    && Describes(order, s)
    && s.remaining == (if order.filled == order.total then order.total else order.total - order.filled)
    && s.orderId == Some(id) && (s.permId == Some(0) || s.permId == Some(id + 1))
  }

  /** Drift around the placement of exactly one order. */
  ghost predicate Placed(before: seq<Order>, after: seq<Order>, ref: Ref, total: real) {
    && Later(before, after) && |after| == |before| + 1
    && after[|before|].ref == ref && after[|before|].total == total
  }

  /** The replacement went out only after `id` was confirmed cancelled without a fill, and for no
      more shares than it left. */
  ghost predicate Replaced(before: seq<Order>, after: seq<Order>, id: nat, ref: Ref) {
    && id < |before| < |after| && Placed(before, after, ref, after[|before|].total)
    && IsCancelled(after[id].status) && after[id].filled == 0.0
    && after[|before|].total <= after[id].total
  }

  ghost predicate NoneLive(orders: seq<Order>, ref: Ref) {
    forall i | 0 <= i < |orders| && orders[i].ref == ref :: !Live(orders[i])
  }

  lemma DriftTransitive(a: seq<Order>, b: seq<Order>, c: seq<Order>)
    requires Later(a, b) && Later(b, c)
    ensures Later(a, c)
    ensures Drifted(a, b) && Drifted(b, c) ==> Drifted(a, c)
  {
    LaterTransitive(a, b, c);
  }

  lemma LaterTransitive(a: seq<Order>, b: seq<Order>, c: seq<Order>)
    requires Later(a, b) && Later(b, c)
    ensures Later(a, c)
  {
    forall i | 0 <= i < |a| ensures Moves(a[i], c[i]) {
      assert Moves(a[i], b[i]) && Moves(b[i], c[i]);
    }
  }

  /** What is done stays done. */
  lemma IdleStays(before: seq<Order>, after: seq<Order>, root: Ref)
    requires Drifted(before, after) && FamilyIdle(before, root)
    ensures FamilyIdle(after, root)
  {
    forall i | 0 <= i < |after| && RootOf(after[i].ref) == root ensures !Live(after[i]) {
      assert Moves(before[i], after[i]);
    }
  }

  lemma LaterReflexive(a: seq<Order>)
    requires AllSound(a)
    ensures Later(a, a) && Drifted(a, a)
  {
  }

  /** The open query's answer when it lists just the live orders. */
  function LiveReport(os: seq<Order>): seq<Snapshot> {
    if os == [] then []
    else
      var id := |os| - 1;
      LiveReport(os[..id]) + (if Live(os[id]) then [OpenSnapshot(os[id], id)] else [])
  }

  function OpenSnapshot(order: Order, id: nat): Snapshot {
    Snapshot(order.ref, Some(id), Some(id + 1), TickerOf(order.ref), SideOf(order.ref), order.status, order.filled, order.total - order.filled)
  }

  lemma {:induction false} LiveReportLists(os: seq<Order>)
    ensures forall s | s in LiveReport(os) :: exists i :: 0 <= i < |os| && s == OpenSnapshot(os[i], i) && Live(os[i])
    ensures forall i | 0 <= i < |os| && Live(os[i]) :: OpenSnapshot(os[i], i) in LiveReport(os)
  {
    if os != [] {
      var id := |os| - 1;
      var rest := os[..id];
      LiveReportLists(rest);
      assert forall i | 0 <= i < id :: rest[i] == os[i];
    }
  }

  /** In every state the broker can answer truthfully: what is assumed of the query can be met. */
  lemma OpenReportExists(os: seq<Order>)
    ensures OpenReport(os, LiveReport(os))
  {
    LiveReportLists(os);
    forall s | s in LiveReport(os) ensures exists i :: 0 <= i < |os| && OpenSnapshotOf(os[i], i, s) && Live(os[i]) {
      var i :| 0 <= i < |os| && s == OpenSnapshot(os[i], i) && Live(os[i]);
      assert OpenSnapshotOf(os[i], i, s);
    }
    forall i | 0 <= i < |os| && Live(os[i]) ensures exists s :: s in LiveReport(os) && OpenSnapshotOf(os[i], i, s) {
      assert OpenSnapshotOf(os[i], i, OpenSnapshot(os[i], i));
    }
  }

  /** The call failed as its fate has it. */
  predicate FailsBy<T>(r: Exit<T>, fate: Step) {
    (r.Raised? && fate.Raises?) || (r.Crashed? && fate.Dies?)
  }

  /** A network step of a call: it goes through, or it is where the call meets its fate. */
  method Interrupt(fate: Step) returns (r: Step)
    ensures r == Done || r == fate
  {
    r := Done;
    if * {
      r := fate;
    }
  }

  class Broker {
    var orders: seq<Order>
    /** The orders whose cancel was requested. */
    var requested: set<nat>

    constructor ()
      ensures orders == [] && Valid()
    {
      orders, requested := [], {};
    }

    ghost predicate Valid()
      reads this
    {
      AllSound(orders)
    }

    /** Time passes at the broker. */
    method Drift()
      requires Valid()
      modifies this
      ensures Valid() && Drifted(old(orders), orders) && requested == old(requested)
    {
      LaterReflexive(orders);
      var next: seq<Order> := *;
      if Drifted(orders, next) {
        orders := next;
      }
    }

    /** The open query; `fate` is what it meets besides the orders. */
    method FetchOpenOrders(fate: Step) returns (r: Exit<seq<Snapshot>>)
      requires Valid()
      modifies this
      ensures Valid() && Drifted(old(orders), orders)
      ensures r.Ok? ==> OpenReport(orders, r.value)
      ensures !r.Ok? ==> FailsBy(r, fate)
    {
      Drift();
      :- Interrupt(fate);
      var report: seq<Snapshot> := *;
      if !OpenReport(orders, report) {
        OpenReportExists(orders);
        report := LiveReport(orders);
      }
      r := Ok(report);
    }

    method FetchCompletedOrders(fate: Step) returns (r: Exit<seq<Snapshot>>)
      requires Valid()
      modifies this
      ensures Valid() && Drifted(old(orders), orders)
      ensures r.Ok? ==> CompletedReport(orders, r.value)
      ensures !r.Ok? ==> FailsBy(r, fate)
    {
      Drift();
      :- Interrupt(fate);
      var report: seq<Snapshot> := *;
      r := Ok(if CompletedReport(orders, report) then report else []);
    }

    /** Whether the open query lists the order: a live one always, a done one only while nothing of its
        family lives. */
    method Lists(id: nat) returns (listed: bool)
      ensures listed ==> MayBeListed(orders, id)
      ensures !listed ==> id >= |orders| || !Live(orders[id])
    {
      listed := *;
      listed := id < |orders| && (Live(orders[id]) || (listed && FamilyIdle(orders, RootOf(orders[id].ref))));
    }

    /** Whether the order was found open; its cancellation is only requested. */
    method CancelOrder(id: nat, fate: Step) returns (r: Exit<bool>)
      requires Valid()
      modifies this
      ensures Valid() && Drifted(old(orders), orders)
      ensures r == Ok(true) ==> id < |orders| && (Live(old(orders)[id]) || FamilyIdle(orders, RootOf(orders[id].ref)))
      ensures r == Ok(false) ==> id >= |orders| || !Live(orders[id])
      ensures r == Ok(true) ==> requested == old(requested) + {id}
      ensures r == Ok(false) ==> requested == old(requested)
      ensures !r.Ok? ==> FailsBy(r, fate)
    {
      Drift();
      :- Interrupt(fate);
      var listed := Lists(id);
      if !listed {
        return Ok(false);
      }
      requested := requested + {id};
      label sent:
      Drift();
      DriftTransitive(old(orders), old@sent(orders), orders);
      if FamilyIdle(old@sent(orders), RootOf(orders[id].ref)) {
        IdleStays(old@sent(orders), orders, RootOf(orders[id].ref));
      }
      :- Interrupt(fate);
      r := Ok(true);
    }

    /** cancelOrder on a connection that knows the order. */
    method RequestCancel(id: nat, fate: Step) returns (r: Step)
      requires Valid()
      modifies this
      ensures Valid() && Drifted(old(orders), orders)
      ensures r.Done? ==> requested == old(requested) + {id}
      ensures r == Done || r == fate
    {
      Drift();
      r := Interrupt(fate);
      if r.Done? {
        requested := requested + {id};
      }
    }

    /** placeOrder.  An exception or a crash does not tell whether the order went out.  The broker
        trades no quantity that the slack in share counts would call zero. */
    method PlaceOrder(ref: Ref, total: real, fate: Step) returns (r: Exit<nat>)
      requires Valid()
      modifies this
      ensures Valid()
      ensures Drifted(old(orders), orders) || Placed(old(orders), orders, ref, total)
      ensures r.Ok? ==> r.value == |old(orders)| && Placed(old(orders), orders, ref, total)
      ensures !r.Ok? ==> FailsBy(r, fate) || (r.Raised? && total <= QTY_EPS)
    {
      LaterReflexive(orders);
      :- Interrupt(fate);
      if total <= QTY_EPS {
        return Raised;
      }
      var id := |orders|;
      orders := orders + [Order(ref, total, PendingSubmit, 0.0)];
      label placed:
      Drift();
      :- Interrupt(fate);
      r := Ok(id);
    }

    method PlaceLimitOrder(ref: Ref, quantity: real, fate: Step) returns (r: Exit<Snapshot>)
      requires Valid()
      modifies this
      ensures Valid()
      ensures Drifted(old(orders), orders) || Placed(old(orders), orders, ref, quantity)
      ensures r.Ok? ==> Placed(old(orders), orders, ref, quantity)
                        && PlacementSnapshot(orders[|old(orders)|], |old(orders)|, r.value)
      ensures !r.Ok? ==> FailsBy(r, fate) || (r.Raised? && quantity <= QTY_EPS)
    {
      var id :- PlaceOrder(ref, quantity, fate);
      var order := orders[id];
      var known: bool := *;
      var permId := if known then Some(id + 1) else Some(0);
      r := Ok(Snapshot(ref, Some(id), permId, TickerOf(ref), SideOf(ref), order.status, order.filled,
                       if order.filled == order.total then quantity else order.total - order.filled));
    }

    /** Cancel `id`, wait for the terminal status, and only then place the replacement. */
    method ReplaceOrder(id: nat, quantity: real, ref: Ref, fate: Step) returns (r: Exit<Snapshot>)
      requires Valid()
      modifies this
      ensures Valid()
      ensures Drifted(old(orders), orders) || Replaced(old(orders), orders, id, ref)
      ensures r.NotConfirmed? ==> Drifted(old(orders), orders) && id < |orders| && !IsCancelled(orders[id].status)
      ensures r.Crashed? ==> fate.Dies?
      ensures r.Raised? ==> fate.Raises? || quantity <= QTY_EPS || id >= |orders| || !Live(orders[id]) || orders[id].filled > 0.0
      ensures r.Ok? ==>
                || (Drifted(old(orders), orders) && id < |orders| && orders[id].filled > 0.0 && OpenSnapshotOf(orders[id], id, r.value))
                || (Replaced(old(orders), orders, id, ref)
                    && PlacementSnapshot(orders[|old(orders)|], |old(orders)|, r.value))
    {
      Drift();
      :- Interrupt(fate);
      var listed := Lists(id);
      if !listed || orders[id].filled > 0.0 {
        return Raised;
      }
      for poll := 0 to CANCEL_CONFIRM_POLLS
        invariant Valid() && Drifted(old(orders), orders)
      {
        label polled:
        Drift();
        DriftTransitive(old(orders), old@polled(orders), orders);
        :- Interrupt(fate);
        if IsDone(orders[id].status) {
          break;
        }
      }
      var original := orders[id];
      if original.filled > 0.0 {
        return Ok(Snapshot(original.ref, Some(id), Some(id + 1), TickerOf(original.ref), SideOf(original.ref),
                           original.status, original.filled, original.total - original.filled));
      }
      if !IsCancelled(original.status) {
        return NotConfirmed;
      }
      var left := Min(quantity, original.total - original.filled);
      label confirmed:
      r := PlaceLimitOrder(ref, left, fate);
      LaterTransitive(old(orders), old@confirmed(orders), orders);
      assert orders[id] == original;
    }

    /** Place the replacement of an order already known cancelled, unless the open query lists one under the ref
        already. */
    method SubmitReplacement(ref: Ref, quantity: real, fate: Step) returns (r: Exit<Snapshot>)
      requires Valid()
      modifies this
      ensures Valid()
      ensures Drifted(old(orders), orders)
              || (Placed(old(orders), orders, ref, quantity) && NoneLive(orders[..|old(orders)|], ref))
      ensures r.Ok? ==>
                || (Drifted(old(orders), orders)
                    && exists i :: 0 <= i < |orders| && orders[i].ref == ref && MayBeListed(orders, i) && OpenSnapshotOf(orders[i], i, r.value))
                || (Placed(old(orders), orders, ref, quantity) && NoneLive(orders[..|old(orders)|], ref)
                    && PlacementSnapshot(orders[|old(orders)|], |old(orders)|, r.value))
      ensures !r.Ok? ==> FailsBy(r, fate) || (r.Raised? && quantity <= QTY_EPS)
    {
      Drift();
      :- Interrupt(fate);
      ghost var asked := orders;
      for i := 0 to |orders|
        invariant orders == asked && NoneLive(orders[..i], ref)
      {
        var listed := Lists(i);
        if orders[i].ref == ref && listed {
          var o := orders[i];
          return Ok(Snapshot(ref, Some(i), Some(i + 1), TickerOf(ref), SideOf(ref), o.status, o.filled, o.total - o.filled));
        }
      }
      assert orders[..|orders|] == orders;
      label checked:
      r := PlaceLimitOrder(ref, quantity, fate);
      LaterTransitive(old(orders), old@checked(orders), orders);
      forall i | 0 <= i < |old(orders)| && orders[i].ref == ref ensures !Live(orders[i]) {
        assert Moves(old@checked(orders)[i], orders[i]);
      }
    }
  }
}
