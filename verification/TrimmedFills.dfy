/** Which complete fills executions alone can prove, and what trimming a buy does to that
    (src/poma/ibkr_order_history.py with src/poma/execution_manager.py). */
module TrimmedFills {
  import opened Models
  import opened OrderLifecycle
  import opened BrokerModel
  import opened LedgerInvariant
  import opened Recording
  import opened ExecutionPolicy
  import opened CashFit
  import opened ExecutionHistory

  /** The executions of a row's order: coherent and priced, and all of its shares. */
  predicate ExecutionsOf(row: Entry, order: Order, fills: seq<Execution>, account: Option<string>) {
    && row.permId.Some? && Coherent(row, fills, account) && Priced(Distinct(fills))
    && Shares(Distinct(fills)) == order.filled
  }

  /** In every state of the protocol, the executions of a filled original prove its fill exactly when
      its row is for the quantity that was ordered. */
  lemma FilledIsProven(l: Ledger, os: seq<Order>, key: Ref, id: nat, fills: seq<Execution>, account: Option<string>)
    requires Inv(l, os) && key in l && InFamily(os, key, id) && os[id].filled == os[id].total
    requires ExecutionsOf(l[key], os[id], fills, account)
    ensures os[id].total <= l[key].quantity
    ensures Judge(l[key], fills, account).Proven? <==> l[key].quantity - os[id].total <= FILL_EPS
  {
    assert RowOK(key, l[key], os) && Admits(key, l[key], os[id]) && Sound(os[id]);
    ProvenExactly(l[key], fills, account, os[id].total);
  }

  /** While a row is open every result is written with the quantity it has; only a row that was closed
      meanwhile takes the quantity of the trade as it was sent. */
  lemma OpenRowKeepsQuantity(l: Ledger, run: string, session: string, t: Trade, result: OrderResult, now: real)
    requires t.orderRef.Some?
    ensures var open := KeyOf(t) in l && !l[KeyOf(t)].Terminal();
            Recorded(l, run, session, t, result, now).quantity == if open then l[KeyOf(t)].quantity else t.quantity
  {
  }

  /** A buy that goes out trimmed, over a row of its planned quantity: its complete fill can be proven
      exactly when trimming cut nothing, or, in fractional shares, next to nothing. */
  lemma TrimmedIsProven(before: Trade, after: Trade, rule: Rule, row: Entry, order: Order, fills: seq<Execution>,
                        account: Option<string>)
    requires Fundable(before) && Shrunk(before, after, rule) && Standard(rule)
    requires row.quantity == before.quantity && order.total == order.filled == after.quantity
    requires ExecutionsOf(row, order, fills, account)
    ensures Judge(row, fills, account).Proven? <==> before.quantity - after.quantity <= FILL_EPS
    ensures rule == WHOLE_SHARE ==> (Judge(row, fills, account).Proven? <==> after == before)
  {
    ProvenExactly(row, fills, account, after.quantity);
    if rule == WHOLE_SHARE {
      var n: nat :| before.quantity - after.quantity == Times(n, 1.0);
      assert n >= 1 ==> Times(n, 1.0) >= 1.0;
      assert Resized(before, before.quantity) == before;
    }
  }

  /** Ten shares planned, nine sent and filled: the one execution does not prove the fill. */
  lemma TrimmedBuyUnproven()
    ensures var key := Root("run", 0, "SPY", BUY);
            var before := Trade("SPY", BUY, 10.0, 1000.0, 100.0, Some(100.0), Some(key));
            var after := Resized(before, 9.0);
            var row := PlannedEntry("run", "2025-01-02", before).(permId := Some(1), orderId := Some(0), state := BROKER_ACCEPTED, raw := Submitted);
            var fills := [Execution(1, "e1", "SPY", Some(BUY), "U1", 9.0, 100.0)];
            && CutTrade(before, 100.0, WHOLE_SHARE) == Some(after) && Eligible(row, {})
            && ExecutionsOf(row, Order(key, 9.0, Filled, 9.0), fills, None)
            && VerdictOn(row, fills, None, {}).Unproven?
            && VerdictOn(row.(quantity := 9.0), fills, None, {}).Proven?
  {
    var key := Root("run", 0, "SPY", BUY);
    var before := Trade("SPY", BUY, 10.0, 1000.0, 100.0, Some(100.0), Some(key));
    var row := PlannedEntry("run", "2025-01-02", before).(permId := Some(1), orderId := Some(0), state := BROKER_ACCEPTED, raw := Submitted);
    var x := Execution(1, "e1", "SPY", Some(BUY), "U1", 9.0, 100.0);
    OneCutShare(before);
    OneExecutionOnly(row, x);
    OneExecutionOnly(row.(quantity := 9.0), x);
  }

  lemma OneCutShare(t: Trade)
    requires UnitCash(t) == 100.0 && t.quantity == 10.0
    ensures CutTrade(t, 100.0, WHOLE_SHARE) == Some(Resized(t, 9.0))
  {
    assert 100.0 / UnitCash(t) == 1.0;
    assert Cut(t, 100.0, 1.0) == 1.0;
  }

  /** A single execution is the verdict. */
  lemma OneExecutionOnly(row: Entry, x: Execution)
    requires Eligible(row, {}) && x.permId == row.permId.value && x.execId != ""
    requires Agrees(x, row, None) && x.price > 0.0 && x.shares > 0.0
    ensures Coherent(row, [x], None) && Priced(Distinct([x])) && Shares(Distinct([x])) == x.shares
    ensures VerdictOn(row, [x], None, {}).Proven? <==> Abs(x.shares - row.quantity) <= FILL_EPS
    ensures VerdictOn(row, [x], None, {}).Unproven? <==> Abs(x.shares - row.quantity) > FILL_EPS
  {
    assert [x][..0] == [];
    assert OnPerm([x], x.permId) == [x] && Distinct([x]) == [x];
    OneExecution(x);
    ProvenExactly(row, [x], None, x.shares);
  }
}
