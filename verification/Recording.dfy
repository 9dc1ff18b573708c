/** What submission writes into the ledger: planned rows, local blocks, and broker reports
    (src/poma/execution_manager.py, _record_planned, _record_result and _idempotent_replay). */
module Recording {
  import opened Models
  import opened OrderLifecycle
  import opened BrokerModel
  import opened LedgerInvariant

  /** A trade of the plan carrying an orderRef of its own run, ticker and side. */
  predicate Tagged(run: string, t: Trade) {
    && t.orderRef.Some? && t.orderRef.value.Root?
    && t.orderRef.value.run == run && t.orderRef.value.ticker == t.ticker && t.orderRef.value.side == t.side
  }

  function KeyOf(t: Trade): Ref
    requires t.orderRef.Some?
  {
    t.orderRef.value
  }

  function PlannedEntry(run: string, session: string, t: Trade): Entry
    requires t.orderRef.Some?
  {
    Entry(KeyOf(t), KeyOf(t), run, session, t.ticker, t.side, t.quantity,
          None, None, None, PLANNED, Blank, 0.0, 0.0, 0, None, false)
  }

  /** The row a result is written over: the open row, or a fresh one when the row is terminal. */
  function Base(l: Ledger, run: string, session: string, t: Trade): Entry
    requires t.orderRef.Some?
  {
    if KeyOf(t) in l && !l[KeyOf(t)].Terminal() then l[KeyOf(t)] else PlannedEntry(run, session, t)
  }

  function Recorded(l: Ledger, run: string, session: string, t: Trade, result: OrderResult, now: real): Entry
    requires t.orderRef.Some?
  {
    Base(l, run, session, t).WithOrderResult(result, now)
  }

  function LocalResult(t: Trade, status: RawStatus): OrderResult {
    OrderResult(t.ticker, t.side, t.quantity, None, status, 0.0, true)
  }

  function BrokerResult(t: Trade, order: Order, id: nat, status: RawStatus, hasMessage: bool): OrderResult {
    OrderResult(t.ticker, t.side, t.quantity, Some(id), status, order.filled, hasMessage)
  }

  /** Every open row is of this run and session: what the stale-order check establishes. */
  ghost predicate OpenOnly(l: Ledger, run: string, session: string) {
    forall k | k in l && !l[k].Terminal() :: l[k].run == run && l[k].session == session
  }

  /** The key of the trade is the run's one key for its ticker and side. */
  ghost predicate OwnKey(l: Ledger, run: string, t: Trade)
    requires t.orderRef.Some?
  {
    forall k | k in l && l[k].run == run && l[k].ticker == t.ticker && l[k].side == t.side :: k == KeyOf(t)
  }

  /** A write that keeps the invariant and undoes nothing. */
  ghost predicate Admissible(l: Ledger, os: seq<Order>, row: Entry) {
    && RowOK(row.key, row, os)
    && (!row.Terminal() ==> forall k | k in l && !l[k].Terminal() :: l[k].run == row.run && l[k].session == row.session)
    && (row.key in l
        || forall k | k in l :: !(l[k].run == row.run && l[k].ticker == row.ticker && l[k].side == row.side))
    && (row.key in l ==> Absorbs(l[row.key], row))
  }

  /** What each trade of a submission relies on until its own row is written. */
  ghost predicate Ours(l: Ledger, run: string, session: string, t: Trade) {
    && Tagged(run, t) && OpenOnly(l, run, session) && OwnKey(l, run, t)
  }

  predicate IsLocalBlock(status: RawStatus) {
    status.Failed? || status.BrokerUnavailable? || status.QuoteBlocked?
    || status.BuyingPowerBlocked? || status.ContractUnresolved? || status.SubmissionUnconfirmed?
  }

  /** What a fresh retry may do: a resubmittable key has never reached the broker. */
  lemma ResubmittableIsUnplaced(l: Ledger, os: seq<Order>, key: Ref)
    requires Inv(l, os) && Resubmittable(l, key)
    ensures Unplaced(os, key)
  {
    if key in l {
      assert RowOK(key, l[key], os);
    }
  }

  lemma UnplacedRow(l: Ledger, os: seq<Order>, key: Ref)
    requires Inv(l, os) && key in l && Unplaced(os, key)
    ensures l[key].orderId.None? && l[key].replaceCount == 0 && l[key].orderRef == key && l[key].replacement.None?
    ensures l[key].permId.None? || l[key].permId == Some(0)
    ensures l[key].filled == 0.0
    ensures l[key].Terminal() ==> l[key].state.REJECTED? && IsSubmissionFailure(l[key].raw)
  {
    assert RowOK(key, l[key], os);
  }

  lemma PlannedAdmissible(l: Ledger, os: seq<Order>, run: string, session: string, t: Trade)
    requires Inv(l, os) && Ours(l, run, session, t)
    requires Resubmittable(l, KeyOf(t)) || (Unplaced(os, KeyOf(t)) && KeyOf(t) in l && !l[KeyOf(t)].Terminal())
    ensures Admissible(l, os, PlannedEntry(run, session, t))
  {
    var key := KeyOf(t);
    if Resubmittable(l, key) {
      ResubmittableIsUnplaced(l, os, key);
    }
    if key in l {
      UnplacedRow(l, os, key);
    }
  }

  /** A local block may be recorded while nothing was placed; recording it twice changes nothing. */
  lemma LocalAdmissible(l: Ledger, os: seq<Order>, run: string, session: string, t: Trade, status: RawStatus, now: real)
    requires Inv(l, os) && Ours(l, run, session, t)
    requires Unplaced(os, KeyOf(t)) && IsLocalBlock(status)
    requires KeyOf(t) in l && Settled(l[KeyOf(t)]) ==> l[KeyOf(t)].raw == status
    ensures Admissible(l, os, Recorded(l, run, session, t, LocalResult(t, status), now))
  {
    var key := KeyOf(t);
    if key in l {
      UnplacedRow(l, os, key);
      assert RowOK(key, l[key], os);
    }
  }

  /** A staged trade: its row is durable and uncertain, and nothing was placed yet. */
  ghost predicate Staged(l: Ledger, os: seq<Order>, run: string, session: string, t: Trade) {
    && Tagged(run, t) && KeyOf(t) in l && Unplaced(os, KeyOf(t))
    && var row := l[KeyOf(t)];
       !row.Terminal() && !row.state.PLANNED? && !Retryable(row) && t.quantity <= row.quantity
  }

  /** The trade's order is at the broker as order `id`, the only one of its family. */
  ghost predicate Sent(l: Ledger, os: seq<Order>, run: string, session: string, t: Trade, id: nat) {
    && Tagged(run, t) && KeyOf(t) in l
    && l[KeyOf(t)].replaceCount == 0
    && id < |os| && os[id].ref == KeyOf(t) && os[id].total == t.quantity
  }

  /** After placeOrder of a staged trade the order is at the broker or nothing happened to its family. */
  lemma PlacedOrStaged(l: Ledger, os: seq<Order>, os': seq<Order>, run: string, session: string, t: Trade)
    requires Inv(l, os) && Staged(l, os, run, session, t)
    requires Drifted(os, os') || Placed(os, os', KeyOf(t), t.quantity)
    ensures Inv(l, os') && StepsIn({KeyOf(t)}, l, os, l, os')
    ensures if Placed(os, os', KeyOf(t), t.quantity) then Sent(l, os', run, session, t, |os|) else Staged(l, os', run, session, t)
  {
    UnplacedRow(l, os, KeyOf(t));
    if Placed(os, os', KeyOf(t), t.quantity) {
      InvPlacesFirst(l, os, os', KeyOf(t), t.quantity);
    } else {
      InvDriftSteps({KeyOf(t)}, l, os, os');
      UnplacedElsewhere(KeyOf(t), os, os');
    }
  }

  /** A result that may be recorded now: the write keeps the invariant and undoes nothing. */
  ghost predicate Recordable(l: Ledger, os: seq<Order>, run: string, session: string, t: Trade, result: OrderResult,
                             now: real)
    requires t.orderRef.Some?
  {
    Admissible(l, os, Recorded(l, run, session, t, result, now))
  }

  lemma OnlyOrder(l: Ledger, os: seq<Order>, run: string, session: string, t: Trade, id: nat)
    requires Inv(l, os) && Sent(l, os, run, session, t, id)
    ensures forall i | InFamily(os, KeyOf(t), i) :: i == id
    ensures InFamily(os, KeyOf(t), id) && Sound(os[id]) && l[KeyOf(t)].orderRef == KeyOf(t)
    ensures l[KeyOf(t)].replacement == None
    ensures os[id].total <= l[KeyOf(t)].quantity
  {
    var key := KeyOf(t);
    assert RowOK(key, l[key], os);
    assert InFamily(os, key, id) && Admits(key, l[key], os[id]);
    forall i | InFamily(os, key, i) ensures i == id {
      FamilyHasTwoRefs(os, key, i);
      assert Admits(key, l[key], os[i]);
      assert i < id ==> Coexist(os[i], os[id]);
      assert id < i ==> Coexist(os[id], os[i]);
    }
  }

  /** A row that reports the only order of its family. */
  lemma SoleOrderRow(key: Ref, row: Entry, os: seq<Order>, id: nat)
    requires InFamily(os, key, id) && (forall i | InFamily(os, key, i) :: i == id)
    requires RowShape(key, row) && os[id].ref == row.orderRef == key
    requires Admits(key, row, os[id])
    requires row.orderId == None || row.orderId == Some(id)
    requires row.permId == None || row.permId == Some(0) || row.permId == Some(id + 1)
    requires row.state.FILLED? ==> os[id].total - os[id].filled <= QTY_EPS
    requires row.state.CANCELLED? ==> IsCancelled(os[id].status)
    requires row.state.REJECTED? ==> os[id].status.Inactive?
    requires !row.state.EXPIRED?
    ensures RowOK(key, row, os)
  {
  }

  lemma BasePerm(l: Ledger, os: seq<Order>, run: string, session: string, t: Trade, id: nat)
    requires Inv(l, os) && Sent(l, os, run, session, t, id)
    ensures var base := Base(l, run, session, t);
            && RowShape(KeyOf(t), base) && base.orderRef == KeyOf(t) && base.replaceCount == 0 && os[id].total <= base.quantity
            && (base.permId == None || base.permId == Some(0) || base.permId == Some(id + 1))
            && (base.orderId == None || base.orderId == Some(id))
  {
    OnlyOrder(l, os, run, session, t, id);
    assert RowOK(KeyOf(t), l[KeyOf(t)], os);
  }

  /** What the row of a sent order says, once settled, is what the order still says. */
  lemma SettledSays(l: Ledger, os: seq<Order>, run: string, session: string, t: Trade, id: nat)
    requires Inv(l, os) && Sent(l, os, run, session, t, id)
    ensures var row := l[KeyOf(t)];
            && (row.state.FILLED? ==> os[id].total - os[id].filled <= QTY_EPS)
            && (row.state.CANCELLED? ==> IsCancelled(os[id].status))
            && (row.state.REJECTED? ==> os[id].status.Inactive?)
            && !row.state.EXPIRED?
  {
    OnlyOrder(l, os, run, session, t, id);
    assert RowOK(KeyOf(t), l[KeyOf(t)], os);
  }

  lemma AdmissibleOver(l: Ledger, os: seq<Order>, run: string, session: string, t: Trade, row: Entry)
    requires Ours(l, run, session, t) && KeyOf(t) in l && l[KeyOf(t)].replaceCount == 0
    requires l[KeyOf(t)].orderRef == KeyOf(t)
    requires RowOK(KeyOf(t), row, os) && row.orderRef == KeyOf(t) && !Retryable(row)
    requires row.session == Base(l, run, session, t).session
    requires l[KeyOf(t)].Terminal() ==> row.state == l[KeyOf(t)].state
    ensures Admissible(l, os, row)
  {
  }

  /** What the row of a current status says of the order. */
  lemma CurrentRow(base: Entry, t: Trade, order: Order, id: nat, hasMessage: bool, now: real)
    requires Sound(order) && order.total <= base.quantity
    ensures var row := base.WithOrderResult(BrokerResult(t, order, id, order.status, hasMessage), now);
            && (row.state.FILLED? ==> order.total - order.filled <= QTY_EPS) && (row.state.CANCELLED? ==> IsCancelled(order.status))
            && (row.state.REJECTED? ==> order.status.Inactive?) && !row.state.EXPIRED? && !row.state.PLANNED?
            && (Working(order) ==> !row.Terminal())
    ensures var row := base.WithOrderResult(BrokerResult(t, order, id, order.status, hasMessage), now);
            && (order.total - order.filled <= QTY_EPS && base.quantity == order.total ==> row.state.FILLED?)
            && (IsCancelled(order.status) ==> row.state.CANCELLED?) && (order.status.Inactive? ==> row.state.REJECTED?)
  {
  }

  /** The broker's current status of the order may be recorded, whatever was recorded before. */
  lemma ReportAdmissible(l: Ledger, os: seq<Order>, run: string, session: string, t: Trade, id: nat, hasMessage: bool,
                         now: real)
    requires Inv(l, os) && Ours(l, run, session, t) && Sent(l, os, run, session, t, id)
    ensures Recordable(l, os, run, session, t, BrokerResult(t, os[id], id, os[id].status, hasMessage), now)
  {
    OnlyOrder(l, os, run, session, t, id);
    BasePerm(l, os, run, session, t, id);
    SettledSays(l, os, run, session, t, id);
    CurrentRow(Base(l, run, session, t), t, os[id], id, hasMessage, now);
    var row := Recorded(l, run, session, t, BrokerResult(t, os[id], id, os[id].status, hasMessage), now);
    SoleOrderRow(KeyOf(t), row, os, id);
    AdmissibleOver(l, os, run, session, t, row);
  }

  /** After an exception past placeOrder the outcome is recorded as uncertain, unless a cancelled or
      rejected status was already recorded. */
  lemma UncertainAdmissible(l: Ledger, os: seq<Order>, run: string, session: string, t: Trade, id: nat, now: real)
    requires Inv(l, os) && Ours(l, run, session, t) && Sent(l, os, run, session, t, id)
    requires !l[KeyOf(t)].state.CANCELLED? && !l[KeyOf(t)].state.REJECTED?
    ensures Recordable(l, os, run, session, t, BrokerResult(t, os[id], id, SubmissionUnconfirmed, true), now)
  {
    OnlyOrder(l, os, run, session, t, id);
    BasePerm(l, os, run, session, t, id);
    SettledSays(l, os, run, session, t, id);
    var row := Recorded(l, run, session, t, BrokerResult(t, os[id], id, SubmissionUnconfirmed, true), now);
    SoleOrderRow(KeyOf(t), row, os, id);
    AdmissibleOver(l, os, run, session, t, row);
  }

  /** The same after placeOrder itself raised although the order went out. */
  lemma UnseenAdmissible(l: Ledger, os: seq<Order>, run: string, session: string, t: Trade, id: nat, now: real)
    requires Inv(l, os) && Ours(l, run, session, t) && Sent(l, os, run, session, t, id)
    requires !l[KeyOf(t)].Terminal()
    ensures Recordable(l, os, run, session, t, LocalResult(t, SubmissionUnconfirmed), now)
  {
    OnlyOrder(l, os, run, session, t, id);
    BasePerm(l, os, run, session, t, id);
    var row := Recorded(l, run, session, t, LocalResult(t, SubmissionUnconfirmed), now);
    SoleOrderRow(KeyOf(t), row, os, id);
    AdmissibleOver(l, os, run, session, t, row);
  }

  lemma UnknownIsOpen(l: Ledger, run: string, session: string, t: Trade, now: real)
    requires t.orderRef.Some?
    ensures !Recorded(l, run, session, t, LocalResult(t, SubmissionUnconfirmed), now).Terminal()
  {
  }

  lemma UnknownAdmissible(l: Ledger, os: seq<Order>, run: string, session: string, t: Trade, id: nat, now: real)
    requires Inv(l, os) && Ours(l, run, session, t) && KeyOf(t) in l && !l[KeyOf(t)].Terminal()
    requires Unplaced(os, KeyOf(t)) || Sent(l, os, run, session, t, id)
    ensures Recordable(l, os, run, session, t, LocalResult(t, SubmissionUnconfirmed), now)
  {
    if Sent(l, os, run, session, t, id) {
      UnseenAdmissible(l, os, run, session, t, id, now);
    } else {
      LocalAdmissible(l, os, run, session, t, SubmissionUnconfirmed, now);
    }
  }

  lemma RecordableElsewhere(l: Ledger, os: seq<Order>, l': Ledger, os': seq<Order>,
                            run: string, session: string, t: Trade, result: OrderResult, now: real)
    requires Tagged(run, t) && OpenOnly(l, run, session) && OpenOnly(l', run, session)
    requires KeyOf(t) in l && KeyOf(t) in l' && l'[KeyOf(t)] == l[KeyOf(t)]
    requires RowShape(KeyOf(t), l[KeyOf(t)])
    requires Recordable(l, os, run, session, t, result, now)
    requires Later(os, os') && forall i | |os| <= i < |os'| :: RootOf(os'[i].ref) != KeyOf(t)
    ensures Recordable(l', os', run, session, t, result, now)
  {
    var row := Recorded(l, run, session, t, result, now);
    assert row == Recorded(l', run, session, t, result, now);
    RowOKElsewhere(KeyOf(t), row, os, os');
  }

  lemma OursFromInv(l: Ledger, os: seq<Order>, run: string, session: string, t: Trade)
    requires Inv(l, os) && Tagged(run, t) && OpenOnly(l, run, session) && KeyOf(t) in l
    ensures Ours(l, run, session, t)
  {
    assert RowOK(KeyOf(t), l[KeyOf(t)], os);
  }

  /** A recorded row keeps the submission's view of the ledger. */
  lemma OpenOnlyWrites(l: Ledger, run: string, session: string, t: Trade, row: Entry)
    requires OpenOnly(l, run, session) && row.run == run && row.session == session
    ensures OpenOnly(l[row.key := row], run, session)
  {
  }

  lemma RecordedInv(l: Ledger, os: seq<Order>, run: string, session: string, t: Trade, result: OrderResult, now: real)
    requires Inv(l, os) && Ours(l, run, session, t) && KeyOf(t) in l
    requires Recordable(l, os, run, session, t, result, now)
    ensures var row := Recorded(l, run, session, t, result, now);
            row.key == KeyOf(t) && row.run == run && row.session == session
            && Inv(l[KeyOf(t) := row], os) && Ours(l[KeyOf(t) := row], run, session, t)
  {
    var row := Recorded(l, run, session, t, result, now);
    InvWrites(l, os, row);
    assert row.session == session;
    OpenOnlyWrites(l, run, session, t, row);
    OursFromInv(l[KeyOf(t) := row], os, run, session, t);
  }

  /** Recording the same uncertain outcome again is allowed. */
  lemma UncertainTwice(l: Ledger, os: seq<Order>, run: string, session: string, t: Trade, id: nat, now: real)
    requires Inv(l, os) && Ours(l, run, session, t) && Sent(l, os, run, session, t, id)
    requires !l[KeyOf(t)].state.CANCELLED? && !l[KeyOf(t)].state.REJECTED?
    ensures var result := BrokerResult(t, os[id], id, SubmissionUnconfirmed, true);
            && Recordable(l, os, run, session, t, result, now)
            && Recordable(l[KeyOf(t) := Recorded(l, run, session, t, result, now)], os, run, session, t, result, now)
  {
    var result := BrokerResult(t, os[id], id, SubmissionUnconfirmed, true);
    UncertainAdmissible(l, os, run, session, t, id, now);
    RecordedInv(l, os, run, session, t, result, now);
    OnlyOrder(l, os, run, session, t, id);
    BasePerm(l, os, run, session, t, id);
    UncertainAdmissible(l[KeyOf(t) := Recorded(l, run, session, t, result, now)], os, run, session, t, id, now);
  }

  /** Recording the same local block again is allowed. */
  lemma LocalTwice(l: Ledger, os: seq<Order>, run: string, session: string, t: Trade, status: RawStatus, now: real)
    requires Inv(l, os) && Ours(l, run, session, t) && KeyOf(t) in l
    requires Unplaced(os, KeyOf(t)) && IsLocalBlock(status)
    requires Settled(l[KeyOf(t)]) ==> l[KeyOf(t)].raw == status
    ensures var result := LocalResult(t, status);
            var row := Recorded(l, run, session, t, result, now);
            && Recordable(l, os, run, session, t, result, now)
            && Recordable(l[KeyOf(t) := row], os, run, session, t, result, now)
            && row.raw == status
            && (status.SubmissionUnconfirmed? ==> !row.Terminal() && !row.state.PLANNED? && !Retryable(row))
  {
    var result := LocalResult(t, status);
    var row := Recorded(l, run, session, t, result, now);
    LocalAdmissible(l, os, run, session, t, status, now);
    LocalRow(l, run, session, t, status, now);
    RecordedInv(l, os, run, session, t, result, now);
    LocalAdmissible(l[KeyOf(t) := row], os, run, session, t, status, now);
  }

  lemma LocalRow(l: Ledger, run: string, session: string, t: Trade, status: RawStatus, now: real)
    requires t.orderRef.Some? && IsLocalBlock(status)
    ensures var row := Recorded(l, run, session, t, LocalResult(t, status), now);
            && row.raw == status && row.filled == 0.0
            && (status.SubmissionUnconfirmed? ==> !row.Terminal() && !row.state.PLANNED? && !Retryable(row))
  {
  }

  // ---- what an answer says ----

  /** An answer with an order id names the trade's order at the broker; an answer without one means
      that nothing of the trade is there, unless it says that nobody knows.  Whatever is there is the
      one first order, for the answer's quantity.  A replayed answer only repeats what an earlier
      attempt recorded. */
  ghost predicate Truthful(os: seq<Order>, t: Trade, result: OrderResult)
    requires t.orderRef.Some?
  {
    || result.status.IdempotentReplay?
    || ((forall i | InFamily(os, KeyOf(t), i) :: os[i].ref == KeyOf(t) && os[i].total == result.quantity)
        && match result.orderId
           case Some(id) => InFamily(os, KeyOf(t), id)
           case None => result.status.SubmissionUnconfirmed? || Unplaced(os, KeyOf(t)))
  }

  lemma TruthfulElsewhere(os: seq<Order>, os': seq<Order>, t: Trade, result: OrderResult)
    requires t.orderRef.Some? && Truthful(os, t, result) && Later(os, os')
    requires forall i | |os| <= i < |os'| :: RootOf(os'[i].ref) != KeyOf(t)
    ensures Truthful(os', t, result)
  {
    forall i | 0 <= i < |os'|
      ensures InFamily(os', KeyOf(t), i) <==> InFamily(os, KeyOf(t), i)
      ensures InFamily(os, KeyOf(t), i) ==> os'[i].ref == os[i].ref && os'[i].total == os[i].total
    {
      assert i < |os| ==> Moves(os[i], os'[i]);
    }
  }

  /** What is known of the only order of a sent trade. */
  lemma SentIsTruthful(l: Ledger, os: seq<Order>, run: string, session: string, t: Trade, id: nat, result: OrderResult)
    requires Inv(l, os) && Sent(l, os, run, session, t, id) && result.quantity == t.quantity
    requires result.orderId == Some(id) || (result.orderId.None? && result.status.SubmissionUnconfirmed?)
    ensures Truthful(os, t, result)
  {
    OnlyOrder(l, os, run, session, t, id);
  }

  // ---- a batch of trades ----

  ghost predicate Batch(run: string, trades: seq<Trade>) {
    && (forall i | 0 <= i < |trades| :: Tagged(run, trades[i]))
    && (forall i, j | 0 <= i < j < |trades| :: trades[i].ticker != trades[j].ticker)
  }

  function Keys(trades: seq<Trade>): set<Ref> {
    set i | 0 <= i < |trades| && trades[i].orderRef.Some? :: KeyOf(trades[i])
  }

  ghost predicate Returned(l: Ledger, os: seq<Order>, run: string, session: string, t: Trade, result: OrderResult,
                           now: real) {
    && Tagged(run, t) && KeyOf(t) in l && Recordable(l, os, run, session, t, result, now)
    && AnswerOf(t, result) && Truthful(os, t, result)
  }

  /** A result of this attempt, not of an earlier one, for the whole trade. */
  predicate AnswerOf(t: Trade, result: OrderResult) {
    && result.ticker == t.ticker && result.side == t.side && result.quantity == t.quantity
    && !result.status.IdempotentReplay?
  }

  /** The first trades of the batch have a result, the others are still only staged. */
  ghost predicate Progress(l: Ledger, os: seq<Order>, run: string, session: string, trades: seq<Trade>,
                           results: seq<OrderResult>, now: real) {
    && |results| <= |trades|
    && (forall j | 0 <= j < |results| :: Returned(l, os, run, session, trades[j], results[j], now))
    && (forall j | |results| <= j < |trades| :: Staged(l, os, run, session, trades[j]))
  }

  lemma ReturnedElsewhere(l: Ledger, os: seq<Order>, l': Ledger, os': seq<Order>,
                          run: string, session: string, t: Trade, result: OrderResult, now: real, key: Ref)
    requires Inv(l, os) && OpenOnly(l, run, session) && OpenOnly(l', run, session)
    requires Returned(l, os, run, session, t, result, now)
    requires StepsIn({key}, l, os, l', os') && KeyOf(t) != key
    ensures Returned(l', os', run, session, t, result, now)
  {
    assert RowOK(KeyOf(t), l[KeyOf(t)], os);
    RecordableElsewhere(l, os, l', os', run, session, t, result, now);
    TruthfulElsewhere(os, os', t, result);
  }

  lemma StagedElsewhere(l: Ledger, os: seq<Order>, l': Ledger, os': seq<Order>, run: string, session: string,
                        t: Trade, key: Ref)
    requires Staged(l, os, run, session, t)
    requires StepsIn({key}, l, os, l', os') && KeyOf(t) != key
    ensures Staged(l', os', run, session, t)
  {
    UnplacedElsewhere(KeyOf(t), os, os');
  }

  /** Work on trade `n` leaves the others where they were. */
  lemma ProgressElsewhere(l: Ledger, os: seq<Order>, l': Ledger, os': seq<Order>,
                          run: string, session: string, trades: seq<Trade>, results: seq<OrderResult>, now: real, n: nat)
    requires Inv(l, os) && OpenOnly(l, run, session) && OpenOnly(l', run, session)
    requires Batch(run, trades) && n < |trades|
    requires Progress(l, os, run, session, trades, results, now)
    requires StepsIn({KeyOf(trades[n])}, l, os, l', os')
    ensures forall j | 0 <= j < |results| && j != n :: Returned(l', os', run, session, trades[j], results[j], now)
    ensures forall j | |results| <= j < |trades| && j != n :: Staged(l', os', run, session, trades[j])
  {
    forall j | 0 <= j < |results| && j != n ensures Returned(l', os', run, session, trades[j], results[j], now) {
      assert j < n ==> KeyOf(trades[j]) != KeyOf(trades[n]);
      ReturnedElsewhere(l, os, l', os', run, session, trades[j], results[j], now, KeyOf(trades[n]));
    }
    forall j | |results| <= j < |trades| && j != n ensures Staged(l', os', run, session, trades[j]) {
      assert n < j ==> KeyOf(trades[n]) != KeyOf(trades[j]);
      StagedElsewhere(l, os, l', os', run, session, trades[j], KeyOf(trades[n]));
    }
  }

  /** The next trade of the batch got its result. */
  lemma ProgressNext(l0: Ledger, o0: seq<Order>, l: Ledger, os: seq<Order>, l': Ledger, os': seq<Order>,
                     run: string, session: string, trades: seq<Trade>, results: seq<OrderResult>, result: OrderResult, now: real)
    requires Inv(l, os) && OpenOnly(l, run, session) && OpenOnly(l', run, session)
    requires Batch(run, trades) && StepsIn(Keys(trades), l0, o0, l, os)
    requires Progress(l, os, run, session, trades, results, now) && |results| < |trades|
    requires StepsIn({KeyOf(trades[|results|])}, l, os, l', os')
    requires Returned(l', os', run, session, trades[|results|], result, now)
    ensures StepsIn(Keys(trades), l0, o0, l', os')
    ensures Progress(l', os', run, session, trades, results + [result], now)
  {
    ProgressElsewhere(l, os, l', os', run, session, trades, results, now, |results|);
    BatchSteps(l0, o0, l, os, l', os', run, trades, |results|);
  }

  /** The next trade of the batch was tried without a trace. */
  lemma ProgressSame(l0: Ledger, o0: seq<Order>, l: Ledger, os: seq<Order>, l': Ledger, os': seq<Order>,
                     run: string, session: string, trades: seq<Trade>, results: seq<OrderResult>, now: real)
    requires Inv(l, os) && OpenOnly(l, run, session) && OpenOnly(l', run, session)
    requires Batch(run, trades) && StepsIn(Keys(trades), l0, o0, l, os)
    requires Progress(l, os, run, session, trades, results, now) && |results| < |trades|
    requires StepsIn({KeyOf(trades[|results|])}, l, os, l', os')
    requires Staged(l', os', run, session, trades[|results|])
    ensures StepsIn(Keys(trades), l0, o0, l', os')
    ensures Progress(l', os', run, session, trades, results, now)
  {
    ProgressElsewhere(l, os, l', os', run, session, trades, results, now, |results|);
    BatchSteps(l0, o0, l, os, l', os', run, trades, |results|);
  }

  lemma BatchSteps(l0: Ledger, o0: seq<Order>, l: Ledger, os: seq<Order>, l': Ledger, os': seq<Order>,
                   run: string, trades: seq<Trade>, n: nat)
    requires Batch(run, trades) && n < |trades|
    requires StepsIn(Keys(trades), l0, o0, l, os) && StepsIn({KeyOf(trades[n])}, l, os, l', os')
    ensures StepsIn(Keys(trades), l0, o0, l', os')
  {
    StepsInWidens({KeyOf(trades[n])}, Keys(trades), l, os, l', os');
    StepsInTransitive(Keys(trades), l0, o0, l, os, l', os');
  }

  // ---- trades on their way to submission ----

  /** A planned trade that a submission phase may still stage: nothing of it is at the broker, and its
      open row allows its quantity. */
  ghost predicate Pending(l: Ledger, os: seq<Order>, run: string, t: Trade) {
    && Tagged(run, t) && KeyOf(t) in l && Unplaced(os, KeyOf(t))
    && !l[KeyOf(t)].Terminal() && t.quantity <= l[KeyOf(t)].quantity
  }

  ghost predicate AllPending(l: Ledger, os: seq<Order>, run: string, trades: seq<Trade>) {
    Batch(run, trades) && forall j | 0 <= j < |trades| :: Pending(l, os, run, trades[j])
  }

  /** A trade that was recorded as planned while nothing of it was placed may be staged. */
  lemma PlannedPending(l: Ledger, os: seq<Order>, l': Ledger, run: string, session: string, t: Trade)
    requires Tagged(run, t) && Unplaced(os, KeyOf(t)) && l' == l[KeyOf(t) := PlannedEntry(run, session, t)]
    ensures Pending(l', os, run, t)
  {
  }

  lemma PendingElsewhere(l: Ledger, os: seq<Order>, l': Ledger, os': seq<Order>, run: string, t: Trade, keys: set<Ref>)
    requires Pending(l, os, run, t)
    requires StepsIn(keys, l, os, l', os') && KeyOf(t) !in keys
    ensures Pending(l', os', run, t)
  {
    UnplacedElsewhere(KeyOf(t), os, os');
  }

  lemma AllPendingElsewhere(l: Ledger, os: seq<Order>, l': Ledger, os': seq<Order>, run: string, trades: seq<Trade>,
                            keys: set<Ref>)
    requires AllPending(l, os, run, trades) && StepsIn(keys, l, os, l', os')
    requires forall j | 0 <= j < |trades| :: KeyOf(trades[j]) !in keys
    ensures AllPending(l', os', run, trades)
  {
    forall j | 0 <= j < |trades| ensures Pending(l', os', run, trades[j]) {
      PendingElsewhere(l, os, l', os', run, trades[j], keys);
    }
  }

  /** The first `n` trades are staged, the others still pending. */
  ghost predicate Staging(l: Ledger, os: seq<Order>, run: string, session: string, trades: seq<Trade>, n: nat) {
    && n <= |trades|
    && (forall j | 0 <= j < n :: Staged(l, os, run, session, trades[j]))
    && (forall j | n <= j < |trades| :: Pending(l, os, run, trades[j]))
  }

  lemma StagingNext(l: Ledger, os: seq<Order>, l': Ledger, os': seq<Order>, run: string, session: string,
                    trades: seq<Trade>, n: nat)
    requires Batch(run, trades) && n < |trades| && Staging(l, os, run, session, trades, n)
    requires StepsIn({KeyOf(trades[n])}, l, os, l', os') && Staged(l', os', run, session, trades[n])
    ensures Staging(l', os', run, session, trades, n + 1)
  {
    forall j | 0 <= j < n ensures Staged(l', os', run, session, trades[j]) {
      assert trades[j].ticker != trades[n].ticker;
      StagedElsewhere(l, os, l', os', run, session, trades[j], KeyOf(trades[n]));
    }
    forall j | n < j < |trades| ensures Pending(l', os', run, trades[j]) {
      assert trades[n].ticker != trades[j].ticker;
      PendingElsewhere(l, os, l', os', run, trades[j], {KeyOf(trades[n])});
    }
  }

  /** From the `n`th on, results still wait to be recorded. */
  ghost predicate Returning(l: Ledger, os: seq<Order>, run: string, session: string, trades: seq<Trade>,
                            results: seq<OrderResult>, n: nat, now: real) {
    && |results| == |trades|
    && forall j | n <= j < |trades| :: Returned(l, os, run, session, trades[j], results[j], now)
  }

  lemma ReturningNext(l: Ledger, os: seq<Order>, l': Ledger, os': seq<Order>,
                       run: string, session: string, trades: seq<Trade>, results: seq<OrderResult>, n: nat, now: real)
    requires Inv(l, os) && OpenOnly(l, run, session) && OpenOnly(l', run, session)
    requires Batch(run, trades) && n < |trades| && Returning(l, os, run, session, trades, results, n, now)
    requires StepsIn({KeyOf(trades[n])}, l, os, l', os')
    ensures Returning(l', os', run, session, trades, results, n + 1, now)
  {
    forall j | n < j < |trades| ensures Returned(l', os', run, session, trades[j], results[j], now) {
      assert trades[n].ticker != trades[j].ticker;
      ReturnedElsewhere(l, os, l', os', run, session, trades[j], results[j], now, KeyOf(trades[n]));
    }
  }

  ghost predicate PendingFrom(l: Ledger, os: seq<Order>, run: string, trades: seq<Trade>, n: nat) {
    n <= |trades| && forall j | n <= j < |trades| :: Pending(l, os, run, trades[j])
  }

  lemma PendingFromNext(l: Ledger, os: seq<Order>, l': Ledger, os': seq<Order>, run: string, trades: seq<Trade>, n: nat)
    requires Batch(run, trades) && n < |trades| && PendingFrom(l, os, run, trades, n)
    requires StepsIn({KeyOf(trades[n])}, l, os, l', os')
    ensures PendingFrom(l', os', run, trades, n + 1)
  {
    forall j | n < j < |trades| ensures Pending(l', os', run, trades[j]) {
      assert trades[n].ticker != trades[j].ticker;
      PendingElsewhere(l, os, l', os', run, trades[j], {KeyOf(trades[n])});
    }
  }

  // ---- the answers of a plan ----

  type Answers = map<string, OrderResult>

  ghost predicate Answered(os: seq<Order>, answers: Answers, t: Trade) {
    && t.orderRef.Some? && t.ticker in answers
    && answers[t.ticker].ticker == t.ticker && answers[t.ticker].side == t.side && Truthful(os, t, answers[t.ticker])
  }

  predicate AnsweredLocally(answers: Answers, t: Trade, status: RawStatus) {
    t.ticker in answers && answers[t.ticker] == LocalResult(t, status)
  }

  /** The first `n` answers are of this attempt, for exactly the quantity of their trade. */
  predicate ForQuantity(answers: Answers, trades: seq<Trade>, n: nat) {
    && n <= |trades|
    && forall j | 0 <= j < n :: trades[j].ticker in answers && AnswerOf(trades[j], answers[trades[j].ticker])
  }

  lemma ForQuantityNext(run: string, answers: Answers, trades: seq<Trade>, n: nat, result: OrderResult)
    requires Batch(run, trades) && n < |trades| && ForQuantity(answers, trades, n)
    requires AnswerOf(trades[n], result)
    ensures ForQuantity(answers[trades[n].ticker := result], trades, n + 1)
  {
    assert forall j | 0 <= j < n :: trades[j].ticker != trades[n].ticker;
  }

  /** The trade's row says what its result says. */
  predicate RowSays(l: Ledger, t: Trade, result: OrderResult) {
    && t.orderRef.Some? && KeyOf(t) in l && l[KeyOf(t)].raw == result.status && l[KeyOf(t)].filled == result.filled
    && (result.orderId.Some? ==> l[KeyOf(t)].orderId == result.orderId)
  }

  lemma RecordedSays(l: Ledger, run: string, session: string, t: Trade, result: OrderResult, now: real)
    requires t.orderRef.Some?
    ensures RowSays(l[KeyOf(t) := Recorded(l, run, session, t, result, now)], t, result)
  {
  }

  /** The first `n` trades are answered by their results, and their rows say the same. */
  predicate Posted(l: Ledger, answers: Answers, trades: seq<Trade>, results: seq<OrderResult>, n: nat) {
    && n <= |trades| == |results|
    && forall j | 0 <= j < n :: trades[j].ticker in answers && answers[trades[j].ticker] == results[j] && RowSays(l, trades[j], results[j])
  }

  lemma PostedNext(l: Ledger, os: seq<Order>, l': Ledger, os': seq<Order>, run: string, answers: Answers,
                   trades: seq<Trade>, results: seq<OrderResult>, n: nat)
    requires Batch(run, trades) && n < |trades| && Posted(l, answers, trades, results, n)
    requires StepsIn({KeyOf(trades[n])}, l, os, l', os') && RowSays(l', trades[n], results[n])
    ensures Posted(l', answers[trades[n].ticker := results[n]], trades, results, n + 1)
  {
    forall j | 0 <= j < n ensures RowSays(l', trades[j], results[j]) && trades[j].ticker != trades[n].ticker {
      assert KeyOf(trades[j]) != KeyOf(trades[n]);
    }
  }

  /** The results that say of every trade that it was blocked locally. */
  function LocalResults(trades: seq<Trade>, status: RawStatus): seq<OrderResult> {
    seq(|trades|, i requires 0 <= i < |trades| => LocalResult(trades[i], status))
  }

  /** Every order placed since is for one of the trades, for exactly its quantity. */
  ghost predicate OrdersFor(os: seq<Order>, os': seq<Order>, trades: seq<Trade>) {
    forall i | |os| <= i < |os'| :: OrderFor(os'[i], trades)
  }

  ghost predicate OrderFor(order: Order, trades: seq<Trade>) {
    exists j :: 0 <= j < |trades| && trades[j].orderRef == Some(order.ref) && order.total == trades[j].quantity
  }

  lemma AnsweredOrders(os: seq<Order>, os': seq<Order>, run: string, trades: seq<Trade>, answers: Answers)
    requires Batch(run, trades) && GrowsIn(Keys(trades), os, os')
    requires AllAnswered(os', answers, trades) && ForQuantity(answers, trades, |trades|)
    ensures OrdersFor(os, os', trades)
  {
    forall i | |os| <= i < |os'| ensures OrderFor(os'[i], trades) {
      var j :| 0 <= j < |trades| && trades[j].orderRef.Some? && KeyOf(trades[j]) == os'[i].ref;
      assert InFamily(os', KeyOf(trades[j]), i) && Answered(os', answers, trades[j]);
    }
  }

  predicate AllLocal(answers: Answers, trades: seq<Trade>, n: nat, status: RawStatus) {
    n <= |trades| && forall j | 0 <= j < n :: AnsweredLocally(answers, trades[j], status)
  }

  lemma AllLocalNext(run: string, answers: Answers, trades: seq<Trade>, n: nat, status: RawStatus)
    requires Batch(run, trades) && n < |trades| && AllLocal(answers, trades, n, status)
    ensures AllLocal(answers[trades[n].ticker := LocalResult(trades[n], status)], trades, n + 1, status)
  {
    assert forall j | 0 <= j < n :: trades[j].ticker != trades[n].ticker;
  }

  lemma AnsweredElsewhere(keys: set<Ref>, os: seq<Order>, os': seq<Order>, answers: Answers, t: Trade)
    requires Answered(os, answers, t) && GrowsIn(keys, os, os') && KeyOf(t) !in keys
    ensures Answered(os', answers, t)
  {
    TruthfulElsewhere(os, os', t, answers[t.ticker]);
  }

  ghost predicate AllAnswered(os: seq<Order>, answers: Answers, trades: seq<Trade>) {
    forall j | 0 <= j < |trades| :: Answered(os, answers, trades[j])
  }

  /** Answers only change for the given tickers. */
  predicate KeepsAnswers(before: Answers, after: Answers, tickers: set<string>) {
    forall k | k in before && k !in tickers :: k in after && after[k] == before[k]
  }

  /** The first `n` trades have their answers, and no other answer changed. */
  ghost predicate Answering(os: seq<Order>, before: Answers, after: Answers, trades: seq<Trade>, n: nat) {
    && n <= |trades| && (forall j | 0 <= j < n :: Answered(os, after, trades[j]))
    && KeepsAnswers(before, after, TickersOf(trades))
  }

  lemma AnsweringNext(os: seq<Order>, before: Answers, after: Answers, run: string, trades: seq<Trade>, n: nat,
                      result: OrderResult)
    requires Batch(run, trades) && n < |trades| && Answering(os, before, after, trades, n)
    requires result.ticker == trades[n].ticker && result.side == trades[n].side && Truthful(os, trades[n], result)
    ensures Answering(os, before, after[trades[n].ticker := result], trades, n + 1)
  {
  }

  function TickersOf(trades: seq<Trade>): set<string> {
    set j | 0 <= j < |trades| :: trades[j].ticker
  }

  lemma KeyTickers(run: string, trades: seq<Trade>)
    requires Batch(run, trades)
    ensures forall k | k in Keys(trades) :: k.Root? && k.ticker in TickersOf(trades)
  {
    forall k | k in Keys(trades) ensures k.Root? && k.ticker in TickersOf(trades) {
      var i :| 0 <= i < |trades| && trades[i].orderRef.Some? && KeyOf(trades[i]) == k;
      assert trades[i].ticker in TickersOf(trades);
    }
  }
}
